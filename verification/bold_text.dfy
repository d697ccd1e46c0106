/**
 * The phrase highlighter of the recommendation letter modal
 * (src/components/RecommendationModal.tsx): `formatTextWithBold` cuts a
 * paragraph into plain strings and bold elements, one listed phrase after
 * the other, and the modal splits a letter body into paragraphs.
 *
 * Each phrase is a case-insensitive literal pattern with the `g` and `i`
 * flags; four of them are wrapped in `\b` word boundaries.  The regular
 * expression engine is modelled by `MatchAt` (does the pattern match at this
 * position) and `NextMatch` (the leftmost match at or after a position),
 * which is how `matchAll` with a global pattern walks a string.
 */
module BoldText {
  import opened Strings

  datatype Phrase = Phrase(text: string, wholeWord: bool, className: string)

  /** A child of the paragraph: a plain string or a `<strong>` element with its class. */
  datatype Part = Plain(text: string) | Bold(text: string, className: string)

  /** A rendered line of a letter body: a `<br>` or a `<p>` holding the parts. */
  datatype Block = Break | Paragraph(parts: seq<Part>)

  const White := "font-bold text-white"
  const Orange := "font-bold text-[#FF9900]"

  const Amazon := "Amazon University Engagement Program"
  const Minor := "Minor Future of Technology and Society"
  const Teams := "more than 50 international teams"
  const Talented := "talented, enthusiastic and creative"
  const ResultDriven := "result driven creative thinking"
  const Recommendation := "professional recommendation"
  const Leader := "capable and responsive leader"
  const SenseMaking := "sense-making and futures literacy"
  const Questioning := "questioning existing assumptions"
  const Analytical := "excellent analytical and communication skills"
  const AugmentedReality := "augmented reality applications"
  const FullStack := "full-stack web application"
  const Scheduling := "AI/LLM scheduling assistant"
  const ComfortZone := "outside his comfort zone"

  /** The game as the letter spells it, with U+00E9. */
  const Pokemon := "Pok\U{E9}mon Go"
  /** The game as the phrase list spells it: the UTF-8 bytes of U+00E9 read as Latin-1. */
  const PokemonMojibake := "Pok\U{C3}\U{A9}mon Go"

  /** The phrase list, longer phrases first, with the game's name spelt as in the letters. */
  const Phrases: seq<Phrase> := [
    Phrase("second place", false, White),
    Phrase(Teams, false, White),
    Phrase(Amazon, false, Orange),
    Phrase(Minor, false, Orange),
    Phrase("Hanze University", false, Orange),
    Phrase(FullStack, false, White),
    Phrase(Scheduling, false, White),
    Phrase(AugmentedReality, false, White),
    Phrase(Pokemon, false, White),
    Phrase(Talented, false, Orange),
    Phrase("team player", true, Orange),
    Phrase("creative ideas", false, White),
    Phrase("leadership", true, Orange),
    Phrase("technical vision", false, White),
    Phrase("perseverance", true, Orange),
    Phrase("resiliency", true, Orange),
    Phrase(ComfortZone, false, White),
    Phrase(ResultDriven, false, White),
    Phrase("valuable asset", false, White),
    Phrase(Recommendation, false, White),
    Phrase(Leader, false, Orange),
    Phrase("successful project", false, White),
    Phrase("futures thinking", false, White),
    Phrase("original, novel ideas", false, White),
    Phrase(SenseMaking, false, White),
    Phrase(Questioning, false, White),
    Phrase("solid, self-disciplined", false, Orange),
    Phrase("high eagerness to learn", false, Orange),
    Phrase(Analytical, false, Orange),
    Phrase("pleasure to work with", false, White)
  ]

  /** The phrase list as the source writes it: the game's name is mis-encoded. */
  const PhrasesAsWritten: seq<Phrase> := Phrases[8 := Phrase(PokemonMojibake, false, White)]

  /** Every phrase of a list is non-empty, so each match moves the scan forward. */
  predicate NonEmptyPhrases(phs: seq<Phrase>)
  {
    forall k :: 0 <= k < |phs| ==> phs[k].text != []
  }

  /** `\b` at position `k`: exactly one of the characters around it is a word character. */
  predicate Boundary(t: string, k: int)
  {
    (0 < k <= |t| && IsWordChar(t[k - 1])) != (0 <= k < |t| && IsWordChar(t[k]))
  }

  /** The pattern of `ph` (flag `i`) matches `t` at position `i`. */
  predicate MatchAt(t: string, i: nat, ph: Phrase)
  {
    i + |ph.text| <= |t| && SameIgnoringCase(t[i..i + |ph.text|], ph.text)
    && (ph.wholeWord ==> Boundary(t, i) && Boundary(t, i + |ph.text|))
  }

  /** The leftmost match at or after `from`: where a global pattern's next `exec` lands. */
  function NextMatch(t: string, from: nat, ph: Phrase): (r: Option<nat>)
    requires from <= |t|
    ensures r.Some? ==> from <= r.value && r.value + |ph.text| <= |t|
    decreases |t| - from
  {
    if MatchAt(t, from, ph) then Some(from)
    else if from == |t| then None
    else NextMatch(t, from + 1, ph)
  }

  /** `NextMatch` finds a match, none is skipped before it, and it fails only when no match is left. */
  lemma {:induction false} NextMatchIsLeftmost(t: string, from: nat, ph: Phrase)
    requires from <= |t|
    ensures var r := NextMatch(t, from, ph);
      && (r.Some? ==> MatchAt(t, r.value, ph) && forall q :: from <= q < r.value ==> !MatchAt(t, q, ph))
      && (r.None? <==> forall q :: from <= q <= |t| ==> !MatchAt(t, q, ph))
    decreases |t| - from
  {
    if !MatchAt(t, from, ph) && from < |t| {
      NextMatchIsLeftmost(t, from + 1, ph);
    }
  }

  /** Match starts read left to right from `from`: each at or after the end of the one before, each inside the text. */
  predicate Fits(ms: seq<nat>, from: nat, n: nat, len: nat)
    decreases |ms|
  {
    ms == [] || (from <= ms[0] && ms[0] + n <= len && Fits(ms[1..], ms[0] + n, n, len))
  }

  /** `Array.from(t.matchAll(regex))`: the start of every match from `from` on, left to right, never overlapping. */
  function Matches(t: string, from: nat, ph: Phrase): (r: seq<nat>)
    requires from <= |t| && ph.text != []
    ensures Fits(r, from, |ph.text|, |t|)
    decreases |t| - from
  {
    match NextMatch(t, from, ph)
    case None => []
    case Some(p) => [p] + Matches(t, p + |ph.text|, ph)
  }

  /** The pieces one match contributes: the text since `from` when there is any, then the bold match at `p`. */
  function Head(t: string, from: nat, p: nat, ph: Phrase): (r: seq<Part>)
    requires from <= p && p + |ph.text| <= |t| && ph.text != []
    ensures Text(r) == t[from..p + |ph.text|]
  {
    var bold := Bold(t[p..p + |ph.text|], ph.className);
    assert Text([bold]) == bold.text by { assert [bold][1..] == []; }
    if p > from then
      assert [Plain(t[from..p]), bold][1..] == [bold];
      assert t[from..p + |ph.text|] == t[from..p] + bold.text;
      [Plain(t[from..p]), bold]
    else
      [bold]
  }

  lemma HeadPieces(t: string, from: nat, p: nat, ph: Phrase)
    requires from <= p && p + |ph.text| <= |t| && ph.text != []
    ensures forall x :: x in Head(t, from, p, ph) ==> x.text != []
    ensures forall x :: x in Head(t, from, p, ph) && x.Bold? ==> x == Bold(t[p..p + |ph.text|], ph.className)
  {
  }

  /** The pieces of `t[from..]` around the match starts `ms`. */
  function Cut(t: string, from: nat, ms: seq<nat>, ph: Phrase): seq<Part>
    requires from <= |t| && ph.text != [] && Fits(ms, from, |ph.text|, |t|)
    decreases |ms|
  {
    if ms == [] then (if from < |t| then [Plain(t[from..])] else [])
    else
      Head(t, from, ms[0], ph) + Cut(t, ms[0] + |ph.text|, ms[1..], ph)
  }

  /** Cutting from `from` is the first match's pieces, then cutting after that match. */
  lemma CutAdvance(done: seq<Part>, t: string, from: nat, ms: seq<nat>, ph: Phrase)
    requires from <= |t| && ph.text != [] && Fits(ms, from, |ph.text|, |t|) && ms != []
    ensures Fits(ms[1..], ms[0] + |ph.text|, |ph.text|, |t|)
    ensures (done + Head(t, from, ms[0], ph)) + Cut(t, ms[0] + |ph.text|, ms[1..], ph) == done + Cut(t, from, ms, ph)
  {
    var head, rest := Head(t, from, ms[0], ph), Cut(t, ms[0] + |ph.text|, ms[1..], ph);
    assert Cut(t, from, ms, ph) == head + rest;
    assert (done + head) + rest == done + (head + rest);
  }

  /** What one phrase does to one string part: unchanged without a match, cut around the matches otherwise. */
  function SplitPart(t: string, ph: Phrase): seq<Part>
    requires ph.text != []
  {
    var ms := Matches(t, 0, ph);
    if ms == [] then [Plain(t)] else Cut(t, 0, ms, ph)
  }

  /** What one phrase does to one part; a bold element is never looked into again. */
  function PassOne(x: Part, ph: Phrase): seq<Part>
    requires ph.text != []
  {
    match x
    case Plain(t) => SplitPart(t, ph)
    case Bold(_, _) => [x]
  }

  /** One round of the outer `forEach`: every part of the list through `PassOne`, in order. */
  function Pass(parts: seq<Part>, ph: Phrase): seq<Part>
    requires ph.text != []
  {
    if parts == [] then [] else PassOne(parts[0], ph) + Pass(parts[1..], ph)
  }

  /** `formatTextWithBold(text)` with the phrases `phs`, taken in list order. */
  function Format(text: string, phs: seq<Phrase>): seq<Part>
    requires NonEmptyPhrases(phs)
  {
    if phs == [] then [Plain(text)]
    else Pass(Format(text, phs[..|phs| - 1]), phs[|phs| - 1])
  }

  /** The text a list of parts shows: the plain strings and the bold texts, concatenated. */
  function Text(parts: seq<Part>): string
  {
    if parts == [] then "" else parts[0].text + Text(parts[1..])
  }

  predicate NoEmptyParts(parts: seq<Part>)
  {
    forall x :: x in parts ==> x.text != []
  }

  /** Every bold part carries the class of a phrase of `phs` and spells that phrase up to case. */
  predicate BoldFrom(parts: seq<Part>, phs: seq<Phrase>)
  {
    forall x :: x in parts && x.Bold? ==>
      exists k :: 0 <= k < |phs| && SameIgnoringCase(x.text, phs[k].text) && x.className == phs[k].className
  }

  // ---------------------------------------------------------------------------
  // The imperative highlighter, proved against `Format`.

  /** The inner `matches.forEach`: cuts one string part around the matches of one phrase. */
  method SplitString(part: string, ph: Phrase) returns (pieces: seq<Part>)
    requires ph.text != []
    ensures pieces == SplitPart(part, ph)
  {
    var matches := Matches(part, 0, ph);
    if |matches| == 0 {
      return [Plain(part)];
    }
    pieces := CutAround(part, matches, ph);
  }

  /** The loop over the matches, then the text after the last one. */
  method CutAround(part: string, matches: seq<nat>, ph: Phrase) returns (pieces: seq<Part>)
    requires ph.text != [] && Fits(matches, 0, |ph.text|, |part|)
    ensures pieces == Cut(part, 0, matches, ph)
  {
    pieces := [];
    var lastIndex: nat := 0;
    var rest := matches;
    while rest != []
      invariant lastIndex <= |part|
      invariant Fits(rest, lastIndex, |ph.text|, |part|)
      invariant pieces + Cut(part, lastIndex, rest, ph) == Cut(part, 0, matches, ph)
      decreases |rest|
    {
      var index := rest[0];
      CutAdvance(pieces, part, lastIndex, rest, ph);
      pieces := PushMatch(pieces, part, lastIndex, index, ph);
      lastIndex := index + |ph.text|;
      rest := rest[1..];
    }
    if lastIndex < |part| {
      pieces := pieces + [Plain(part[lastIndex..])];
    }
  }

  /** The body of the inner `forEach`: push the text since the last match when there is any, then the bold match. */
  method PushMatch(pieces: seq<Part>, part: string, lastIndex: nat, index: nat, ph: Phrase) returns (pieces': seq<Part>)
    requires lastIndex <= index && index + |ph.text| <= |part| && ph.text != []
    ensures pieces' == pieces + Head(part, lastIndex, index, ph)
  {
    pieces' := pieces;
    if index > lastIndex {
      pieces' := pieces' + [Plain(part[lastIndex..index])];
    }
    pieces' := pieces' + [Bold(part[index..index + |ph.text|], ph.className)];
  }

  /** The middle `parts.forEach` for one phrase: a fresh list of the new parts. */
  method SplitParts(parts: seq<Part>, ph: Phrase) returns (newParts: seq<Part>)
    requires ph.text != []
    ensures newParts == Pass(parts, ph)
  {
    newParts := [];
    for j := 0 to |parts|
      invariant newParts == Pass(parts[..j], ph)
    {
      PassAppend(parts[..j], [parts[j]], ph);
      assert parts[..j + 1] == parts[..j] + [parts[j]];
      match parts[j]
      case Plain(t) =>
        var pieces := SplitString(t, ph);
        newParts := newParts + pieces;
      case Bold(_, _) =>
        newParts := newParts + [parts[j]];
    }
    assert parts[..|parts|] == parts;
  }

  /** `formatTextWithBold`: the outer `importantPhrases.forEach`, reassigning `parts` per phrase. */
  method FormatTextWithBold(text: string, phs: seq<Phrase>) returns (parts: seq<Part>)
    requires NonEmptyPhrases(phs)
    ensures parts == Format(text, phs)
    ensures Text(parts) == text
  {
    parts := [Plain(text)];
    for k := 0 to |phs|
      invariant parts == Format(text, phs[..k])
    {
      assert phs[..k + 1][..k] == phs[..k];
      parts := SplitParts(parts, phs[k]);
    }
    assert phs[..|phs|] == phs;
    FormatKeepsText(text, phs);
  }

  // ---------------------------------------------------------------------------
  // Properties of the highlighter.

  lemma {:induction false} TextAppend(a: seq<Part>, b: seq<Part>)
    ensures Text(a + b) == Text(a) + Text(b)
  {
    if a == [] {
      assert a + b == b;
    } else {
      assert (a + b)[0] == a[0];
      assert (a + b)[1..] == a[1..] + b;
      TextAppend(a[1..], b);
    }
  }

  lemma {:induction false} PassAppend(a: seq<Part>, b: seq<Part>, ph: Phrase)
    requires ph.text != []
    ensures Pass(a + b, ph) == Pass(a, ph) + Pass(b, ph)
  {
    if a == [] {
      assert a + b == b;
    } else {
      assert (a + b)[0] == a[0];
      assert (a + b)[1..] == a[1..] + b;
      PassAppend(a[1..], b, ph);
    }
  }

  /** The pieces of `t[from..]` spell out `t[from..]`. */
  lemma {:induction false} CutText(t: string, from: nat, ms: seq<nat>, ph: Phrase)
    requires from <= |t| && ph.text != [] && Fits(ms, from, |ph.text|, |t|)
    ensures Text(Cut(t, from, ms, ph)) == t[from..]
    decreases |ms|
  {
    if ms == [] {
      if from < |t| {
        var only := [Plain(t[from..])];
        assert only[1..] == [];
        assert Text(only) == t[from..];
      }
    } else {
      var head, rest := Head(t, from, ms[0], ph), Cut(t, ms[0] + |ph.text|, ms[1..], ph);
      CutText(t, ms[0] + |ph.text|, ms[1..], ph);
      TextAppend(head, rest);
      assert t[from..] == t[from..ms[0] + |ph.text|] + t[ms[0] + |ph.text|..];
    }
  }

  /** Cutting a string part loses and adds no character. */
  lemma SplitPartText(t: string, ph: Phrase)
    requires ph.text != []
    ensures Text(SplitPart(t, ph)) == t
  {
    var ms := Matches(t, 0, ph);
    if ms != [] {
      CutText(t, 0, ms, ph);
    }
  }

  lemma {:induction false} PassText(parts: seq<Part>, ph: Phrase)
    requires ph.text != []
    ensures Text(Pass(parts, ph)) == Text(parts)
  {
    if parts != [] {
      PassText(parts[1..], ph);
      TextAppend(PassOne(parts[0], ph), Pass(parts[1..], ph));
      if parts[0].Plain? {
        SplitPartText(parts[0].text, ph);
      }
    }
  }

  /** The plain strings and bold texts, concatenated, give back the paragraph exactly. */
  lemma {:induction false} FormatKeepsText(text: string, phs: seq<Phrase>)
    requires NonEmptyPhrases(phs)
    ensures Text(Format(text, phs)) == text
  {
    if phs != [] {
      FormatKeepsText(text, phs[..|phs| - 1]);
      PassText(Format(text, phs[..|phs| - 1]), phs[|phs| - 1]);
    }
  }

  /** Starts that fit are inside the text, at or after `from`, and pairwise at least `n` apart. */
  lemma {:induction false} FitsInOrder(ms: seq<nat>, from: nat, n: nat, len: nat)
    requires Fits(ms, from, n, len)
    ensures forall k :: 0 <= k < |ms| ==> from <= ms[k] && ms[k] + n <= len
    ensures forall i, j :: 0 <= i < j < |ms| ==> ms[i] + n <= ms[j]
    decreases |ms|
  {
    if ms != [] {
      FitsInOrder(ms[1..], ms[0] + n, n, len);
      assert forall k :: 0 < k < |ms| ==> ms[k] == ms[1..][k - 1];
    }
  }

  /** The matches `matchAll` reports are handled left to right and never overlap. */
  lemma MatchesInOrder(t: string, ph: Phrase)
    requires ph.text != []
    ensures var ms := Matches(t, 0, ph);
      forall i, j :: 0 <= i < j < |ms| ==> ms[i] + |ph.text| <= ms[j]
  {
    FitsInOrder(Matches(t, 0, ph), 0, |ph.text|, |t|);
  }

  /** Every start `matchAll` reports is a match of the phrase. */
  lemma {:induction false} MatchesMatch(t: string, from: nat, ph: Phrase)
    requires from <= |t| && ph.text != []
    ensures forall k :: 0 <= k < |Matches(t, from, ph)| ==> MatchAt(t, Matches(t, from, ph)[k], ph)
    decreases |t| - from
  {
    NextMatchIsLeftmost(t, from, ph);
    match NextMatch(t, from, ph)
    case None =>
    case Some(p) =>
      MatchesMatch(t, p + |ph.text|, ph);
  }

  /** No piece is empty, and every bold piece spells the phrase up to case and carries its class. */
  lemma {:induction false} CutPieces(t: string, from: nat, ms: seq<nat>, ph: Phrase)
    requires from <= |t| && ph.text != [] && Fits(ms, from, |ph.text|, |t|)
    requires forall k :: 0 <= k < |ms| ==> MatchAt(t, ms[k], ph)
    ensures NoEmptyParts(Cut(t, from, ms, ph))
    ensures forall x :: x in Cut(t, from, ms, ph) && x.Bold? ==>
      x.className == ph.className && SameIgnoringCase(x.text, ph.text)
    decreases |ms|
  {
    if ms != [] {
      var p, n := ms[0], |ph.text|;
      assert MatchAt(t, p, ph);
      var head, rest := Head(t, from, p, ph), Cut(t, p + n, ms[1..], ph);
      HeadPieces(t, from, p, ph);
      assert forall k :: 0 <= k < |ms[1..]| ==> ms[1..][k] == ms[k + 1];
      CutPieces(t, p + n, ms[1..], ph);
      assert forall x :: x in Cut(t, from, ms, ph) ==> x in head || x in rest;
    }
  }

  /** Splitting a non-empty string part never yields an empty string. */
  lemma SplitPartPieces(t: string, ph: Phrase)
    requires ph.text != []
    ensures t != [] ==> NoEmptyParts(SplitPart(t, ph))
    ensures forall x :: x in SplitPart(t, ph) && x.Bold? ==>
      x.className == ph.className && SameIgnoringCase(x.text, ph.text)
  {
    MatchesMatch(t, 0, ph);
    var ms := Matches(t, 0, ph);
    if ms != [] {
      CutPieces(t, 0, ms, ph);
    }
  }

  lemma {:induction false} PassPieces(parts: seq<Part>, ph: Phrase)
    requires ph.text != []
    ensures NoEmptyParts(parts) ==> NoEmptyParts(Pass(parts, ph))
    ensures forall x :: x in Pass(parts, ph) && x.Bold? ==>
      x in parts || (x.className == ph.className && SameIgnoringCase(x.text, ph.text))
  {
    if parts != [] {
      PassPieces(parts[1..], ph);
      if parts[0].Plain? {
        SplitPartPieces(parts[0].text, ph);
      }
    }
  }

  /** A non-empty paragraph comes back with no empty string among its parts. */
  lemma {:induction false} FormatNoEmptyParts(text: string, phs: seq<Phrase>)
    requires NonEmptyPhrases(phs) && text != []
    ensures NoEmptyParts(Format(text, phs))
  {
    if phs != [] {
      FormatNoEmptyParts(text, phs[..|phs| - 1]);
      PassPieces(Format(text, phs[..|phs| - 1]), phs[|phs| - 1]);
    }
  }

  /** Every bold element spells one of the phrases up to case and carries that phrase's class. */
  lemma {:induction false} FormatBoldsArePhrases(text: string, phs: seq<Phrase>)
    requires NonEmptyPhrases(phs)
    ensures BoldFrom(Format(text, phs), phs)
  {
    if phs != [] {
      var init := phs[..|phs| - 1];
      var last := phs[|phs| - 1];
      FormatBoldsArePhrases(text, init);
      PassPieces(Format(text, init), last);
      forall x | x in Format(text, phs) && x.Bold?
        ensures exists k :: 0 <= k < |phs| && SameIgnoringCase(x.text, phs[k].text) && x.className == phs[k].className
      {
        if x in Format(text, init) {
          var k :| 0 <= k < |init| && SameIgnoringCase(x.text, init[k].text) && x.className == init[k].className;
          assert phs[k] == init[k];
        } else {
          assert phs[|phs| - 1] == last;
        }
      }
    }
  }

  /** A string part in which the phrase does not occur passes through unchanged. */
  lemma NoMatchPassesThrough(t: string, ph: Phrase)
    requires ph.text != []
    requires forall q :: 0 <= q <= |t| ==> !MatchAt(t, q, ph)
    ensures SplitPart(t, ph) == [Plain(t)]
  {
    NextMatchIsLeftmost(t, 0, ph);
  }

  /** A bold element stays whole and in place in the next round, so earlier phrases take precedence. */
  lemma BoldStaysPut(parts: seq<Part>, i: nat, ph: Phrase)
    requires ph.text != [] && i < |parts| && parts[i].Bold?
    ensures Pass(parts, ph) == Pass(parts[..i], ph) + [parts[i]] + Pass(parts[i + 1..], ph)
  {
    var rest := parts[i + 1..];
    assert parts == parts[..i] + ([parts[i]] + rest);
    PassAppend(parts[..i], [parts[i]] + rest, ph);
    PassAppend([parts[i]], rest, ph);
    assert Pass([parts[i]], ph) == [parts[i]] by {
      assert [parts[i]][1..] == [];
    }
  }

  /** A paragraph that holds none of the phrases comes back as the one-element list of itself. */
  lemma {:induction false} FormatWithoutPhrases(text: string, phs: seq<Phrase>)
    requires NonEmptyPhrases(phs)
    requires forall k, q :: 0 <= k < |phs| && 0 <= q <= |text| ==> !MatchAt(text, q, phs[k])
    ensures Format(text, phs) == [Plain(text)]
  {
    if phs != [] {
      FormatWithoutPhrases(text, phs[..|phs| - 1]);
      var last := phs[|phs| - 1];
      assert forall q :: 0 <= q <= |text| ==> !MatchAt(text, q, last);
      NextMatchIsLeftmost(text, 0, last);
      assert Pass([Plain(text)], last) == SplitPart(text, last) + Pass([], last);
    }
  }

  // ---------------------------------------------------------------------------
  // The letter body.

  /** `body.split('\n').map(...)`: a `<br>` for a blank line, a highlighted paragraph otherwise. */
  function RenderBody(body: string, phs: seq<Phrase>): (r: seq<Block>)
    requires NonEmptyPhrases(phs)
    ensures |r| == Count(body, '\n') + 1
  {
    SplitOnLength(body, '\n');
    var lines := SplitOn(body, '\n');
    seq(|lines|, i requires 0 <= i < |lines| =>
      if Blank(lines[i]) then Break else Paragraph(Format(lines[i], phs)))
  }

  /** One block per line; a block is a break iff its line is blank; a paragraph shows its line exactly, with no empty part. */
  lemma RenderBodyLines(body: string, phs: seq<Phrase>, i: nat)
    requires NonEmptyPhrases(phs) && i < |SplitOn(body, '\n')|
    ensures var lines := SplitOn(body, '\n'); var r := RenderBody(body, phs);
      i < |r| && (r[i].Break? <==> Blank(lines[i]))
      && (r[i].Paragraph? ==> Text(r[i].parts) == lines[i] && NoEmptyParts(r[i].parts))
  {
    var lines := SplitOn(body, '\n');
    if !Blank(lines[i]) {
      FormatKeepsText(lines[i], phs);
      FormatNoEmptyParts(lines[i], phs);
    }
  }

  // ---------------------------------------------------------------------------
  // The game's name.

  lemma PhraseListsAreWellFormed()
    ensures NonEmptyPhrases(Phrases) && NonEmptyPhrases(PhrasesAsWritten)
    ensures |PhrasesAsWritten| == |Phrases| == 30
    ensures forall k :: 0 <= k < 30 && k != 8 ==> PhrasesAsWritten[k] == Phrases[k]
  {
  }

  /** As written, the game's phrase matches only where the text has an A with tilde after "Pok". */
  lemma MojibakeNeedsTilde(t: string, i: nat)
    requires MatchAt(t, i, PhrasesAsWritten[8])
    ensures t[i + 3] == '\U{C3}' || t[i + 3] == '\U{E3}'
  {
    assert LowerChar(t[i..i + 10][3]) == LowerChar('\U{C3}');
  }

  /** As written, the game's name in the letter is left plain; with the letter's spelling it is bold. */
  lemma PokemonBolded()
    ensures SplitPart(Pokemon, PhrasesAsWritten[8]) == [Plain(Pokemon)]
    ensures SplitPart(Pokemon, Phrases[8]) == [Bold(Pokemon, White)]
  {
    assert !MatchAt(Pokemon, 0, PhrasesAsWritten[8]) by {
      assert LowerChar(Pokemon[3]) != LowerChar(PokemonMojibake[3]);
    }
    assert forall q :: 0 < q <= |Pokemon| ==> !MatchAt(Pokemon, q, PhrasesAsWritten[8]);
    NextMatchIsLeftmost(Pokemon, 0, PhrasesAsWritten[8]);
    assert MatchAt(Pokemon, 0, Phrases[8]);
    assert Pokemon[0..10] == Pokemon;
  }
}
