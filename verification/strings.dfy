/**
 * String helpers shared by the models: the whitespace set of JavaScript's
 * `trim` and `\s`, trimming, splitting on whitespace runs or on one
 * character, joining, case folding and padding.
 */
module Strings {

  datatype Option<+T> = None | Some(value: T)

  /** JavaScript WhiteSpace and LineTerminator code points (what `trim` strips and `\s` matches). */
  predicate IsSpace(c: char)
  {
    || c == '\t' || c == '\n' || c == '\U{B}' || c == '\U{C}' || c == '\r' || c == ' '
    || c == '\U{A0}' || c == '\U{1680}' || ('\U{2000}' <= c <= '\U{200A}')
    || c == '\U{2028}' || c == '\U{2029}' || c == '\U{202F}' || c == '\U{205F}'
    || c == '\U{3000}' || c == '\U{FEFF}'
  }

  /** Every character is whitespace (so `s.trim()` is empty, i.e. falsy). */
  predicate Blank(s: string)
  {
    forall i :: 0 <= i < |s| ==> IsSpace(s[i])
  }

  predicate NoSpace(s: string)
  {
    forall i :: 0 <= i < |s| ==> !IsSpace(s[i])
  }

  predicate StartsWith(s: string, p: string)
  {
    |p| <= |s| && s[..|p|] == p
  }

  predicate EndsWith(s: string, p: string)
  {
    |p| <= |s| && s[|s| - |p|..] == p
  }

  /** A text does not start with a prefix it differs from at some position. */
  lemma DiffersAt(s: string, p: string, i: nat)
    requires i < |s| && i < |p| && s[i] != p[i]
    ensures !StartsWith(s, p)
  {
    if |p| <= |s| { assert s[..|p|][i] != p[i]; }
  }

  lemma LongerPrefix(s: string, p: string, q: string)
    requires StartsWith(s, p + q)
    ensures StartsWith(s, p)
  {
    assert s[..|p|] == (s[..|p + q|])[..|p|];
  }

  /** `s.trimStart()`: drops the leading whitespace. */
  function TrimStart(s: string): (r: string)
    ensures |r| <= |s| && r == s[|s| - |r|..]
    ensures r == [] || !IsSpace(r[0])
  {
    if s == [] || !IsSpace(s[0]) then s else TrimStart(s[1..])
  }

  /** What `trimStart` drops is whitespace. */
  lemma {:induction false} TrimStartDrops(s: string)
    ensures Blank(s[..|s| - |TrimStart(s)|])
  {
    if s != [] && IsSpace(s[0]) {
      var r := TrimStart(s[1..]);
      TrimStartDrops(s[1..]);
      var k := |s| - |r|;
      var d, e := s[..k], s[1..][..k - 1];
      forall i | 0 <= i < k
        ensures IsSpace(d[i])
      {
        if i > 0 { assert d[i] == e[i - 1]; }
      }
    }
  }

  /** `s.trimEnd()`: drops the trailing whitespace. */
  function TrimEnd(s: string): (r: string)
    ensures |r| <= |s| && r == s[..|r|]
    ensures r == [] || !IsSpace(r[|r| - 1])
  {
    if s == [] || !IsSpace(s[|s| - 1]) then s else TrimEnd(s[..|s| - 1])
  }

  /** What `trimEnd` drops is whitespace. */
  lemma {:induction false} TrimEndDrops(s: string)
    ensures Blank(s[|TrimEnd(s)|..])
  {
    if s != [] && IsSpace(s[|s| - 1]) {
      var r := TrimEnd(s[..|s| - 1]);
      TrimEndDrops(s[..|s| - 1]);
      var d, e := s[|r|..], s[..|s| - 1][|r|..];
      forall i | 0 <= i < |d|
        ensures IsSpace(d[i])
      {
        if i < |e| { assert d[i] == e[i]; }
      }
    }
  }

  /** `s.trim()`. */
  function Trim(s: string): string
  {
    TrimEnd(TrimStart(s))
  }

  /** `trim()` leaves no whitespace at either end. */
  lemma TrimEnds(s: string)
    ensures var r := Trim(s); r == [] || (!IsSpace(r[0]) && !IsSpace(r[|r| - 1]))
  {
    var a := TrimStart(s);
    var r := TrimEnd(a);
    if r != [] {
      assert r[0] == a[0];
    }
  }

  /** `trim()` gives the empty string exactly for a blank text. */
  lemma TrimBlank(s: string)
    ensures Trim(s) == [] <==> Blank(s)
  {
    var a := TrimStart(s);
    var r := TrimEnd(a);
    TrimStartDrops(s);
    TrimEndDrops(a);
    if r == [] {
      assert a[0..] == a;
      assert a == [];
      assert s[..|s| - |a|] == s;
    } else {
      assert a[0] == r[0];
      assert s[|s| - |a|] == a[0];
    }
  }

  /** Trimming a text whose ends are not whitespace, wrapped in whitespace, gives back the text. */
  lemma TrimWrapped(pre: string, core: string, post: string)
    requires Blank(pre) && Blank(post)
    requires core != [] && !IsSpace(core[0]) && !IsSpace(core[|core| - 1])
    ensures Trim(pre + core + post) == core
  {
    TrimStartWrapped(pre, core, post);
    TrimEndWrapped(core, post);
  }

  lemma {:induction false} TrimStartWrapped(pre: string, core: string, post: string)
    requires Blank(pre)
    requires core != [] && !IsSpace(core[0])
    ensures TrimStart(pre + core + post) == core + post
  {
    var s := pre + core + post;
    if pre == [] {
      assert s == core + post;
      assert s[0] == core[0];
    } else {
      assert s[0] == pre[0];
      assert s[1..] == pre[1..] + core + post;
      TrimStartWrapped(pre[1..], core, post);
    }
  }

  lemma {:induction false} TrimEndWrapped(rest: string, post: string)
    requires Blank(post)
    requires rest != [] && !IsSpace(rest[|rest| - 1])
    ensures TrimEnd(rest + post) == rest
  {
    if post != [] {
      assert (rest + post)[..|rest + post| - 1] == rest + post[..|post| - 1];
      TrimEndWrapped(rest, post[..|post| - 1]);
    } else {
      assert rest + post == rest;
    }
  }

  /** Length of the leading run of non-whitespace characters. */
  function RunLength(s: string): (n: nat)
    ensures n <= |s| && NoSpace(s[..n])
    ensures n == |s| || IsSpace(s[n])
  {
    if s == [] || IsSpace(s[0]) then 0
    else
      var n := RunLength(s[1..]);
      assert s[..n + 1] == [s[0]] + s[1..][..n];
      n + 1
  }

  /** The maximal runs of non-whitespace characters of `s`, in order. */
  function Words(s: string): (ws: seq<string>)
    ensures forall i :: 0 <= i < |ws| ==> ws[i] != [] && NoSpace(ws[i])
    ensures ws == [] <==> Blank(s)
    decreases |s|
  {
    if s == [] then []
    else if IsSpace(s[0]) then
      var ws := Words(s[1..]);
      assert Blank(s[1..]) ==> Blank(s);
      ws
    else
      var n := RunLength(s);
      [s[..n]] + Words(s[n..])
  }

  /** When `s` does not start with whitespace, its first word is its leading run. */
  lemma FirstWord(s: string)
    requires s != [] && !IsSpace(s[0])
    ensures Words(s) != [] && Words(s)[0] == s[..RunLength(s)]
    ensures RunLength(s) == |s| || IsSpace(s[RunLength(s)])
  {
  }

  /** A run of non-whitespace characters followed by a space is one word. */
  lemma {:induction false} RunLengthOfWord(w: string, rest: string)
    requires w != [] && NoSpace(w)
    ensures RunLength(w + " " + rest) == |w|
  {
    if |w| > 1 {
      assert (w + " " + rest)[1..] == w[1..] + " " + rest;
      RunLengthOfWord(w[1..], rest);
    } else {
      assert (w + " " + rest)[1..] == " " + rest;
    }
  }

  lemma {:induction false} RunLengthWhole(w: string)
    requires w != [] && NoSpace(w)
    ensures RunLength(w) == |w|
  {
    if |w| > 1 {
      RunLengthWhole(w[1..]);
    }
  }

  /** Splitting words joined by single spaces gives the words back. */
  lemma {:induction false} WordsOfJoin(ws: seq<string>)
    requires forall i :: 0 <= i < |ws| ==> ws[i] != [] && NoSpace(ws[i])
    ensures Words(Join(ws, " ")) == ws
  {
    if |ws| == 1 {
      RunLengthWhole(ws[0]);
      assert ws[0][..|ws[0]|] == ws[0];
      assert ws[0][|ws[0]|..] == [];
    } else if |ws| > 1 {
      var w, rest := ws[0], Join(ws[1..], " ");
      var s := w + " " + rest;
      RunLengthOfWord(w, rest);
      assert s[..|w|] == w;
      assert s[|w|..] == " " + rest;
      assert (" " + rest)[1..] == rest;
      WordsOfJoin(ws[1..]);
      assert Words(s) == [w] + Words(s[|w|..]);
    }
  }

  /** Words joined by single spaces have no whitespace at either end. */
  lemma {:induction false} JoinEnds(ws: seq<string>)
    requires ws != []
    requires forall i :: 0 <= i < |ws| ==> ws[i] != []
    ensures var s := Join(ws, " "); s != [] && s[0] == ws[0][0] && s[|s| - 1] == ws[|ws| - 1][|ws[|ws| - 1]| - 1]
  {
    if |ws| > 1 {
      var tail := ws[1..];
      assert forall i :: 0 <= i < |tail| ==> tail[i] == ws[i + 1];
      JoinEnds(tail);
      var rest := Join(tail, " ");
      var s := ws[0] + " " + rest;
      assert Join(ws, " ") == s;
      assert s[0] == ws[0][0];
      assert s[|s| - 1] == rest[|rest| - 1];
      assert tail[|tail| - 1] == ws[|ws| - 1];
    }
  }

  /** Trimming a text with no whitespace at either end changes nothing. */
  lemma TrimUntouched(s: string)
    requires s != [] && !IsSpace(s[0]) && !IsSpace(s[|s| - 1])
    ensures Trim(s) == s
  {
    assert TrimStart(s) == s;
    assert TrimEnd(s) == s;
  }

  /** Trimming twice is trimming once. */
  lemma TrimIdempotent(s: string)
    ensures Trim(Trim(s)) == Trim(s)
  {
    TrimEnds(s);
    if Trim(s) != [] { TrimUntouched(Trim(s)); }
  }

  /** A non-blank text trims to a non-blank text, which trimming again leaves alone. */
  lemma TrimmedLine(s: string)
    requires !Blank(s)
    ensures !Blank(Trim(s)) && Trim(Trim(s)) == Trim(s)
  {
    TrimBlank(s);
    TrimEnds(s);
    TrimIdempotent(s);
  }

  /** Trimming words joined by single spaces changes nothing. */
  lemma TrimOfJoin(ws: seq<string>)
    requires ws != []
    requires forall i :: 0 <= i < |ws| ==> ws[i] != [] && NoSpace(ws[i])
    ensures Trim(Join(ws, " ")) == Join(ws, " ")
  {
    var s := Join(ws, " ");
    var first, last := ws[0], ws[|ws| - 1];
    JoinEnds(ws);
    assert !IsSpace(first[0]);
    assert !IsSpace(last[|last| - 1]);
    TrimUntouched(s);
  }

  /** `s.split(c)` for a one-character separator: always at least one piece. */
  function SplitOn(s: string, c: char): (r: seq<string>)
    ensures |r| >= 1
    ensures forall i, j :: 0 <= i < |r| && 0 <= j < |r[i]| ==> r[i][j] != c
    decreases |s|
  {
    if s == [] then [""]
    else
      var rest := SplitOn(s[1..], c);
      if s[0] == c then [""] + rest
      else [[s[0]] + rest[0]] + rest[1..]
  }

  /** `parts.join(sep)`. */
  function Join(parts: seq<string>, sep: string): string
  {
    if parts == [] then ""
    else if |parts| == 1 then parts[0]
    else parts[0] + sep + Join(parts[1..], sep)
  }

  /** Joining the pieces of a split with the separator gives back the input. */
  lemma {:induction false} JoinSplitOn(s: string, c: char)
    ensures Join(SplitOn(s, c), [c]) == s
  {
    if s != [] {
      var rest := SplitOn(s[1..], c);
      JoinSplitOn(s[1..], c);
      if s[0] == c {
        assert SplitOn(s, c) == [""] + rest;
        assert ([""] + rest)[1..] == rest;
        assert s == [c] + s[1..];
      } else {
        var r := [[s[0]] + rest[0]] + rest[1..];
        assert SplitOn(s, c) == r;
        if |rest| == 1 {
          assert Join(rest, [c]) == rest[0];
        } else {
          assert r[1..] == rest[1..];
          assert Join(rest, [c]) == rest[0] + [c] + Join(rest[1..], [c]);
        }
      }
    }
  }

  /** The last piece of a split is a suffix of the text. */
  lemma {:induction false} LastPieceIsSuffix(s: string, c: char)
    ensures var r := SplitOn(s, c); EndsWith(s, r[|r| - 1])
    decreases |s|
  {
    if s != [] {
      var rest := SplitOn(s[1..], c);
      LastPieceIsSuffix(s[1..], c);
      var last := rest[|rest| - 1];
      var r := SplitOn(s, c);
      if s[0] == c {
        assert r == [""] + rest;
        assert r[|r| - 1] == last;
        SuffixOfTail(s, last);
      } else if |rest| > 1 {
        assert r == [[s[0]] + rest[0]] + rest[1..];
        assert r[|r| - 1] == last;
        SuffixOfTail(s, last);
      } else {
        JoinSplitOn(s[1..], c);
        assert r == [[s[0]] + rest[0]];
        assert [s[0]] + rest[0] == s;
      }
    }
  }

  /** A suffix of the tail is a suffix of the text. */
  lemma SuffixOfTail(s: string, p: string)
    requires s != [] && EndsWith(s[1..], p)
    ensures EndsWith(s, p)
  {
    assert s[|s| - |p|..] == s[1..][|s[1..]| - |p|..];
  }

  /** The number of occurrences of `c` in `s`. */
  function Count(s: string, c: char): nat
  {
    if s == [] then 0 else (if s[0] == c then 1 else 0) + Count(s[1..], c)
  }

  /** A split on `c` has one piece more than `s` has occurrences of `c`. */
  lemma {:induction false} SplitOnLength(s: string, c: char)
    ensures |SplitOn(s, c)| == Count(s, c) + 1
  {
    if s != [] { SplitOnLength(s[1..], c); }
  }

  /** Lower case for the ASCII and Latin-1 letters, the identity elsewhere. */
  function LowerChar(c: char): (r: char)
    ensures ('A' <= c <= 'Z') ==> r != c
    ensures !('A' <= c <= 'Z') && !('\U{C0}' <= c <= '\U{DE}') ==> r == c
  {
    if 'A' <= c <= 'Z' then (c as int + 32) as char
    else if '\U{C0}' <= c <= '\U{DE}' && c != '\U{D7}' then (c as int + 32) as char
    else c
  }

  /** `s.toLowerCase()` restricted to the ASCII and Latin-1 letters. */
  function Lower(s: string): (r: string)
    ensures |r| == |s| && forall i :: 0 <= i < |s| ==> r[i] == LowerChar(s[i])
  {
    seq(|s|, i requires 0 <= i < |s| => LowerChar(s[i]))
  }

  /** Case-insensitive equality of two strings of the same length. */
  predicate SameIgnoringCase(a: string, b: string)
  {
    |a| == |b| && forall i :: 0 <= i < |a| ==> LowerChar(a[i]) == LowerChar(b[i])
  }

  lemma SameIgnoringCaseIsLowerEq(a: string, b: string)
    ensures SameIgnoringCase(a, b) <==> Lower(a) == Lower(b)
  {
    if Lower(a) == Lower(b) {
      assert forall i :: 0 <= i < |a| ==> Lower(a)[i] == Lower(b)[i];
    }
  }

  /** `\w` of a regular expression without the `u` flag. */
  predicate IsWordChar(c: char)
  {
    ('a' <= c <= 'z') || ('A' <= c <= 'Z') || ('0' <= c <= '9') || c == '_'
  }

  /** `s.padEnd(n)`: right-pads with spaces to length `n`; never shortens. */
  function PadEnd(s: string, n: nat): (r: string)
    ensures |r| == if |s| < n then n else |s|
    ensures r[..|s|] == s
    ensures forall i :: |s| <= i < |r| ==> r[i] == ' '
  {
    if |s| < n then s + seq(n - |s|, _ => ' ') else s
  }

  /** `s.replace(/c/g, r)`: every occurrence of `c` replaced by `r`. */
  function ReplaceAll(s: string, c: char, r: string): (t: string)
    ensures |t| == |s| + Count(s, c) * (|r| - 1)
  {
    if s == [] then ""
    else (if s[0] == c then r else [s[0]]) + ReplaceAll(s[1..], c, r)
  }

  /** `replace(/c/g, r)` is `split(c).join(r)`: every other character kept in order, each `c` replaced by `r`. */
  lemma {:induction false} ReplaceAllIsSplitJoin(s: string, c: char, r: string)
    ensures ReplaceAll(s, c, r) == Join(SplitOn(s, c), r)
    decreases |s|
  {
    if s != [] {
      var rest := SplitOn(s[1..], c);
      ReplaceAllIsSplitJoin(s[1..], c, r);
      if s[0] == c {
        assert SplitOn(s, c) == [""] + rest;
        assert ([""] + rest)[1..] == rest;
      } else {
        var ps := [[s[0]] + rest[0]] + rest[1..];
        assert SplitOn(s, c) == ps;
        if |rest| > 1 {
          assert ps[1..] == rest[1..];
          assert Join(rest, r) == rest[0] + r + Join(rest[1..], r);
        }
      }
    }
  }

  /** The decimal digits of a natural number. */
  function NatToString(n: nat): (r: string)
    ensures r != [] && forall i :: 0 <= i < |r| ==> '0' <= r[i] <= '9'
  {
    if n < 10 then [('0' as int + n) as char]
    else NatToString(n / 10) + [('0' as int + n % 10) as char]
  }

  // ---------------------------------------------------------------------------
  // `parseInt` without a radix.

  /** The value of a hexadecimal digit character, if it is one. */
  function DigitValue(c: char): (r: Option<nat>)
    ensures r.Some? ==> r.value < 16
    ensures ('0' <= c <= '9') ==> r == Some(c as int - '0' as int)
  {
    if '0' <= c <= '9' then Some(c as int - '0' as int)
    else if 'a' <= c <= 'f' then Some(c as int - 'a' as int + 10)
    else if 'A' <= c <= 'F' then Some(c as int - 'A' as int + 10)
    else None
  }

  predicate IsDigit(c: char, base: nat)
  {
    DigitValue(c).Some? && DigitValue(c).value < base
  }

  /** The length of the leading run of digits of `base`. */
  function DigitRun(s: string, base: nat): (n: nat)
    ensures n <= |s|
    ensures forall k :: 0 <= k < n ==> IsDigit(s[k], base)
    ensures n < |s| ==> !IsDigit(s[n], base)
  {
    if s == [] || !IsDigit(s[0], base) then 0 else 1 + DigitRun(s[1..], base)
  }

  /** The number a string of digits of `base` denotes. */
  function DigitsValue(ds: string, base: nat): nat
    requires forall k :: 0 <= k < |ds| ==> IsDigit(ds[k], base)
  {
    if ds == [] then 0
    else
      var init := ds[..|ds| - 1];
      assert forall k :: 0 <= k < |init| ==> IsDigit(init[k], base) by {
        forall k | 0 <= k < |init| ensures IsDigit(init[k], base) { assert init[k] == ds[k]; }
      }
      assert IsDigit(ds[|ds| - 1], base);
      var d: nat := DigitValue(ds[|ds| - 1]).value;
      var high: nat := DigitsValue(init, base);
      ProductIsNat(high, base);
      high * base + d
  }

  /** The product of two naturals is a natural (kept apart so the solver needs no nonlinear search). */
  lemma ProductIsNat(a: nat, b: nat)
    ensures a * b >= 0
  {
  }

  /** The unsigned part: a `0x` or `0X` prefix chooses base 16, then the longest run of digits is read. */
  function ReadDigits(u: string): Option<nat>
  {
    var hex := |u| >= 2 && u[0] == '0' && (u[1] == 'x' || u[1] == 'X');
    var base := if hex then 16 else 10;
    var v := if hex then u[2..] else u;
    var n := DigitRun(v, base);
    if n == 0 then None else Some(DigitsValue(v[..n], base))
  }

  /**
   * `parseInt(s)`: leading whitespace skipped, an optional sign, then the
   * digits; `None` stands for `NaN`.
   */
  function ParseInt(s: string): Option<int>
  {
    var t := TrimStart(s);
    var signed := t != [] && (t[0] == '-' || t[0] == '+');
    var u := if signed then t[1..] else t;
    match ReadDigits(u)
    case None => None
    case Some(m) =>
      var value: int := if signed && t[0] == '-' then -(m as int) else m;
      Some(value)
  }

  /** The decimal digits of a number read back as that number. */
  lemma {:induction false} DecimalValue(n: nat)
    ensures var ds := NatToString(n);
      (forall k :: 0 <= k < |ds| ==> IsDigit(ds[k], 10)) && DigitsValue(ds, 10) == n
  {
    var ds := NatToString(n);
    if n >= 10 {
      DecimalValue(n / 10);
      assert ds[..|ds| - 1] == NatToString(n / 10);
    }
  }

  /** A non-empty string of decimal digits is read in base 10, whole. */
  lemma ParseDecimal(ds: string)
    requires ds != [] && forall k :: 0 <= k < |ds| ==> IsDigit(ds[k], 10)
    ensures ParseInt(ds) == Some(DigitsValue(ds, 10))
  {
    DecimalDigit(ds[0]);
    ParseUnsigned(ds);
    ReadDecimal(ds);
  }

  /** A string that starts with a decimal digit is read without sign or trimming. */
  lemma ParseUnsigned(s: string)
    requires s != [] && '0' <= s[0] <= '9'
    ensures ParseInt(s) == ReadDigits(s)
  {
    assert !IsSpace(s[0]);
    assert TrimStart(s) == s;
    assert s[0] != '-' && s[0] != '+';
  }

  lemma DecimalDigit(c: char)
    requires IsDigit(c, 10)
    ensures '0' <= c <= '9'
  {
  }

  lemma ReadDecimal(ds: string)
    requires ds != [] && forall k :: 0 <= k < |ds| ==> IsDigit(ds[k], 10)
    ensures ReadDigits(ds) == Some(DigitsValue(ds, 10))
  {
    if |ds| >= 2 {
      DecimalDigit(ds[1]);
    }
    DigitRunWhole(ds, 10);
    assert ds[..|ds|] == ds;
  }

  /** A string made only of digits of `base` is one run. */
  lemma DigitRunWhole(s: string, base: nat)
    requires forall k :: 0 <= k < |s| ==> IsDigit(s[k], base)
    ensures DigitRun(s, base) == |s|
  {
  }

  /** `parseInt` reads a port number written in decimal back as that number. */
  lemma ParsePortNumber(n: nat)
    ensures ParseInt(NatToString(n)) == Some(n)
  {
    DecimalValue(n);
    ParseDecimal(NatToString(n));
  }
}
