/**
 * The e-mail pattern `^[^\s@]+@[^\s@]+\.[^\s@]+$` that both the contact
 * form (src/components/ContactSection.tsx) and the contact endpoint
 * (src/app/api/contact/route.ts) test addresses against.
 *
 * `EmailPattern` is the pattern read as a decomposition of the whole string;
 * `ValidEmail` is a direct check by positions, and `ValidEmailMeansPattern`
 * shows the two agree on every string.
 */
module EmailFormat {
  import opened Strings

  /** `[^\s@]`: any character but whitespace and `@`. */
  predicate AddressChar(c: char)
  {
    !IsSpace(c) && c != '@'
  }

  /** `[^\s@]+`: a non-empty run of such characters. */
  predicate AddressRun(s: string)
  {
    |s| > 0 && forall k :: 0 <= k < |s| ==> AddressChar(s[k])
  }

  /** The whole string is a run, `@`, a run, `.`, a run. */
  predicate EmailPattern(s: string)
  {
    exists i, j :: 0 <= i < j < |s| && s[i] == '@' && s[j] == '.'
      && AddressRun(s[..i]) && AddressRun(s[i + 1..j]) && AddressRun(s[j + 1..])
  }

  /** The position of the first `c` in `s`, if any. */
  function CharIndex(s: string, c: char): (r: Option<nat>)
    ensures r.Some? ==> r.value < |s| && s[r.value] == c && c !in s[..r.value]
    ensures r.None? <==> c !in s
  {
    if s == [] then None
    else if s[0] == c then Some(0)
    else match CharIndex(s[1..], c)
      case None => None
      case Some(i) =>
        assert s[..i + 1] == [s[0]] + s[1..][..i];
        Some(i + 1)
  }

  /**
   * The pattern by positions: no whitespace, exactly one `@` with something
   * before it, and a `.` after it that is neither the first nor the last
   * character of the domain.
   */
  function ValidEmail(s: string): (r: bool)
    ensures r ==> NoSpace(s) && |s| >= 5 && s[0] != '@'
  {
    NoSpace(s) &&
    match CharIndex(s, '@')
    case None => false
    case Some(i) => 0 < i && i + 3 <= |s| && '@' !in s[i + 1..] && '.' in s[i + 2..|s| - 1]
  }

  /** The check by positions accepts exactly the strings the pattern matches. */
  lemma ValidEmailMeansPattern(s: string)
    ensures ValidEmail(s) <==> EmailPattern(s)
  {
    if ValidEmail(s) { ValidEmailMatches(s); }
    if EmailPattern(s) { PatternIsValidEmail(s); }
  }

  lemma ValidEmailMatches(s: string)
    requires ValidEmail(s)
    ensures EmailPattern(s)
  {
    var i := CharIndex(s, '@').value;
    var d := s[i + 2..|s| - 1];
    var m := CharIndex(d, '.').value;
    var j := i + 2 + m;
    assert s[j] == d[m];
    assert AddressRun(s[..i]) by {
      forall k | 0 <= k < i ensures AddressChar(s[..i][k]) {
        assert s[..i][k] == s[k];
      }
    }
    var domain, mid, top := s[i + 1..], s[i + 1..j], s[j + 1..];
    forall k | 0 <= k < |mid| ensures AddressChar(mid[k]) {
      assert mid[k] == domain[k];
    }
    forall k | 0 <= k < |top| ensures AddressChar(top[k]) {
      assert top[k] == domain[k + j - i];
    }
  }

  lemma PatternIsValidEmail(s: string)
    requires EmailPattern(s)
    ensures ValidEmail(s)
  {
    var i, j :| 0 <= i < j < |s| && s[i] == '@' && s[j] == '.'
      && AddressRun(s[..i]) && AddressRun(s[i + 1..j]) && AddressRun(s[j + 1..]);
    forall k | 0 <= k < |s|
      ensures !IsSpace(s[k]) && (k != i ==> s[k] != '@')
    {
      if k < i { assert s[k] == s[..i][k]; }
      else if i < k < j { assert s[k] == s[i + 1..j][k - i - 1]; }
      else if j < k { assert s[k] == s[j + 1..][k - j - 1]; }
    }
    assert '@' !in s[..i];
    assert CharIndex(s, '@') == Some(i);
    assert '@' !in s[i + 1..];
    assert s[i + 2..|s| - 1][j - i - 2] == '.';
  }

  /** Surrounding spaces are not trimmed before the test: a padded address is rejected. */
  lemma PaddedAddressRejected(s: string)
    ensures !ValidEmail(" " + s) && !ValidEmail(s + " ")
  {
    assert (" " + s)[0] == ' ';
    assert (s + " ")[|s|] == ' ';
  }
}
