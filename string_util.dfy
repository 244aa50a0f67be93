/** StringUtil: emptiness tests and `chomp`, the removal of one trailing line
    break. `chomp` is modelled twice: Chomp is the behaviour its documentation
    and its tests describe (drop a trailing CRLF, else a trailing CR or LF);
    RegexChomp is what `value.replaceFirst("([\r\n]|\r\n)$", "")` does under the
    java.util.regex rules, where `$` also matches before a final line
    terminator. The two agree on every case StringUtilTest checks and differ
    on values that end in two different line breaks, such as "a\n\r" and
    "a\r\n\n". */
module StringUtil {
  import opened Base

  /** isEmpty: null or the empty string. */
  function IsEmpty(value: JString): (r: bool)
    ensures r <==> value.None? || value.value == []
  {
    match value
    case None => true
    case Some(s) => |s| == 0
  }

  /** isNotEmpty */
  function IsNotEmpty(value: JString): (r: bool)
    ensures r <==> value.Some? && |value.value| > 0
  {
    !IsEmpty(value)
  }

  // ---------------------------------------------------------------------------
  // chomp as documented
  // ---------------------------------------------------------------------------

  /** chomp: a null value is returned as it is; otherwise one trailing CRLF,
      CR or LF is removed, CRLF taking precedence, and nothing else. */
  function Chomp(value: JString): (r: JString)
    ensures r.None? <==> value.None?
    ensures value.Some? ==> r.value <= value.value && |r.value| + 2 >= |value.value|
  {
    match value
    case None => None
    case Some(s) =>
      if |s| >= 2 && s[|s| - 2] == '\r' && s[|s| - 1] == '\n' then Some(s[..|s| - 2])
      else if |s| >= 1 && (s[|s| - 1] == '\r' || s[|s| - 1] == '\n') then Some(s[..|s| - 1])
      else Some(s)
  }

  /** Exactly the last line break is removed: CRLF as a unit, a lone CR, or an
      LF not preceded by CR; a value that does not end in CR or LF is returned
      unchanged. */
  lemma ChompRemovesOneLineBreak(p: string)
    ensures Chomp(Some(p + "\r\n")) == Some(p)
    ensures Chomp(Some(p + "\r")) == Some(p)
    ensures (p == [] || p[|p| - 1] != '\r') ==> Chomp(Some(p + "\n")) == Some(p)
    ensures (p == [] || (p[|p| - 1] != '\r' && p[|p| - 1] != '\n')) ==> Chomp(Some(p)) == Some(p)
  {
    assert (p + "\r\n")[..|p|] == p;
    assert (p + "\r")[..|p|] == p;
    assert (p + "\n")[..|p|] == p;
    if p != [] {
      assert (p + "\n")[|p| - 1] == p[|p| - 1];
    }
  }

  /** What chomp removes is one of "", CR, LF and CRLF, and it removes
      something whenever the value ends in CR or LF. */
  lemma ChompRemovesOnlyALineBreak(s: string)
    ensures s[|Chomp(Some(s)).value|..] in {"", "\r", "\n", "\r\n"}
    ensures (s != [] && (s[|s| - 1] == '\r' || s[|s| - 1] == '\n')) ==> Chomp(Some(s)) != Some(s)
  {
    if |s| >= 2 && s[|s| - 2] == '\r' && s[|s| - 1] == '\n' {
      assert s[|s| - 2..] == "\r\n";
    } else if |s| >= 1 && (s[|s| - 1] == '\r' || s[|s| - 1] == '\n') {
      assert s[|s| - 1..] == [s[|s| - 1]];
    } else {
      assert s[|s|..] == [];
    }
  }

  // ---------------------------------------------------------------------------
  // chomp as written: java.util.regex.Matcher.replaceFirst
  // ---------------------------------------------------------------------------

  /** The line terminators of java.util.regex outside UNIX_LINES mode. */
  predicate IsLineTerminator(c: char)
  {
    c == '\n' || c == '\r' || c == '\U{0085}' || c == '\U{2028}' || c == '\U{2029}'
  }

  /** Whether `$` (not MULTILINE) matches at position `p`: at the end, before
      a final line terminator other than the LF of a final CRLF, or before a
      final CRLF. */
  predicate DollarAt(s: string, p: nat)
    requires p <= |s|
  {
    if p == |s| then true
    else if p + 1 == |s| then
      if s[p] == '\n' then !(p > 0 && s[p - 1] == '\r') else IsLineTerminator(s[p])
    else if p + 2 == |s| then s[p] == '\r' && s[p + 1] == '\n'
    else false
  }

  /** Where a match of `([\r\n]|\r\n)$` starting at `i` ends, trying the first
      alternative before the second. */
  function MatchAt(s: string, i: nat): (r: Option<nat>)
    requires i <= |s|
    ensures r.Some? ==> i < r.value <= |s| && r.value <= i + 2
  {
    if i < |s| && (s[i] == '\r' || s[i] == '\n') && DollarAt(s, i + 1) then Some(i + 1)
    else if i + 1 < |s| && s[i] == '\r' && s[i + 1] == '\n' && DollarAt(s, i + 2) then Some(i + 2)
    else None
  }

  /** The leftmost match at or after `i` (Matcher.find). */
  function FindFrom(s: string, i: nat): (r: Option<(nat, nat)>)
    requires i <= |s|
    ensures r.Some? ==> i <= r.value.0 < r.value.1 <= |s| && MatchAt(s, r.value.0) == Some(r.value.1)
    decreases |s| - i
  {
    match MatchAt(s, i)
    case Some(e) => Some((i, e))
    case None => if i == |s| then None else FindFrom(s, i + 1)
  }

  /** chomp as written. */
  function RegexChomp(value: JString): (r: JString)
    ensures r.None? <==> value.None?
    ensures value.Some? ==> |value.value| - 2 <= |r.value| <= |value.value|
  {
    match value
    case None => None
    case Some(s) =>
      match FindFrom(s, 0)
      case None => Some(s)
      case Some((b, e)) => Some(s[..b] + s[e..])
  }

  /** The search finds the leftmost match, and finds nothing only when there
      is no match at all. */
  lemma {:induction false} FindFromIsLeftmost(s: string, i: nat)
    requires i <= |s|
    ensures FindFrom(s, i).Some? ==> forall m :: i <= m < FindFrom(s, i).value.0 ==> MatchAt(s, m).None?
    ensures FindFrom(s, i).None? <==> forall m :: i <= m <= |s| ==> MatchAt(s, m).None?
    decreases |s| - i
  {
    if MatchAt(s, i).None? && i < |s| {
      FindFromIsLeftmost(s, i + 1);
    }
  }

  /** Positions without a match do not change the search. */
  lemma {:induction false} FindFromSkipsNone(s: string, i: nat, j: nat)
    requires i <= j <= |s|
    requires forall m :: i <= m < j ==> MatchAt(s, m).None?
    ensures FindFrom(s, i) == FindFrom(s, j)
    decreases j - i
  {
    if i < j {
      FindFromSkipsNone(s, i + 1, j);
    }
  }

  /** When the search from the start reaches `b` and a match starts there,
      that match is what replaceFirst removes. */
  lemma RegexChompRemovesMatch(s: string, b: nat, e: nat)
    requires b <= |s| && FindFrom(s, 0) == FindFrom(s, b) && MatchAt(s, b) == Some(e)
    ensures RegexChomp(Some(s)) == Some(s[..b] + s[e..])
  {
    assert FindFrom(s, b) == Some((b, e));
  }

  /** When the two characters before the end are not line terminators, `$`
      matches only at the very end and nothing is removed, as documented. */
  lemma RegexChompKeepsUnbrokenEnd(s: string)
    requires |s| >= 2 && !IsLineTerminator(s[|s| - 1]) && !IsLineTerminator(s[|s| - 2])
    ensures RegexChomp(Some(s)) == Some(s) == Chomp(Some(s))
  {
    forall m | 0 <= m <= |s|
      ensures MatchAt(s, m).None?
    {
      if m + 2 == |s| {
        assert !DollarAt(s, m + 1);
      }
    }
    FindFromSkipsNone(s, 0, |s|);
    assert FindFrom(s, |s|) == None;
    ChompRemovesOneLineBreak(s);
  }

  /** No match starts inside `p` when `p` ends in an ordinary character. */
  lemma NoMatchInside(p: string, t: string)
    requires p != [] && !IsLineTerminator(p[|p| - 1])
    ensures FindFrom(p + t, 0) == FindFrom(p + t, |p|)
  {
    var s := p + t;
    forall m | 0 <= m < |p|
      ensures MatchAt(s, m).None?
    {
      assert s[m] == p[m];
      if m + 1 < |p| {
        assert s[m + 1] == p[m + 1];
      }
      assert s[|p| - 1] == p[|p| - 1];
    }
    FindFromSkipsNone(s, 0, |p|);
  }

  /** After a last character that is not a line terminator, a trailing CR, LF
      or CRLF is removed, as documented. */
  lemma RegexChompRemovesSimpleLineBreak(p: string, t: string)
    requires p != [] && !IsLineTerminator(p[|p| - 1])
    requires t == "\r" || t == "\n" || t == "\r\n"
    ensures RegexChomp(Some(p + t)) == Some(p) == Chomp(Some(p + t))
  {
    var s := p + t;
    NoMatchInside(p, t);
    assert s[|p|] == t[0];
    assert MatchAt(s, |p|) == Some(|s|) by {
      if t == "\r\n" {
        assert s[|p| + 1] == '\n';
        assert !DollarAt(s, |p| + 1);
      }
    }
    RegexChompRemovesMatch(s, |p|, |s|);
    assert s[..|p|] + s[|s|..] == p;
    ChompRemovesOneLineBreak(p);
  }

  /** The documented cases of consecutive line breaks: only the last one goes. */
  lemma RegexChompRemovesLastOfRepeated(p: string, t: string)
    requires p != [] && !IsLineTerminator(p[|p| - 1])
    requires t == "\r" || t == "\n" || t == "\r\n"
    ensures RegexChomp(Some(p + (t + t))) == Some(p + t) == Chomp(Some(p + (t + t)))
  {
    var s := p + (t + t);
    assert s == (p + t) + t;
    NoMatchInside(p, t + t);
    assert s[|p|] == t[0];
    var e := |p| + |t|;
    assert MatchAt(s, |p|) == Some(e) by {
      if t == "\r\n" {
        assert s[|p| + 1] == '\n' && s[|p| + 2] == '\r' && s[|p| + 3] == '\n';
      } else {
        assert s[|p| + 1] == t[0];
      }
    }
    RegexChompRemovesMatch(s, |p|, e);
    assert s[..|p|] + s[e..] == p + t;
    ChompRemovesOneLineBreak(p + t);
  }

  /** The cases of StringUtilTest without any line break: null, empty and
      "hoge". */
  lemma ChompTestCasesUnchanged()
    ensures RegexChomp(None) == None == Chomp(None)
    ensures RegexChomp(Some("")) == Some("") == Chomp(Some(""))
    ensures RegexChomp(Some("hoge")) == Some("hoge") == Chomp(Some("hoge"))
  {
    assert FindFrom("", 0) == None;
    RegexChompKeepsUnbrokenEnd("hoge");
  }

  /** The cases of StringUtilTest with a CR, LF or CRLF only at the start or
      inside: all are kept. */
  lemma ChompTestCasesLeadingAndInner()
    ensures RegexChomp(Some("\rhoge")) == Some("\rhoge") == Chomp(Some("\rhoge"))
    ensures RegexChomp(Some("\nhoge")) == Some("\nhoge") == Chomp(Some("\nhoge"))
    ensures RegexChomp(Some("\r\nhoge")) == Some("\r\nhoge") == Chomp(Some("\r\nhoge"))
    ensures RegexChomp(Some("ho\rge")) == Some("ho\rge") == Chomp(Some("ho\rge"))
    ensures RegexChomp(Some("ho\nge")) == Some("ho\nge") == Chomp(Some("ho\nge"))
    ensures RegexChomp(Some("ho\r\nge")) == Some("ho\r\nge") == Chomp(Some("ho\r\nge"))
  {
    RegexChompKeepsUnbrokenEnd("\rhoge");
    RegexChompKeepsUnbrokenEnd("\nhoge");
    RegexChompKeepsUnbrokenEnd("\r\nhoge");
    RegexChompKeepsUnbrokenEnd("ho\rge");
    RegexChompKeepsUnbrokenEnd("ho\nge");
    RegexChompKeepsUnbrokenEnd("ho\r\nge");
  }

  /** The cases of StringUtilTest with one final CR, LF or CRLF. */
  lemma ChompTestCasesFinal()
    ensures RegexChomp(Some("hoge\r")) == Some("hoge") == Chomp(Some("hoge\r"))
    ensures RegexChomp(Some("hoge\n")) == Some("hoge") == Chomp(Some("hoge\n"))
    ensures RegexChomp(Some("hoge\r\n")) == Some("hoge") == Chomp(Some("hoge\r\n"))
  {
    assert "hoge\r" == "hoge" + "\r" && "hoge\n" == "hoge" + "\n" && "hoge\r\n" == "hoge" + "\r\n";
    RegexChompRemovesSimpleLineBreak("hoge", "\r");
    RegexChompRemovesSimpleLineBreak("hoge", "\n");
    RegexChompRemovesSimpleLineBreak("hoge", "\r\n");
  }

  /** The cases of StringUtilTest with the same line break at the start,
      inside and at the end: only the final one is removed. */
  lemma ChompTestCasesEveryPosition()
    ensures RegexChomp(Some("\rho\rge\r")) == Some("\rho\rge") == Chomp(Some("\rho\rge\r"))
    ensures RegexChomp(Some("\nho\nge\n")) == Some("\nho\nge") == Chomp(Some("\nho\nge\n"))
    ensures RegexChomp(Some("\r\nho\r\nge\r\n")) == Some("\r\nho\r\nge") == Chomp(Some("\r\nho\r\nge\r\n"))
  {
    assert "\rho\rge\r" == "\rho\rge" + "\r";
    assert "\nho\nge\n" == "\nho\nge" + "\n";
    assert "\r\nho\r\nge\r\n" == "\r\nho\r\nge" + "\r\n";
    RegexChompRemovesSimpleLineBreak("\rho\rge", "\r");
    RegexChompRemovesSimpleLineBreak("\nho\nge", "\n");
    RegexChompRemovesSimpleLineBreak("\r\nho\r\nge", "\r\n");
  }

  /** The cases of StringUtilTest with a repeated final line break. */
  lemma ChompTestCasesRepeated()
    ensures RegexChomp(Some("hoge\r\r")) == Some("hoge\r") == Chomp(Some("hoge\r\r"))
    ensures RegexChomp(Some("hoge\n\n")) == Some("hoge\n") == Chomp(Some("hoge\n\n"))
    ensures RegexChomp(Some("hoge\r\n\r\n")) == Some("hoge\r\n") == Chomp(Some("hoge\r\n\r\n"))
  {
    assert "hoge\r\r" == "hoge" + ("\r" + "\r") && "hoge\r" == "hoge" + "\r";
    assert "hoge\n\n" == "hoge" + ("\n" + "\n") && "hoge\n" == "hoge" + "\n";
    assert "hoge\r\n\r\n" == "hoge" + ("\r\n" + "\r\n") && "hoge\r\n" == "hoge" + "\r\n";
    RegexChompRemovesLastOfRepeated("hoge", "\r");
    RegexChompRemovesLastOfRepeated("hoge", "\n");
    RegexChompRemovesLastOfRepeated("hoge", "\r\n");
  }

  /** A final CR after an LF: `$` matches before the final CR, so the LF is
      removed and the CR kept, where the documented behaviour removes the CR. */
  lemma RegexChompRemovesInnerLineFeed()
    ensures RegexChomp(Some("a\n\r")) == Some("a\r")
    ensures Chomp(Some("a\n\r")) == Some("a\n")
  {
    assert Chomp(Some("a\n\r")) == Some("a\n") by {
      assert "a\n\r" == "a\n" + "\r";
      ChompRemovesOneLineBreak("a\n");
    }
    var s := "a\n\r";
    assert MatchAt(s, 0) == None;
    assert MatchAt(s, 1) == Some(2);
    RegexChompRemovesMatch(s, 1, 2);
    assert s[..1] + s[2..] == "a\r";
  }

  /** A final LF after a CRLF: `$` matches before the final LF, so the CRLF is
      removed and the LF kept, where the documented behaviour removes the LF. */
  lemma RegexChompRemovesInnerCrLf()
    ensures RegexChomp(Some("a\r\n\n")) == Some("a\n")
    ensures Chomp(Some("a\r\n\n")) == Some("a\r\n")
  {
    assert Chomp(Some("a\r\n\n")) == Some("a\r\n") by {
      assert "a\r\n\n" == "a\r\n" + "\n";
      ChompRemovesOneLineBreak("a\r\n");
    }
    var s := "a\r\n\n";
    assert MatchAt(s, 0) == None;
    assert !DollarAt(s, 2);
    assert MatchAt(s, 1) == Some(3);
    RegexChompRemovesMatch(s, 1, 3);
    assert s[..1] + s[3..] == "a\n";
  }
}
