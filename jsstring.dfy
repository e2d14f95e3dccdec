/**
 * The part of ECMAScript's String.prototype.trim that the to-do editor
 * relies on: removing leading and trailing white space and line terminators.
 */
module JsString {

  /** The characters `trim` strips: ECMAScript WhiteSpace (TAB, VT, FF, ZWNBSP
      and every space separator) and LineTerminator (LF, CR, LS, PS). */
  predicate IsWhitespace(c: char) {
    c == '\t' || c == '\n' || c == '\U{000B}' || c == '\U{000C}' || c == '\r' ||
    c == ' ' || c == '\U{00A0}' || c == '\U{1680}' ||
    ('\U{2000}' <= c <= '\U{200A}') ||
    c == '\U{2028}' || c == '\U{2029}' || c == '\U{202F}' || c == '\U{205F}' ||
    c == '\U{3000}' || c == '\U{FEFF}'
  }

  /** A string made of white space only (the empty string included). */
  predicate IsBlank(s: string) {
    forall i :: 0 <= i < |s| ==> IsWhitespace(s[i])
  }

  /** Length of the run of white space `s` starts with. */
  function LeadingSpace(s: string): (n: nat)
    ensures n <= |s|
    ensures forall i :: 0 <= i < n ==> IsWhitespace(s[i])
    ensures n < |s| ==> !IsWhitespace(s[n])
  {
    if s != [] && IsWhitespace(s[0]) then 1 + LeadingSpace(s[1..]) else 0
  }

  /** Where the run of white space `s` ends with begins. */
  function TrailingSpace(s: string): (n: nat)
    ensures n <= |s|
    ensures forall i :: n <= i < |s| ==> IsWhitespace(s[i])
    ensures n > 0 ==> !IsWhitespace(s[n - 1])
  {
    if s != [] && IsWhitespace(s[|s| - 1]) then TrailingSpace(s[..|s| - 1]) else |s|
  }

  /** Drops the leading white space. */
  function TrimStart(s: string): string {
    s[LeadingSpace(s)..]
  }

  /** Drops the trailing white space. */
  function TrimEnd(s: string): string {
    s[..TrailingSpace(s)]
  }

  /** String.prototype.trim. */
  function Trim(s: string): (r: string)
    ensures |r| <= |s|
    ensures r == [] || (!IsWhitespace(r[0]) && !IsWhitespace(r[|r| - 1]))
  {
    TrimEnd(TrimStart(s))
  }

  /** `Trim(s)` is the slice of `s` left once a blank prefix and a blank
      suffix are cut off. */
  lemma TrimSplits(s: string)
    ensures var lo := LeadingSpace(s);
      lo + |Trim(s)| <= |s| && Trim(s) == s[lo..lo + |Trim(s)|] &&
      IsBlank(s[..lo]) && IsBlank(s[lo + |Trim(s)|..])
  {
    var lo := LeadingSpace(s);
    var t := s[lo..];
    var hi := lo + TrailingSpace(t);
    assert Trim(s) == s[lo..hi];
    assert IsBlank(s[..lo]) by {
      forall i | 0 <= i < lo ensures IsWhitespace(s[..lo][i]) {
        assert s[..lo][i] == s[i];
      }
    }
    assert IsBlank(s[hi..]) by {
      forall i | 0 <= i < |s| - hi ensures IsWhitespace(s[hi..][i]) {
        assert s[hi..][i] == t[hi - lo + i];
      }
    }
  }

  /** Trimming yields the empty string exactly when the input is blank. */
  lemma TrimEmptyIffBlank(s: string)
    ensures Trim(s) == "" <==> IsBlank(s)
  {
    var lo := LeadingSpace(s);
    if lo < |s| {
      var t := s[lo..];
      assert t[0] == s[lo];
      assert TrailingSpace(t) > 0;
    }
  }

  /** Trimming twice is trimming once. */
  lemma TrimIdempotent(s: string)
    ensures Trim(Trim(s)) == Trim(s)
  {
    var r := Trim(s);
    if r != [] {
      TrimUnpadded(r);
    }
  }

  /** A string with no white space at either end is its own trim. */
  lemma TrimUnpadded(s: string)
    requires s != [] && !IsWhitespace(s[0]) && !IsWhitespace(s[|s| - 1])
    ensures Trim(s) == s
  {
    assert LeadingSpace(s) == 0;
    assert TrimStart(s) == s;
    assert TrailingSpace(s) == |s|;
  }

  /** Leading and trailing spaces go. */
  lemma TrimReport()
    ensures Trim(" Report ") == "Report"
  {
    assert LeadingSpace(" Report "[1..]) == 0;
    assert TrimStart(" Report ") == "Report ";
    assert "Report "[..6] == "Report";
    assert TrailingSpace("Report") == 6;
  }

  /** A trailing space goes; the inner one stays. */
  lemma TrimFinishIt()
    ensures Trim("Finish it ") == "Finish it"
  {
    assert LeadingSpace("Finish it ") == 0;
    assert "Finish it "[..9] == "Finish it";
    assert TrailingSpace("Finish it") == 9;
  }
}
