/**
 * The JavaScript string built-ins the watch relies on, over `seq<char>`:
 * `String.prototype.includes`, `toLowerCase` (folded on ASCII letters only),
 * `trim`, and `Number.prototype.toString` on a non-negative integer.
 */
module JsText {

  // ---------------------------------------------------------------------------
  // includes
  // ---------------------------------------------------------------------------

  /** `needle` sits at index `i` of `text`. */
  ghost predicate OccursAt(text: string, needle: string, i: int) {
    0 <= i && i + |needle| <= |text| && text[i..i + |needle|] == needle
  }

  /** `text.includes(needle)`: tries every start position from the left. */
  function Contains(text: string, needle: string): bool
    decreases |text|
  {
    |needle| <= |text| && (text[..|needle|] == needle || Contains(text[1..], needle))
  }

  lemma OccursAtShift(text: string, needle: string, i: int)
    requires |text| > 0 && i >= 0
    ensures OccursAt(text[1..], needle, i) <==> OccursAt(text, needle, i + 1)
  {
    if 0 <= i && i + |needle| <= |text| - 1 {
      assert text[1..][i..i + |needle|] == text[i + 1..i + 1 + |needle|];
    }
  }

  /** `includes` holds exactly when the needle occurs at some index. */
  lemma {:induction false} ContainsIffOccurs(text: string, needle: string)
    ensures Contains(text, needle) <==> exists i :: OccursAt(text, needle, i)
    decreases |text|
  {
    if |needle| > |text| {
      assert forall i :: !OccursAt(text, needle, i);
    } else if text[..|needle|] == needle {
      assert OccursAt(text, needle, 0);
    } else {
      assert !OccursAt(text, needle, 0);
      ContainsIffOccurs(text[1..], needle);
      if Contains(text[1..], needle) {
        var i :| OccursAt(text[1..], needle, i);
        OccursAtShift(text, needle, i);
      } else if exists j :: OccursAt(text, needle, j) {
        var j :| OccursAt(text, needle, j);
        OccursAtShift(text, needle, j - 1);
        assert false;
      }
    }
  }

  /** The empty needle is in every text; an empty text holds only the empty needle. */
  lemma ContainsEmpty(text: string, needle: string)
    ensures Contains(text, "")
    ensures Contains("", needle) <==> needle == ""
  {
  }

  /** A needle whose first character never appears in the text is not found. */
  lemma {:induction false} FirstCharAbsent(text: string, needle: string)
    requires |needle| > 0 && needle[0] !in text
    ensures !Contains(text, needle)
    decreases |text|
  {
    if |needle| <= |text| {
      assert text[0] in text;
      assert text[..|needle|][0] == text[0];
      FirstCharAbsent(text[1..], needle);
    }
  }

  // ---------------------------------------------------------------------------
  // toLowerCase
  // ---------------------------------------------------------------------------

  /** Folds 'A'..'Z' to 'a'..'z' and leaves every other character alone. */
  function LowerChar(c: char): char {
    if 'A' <= c <= 'Z' then (c as int + 32) as char else c
  }

  /** `s.toLowerCase()`, folding ASCII letters only. */
  function LowerCase(s: string): string {
    seq(|s|, i requires 0 <= i < |s| => LowerChar(s[i]))
  }

  /** Folding is idempotent and leaves no upper-case ASCII letter. */
  lemma LowerCaseIdempotent(s: string)
    ensures LowerCase(LowerCase(s)) == LowerCase(s)
    ensures forall i :: 0 <= i < |s| ==> !('A' <= LowerCase(s)[i] <= 'Z')
  {
  }

  lemma LowerCaseSlice(s: string, i: int, j: int)
    requires 0 <= i <= j <= |s|
    ensures LowerCase(s)[i..j] == LowerCase(s[i..j])
  {
  }

  /** `needle` sits at index `i` of `text` once both are folded. */
  ghost predicate OccursFoldedAt(text: string, needle: string, i: int) {
    0 <= i && i + |needle| <= |text| && LowerCase(text[i..i + |needle|]) == LowerCase(needle)
  }

  /** `text.toLowerCase().includes(needle.toLowerCase())`. */
  function ContainsIgnoringCase(text: string, needle: string): bool {
    Contains(LowerCase(text), LowerCase(needle))
  }

  /**
   * The case-insensitive match finds the needle exactly when some window of
   * the text is a case variant of it.
   */
  lemma ContainsIgnoringCaseIff(text: string, needle: string)
    ensures ContainsIgnoringCase(text, needle) <==> exists i :: OccursFoldedAt(text, needle, i)
  {
    ContainsIffOccurs(LowerCase(text), LowerCase(needle));
    forall i | 0 <= i && i + |needle| <= |text|
      ensures OccursAt(LowerCase(text), LowerCase(needle), i) <==> OccursFoldedAt(text, needle, i)
    {
      LowerCaseSlice(text, i, i + |needle|);
    }
    if ContainsIgnoringCase(text, needle) {
      var i :| OccursAt(LowerCase(text), LowerCase(needle), i);
      assert OccursFoldedAt(text, needle, i);
    }
    if exists i :: OccursFoldedAt(text, needle, i) {
      var i :| OccursFoldedAt(text, needle, i);
      assert OccursAt(LowerCase(text), LowerCase(needle), i);
    }
  }

  /** An exact match is also a case-insensitive match. */
  lemma ExactMatchSurvivesFolding(text: string, needle: string)
    requires Contains(text, needle)
    ensures ContainsIgnoringCase(text, needle)
  {
    ContainsIffOccurs(text, needle);
    var i :| OccursAt(text, needle, i);
    assert OccursFoldedAt(text, needle, i);
    ContainsIgnoringCaseIff(text, needle);
  }

  /** The case-insensitive match ignores the case of the needle. */
  lemma ContainsIgnoringCaseOfFolded(text: string, needle: string)
    ensures ContainsIgnoringCase(text, LowerCase(needle)) == ContainsIgnoringCase(text, needle)
  {
    LowerCaseIdempotent(needle);
  }

  // ---------------------------------------------------------------------------
  // trim
  // ---------------------------------------------------------------------------

  /** The WhiteSpace and LineTerminator code points of ECMAScript, which `trim` removes. */
  predicate IsJsWhitespace(c: char) {
    || c == '\t' || c == '\n' || c == '\U{000B}' || c == '\U{000C}' || c == '\r'
    || c == ' ' || c == '\U{00A0}' || c == '\U{1680}'
    || ('\U{2000}' <= c <= '\U{200A}')
    || c == '\U{2028}' || c == '\U{2029}' || c == '\U{202F}' || c == '\U{205F}'
    || c == '\U{3000}' || c == '\U{FEFF}'
  }

  /** Drops the leading whitespace: the result is the suffix starting at the first non-blank. */
  function TrimStart(s: string): (r: string)
    ensures |r| <= |s| && r == s[|s| - |r|..]
    ensures forall i :: 0 <= i < |s| - |r| ==> IsJsWhitespace(s[i])
    ensures r == [] || !IsJsWhitespace(r[0])
  {
    if s != [] && IsJsWhitespace(s[0]) then TrimStart(s[1..]) else s
  }

  /** Drops the trailing whitespace: the result is the prefix ending at the last non-blank. */
  function TrimEnd(s: string): (r: string)
    ensures |r| <= |s| && r == s[..|r|]
    ensures forall i :: |r| <= i < |s| ==> IsJsWhitespace(s[i])
    ensures r == [] || !IsJsWhitespace(r[|r| - 1])
  {
    if s != [] && IsJsWhitespace(s[|s| - 1]) then TrimEnd(s[..|s| - 1]) else s
  }

  /** `s.trim()`. */
  function Trim(s: string): (r: string)
    ensures r == [] || (!IsJsWhitespace(r[0]) && !IsJsWhitespace(r[|r| - 1]))
  {
    TrimEnd(TrimStart(s))
  }

  /** What `trim` keeps is a contiguous part of the input with only whitespace around it. */
  lemma TrimIsSlice(s: string)
    ensures exists i, j :: 0 <= i <= j <= |s| && Trim(s) == s[i..j]
                            && (forall k :: 0 <= k < i ==> IsJsWhitespace(s[k]))
                            && (forall k :: j <= k < |s| ==> IsJsWhitespace(s[k]))
  {
    var t := TrimStart(s);
    var r := TrimEnd(t);
    var i := |s| - |t|;
    var j := i + |r|;
    assert r == s[i..j] by {
      assert t == s[i..] && r == t[..|r|];
    }
    assert forall k :: j <= k < |s| ==> IsJsWhitespace(s[k]) by {
      assert t == s[i..];
      forall k | j <= k < |s| ensures IsJsWhitespace(s[k]) {
        assert s[k] == t[k - i];
      }
    }
  }

  /** A string without whitespace at either end is left alone. */
  lemma TrimNoBorder(s: string)
    requires s == [] || (!IsJsWhitespace(s[0]) && !IsJsWhitespace(s[|s| - 1]))
    ensures Trim(s) == s
  {
    assert TrimStart(s) == s;
  }

  /** Trimming twice is trimming once; `trim` changes exactly the strings with border whitespace. */
  lemma TrimIdempotent(s: string)
    ensures Trim(Trim(s)) == Trim(s)
    ensures (s == [] || (!IsJsWhitespace(s[0]) && !IsJsWhitespace(s[|s| - 1]))) <==> Trim(s) == s
  {
    TrimNoBorder(Trim(s));
    if s == [] || (!IsJsWhitespace(s[0]) && !IsJsWhitespace(s[|s| - 1])) {
      TrimNoBorder(s);
    }
  }

  // ---------------------------------------------------------------------------
  // Number.prototype.toString on a non-negative integer
  // ---------------------------------------------------------------------------

  predicate IsDigit(c: char) {
    '0' <= c <= '9'
  }

  function DigitValue(c: char): (d: nat)
    requires IsDigit(c)
    ensures d < 10
  {
    c as int - '0' as int
  }

  function DigitChar(d: nat): (c: char)
    requires d < 10
    ensures IsDigit(c) && DigitValue(c) == d
  {
    ('0' as int + d) as char
  }

  /** The decimal numeral of `n`: only digits, and no leading zero unless `n` is zero. */
  function NatToDecimal(n: nat): (r: string)
    ensures |r| >= 1 && forall i :: 0 <= i < |r| ==> IsDigit(r[i])
    ensures r[0] == '0' <==> n == 0
    ensures n == 0 ==> r == "0"
  {
    if n < 10 then [DigitChar(n)] else NatToDecimal(n / 10) + [DigitChar(n % 10)]
  }

  /** The value of a numeral, most significant digit first. */
  function DecimalValue(s: string): nat
    requires forall i :: 0 <= i < |s| ==> IsDigit(s[i])
  {
    if s == [] then 0 else DecimalValue(s[..|s| - 1]) * 10 + DigitValue(s[|s| - 1])
  }

  /** The numeral reads back as the number that produced it. */
  lemma {:induction false} DecimalRoundTrip(n: nat)
    ensures DecimalValue(NatToDecimal(n)) == n
  {
    var r := NatToDecimal(n);
    if n >= 10 {
      DecimalRoundTrip(n / 10);
      assert r[..|r| - 1] == NatToDecimal(n / 10);
    }
  }

  /** Different timestamps are written as different strings. */
  lemma DecimalInjective(m: nat, n: nat)
    requires NatToDecimal(m) == NatToDecimal(n)
    ensures m == n
  {
    DecimalRoundTrip(m);
    DecimalRoundTrip(n);
  }
}
