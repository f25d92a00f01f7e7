/**
  Scan normalisation shared by both packaging resolvers
  (`_normalize_scan` in product_detail_search): trim surrounding whitespace as Python's
  `str.strip()` does, then translate each Arabic-Indic digit U+0660..U+0669 to its ASCII digit.
*/
module Scan {

  /** The code points for which Python's `str.isspace()` holds. */
  const SpaceCodes: set<int> := {
    0x09, 0x0A, 0x0B, 0x0C, 0x0D, 0x1C, 0x1D, 0x1E, 0x1F, 0x20, 0x85, 0xA0, 0x1680,
    0x2000, 0x2001, 0x2002, 0x2003, 0x2004, 0x2005, 0x2006, 0x2007, 0x2008, 0x2009, 0x200A,
    0x2028, 0x2029, 0x202F, 0x205F, 0x3000
  }

  predicate IsSpace(c: char) {
    c as int in SpaceCodes
  }

  /** U+0660 ARABIC-INDIC DIGIT ZERO .. U+0669 ARABIC-INDIC DIGIT NINE. */
  predicate IsArabicDigit(c: char) {
    0x0660 <= c as int <= 0x0669
  }

  /** The `ARABIC_DIGITS` translation table applied to one character. */
  function TranslateChar(c: char): (r: char)
    ensures IsArabicDigit(c) ==> r as int == c as int - 0x0660 + '0' as int
    ensures !IsArabicDigit(c) ==> r == c
    ensures !IsArabicDigit(r) && (IsSpace(r) <==> IsSpace(c))
  {
    if IsArabicDigit(c) then (c as int - 0x0660 + '0' as int) as char else c
  }

  function Translate(s: seq<char>): (r: seq<char>)
    ensures |r| == |s| && forall i :: 0 <= i < |s| ==> r[i] == TranslateChar(s[i])
  {
    seq(|s|, i requires 0 <= i < |s| => TranslateChar(s[i]))
  }

  /** `lstrip()`: what is left does not start with whitespace. */
  function LStrip(s: seq<char>): (r: seq<char>)
    ensures |r| <= |s|
    ensures r != [] ==> !IsSpace(r[0])
  {
    if s != [] && IsSpace(s[0]) then LStrip(s[1..]) else s
  }

  /** `rstrip()`: what is left does not end with whitespace, and keeps the first character. */
  function RStrip(s: seq<char>): (r: seq<char>)
    ensures |r| <= |s|
    ensures r != [] ==> r[0] == s[0] && !IsSpace(r[|r| - 1])
  {
    if s != [] && IsSpace(s[|s| - 1]) then RStrip(s[..|s| - 1]) else s
  }

  /** `strip()`: no longer than the input, and neither starting nor ending with whitespace. */
  function Strip(s: seq<char>): (r: seq<char>)
    ensures |r| <= |s|
    ensures r != [] ==> !IsSpace(r[0]) && !IsSpace(r[|r| - 1])
  {
    RStrip(LStrip(s))
  }

  /** `_normalize_scan`: a falsy (empty) scan gives "", otherwise strip then translate. */
  function Normalize(text: seq<char>): (r: seq<char>)
    ensures |r| <= |text|
    ensures r != [] ==> !IsSpace(r[0]) && !IsSpace(r[|r| - 1])
    ensures forall i :: 0 <= i < |r| ==> !IsArabicDigit(r[i])
  {
    if text == [] then [] else Translate(Strip(text))
  }

  lemma {:induction false} LStripSpec(s: seq<char>) returns (a: nat)
    ensures a <= |s| && LStrip(s) == s[a..]
    ensures forall k :: 0 <= k < a ==> IsSpace(s[k])
    ensures a < |s| ==> !IsSpace(s[a])
    decreases |s|
  {
    if s != [] && IsSpace(s[0]) {
      var a' := LStripSpec(s[1..]);
      a := a' + 1;
      assert s[1..][a'..] == s[a..];
      forall k | 0 <= k < a ensures IsSpace(s[k]) {
        if k > 0 { assert s[k] == s[1..][k - 1]; }
      }
    } else {
      a := 0;
    }
  }

  lemma {:induction false} RStripSpec(s: seq<char>) returns (b: nat)
    ensures b <= |s| && RStrip(s) == s[..b]
    ensures forall k :: b <= k < |s| ==> IsSpace(s[k])
    ensures 0 < b ==> !IsSpace(s[b - 1])
    decreases |s|
  {
    if s != [] && IsSpace(s[|s| - 1]) {
      b := RStripSpec(s[..|s| - 1]);
      assert s[..|s| - 1][..b] == s[..b];
    } else {
      b := |s|;
    }
  }

  /**
    What stripping means: the result is the slice `s[a..b]` of the input; everything cut off
    is whitespace, and a non-empty result neither starts nor ends with whitespace.
  */
  lemma {:induction false} StripSpec(s: seq<char>) returns (a: nat, b: nat)
    ensures a <= b <= |s| && Strip(s) == s[a..b]
    ensures forall k :: 0 <= k < a || b <= k < |s| ==> IsSpace(s[k])
    ensures a < b ==> !IsSpace(s[a]) && !IsSpace(s[b - 1])
  {
    a := LStripSpec(s);
    var t := s[a..];
    var b' := RStripSpec(t);
    b := a + b';
    calc {
      Strip(s);
      RStrip(t);
      t[..b'];
      { assert t[..b'] == s[a..b]; }
      s[a..b];
    }
    forall k | b <= k < |s| ensures IsSpace(s[k]) {
      assert s[k] == t[k - a];
    }
    if a < b {
      assert s[a] == t[0] && s[b - 1] == t[b' - 1];
    }
  }

  /** What normalisation does, stated over the input: the trimmed slice, digits translated. */
  lemma NormalizeSpec(text: seq<char>) returns (a: nat, b: nat)
    ensures a <= b <= |text|
    ensures Normalize(text) == Translate(text[a..b])
    ensures forall k :: 0 <= k < a || b <= k < |text| ==> IsSpace(text[k])
    ensures a < b ==> !IsSpace(text[a]) && !IsSpace(text[b - 1])
  {
    a, b := StripSpec(text);
  }

  /** A string with no surrounding whitespace is its own strip. */
  lemma StripTrimmed(s: seq<char>)
    requires s != [] ==> !IsSpace(s[0]) && !IsSpace(s[|s| - 1])
    ensures Strip(s) == s
  {
  }

  /** Normalising twice equals normalising once. */
  lemma NormalizeIdempotent(text: seq<char>)
    ensures Normalize(Normalize(text)) == Normalize(text)
  {
    var r := Normalize(text);
    if r != [] {
      StripTrimmed(r);
      assert Translate(r) == r;
    }
  }
}
