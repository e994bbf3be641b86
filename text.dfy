/** String primitives with Python's meaning: `str.endswith`, `str.capitalize`
    on ASCII letters, `str()` of an integer and one step of `posixpath.join`. */
module Text {

  /** `s.endswith(suffix)`. */
  predicate EndsWith(s: string, suffix: string) {
    |suffix| <= |s| && s[|s| - |suffix|..] == suffix
  }

  /** `s.startswith(prefix)`. */
  predicate StartsWith(s: string, prefix: string) {
    |prefix| <= |s| && s[..|prefix|] == prefix
  }

  predicate IsUpper(c: char) { 'A' <= c <= 'Z' }
  predicate IsLower(c: char) { 'a' <= c <= 'z' }

  function ToUpper(c: char): char {
    if IsLower(c) then (c as int - 32) as char else c
  }

  function ToLower(c: char): char {
    if IsUpper(c) then (c as int + 32) as char else c
  }

  /** Two characters that are the same letter up to ASCII case, or equal. */
  predicate SameUpToCase(a: char, b: char) {
    ToLower(a) == ToLower(b)
  }

  /** `s.capitalize()`: the first character in upper case and every other
      character in lower case (ASCII letters; other characters unchanged). */
  function Capitalize(s: string): (r: string)
    ensures |r| == |s|
    ensures forall i :: 0 <= i < |s| ==> SameUpToCase(r[i], s[i])
    ensures |r| > 0 ==> !IsLower(r[0])
    ensures forall i :: 0 < i < |r| ==> !IsUpper(r[i])
  {
    if s == [] then []
    else [ToUpper(s[0])] + seq(|s| - 1, i requires 0 <= i < |s| - 1 => ToLower(s[i + 1]))
  }

  /** Capitalizing a capitalized string changes nothing. */
  lemma CapitalizeIdempotent(s: string)
    ensures Capitalize(Capitalize(s)) == Capitalize(s)
  {
    var c := Capitalize(s);
    var cc := Capitalize(c);
    assert |cc| == |c|;
    forall i | 0 <= i < |c|
      ensures cc[i] == c[i]
    {
      if i == 0 {
        assert cc[0] == ToUpper(c[0]);
      } else {
        assert cc[i] == ToLower(c[i]);
      }
    }
  }

  /** "Clear", the default description, is already capitalized. */
  lemma CapitalizeClear()
    ensures Capitalize("Clear") == "Clear"
  {
    var s := "Clear";
    var r := Capitalize(s);
    forall i | 0 <= i < 5
      ensures r[i] == s[i]
    {
      assert SameUpToCase(r[i], s[i]);
    }
  }

  predicate IsDigit(c: char) { '0' <= c <= '9' }

  function DigitChar(d: nat): (c: char)
    requires d < 10
    ensures IsDigit(c)
  {
    ('0' as int + d) as char
  }

  function DigitValue(c: char): (d: nat)
    requires IsDigit(c)
    ensures d < 10
  {
    c as int - '0' as int
  }

  /** The decimal digits of `n`, most significant first, without leading zeros. */
  function Digits(n: nat): (s: string)
    ensures |s| > 0
    ensures forall i :: 0 <= i < |s| ==> IsDigit(s[i])
    ensures |s| > 1 ==> s[0] != '0'
  {
    if n < 10 then [DigitChar(n)] else Digits(n / 10) + [DigitChar(n % 10)]
  }

  /** `str(n)` of a Python integer. */
  function DecimalText(n: int): (s: string)
    ensures |s| > 0
    ensures s[0] == '-' <==> n < 0
    ensures s[0] == '-' || IsDigit(s[0])
  {
    if n < 0 then "-" + Digits(-n) else Digits(n)
  }

  /** The value of a string of decimal digits. */
  function DigitsValue(s: string): nat
    requires forall i :: 0 <= i < |s| ==> IsDigit(s[i])
  {
    if s == [] then 0 else DigitsValue(s[..|s| - 1]) * 10 + DigitValue(s[|s| - 1])
  }

  /** The integer an optionally signed decimal numeral denotes (`int(s)`). */
  function ParseDecimal(s: string): int
    requires |s| > 0
    requires forall i :: 0 < i < |s| ==> IsDigit(s[i])
    requires s[0] == '-' || IsDigit(s[0])
  {
    if s[0] == '-' then -(DigitsValue(s[1..]) as int) else DigitsValue(s)
  }

  lemma {:induction false} DigitsRoundTrip(n: nat)
    ensures DigitsValue(Digits(n)) == n
  {
    var s := Digits(n);
    if n >= 10 {
      DigitsRoundTrip(n / 10);
      assert s[..|s| - 1] == Digits(n / 10);
    }
  }

  /** Reading back the decimal text of an integer gives the integer. */
  lemma DecimalRoundTrip(n: int)
    ensures ParseDecimal(DecimalText(n)) == n
  {
    if n < 0 {
      DigitsRoundTrip(-n);
      assert DecimalText(n)[1..] == Digits(-n);
    } else {
      DigitsRoundTrip(n);
    }
  }

  /** Different integers have different decimal texts. */
  lemma DecimalTextInjective(a: int, b: int)
    requires DecimalText(a) == DecimalText(b)
    ensures a == b
  {
    DecimalRoundTrip(a);
    DecimalRoundTrip(b);
  }

  /** `s` ends with `suffix`, so it is what precedes it followed by it. */
  lemma SplitSuffix(s: string, suffix: string)
    requires EndsWith(s, suffix)
    ensures s == s[..|s| - |suffix|] + suffix
  {
  }

  /** `s.startswith("/")`. */
  predicate Absolute(s: string) { |s| > 0 && s[0] == '/' }

  /** `s.endswith("/")`. */
  predicate EndsWithSlash(s: string) { |s| > 0 && s[|s| - 1] == '/' }

  /** One step of `posixpath.join(path, part)`: an absolute `part` replaces
      what came before; otherwise a separator is inserted unless `path` is
      empty or already ends with one. */
  function JoinPath(path: string, part: string): (r: string)
    ensures Absolute(part) ==> r == part
    ensures !Absolute(part) ==> EndsWith(r, part) && StartsWith(r, path)
    ensures !Absolute(part) && path != [] && !EndsWithSlash(path) ==> r == path + "/" + part
    ensures !Absolute(part) && (path == [] || EndsWithSlash(path)) ==> r == path + part
  {
    if Absolute(part) then part
    else if path == [] || EndsWithSlash(path) then path + part
    else path + "/" + part
  }
}
