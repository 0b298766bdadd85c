/** The parts of Python's `str` behaviour the core relies on, restricted to ASCII. */
module PyText {

  predicate IsUpperChar(c: char) { 'A' <= c <= 'Z' }
  predicate IsLowerChar(c: char) { 'a' <= c <= 'z' }
  predicate IsDigitChar(c: char) { '0' <= c <= '9' }

  /** The characters the regex class `\s` matches among ASCII: tab, line feed,
      vertical tab, form feed, carriage return, the four separators 0x1C-0x1F and space. */
  predicate IsSpaceChar(c: char) { 9 <= c as int <= 13 || 28 <= c as int <= 32 }

  /** `str.isupper`: at least one cased character, and no lower-case one. */
  predicate IsUpper(s: string) {
    (exists i :: 0 <= i < |s| && IsUpperChar(s[i])) &&
    forall i :: 0 <= i < |s| ==> !IsLowerChar(s[i])
  }

  /** `str.isdigit`: non-empty and made of digits only. */
  predicate IsDigit(s: string) {
    |s| > 0 && forall i :: 0 <= i < |s| ==> IsDigitChar(s[i])
  }

  /** `str.startswith`. */
  predicate StartsWith(s: string, prefix: string) {
    |prefix| <= |s| && s[..|prefix|] == prefix
  }

  /** The substring test `sub in s`. */
  predicate Contains(s: string, sub: string)
    decreases |s|
  {
    StartsWith(s, sub) || (|s| > 0 && Contains(s[1..], sub))
  }

  function DigitChar(d: nat): (c: char)
    requires d < 10
    ensures IsDigitChar(c)
  {
    ('0' as int + d) as char
  }

  /** Decimal digits of a natural number, without leading zeros. */
  function NatToString(n: nat): (s: string)
    ensures IsDigit(s)
  {
    if n < 10 then [DigitChar(n)] else NatToString(n / 10) + [DigitChar(n % 10)]
  }

  /** `str(n)` for a Python int. */
  function IntToString(n: int): (s: string)
    ensures |s| > 0
    ensures s[0] == '-' <==> n < 0
    ensures n >= 0 ==> IsDigit(s)
  {
    if n < 0 then "-" + NatToString(-n) else NatToString(n)
  }

  /** openpyxl's `get_column_letter`: bijective base 26, 1 -> "A", 26 -> "Z", 27 -> "AA". */
  function ColumnLetters(col: int): (s: string)
    requires col >= 1
    ensures |s| > 0 && forall i :: 0 <= i < |s| ==> IsUpperChar(s[i])
  {
    if col <= 26 then [('A' as int + col - 1) as char]
    else ColumnLetters((col - 1) / 26) + [('A' as int + (col - 1) % 26) as char]
  }

  /** The letters are bijective base 26: Z is followed by AA, AZ by BA, ZZ by AAA. */
  lemma ColumnLettersExamples()
    ensures ColumnLetters(1) == "A" && ColumnLetters(26) == "Z" && ColumnLetters(27) == "AA"
    ensures ColumnLetters(52) == "AZ" && ColumnLetters(53) == "BA"
    ensures ColumnLetters(702) == "ZZ" && ColumnLetters(703) == "AAA"
  {
    assert ColumnLetters(1) == "A";
    assert ColumnLetters(2) == "B";
    assert ColumnLetters(26) == "Z";
    assert ColumnLetters(27) == "AA";
  }
}
