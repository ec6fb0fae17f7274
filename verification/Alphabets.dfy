/** The character classes of the regular expressions and formats used here, spelled out. */
module Alphabets {

  const Letters: string := "abcdefghijklmnopqrstuvwxyz"
  const Capitals: string := "ABCDEFGHIJKLMNOPQRSTUVWXYZ"
  const Digits: string := "0123456789"
  const HexDigits: string := "0123456789abcdef"

  lemma LettersAre(c: char)
    ensures c in Letters <==> 'a' <= c <= 'z'
  {
    if 'a' <= c <= 'z' { assert Letters[c as int - 'a' as int] == c; }
  }

  lemma CapitalsAre(c: char)
    ensures c in Capitals <==> 'A' <= c <= 'Z'
  {
    if 'A' <= c <= 'Z' { assert Capitals[c as int - 'A' as int] == c; }
  }

  lemma DigitsAre(c: char)
    ensures c in Digits <==> '0' <= c <= '9'
  {
    if '0' <= c <= '9' { assert Digits[c as int - '0' as int] == c; }
  }

  lemma HexDigitsAre(c: char)
    ensures c in HexDigits <==> '0' <= c <= '9' || 'a' <= c <= 'f'
  {
    if '0' <= c <= '9' { assert HexDigits[c as int - '0' as int] == c; }
    if 'a' <= c <= 'f' { assert HexDigits[10 + c as int - 'a' as int] == c; }
  }

  /** Everything that `str.isalnum` accepts among ASCII characters. */
  lemma AlphaNumericsAre(c: char)
    ensures c in Letters + Capitals + Digits <==> 'a' <= c <= 'z' || 'A' <= c <= 'Z' || '0' <= c <= '9'
  {
    hide Letters, Capitals, Digits;
    LettersAre(c);
    CapitalsAre(c);
    DigitsAre(c);
  }
}
