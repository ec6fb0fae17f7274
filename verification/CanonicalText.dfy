/** The canonical JSON text of the small records that the stable ledgers use as keys, and the
    whitespace normalisation of provider fields. */
module CanonicalText {
  import opened Alphabets

  function HexDigit(n: int): char
    requires 0 <= n < 16
  {
    if n < 10 then '0' + n as char else 'a' + (n - 10) as char
  }

  /** How a JSON string literal writes one character (`ensure_ascii` is off). */
  function EscapeChar(c: char): (e: string)
    ensures e != [] && e[0] != '"'
  {
    if c == '"' then ['\\', '"']
    else if c == '\\' then ['\\', '\\']
    else if c == '\n' then ['\\', 'n']
    else if c == '\r' then ['\\', 'r']
    else if c == '\t' then ['\\', 't']
    else if c as int == 8 then ['\\', 'b']
    else if c as int == 12 then ['\\', 'f']
    else if c < ' ' then ['\\', 'u', '0', '0', HexDigit(c as int / 16), HexDigit(c as int % 16)]
    else [c]
  }

  function Escape(s: string): string {
    if s == [] then [] else EscapeChar(s[0]) + Escape(s[1..])
  }

  function Quote(s: string): string {
    "\"" + Escape(s) + "\""
  }

  /** The escapes form a prefix code. */
  lemma EscapeCharIsCode(a: char, b: char, x: string, y: string)
    requires EscapeChar(a) + x == EscapeChar(b) + y
    ensures a == b && x == y
  {
    var ea, eb := EscapeChar(a), EscapeChar(b);
    var l, r := ea + x, eb + y;
    assert l[0] == ea[0] && r[0] == eb[0];
    if |ea| > 1 && |eb| > 1 {
      assert l[1] == ea[1] && r[1] == eb[1];
      if |ea| == 6 && |eb| == 6 {
        assert l[4] == ea[4] && r[4] == eb[4] && l[5] == ea[5] && r[5] == eb[5];
      }
    }
    assert a == b;
    assert x == l[|ea|..] && y == r[|eb|..];
  }

  lemma FirstOfEscaped(a: string, x: string)
    ensures ((Escape(a) + "\"" + x)[0] == '"') == (a == [])
  {
    if a != [] { assert (Escape(a) + "\"" + x)[0] == EscapeChar(a[0])[0]; }
  }

  lemma EscapeCons(a: string, x: string)
    requires a != []
    ensures Escape(a) + "\"" + x == EscapeChar(a[0]) + (Escape(a[1..]) + "\"" + x)
  {}

  /** A quoted string ends where its closing quote is: nothing else reads the same. */
  lemma {:induction false} EscapeIsCode(a: string, b: string, x: string, y: string)
    requires Escape(a) + "\"" + x == Escape(b) + "\"" + y
    ensures a == b && x == y
  {
    FirstOfEscaped(a, x);
    FirstOfEscaped(b, y);
    if a == [] {
      assert x == (Escape(a) + "\"" + x)[1..] && y == (Escape(b) + "\"" + y)[1..];
    } else {
      EscapeCons(a, x);
      EscapeCons(b, y);
      EscapeCharIsCode(a[0], b[0], Escape(a[1..]) + "\"" + x, Escape(b[1..]) + "\"" + y);
      EscapeIsCode(a[1..], b[1..], x, y);
      assert a == [a[0]] + a[1..] && b == [b[0]] + b[1..];
    }
  }

  lemma QuoteIsCode(a: string, b: string, x: string, y: string)
    requires Quote(a) + x == Quote(b) + y
    ensures a == b && x == y
  {
    var l, r := Quote(a) + x, Quote(b) + y;
    assert l[1..] == Escape(a) + "\"" + x && r[1..] == Escape(b) + "\"" + y;
    EscapeIsCode(a, b, x, y);
  }

  function HexValue(c: char): int {
    if '0' <= c <= '9' then c as int - '0' as int
    else if 'a' <= c <= 'f' then c as int - 'a' as int + 10
    else 0
  }

  /** The character that a short JSON escape stands for. */
  function ShortEscape(k: char): char {
    if k == 'n' then '\n'
    else if k == 'r' then '\r'
    else if k == 't' then '\t'
    else if k == 'b' then 8 as char
    else if k == 'f' then 12 as char
    else k
  }

  /** The characters that a JSON reader finds in the text of a string. */
  function Unescape(t: string): string {
    if t == [] then []
    else if t[0] != '\\' || |t| == 1 then [t[0]] + Unescape(t[1..])
    else if t[1] == 'u' && |t| >= 6 then
      var v := HexValue(t[2]) * 4096 + HexValue(t[3]) * 256 + HexValue(t[4]) * 16 + HexValue(t[5]);
      [if 0 <= v < 0xd800 then v as char else '?'] + Unescape(t[6..])
    else [ShortEscape(t[1])] + Unescape(t[2..])
  }

  lemma UnescapeChar(c: char, rest: string)
    ensures Unescape(EscapeChar(c) + rest) == [c] + Unescape(rest)
  {
    var e, t := EscapeChar(c), EscapeChar(c) + rest;
    assert t[|e|..] == rest;
    assert forall i | 0 <= i < |e| :: t[i] == e[i];
    if |e| == 6 {
      var hi, lo := c as int / 16, c as int % 16;
      assert HexValue(HexDigit(hi)) == hi && HexValue(HexDigit(lo)) == lo;
    }
  }

  /** A JSON reader gets the string back. */
  lemma {:induction false} EscapeReadsBack(s: string)
    ensures Unescape(Escape(s)) == s
  {
    hide Unescape, EscapeChar;
    if s == [] {
      NothingToUnescape();
    } else {
      EscapeReadsBack(s[1..]);
      UnescapeChar(s[0], Escape(s[1..]));
      assert s == [s[0]] + s[1..];
    }
  }

  lemma NothingToUnescape()
    ensures Unescape([]) == []
  {}

  /** Whitespace as Python's `str.split` and `str.strip` see it. */
  predicate IsSpace(c: char) {
    || c == ' ' || '\t' <= c <= '\r' || '\U{1c}' <= c <= '\U{1f}'
    || c == '\U{85}' || c == '\U{a0}' || c == '\U{1680}' || '\U{2000}' <= c <= '\U{200a}'
    || c == '\U{2028}' || c == '\U{2029}' || c == '\U{202f}' || c == '\U{205f}' || c == '\U{3000}'
  }

  const Spaces: string := "\t\n\U{b}\U{c}\r\U{1c}\U{1d}\U{1e}\U{1f} \U{85}\U{a0}\U{1680}"
    + "\U{2000}\U{2001}\U{2002}\U{2003}\U{2004}\U{2005}\U{2006}\U{2007}\U{2008}\U{2009}\U{200a}"
    + "\U{2028}\U{2029}\U{202f}\U{205f}\U{3000}"

  lemma SpacesAre(c: char)
    ensures IsSpace(c) <==> c in Spaces
  {
    if '\t' <= c <= '\r' { assert Spaces[c as int - 9] == c; }
    if '\U{1c}' <= c <= '\U{1f}' { assert Spaces[c as int - 0x1c + 5] == c; }
    if '\U{2000}' <= c <= '\U{200a}' { assert Spaces[c as int - 0x2000 + 13] == c; }
    assert Spaces[9] == ' ' && Spaces[10] == '\U{85}' && Spaces[11] == '\U{a0}' && Spaces[12] == '\U{1680}';
    assert Spaces[24] == '\U{2028}' && Spaces[25] == '\U{2029}' && Spaces[26] == '\U{202f}';
    assert Spaces[27] == '\U{205f}' && Spaces[28] == '\U{3000}';
  }

  /** Length of the leading run of characters that are spaces (or, with `false`, are not). */
  function Run(s: string, spaces: bool): (n: nat)
    ensures n <= |s|
    ensures forall i | 0 <= i < n :: IsSpace(s[i]) == spaces
    ensures n < |s| ==> IsSpace(s[n]) != spaces
  {
    if s == [] || IsSpace(s[0]) != spaces then 0 else 1 + Run(s[1..], spaces)
  }

  /** `" ".join(s.split())`. */
  function NormalizeSpace(s: string): string
    decreases |s|
  {
    var t := s[Run(s, true)..];
    if t == [] then []
    else
      var n := Run(t, false);
      var rest := NormalizeSpace(t[n..]);
      if rest == [] then t[..n] else t[..n] + " " + rest
  }

  /** Text without any whitespace is already normalised. */
  lemma NormalizeWord(s: string)
    requires forall i | 0 <= i < |s| :: !IsSpace(s[i])
    ensures NormalizeSpace(s) == s
  {
    assert s[0..] == s;
    if s != [] {
      assert s[|s|..] == [];
      assert NormalizeSpace([]) == [];
      assert s[..|s|] == s;
    }
  }

  /** `s.split()`: the maximal runs of characters other than whitespace. */
  function WordsOf(s: string): (w: seq<string>)
    ensures s != [] && !IsSpace(s[0]) ==> w != []
  {
    if s == [] then []
    else if IsSpace(s[0]) then WordsOf(s[1..])
    else if |s| == 1 || IsSpace(s[1]) then [[s[0]]] + WordsOf(s[1..])
    else
      var w := WordsOf(s[1..]);
      [[s[0]] + w[0]] + w[1..]
  }

  /** Words with single blanks between them and nothing else. */
  ghost predicate Tidy(s: string) {
    forall i | 0 <= i < |s| && IsSpace(s[i]) ::
      s[i] == ' ' && 0 < i < |s| - 1 && !IsSpace(s[i - 1]) && !IsSpace(s[i + 1])
  }

  lemma {:induction false} SkipSpaces(s: string)
    ensures WordsOf(s[Run(s, true)..]) == WordsOf(s)
  {
    if s != [] && IsSpace(s[0]) {
      SkipSpaces(s[1..]);
      assert s[1..][Run(s[1..], true)..] == s[Run(s, true)..];
    } else {
      assert s[0..] == s;
    }
  }

  lemma {:induction false} FirstWord(word: string, rest: string)
    requires word != [] && (forall i | 0 <= i < |word| :: !IsSpace(word[i]))
    requires rest == [] || IsSpace(rest[0])
    ensures WordsOf(word + rest) == [word] + WordsOf(rest)
  {
    var s := word + rest;
    assert s[1..] == word[1..] + rest;
    if |word| == 1 {
      assert word[1..] + rest == rest;
      assert word == [s[0]];
    } else {
      assert s[1] == word[1];
      FirstWord(word[1..], rest);
      assert word == [word[0]] + word[1..];
    }
  }

  /** What is left of a text after its first word. */
  lemma FirstWordOf(s: string) returns (word: string, rest: string)
    ensures |rest| <= |s| && (forall i | 0 <= i < |word| :: !IsSpace(word[i]))
    ensures word == [] ==> WordsOf(s) == [] && NormalizeSpace(s) == []
    ensures word != [] ==>
              && |rest| < |s| && WordsOf(s) == [word] + WordsOf(rest)
              && NormalizeSpace(s)
                 == if NormalizeSpace(rest) == [] then word else word + " " + NormalizeSpace(rest)
  {
    hide IsSpace;
    SkipSpaces(s);
    var t := s[Run(s, true)..];
    if t == [] {
      word, rest := [], [];
    } else {
      var n := Run(t, false);
      word, rest := t[..n], t[n..];
      assert t == word + rest;
      hide Run;
      FirstWord(word, rest);
    }
  }

  /** Putting a blank between a word and more words. */
  lemma BlankBetween(word: string, rest: string)
    requires word != [] && (forall i | 0 <= i < |word| :: !IsSpace(word[i]))
    ensures WordsOf(word + " " + rest) == [word] + WordsOf(rest)
    ensures WordsOf(word) == [word]
  {
    assert (" " + rest)[1..] == rest;
    assert word + " " + rest == word + (" " + rest);
    FirstWord(word, " " + rest);
    FirstWord(word, []);
    assert word + [] == word;
  }

  /** Normalising keeps the words and leaves nothing but single blanks between them. */
  lemma {:induction false} NormalizeKeepsWords(s: string)
    ensures WordsOf(NormalizeSpace(s)) == WordsOf(s) && Tidy(NormalizeSpace(s))
    decreases |s|
  {
    hide IsSpace, Tidy, WordsOf, NormalizeSpace;
    NothingIsTidy();
    var word, rest := FirstWordOf(s);
    if word != [] {
      NormalizeKeepsWords(rest);
      BlankBetween(word, NormalizeSpace(rest));
      if NormalizeSpace(rest) == [] {
        WordIsTidy(word);
      } else {
        TidyJoin(word, NormalizeSpace(rest));
      }
    }
  }

  lemma NothingIsTidy()
    ensures Tidy([]) && WordsOf([]) == [] && NormalizeSpace([]) == []
  {}

  lemma WordIsTidy(word: string)
    requires forall i | 0 <= i < |word| :: !IsSpace(word[i])
    ensures Tidy(word)
  {}

  lemma TidyJoin(word: string, rest: string)
    requires word != [] && (forall i | 0 <= i < |word| :: !IsSpace(word[i]))
    requires rest != [] && Tidy(rest)
    ensures Tidy(word + " " + rest)
  {
    var all, k := word + " " + rest, |word|;
    assert !IsSpace(rest[0]);
    forall i | 0 <= i < |all| && IsSpace(all[i])
      ensures all[i] == ' ' && 0 < i < |all| - 1 && !IsSpace(all[i - 1]) && !IsSpace(all[i + 1])
    {
      if i > k {
        assert all[i] == rest[i - k - 1] && all[i - 1] == rest[i - k - 2] && all[i + 1] == rest[i - k];
      } else {
        assert i == k && all[k + 1] == rest[0] && all[k - 1] == word[k - 1];
      }
    }
  }

  function StripRight(s: string): (r: string)
    ensures r <= s && (r != [] ==> !IsSpace(r[|r| - 1]))
  {
    if s != [] && IsSpace(s[|s| - 1]) then StripRight(s[..|s| - 1]) else s
  }

  /** `str.strip()`. */
  function Strip(s: string): string {
    StripRight(s[Run(s, true)..])
  }

  lemma {:induction false} StripRightMeans(s: string) returns (right: string)
    ensures s == StripRight(s) + right && forall i | 0 <= i < |right| :: IsSpace(right[i])
  {
    if s != [] && IsSpace(s[|s| - 1]) {
      var more := StripRightMeans(s[..|s| - 1]);
      right := more + [s[|s| - 1]];
      assert s == s[..|s| - 1] + [s[|s| - 1]];
    } else {
      right := [];
    }
  }

  /** Stripping takes whitespace off both ends, all of it and nothing else. */
  lemma StripMeans(s: string) returns (left: string, right: string)
    ensures s == left + Strip(s) + right
    ensures forall i | 0 <= i < |left| :: IsSpace(left[i])
    ensures forall i | 0 <= i < |right| :: IsSpace(right[i])
    ensures Strip(s) != [] ==> !IsSpace(Strip(s)[0]) && !IsSpace(Strip(s)[|Strip(s)| - 1])
  {
    hide IsSpace, StripRight, Run;
    var n := Run(s, true);
    var t := s[n..];
    left := s[..n];
    right := StripRightMeans(t);
    assert s == left + t;
    if Strip(s) != [] { assert Strip(s)[0] == t[0] == s[n]; }
  }

  lemma StripIsIdempotent(s: string)
    ensures Strip(Strip(s)) == Strip(s)
  {
    var t := s[Run(s, true)..];
    var r := Strip(s);
    if r != [] {
      assert r[0] == t[0];
      assert r[Run(r, true)..] == r;
    }
  }

  /** A SHA-256 digest in lower-case hexadecimal. */
  predicate IsSha(s: string) {
    |s| == 64 && forall i | 0 <= i < 64 :: '0' <= s[i] <= '9' || 'a' <= s[i] <= 'f'
  }

  lemma ShaMeans(s: string)
    ensures IsSha(s) <==> |s| == 64 && forall c | c in s :: c in HexDigits
  {
    hide HexDigits;
    assert forall i | 0 <= i < |s| :: s[i] in s;
    forall c ensures c in HexDigits <==> '0' <= c <= '9' || 'a' <= c <= 'f' { HexDigitsAre(c); }
  }

  /** A record's own text, as a sort key. */
  function Same(s: string): string { s }
}
