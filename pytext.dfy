/** How Python turns values into text, as far as the bot's messages need it:
    `str()` of an int, `repr()` of a str, and the string predicates that the
    rest of the model states its results with. */
module PyText {

  predicate StartsWith(s: string, prefix: string) {
    |prefix| <= |s| && s[..|prefix|] == prefix
  }

  predicate EndsWith(s: string, suffix: string) {
    |suffix| <= |s| && s[|s| - |suffix|..] == suffix
  }

  /** A concatenation ends with its second part. */
  lemma EndsWithConcat(a: string, b: string)
    ensures EndsWith(a + b, b)
  {
    assert (a + b)[|a|..] == b;
  }

  /** `part` occurs in s starting at index i. */
  predicate OccursAt(s: string, part: string, i: int) {
    0 <= i <= |s| - |part| && s[i..i + |part|] == part
  }

  predicate Contains(s: string, part: string) {
    exists i :: 0 <= i <= |s| && OccursAt(s, part, i)
  }

  // ---------------------------------------------------------------------------
  // str(n) for an int n

  predicate IsDigit(c: char) {
    '0' <= c <= '9'
  }

  predicate AllDigits(s: string) {
    forall i :: 0 <= i < |s| ==> IsDigit(s[i])
  }

  function DigitChar(d: nat): (c: char)
    requires d < 10
  {
    "0123456789"[d]
  }

  /** The decimal digits of n, most significant first, without leading zeros. */
  function NatDigits(n: nat): string
    decreases n
  {
    if n < 10 then [DigitChar(n)] else NatDigits(n / 10) + [DigitChar(n % 10)]
  }

  /** `str(n)`: a minus sign for negative numbers, then the digits. */
  function Decimal(n: int): string {
    if n < 0 then "-" + NatDigits(-n) else NatDigits(n)
  }

  /** The number a string of decimal digits denotes. */
  function DigitsValue(s: string): nat
    requires AllDigits(s)
  {
    if s == [] then 0
    else DigitsValue(s[..|s| - 1]) * 10 + (s[|s| - 1] as int - '0' as int)
  }

  /** Reading back the digits of `str(n)` gives n again, and a non-negative
      number renders without a sign. */
  lemma {:induction false} NatDigitsRoundTrip(n: nat)
    ensures var s := NatDigits(n); 0 < |s| && AllDigits(s) && DigitsValue(s) == n
    ensures |NatDigits(n)| == 1 || NatDigits(n)[0] != '0'
    decreases n
  {
    var s := NatDigits(n);
    if n >= 10 {
      NatDigitsRoundTrip(n / 10);
      var p := NatDigits(n / 10);
      assert s == p + [DigitChar(n % 10)];
      assert s[..|s| - 1] == p;
      assert s[0] == p[0];
    }
  }

  // ---------------------------------------------------------------------------
  // repr(s) for a str s

  const HexDigits: string := "0123456789abcdef"

  /** Python's quote choice: single quotes, unless the text holds a single quote
      and no double quote. */
  function QuoteFor(s: string): char {
    if '\'' in s && '"' !in s then '"' else '\''
  }

  /** How one character appears inside the quotes of `repr`. */
  function EscapeChar(c: char, quote: char): string {
    if c == quote || c == '\\' then ['\\', c]
    else if c == '\t' then "\\t"
    else if c == '\n' then "\\n"
    else if c == '\r' then "\\r"
    else if c < ' ' || c as int == 0x7F then
      ['\\', 'x', HexDigits[c as int / 16], HexDigits[c as int % 16]]
    else [c]
  }

  function Escaped(s: string, quote: char): string
    decreases |s|
  {
    if s == [] then [] else Escaped(s[..|s| - 1], quote) + EscapeChar(s[|s| - 1], quote)
  }

  /** `repr(s)`: the quoted, escaped form of s. */
  function StrRepr(s: string): (r: string)
    ensures 2 <= |r| && r[0] == QuoteFor(s) && r[|r| - 1] == QuoteFor(s)
  {
    var q := QuoteFor(s);
    [q] + Escaped(s, q) + [q]
  }

  /** A character `repr` shows as itself whatever the quote. */
  predicate PlainChar(c: char) {
    c != '\'' && c != '"' && c != '\\' && ' ' <= c && c as int != 0x7F
  }

  predicate PlainText(s: string) {
    forall i :: 0 <= i < |s| ==> PlainChar(s[i])
  }

  lemma PlainConcat(a: string, b: string)
    requires PlainText(a) && PlainText(b)
    ensures PlainText(a + b)
  {
    forall i | 0 <= i < |a + b| ensures PlainChar((a + b)[i]) {
      if i < |a| { assert (a + b)[i] == a[i]; } else { assert (a + b)[i] == b[i - |a|]; }
    }
  }

  /** Text without quotes, backslashes or control characters is shown by
      `repr` between single quotes, unchanged. */
  lemma {:induction false} PlainStrRepr(s: string)
    requires PlainText(s)
    ensures StrRepr(s) == "'" + s + "'"
  {
    PlainEscaped(s, '\'');
  }

  lemma {:induction false} PlainEscaped(s: string, quote: char)
    requires quote == '\'' || quote == '"'
    requires PlainText(s)
    ensures Escaped(s, quote) == s
    decreases |s|
  {
    if s != [] {
      var init := s[..|s| - 1];
      PlainEscaped(init, quote);
      assert s == init + [s[|s| - 1]];
    }
  }
}
