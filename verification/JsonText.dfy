/** Strings as JSON text, escaped as encoding/json does it, and read back. */
module JsonText {
  import opened Frames

  /** The lower-case hexadecimal digit of `n`. */
  function Digit(n: nat): char
    requires n < 16
  {
    "0123456789abcdef"[n]
  }

  function Value(c: char): Option<nat> {
    if '0' <= c <= '9' then Some(c as nat - '0' as nat)
    else if 'a' <= c <= 'f' then Some(c as nat - 'a' as nat + 10)
    else if 'A' <= c <= 'F' then Some(c as nat - 'A' as nat + 10)
    else None
  }

  function FourDigits(n: nat): (s: string)
    requires n < 0x10000
    ensures |s| == 4
  {
    [Digit(n / 4096), Digit(n / 256 % 16), Digit(n / 16 % 16), Digit(n % 16)]
  }

  function FourValues(s: string): Option<nat>
    requires |s| == 4
  {
    var a, b, c, d := Value(s[0]), Value(s[1]), Value(s[2]), Value(s[3]);
    if a.None? || b.None? || c.None? || d.None? then None
    else Some(((a.value * 16 + b.value) * 16 + c.value) * 16 + d.value)
  }

  /** The letter that stands for a character behind a backslash. */
  function ShortForm(c: char): Option<char> {
    match c
    case '"' => Some('"')
    case '\\' => Some('\\')
    case '\n' => Some('n')
    case '\r' => Some('r')
    case '\t' => Some('t')
    case '\U{08}' => Some('b')
    case '\U{0C}' => Some('f')
    case _ => None
  }

  function FromShort(c: char): Option<char> {
    match c
    case '"' => Some('"')
    case '\\' => Some('\\')
    case '/' => Some('/')
    case 'n' => Some('\n')
    case 'r' => Some('\r')
    case 't' => Some('\t')
    case 'b' => Some('\U{08}')
    case 'f' => Some('\U{0C}')
    case _ => None
  }

  /** Control characters, what HTML would read as markup, and the two line separators. */
  predicate NeedsCode(c: char) {
    c < ' ' || c in {'<', '>', '&', '\U{2028}', '\U{2029}'}
  }

  function EscapeChar(c: char): string {
    if ShortForm(c).Some? then ['\\', ShortForm(c).value]
    else if NeedsCode(c) then ['\\', 'u'] + FourDigits(c as nat)
    else [c]
  }

  function Escape(s: string): string {
    if s == "" then "" else EscapeChar(s[0]) + Escape(s[1..])
  }

  /** The first character of escaped text, and how much of the text it takes. */
  function ReadChar(s: string): (r: Option<(char, nat)>)
    requires s != ""
    ensures r.Some? ==> 0 < r.value.1 <= |s|
  {
    if s[0] == '"' || s[0] < ' ' then None
    else if s[0] != '\\' then Some((s[0], 1))
    else if |s| < 2 then None
    else if s[1] != 'u' then
      if FromShort(s[1]).Some? then Some((FromShort(s[1]).value, 2)) else None
    else if |s| < 6 then None
    else
      var n := FourValues(s[2..6]);
      if n.None? || 0xD800 <= n.value < 0xE000 || n.value >= 0x10000 then None else Some((n.value as char, 6))
  }

  function Unescape(s: string): Option<string>
    decreases |s|
  {
    if s == "" then Some("")
    else
      var c := ReadChar(s);
      if c.None? then None
      else
        var rest := Unescape(s[c.value.1..]);
        if rest.None? then None else Some([c.value.0] + rest.value)
  }

  lemma DigitValue(n: nat)
    requires n < 16
    ensures Value(Digit(n)) == Some(n)
  {
  }

  lemma FourRoundTrip(n: nat)
    requires n < 0x10000
    ensures FourValues(FourDigits(n)) == Some(n)
  {
    hide Value, Digit;
    DigitValue(n / 4096);
    DigitValue(n / 256 % 16);
    DigitValue(n / 16 % 16);
    DigitValue(n % 16);
    assert n / 16 == n / 256 * 16 + n / 16 % 16 && n / 256 == n / 4096 * 16 + n / 256 % 16;
  }

  lemma ShortRoundTrip(c: char)
    requires ShortForm(c).Some?
    ensures ShortForm(c).value != 'u' && FromShort(ShortForm(c).value) == Some(c)
  {
  }

  /** One escaped character is read back, whatever follows. */
  lemma CharRoundTrip(c: char, rest: string)
    ensures EscapeChar(c) + rest != ""
    ensures ReadChar(EscapeChar(c) + rest) == Some((c, |EscapeChar(c)|))
  {
    hide FourDigits, FourValues, FromShort;
    var s := EscapeChar(c) + rest;
    if ShortForm(c).Some? {
      ShortRoundTrip(c);
    } else if NeedsCode(c) {
      FourRoundTrip(c as nat);
      assert s[2..6] == FourDigits(c as nat);
    }
  }

  /** Escaping loses nothing: the text is read back as it was. */
  lemma {:induction false} EscapeRoundTrip(s: string)
    ensures Unescape(Escape(s)) == Some(s)
    decreases |s|
  {
    hide EscapeChar, ReadChar;
    if s != "" {
      var head, rest := EscapeChar(s[0]), Escape(s[1..]);
      EscapeRoundTrip(s[1..]);
      CharRoundTrip(s[0], rest);
      assert (head + rest)[|head|..] == rest;
      assert s == [s[0]] + s[1..];
    }
  }

  /** Escaped text has no character in it that JSON forbids or HTML would read as markup. */
  lemma {:induction false} EscapedIsPlain(s: string, c: char)
    requires c in Escape(s)
    ensures c >= ' ' && c !in {'<', '>', '&', '\U{2028}', '\U{2029}'}
    decreases |s|
  {
    if c in EscapeChar(s[0]) {
      DigitsArePlain(s[0], c);
    } else {
      EscapedIsPlain(s[1..], c);
    }
  }

  lemma DigitsArePlain(x: char, c: char)
    requires c in EscapeChar(x)
    ensures c >= ' ' && c !in {'<', '>', '&', '\U{2028}', '\U{2029}'}
  {
    hide FourDigits;
    if ShortForm(x).None? && NeedsCode(x) && c in FourDigits(x as nat) {
      FourAreDigits(x as nat, c);
    }
  }

  lemma FourAreDigits(n: nat, c: char)
    requires n < 0x10000 && c in FourDigits(n)
    ensures '0' <= c <= '9' || 'a' <= c <= 'f'
  {
    assert forall d :: 0 <= d < 16 ==> '0' <= Digit(d) <= '9' || 'a' <= Digit(d) <= 'f';
  }
}
