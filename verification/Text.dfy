/** The few string operations the pipeline relies on. */
module Text {

  /** White space as Unicode defines it. */
  predicate IsSpace(c: char) {
    c in {'\t', '\n', '\U{0B}', '\U{0C}', '\r', ' ', '\U{85}', '\U{A0}', '\U{1680}', '\U{2028}', '\U{2029}',
          '\U{202F}', '\U{205F}', '\U{3000}'} || '\U{2000}' <= c <= '\U{200A}'
  }

  predicate Blank(s: string) {
    forall i :: 0 <= i < |s| ==> IsSpace(s[i])
  }

  function TrimLeft(s: string): string {
    if s != "" && IsSpace(s[0]) then TrimLeft(s[1..]) else s
  }

  function TrimRight(s: string): string {
    if s != "" && IsSpace(s[|s| - 1]) then TrimRight(s[..|s| - 1]) else s
  }

  function TrimSpace(s: string): string {
    TrimRight(TrimLeft(s))
  }

  /** The number of words in `s` after `inWord` says whether a word is already under way. */
  function CountFields(s: string, inWord: bool): nat {
    if s == "" then 0
    else if IsSpace(s[0]) then CountFields(s[1..], false)
    else (if inWord then 0 else 1) + CountFields(s[1..], true)
  }

  /** The number of words in `s`. */
  function Fields(s: string): nat {
    CountFields(s, false)
  }

  /** Punctuation: the ASCII characters of the Unicode punctuation classes, and the two dandas. */
  predicate IsPunct(c: char) {
    c in {'!', '"', '#', '%', '&', '\'', '(', ')', '*', ',', '-', '.', '/', ':', ';', '?', '@', '[', '\\', ']', '_',
          '{', '}', '\U{0964}', '\U{0965}'}
  }

  predicate EndsWithPunctuation(s: string) {
    s != "" && IsPunct(s[|s| - 1])
  }

  function Decimal(n: nat): string {
    if n < 10 then ["0123456789"[n]] else Decimal(n / 10) + ["0123456789"[n % 10]]
  }

  // ---- What trimming and counting mean ----

  lemma {:induction false} TrimLeftIs(s: string) returns (a: string)
    ensures Blank(a) && s == a + TrimLeft(s)
    ensures TrimLeft(s) != "" ==> !IsSpace(TrimLeft(s)[0])
    decreases |s|
  {
    if s != "" && IsSpace(s[0]) {
      var rest := TrimLeftIs(s[1..]);
      a := [s[0]] + rest;
    } else {
      a := "";
    }
  }

  lemma {:induction false} TrimRightIs(s: string) returns (b: string)
    ensures Blank(b) && s == TrimRight(s) + b
    ensures TrimRight(s) != "" ==> !IsSpace(TrimRight(s)[|TrimRight(s)| - 1])
    decreases |s|
  {
    if s != "" && IsSpace(s[|s| - 1]) {
      var rest := TrimRightIs(s[..|s| - 1]);
      b := rest + [s[|s| - 1]];
    } else {
      b := "";
    }
  }

  /** Trimming takes white space off both ends, as much as there is. */
  lemma TrimSpaceIs(s: string) returns (a: string, b: string)
    ensures Blank(a) && Blank(b) && s == a + TrimSpace(s) + b
    ensures var t := TrimSpace(s); t != "" ==> !IsSpace(t[0]) && !IsSpace(t[|t| - 1])
  {
    a := TrimLeftIs(s);
    b := TrimRightIs(TrimLeft(s));
    assert TrimSpace(s) != "" ==> TrimSpace(s)[0] == TrimLeft(s)[0];
  }

  /** Nothing is left of a text exactly if it is blank. */
  lemma TrimmedAwayIff(s: string)
    ensures TrimSpace(s) == "" <==> Blank(s)
  {
    hide IsSpace, TrimSpace;
    var a, b := TrimSpaceIs(s);
    var t := TrimSpace(s);
    if t != "" {
      assert s[|a|] == t[0];
    } else {
      assert forall i :: 0 <= i < |s| ==> s[i] == if i < |a| then a[i] else b[i - |a|];
    }
  }

  /** A word starts at i: no white space there, and none or the beginning before it. */
  predicate StartsWord(s: string, i: nat)
    requires i < |s|
  {
    !IsSpace(s[i]) && (i == 0 || IsSpace(s[i - 1]))
  }

  function WordStarts(s: string, n: nat): nat
    requires n <= |s|
  {
    if n == 0 then 0 else WordStarts(s, n - 1) + (if StartsWord(s, n - 1) then 1 else 0)
  }

  lemma {:induction false} CountsStarts(s: string, n: nat)
    requires n <= |s|
    ensures CountFields(s[n..], n > 0 && !IsSpace(s[n - 1])) + WordStarts(s, n) == WordStarts(s, |s|)
    decreases |s| - n
  {
    hide IsSpace;
    if n < |s| {
      CountsStarts(s, n + 1);
      assert s[n..][1..] == s[n + 1..];
    }
  }

  /** The number of words is the number of places where one starts. */
  lemma FieldsCountStarts(s: string)
    ensures Fields(s) == WordStarts(s, |s|)
  {
    CountsStarts(s, 0);
    assert s[0..] == s;
  }
}
