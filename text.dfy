/**
 * The few Python string operations the studio relies on: `str.split()` with no
 * argument, `" ".join(words)`, `str.upper()`, `str.lower()` and `str(n)` for integers.
 */
module Text {

  /** The characters Python's `str.split()` treats as separators (`str.isspace`). */
  predicate IsSpace(c: char) {
    || c == ' ' || c == '\t' || c == '\n' || c == '\r'
    || c == '\U{0B}' || c == '\U{0C}'
    || ('\U{1C}' <= c <= '\U{1F}')
    || c == '\U{85}' || c == '\U{A0}' || c == '\U{1680}'
    || ('\U{2000}' <= c <= '\U{200A}')
    || c == '\U{2028}' || c == '\U{2029}' || c == '\U{202F}' || c == '\U{205F}' || c == '\U{3000}'
  }

  /** A word as `split()` produces it: non-empty and free of separators. */
  predicate IsWord(w: string) {
    w != [] && forall i :: 0 <= i < |w| ==> !IsSpace(w[i])
  }

  predicate AllWords(ws: seq<string>) {
    forall i :: 0 <= i < |ws| ==> IsWord(ws[i])
  }

  /** Length of the run of non-separator characters at the front of `s`. */
  function WordLength(s: string): (n: nat)
    ensures n <= |s|
    ensures forall i :: 0 <= i < n ==> !IsSpace(s[i])
    ensures n < |s| ==> IsSpace(s[n])
  {
    if s == [] || IsSpace(s[0]) then 0 else 1 + WordLength(s[1..])
  }

  /** `s.split()`: the maximal runs of non-separators, in order. */
  function SplitWords(s: string): (ws: seq<string>)
    ensures AllWords(ws)
    decreases |s|
  {
    if s == [] then []
    else if IsSpace(s[0]) then SplitWords(s[1..])
    else
      var n := WordLength(s);
      [s[..n]] + SplitWords(s[n..])
  }

  /** `" ".join(ws)`. */
  function Join(ws: seq<string>): string {
    if ws == [] then ""
    else if |ws| == 1 then ws[0]
    else ws[0] + " " + Join(ws[1..])
  }

  /** Total number of characters in a list of strings. */
  function SumLen(ws: seq<string>): nat {
    if ws == [] then 0 else |ws[0]| + SumLen(ws[1..])
  }

  /** `Flatten([a, b, ...]) == a + b + ...`. */
  function Flatten<T>(xss: seq<seq<T>>): seq<T> {
    if xss == [] then [] else xss[0] + Flatten(xss[1..])
  }

  /** Per-character case mapping; Python maps all of Unicode, the model maps ASCII letters. */
  function UpperChar(c: char): char {
    if 'a' <= c <= 'z' then (c as int - 32) as char else c
  }

  function LowerChar(c: char): char {
    if 'A' <= c <= 'Z' then (c as int + 32) as char else c
  }

  /** `s.upper()`. */
  function Upper(s: string): (u: string)
    ensures |u| == |s|
    ensures forall i :: 0 <= i < |s| ==> u[i] == UpperChar(s[i])
  {
    if s == [] then [] else [UpperChar(s[0])] + Upper(s[1..])
  }

  /** `s.lower()`. */
  function Lower(s: string): (l: string)
    ensures |l| == |s|
    ensures forall i :: 0 <= i < |s| ==> l[i] == LowerChar(s[i])
  {
    if s == [] then [] else [LowerChar(s[0])] + Lower(s[1..])
  }

  /** Decimal digits of a natural number, as `str(n)` renders it. */
  function NatToString(n: nat): (s: string)
    ensures s != []
    ensures AllDigits(s)
    decreases n
  {
    var d := ['0' + (n % 10) as char];
    if n < 10 then d else NatToString(n / 10) + d
  }

  /** `str(i)` for an integer. */
  function IntToString(i: int): string {
    if i < 0 then "-" + NatToString(-i) else NatToString(i)
  }

  predicate AllDigits(s: string) {
    forall i :: 0 <= i < |s| ==> '0' <= s[i] <= '9'
  }

  /** The number a string of decimal digits denotes, most significant digit first. */
  function DigitsValue(s: string): nat
    requires AllDigits(s)
  {
    if s == [] then 0 else 10 * DigitsValue(s[..|s| - 1]) + (s[|s| - 1] as int - '0' as int)
  }

  // ---------------------------------------------------------------------------
  // Properties of number rendering
  // ---------------------------------------------------------------------------

  /** `str(n)` denotes `n`: reading its digits back gives the number. */
  lemma {:induction false} NatToStringValue(n: nat)
    ensures AllDigits(NatToString(n)) && DigitsValue(NatToString(n)) == n
    decreases n
  {
    var s := NatToString(n);
    if n >= 10 {
      NatToStringValue(n / 10);
      assert s[..|s| - 1] == NatToString(n / 10);
    }
  }

  /** Different numbers render differently. */
  lemma NatToStringInjective(n: nat, m: nat)
    ensures NatToString(n) == NatToString(m) <==> n == m
  {
    NatToStringValue(n);
    NatToStringValue(m);
  }

  /** A number from 1000 to 9999 renders as exactly four digits. */
  lemma FourDigits(n: nat)
    requires 1000 <= n <= 9999
    ensures |NatToString(n)| == 4
  {
    assert NatToString(n / 1000) == ['0' + (n / 1000) as char];
    assert |NatToString(n / 100)| == 2;
    assert |NatToString(n / 10)| == 3;
  }

  // ---------------------------------------------------------------------------
  // Properties of split and join
  // ---------------------------------------------------------------------------

  /** A word followed by a separator (or by nothing) is read as exactly that word. */
  lemma WordLengthOfWord(w: string, t: string)
    requires IsWord(w)
    requires t == [] || IsSpace(t[0])
    ensures WordLength(w + t) == |w|
  {
    var s := w + t;
    assert forall i :: 0 <= i < |w| ==> s[i] == w[i];
    assert t != [] ==> s[|w|] == t[0];
  }

  /** Splitting a word gives back that one word. */
  lemma SplitWord(w: string)
    requires IsWord(w)
    ensures SplitWords(w) == [w]
  {
    WordLengthOfWord(w, []);
    assert w + [] == w;
    assert w[|w|..] == [];
  }

  /** Splitting `w + " " + t` reads the word `w` and then splits `t`. */
  lemma SplitWordThenRest(w: string, t: string)
    requires IsWord(w)
    ensures SplitWords(w + " " + t) == [w] + SplitWords(t)
  {
    var s := w + " " + t;
    WordLengthOfWord(w, " " + t);
    assert w + (" " + t) == s;
    assert s[..|w|] == w;
    assert s[|w|..] == " " + t;
    assert (" " + t)[1..] == t;
  }

  /** Round trip: splitting the single-space join of words gives the words back. */
  lemma {:induction false} SplitJoin(ws: seq<string>)
    requires AllWords(ws)
    ensures SplitWords(Join(ws)) == ws
  {
    if ws == [] {
    } else if |ws| == 1 {
      SplitWord(ws[0]);
    } else {
      assert IsWord(ws[0]);
      SplitWordThenRest(ws[0], Join(ws[1..]));
      SplitJoin(ws[1..]);
    }
  }

  /** A join of `k >= 1` strings has their lengths plus `k - 1` separators. */
  lemma {:induction false} JoinLength(ws: seq<string>)
    requires ws != []
    ensures |Join(ws)| == SumLen(ws) + |ws| - 1
  {
    if |ws| > 1 {
      JoinLength(ws[1..]);
    }
  }

  /**
   * The text is at least as long as its words plus one separator between each
   * two of them: `SumLen(words) + |words| <= |s| + 1`.
   */
  lemma {:induction false} SplitLength(s: string)
    ensures SumLen(SplitWords(s)) + |SplitWords(s)| <= |s| + 1
    decreases |s|
  {
    if s == [] {
    } else if IsSpace(s[0]) {
      SplitLength(s[1..]);
    } else {
      var n := WordLength(s);
      var rest := SplitWords(s[n..]);
      assert SplitWords(s) == [s[..n]] + rest;
      assert SumLen([s[..n]] + rest) == n + SumLen(rest);
      if n < |s| {
        // the word is followed by a separator, which the split skips
        assert s[n..][1..] == s[n + 1..];
        assert rest == SplitWords(s[n + 1..]);
        SplitLength(s[n + 1..]);
      }
    }
  }

  // ---------------------------------------------------------------------------
  // Case mapping
  // ---------------------------------------------------------------------------

  /** Lower-casing is idempotent. */
  lemma LowerIdempotent(s: string)
    ensures Lower(Lower(s)) == Lower(s)
  {
    var l := Lower(s);
    assert forall i :: 0 <= i < |s| ==> LowerChar(l[i]) == l[i];
  }

  /** Case mapping never creates or removes a separator. */
  lemma LowerKeepsWords(w: string)
    requires IsWord(w)
    ensures IsWord(Lower(w))
  {
    var l := Lower(w);
    forall i | 0 <= i < |l| ensures !IsSpace(l[i]) {
      assert l[i] == LowerChar(w[i]);
      assert !IsSpace(w[i]);
    }
  }

  lemma LowerAppend(a: string, b: string)
    ensures Lower(a + b) == Lower(a) + Lower(b)
  {
    var l := Lower(a + b);
    assert forall i :: 0 <= i < |a| ==> l[i] == LowerChar(a[i]);
    assert forall i :: |a| <= i < |a| + |b| ==> l[i] == LowerChar(b[i - |a|]);
  }
}
