/** Text primitives the dump format relies on: whitespace splitting
    (Python's `str.split()`), `strip`, substring tests (`sub in s`),
    splitting on a separator (`str.split(sep)`), `' '.join`, and the
    decimal integer and float literals that `int()`, `float()` and
    `eval` accept. */
module Text {

  /** The whitespace characters `str.split()` and `str.strip()` break on:
      the ASCII ones, the information separators U+001C..U+001F, U+0085,
      U+00A0, and the Unicode spaces and line and paragraph separators
      (U+1680, U+2000..U+200A, U+2028, U+2029, U+202F, U+205F, U+3000). */
  predicate IsSpace(c: char) {
    c == ' ' || c == '\t' || c == '\n' || c == '\r' || c == '\U{000B}' || c == '\U{000C}'
    || ('\U{001C}' <= c <= '\U{001F}') || c == '\U{0085}' || c == '\U{00A0}'
    || c == '\U{1680}' || ('\U{2000}' <= c <= '\U{200A}') || c == '\U{2028}' || c == '\U{2029}'
    || c == '\U{202F}' || c == '\U{205F}' || c == '\U{3000}'
  }

  /** A token as `str.split()` yields it: non-empty, no whitespace. */
  predicate IsWord(w: string) {
    |w| > 0 && forall i :: 0 <= i < |w| ==> !IsSpace(w[i])
  }

  predicate AllSpace(s: string) {
    forall i :: 0 <= i < |s| ==> IsSpace(s[i])
  }

  /** Length of the maximal run of non-space characters at the front of `s`. */
  function TokenLen(s: string): (n: nat)
    ensures n <= |s|
    ensures forall i :: 0 <= i < n ==> !IsSpace(s[i])
    ensures n < |s| ==> IsSpace(s[n])
  {
    if s == [] || IsSpace(s[0]) then 0 else 1 + TokenLen(s[1..])
  }

  /** `s.split()`: the maximal runs of non-space characters, in order. */
  function Split(s: string): seq<string>
    decreases |s|
  {
    if s == [] then []
    else if IsSpace(s[0]) then Split(s[1..])
    else
      var n := TokenLen(s);
      [s[..n]] + Split(s[n..])
  }

  /** Every token of a split is a word. */
  lemma {:induction false} SplitWords(s: string)
    ensures forall k :: 0 <= k < |Split(s)| ==> IsWord(Split(s)[k])
    decreases |s|
  {
    if s != [] {
      if IsSpace(s[0]) {
        SplitWords(s[1..]);
      } else {
        SplitWords(s[TokenLen(s)..]);
      }
    }
  }

  /** `' '.join(ws)`. */
  function Join(ws: seq<string>): string {
    if ws == [] then ""
    else if |ws| == 1 then ws[0]
    else ws[0] + " " + Join(ws[1..])
  }

  /** `s.strip()`: `s` without leading and trailing whitespace. */
  function Strip(s: string): (r: string)
    ensures |r| <= |s|
    ensures r == [] || (!IsSpace(r[0]) && !IsSpace(r[|r| - 1]))
    decreases |s|
  {
    if s == [] then s
    else if IsSpace(s[0]) then Strip(s[1..])
    else if IsSpace(s[|s| - 1]) then Strip(s[..|s| - 1])
    else s
  }

  /** `sub` occurs in `s` at position `i`. */
  predicate OccursAt(s: string, sub: string, i: int) {
    0 <= i && i + |sub| <= |s| && s[i..i + |sub|] == sub
  }

  /** Python's `sub in s`. */
  predicate Contains(s: string, sub: string) {
    exists i :: 0 <= i <= |s| - |sub| && OccursAt(s, sub, i)
  }

  /** Position of the first occurrence of `sep` in `s` (`s.find(sep)`). */
  function Find(s: string, sep: string): (r: Option<nat>)
    requires |sep| > 0
    ensures r.Some? ==> OccursAt(s, sep, r.value)
    ensures r.Some? ==> forall j :: 0 <= j < r.value ==> !OccursAt(s, sep, j)
    ensures r.None? ==> !Contains(s, sep)
    decreases |s|
  {
    if |s| < |sep| then None
    else if s[..|sep|] == sep then Some(0)
    else
      match Find(s[1..], sep)
      case None =>
        forall j | 1 <= j <= |s| - |sep| ensures !OccursAt(s, sep, j) {
          OccursShift(s, sep, j);
        }
        None
      case Some(i) =>
        forall j | 1 <= j <= i ensures !OccursAt(s, sep, j) {
          OccursShift(s, sep, j);
        }
        OccursShift(s, sep, i + 1);
        Some(i + 1)
  }

  lemma OccursShift(s: string, sub: string, j: int)
    requires 1 <= j && |s| > 0
    ensures OccursAt(s, sub, j) <==> OccursAt(s[1..], sub, j - 1)
  {
    if j + |sub| <= |s| {
      assert s[j..j + |sub|] == s[1..][j - 1..j - 1 + |sub|];
    }
  }

  /** `s.split(sep)`: the pieces between successive occurrences of `sep`. */
  function SplitOn(s: string, sep: string): (pieces: seq<string>)
    requires |sep| > 0
    ensures |pieces| >= 1
    ensures !Contains(s, sep) ==> pieces == [s]
    decreases |s|
  {
    match Find(s, sep)
    case None => [s]
    case Some(i) => [s[..i]] + SplitOn(s[i + |sep|..], sep)
  }

  /** The part of `s` before its first `c` (all of `s` when there is none):
      element 1 of `("atom:" + s).split(":")`. */
  function Before(s: string, c: char): (r: string)
    ensures r <= s
    ensures forall i :: 0 <= i < |r| ==> r[i] != c
    ensures |r| < |s| ==> s[|r|] == c
  {
    if s == [] || s[0] == c then [] else [s[0]] + Before(s[1..], c)
  }

  datatype Option<T> = None | Some(value: T)

  // ---------------------------------------------------------------------
  // Integers

  predicate IsDigit(c: char) { '0' <= c <= '9' }

  predicate AllDigits(s: string) {
    |s| > 0 && forall i :: 0 <= i < |s| ==> IsDigit(s[i])
  }

  function DigitValue(c: char): nat requires IsDigit(c) { (c as int - '0' as int) as nat }

  function DigitChar(d: nat): (c: char)
    requires d < 10
    ensures IsDigit(c) && DigitValue(c) == d
  {
    ('0' as int + d) as char
  }

  /** Value of a string of decimal digits, most significant first. */
  function DigitsValue(s: string): nat
    requires forall i :: 0 <= i < |s| ==> IsDigit(s[i])
  {
    if s == [] then 0 else 10 * DigitsValue(s[..|s| - 1]) + DigitValue(s[|s| - 1])
  }

  /** `int(tok)` for a token: an optional sign followed by ASCII decimal
      digits. Python also takes single underscores between digits and the
      decimal digits of other scripts; this model rejects both. */
  function ParseInt(tok: string): (r: Option<int>)
    ensures r.Some? ==> |tok| > 0
  {
    if |tok| > 0 && (tok[0] == '-' || tok[0] == '+') && AllDigits(tok[1..]) then
      var m: int := DigitsValue(tok[1..]);
      var v: int := if tok[0] == '-' then 0 - m else m;
      Some(v)
    else if AllDigits(tok) then Some(DigitsValue(tok))
    else None
  }

  function NatText(n: nat): (s: string)
    ensures AllDigits(s)
    ensures s[0] == '0' ==> n == 0 && s == "0"
  {
    if n < 10 then [DigitChar(n)] else NatText(n / 10) + [DigitChar(n % 10)]
  }

  /** `"{}".format(i)` / `"{:d}".format(i)` for an integer. */
  function IntText(i: int): string {
    if i < 0 then "-" + NatText(-i) else NatText(i)
  }

  lemma {:induction false} DigitsValueOfNatText(n: nat)
    ensures DigitsValue(NatText(n)) == n
  {
    if n >= 10 {
      var s := NatText(n);
      assert s[..|s| - 1] == NatText(n / 10);
      DigitsValueOfNatText(n / 10);
    }
  }

  /** `int(str(i)) == i`. */
  lemma ParseIntText(i: int)
    ensures ParseInt(IntText(i)) == Some(i)
  {
    var t := IntText(i);
    if i < 0 {
      DigitsValueOfNatText(-i);
      assert t[0] == '-' && t[1..] == NatText(-i);
      assert AllDigits(t[1..]);
    } else {
      DigitsValueOfNatText(i);
      assert t == NatText(i) && IsDigit(t[0]);
    }
  }

  // ---------------------------------------------------------------------
  // Floats

  /** Optional exponent part `[eE][+-]?digits`. */
  predicate IsExponent(s: string) {
    |s| >= 2 && (s[0] == 'e' || s[0] == 'E') &&
    (AllDigits(s[1..]) || ((s[1] == '+' || s[1] == '-') && AllDigits(s[2..])))
  }

  /** Unsigned decimal mantissa: `digits`, `digits.`, `digits.digits` or `.digits`. */
  predicate IsMantissa(s: string) {
    AllDigits(s) ||
    exists k :: 0 <= k < |s| && s[k] == '.' && IsPointSplit(s, k)
  }

  predicate IsPointSplit(s: string, k: int)
    requires 0 <= k < |s|
  {
    (k == 0 || AllDigits(s[..k])) && (k + 1 == |s| || AllDigits(s[k + 1..])) && |s| >= 2
  }

  /** Unsigned decimal float literal: a mantissa with an optional exponent. */
  predicate IsUnsignedDecimal(s: string) {
    IsMantissa(s) ||
    exists k :: 0 < k < |s| && IsMantissa(s[..k]) && IsExponent(s[k..])
  }

  /** A finite decimal literal that `float()` accepts. */
  predicate IsDecimal(s: string) {
    IsUnsignedDecimal(s) ||
    (|s| > 0 && (s[0] == '+' || s[0] == '-') && IsUnsignedDecimal(s[1..]))
  }

  function Lower(s: string): string {
    seq(|s|, i requires 0 <= i < |s| => if 'A' <= s[i] <= 'Z' then (s[i] as int + 32) as char else s[i])
  }

  /** `inf`, `infinity`, `nan` in any case, optionally signed. */
  predicate IsSpecial(s: string) {
    var t := if |s| > 0 && (s[0] == '+' || s[0] == '-') then s[1..] else s;
    Lower(t) == "inf" || Lower(t) == "infinity" || Lower(t) == "nan"
  }

  /** A token that `float()` accepts, written with ASCII digits and
      without underscores (which Python also takes; this model does not). */
  predicate IsFloatLit(s: string) {
    IsDecimal(s) || IsSpecial(s)
  }

  /** A token Python's `eval` reads as an `int`: a signed decimal without
      leading zeros (or all zeros). */
  predicate IsEvalInt(s: string) {
    var t := if |s| > 0 && (s[0] == '+' || s[0] == '-') then s[1..] else s;
    AllDigits(t) && (t[0] != '0' || forall i :: 0 <= i < |t| ==> t[i] == '0')
  }

  /** A token Python's `eval` reads as a `float`: a decimal with a point or
      an exponent. */
  predicate IsEvalFloat(s: string) {
    IsDecimal(s) && !AllDigits(if |s| > 0 && (s[0] == '+' || s[0] == '-') then s[1..] else s)
  }

  // ---------------------------------------------------------------------
  // Splitting what was joined

  /** A word ends its first token. */
  lemma {:induction false} TokenLenWord(w: string, rest: string)
    requires IsWord(w)
    ensures TokenLen(w + " " + rest) == |w|
    decreases |w|
  {
    var s := w + " " + rest;
    if |w| > 1 {
      assert s[1..] == w[1..] + " " + rest;
      TokenLenWord(w[1..], rest);
    } else {
      assert s[1..] == " " + rest;
    }
  }

  /** `(w + " " + rest).split()` is `w` followed by the split of `rest`. */
  lemma SplitWordThen(w: string, rest: string)
    requires IsWord(w)
    ensures Split(w + " " + rest) == [w] + Split(rest)
  {
    var s := w + " " + rest;
    TokenLenWord(w, rest);
    assert s[..|w|] == w;
    assert s[|w|..] == " " + rest;
    assert (" " + rest)[1..] == rest;
  }

  /** A word is one token long. */
  lemma {:induction false} TokenLenAll(w: string)
    requires IsWord(w)
    ensures TokenLen(w) == |w|
    decreases |w|
  {
    if |w| > 1 {
      TokenLenAll(w[1..]);
    }
  }

  /** A word splits to itself. */
  lemma SplitWord(w: string)
    requires IsWord(w)
    ensures Split(w) == [w]
  {
    TokenLenAll(w);
    assert w[..|w|] == w && w[|w|..] == [];
  }

  /** `' '.join(ws).split() == ws` for words. */
  lemma {:induction false} SplitJoin(ws: seq<string>)
    requires forall i :: 0 <= i < |ws| ==> IsWord(ws[i])
    ensures Split(Join(ws)) == ws
  {
    if |ws| == 1 {
      SplitWord(ws[0]);
    } else if |ws| > 1 {
      SplitWordThen(ws[0], Join(ws[1..]));
      SplitJoin(ws[1..]);
    }
  }

  /** A string without the first character of `sub` does not contain it. */
  lemma NoFirstChar(s: string, sub: string)
    requires |sub| > 0 && forall i :: 0 <= i < |s| ==> s[i] != sub[0]
    ensures !Contains(s, sub)
  {
    forall i | 0 <= i <= |s| - |sub| ensures !OccursAt(s, sub, i) {
      assert s[i..i + |sub|][0] == s[i];
    }
  }
}
