/**
 * The JavaScript string operations the pipeline relies on: the `\s` character class,
 * `String.prototype.trim`, `split(/\s+/)`, `replace(/\s+/g, ' ')`, `split(' ')`,
 * `startsWith`, and decimal rendering of numbers.
 * `Tokens` (the non-empty words of a text) is the reference view every splitting
 * and joining operation is measured against.
 */
module JsText {

  /** JavaScript's `\s`: the WhiteSpace and LineTerminator code points (also what `trim` strips). */
  predicate IsWhite(c: char) {
    || c == ' ' || c == '\t' || c == '\n' || c == '\r' || c == '\U{000B}' || c == '\U{000C}'
    || c == '\U{00A0}' || c == '\U{1680}' || ('\U{2000}' <= c <= '\U{200A}')
    || c == '\U{2028}' || c == '\U{2029}' || c == '\U{202F}' || c == '\U{205F}'
    || c == '\U{3000}' || c == '\U{FEFF}'
  }

  predicate NoWhite(s: string) {
    forall i :: 0 <= i < |s| ==> !IsWhite(s[i])
  }

  /** Neither end of `s` is white space (the shape `trim` produces). */
  predicate Trimmed(s: string) {
    s == [] || (!IsWhite(s[0]) && !IsWhite(s[|s| - 1]))
  }

  /** Length of the longest prefix of `s` without white space. */
  function WordLen(s: string): (n: nat)
    ensures n <= |s|
    ensures forall i :: 0 <= i < n ==> !IsWhite(s[i])
    ensures n < |s| ==> IsWhite(s[n])
  {
    if s == [] || IsWhite(s[0]) then 0 else 1 + WordLen(s[1..])
  }

  /** Length of the longest prefix of `s` made of white space. */
  function WhiteLen(s: string): (n: nat)
    ensures n <= |s|
    ensures forall i :: 0 <= i < n ==> IsWhite(s[i])
    ensures n < |s| ==> !IsWhite(s[n])
  {
    if s == [] || !IsWhite(s[0]) then 0 else 1 + WhiteLen(s[1..])
  }

  lemma {:induction false} WordLenUnique(s: string, n: nat)
    requires n <= |s|
    requires forall i :: 0 <= i < n ==> !IsWhite(s[i])
    requires n < |s| ==> IsWhite(s[n])
    ensures WordLen(s) == n
  {
    if n > 0 {
      WordLenUnique(s[1..], n - 1);
    }
  }

  /** The words of `s`: its maximal runs of non-white characters, in order. */
  function Tokens(s: string): seq<string>
    decreases |s|
  {
    if s == [] then []
    else if IsWhite(s[0]) then Tokens(s[1..])
    else
      var n := WordLen(s);
      [s[..n]] + Tokens(s[n..])
  }

  /** The words of every string of `ss`, in order. */
  function FlatTokens(ss: seq<string>): seq<string>
  {
    if ss == [] then [] else FlatTokens(ss[..|ss| - 1]) + Tokens(ss[|ss| - 1])
  }

  /** `s.split(/\s+/)`: the fields between maximal white runs; "" gives [""], edges give "" fields. */
  function Fields(s: string): (r: seq<string>)
    ensures |r| >= 1
    decreases |s|
  {
    var n := WordLen(s);
    if n == |s| then [s]
    else
      var w := WhiteLen(s[n..]);
      [s[..n]] + Fields(s[n + w..])
  }

  /** `s.trim()`: white space removed from both ends. */
  function Trim(s: string): (r: string)
    ensures Trimmed(r)
    decreases |s|
  {
    if s != [] && IsWhite(s[0]) then Trim(s[1..])
    else if s != [] && IsWhite(s[|s| - 1]) then Trim(s[..|s| - 1])
    else s
  }

  /** `s.replace(/\s+/g, ' ')`: every maximal white run becomes one space. */
  function CollapseWhitespace(s: string): (r: string)
    ensures forall i :: 0 <= i < |r| && IsWhite(r[i]) ==> r[i] == ' '
    ensures r == [] <==> s == []
    ensures s != [] && !IsWhite(s[0]) ==> r[0] == s[0]
    ensures s != [] && !IsWhite(s[|s| - 1]) ==> !IsWhite(r[|r| - 1])
    decreases |s|
  {
    if s == [] then []
    else if IsWhite(s[0]) then
      var w := WhiteLen(s);
      assert w < |s| ==> s[w..][|s[w..]| - 1] == s[|s| - 1];
      [' '] + CollapseWhitespace(s[w..])
    else
      var n := WordLen(s);
      assert n < |s| ==> s[n..][|s[n..]| - 1] == s[|s| - 1];
      s[..n] + CollapseWhitespace(s[n..])
  }

  /** `s.replace(/[<cls>]/g, with)`: every character of the class replaced by `with`. */
  function ReplaceClass(s: string, cls: set<char>, with: char): (r: string)
    ensures |r| == |s|
    ensures forall i :: 0 <= i < |s| ==> r[i] == (if s[i] in cls then with else s[i])
  {
    if s == [] then [] else [if s[0] in cls then with else s[0]] + ReplaceClass(s[1..], cls, with)
  }

  /** `s.split(' ')`: the fields between single spaces (empty fields kept). */
  function SplitOnSpace(s: string): (r: seq<string>)
    ensures |r| >= 1
  {
    SplitOn(s, ' ')
  }

  /** `s.split(sep)` for a one-character separator. */
  function SplitOn(s: string, sep: char): (r: seq<string>)
    ensures |r| >= 1
    ensures forall k :: 0 <= k < |r| ==> sep !in r[k]
    decreases |s|
  {
    if sep !in s then [s]
    else
      var i := FirstIndexOf(s, sep);
      [s[..i]] + SplitOn(s[i + 1..], sep)
  }

  function FirstIndexOf(s: string, c: char): (i: nat)
    requires c in s
    ensures i < |s| && s[i] == c && c !in s[..i]
  {
    if s[0] == c then 0 else 1 + FirstIndexOf(s[1..], c)
  }

  /** `parts.join('')`. */
  function Concat(parts: seq<string>): string
  {
    if parts == [] then [] else parts[0] + Concat(parts[1..])
  }

  /** A word as `Tokens` yields it: non-empty and free of white space. */
  predicate IsWord(w: string) {
    w != [] && NoWhite(w)
  }

  /** `parts.join(sep)`. */
  function Join(parts: seq<string>, sep: string): string
  {
    if parts == [] then []
    else if |parts| == 1 then parts[0]
    else parts[0] + sep + Join(parts[1..], sep)
  }

  predicate StartsWith(s: string, prefix: string) {
    |prefix| <= |s| && s[..|prefix|] == prefix
  }

  predicate EndsWith(s: string, suffix: string) {
    |suffix| <= |s| && s[|s| - |suffix|..] == suffix
  }

  /** Every occurrence of character `a` replaced by `b` (`s.replace(/a/g, b)`). */
  function ReplaceChar(s: string, a: char, b: char): (r: string)
    ensures |r| == |s|
    ensures forall i :: 0 <= i < |s| ==> r[i] == (if s[i] == a then b else s[i])
  {
    ReplaceClass(s, {a}, b)
  }

  /** Every occurrence of character `a` replaced by the string `b`. */
  function ReplaceCharBy(s: string, a: char, b: string): (r: string)
    ensures a !in b ==> a !in r
  {
    if s == [] then [] else (if s[0] == a then b else [s[0]]) + ReplaceCharBy(s[1..], a, b)
  }

  /** `s.replace(pat, with)` with a string pattern: only the first occurrence is replaced. */
  function ReplaceFirst(s: string, pat: string, with: string): string
    requires pat != []
    decreases |s|
  {
    if |s| < |pat| then s
    else if s[..|pat|] == pat then with + s[|pat|..]
    else [s[0]] + ReplaceFirst(s[1..], pat, with)
  }

  // ---------------------------------------------------------------------------
  // Slices, stated once so that proofs about long texts need not re-derive them

  lemma SliceSplit<T>(s: seq<T>, e: nat)
    requires e <= |s|
    ensures s[..e] + s[e..] == s
  {
  }

  lemma SliceWhole<T>(s: seq<T>)
    ensures s[..|s|] == s
  {
  }

  lemma SliceSnoc<T>(s: seq<T>, i: nat)
    requires 0 < i <= |s|
    ensures s[..i] == s[..i - 1] + [s[i - 1]]
  {
  }

  lemma DropDrop<T>(s: seq<T>, i: nat, j: nat)
    requires i + j <= |s|
    ensures s[i..][j..] == s[i + j..]
  {
  }

  lemma AppendAssoc<T>(a: seq<T>, b: seq<T>, c: seq<T>)
    ensures (a + b) + c == a + (b + c)
  {
  }

  lemma AppendSlices<T>(a: seq<T>, b: seq<T>)
    ensures (a + b)[..|a|] == a && (a + b)[|a|..] == b
  {
  }

  lemma SliceOfPrefix<T>(s: seq<T>, t: seq<T>, i: nat, j: nat)
    requires i <= j <= |s|
    ensures (s + t)[i..j] == s[i..j]
  {
  }

  lemma SliceSuffix<T>(s: seq<T>, e: nat, k: nat)
    requires e <= |s| && k <= |s| - e
    ensures s[e..][|s| - e - k..] == s[|s| - k..]
  {
  }

  // ---------------------------------------------------------------------------
  // Decimal numbers

  function DigitChar(d: nat): char
    requires d < 10
  {
    "0123456789"[d]
  }

  predicate IsDigit(c: char) { '0' <= c <= '9' }

  function DigitValue(c: char): nat
    requires IsDigit(c)
  {
    (c as int - '0' as int) as nat
  }

  /** `String(n)` for a natural number. */
  function NatToString(n: nat): (s: string)
    ensures |s| >= 1 && forall i :: 0 <= i < |s| ==> IsDigit(s[i])
  {
    if n < 10 then [DigitChar(n)] else NatToString(n / 10) + [DigitChar(n % 10)]
  }

  /** `String(n)` for an integer. */
  function IntToString(n: int): string
  {
    if n < 0 then "-" + NatToString(-n) else NatToString(n)
  }

  predicate AllDigits(s: string) {
    forall i :: 0 <= i < |s| ==> IsDigit(s[i])
  }

  /** The value of a string of decimal digits (the inverse of `NatToString`, leading zeros allowed). */
  function ParseDigits(s: string): nat
    requires AllDigits(s)
  {
    if s == [] then 0 else ParseDigits(s[..|s| - 1]) * 10 + DigitValue(s[|s| - 1])
  }

  /** `s.padStart(width, '0')`. */
  function PadZeros(s: string, width: nat): (r: string)
    ensures |r| == if |s| >= width then |s| else width
  {
    if |s| >= width then s else seq(width - |s|, _ => '0') + s
  }

  function Pow10(k: nat): (p: nat)
    ensures p >= 1
  {
    if k == 0 then 1 else 10 * Pow10(k - 1)
  }

  // ---------------------------------------------------------------------------
  // Lemmas about words

  lemma {:induction false} TokensOfWord(w: string)
    requires w != [] && NoWhite(w)
    ensures Tokens(w) == [w]
  {
    WordLenUnique(w, |w|);
    assert w[..|w|] == w;
    assert w[|w|..] == [];
  }

  /** Every element of `Tokens(s)` is a word. */
  lemma {:induction false} TokensAreWords(s: string)
    ensures forall k :: 0 <= k < |Tokens(s)| ==> IsWord(Tokens(s)[k])
    decreases |s|
  {
    if s != [] {
      if IsWhite(s[0]) {
        TokensAreWords(s[1..]);
      } else {
        TokensAreWords(s[WordLen(s)..]);
      }
    }
  }

  /** A text with a non-white character has at least one word. */
  lemma {:induction false} TokensNonEmptyAt(s: string, i: nat)
    requires i < |s| && !IsWhite(s[i])
    ensures Tokens(s) != []
    decreases i
  {
    if IsWhite(s[0]) {
      TokensNonEmptyAt(s[1..], i - 1);
    }
  }

  /** Two texts with white space at the same positions have the same number of words. */
  lemma {:induction false} TokensSameShape(s: string, r: string)
    requires |s| == |r|
    requires forall i :: 0 <= i < |s| ==> IsWhite(s[i]) == IsWhite(r[i])
    ensures |Tokens(s)| == |Tokens(r)|
    decreases |s|
  {
    if s != [] {
      if IsWhite(s[0]) {
        TokensSameShape(s[1..], r[1..]);
      } else {
        var n := WordLen(s);
        WordLenUnique(r, n);
        TokensSameShape(s[n..], r[n..]);
      }
    }
  }

  /** Splitting at one white character splits the words. */
  lemma {:induction false} TokensAround(a: string, c: char, b: string)
    requires IsWhite(c)
    ensures Tokens(a + [c] + b) == Tokens(a) + Tokens(b)
    decreases |a|, 1
  {
    if a == [] {
      assert (a + [c] + b)[1..] == b;
    } else if IsWhite(a[0]) {
      TokensAroundWhite(a, c, b);
    } else {
      TokensAroundWord(a, c, b);
    }
  }

  lemma {:induction false} TokensAroundWhite(a: string, c: char, b: string)
    requires IsWhite(c) && a != [] && IsWhite(a[0])
    ensures Tokens(a + [c] + b) == Tokens(a) + Tokens(b)
    decreases |a|, 0
  {
    assert (a + [c] + b)[1..] == a[1..] + [c] + b;
    TokensAround(a[1..], c, b);
  }

  lemma {:induction false} TokensAroundWord(a: string, c: char, b: string)
    requires IsWhite(c) && a != [] && !IsWhite(a[0])
    ensures Tokens(a + [c] + b) == Tokens(a) + Tokens(b)
    decreases |a|, 0
  {
    var s := a + [c] + b;
    var n := WordLen(a);
    assert forall i :: 0 <= i < n ==> s[i] == a[i];
    assert IsWhite(s[n]);
    WordLenUnique(s, n);
    assert s[..n] == a[..n];
    assert s[n..] == a[n..] + [c] + b;
    TokensAround(a[n..], c, b);
  }

  /** Joining two texts with one space joins their words. */
  lemma TokensJoin(a: string, b: string)
    ensures Tokens(a + " " + b) == Tokens(a) + Tokens(b)
  {
    TokensAround(a, ' ', b);
  }

  lemma {:induction false} TokensSkipWhite(s: string, k: nat)
    requires k <= |s|
    requires forall i :: 0 <= i < k ==> IsWhite(s[i])
    ensures Tokens(s) == Tokens(s[k..])
  {
    if k > 0 {
      assert s[1..][k - 1..] == s[k..];
      TokensSkipWhite(s[1..], k - 1);
    }
  }

  /** `trim` keeps the words, and leaves nothing exactly when there is no word. */
  lemma {:induction false} TrimKeepsTokens(s: string)
    ensures Tokens(Trim(s)) == Tokens(s)
    ensures Trim(s) == [] <==> Tokens(s) == []
    decreases |s|
  {
    if s != [] && IsWhite(s[0]) {
      TrimKeepsTokens(s[1..]);
    } else if s != [] && IsWhite(s[|s| - 1]) {
      var p := s[..|s| - 1];
      TokensAround(p, s[|s| - 1], []);
      assert p + [s[|s| - 1]] + [] == s;
      TrimKeepsTokens(p);
    } else {
      TokensEmptyIff(s);
    }
  }

  lemma {:induction false} TokensEmptyIff(s: string)
    requires Trimmed(s)
    ensures s == [] <==> Tokens(s) == []
  {
    if s != [] {
      assert !IsWhite(s[0]);
    }
  }

  lemma {:induction false} TokensAppendNonEmpty(a: string, b: string)
    requires Tokens(b) != []
    ensures Tokens(a + " " + b) != []
  {
    TokensJoin(a, b);
  }

  /** For a trimmed, non-empty text `split(/\s+/)` yields exactly its words. */
  lemma {:induction false} FieldsOfTrimmed(s: string)
    requires Trimmed(s) && s != []
    ensures Fields(s) == Tokens(s)
    decreases |s|, 1
  {
    if WordLen(s) < |s| {
      FieldsOfTrimmedStep(s);
    } else {
      SliceWhole(s);
    }
  }

  /** A trimmed text with white space: its first word, then the fields after the white run. */
  lemma {:induction false} FieldsOfTrimmedStep(s: string)
    requires Trimmed(s) && s != [] && WordLen(s) < |s|
    ensures Fields(s) == Tokens(s)
    decreases |s|, 0
  {
    var n := WordLen(s);
    var t := s[n..];
    var w := WhiteLen(t);
    assert w >= 1 && w < |t| by {
      assert IsWhite(t[0]);
      assert t[|t| - 1] == s[|s| - 1];
    }
    var rest := t[w..];
    DropDrop(s, n, w);
    assert Trimmed(rest) && rest != [] by {
      assert rest[0] == t[w];
      assert rest[|rest| - 1] == s[|s| - 1];
    }
    TokensSkipWhite(t, w);
    FieldsOfTrimmed(rest);
    FieldsStep(s, n, w);
    TokensStep(s, n);
  }

  lemma FieldsStep(s: string, n: nat, w: nat)
    requires n == WordLen(s) && n < |s| && w == WhiteLen(s[n..])
    ensures Fields(s) == [s[..n]] + Fields(s[n + w..])
  {
  }

  lemma TokensStep(s: string, n: nat)
    requires s != [] && !IsWhite(s[0]) && n == WordLen(s)
    ensures Tokens(s) == [s[..n]] + Tokens(s[n..])
  {
  }

  /** The number of fields `split(/\s+/)` gives for a trimmed text. */
  lemma FieldCountOfTrimmed(s: string)
    requires Trimmed(s)
    ensures |Fields(s)| == if s == [] then 1 else |Tokens(s)|
  {
    if s != [] {
      FieldsOfTrimmed(s);
    }
  }

  lemma {:induction false} FlatTokensAppend(ss: seq<string>, s: string)
    ensures FlatTokens(ss + [s]) == FlatTokens(ss) + Tokens(s)
  {
    assert (ss + [s])[..|ss|] == ss;
  }

  lemma {:induction false} FlatTokensConcat(a: seq<string>, b: seq<string>)
    ensures FlatTokens(a + b) == FlatTokens(a) + FlatTokens(b)
    decreases |b|
  {
    if b == [] {
      assert a + b == a;
    } else {
      var b' := b[..|b| - 1];
      assert a + b == (a + b') + [b[|b| - 1]];
      FlatTokensAppend(a + b', b[|b| - 1]);
      FlatTokensConcat(a, b');
      FlatTokensAppend(b', b[|b| - 1]);
      assert b' + [b[|b| - 1]] == b;
    }
  }

  lemma FlatTokensSingle(s: string)
    ensures FlatTokens([s]) == Tokens(s)
  {
    FlatTokensAppend([], s);
    assert [] + [s] == [s];
  }

  // ---------------------------------------------------------------------------
  // Lemmas about whitespace collapsing

  /** `replace(/\s+/g, ' ')` keeps the words of the text. */
  lemma {:induction false} CollapseKeepsTokens(s: string)
    ensures Tokens(CollapseWhitespace(s)) == Tokens(s)
    decreases |s|, 1
  {
    if s == [] {
    } else if IsWhite(s[0]) {
      CollapseKeepsTokensWhite(s);
    } else {
      CollapseKeepsTokensWord(s);
    }
  }

  lemma {:induction false} CollapseKeepsTokensWhite(s: string)
    requires s != [] && IsWhite(s[0])
    ensures Tokens(CollapseWhitespace(s)) == Tokens(s)
    decreases |s|, 0
  {
    var w := WhiteLen(s);
    var tail := CollapseWhitespace(s[w..]);
    CollapseKeepsTokens(s[w..]);
    TokensSkipWhite(s, w);
    TokensAround([], ' ', tail);
    assert [] + [' '] + tail == [' '] + tail;
  }

  lemma {:induction false} CollapseKeepsTokensWord(s: string)
    requires s != [] && !IsWhite(s[0])
    ensures Tokens(CollapseWhitespace(s)) == Tokens(s)
    decreases |s|, 0
  {
    var n := WordLen(s);
    var word := s[..n];
    var t := s[n..];
    if t == [] {
      SliceWhole(s);
      TokensOfWord(word);
      assert CollapseWhitespace(s) == word + CollapseWhitespace(t);
    } else {
      CollapseKeepsTokens(t);
      CollapseAfterWord(s, n, t);
      var w := WhiteLen(t);
      var tail := CollapseWhitespace(t[w..]);
      TokensAround(word, ' ', tail);
      CollapseKeepsTokens(t[w..]);
      TokensSkipWhite(t, w);
      TokensOfWord(word);
      TokensStep(s, n);
    }
  }

  /** Collapsing a text that starts with a word and then white space. */
  lemma CollapseAfterWord(s: string, n: nat, t: string)
    requires s != [] && !IsWhite(s[0]) && n == WordLen(s) && t == s[n..] && t != []
    ensures CollapseWhitespace(s) == s[..n] + [' '] + CollapseWhitespace(t[WhiteLen(t)..])
  {
    var w := WhiteLen(t);
    CollapseWordStep(s, n);
    CollapseWhiteStep(t, w);
    AppendAssoc(s[..n], [' '], CollapseWhitespace(t[w..]));
  }

  lemma CollapseWordStep(s: string, n: nat)
    requires s != [] && !IsWhite(s[0]) && n == WordLen(s)
    ensures CollapseWhitespace(s) == s[..n] + CollapseWhitespace(s[n..])
  {
  }

  lemma CollapseWhiteStep(t: string, w: nat)
    requires t != [] && IsWhite(t[0]) && w == WhiteLen(t)
    ensures CollapseWhitespace(t) == [' '] + CollapseWhitespace(t[w..])
  {
  }

  // ---------------------------------------------------------------------------
  // Lemmas about numbers

  lemma {:induction false} ParseDigitsAppend(s: string, c: char)
    requires AllDigits(s) && IsDigit(c)
    ensures AllDigits(s + [c]) && ParseDigits(s + [c]) == ParseDigits(s) * 10 + DigitValue(c)
  {
    assert (s + [c])[..|s|] == s;
  }

  lemma {:induction false} ParseNatToString(n: nat)
    ensures ParseDigits(NatToString(n)) == n
  {
    if n < 10 {
      DigitRoundTrip(n);
      ParseDigitsAppend([], DigitChar(n));
      assert [] + [DigitChar(n)] == NatToString(n);
    } else {
      var s := NatToString(n / 10);
      var c := DigitChar(n % 10);
      ParseNatToString(n / 10);
      DigitRoundTrip(n % 10);
      ParseDigitsAppend(s, c);
      assert NatToString(n) == s + [c];
    }
  }

  lemma DigitRoundTrip(d: nat)
    requires d < 10
    ensures IsDigit(DigitChar(d)) && DigitValue(DigitChar(d)) == d
  {
  }

  lemma {:induction false} ParseLeadingZeros(k: nat, s: string)
    requires AllDigits(s)
    ensures AllDigits(seq(k, _ => '0') + s)
    ensures ParseDigits(seq(k, _ => '0') + s) == ParseDigits(s)
    decreases |s|
  {
    var z := seq(k, _ => '0');
    if s == [] {
      assert z + s == z;
      ZerosParse(k);
    } else {
      var p := s[..|s| - 1];
      var c := s[|s| - 1];
      ParseLeadingZeros(k, p);
      assert z + s == (z + p) + [c];
      ParseDigitsAppend(z + p, c);
    }
  }

  lemma {:induction false} ZerosParse(k: nat)
    ensures AllDigits(seq(k, _ => '0')) && ParseDigits(seq(k, _ => '0')) == 0
  {
    if k > 0 {
      assert seq(k, _ => '0')[..k - 1] == seq(k - 1, _ => '0');
      ZerosParse(k - 1);
    }
  }

  lemma {:induction false} NatToStringLength(n: nat, w: nat)
    requires n < Pow10(w) && w >= 1
    ensures |NatToString(n)| <= w
  {
    if n >= 10 {
      NatToStringLength(n / 10, w - 1);
    }
  }

  /** Zero-padding `String(n)` to `w` digits gives exactly `w` digits that read back as `n`. */
  lemma PadZerosRoundTrip(n: nat, w: nat)
    requires n < Pow10(w) && w >= 1
    ensures |PadZeros(NatToString(n), w)| == w
    ensures AllDigits(PadZeros(NatToString(n), w))
    ensures ParseDigits(PadZeros(NatToString(n), w)) == n
  {
    var s := NatToString(n);
    NatToStringLength(n, w);
    ParseNatToString(n);
    if |s| < w {
      ParseLeadingZeros(w - |s|, s);
    }
  }

  /** A string of `k` digits reads as less than `10^k`. */
  lemma {:induction false} ParseDigitsBound(s: string)
    requires AllDigits(s)
    ensures ParseDigits(s) < Pow10(|s|)
    decreases |s|
  {
    if s != [] {
      var p := s[..|s| - 1];
      ParseDigitsBound(p);
      assert ParseDigits(s) == ParseDigits(p) * 10 + DigitValue(s[|s| - 1]);
    }
  }

  /** Two digit strings of one length with the same value are the same string. */
  lemma {:induction false} ParseDigitsInjective(a: string, b: string)
    requires AllDigits(a) && AllDigits(b) && |a| == |b|
    requires ParseDigits(a) == ParseDigits(b)
    ensures a == b
    decreases |a|
  {
    if a != [] {
      var pa := a[..|a| - 1];
      var pb := b[..|b| - 1];
      var x := ParseDigits(pa);
      var y := ParseDigits(pb);
      var da := DigitValue(a[|a| - 1]);
      var db := DigitValue(b[|b| - 1]);
      assert x * 10 + da == y * 10 + db;
      DivModTen(x, da);
      DivModTen(y, db);
      ParseDigitsInjective(pa, pb);
      DigitValueInjective(a[|a| - 1], b[|b| - 1]);
      SliceSnoc(a, |a|);
      SliceSnoc(b, |b|);
      SliceWhole(a);
      SliceWhole(b);
    }
  }

  lemma DivModTen(x: nat, d: nat)
    requires d < 10
    ensures (x * 10 + d) / 10 == x && (x * 10 + d) % 10 == d
  {
  }

  lemma DigitValueInjective(c: char, e: char)
    requires IsDigit(c) && IsDigit(e) && DigitValue(c) == DigitValue(e)
    ensures c == e
  {
  }

  /** A field of `w` digits is what zero-padding its value to `w` digits prints. */
  lemma PadParse(d: string)
    requires AllDigits(d) && |d| >= 1
    ensures PadZeros(NatToString(ParseDigits(d)), |d|) == d
  {
    var n := ParseDigits(d);
    ParseDigitsBound(d);
    PadZerosRoundTrip(n, |d|);
    ParseDigitsInjective(PadZeros(NatToString(n), |d|), d);
  }

  // ---------------------------------------------------------------------------
  // Lemmas about splitting

  lemma {:induction false} FirstIndexOfUnique(s: string, c: char, i: nat)
    requires i < |s| && s[i] == c && c !in s[..i]
    ensures c in s && FirstIndexOf(s, c) == i
    decreases i
  {
    assert s[i] in s;
    if i > 0 {
      assert s[0] in s[..i];
      assert s[1..][i - 1] == s[i];
      assert s[1..][..i - 1] == s[..i][1..];
      FirstIndexOfUnique(s[1..], c, i - 1);
    }
  }

  /** Splitting `a sep b` on `sep`, for `a` free of `sep`, gives `a` then the fields of `b`. */
  lemma SplitOnCons(a: string, sep: char, b: string)
    requires sep !in a
    ensures SplitOn(a + [sep] + b, sep) == [a] + SplitOn(b, sep)
  {
    var s := a + [sep] + b;
    assert s[..|a|] == a;
    assert s[|a| + 1..] == b;
    FirstIndexOfUnique(s, sep, |a|);
  }

  /** Joining sep-free parts with `sep` and splitting on `sep` gives the parts back. */
  lemma {:induction false} SplitOnJoin(parts: seq<string>, sep: char)
    requires |parts| >= 1 && forall k :: 0 <= k < |parts| ==> sep !in parts[k]
    ensures SplitOn(Join(parts, [sep]), sep) == parts
  {
    if |parts| > 1 {
      SplitOnJoin(parts[1..], sep);
      SplitOnCons(parts[0], sep, Join(parts[1..], [sep]));
      assert parts == [parts[0]] + parts[1..];
    }
  }

  /** The first occurrence of the one-character pattern `[c]` is the first `c`. */
  lemma {:induction false} ReplaceFirstAt(a: string, c: char, b: string, with: string)
    requires c !in a
    ensures ReplaceFirst(a + [c] + b, [c], with) == a + with + b
    decreases |a|
  {
    var r := [c] + b;
    AppendAssoc(a, [c], b);
    if a == [] {
      assert a + r == r;
      AppendSlices([c], b);
    } else {
      ConsSplit(a, r);
      assert (a + r)[..1] != [c];
      ReplaceFirstSkip(a + r, [c], with);
      AppendAssoc(a[1..], [c], b);
      ReplaceFirstAt(a[1..], c, b, with);
      ConsJoin(a, with + b);
      AppendAssoc(a, with, b);
      AppendAssoc(a[1..], with, b);
    }
  }

  /** The head and the tail of a non-empty `a` followed by `rest`. */
  lemma ConsSplit(a: string, rest: string)
    requires a != []
    ensures (a + rest)[..1] == [a[0]] && (a + rest)[1..] == a[1..] + rest
  {
  }

  /** `a` is its head followed by its tail. */
  lemma ConsJoin(a: string, rest: string)
    requires a != []
    ensures [a[0]] + (a[1..] + rest) == a + rest
  {
    assert a == [a[0]] + a[1..];
  }

  /** Where the pattern does not start `s`, the search moves one character on. */
  lemma ReplaceFirstSkip(s: string, pat: string, with: string)
    requires pat != [] && |s| >= |pat| && s[..|pat|] != pat
    ensures ReplaceFirst(s, pat, with) == [s[0]] + ReplaceFirst(s[1..], pat, with)
  {
  }

  /** A pattern whose last character does not occur in `s` is not found: nothing changes. */
  lemma {:induction false} ReplaceFirstAbsent(s: string, pat: string, with: string)
    requires pat != [] && pat[|pat| - 1] !in s
    ensures ReplaceFirst(s, pat, with) == s
    decreases |s|
  {
    if |s| >= |pat| {
      assert s[|pat| - 1] in s;
      assert s[..|pat|][|pat| - 1] != pat[|pat| - 1];
      assert forall x :: x in s[1..] ==> x in s;
      ReplaceFirstAbsent(s[1..], pat, with);
      assert s == [s[0]] + s[1..];
    }
  }

  // ---------------------------------------------------------------------------
  // Shell quoting

  /** `s.replace(/"/g, '\\"')`: a backslash in front of every double quote. */
  function EscapeQuotes(s: string): string {
    ReplaceCharBy(s, '"', "\\\"")
  }

  /** Drops the backslash in front of every quote: the inverse of `EscapeQuotes`. */
  function UnescapeQuotes(s: string): string {
    if |s| >= 2 && s[0] == '\\' && s[1] == '"' then "\"" + UnescapeQuotes(s[2..])
    else if s == [] then []
    else [s[0]] + UnescapeQuotes(s[1..])
  }

  /** Escaping loses nothing: unescaping gives the text back. */
  lemma {:induction false} EscapeRoundTrip(s: string)
    ensures UnescapeQuotes(EscapeQuotes(s)) == s
  {
    if s != [] {
      EscapeRoundTrip(s[1..]);
      var rest := EscapeQuotes(s[1..]);
      if s[0] == '"' {
        assert EscapeQuotes(s) == "\\\"" + rest;
        assert ("\\\"" + rest)[2..] == rest;
      } else {
        assert EscapeQuotes(s) == [s[0]] + rest;
        assert ([s[0]] + rest)[1..] == rest;
        if s[0] == '\\' {
          EscapedStartsUnquoted(s[1..]);
        }
      }
    }
  }

  /** An escaped text never starts with a bare quote. */
  lemma EscapedStartsUnquoted(s: string)
    ensures EscapeQuotes(s) == [] || EscapeQuotes(s)[0] != '"'
  {
  }

  /** Every quote of the escaped text has a backslash in front of it. */
  lemma {:induction false} EveryQuoteEscaped(s: string)
    ensures var e := EscapeQuotes(s);
            forall k :: 0 <= k < |e| && e[k] == '"' ==> k > 0 && e[k - 1] == '\\'
  {
    if s != [] {
      EveryQuoteEscaped(s[1..]);
      EscapedStartsUnquoted(s[1..]);
      var rest := EscapeQuotes(s[1..]);
      var head := if s[0] == '"' then "\\\"" else [s[0]];
      assert EscapeQuotes(s) == head + rest;
      assert forall k :: |head| <= k < |head| + |rest| ==> (head + rest)[k] == rest[k - |head|];
    }
  }

  /** `replace` with a string pattern hits the first occurrence: none can start before one whose first character is absent. */
  lemma {:induction false} ReplaceFirstAfter(a: string, pat: string, b: string, with: string)
    requires pat != [] && pat[0] !in a
    ensures ReplaceFirst(a + pat + b, pat, with) == a + with + b
  {
    var s := a + pat + b;
    if a == [] {
      assert s == pat + b;
      AppendSlices(pat, b);
    } else {
      assert s[..|pat|][0] == a[0];
      assert s[1..] == a[1..] + pat + b;
      assert forall x :: x in a[1..] ==> x in a;
      ReplaceFirstAfter(a[1..], pat, b, with);
      assert [a[0]] + (a[1..] + with + b) == a + with + b;
    }
  }
}
