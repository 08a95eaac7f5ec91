/**
 * `splitTextIntoScenes` of textSplitter.js: normalise the narration, match sentences,
 * pack sentences into scenes of at most 18 words, cut long scenes into 15-word
 * pieces and merge scenes of fewer than 5 words into the previous one.
 *
 * The specification is a chain of folds (`PackPrefix`, `ChunkPrefix`, `ValidatePrefix`)
 * that follow the source's loops step by step; `SplitTextIntoScenes` is the loop program
 * proved equal to them, and the lemmas state what the result means.
 */
module SceneSplitter {
  import opened JsText

  /** A scene is closed once it would pass this many words. */
  const MaxSceneWords: nat := 18
  /** A scene of at least this many words is closed when the last sentence arrives. */
  const MinSceneWords: nat := 10
  /** Scenes longer than `MaxSceneWords` are cut into pieces of this many words. */
  const ChunkSize: nat := 15
  /** Scenes with fewer words than this are merged into the previous output scene. */
  const MergeBelow: nat := 5

  // ---------------------------------------------------------------------------
  // Normalisation

  /** The character classes of the two quote replacements as they appear in the source. */
  const DoubleQuotesAsWritten: set<char> := {'"'}
  const SingleQuotesAsWritten: set<char> := {'\''}

  /** The typographic quotes the two replacements are meant to fold to ASCII. */
  const DoubleQuotes: set<char> := {'"', '\U{201C}', '\U{201D}'}
  const SingleQuotes: set<char> := {'\'', '\U{2018}', '\U{2019}'}

  /** The two quote replacements exactly as written: each class holds only its own target. */
  function NormalizeQuotesAsWritten(s: string): string
  {
    ReplaceClass(ReplaceClass(s, DoubleQuotesAsWritten, '"'), SingleQuotesAsWritten, '\'')
  }

  /** As written, the quote replacements change nothing, so typographic quotes survive. */
  lemma QuotesAsWrittenKeepCurlyQuotes(s: string)
    ensures NormalizeQuotesAsWritten(s) == s
    ensures NormalizeQuotesAsWritten("\U{201C}Hi\U{201D}") == "\U{201C}Hi\U{201D}"
  {
    var r := NormalizeQuotesAsWritten(s);
    assert forall i :: 0 <= i < |s| ==> r[i] == s[i];
    var t := "\U{201C}Hi\U{201D}";
    var u := NormalizeQuotesAsWritten(t);
    assert forall i :: 0 <= i < |t| ==> u[i] == t[i];
  }

  /** The quote replacements as intended: typographic quotes become ASCII quotes. */
  function NormalizeQuotes(s: string): (r: string)
    ensures |r| == |s|
    ensures forall i :: 0 <= i < |r| ==> r[i] !in {'\U{201C}', '\U{201D}', '\U{2018}', '\U{2019}'}
    ensures forall i :: 0 <= i < |s| ==> s[i] !in DoubleQuotes + SingleQuotes ==> r[i] == s[i]
    ensures forall i :: 0 <= i < |s| ==> IsWhite(r[i]) == IsWhite(s[i])
  {
    ReplaceClass(ReplaceClass(s, DoubleQuotes, '"'), SingleQuotes, '\'')
  }

  /**
   * `text.trim().replace(/\s+/g, ' ')` followed by the quote replacements: the result is
   * trimmed, its only white space is single spaces, and it has the words of `text`.
   */
  function Clean(text: string): (c: string)
    ensures Trimmed(c)
    ensures forall i :: 0 <= i < |c| && IsWhite(c[i]) ==> c[i] == ' '
    ensures |Tokens(c)| == |Tokens(text)|
    ensures c == [] <==> Tokens(text) == []
  {
    var t := Trim(text);
    var w := CollapseWhitespace(t);
    var c := NormalizeQuotes(w);
    CleanSteps(text, t, w, c);
    c
  }

  /** The three stages of `Clean`, named one by one. */
  lemma CleanSteps(text: string, t: string, w: string, c: string)
    requires t == Trim(text) && w == CollapseWhitespace(t) && c == NormalizeQuotes(w)
    ensures Trimmed(c)
    ensures forall i :: 0 <= i < |c| && IsWhite(c[i]) ==> c[i] == ' '
    ensures |Tokens(c)| == |Tokens(text)|
    ensures c == [] <==> Tokens(text) == []
  {
    TrimKeepsTokens(text);
    CollapseShape(t, w, c);
    QuotesKeepSpaces(w, c);
    CleanTokens(text, t, w, c);
  }

  /** Collapsing keeps a trimmed text trimmed, and the quote replacements keep it so. */
  lemma CollapseShape(t: string, w: string, c: string)
    requires Trimmed(t) && w == CollapseWhitespace(t) && c == NormalizeQuotes(w)
    ensures Trimmed(c)
    ensures c == [] <==> t == []
  {
    if c != [] {
      assert IsWhite(c[0]) == IsWhite(w[0]);
      assert IsWhite(c[|c| - 1]) == IsWhite(w[|w| - 1]);
    }
  }

  /** The quote replacements leave the single spaces of a collapsed text alone. */
  lemma QuotesKeepSpaces(w: string, c: string)
    requires forall i :: 0 <= i < |w| && IsWhite(w[i]) ==> w[i] == ' '
    requires c == NormalizeQuotes(w)
    ensures forall i :: 0 <= i < |c| && IsWhite(c[i]) ==> c[i] == ' '
  {
    forall i | 0 <= i < |c| && IsWhite(c[i])
      ensures c[i] == ' '
    {
      assert IsWhite(w[i]);
      assert w[i] !in DoubleQuotes + SingleQuotes;
    }
  }

  lemma CleanTokens(text: string, t: string, w: string, c: string)
    requires t == Trim(text) && w == CollapseWhitespace(t) && c == NormalizeQuotes(w)
    ensures |Tokens(c)| == |Tokens(text)|
  {
    TrimKeepsTokens(text);
    CollapseKeepsTokens(t);
    TokensSameShape(w, c);
  }

  // ---------------------------------------------------------------------------
  // Sentence matching

  predicate IsTerminator(c: char) {
    c == '.' || c == '!' || c == '?'
  }

  /** Length of the longest prefix of `s` free of sentence terminators. */
  function NonTermLen(s: string): (n: nat)
    ensures n <= |s|
    ensures forall i :: 0 <= i < n ==> !IsTerminator(s[i])
    ensures n < |s| ==> IsTerminator(s[n])
  {
    if s == [] || IsTerminator(s[0]) then 0 else 1 + NonTermLen(s[1..])
  }

  /** Length of the longest prefix of `s` made of sentence terminators. */
  function TermLen(s: string): (n: nat)
    ensures n <= |s|
    ensures n > 0 ==> IsTerminator(s[n - 1])
    ensures n < |s| ==> !IsTerminator(s[n])
  {
    if s == [] || !IsTerminator(s[0]) then 0 else 1 + TermLen(s[1..])
  }

  /** Length of the longest suffix of `s` free of sentence terminators. */
  function FreeSuffixLen(s: string): (k: nat)
    ensures k <= |s|
    ensures k < |s| ==> IsTerminator(s[|s| - k - 1])
  {
    if s == [] || IsTerminator(s[|s| - 1]) then 0 else 1 + FreeSuffixLen(s[..|s| - 1])
  }

  /** Where the first match ends, for a text that holds a terminator after its first character. */
  function SentenceEnd(s: string): (e: nat)
    requires NonTermLen(s) < |s|
    ensures NonTermLen(s) < e <= |s|
    ensures IsTerminator(s[e - 1])
    ensures e < |s| ==> !IsTerminator(s[e])
  {
    var n := NonTermLen(s);
    var t := TermLen(s[n..]);
    assert s[n..][0] == s[n];
    assert t < |s[n..]| ==> s[n..][t] == s[n + t];
    assert s[n..][t - 1] == s[n + t - 1];
    n + t
  }

  /**
   * `s.match(/[^.!?]+[.!?]+/g)`, with `[]` for the `null` of no match: each match is a
   * run of non-terminators followed by the whole run of terminators after it.
   */
  function Matches(s: string): (ms: seq<string>)
    decreases |s|
  {
    if s == [] then []
    else if IsTerminator(s[0]) then Matches(s[1..])
    else if NonTermLen(s) == |s| then []
    else [s[..SentenceEnd(s)]] + Matches(s[SentenceEnd(s)..])
  }

  /** The shape of one match of `/[^.!?]+[.!?]+/`. */
  predicate IsSentence(m: string) {
    m != [] && !IsTerminator(m[0]) && IsTerminator(m[|m| - 1])
  }

  /** `cleanText.match(…) || [cleanText]`. */
  function Sentences(clean: string): (ss: seq<string>)
    ensures |ss| >= 1
  {
    var ms := Matches(clean);
    if ms == [] then [clean] else ms
  }

  /** Every string of `ss` has at least one word. */
  predicate AllTokened(ss: seq<string>) {
    forall k :: 0 <= k < |ss| ==> Tokens(ss[k]) != []
  }

  /** The unterminated tail holds no terminator. */
  lemma {:induction false} FreeSuffixIsFree(s: string)
    ensures forall i :: |s| - FreeSuffixLen(s) <= i < |s| ==> !IsTerminator(s[i])
    decreases |s|
  {
    if s != [] && !IsTerminator(s[|s| - 1]) {
      var p := s[..|s| - 1];
      FreeSuffixIsFree(p);
      assert forall i :: |s| - FreeSuffixLen(s) <= i < |s| - 1 ==> s[i] == p[i];
    }
  }

  lemma {:induction false} FreeSuffixLenUnique(s: string, k: nat)
    requires k <= |s|
    requires forall i :: |s| - k <= i < |s| ==> !IsTerminator(s[i])
    requires k < |s| ==> IsTerminator(s[|s| - k - 1])
    ensures FreeSuffixLen(s) == k
  {
    if k > 0 {
      var p := s[..|s| - 1];
      assert forall i :: |p| - (k - 1) <= i < |p| ==> p[i] == s[i];
      FreeSuffixLenUnique(p, k - 1);
    }
  }

  /**
   * The matches cover the text from its first non-terminator to its last terminator, with
   * nothing left out in between: only leading terminators and the unterminated tail are dropped.
   */
  lemma {:induction false} MatchesCover(s: string)
    ensures Concat(Matches(s)) + s[|s| - FreeSuffixLen(s)..] == s[TermLen(s)..]
    decreases |s|, 1
  {
    var a := TermLen(s);
    var k := FreeSuffixLen(s);
    if s == [] {
    } else if IsTerminator(s[0]) {
      MatchesCoverTerminator(s, a, k);
    } else if NonTermLen(s) == |s| {
      FreeSuffixLenUnique(s, |s|);
    } else {
      MatchesCoverSentence(s, a, k);
    }
  }

  /** A leading terminator is skipped. */
  lemma {:induction false} MatchesCoverTerminator(s: string, a: nat, k: nat)
    requires s != [] && IsTerminator(s[0]) && a == TermLen(s) && k == FreeSuffixLen(s)
    ensures Concat(Matches(s)) + s[|s| - k..] == s[a..]
    decreases |s|, 0
  {
    var r := s[1..];
    MatchesCover(r);
    assert Concat(Matches(r)) + r[|r| - FreeSuffixLen(r)..] == r[TermLen(r)..];
    FreeSuffixAfterSentence(s, 1, FreeSuffixLen(r));
    CoverTerminator(s, r, TermLen(r), FreeSuffixLen(r));
  }

  lemma CoverTerminator(s: string, r: string, a: nat, k: nat)
    requires s != [] && IsTerminator(s[0]) && r == s[1..]
    requires a == TermLen(r) && k <= |r|
    requires Concat(Matches(r)) + r[|r| - k..] == r[a..]
    ensures TermLen(s) == a + 1
    ensures Concat(Matches(s)) + s[|s| - k..] == s[a + 1..]
  {
    TerminatorSkipped(s, r);
    DropFirst(s, r, a, k);
  }

  lemma DropFirst(s: string, r: string, a: nat, k: nat)
    requires s != [] && r == s[1..] && a <= |r| && k <= |r|
    ensures r[a..] == s[a + 1..] && r[|r| - k..] == s[|s| - k..]
  {
  }

  lemma TerminatorSkipped(s: string, r: string)
    requires s != [] && IsTerminator(s[0]) && r == s[1..]
    ensures Matches(s) == Matches(r) && TermLen(s) == 1 + TermLen(r)
  {
  }

  /** A text that starts a sentence and holds a terminator yields that sentence first. */
  lemma {:induction false} MatchesCoverSentence(s: string, a: nat, k: nat)
    requires s != [] && !IsTerminator(s[0]) && NonTermLen(s) < |s|
    requires a == TermLen(s) && k == FreeSuffixLen(s)
    ensures Concat(Matches(s)) + s[|s| - k..] == s[a..]
    decreases |s|, 0
  {
    var e := SentenceEnd(s);
    var rest := s[e..];
    MatchesCover(rest);
    FreeSuffixAfterSentence(s, e, FreeSuffixLen(rest));
    CoverSentence(s, e, rest, FreeSuffixLen(rest));
  }

  lemma CoverSentence(s: string, e: nat, rest: string, k: nat)
    requires s != [] && !IsTerminator(s[0]) && NonTermLen(s) < |s|
    requires e == SentenceEnd(s) && rest == s[e..] && k <= |rest|
    requires Concat(Matches(rest)) + rest[|rest| - k..] == rest[TermLen(rest)..]
    ensures TermLen(s) == 0
    ensures Concat(Matches(s)) + s[|s| - k..] == s[0..]
  {
    var m := s[..e];
    assert TermLen(rest) == 0;
    SentenceTaken(s, e, m, rest);
    SliceSuffix(s, e, k);
    SliceSplit(s, e);
    AppendAssoc(m, Concat(Matches(rest)), rest[|rest| - k..]);
  }

  lemma SentenceTaken(s: string, e: nat, m: string, rest: string)
    requires s != [] && !IsTerminator(s[0]) && NonTermLen(s) < |s|
    requires e == SentenceEnd(s) && m == s[..e] && rest == s[e..]
    ensures Concat(Matches(s)) == m + Concat(Matches(rest))
  {
    assert Matches(s) == [m] + Matches(rest);
    assert ([m] + Matches(rest))[1..] == Matches(rest);
  }

  /** The unterminated tail of a text after a terminator is the unterminated tail of the part after it. */
  lemma FreeSuffixAfterSentence(s: string, j: nat, k: nat)
    requires 0 < j <= |s| && IsTerminator(s[j - 1]) && k == FreeSuffixLen(s[j..])
    ensures FreeSuffixLen(s) == k
  {
    var rest := s[j..];
    FreeSuffixIsFree(rest);
    assert forall i :: |s| - k <= i < |s| ==> s[i] == rest[i - j];
    assert k < |s| ==> IsTerminator(s[|s| - k - 1]) by {
      if k < |rest| {
        assert s[|s| - k - 1] == rest[|rest| - k - 1];
      }
    }
    FreeSuffixLenUnique(s, k);
  }

  /** Each match is nonempty, starts with a non-terminator and ends with a terminator. */
  lemma {:induction false} MatchesShape(s: string)
    ensures forall k :: 0 <= k < |Matches(s)| ==> IsSentence(Matches(s)[k])
    decreases |s|
  {
    if s == [] {
    } else if IsTerminator(s[0]) {
      MatchesShape(s[1..]);
    } else if NonTermLen(s) < |s| {
      var e := SentenceEnd(s);
      MatchesShape(s[e..]);
      assert Matches(s) == [s[..e]] + Matches(s[e..]);
    }
  }

  /** Every matched sentence holds a word (its terminator). */
  lemma MatchesTokened(s: string)
    ensures AllTokened(Matches(s))
  {
    var ms := Matches(s);
    MatchesShape(s);
    forall k | 0 <= k < |ms|
      ensures Tokens(ms[k]) != []
    {
      TokensNonEmptyAt(ms[k], |ms[k]| - 1);
    }
  }

  // ---------------------------------------------------------------------------
  // Packing sentences into scenes

  /** `sentence.trim().split(/\s+/).length`: the words of a sentence, at least one. */
  function WordCount(sentence: string): nat
  {
    |Fields(Trim(sentence))|
  }

  /** A sentence counts at least one word, and exactly its words when it has one. */
  lemma WordCountFacts(sentence: string)
    ensures WordCount(sentence) >= 1 && WordCount(sentence) >= |Tokens(sentence)|
    ensures Tokens(sentence) != [] ==> WordCount(sentence) == |Tokens(sentence)|
  {
    FieldCountOfTrimmed(Trim(sentence));
    TrimKeepsTokens(sentence);
  }


  /** The packing loop's state: closed scenes, the scene being built and its word count. */
  datatype Pack = Pack(scenes: seq<string>, current: string, count: nat)

  /** The scene being built would pass 18 words: close it and start anew with the sentence. */
  function Exceed(p: Pack, sentence: string): Pack
  {
    Pack(p.scenes + [Trim(p.current)], sentence, WordCount(sentence))
  }

  /** Append the sentence to the scene being built, after a space unless the scene is empty. */
  function Extend(p: Pack, sentence: string): Pack
  {
    Pack(p.scenes, p.current + (if p.current != [] then " " else "") + sentence, p.count + WordCount(sentence))
  }

  /** The first half of an iteration: the sentence joins the scene or starts the next one. */
  function Absorb(p: Pack, sentence: string): Pack
  {
    if p.count > 0 && p.count + WordCount(sentence) > MaxSceneWords then Exceed(p, sentence) else Extend(p, sentence)
  }

  /** Close the scene being built. */
  function Close(p: Pack): Pack
  {
    Pack(p.scenes + [Trim(p.current)], [], 0)
  }

  /** One iteration of the packing loop; `remaining` is its `indexOf` test. */
  function PackStep(p: Pack, sentence: string, remaining: bool): Pack
  {
    var q := Absorb(p, sentence);
    if MinSceneWords <= q.count <= MaxSceneWords && !remaining then Close(q) else q
  }

  /** `ss.indexOf(x)`: the first position of `x`, or -1. */
  function IndexOf(ss: seq<string>, x: string): (i: int)
    ensures -1 <= i < |ss|
    ensures i == -1 <==> x !in ss
    ensures 0 <= i ==> ss[i] == x && x !in ss[..i]
  {
    if ss == [] then -1
    else if ss[0] == x then 0
    else
      var j := IndexOf(ss[1..], x);
      assert j >= 0 ==> ss[..j + 1] == [ss[0]] + ss[1..][..j];
      if j == -1 then -1 else j + 1
  }

  /** `sentences.indexOf(sentence) < sentences.length - 1` at iteration `i`. */
  function Remaining(ss: seq<string>, i: nat): bool
    requires i < |ss|
  {
    IndexOf(ss, ss[i]) < |ss| - 1
  }

  /** The packing loop after its first `i` iterations. */
  function PackPrefix(ss: seq<string>, i: nat): Pack
    requires i <= |ss|
  {
    if i == 0 then Pack([], [], 0)
    else PackStep(PackPrefix(ss, i - 1), ss[i - 1], Remaining(ss, i - 1))
  }

  lemma PackScenesUnfold(clean: string, p: Pack)
    requires p == PackPrefix(Sentences(clean), |Sentences(clean)|)
    ensures PackScenes(clean) == if FlushRemainder(p) == [] then [clean] else FlushRemainder(p)
  {
  }

  lemma PackStepCases(p: Pack, sentence: string, remaining: bool, q: Pack)
    requires q == Absorb(p, sentence)
    ensures PackStep(p, sentence, remaining)
         == if MinSceneWords <= q.count <= MaxSceneWords && !remaining then Close(q) else q
  {
  }

  lemma PackPrefixUnfold(ss: seq<string>, i: nat)
    requires 0 < i <= |ss|
    ensures PackPrefix(ss, i) == PackStep(PackPrefix(ss, i - 1), ss[i - 1], Remaining(ss, i - 1))
  {
  }

  /** The flush after the loop: the unfinished scene is kept when it is not blank. */
  function FlushRemainder(p: Pack): seq<string>
  {
    if Trim(p.current) != [] then p.scenes + [Trim(p.current)] else p.scenes
  }

  /** The scenes of the packing phase, with the whole clean text when none was formed. */
  function PackScenes(clean: string): (scenes: seq<string>)
    ensures |scenes| >= 1
  {
    var ss := Sentences(clean);
    var flushed := FlushRemainder(PackPrefix(ss, |ss|));
    if flushed == [] then [clean] else flushed
  }

  /** `s.trim()` of every sentence. */
  function TrimAll(ss: seq<string>): (r: seq<string>)
    ensures |r| == |ss|
  {
    if ss == [] then [] else TrimAll(ss[..|ss| - 1]) + [Trim(ss[|ss| - 1])]
  }

  /** What the packing loop keeps true after processing the sentences `done`. */
  ghost predicate PackInv(p: Pack, done: seq<string>) {
    PackWords(p, done) && PackLong(p, done) && PackTokened(p, done)
  }

  /** Closed scenes are trimmed, and no word is lost, added or moved. */
  ghost predicate PackWords(p: Pack, done: seq<string>) {
    && (forall k :: 0 <= k < |p.scenes| ==> Trimmed(p.scenes[k]))
    && FlatTokens(p.scenes) + Tokens(p.current) == FlatTokens(done)
    && |Tokens(p.current)| <= p.count
    && (p.count == 0 ==> p.current == [])
  }

  /** Only a single sentence can make a scene of more than 18 words. */
  ghost predicate PackLong(p: Pack, done: seq<string>) {
    && (p.count > MaxSceneWords ==> p.current in done)
    && (forall k :: 0 <= k < |p.scenes| && |Tokens(p.scenes[k])| > MaxSceneWords ==> p.scenes[k] in TrimAll(done))
  }

  /** Sentences with words make scenes with words. */
  ghost predicate PackTokened(p: Pack, done: seq<string>) {
    AllTokened(done) ==> AllTokened(p.scenes) && (p.count > 0 ==> Tokens(p.current) != [])
  }

  lemma DoneAppend(done: seq<string>, s: string)
    ensures FlatTokens(done + [s]) == FlatTokens(done) + Tokens(s)
    ensures TrimAll(done + [s]) == TrimAll(done) + [Trim(s)]
    ensures AllTokened(done + [s]) ==> AllTokened(done) && Tokens(s) != []
  {
    var done' := done + [s];
    FlatTokensAppend(done, s);
    assert done'[..|done'| - 1] == done;
    if AllTokened(done') {
      assert done'[|done|] == s;
      forall k | 0 <= k < |done| ensures Tokens(done[k]) != [] {
        assert done[k] == done'[k];
      }
    }
  }

  lemma AllTokenedAppend(ss: seq<string>, s: string)
    requires AllTokened(ss) && Tokens(s) != []
    ensures AllTokened(ss + [s])
  {
    assert forall k :: 0 <= k < |ss| ==> (ss + [s])[k] == ss[k];
  }

  lemma AllTokenedConcat(a: seq<string>, b: seq<string>)
    requires AllTokened(a) && AllTokened(b)
    ensures AllTokened(a + b)
  {
    assert forall k :: 0 <= k < |a + b| ==> (a + b)[k] == if k < |a| then a[k] else b[k - |a|];
  }

  lemma ExceedWords(p: Pack, done: seq<string>, s: string)
    requires PackWords(p, done) && p.count > 0
    ensures PackWords(Exceed(p, s), done + [s])
  {
    DoneAppend(done, s);
    WordCountFacts(s);
    TrimKeepsTokens(p.current);
    FlatTokensAppend(p.scenes, Trim(p.current));
  }

  lemma ExceedLong(p: Pack, done: seq<string>, s: string)
    requires PackWords(p, done) && PackLong(p, done)
    ensures PackLong(Exceed(p, s), done + [s])
  {
    DoneAppend(done, s);
    TrimKeepsTokens(p.current);
    if |Tokens(Trim(p.current))| > MaxSceneWords {
      var j :| 0 <= j < |done| && done[j] == p.current;
      TrimAllAt(done, j);
    }
  }

  lemma ExceedTokened(p: Pack, done: seq<string>, s: string)
    requires PackTokened(p, done) && p.count > 0
    ensures PackTokened(Exceed(p, s), done + [s])
  {
    DoneAppend(done, s);
    TrimKeepsTokens(p.current);
    WordCountFacts(s);
    if AllTokened(done + [s]) {
      AllTokenedAppend(p.scenes, Trim(p.current));
    }
  }

  /** The words of `Extend`: the old words followed by the sentence's. */
  lemma ExtendText(p: Pack, s: string)
    ensures Tokens(Extend(p, s).current) == Tokens(p.current) + Tokens(s)
  {
    if p.current != [] {
      TokensJoin(p.current, s);
    } else {
      assert p.current + "" + s == s;
    }
  }

  lemma ExtendWords(p: Pack, done: seq<string>, s: string)
    requires PackWords(p, done)
    ensures PackWords(Extend(p, s), done + [s])
  {
    DoneAppend(done, s);
    WordCountFacts(s);
    ExtendText(p, s);
  }

  lemma ExtendLong(p: Pack, done: seq<string>, s: string)
    requires PackWords(p, done) && PackLong(p, done) && (p.count == 0 || p.count + WordCount(s) <= MaxSceneWords)
    ensures PackLong(Extend(p, s), done + [s])
  {
    DoneAppend(done, s);
    if p.count == 0 {
      assert Extend(p, s).current == s;
    }
  }

  lemma ExtendTokened(p: Pack, done: seq<string>, s: string)
    requires PackTokened(p, done)
    ensures PackTokened(Extend(p, s), done + [s])
  {
    DoneAppend(done, s);
    ExtendText(p, s);
  }

  lemma CloseInv(p: Pack, done: seq<string>)
    requires PackInv(p, done) && 0 < p.count <= MaxSceneWords
    ensures PackInv(Close(p), done)
  {
    TrimKeepsTokens(p.current);
    FlatTokensAppend(p.scenes, Trim(p.current));
    if AllTokened(done) {
      AllTokenedAppend(p.scenes, Trim(p.current));
    }
  }

  lemma AbsorbInv(p: Pack, done: seq<string>, s: string)
    requires PackInv(p, done)
    ensures PackInv(Absorb(p, s), done + [s])
  {
    if p.count > 0 && p.count + WordCount(s) > MaxSceneWords {
      ExceedWords(p, done, s);
      ExceedLong(p, done, s);
      ExceedTokened(p, done, s);
    } else {
      ExtendWords(p, done, s);
      ExtendLong(p, done, s);
      ExtendTokened(p, done, s);
    }
  }

  lemma PackStepInv(p: Pack, done: seq<string>, s: string, remaining: bool)
    requires PackInv(p, done)
    ensures PackInv(PackStep(p, s, remaining), done + [s])
  {
    AbsorbInv(p, done, s);
    var q := Absorb(p, s);
    if MinSceneWords <= q.count <= MaxSceneWords && !remaining {
      CloseInv(q, done + [s]);
    }
  }

  lemma {:induction false} TrimAllAt(ss: seq<string>, j: nat)
    requires j < |ss|
    ensures Trim(ss[j]) in TrimAll(ss)
    decreases |ss|
  {
    if j < |ss| - 1 {
      TrimAllAt(ss[..|ss| - 1], j);
    }
  }

  lemma {:induction false} PackPrefixInv(ss: seq<string>, i: nat)
    requires i <= |ss|
    ensures PackInv(PackPrefix(ss, i), ss[..i])
  {
    if i == 0 {
      assert FlatTokens([]) == [];
    } else {
      PackPrefixInv(ss, i - 1);
      SliceSnoc(ss, i);
      PackStepInv(PackPrefix(ss, i - 1), ss[..i - 1], ss[i - 1], Remaining(ss, i - 1));
    }
  }

  lemma AllSentencesPacked(ss: seq<string>)
    ensures PackInv(PackPrefix(ss, |ss|), ss)
  {
    PackPrefixInv(ss, |ss|);
    SliceWhole(ss);
  }

  lemma FlushWords(p: Pack, ss: seq<string>)
    requires PackWords(p, ss)
    ensures forall k :: 0 <= k < |FlushRemainder(p)| ==> Trimmed(FlushRemainder(p)[k])
    ensures FlatTokens(FlushRemainder(p)) == FlatTokens(ss)
  {
    TrimKeepsTokens(p.current);
    if Trim(p.current) != [] {
      FlatTokensAppend(p.scenes, Trim(p.current));
    }
  }

  lemma FlushLong(p: Pack, ss: seq<string>)
    requires PackWords(p, ss) && PackLong(p, ss)
    ensures forall k :: 0 <= k < |FlushRemainder(p)| && |Tokens(FlushRemainder(p)[k])| > MaxSceneWords ==>
      FlushRemainder(p)[k] in TrimAll(ss)
  {
    TrimKeepsTokens(p.current);
    if |Tokens(Trim(p.current))| > MaxSceneWords {
      var j :| 0 <= j < |ss| && ss[j] == p.current;
      TrimAllAt(ss, j);
    }
  }

  lemma FlushTokened(p: Pack, ss: seq<string>)
    requires PackWords(p, ss) && PackTokened(p, ss) && AllTokened(ss) && ss != []
    ensures AllTokened(FlushRemainder(p)) && FlushRemainder(p) != []
  {
    TrimKeepsTokens(p.current);
    if Trim(p.current) != [] {
      AllTokenedAppend(p.scenes, Trim(p.current));
    } else {
      FlatTokensNonEmpty(ss, 0);
    }
  }

  lemma {:induction false} FlatTokensNonEmpty(ss: seq<string>, j: nat)
    requires j < |ss| && Tokens(ss[j]) != []
    ensures FlatTokens(ss) != []
    decreases |ss|
  {
    if j < |ss| - 1 {
      FlatTokensNonEmpty(ss[..|ss| - 1], j);
    }
  }

  lemma TrimmedIsFixed(s: string)
    requires Trimmed(s)
    ensures Trim(s) == s
  {
  }

  /** Without a terminator the only sentence is the clean text itself. */
  lemma SingleSentence(clean: string)
    requires Trimmed(clean) && Matches(clean) == []
    ensures FlatTokens([clean]) == FlatTokens(Sentences(clean))
    ensures clean in TrimAll(Sentences(clean))
  {
    assert Sentences(clean) == [clean];
    assert TrimAll([clean]) == TrimAll([]) + [Trim(clean)];
    TrimmedIsFixed(clean);
  }

  /** The packed scenes are trimmed and hold, in order, exactly the words of the sentences. */
  lemma PackScenesWords(clean: string)
    requires Trimmed(clean)
    ensures forall k :: 0 <= k < |PackScenes(clean)| ==> Trimmed(PackScenes(clean)[k])
    ensures FlatTokens(PackScenes(clean)) == FlatTokens(Sentences(clean))
  {
    var ss := Sentences(clean);
    var p := PackPrefix(ss, |ss|);
    AllSentencesPacked(ss);
    FlushWords(p, ss);
    if FlushRemainder(p) == [] {
      if Matches(clean) == [] {
        SingleSentence(clean);
      } else {
        MatchesTokened(clean);
        FlushTokened(p, ss);
      }
    }
  }

  /** A packed scene of more than 18 words is one single (trimmed) sentence. */
  lemma PackScenesLongAreSentences(clean: string)
    requires Trimmed(clean)
    ensures forall k :: 0 <= k < |PackScenes(clean)| && |Fields(PackScenes(clean)[k])| > MaxSceneWords ==>
      PackScenes(clean)[k] in TrimAll(Sentences(clean))
  {
    var ss := Sentences(clean);
    var p := PackPrefix(ss, |ss|);
    AllSentencesPacked(ss);
    FlushLong(p, ss);
    PackScenesWords(clean);
    var r := PackScenes(clean);
    if FlushRemainder(p) == [] && Matches(clean) == [] {
      SingleSentence(clean);
    } else if FlushRemainder(p) == [] {
      MatchesTokened(clean);
      FlushTokened(p, ss);
    }
    forall k | 0 <= k < |r| && |Fields(r[k])| > MaxSceneWords
      ensures r[k] in TrimAll(ss)
    {
      FieldCountOfTrimmed(r[k]);
    }
  }

  /** An empty clean text packs into one empty scene; any other packs into scenes with words. */
  lemma PackScenesTokened(clean: string)
    requires Trimmed(clean)
    ensures clean == [] ==> PackScenes(clean) == [[]]
    ensures clean != [] ==> AllTokened(PackScenes(clean))
  {
    var ss := Sentences(clean);
    var p := PackPrefix(ss, |ss|);
    AllSentencesPacked(ss);
    if clean == [] {
      assert Matches(clean) == [];
      assert ss == [[]];
      assert FlatTokens(ss) == FlatTokens([]) + Tokens([]);
      FlushWords(p, ss);
      assert Tokens([]) == [];
      TokensEmptyIff(Trim(p.current));
    } else {
      if Matches(clean) != [] {
        MatchesTokened(clean);
      } else {
        TokensEmptyIff(clean);
        assert ss == [clean];
      }
      FlushTokened(p, ss);
    }
  }

  // ---------------------------------------------------------------------------
  // The `indexOf` test

  /** The packing loop with the intended test "this is not the last position". */
  function PackByPosition(ss: seq<string>, i: nat): Pack
    requires i <= |ss|
  {
    if i == 0 then Pack([], [], 0)
    else PackStep(PackByPosition(ss, i - 1), ss[i - 1], i < |ss|)
  }

  lemma PackByPositionUnfold(ss: seq<string>, i: nat)
    requires 0 < i <= |ss|
    ensures PackByPosition(ss, i) == PackStep(PackByPosition(ss, i - 1), ss[i - 1], i < |ss|)
  {
  }

  lemma {:induction false} PackPrefixesAgree(ss: seq<string>, i: nat)
    requires i < |ss|
    ensures PackPrefix(ss, i) == PackByPosition(ss, i)
  {
    if i > 0 {
      PackPrefixesAgree(ss, i - 1);
      var p := PackPrefix(ss, i - 1);
      assert Remaining(ss, i - 1);
      assert PackPrefix(ss, i) == PackStep(p, ss[i - 1], true);
      assert PackByPosition(ss, i) == PackStep(p, ss[i - 1], true);
    }
  }

  /** Whether the last iteration closes the scene or leaves it to the final flush, the result is the same. */
  lemma LastStepFlushAgrees(p: Pack, s: string, a: bool, b: bool)
    requires Tokens(s) != []
    ensures FlushRemainder(PackStep(p, s, a)) == FlushRemainder(PackStep(p, s, b))
  {
    var q := Absorb(p, s);
    if p.count > 0 && p.count + WordCount(s) > MaxSceneWords {
      TrimKeepsTokens(s);
    } else {
      ExtendText(p, s);
      TrimKeepsTokens(q.current);
    }
    assert Trim([]) == [];
  }

  /**
   * Looking the sentence up with `indexOf` instead of using its position changes nothing:
   * with a repeated last sentence the in-loop flush is skipped, and the flush after the loop
   * keeps the same scene, because the unfinished scene then still holds the last sentence.
   */
  lemma IndexOfFlushAgrees(ss: seq<string>)
    requires |ss| > 1 && Tokens(ss[|ss| - 1]) != []
    ensures FlushRemainder(PackPrefix(ss, |ss|)) == FlushRemainder(PackByPosition(ss, |ss|))
  {
    var n := |ss|;
    PackPrefixesAgree(ss, n - 1);
    PackPrefixUnfold(ss, n);
    PackByPositionUnfold(ss, n);
    LastStepFlushAgrees(PackPrefix(ss, n - 1), ss[n - 1], Remaining(ss, n - 1), false);
  }

  /** With a single sentence `indexOf` finds it at its own position. */
  lemma SingleSentenceAgrees(ss: seq<string>)
    requires |ss| == 1
    ensures PackPrefix(ss, |ss|) == PackByPosition(ss, |ss|)
  {
    assert IndexOf(ss, ss[0]) == 0;
  }

  /** For the sentences of any clean text, the `indexOf` test and the position test agree. */
  lemma SentencesIndexOfFlushAgrees(clean: string)
    ensures FlushRemainder(PackPrefix(Sentences(clean), |Sentences(clean)|))
         == FlushRemainder(PackByPosition(Sentences(clean), |Sentences(clean)|))
  {
    var ss := Sentences(clean);
    if |ss| == 1 {
      SingleSentenceAgrees(ss);
    } else {
      MatchesTokened(clean);
      IndexOfFlushAgrees(ss);
    }
  }

  // ---------------------------------------------------------------------------
  // Cutting long scenes into pieces

  /** The chunking loop's state: the pieces pushed so far, the open piece and its word count. */
  datatype Chunking = Chunking(pieces: seq<string>, chunk: string, count: nat)

  /** The open piece is full: push it and open the next one with the word. */
  function Cut(c: Chunking, word: string): Chunking
  {
    Chunking(c.pieces + [Trim(c.chunk)], word, 1)
  }

  /** Append the word to the open piece, after a space unless the piece is empty. */
  function Grow(c: Chunking, word: string): Chunking
  {
    Chunking(c.pieces, c.chunk + (if c.chunk != [] then " " else "") + word, c.count + 1)
  }

  /** One iteration of the chunking loop. */
  function ChunkStep(c: Chunking, word: string): Chunking
  {
    if c.count >= ChunkSize then Cut(c, word) else Grow(c, word)
  }

  /** The chunking loop after its first `j` words. */
  function ChunkPrefix(words: seq<string>, j: nat): Chunking
    requires j <= |words|
  {
    if j == 0 then Chunking([], [], 0) else ChunkStep(ChunkPrefix(words, j - 1), words[j - 1])
  }

  /** The pieces a long scene is cut into, the open piece included when it is not empty. */
  function ChunkPieces(words: seq<string>): seq<string>
  {
    var c := ChunkPrefix(words, |words|);
    if c.chunk != [] then c.pieces + [Trim(c.chunk)] else c.pieces
  }

  predicate AllWords(words: seq<string>) {
    forall k :: 0 <= k < |words| ==> IsWord(words[k])
  }

  /** Every piece is trimmed and has exactly `ChunkSize` words. */
  ghost predicate FullPieces(pieces: seq<string>) {
    forall k :: 0 <= k < |pieces| ==> Trimmed(pieces[k]) && |Tokens(pieces[k])| == ChunkSize
  }

  ghost predicate ChunkInv(c: Chunking, done: seq<string>) {
    && FullPieces(c.pieces)
    && FlatTokens(c.pieces) + Tokens(c.chunk) == done
    && |Tokens(c.chunk)| == c.count <= ChunkSize
    && Trimmed(c.chunk)
    && (done != [] ==> c.count >= 1)
  }

  lemma FullPiecesAppend(pieces: seq<string>, x: string)
    requires FullPieces(pieces) && Trimmed(x) && |Tokens(x)| == ChunkSize
    ensures FullPieces(pieces + [x])
  {
    assert forall k :: 0 <= k < |pieces| ==> (pieces + [x])[k] == pieces[k];
  }

  lemma CutInv(c: Chunking, done: seq<string>, w: string)
    requires ChunkInv(c, done) && IsWord(w) && c.count >= ChunkSize
    ensures ChunkInv(Cut(c, w), done + [w])
  {
    TokensOfWord(w);
    TrimmedIsFixed(c.chunk);
    FullPiecesAppend(c.pieces, c.chunk);
    FlatTokensAppend(c.pieces, c.chunk);
  }

  lemma GrowInv(c: Chunking, done: seq<string>, w: string)
    requires ChunkInv(c, done) && IsWord(w) && c.count < ChunkSize
    ensures ChunkInv(Grow(c, w), done + [w])
  {
    TokensOfWord(w);
    if c.chunk != [] {
      TokensJoin(c.chunk, w);
      var x := c.chunk + " " + w;
      assert x[0] == c.chunk[0] && x[|x| - 1] == w[|w| - 1];
    } else {
      assert c.chunk + "" + w == w;
    }
  }

  lemma {:induction false} ChunkPrefixInv(words: seq<string>, j: nat)
    requires j <= |words| && AllWords(words)
    ensures ChunkInv(ChunkPrefix(words, j), words[..j])
  {
    if j == 0 {
      assert FlatTokens([]) == [];
    } else {
      ChunkPrefixInv(words, j - 1);
      var c := ChunkPrefix(words, j - 1);
      SliceSnoc(words, j);
      if c.count >= ChunkSize {
        CutInv(c, words[..j - 1], words[j - 1]);
      } else {
        GrowInv(c, words[..j - 1], words[j - 1]);
      }
    }
  }

  /**
   * The pieces of a non-empty word list give back exactly those words, in order; every piece
   * is trimmed and has between 1 and 15 words, and every piece but the last has exactly 15.
   */
  lemma ChunkPiecesFacts(words: seq<string>)
    requires |words| >= 1 && AllWords(words)
    ensures |ChunkPieces(words)| >= 1
    ensures FlatTokens(ChunkPieces(words)) == words
    ensures forall k :: 0 <= k < |ChunkPieces(words)| ==>
      Trimmed(ChunkPieces(words)[k]) && 1 <= |Tokens(ChunkPieces(words)[k])| <= ChunkSize
    ensures forall k :: 0 <= k < |ChunkPieces(words)| - 1 ==> |Tokens(ChunkPieces(words)[k])| == ChunkSize
  {
    var c := ChunkPrefix(words, |words|);
    ChunkPrefixInv(words, |words|);
    SliceWhole(words);
    assert c.chunk != [];
    TrimmedIsFixed(c.chunk);
    FlatTokensAppend(c.pieces, c.chunk);
    var r := c.pieces + [c.chunk];
    assert forall k :: 0 <= k < |c.pieces| ==> r[k] == c.pieces[k];
  }

  // ---------------------------------------------------------------------------
  // Validation: chunking and merging

  /** Append a short scene, after one space, to the last output scene (the `+=` in place). */
  function Merge(v: seq<string>, scene: string): seq<string>
    requires v != []
  {
    v[|v| - 1 := v[|v| - 1] + " " + scene]
  }

  /** One iteration of the validation loop over the packed scenes. */
  function ValidateStep(v: seq<string>, scene: string): seq<string>
  {
    var words := Fields(scene);
    if |words| > MaxSceneWords then v + ChunkPieces(words)
    else if |words| < MergeBelow && |v| > 0 then Merge(v, scene)
    else v + [scene]
  }

  /** The validation loop after its first `j` scenes. */
  function ValidatePrefix(scenes: seq<string>, j: nat): seq<string>
    requires j <= |scenes|
  {
    if j == 0 then [] else ValidateStep(ValidatePrefix(scenes, j - 1), scenes[j - 1])
  }

  lemma ValidatePrefixUnfold(scenes: seq<string>, j: nat)
    requires 0 < j <= |scenes|
    ensures ValidatePrefix(scenes, j) == ValidateStep(ValidatePrefix(scenes, j - 1), scenes[j - 1])
  {
  }

  /** The scenes `splitTextIntoScenes(text)` returns. */
  function SplitScenes(text: string): seq<string>
  {
    var scenes := PackScenes(Clean(text));
    ValidatePrefix(scenes, |scenes|)
  }

  /**
   * A short scene is appended, after one space, to the last output scene: the others are
   * untouched, and the words of the last one become its old words followed by the short
   * scene's, so that the merged scene can pass 18 words.
   */
  lemma MergeIntoPrevious(v: seq<string>, scene: string)
    requires v != []
    ensures |Merge(v, scene)| == |v|
    ensures Merge(v, scene)[..|v| - 1] == v[..|v| - 1]
    ensures StartsWith(Merge(v, scene)[|v| - 1], v[|v| - 1])
    ensures Tokens(Merge(v, scene)[|v| - 1]) == Tokens(v[|v| - 1]) + Tokens(scene)
  {
    var x := v[|v| - 1] + " " + scene;
    TokensJoin(v[|v| - 1], scene);
    assert x[..|v[|v| - 1]|] == v[|v| - 1];
  }

  /** A long trimmed scene is replaced by its pieces; they hold its words. */
  lemma {:induction false} ChunkedScene(scene: string)
    requires Trimmed(scene) && |Fields(scene)| > MaxSceneWords
    ensures Fields(scene) == Tokens(scene)
    ensures ChunkPieces(Fields(scene)) != []
    ensures FlatTokens(ChunkPieces(Fields(scene))) == Tokens(scene)
    ensures AllTokened(ChunkPieces(Fields(scene)))
  {
    assert scene != [];
    FieldsOfTrimmed(scene);
    TokensAreWords(scene);
    ChunkPiecesFacts(Tokens(scene));
  }

  ghost predicate ValidateInv(v: seq<string>, done: seq<string>) {
    && FlatTokens(v) == FlatTokens(done)
    && (AllTokened(done) ==> AllTokened(v))
    && (done == [] <==> v == [])
    && (done != [] && |Fields(done[0])| <= MaxSceneWords ==> StartsWith(v[0], done[0]))
  }

  lemma ChunkBranchInv(v: seq<string>, done: seq<string>, scene: string)
    requires ValidateInv(v, done) && Trimmed(scene) && |Fields(scene)| > MaxSceneWords
    ensures ValidateInv(v + ChunkPieces(Fields(scene)), done + [scene])
  {
    DoneAppend(done, scene);
    ChunkedScene(scene);
    var pieces := ChunkPieces(Fields(scene));
    FlatTokensConcat(v, pieces);
    if AllTokened(done + [scene]) {
      AllTokenedConcat(v, pieces);
    }
    if done != [] {
      assert (done + [scene])[0] == done[0];
      assert (v + pieces)[0] == v[0];
    }
  }

  lemma MergeBranchInv(v: seq<string>, done: seq<string>, scene: string)
    requires ValidateInv(v, done) && v != []
    ensures ValidateInv(Merge(v, scene), done + [scene])
  {
    DoneAppend(done, scene);
    MergeKeepsWords(v, scene, Merge(v, scene));
    if AllTokened(done + [scene]) {
      MergeKeepsTokened(v, scene, Merge(v, scene));
    }
    assert (done + [scene])[0] == done[0];
    if |Fields(done[0])| <= MaxSceneWords {
      MergeKeepsFirst(v, scene, Merge(v, scene), done[0]);
    }
  }

  /** Merging moves the short scene's words onto the end of the output's words. */
  lemma MergeKeepsWords(v: seq<string>, scene: string, r: seq<string>)
    requires v != [] && r == Merge(v, scene)
    ensures FlatTokens(r) == FlatTokens(v) + Tokens(scene)
  {
    MergeIntoPrevious(v, scene);
    var l := |v| - 1;
    FlatTokensLast(v, v[..l], v[l]);
    FlatTokensLast(r, v[..l], r[l]);
    AppendAssoc(FlatTokens(v[..l]), Tokens(v[l]), Tokens(scene));
  }

  lemma FlatTokensLast(ss: seq<string>, init: seq<string>, last: string)
    requires ss != [] && init == ss[..|ss| - 1] && last == ss[|ss| - 1]
    ensures FlatTokens(ss) == FlatTokens(init) + Tokens(last)
  {
  }

  /** Merging keeps every output scene worded. */
  lemma MergeKeepsTokened(v: seq<string>, scene: string, r: seq<string>)
    requires v != [] && r == Merge(v, scene) && AllTokened(v)
    ensures AllTokened(r)
  {
    MergeIntoPrevious(v, scene);
    var l := |v| - 1;
    forall k | 0 <= k < |r| ensures Tokens(r[k]) != [] {
      if k < l {
        assert r[k] == v[k];
      }
    }
  }

  /** Merging keeps the first output scene's opening. */
  lemma MergeKeepsFirst(v: seq<string>, scene: string, r: seq<string>, first: string)
    requires v != [] && r == Merge(v, scene) && StartsWith(v[0], first)
    ensures StartsWith(r[0], first)
  {
    MergeIntoPrevious(v, scene);
    if |v| == 1 {
      StartsWithTrans(r[0], v[0], first);
    } else {
      assert r[0] == v[0];
    }
  }

  lemma PushBranchInv(v: seq<string>, done: seq<string>, scene: string)
    requires ValidateInv(v, done)
    ensures ValidateInv(v + [scene], done + [scene])
  {
    DoneAppend(done, scene);
    FlatTokensAppend(v, scene);
    if AllTokened(done + [scene]) {
      AllTokenedAppend(v, scene);
    }
    if done != [] {
      assert (done + [scene])[0] == done[0];
      assert (v + [scene])[0] == v[0];
    }
  }

  lemma StartsWithTrans(a: string, b: string, c: string)
    requires StartsWith(a, b) && StartsWith(b, c)
    ensures StartsWith(a, c)
  {
    assert a[..|c|] == a[..|b|][..|c|];
  }

  lemma ValidateStepInv(v: seq<string>, done: seq<string>, scene: string)
    requires ValidateInv(v, done) && Trimmed(scene)
    ensures ValidateInv(ValidateStep(v, scene), done + [scene])
  {
    var words := Fields(scene);
    if |words| > MaxSceneWords {
      ChunkBranchInv(v, done, scene);
    } else if |words| < MergeBelow && |v| > 0 {
      MergeBranchInv(v, done, scene);
    } else {
      PushBranchInv(v, done, scene);
    }
  }

  lemma {:induction false} ValidatePrefixInv(scenes: seq<string>, j: nat)
    requires j <= |scenes|
    requires forall k :: 0 <= k < |scenes| ==> Trimmed(scenes[k])
    ensures ValidateInv(ValidatePrefix(scenes, j), scenes[..j])
  {
    if j == 0 {
      assert FlatTokens([]) == [];
    } else {
      ValidatePrefixInv(scenes, j - 1);
      SliceSnoc(scenes, j);
      ValidateStepInv(ValidatePrefix(scenes, j - 1), scenes[..j - 1], scenes[j - 1]);
    }
  }

  lemma AllScenesValidated(text: string)
    ensures ValidateInv(SplitScenes(text), PackScenes(Clean(text)))
  {
    var scenes := PackScenes(Clean(text));
    PackScenesWords(Clean(text));
    ValidatePrefixInv(scenes, |scenes|);
    SliceWhole(scenes);
  }

  /**
   * `splitTextIntoScenes` always returns a scene; it returns the single empty scene exactly
   * when the clean text is empty, and otherwise every scene has a word.
   */
  lemma SplitScenesNonEmpty(text: string)
    ensures |SplitScenes(text)| >= 1
    ensures Clean(text) == [] ==> SplitScenes(text) == [[]]
    ensures Clean(text) != [] ==> AllTokened(SplitScenes(text))
  {
    AllScenesValidated(text);
    PackScenesTokened(Clean(text));
    if Clean(text) == [] {
      assert Fields([]) == [[]];
    }
  }

  /** The words of all scenes, in order, are exactly the words of the matched sentences. */
  lemma SplitScenesKeepWords(text: string)
    ensures FlatTokens(SplitScenes(text)) == FlatTokens(Sentences(Clean(text)))
  {
    AllScenesValidated(text);
    PackScenesWords(Clean(text));
  }

  /**
   * The first packed scene is never merged away: when it has at most 18 words the first
   * output scene begins with it.
   */
  lemma FirstSceneNeverMerged(text: string)
    ensures |SplitScenes(text)| >= 1
    ensures |Fields(PackScenes(Clean(text))[0])| <= MaxSceneWords ==>
      StartsWith(SplitScenes(text)[0], PackScenes(Clean(text))[0])
  {
    AllScenesValidated(text);
  }

  // ---------------------------------------------------------------------------
  // The loop program

  /** The packing loop, the final flush and the fallback to the whole clean text. */
  method PackSentences(clean: string) returns (scenes: seq<string>)
    ensures scenes == PackScenes(clean)
  {
    var current: string;
    var count: nat;
    scenes, current, count := PackLoop(Sentences(clean));
    PackScenesUnfold(clean, Pack(scenes, current, count));
    if Trim(current) != [] {
      scenes := scenes + [Trim(current)];
    }
    if scenes == [] {
      scenes := [clean];
    }
  }

  /** The packing loop over the matched sentences, before the final flush. */
  method PackLoop(sentences: seq<string>) returns (scenes: seq<string>, current: string, count: nat)
    ensures Pack(scenes, current, count) == PackPrefix(sentences, |sentences|)
  {
    scenes := [];
    current := [];
    count := 0;
    var i := 0;
    while i < |sentences|
      invariant 0 <= i <= |sentences|
      invariant PackPrefix(sentences, i) == Pack(scenes, current, count)
    {
      scenes, current, count := PackSentence(sentences, i, scenes, current, count);
      PackPrefixUnfold(sentences, i + 1);
      i := i + 1;
    }
  }

  /** One iteration of the packing loop, on the sentence at position `i`. */
  method PackSentence(sentences: seq<string>, i: nat, scenes: seq<string>, current: string, count: nat)
    returns (scenes': seq<string>, current': string, count': nat)
    requires i < |sentences|
    ensures Pack(scenes', current', count')
         == PackStep(Pack(scenes, current, count), sentences[i], Remaining(sentences, i))
  {
    var sentence := sentences[i];
    scenes', current', count' := AbsorbSentence(scenes, current, count, sentence);
    ghost var mid := Pack(scenes', current', count');
    if MinSceneWords <= count' <= MaxSceneWords {
      var remaining := IndexOf(sentences, sentence) < |sentences| - 1;
      if !remaining {
        scenes' := scenes' + [Trim(current')];
        current' := [];
        count' := 0;
      }
    }
    PackStepCases(Pack(scenes, current, count), sentence, Remaining(sentences, i), mid);
  }

  /** The first half of an iteration of the packing loop. */
  method AbsorbSentence(scenes: seq<string>, current: string, count: nat, sentence: string)
    returns (scenes': seq<string>, current': string, count': nat)
    ensures Pack(scenes', current', count') == Absorb(Pack(scenes, current, count), sentence)
  {
    var words := Fields(Trim(sentence));
    if count > 0 && count + |words| > MaxSceneWords {
      scenes' := scenes + [Trim(current)];
      current' := sentence;
      count' := |words|;
    } else {
      scenes' := scenes;
      current' := current + (if current != [] then " " else "") + sentence;
      count' := count + |words|;
    }
  }

  /** The chunking loop: push the 15-word pieces of `words` onto `validated`. */
  method PushChunks(validated: seq<string>, words: seq<string>) returns (out: seq<string>)
    ensures out == validated + ChunkPieces(words)
  {
    out := validated;
    var chunk: string := [];
    var chunkWordCount: nat := 0;
    var w := 0;
    while w < |words|
      invariant 0 <= w <= |words|
      invariant |out| >= |validated| && out[..|validated|] == validated
      invariant ChunkPrefix(words, w) == Chunking(out[|validated|..], chunk, chunkWordCount)
    {
      var word := words[w];
      if chunkWordCount >= ChunkSize {
        out := out + [Trim(chunk)];
        chunk := word;
        chunkWordCount := 1;
      } else {
        chunk := chunk + (if chunk != [] then " " else "") + word;
        chunkWordCount := chunkWordCount + 1;
      }
      w := w + 1;
    }
    if chunk != [] {
      out := out + [Trim(chunk)];
    }
  }

  /** The validation loop: chunk long scenes, merge short ones, keep the rest. */
  method ValidateScenes(scenes: seq<string>) returns (validated: seq<string>)
    ensures validated == ValidatePrefix(scenes, |scenes|)
  {
    validated := [];
    var j := 0;
    while j < |scenes|
      invariant 0 <= j <= |scenes|
      invariant validated == ValidatePrefix(scenes, j)
    {
      validated := ValidateNext(scenes, j, validated);
      j := j + 1;
    }
  }

  /** The validation loop's step from its first `j` scenes to its first `j + 1`. */
  method ValidateNext(scenes: seq<string>, j: nat, validated: seq<string>) returns (out: seq<string>)
    requires j < |scenes| && validated == ValidatePrefix(scenes, j)
    ensures out == ValidatePrefix(scenes, j + 1)
  {
    out := ValidateScene(validated, scenes[j]);
    ValidatePrefixUnfold(scenes, j + 1);
  }

  /** One iteration of the validation loop, on one packed scene. */
  method ValidateScene(validated: seq<string>, scene: string) returns (out: seq<string>)
    ensures out == ValidateStep(validated, scene)
  {
    var words := Fields(scene);
    if |words| > MaxSceneWords {
      out := PushChunks(validated, words);
    } else if |words| < MergeBelow && |validated| > 0 {
      out := validated[|validated| - 1 := validated[|validated| - 1] + " " + scene];
    } else {
      out := validated + [scene];
    }
  }

  /** `splitTextIntoScenes(text)`. */
  method SplitTextIntoScenes(text: string) returns (validated: seq<string>)
    ensures validated == SplitScenes(text)
  {
    var clean := Clean(text);
    var scenes := PackSentences(clean);
    validated := ValidateScenes(scenes);
  }
}
