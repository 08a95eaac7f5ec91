/**
 * The quick placeholder picture: a 1080x1920 canvas with a two-colour vertical gradient
 * and the scene text drawn centred in white, wrapped greedily into lines no wider than
 * 980 pixels and stacked 80 pixels apart.
 *
 * The canvas library is outside the model: the width `measureText` reports for a string
 * is the parameter `measure`, and the PNG encoder is the parameter `render`, which turns
 * the picture description below into bytes.
 */
module QuickImage {
  import opened JsText
  import opened Environment

  const Width: nat := 1080
  const Height: nat := 1920
  const LineHeight: nat := 80

  /** `width - 100`: the widest a line may measure. */
  const MaxLineWidth: real := (Width - 100) as real

  /** The five gradient pairs, top colour first. */
  const Gradients: seq<(string, string)> := [
    ("#667eea", "#764ba2"),
    ("#f093fb", "#f5576c"),
    ("#4facfe", "#00f2fe"),
    ("#43e97b", "#38f9d7"),
    ("#fa709a", "#fee140")
  ]

  /** `Math.floor(random * colors.length)` for a draw `random` of `Math.random()`. */
  function PickIndex(random: real): (i: nat)
    requires 0.0 <= random < 1.0
    ensures i < |Gradients|
  {
    (random * (|Gradients| as real)).Floor
  }

  /** Every pair can be drawn: `random = i / 5` picks pair `i`. */
  lemma EveryPairReachable(i: nat)
    requires i < |Gradients|
    ensures 0.0 <= (i as real) / (|Gradients| as real) < 1.0
    ensures PickIndex((i as real) / (|Gradients| as real)) == i
  {
  }

  /** The gradient pair of the picture is one of the five listed pairs. */
  function ColourPair(random: real): (pair: (string, string))
    requires 0.0 <= random < 1.0
    ensures pair in Gradients
  {
    Gradients[PickIndex(random)]
  }

  // Greedy word wrap

  /** A line as the loop builds it: each of its words followed by one space. */
  function LineText(ws: seq<string>): string {
    if ws == [] then "" else LineText(ws[..|ws| - 1]) + ws[|ws| - 1] + " "
  }

  lemma LineTextSnoc(ws: seq<string>, w: string)
    ensures LineText(ws + [w]) == LineText(ws) + w + " "
  {
    assert (ws + [w])[..|ws|] == ws;
  }

  /** Only the line of no words has no text. */
  lemma LineTextEmpty(ws: seq<string>)
    ensures LineText(ws) == "" <==> ws == []
  {
    if ws != [] {
      assert |LineText(ws)| >= 1;
    }
  }

  lemma {:induction false} LineTextAppend(a: seq<string>, b: seq<string>)
    ensures LineText(a + b) == LineText(a) + LineText(b)
    decreases |b|
  {
    if b == [] {
      assert a + b == a;
    } else {
      var b' := b[..|b| - 1];
      var w := b[|b| - 1];
      assert a + b == (a + b') + [w];
      assert b == b' + [w];
      LineTextSnoc(a + b', w);
      LineTextSnoc(b', w);
      LineTextAppend(a, b');
    }
  }

  /** The words already pushed as lines, and the words of `currentLine`. */
  datatype WrapState = WrapState(done: seq<seq<string>>, current: seq<string>)

  /** One iteration of the `forEach`: break before `word` when the test line is too wide. */
  function Step(s: WrapState, word: string, measure: string -> real): WrapState {
    var test := s.current + [word];
    if measure(LineText(test)) > MaxLineWidth then WrapState(s.done + [s.current], [word])
    else WrapState(s.done, test)
  }

  /** The state after the remaining words `ws` are each stepped through, in order. */
  function Run(s: WrapState, ws: seq<string>, measure: string -> real): WrapState
    decreases |ws|
  {
    if ws == [] then s else Run(Step(s, ws[0], measure), ws[1..], measure)
  }

  const Start := WrapState([], [])

  /** The words of each line, after the final `lines.push(currentLine)`. */
  function Wrap(words: seq<string>, measure: string -> real): (groups: seq<seq<string>>)
    ensures |groups| >= 1
  {
    var s := Run(Start, words, measure);
    s.done + [s.current]
  }

  /** The text of each line. */
  function Texts(groups: seq<seq<string>>): (lines: seq<string>)
    ensures |lines| == |groups|
  {
    if groups == [] then [] else [LineText(groups[0])] + Texts(groups[1..])
  }

  lemma {:induction false} TextsSnoc(groups: seq<seq<string>>, g: seq<string>)
    ensures Texts(groups + [g]) == Texts(groups) + [LineText(g)]
  {
    if groups == [] {
      assert [] + [g] == [g];
      assert Texts([g]) == [LineText(g)] + Texts([]);
    } else {
      assert (groups + [g])[1..] == groups[1..] + [g];
      TextsSnoc(groups[1..], g);
    }
  }

  /** Line `k` of the texts is the text of group `k`. */
  lemma {:induction false} TextsAt(groups: seq<seq<string>>, k: nat)
    requires k < |groups|
    ensures Texts(groups)[k] == LineText(groups[k])
  {
    if k > 0 {
      TextsAt(groups[1..], k - 1);
    }
  }

  /** All the words of all the groups, in order. */
  function Flatten(groups: seq<seq<string>>): seq<string> {
    if groups == [] then [] else groups[0] + Flatten(groups[1..])
  }

  lemma {:induction false} FlattenSnoc(groups: seq<seq<string>>, g: seq<string>)
    ensures Flatten(groups + [g]) == Flatten(groups) + g
  {
    if groups == [] {
      assert [] + [g] == [g];
      assert Flatten([g]) == g + Flatten([]);
    } else {
      assert (groups + [g])[1..] == groups[1..] + [g];
      FlattenSnoc(groups[1..], g);
    }
  }

  lemma {:induction false} ConcatTexts(groups: seq<seq<string>>)
    ensures Concat(Texts(groups)) == LineText(Flatten(groups))
  {
    if groups != [] {
      ConcatTexts(groups[1..]);
      LineTextAppend(groups[0], Flatten(groups[1..]));
      assert Texts(groups)[1..] == Texts(groups[1..]);
    }
  }

  /** What one step does to the texts of the lines. */
  lemma StepTexts(s: WrapState, word: string, measure: string -> real)
    ensures var t := Step(s, word, measure);
      if measure(LineText(s.current) + word + " ") > MaxLineWidth then
        Texts(t.done) == Texts(s.done) + [LineText(s.current)] && LineText(t.current) == word + " "
      else
        Texts(t.done) == Texts(s.done) && LineText(t.current) == LineText(s.current) + word + " "
  {
    LineTextSnoc(s.current, word);
    LineTextSnoc([], word);
    assert [] + [word] == [word];
    TextsSnoc(s.done, s.current);
  }

  /** The `forEach` callback: tries `word` on the current line and breaks when it is too wide. */
  method AddWord(lines: seq<string>, currentLine: string, word: string, measure: string -> real,
                 ghost s: WrapState) returns (lines': seq<string>, currentLine': string)
    requires lines == Texts(s.done) && currentLine == LineText(s.current)
    ensures lines' == Texts(Step(s, word, measure).done)
    ensures currentLine' == LineText(Step(s, word, measure).current)
  {
    StepTexts(s, word, measure);
    var testLine := currentLine + word + " ";
    if measure(testLine) > MaxLineWidth {
      lines' := lines + [currentLine];
      currentLine' := word + " ";
    } else {
      lines' := lines;
      currentLine' := testLine;
    }
  }

  /**
   * The loop of `generateQuickImage`: `currentLine` starts empty, each word is tried as
   * `currentLine + word + ' '`, and a line is pushed whenever that test is too wide.
   */
  method WrapWords(words: seq<string>, measure: string -> real) returns (lines: seq<string>)
    ensures lines == Texts(Wrap(words, measure))
  {
    lines := [];
    var currentLine := "";
    var i := 0;
    ghost var st := Start;
    while i < |words|
      invariant i <= |words|
      invariant Run(st, words[i..], measure) == Run(Start, words, measure)
      invariant lines == Texts(st.done) && currentLine == LineText(st.current)
    {
      lines, currentLine := AddWord(lines, currentLine, words[i], measure, st);
      assert words[i..][1..] == words[i + 1..];
      st := Step(st, words[i], measure);
      i := i + 1;
    }
    assert words[i..] == [];
    TextsSnoc(st.done, st.current);
    lines := lines + [currentLine];
  }

  /** One step appends its word to the words read so far. */
  lemma StepKeepsWords(s: WrapState, w: string, measure: string -> real)
    ensures Flatten(Step(s, w, measure).done) + Step(s, w, measure).current == Flatten(s.done) + s.current + [w]
  {
    if measure(LineText(s.current + [w])) > MaxLineWidth {
      FlattenSnoc(s.done, s.current);
    }
  }

  /** Running through `ws` appends exactly `ws` to the words read so far. */
  lemma {:induction false} RunKeepsWords(s: WrapState, ws: seq<string>, measure: string -> real)
    ensures Flatten(Run(s, ws, measure).done) + Run(s, ws, measure).current == Flatten(s.done) + s.current + ws
    decreases |ws|
  {
    if ws != [] {
      var t := Step(s, ws[0], measure);
      StepKeepsWords(s, ws[0], measure);
      RunKeepsWords(t, ws[1..], measure);
      assert ws == [ws[0]] + ws[1..];
    }
  }

  /** Wrapping neither drops, repeats nor reorders a word. */
  lemma WrapKeepsWords(words: seq<string>, measure: string -> real)
    ensures Flatten(Wrap(words, measure)) == words
  {
    var s := Run(Start, words, measure);
    RunKeepsWords(Start, words, measure);
    FlattenSnoc(s.done, s.current);
  }

  /**
   * At least one line is drawn, and the lines joined together are exactly the words of
   * the text, each followed by one space.
   */
  lemma WrapLines(text: string, measure: string -> real)
    ensures |Texts(Wrap(SplitOnSpace(text), measure))| >= 1
    ensures Concat(Texts(Wrap(SplitOnSpace(text), measure))) == LineText(SplitOnSpace(text))
  {
    var words := SplitOnSpace(text);
    ConcatTexts(Wrap(words, measure));
    WrapKeepsWords(words, measure);
  }

  /** Every word after the first of a line was added because the line still fit. */
  predicate Fits(g: seq<string>, measure: string -> real) {
    forall m :: 2 <= m <= |g| ==> measure(LineText(g[..m])) <= MaxLineWidth
  }

  /** Every line after the first starts with a word that did not fit on the line before. */
  predicate Breaks(groups: seq<seq<string>>, measure: string -> real) {
    forall k :: 1 <= k < |groups| ==>
      groups[k] != [] && measure(LineText(groups[k - 1] + [groups[k][0]])) > MaxLineWidth
  }

  /** Every line of the state, finished or not, keeps both properties. */
  predicate Shaped(s: WrapState, measure: string -> real) {
    (forall k :: 0 <= k < |s.done| ==> Fits(s.done[k], measure)) &&
    Fits(s.current, measure) && Breaks(s.done + [s.current], measure)
  }

  lemma FitsSnoc(g: seq<string>, w: string, measure: string -> real)
    requires Fits(g, measure)
    requires |g| >= 1 ==> measure(LineText(g + [w])) <= MaxLineWidth
    ensures Fits(g + [w], measure)
  {
    forall m | 2 <= m <= |g| + 1
      ensures measure(LineText((g + [w])[..m])) <= MaxLineWidth
    {
      if m <= |g| {
        assert (g + [w])[..m] == g[..m];
      } else {
        assert (g + [w])[..m] == g + [w];
      }
    }
  }

  /** A step keeps the state shaped and leaves a non-empty current line. */
  lemma StepShaped(s: WrapState, w: string, measure: string -> real)
    requires Shaped(s, measure)
    ensures Shaped(Step(s, w, measure), measure) && Step(s, w, measure).current != []
  {
    var g := s.done + [s.current];
    if measure(LineText(s.current + [w])) > MaxLineWidth {
      assert Fits([w], measure);
      var g' := g + [[w]];
      assert Step(s, w, measure).done + [[w]] == g';
      forall k | 1 <= k < |g'|
        ensures g'[k] != [] && measure(LineText(g'[k - 1] + [g'[k][0]])) > MaxLineWidth
      {
        if k < |g| {
          assert g'[k - 1] == g[k - 1] && g'[k] == g[k];
        }
      }
    } else {
      FitsSnoc(s.current, w, measure);
      var g' := s.done + [s.current + [w]];
      forall k | 1 <= k < |g'|
        ensures g'[k] != [] && measure(LineText(g'[k - 1] + [g'[k][0]])) > MaxLineWidth
      {
        assert g'[k - 1] == g[k - 1];
        if k < |s.done| {
          assert g'[k] == g[k];
        } else {
          assert g[k] == s.current;
          assert g'[k][0] == s.current[0];
        }
      }
    }
  }

  lemma {:induction false} RunShaped(s: WrapState, ws: seq<string>, measure: string -> real)
    requires Shaped(s, measure)
    ensures Shaped(Run(s, ws, measure), measure)
    ensures ws != [] ==> Run(s, ws, measure).current != []
    decreases |ws|
  {
    if ws != [] {
      StepShaped(s, ws[0], measure);
      RunShaped(Step(s, ws[0], measure), ws[1..], measure);
    }
  }

  /**
   * Every line holding two or more words passed the width check each time a later
   * word was added, and every break was forced: the next line's first word did not fit.
   */
  lemma WrapIsGreedy(words: seq<string>, measure: string -> real)
    ensures forall k, m :: 0 <= k < |Wrap(words, measure)| && 2 <= m <= |Wrap(words, measure)[k]| ==>
      measure(LineText(Wrap(words, measure)[k][..m])) <= MaxLineWidth
    ensures Breaks(Wrap(words, measure), measure)
  {
    assert Start.done + [Start.current] == [[]];
    RunShaped(Start, words, measure);
    var s := Run(Start, words, measure);
    var g := Wrap(words, measure);
    forall k | 0 <= k < |g|
      ensures Fits(g[k], measure)
    {
      if k < |s.done| {
        assert g[k] == s.done[k];
      }
    }
  }

  /** Once the current line holds a word, a step never changes whether the first line is empty. */
  lemma StepKeepsFirst(s: WrapState, w: string, measure: string -> real)
    requires s.current != []
    ensures var t := Step(s, w, measure);
      ((t.done + [t.current])[0] == []) == ((s.done + [s.current])[0] == [])
  {
  }

  lemma {:induction false} RunKeepsFirst(s: WrapState, ws: seq<string>, measure: string -> real)
    requires s.current != []
    ensures var t := Run(s, ws, measure);
      ((t.done + [t.current])[0] == []) == ((s.done + [s.current])[0] == [])
    decreases |ws|
  {
    if ws != [] {
      StepKeepsFirst(s, ws[0], measure);
      RunKeepsFirst(Step(s, ws[0], measure), ws[1..], measure);
    }
  }

  /** After the first word, the first line is empty exactly when that word alone overflowed. */
  lemma FirstStep(w: string, measure: string -> real)
    ensures var s := Step(Start, w, measure);
      s.current != [] && ((s.done + [s.current])[0] == [] <==> measure(w + " ") > MaxLineWidth)
  {
    LineTextSnoc([], w);
    assert [] + [w] == [w];
    assert "" + w + " " == w + " ";
  }

  /** The first line is empty exactly when the first word alone is too wide. */
  lemma FirstLineEmpty(words: seq<string>, measure: string -> real)
    requires |words| >= 1
    ensures Texts(Wrap(words, measure))[0] == "" <==> measure(words[0] + " ") > MaxLineWidth
  {
    FirstStep(words[0], measure);
    RunKeepsFirst(Step(Start, words[0], measure), words[1..], measure);
    LineTextEmpty(Wrap(words, measure)[0]);
  }

  // Layout

  /** One `fillText(line, x, y)` call. */
  datatype TextDraw = TextDraw(line: string, x: real, y: real)

  /** `startY + i * lineHeight` where `startY = (height - lines.length * lineHeight) / 2`. */
  function LineY(count: nat, i: nat): real {
    ((Height as real) - ((count * LineHeight) as real)) / 2.0 + ((i * LineHeight) as real)
  }

  /**
   * Line `i` of `count` sits at a whole pixel row, `960 - 40 * count + 80 * i`; lines are
   * 80 apart and the rows of the first and the last line average to 920.
   */
  lemma LayoutRows(count: nat, i: nat)
    requires count >= 1
    ensures LineY(count, i) == (960 - 40 * count + 80 * i) as real
    ensures LineY(count, i + 1) - LineY(count, i) == LineHeight as real
    ensures (LineY(count, 0) + LineY(count, count - 1)) / 2.0 == 920.0
  {
  }

  /** The drawing calls for `lines`: each centred at x = 540 on its own row. */
  function DrawsOf(lines: seq<string>): (draws: seq<TextDraw>)
    ensures |draws| == |lines|
    ensures forall i :: 0 <= i < |lines| ==>
      draws[i] == TextDraw(lines[i], (Width / 2) as real, LineY(|lines|, i))
  {
    seq(|lines|, i requires 0 <= i < |lines| => TextDraw(lines[i], (Width / 2) as real, LineY(|lines|, i)))
  }

  /** The `lines.forEach` drawing loop. */
  method DrawLines(lines: seq<string>) returns (draws: seq<TextDraw>)
    ensures draws == DrawsOf(lines)
  {
    var startY := ((Height as real) - ((|lines| * LineHeight) as real)) / 2.0;
    draws := [];
    var i := 0;
    while i < |lines|
      invariant i <= |lines|
      invariant draws == DrawsOf(lines)[..i]
    {
      draws := draws + [TextDraw(lines[i], (Width / 2) as real, startY + ((i * LineHeight) as real))];
      i := i + 1;
    }
  }

  /** What the canvas holds when it is encoded: the gradient pair and the text calls. */
  datatype Picture = Picture(top: string, bottom: string, draws: seq<TextDraw>)

  /** The picture for `text` and the colour draw `random`. */
  function PictureOf(text: string, random: real, measure: string -> real): Picture
    requires 0.0 <= random < 1.0
  {
    var pair := ColourPair(random);
    Picture(pair.0, pair.1, DrawsOf(Texts(Wrap(SplitOnSpace(text), measure))))
  }

  /** `path.dirname(p)` for a path without a trailing `/`. */
  function ParentDir(p: string): string {
    if '/' !in p then "."
    else if Dirname(p) == "" then "/"
    else Dirname(p)
  }

  /**
   * `generateQuickImage(text, outputPath)`: creates the output's directory when it is
   * missing, writes the encoded picture there and returns the path.
   */
  method GenerateQuickImage(fs: FileSystem, measure: string -> real, render: Picture -> seq<bv8>,
                            text: string, outputPath: string, random: real) returns (path: string)
    requires 0.0 <= random < 1.0
    modifies fs
    ensures path == outputPath
    ensures fs.files == old(fs.files)[outputPath := Binary(render(PictureOf(text, random, measure)))]
    ensures fs.dirs == old(fs.dirs) + (if old(fs.Exists(ParentDir(outputPath))) then {} else {ParentDir(outputPath)})
  {
    var pair := ColourPair(random);
    var words := SplitOnSpace(text);
    var lines := WrapWords(words, measure);
    var draws := DrawLines(lines);
    var dir := ParentDir(outputPath);
    if !fs.Exists(dir) {
      fs.MakeDir(dir);
    }
    var buffer := render(Picture(pair.0, pair.1, draws));
    fs.WriteFile(outputPath, Binary(buffer));
    path := outputPath;
  }
}
