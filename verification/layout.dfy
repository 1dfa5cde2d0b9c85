/** The text layout engine of the certificate generator
    (`draw_mixed_style_text` in core.py): styled segments are split into
    measured words, the words are packed greedily into lines no wider than a
    budget, and every line is centred on the canvas and stacked below the
    previous one. Drawing is modelled as the list of positioned words it
    would paint. */
module Layout {
  import opened Text

  datatype Style = Regular | Italic

  /** A run of text drawn in one style. */
  datatype Segment = Segment(text: string, style: Style)

  /** A word together with the style of its segment and its measured width. */
  datatype Word = Word(text: string, style: Style, width: real)

  /** One call of `draw.text`: a word, its font style and its position. */
  datatype Draw = Draw(text: string, style: Style, x: real, y: real)

  /** The width of a piece of text in the font of a style (`draw.textlength`). */
  type Measure = (string, Style) -> real

  // =====================================================================
  // Tokenising

  /** The words of one segment, measured in the segment's style. */
  function Tagged(tokens: seq<string>, style: Style, measure: Measure): seq<Word> {
    seq(|tokens|, i requires 0 <= i < |tokens| => Word(tokens[i], style, measure(tokens[i], style)))
  }

  /** The word stream of a list of segments: each segment's tokens, in order,
      tagged with that segment's style. */
  function WordStream(segments: seq<Segment>, measure: Measure): seq<Word> {
    if segments == [] then []
    else
      var last := segments[|segments| - 1];
      WordStream(segments[..|segments| - 1], measure) + Tagged(Split(last.text), last.style, measure)
  }

  /** The tokens of a list of segments, in order. */
  function Tokens(segments: seq<Segment>): seq<string> {
    if segments == [] then [] else Tokens(segments[..|segments| - 1]) + Split(segments[|segments| - 1].text)
  }

  function Texts(words: seq<Word>): seq<string> {
    seq(|words|, i requires 0 <= i < |words| => words[i].text)
  }

  /** Tokenising two lists of segments one after the other is tokenising
      their concatenation: segment boundaries do not show in the stream. */
  lemma {:induction false} WordStreamAppend(a: seq<Segment>, b: seq<Segment>, measure: Measure)
    ensures WordStream(a + b, measure) == WordStream(a, measure) + WordStream(b, measure)
    decreases |b|
  {
    if b != [] {
      var n := |b| - 1;
      assert (a + b)[..|a + b| - 1] == a + b[..n];
      WordStreamAppend(a, b[..n], measure);
    } else {
      assert a + b == a;
    }
  }

  /** A segment whose text has no word (an empty event name, say) can be
      dropped without changing the word stream. */
  lemma WordlessSegmentVanishes(a: seq<Segment>, seg: Segment, b: seq<Segment>, measure: Measure)
    requires Split(seg.text) == []
    ensures WordStream(a + [seg] + b, measure) == WordStream(a + b, measure)
  {
    WordStreamAppend(a + [seg], b, measure);
    WordStreamAppend(a, [seg], measure);
    WordStreamAppend(a, b, measure);
    assert [seg][..0] == [];
  }

  /** The word stream of three segments is their words one after the other. */
  lemma WordStreamOfThree(a: Segment, b: Segment, c: Segment, measure: Measure)
    ensures WordStream([a, b, c], measure)
         == Tagged(Split(a.text), a.style, measure) + Tagged(Split(b.text), b.style, measure) + Tagged(Split(c.text), c.style, measure)
  {
    assert [a][..0] == [];
    assert WordStream([a], measure) == Tagged(Split(a.text), a.style, measure);
    assert [a, b][..1] == [a];
    assert WordStream([a, b], measure) == WordStream([a], measure) + Tagged(Split(b.text), b.style, measure);
    assert [a, b, c][..2] == [a, b];
    assert WordStream([a, b, c], measure) == WordStream([a, b], measure) + Tagged(Split(c.text), c.style, measure);
  }

  /** The word stream is the in-order concatenation of the segments' tokens;
      every word is a token of a segment, carries that segment's style and
      is measured in it. */
  lemma {:induction false} WordStreamShape(segments: seq<Segment>, measure: Measure)
    ensures Texts(WordStream(segments, measure)) == Tokens(segments)
    ensures forall w :: w in WordStream(segments, measure) ==>
              w.width == measure(w.text, w.style)
              && exists k :: 0 <= k < |segments| && segments[k].style == w.style && w.text in Split(segments[k].text)
    decreases |segments|
  {
    if segments != [] {
      var n := |segments| - 1;
      var prefix := segments[..n];
      WordStreamShape(prefix, measure);
      var ws := WordStream(segments, measure);
      var tail := Tagged(Split(segments[n].text), segments[n].style, measure);
      assert ws == WordStream(prefix, measure) + tail;
      forall w | w in ws
        ensures w.width == measure(w.text, w.style)
              && exists k :: 0 <= k < |segments| && segments[k].style == w.style && w.text in Split(segments[k].text)
      {
        if w in WordStream(prefix, measure) {
          var k :| 0 <= k < |prefix| && prefix[k].style == w.style && w.text in Split(prefix[k].text);
          assert segments[k] == prefix[k];
        } else {
          assert w in tail;
          var i :| 0 <= i < |tail| && tail[i] == w;
          assert w.text == Split(segments[n].text)[i];
          assert segments[n].style == w.style;
        }
      }
      assert Texts(ws) == Texts(WordStream(prefix, measure)) + Split(segments[n].text);
    }
  }

  /** When every segment that has words is regular, so is every word. */
  lemma {:induction false} WordStreamRegular(segments: seq<Segment>, measure: Measure)
    requires forall k :: 0 <= k < |segments| ==> segments[k].style == Regular || Split(segments[k].text) == []
    ensures forall w :: w in WordStream(segments, measure) ==> w.style == Regular
    decreases |segments|
  {
    if segments != [] {
      var n := |segments| - 1;
      WordStreamRegular(segments[..n], measure);
    }
  }

  /** The first loop of `draw_mixed_style_text`: build the word stream segment by segment, word by word. */
  method CollectWords(segments: seq<Segment>, measure: Measure) returns (words: seq<Word>)
    ensures words == WordStream(segments, measure)
  {
    words := [];
    for k := 0 to |segments|
      invariant words == WordStream(segments[..k], measure)
    {
      var seg := segments[k];
      var tokens := Split(seg.text);
      ghost var before := words;
      for j := 0 to |tokens|
        invariant words == before + Tagged(tokens[..j], seg.style, measure)
      {
        words := words + [Word(tokens[j], seg.style, measure(tokens[j], seg.style))];
      }
      assert tokens[..|tokens|] == tokens;
      assert segments[..k + 1][..k] == segments[..k];
    }
    assert segments[..|segments|] == segments;
  }

  // =====================================================================
  // Greedy line packing

  /** Sum of the widths of a line's words. */
  function Sum(line: seq<Word>): real {
    if line == [] then 0.0 else Sum(line[..|line| - 1]) + line[|line| - 1].width
  }

  /** `n * d`, written as repeated addition so that the proofs below stay in
      linear arithmetic; `TimesIsProduct` shows it is the product. */
  function Times(n: nat, d: real): real {
    if n == 0 then 0.0 else Times(n - 1, d) + d
  }

  lemma {:induction false} TimesIsProduct(n: nat, d: real)
    ensures Times(n, d) == n as real * d
  {
    if n > 0 {
      TimesIsProduct(n - 1, d);
    }
  }

  lemma {:induction false} TimesNonNegative(n: nat, d: real)
    requires d >= 0.0
    ensures Times(n, d) >= 0.0
  {
    if n > 0 {
      TimesNonNegative(n - 1, d);
    }
  }

  /** The width of a drawn line, `(n - 1) * space` added to the sum of its
      `n` word widths: one space between each pair of words. */
  function LineWidth(line: seq<Word>, space: real): real {
    Sum(line) + Times(|line|, space) - space
  }

  /** `LineWidth` is the formula of core.py:34. */
  lemma LineWidthIsProduct(line: seq<Word>, space: real)
    ensures LineWidth(line, space) == Sum(line) + (|line| - 1) as real * space
  {
    if line != [] {
      TimesIsProduct(|line| - 1, space);
    }
  }

  /** The packing loop's running width for a line: the first line carries
      one space more than its drawn width, every other line none. */
  function RunningWidth(line: seq<Word>, space: real, first: bool): real {
    LineWidth(line, space) + (if first then space else 0.0)
  }

  /** The packing loop's variables: sealed lines, the open line and its running width. */
  datatype PackState = PackState(lines: seq<seq<Word>>, current: seq<Word>, width: real)

  function Flatten(lines: seq<seq<Word>>): seq<Word> {
    if lines == [] then [] else Flatten(lines[..|lines| - 1]) + lines[|lines| - 1]
  }

  lemma FlattenAppend(lines: seq<seq<Word>>, line: seq<Word>)
    ensures Flatten(lines + [line]) == Flatten(lines) + line
  {
    assert (lines + [line])[..|lines|] == lines;
  }

  /** One iteration of the packing loop. The space term is evaluated after
      the word was appended, so it is added even to the first word of the
      text. The word joins the open line, or, when the open line is
      non-empty and the word does not fit after it, the open line is sealed
      and the word starts a new one. */
  function Step(st: PackState, w: Word, space: real, maxWidth: real): (r: PackState)
    ensures r.current != []
    ensures |r.lines| == |st.lines| + 1 <==> st.current != [] && st.width + space + w.width > maxWidth
    ensures |r.lines| == |st.lines| || |r.lines| == |st.lines| + 1
  {
    if st.current == [] || st.width + space + w.width <= maxWidth then
      var current := st.current + [w];
      PackState(st.lines, current, st.width + w.width + (if current != [] then space else 0.0))
    else
      PackState(st.lines + [st.current], [w], w.width)
  }

  /** The packing loop's state after the given words. */
  function Run(words: seq<Word>, space: real, maxWidth: real): (r: PackState)
    ensures words != [] ==> r.current != []
    ensures words == [] ==> r.lines == [] && r.current == []
  {
    if words == [] then PackState([], [], 0.0)
    else Step(Run(words[..|words| - 1], space, maxWidth), words[|words| - 1], space, maxWidth)
  }

  /** The lines the packing produces: the sealed lines and the open one, if
      any. There are none exactly when there are no words. */
  function Pack(words: seq<Word>, space: real, maxWidth: real): (r: seq<seq<Word>>)
    ensures r == [] <==> words == []
  {
    var st := Run(words, space, maxWidth);
    if st.current != [] then st.lines + [st.current] else st.lines
  }

  /** A line with two or more words was accepted word by word: its running width is within the budget. */
  ghost predicate Fits(line: seq<Word>, space: real, maxWidth: real, first: bool) {
    |line| >= 2 ==> RunningWidth(line, space, first) <= maxWidth
  }

  /** A line was sealed because the next word did not fit after it. */
  ghost predicate Sealed(line: seq<Word>, next: Word, space: real, maxWidth: real, first: bool) {
    RunningWidth(line, space, first) + space + next.width > maxWidth
  }

  ghost predicate PackInv(st: PackState, space: real, maxWidth: real) {
    && (st.lines != [] ==> st.current != [])
    && (forall k :: 0 <= k < |st.lines| ==> st.lines[k] != [])
    && st.width == RunningWidth(st.current, space, st.lines == [])
    && (forall k :: 0 <= k < |st.lines| ==> Fits(st.lines[k], space, maxWidth, k == 0))
    && Fits(st.current, space, maxWidth, st.lines == [])
    && (forall k :: 0 <= k < |st.lines| - 1 ==> Sealed(st.lines[k], st.lines[k + 1][0], space, maxWidth, k == 0))
    && (st.lines != [] ==> Sealed(st.lines[|st.lines| - 1], st.current[0], space, maxWidth, |st.lines| == 1))
  }

  lemma SumAppend(line: seq<Word>, w: Word)
    ensures Sum(line + [w]) == Sum(line) + w.width
  {
    assert (line + [w])[..|line|] == line;
  }

  lemma {:induction false} StepKeepsInv(st: PackState, w: Word, space: real, maxWidth: real)
    requires PackInv(st, space, maxWidth)
    ensures PackInv(Step(st, w, space, maxWidth), space, maxWidth)
  {
    var st' := Step(st, w, space, maxWidth);
    if st.current == [] || st.width + space + w.width <= maxWidth {
      SumAppend(st.current, w);
      var n := |st.current|;
      assert st'.current == st.current + [w] && st'.lines == st.lines;
      assert Times(n + 1, space) == Times(n, space) + space;
      assert LineWidth(st'.current, space) == LineWidth(st.current, space) + w.width + space;
      assert st'.width == RunningWidth(st'.current, space, st'.lines == []);
    } else {
      assert Sum([w]) == w.width;
      assert Times(1, space) == Times(0, space) + space;
      assert st'.width == RunningWidth(st'.current, space, st'.lines == []);
      assert st'.lines[|st'.lines| - 1] == st.current;
    }
  }

  lemma {:induction false} RunInv(words: seq<Word>, space: real, maxWidth: real)
    ensures PackInv(Run(words, space, maxWidth), space, maxWidth)
    decreases |words|
  {
    if words == [] {
      assert RunningWidth([], space, true) == 0.0;
    } else {
      var n := |words| - 1;
      RunInv(words[..n], space, maxWidth);
      StepKeepsInv(Run(words[..n], space, maxWidth), words[n], space, maxWidth);
    }
  }

  /** One step keeps every word: the sealed lines followed by the open line
      gain exactly the new word at the end. */
  lemma StepKeepsWords(st: PackState, w: Word, space: real, maxWidth: real)
    ensures var r := Step(st, w, space, maxWidth);
            Flatten(r.lines) + r.current == Flatten(st.lines) + st.current + [w]
  {
    if !(st.current == [] || st.width + space + w.width <= maxWidth) {
      FlattenAppend(st.lines, st.current);
    }
  }

  /** The sealed lines followed by the open line are the words seen so far. */
  lemma {:induction false} RunKeepsWords(words: seq<Word>, space: real, maxWidth: real)
    ensures Flatten(Run(words, space, maxWidth).lines) + Run(words, space, maxWidth).current == words
    decreases |words|
  {
    if words != [] {
      var n := |words| - 1;
      var st := Run(words[..n], space, maxWidth);
      assert Run(words, space, maxWidth) == Step(st, words[n], space, maxWidth);
      RunKeepsWords(words[..n], space, maxWidth);
      StepKeepsWords(st, words[n], space, maxWidth);
      assert words == words[..n] + [words[n]];
    }
  }

  /** Packing never drops, duplicates or reorders a word: flattening the lines
      gives the words back. Every line has a word, and no words give no lines. */
  lemma PackKeepsWords(words: seq<Word>, space: real, maxWidth: real)
    ensures Flatten(Pack(words, space, maxWidth)) == words
    ensures forall k :: 0 <= k < |Pack(words, space, maxWidth)| ==> Pack(words, space, maxWidth)[k] != []
    ensures Pack(words, space, maxWidth) == [] <==> words == []
  {
    RunInv(words, space, maxWidth);
    RunKeepsWords(words, space, maxWidth);
    var st := Run(words, space, maxWidth);
    if st.current != [] {
      FlattenAppend(st.lines, st.current);
    }
  }

  /** Every line of two or more words is within the budget as the packing loop
      counts it: the first line including the extra space, the others by their
      drawn width. With a non-negative space the drawn width of every such line
      is within the budget. */
  lemma PackFits(words: seq<Word>, space: real, maxWidth: real)
    ensures forall k :: 0 <= k < |Pack(words, space, maxWidth)| && |Pack(words, space, maxWidth)[k]| >= 2 ==>
              RunningWidth(Pack(words, space, maxWidth)[k], space, k == 0) <= maxWidth
    ensures space >= 0.0 ==>
              forall k :: 0 <= k < |Pack(words, space, maxWidth)| && |Pack(words, space, maxWidth)[k]| >= 2 ==>
                LineWidth(Pack(words, space, maxWidth)[k], space) <= maxWidth
  {
    RunInv(words, space, maxWidth);
    var st := Run(words, space, maxWidth);
    var lines := Pack(words, space, maxWidth);
    forall k | 0 <= k < |lines|
      ensures Fits(lines[k], space, maxWidth, k == 0)
    {
      if k == |st.lines| {
        assert lines[k] == st.current;
      } else {
        assert lines[k] == st.lines[k];
      }
    }
  }

  /** Every line but the last was sealed because the first word of the next
      line did not fit after it. */
  lemma PackSealed(words: seq<Word>, space: real, maxWidth: real)
    ensures forall k :: 0 <= k < |Pack(words, space, maxWidth)| ==> Pack(words, space, maxWidth)[k] != []
    ensures forall k :: 0 <= k < |Pack(words, space, maxWidth)| - 1 ==>
              RunningWidth(Pack(words, space, maxWidth)[k], space, k == 0) + space + Pack(words, space, maxWidth)[k + 1][0].width > maxWidth
  {
    RunInv(words, space, maxWidth);
    PackKeepsWords(words, space, maxWidth);
    var st := Run(words, space, maxWidth);
    var lines := Pack(words, space, maxWidth);
    forall k | 0 <= k < |lines| - 1
      ensures Sealed(lines[k], lines[k + 1][0], space, maxWidth, k == 0)
    {
      assert st.current != [] && lines == st.lines + [st.current];
      assert lines[k] == st.lines[k];
      if k < |st.lines| - 1 {
        assert lines[k + 1] == st.lines[k + 1];
      } else {
        assert lines[k + 1] == st.current;
      }
    }
  }

  lemma {:induction false} SumCoversWord(line: seq<Word>, j: nat)
    requires j < |line|
    requires forall i :: 0 <= i < |line| ==> line[i].width >= 0.0
    ensures Sum(line) >= line[j].width
    decreases |line|
  {
    var n := |line| - 1;
    if j < n {
      SumCoversWord(line[..n], j);
      assert line[..n][j] == line[j];
    } else {
      SumNonNegative(line[..n]);
    }
  }

  lemma {:induction false} SumNonNegative(line: seq<Word>)
    requires forall i :: 0 <= i < |line| ==> line[i].width >= 0.0
    ensures Sum(line) >= 0.0
    decreases |line|
  {
    if line != [] {
      SumNonNegative(line[..|line| - 1]);
    }
  }

  /** With non-negative widths, a word wider than the budget sits alone on its line. */
  lemma OversizedWordAlone(words: seq<Word>, space: real, maxWidth: real, k: nat, j: nat)
    requires space >= 0.0
    requires forall i :: 0 <= i < |words| ==> words[i].width >= 0.0
    requires k < |Pack(words, space, maxWidth)| && j < |Pack(words, space, maxWidth)[k]|
    requires Pack(words, space, maxWidth)[k][j].width > maxWidth
    ensures Pack(words, space, maxWidth)[k] == [Pack(words, space, maxWidth)[k][j]]
  {
    var lines := Pack(words, space, maxWidth);
    var line := lines[k];
    assert forall i :: 0 <= i < |line| ==> line[i].width >= 0.0 by {
      PackKeepsWords(words, space, maxWidth);
      FlattenMembers(lines);
      forall i | 0 <= i < |line|
        ensures line[i].width >= 0.0
      {
        assert line[i] in words;
      }
    }
    SumCoversWord(line, j);
    TimesNonNegative(|line| - 1, space);
    assert LineWidth(line, space) > maxWidth;
    PackFits(words, space, maxWidth);
    assert |line| == 1;
  }

  lemma {:induction false} FlattenMembers(lines: seq<seq<Word>>)
    ensures forall k, j :: 0 <= k < |lines| && 0 <= j < |lines[k]| ==> lines[k][j] in Flatten(lines)
    decreases |lines|
  {
    if lines != [] {
      FlattenMembers(lines[..|lines| - 1]);
      forall k, j | 0 <= k < |lines| && 0 <= j < |lines[k]|
        ensures lines[k][j] in Flatten(lines)
      {
        if k < |lines| - 1 {
          assert lines[..|lines| - 1][k] == lines[k];
        }
      }
    }
  }

  /** The second loop of `draw_mixed_style_text`: greedy packing. */
  method PackLines(words: seq<Word>, space: real, maxWidth: real) returns (lines: seq<seq<Word>>)
    ensures lines == Pack(words, space, maxWidth)
  {
    lines := [];
    var current: seq<Word> := [];
    var width := 0.0;
    for i := 0 to |words|
      invariant PackState(lines, current, width) == Run(words[..i], space, maxWidth)
    {
      var w := words[i];
      if current == [] || width + space + w.width <= maxWidth {
        current := current + [w];
        width := width + w.width + (if current != [] then space else 0.0);
      } else {
        lines := lines + [current];
        current := [w];
        width := w.width;
      }
      assert words[..i + 1][..i] == words[..i];
    }
    if current != [] {
      lines := lines + [current];
    }
    assert words[..|words|] == words;
  }

  // =====================================================================
  // Centring and stacking

  /** Where a line starts so that it is centred on the canvas. */
  function LineStart(line: seq<Word>, space: real, canvasWidth: real): (x: real)
    ensures x + LineWidth(line, space) / 2.0 == canvasWidth / 2.0
  {
    (canvasWidth - LineWidth(line, space)) / 2.0
  }

  /** The draws of one line starting at `x0`: each word is placed after the
      widths of the earlier words of the line and one space after each. */
  function PlaceLine(line: seq<Word>, x0: real, y: real, space: real): (r: seq<Draw>)
    ensures |r| == |line|
  {
    if line == [] then []
    else
      var j := |line| - 1;
      PlaceLine(line[..j], x0, y, space) + [Draw(line[j].text, line[j].style, x0 + Sum(line[..j]) + Times(j, space), y)]
  }

  /** Draw `j` of a line shows word `j` in its style, after the widths of the
      words before it and one space after each of them. */
  lemma {:induction false} PlaceLineAt(line: seq<Word>, x0: real, y: real, space: real, j: nat)
    requires j < |line|
    ensures PlaceLine(line, x0, y, space)[j] == Draw(line[j].text, line[j].style, x0 + Sum(line[..j]) + Times(j, space), y)
    decreases |line|
  {
    var n := |line| - 1;
    if j < n {
      PlaceLineAt(line[..n], x0, y, space, j);
      assert line[..n][..j] == line[..j];
    }
  }

  /** The draws of all lines: line `k` centred, at height `top + k * lineHeight`. */
  function PlaceAll(lines: seq<seq<Word>>, space: real, canvasWidth: real, top: real, lineHeight: real): (r: seq<Draw>)
    ensures |r| == |Flatten(lines)|
  {
    if lines == [] then []
    else
      var k := |lines| - 1;
      PlaceAll(lines[..k], space, canvasWidth, top, lineHeight)
        + PlaceLine(lines[k], LineStart(lines[k], space, canvasWidth), top + Times(k, lineHeight), space)
  }

  /** Within a line, the next word starts one width and one space after the previous one. */
  lemma PlaceLineAdvance(line: seq<Word>, x0: real, y: real, space: real, j: nat)
    requires j + 1 < |line|
    ensures PlaceLine(line, x0, y, space)[j + 1].x == PlaceLine(line, x0, y, space)[j].x + line[j].width + space
  {
    PlaceLineAt(line, x0, y, space, j);
    PlaceLineAt(line, x0, y, space, j + 1);
    assert line[..j + 1] == line[..j] + [line[j]];
    SumAppend(line[..j], line[j]);
  }

  /** The last word of a centred line ends as far from the right edge as the
      first word starts from the left one. */
  lemma CentredLineEnds(line: seq<Word>, y: real, space: real, canvasWidth: real)
    requires line != []
    ensures var d := PlaceLine(line, LineStart(line, space, canvasWidth), y, space);
            |d| == |line| && d[|line| - 1].x + line[|line| - 1].width == canvasWidth - d[0].x
  {
    var n := |line| - 1;
    var x0 := LineStart(line, space, canvasWidth);
    PlaceLineAt(line, x0, y, space, 0);
    PlaceLineAt(line, x0, y, space, n);
    assert line == line[..n] + [line[n]];
    SumAppend(line[..n], line[n]);
    assert line[..0] == [];
  }

  /** Draw `j` of line `k` sits at index `|Flatten(lines[..k])| + j` of the
      draw list: it shows word `j` of line `k` in its style, on the line's
      centred start plus the words and spaces before it, at height
      `top + k * lineHeight`. */
  lemma {:induction false} PlaceAllAt(lines: seq<seq<Word>>, space: real, canvasWidth: real, top: real, lineHeight: real, k: nat, j: nat)
    requires k < |lines| && j < |lines[k]|
    ensures |Flatten(lines[..k])| + j < |Flatten(lines)|
    ensures PlaceAll(lines, space, canvasWidth, top, lineHeight)[|Flatten(lines[..k])| + j]
         == Draw(lines[k][j].text, lines[k][j].style,
                 LineStart(lines[k], space, canvasWidth) + Sum(lines[k][..j]) + Times(j, space),
                 top + Times(k, lineHeight))
    decreases |lines|
  {
    var n := |lines| - 1;
    var prefix := lines[..n];
    var i := |Flatten(lines[..k])| + j;
    assert Flatten(lines) == Flatten(prefix) + lines[n];
    var front := PlaceAll(prefix, space, canvasWidth, top, lineHeight);
    var back := PlaceLine(lines[n], LineStart(lines[n], space, canvasWidth), top + Times(n, lineHeight), space);
    assert PlaceAll(lines, space, canvasWidth, top, lineHeight) == front + back;
    if k < n {
      PlaceAllAt(prefix, space, canvasWidth, top, lineHeight, k, j);
      assert prefix[..k] == lines[..k];
      assert prefix[k] == lines[k];
      assert i < |front|;
    } else {
      assert lines[..k] == prefix;
      PlaceLineAt(lines[n], LineStart(lines[n], space, canvasWidth), top + Times(n, lineHeight), space, j);
    }
  }

  /** The draws show the words of the lines in order, each in its own style. */
  lemma {:induction false} PlaceAllKeepsWords(lines: seq<seq<Word>>, space: real, canvasWidth: real, top: real, lineHeight: real)
    ensures forall i :: 0 <= i < |Flatten(lines)| ==>
              PlaceAll(lines, space, canvasWidth, top, lineHeight)[i].text == Flatten(lines)[i].text
              && PlaceAll(lines, space, canvasWidth, top, lineHeight)[i].style == Flatten(lines)[i].style
    decreases |lines|
  {
    if lines != [] {
      var n := |lines| - 1;
      var prefix := lines[..n];
      PlaceAllKeepsWords(prefix, space, canvasWidth, top, lineHeight);
      var x0 := LineStart(lines[n], space, canvasWidth);
      var y := top + Times(n, lineHeight);
      var front := PlaceAll(prefix, space, canvasWidth, top, lineHeight);
      var back := PlaceLine(lines[n], x0, y, space);
      assert PlaceAll(lines, space, canvasWidth, top, lineHeight) == front + back;
      assert Flatten(lines) == Flatten(prefix) + lines[n];
      forall j | 0 <= j < |lines[n]|
        ensures back[j].text == lines[n][j].text && back[j].style == lines[n][j].style
      {
        PlaceLineAt(lines[n], x0, y, space, j);
      }
    }
  }

  /** The inner drawing loop of `draw_mixed_style_text`: draw the words of
      one line, advancing by each word's width and one space. */
  method PlaceWords(line: seq<Word>, x0: real, y: real, space: real) returns (draws: seq<Draw>)
    ensures draws == PlaceLine(line, x0, y, space)
  {
    draws := [];
    var x := x0;
    for j := 0 to |line|
      invariant draws == PlaceLine(line[..j], x0, y, space)
      invariant x == x0 + Sum(line[..j]) + Times(j, space)
    {
      draws := draws + [Draw(line[j].text, line[j].style, x, y)];
      assert line[..j + 1][..j] == line[..j];
      assert draws == PlaceLine(line[..j + 1], x0, y, space);
      SumAppend(line[..j], line[j]);
      assert line[..j + 1] == line[..j] + [line[j]];
      x := x + line[j].width + space;
    }
    assert line[..|line|] == line;
  }

  /** The outer drawing loop of `draw_mixed_style_text`: centre every line
      and place it one line height below the previous one. */
  method PlaceLines(lines: seq<seq<Word>>, space: real, canvasWidth: real, top: real, lineHeight: real)
    returns (draws: seq<Draw>)
    ensures draws == PlaceAll(lines, space, canvasWidth, top, lineHeight)
  {
    draws := [];
    var y := top;
    for k := 0 to |lines|
      invariant draws == PlaceAll(lines[..k], space, canvasWidth, top, lineHeight)
      invariant y == top + Times(k, lineHeight)
    {
      var line := lines[k];
      var lineWidth := Sum(line) + (|line| - 1) as real * space;
      LineWidthIsProduct(line, space);
      var x := (canvasWidth - lineWidth) / 2.0;
      assert x == LineStart(line, space, canvasWidth);
      var lineDraws := PlaceWords(line, x, y, space);
      draws := draws + lineDraws;
      assert lines[..k + 1][..k] == lines[..k];
      assert lines[..k + 1][k] == line;
      y := y + lineHeight;
      assert y == top + Times(k + 1, lineHeight);
    }
    assert lines[..|lines|] == lines;
  }

  // =====================================================================
  // The whole engine

  /** The line height: one and a half times the bottom of the regular
      font's box for the letter A. */
  function LineHeight(capBottom: real): (h: real)
    ensures capBottom >= 0.0 ==> h >= capBottom
  {
    capBottom * 1.5
  }

  /** The draws for a list of segments: the word stream packed with the
      regular font's space as gap, centred on the canvas, the first line at
      `top` and each further line `1.5 * capBottom` lower, where `capBottom`
      is the bottom of the regular font's box for the letter A. */
  function Render(segments: seq<Segment>, measure: Measure, capBottom: real, canvasWidth: nat, top: real, maxWidth: real): seq<Draw> {
    var space := measure(" ", Regular);
    PlaceAll(Pack(WordStream(segments, measure), space, maxWidth), space, canvasWidth as real, top, LineHeight(capBottom))
  }

  /** The draws depend on the segments only through their word stream. */
  lemma RenderDependsOnWords(s1: seq<Segment>, s2: seq<Segment>, measure: Measure, capBottom: real, canvasWidth: nat, top: real, maxWidth: real)
    requires WordStream(s1, measure) == WordStream(s2, measure)
    ensures Render(s1, measure, capBottom, canvasWidth, top, maxWidth) == Render(s2, measure, capBottom, canvasWidth, top, maxWidth)
  {
  }

  /** A segment without words in the middle of three changes nothing in the drawing. */
  lemma RenderSkipsWordless(s0: Segment, s1: Segment, s2: Segment, measure: Measure, capBottom: real, canvasWidth: nat, top: real, maxWidth: real)
    requires Split(s1.text) == []
    ensures Render([s0, s1, s2], measure, capBottom, canvasWidth, top, maxWidth)
            == Render([s0, s2], measure, capBottom, canvasWidth, top, maxWidth)
  {
    WordlessSegmentVanishes([s0], s1, [s2], measure);
    assert [s0, s1, s2] == [s0] + [s1] + [s2];
    assert [s0, s2] == [s0] + [s2];
    RenderDependsOnWords([s0, s1, s2], [s0, s2], measure, capBottom, canvasWidth, top, maxWidth);
  }

  /** The rendering draws every word of the segments, in order, in its segment's style. */
  lemma RenderKeepsWords(segments: seq<Segment>, measure: Measure, capBottom: real, canvasWidth: nat, top: real, maxWidth: real)
    ensures var d := Render(segments, measure, capBottom, canvasWidth, top, maxWidth);
            var ws := WordStream(segments, measure);
            |d| == |ws| && forall i :: 0 <= i < |d| ==> d[i].text == ws[i].text && d[i].style == ws[i].style
  {
    var space := measure(" ", Regular);
    var ws := WordStream(segments, measure);
    var lines := Pack(ws, space, maxWidth);
    PackKeepsWords(ws, space, maxWidth);
    PlaceAllKeepsWords(lines, space, canvasWidth as real, top, LineHeight(capBottom));
  }

  /** Where each word is drawn: word `j` of line `k` starts at the line's
      centred start plus the widths of the earlier words and `j` spaces, and
      every word of line `k` is at height `top + k * lineHeight`. */
  lemma PlacePosition(lines: seq<seq<Word>>, space: real, canvasWidth: real, top: real, lineHeight: real, k: nat, j: nat)
    requires k < |lines| && j < |lines[k]|
    ensures var d := PlaceAll(lines, space, canvasWidth, top, lineHeight);
            var i := |Flatten(lines[..k])| + j;
            i < |d| && d[i].text == lines[k][j].text && d[i].style == lines[k][j].style
            && d[i].x == LineStart(lines[k], space, canvasWidth) + Sum(lines[k][..j]) + j as real * space
            && d[i].y == top + k as real * lineHeight
  {
    PlaceAllAt(lines, space, canvasWidth, top, lineHeight, k, j);
    TimesIsProduct(j, space);
    TimesIsProduct(k, lineHeight);
  }

  /** `draw_mixed_style_text(draw, pos, segments, fonts, max_width)`. Only the
      vertical coordinate of `pos` is used; the canvas width is the template's. */
  method DrawMixedStyleText(pos: (real, real), segments: seq<Segment>, measure: Measure, capBottom: real, canvasWidth: nat, maxWidth: real)
    returns (draws: seq<Draw>)
    ensures draws == Render(segments, measure, capBottom, canvasWidth, pos.1, maxWidth)
  {
    var space := measure(" ", Regular);
    var words := CollectWords(segments, measure);
    var lines := PackLines(words, space, maxWidth);
    var lineHeight := LineHeight(capBottom);
    draws := PlaceLines(lines, space, canvasWidth as real, pos.1, lineHeight);
  }
}
