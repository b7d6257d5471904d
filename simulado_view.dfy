/**
 * The PDF export of an exam: the sequence of text items it writes (title,
 * numbered question lines, lettered options and, on request, the answer key),
 * the y-cursor that decides where each item goes and when a new page starts,
 * the name of the saved file and the busy flag guarding against a second
 * export.
 *
 * The PDF engine is abstracted: how many lines a text wraps to and the page
 * height are inputs (`Metrics`), and the document is the log of `Event`s the
 * exporter issues (`addPage` and `text` calls).
 */
module SimuladoView {
  import opened Types
  import Strings

  // ---------------------------------------------------------------------------
  // Page geometry
  // ---------------------------------------------------------------------------

  const TopMargin: real := 25.0
  const BottomMargin: real := 25.0

  /** The height of one line of text in millimetres: the 12-point font size
      converted at 0.352778 mm per point, times the 1.5 line spacing. */
  const LineHeight: real := 12.0 * 0.352778 * 1.5

  /** The font a text is wrapped in: it decides how many lines it takes. */
  datatype Style = Normal | Bold | Title

  /** Where a text goes across the page: centred, or left-aligned at an indent
      from the left margin. */
  datatype Placement = Centered | LeftAt(indent: real)

  datatype TextItem = TextItem(text: string, placement: Placement, style: Style)

  /** One call on the PDF engine: start a page, or write a text whose top is at
      `y` and which takes `height`. */
  datatype Event = NewPage | Put(item: TextItem, y: real, height: real)

  /** What the engine and the layout heuristic contribute. */
  datatype Metrics = Metrics(
    pageHeight: real,                       // height of the page format
    lineCount: (string, Style) -> nat)      // lines a text wraps to at the usable width

  /** The cursor never moves past this line without starting a new page. */
  function Limit(m: Metrics): real
  {
    m.pageHeight - BottomMargin
  }

  function Height(m: Metrics, item: TextItem): real
  {
    m.lineCount(item.text, item.style) as real * LineHeight
  }

  /** The rough height of a question's block, used only to decide whether to
      start a new page before it: a line per 50 characters of text and two
      lines per option, plus, with the answer key, a line per 50 characters of
      explanation and four more. */
  function BlockEstimate(q: Question, withAnswers: bool): real
  {
    (|q.text| as real / 50.0 + |q.options| as real * 2.0) * LineHeight
    + (if withAnswers then (|q.explanation| as real / 50.0 + 4.0) * LineHeight else 0.0)
  }

  /** The page-break invariant of a document: every text starts at or below the
      top margin, is as tall as its wrapped lines, and ends at or above the
      bottom limit unless it is taller than a whole usable page, in which case
      it starts at the top margin. */
  ghost predicate WellPlaced(events: seq<Event>, m: Metrics)
  {
    forall k :: 0 <= k < |events| && events[k].Put? ==>
      && events[k].height == Height(m, events[k].item)
      && TopMargin <= events[k].y
      && (events[k].y + events[k].height <= Limit(m)
          || (events[k].y == TopMargin && events[k].height > Limit(m) - TopMargin))
  }

  /** The texts a document holds, in the order they were written. */
  function Texts(events: seq<Event>): seq<TextItem>
  {
    if events == [] then []
    else
      var last := events[|events| - 1];
      Texts(events[..|events| - 1]) + (if last.Put? then [last.item] else [])
  }

  lemma TextsSnoc(events: seq<Event>, e: Event)
    ensures Texts(events + [e]) == Texts(events) + (if e.Put? then [e.item] else [])
  {
    assert (events + [e])[..|events|] == events;
  }

  lemma {:induction false} TextsAppend(a: seq<Event>, b: seq<Event>)
    ensures Texts(a + b) == Texts(a) + Texts(b)
    decreases |b|
  {
    if b == [] {
      assert a + b == a;
    } else {
      var b' := b[..|b| - 1];
      assert (a + b)[..|a + b| - 1] == a + b';
      TextsAppend(a, b');
    }
  }

  // ---------------------------------------------------------------------------
  // The content, as a serialiser
  // ---------------------------------------------------------------------------

  function TitleItem(l: Level): TextItem
  {
    TextItem("Simulado OBMEP - " + Label(l), Centered, Title)
  }

  /** `String(n).padStart(2, '0')`: a one-digit number gets a leading '0',
      any other integer is written as it is (`NumberLabelPads`). */
  function NumberLabel(n: int): string
  {
    if 0 <= n < 10 then ['0', Strings.DigitChar(n)] else Strings.IntToString(n)
  }

  /** The question number is `String(n)` padded with '0' to two characters. */
  lemma NumberLabelPads(n: int)
    ensures NumberLabel(n) == Strings.PadStart(Strings.IntToString(n), 2, '0')
  {
    if 0 <= n < 10 {
      Strings.PaddedNumberWidth(n);
    } else if n < 0 {
      assert |Strings.IntToString(n)| >= 2;
    }
  }

  function HeaderText(q: Question): string
  {
    "Questão " + NumberLabel(q.number) + ": " + q.text
  }

  /** The letter of the option at 0-based position `i`: the character with code 65 + i. */
  function OptionLetter(i: nat): char
  {
    Strings.FromCharCode(65 + i)
  }

  function OptionText(i: nat, option: string): string
  {
    [OptionLetter(i)] + ") " + option
  }

  /** One left-aligned item per option, indented by 5, in list order. */
  function OptionItems(options: seq<string>): (items: seq<TextItem>)
    ensures |items| == |options|
  {
    if options == [] then []
    else
      var n := |options| - 1;
      OptionItems(options[..n]) + [TextItem(OptionText(n, options[n]), LeftAt(5.0), Normal)]
  }

  /** The answer-key lines written under a question. */
  function AnswerItems(q: Question): seq<TextItem>
  {
    [ TextItem("Resposta Correta: " + q.answer, LeftAt(0.0), Bold),
      TextItem("Explicação:", LeftAt(0.0), Bold),
      TextItem(q.explanation, LeftAt(0.0), Normal) ]
  }

  /** The number of items one question contributes. */
  function BlockSize(q: Question, withAnswers: bool): nat
  {
    1 + |q.options| + (if withAnswers then 3 else 0)
  }

  /** The number of items the questions contribute together. */
  function BlocksSize(qs: seq<Question>, withAnswers: bool): nat
  {
    if qs == [] then 0 else BlocksSize(qs[..|qs| - 1], withAnswers) + BlockSize(qs[|qs| - 1], withAnswers)
  }

  /** Everything written for one question. */
  function QuestionItems(q: Question, withAnswers: bool): (items: seq<TextItem>)
    ensures |items| == BlockSize(q, withAnswers)
  {
    [TextItem(HeaderText(q), LeftAt(0.0), Normal)]
    + OptionItems(q.options)
    + (if withAnswers then AnswerItems(q) else [])
  }

  /** One block of items per question, in exam order. */
  function QuestionBlocks(qs: seq<Question>, withAnswers: bool): (blocks: seq<seq<TextItem>>)
    ensures |blocks| == |qs|
  {
    seq(|qs|, k requires 0 <= k < |qs| => QuestionItems(qs[k], withAnswers))
  }

  function QuestionsItems(qs: seq<Question>, withAnswers: bool): seq<TextItem>
  {
    Flatten(QuestionBlocks(qs, withAnswers))
  }

  /** The whole text of the exported document. */
  function Items(s: Simulado, withAnswers: bool): seq<TextItem>
  {
    [TitleItem(s.level)] + QuestionsItems(s.questions, withAnswers)
  }

  /** The option at position i is written as its letter, ") " and its text. */
  lemma {:induction false} OptionItemsAt(options: seq<string>, i: nat)
    requires i < |options|
    ensures |OptionItems(options)| == |options|
    ensures OptionItems(options)[i] == TextItem(OptionText(i, options[i]), LeftAt(5.0), Normal)
    decreases |options|
  {
    var n := |options| - 1;
    if i < n {
      OptionItemsAt(options[..n], i);
    } else if n > 0 {
      OptionItemsAt(options[..n], 0);
    }
  }

  /** The options are lettered A, B, C, ... in order; distinct positions get
      distinct letters as long as the codes stay below the surrogate range. */
  lemma OptionLetters(i: nat, j: nat)
    requires 65 + i < 0xD800 && 65 + j < 0xD800
    ensures OptionLetter(i) as int == 'A' as int + i
    ensures i != j ==> OptionLetter(i) != OptionLetter(j)
    ensures i < 26 ==> 'A' <= OptionLetter(i) <= 'Z'
  {
  }

  // The blocks of a list, laid end to end.

  function Flatten<T>(blocks: seq<seq<T>>): seq<T>
  {
    if blocks == [] then [] else Flatten(blocks[..|blocks| - 1]) + blocks[|blocks| - 1]
  }

  lemma FlattenSnoc<T>(blocks: seq<seq<T>>, i: nat)
    requires i < |blocks|
    ensures Flatten(blocks[..i + 1]) == Flatten(blocks[..i]) + blocks[i]
  {
    assert blocks[..i + 1][..i] == blocks[..i];
  }

  lemma {:induction false} FlattenPrefix<T>(blocks: seq<seq<T>>, j: nat)
    requires j <= |blocks|
    ensures Flatten(blocks[..j]) <= Flatten(blocks)
    decreases |blocks| - j
  {
    if j < |blocks| {
      FlattenPrefix(blocks, j + 1);
      FlattenSnoc(blocks, j);
    } else {
      assert blocks[..j] == blocks;
    }
  }

  /** Block i sits right after the blocks before it. */
  lemma FlattenBlockAt<T>(blocks: seq<seq<T>>, i: nat)
    requires i < |blocks|
    ensures var lo := |Flatten(blocks[..i])|;
      lo + |blocks[i]| <= |Flatten(blocks)| && Flatten(blocks)[lo..lo + |blocks[i]|] == blocks[i]
  {
    FlattenPrefix(blocks, i + 1);
    FlattenSnoc(blocks, i);
    var before := Flatten(blocks[..i]);
    var whole := Flatten(blocks);
    assert whole[..|before| + |blocks[i]|] == before + blocks[i];
    assert (before + blocks[i])[|before|..] == blocks[i];
  }

  /** Every element of the flattened list comes from one of the blocks. */
  lemma {:induction false} FlattenAll<T>(blocks: seq<seq<T>>, p: T -> bool)
    requires forall k, j :: 0 <= k < |blocks| && 0 <= j < |blocks[k]| ==> p(blocks[k][j])
    ensures forall j :: 0 <= j < |Flatten(blocks)| ==> p(Flatten(blocks)[j])
  {
    if blocks != [] {
      var n := |blocks| - 1;
      FlattenAll(blocks[..n], p);
      assert forall j :: 0 <= j < |blocks[n]| ==> p(blocks[n][j]);
    }
  }

  lemma QuestionBlocksPrefix(qs: seq<Question>, w: bool, i: nat)
    requires i <= |qs|
    ensures QuestionBlocks(qs, w)[..i] == QuestionBlocks(qs[..i], w)
  {
  }

  /** The items of the first i + 1 questions are those of the first i, then
      question i's. */
  lemma QuestionsItemsSnoc(qs: seq<Question>, i: nat, w: bool)
    requires i < |qs|
    ensures QuestionsItems(qs[..i + 1], w) == QuestionsItems(qs[..i], w) + QuestionItems(qs[i], w)
  {
    var blocks := QuestionBlocks(qs, w);
    QuestionBlocksPrefix(qs, w, i + 1);
    QuestionBlocksPrefix(qs, w, i);
    FlattenSnoc(blocks, i);
  }

  /** The questions' items number the sum of their block sizes. */
  lemma {:induction false} QuestionsItemsLength(qs: seq<Question>, w: bool)
    ensures |QuestionsItems(qs, w)| == BlocksSize(qs, w)
    decreases |qs|
  {
    if qs != [] {
      var n := |qs| - 1;
      QuestionsItemsLength(qs[..n], w);
      QuestionsItemsSnoc(qs, n, w);
      assert qs[..n + 1] == qs;
    }
  }

  /** The questions are written in exam order, each as one contiguous block:
      question i's items sit right after those of the questions before it. */
  lemma QuestionBlockAt(qs: seq<Question>, w: bool, i: nat)
    requires i < |qs|
    ensures var lo := |QuestionsItems(qs[..i], w)|;
      && lo == BlocksSize(qs[..i], w)
      && lo + BlockSize(qs[i], w) <= |QuestionsItems(qs, w)|
      && QuestionsItems(qs, w)[lo..lo + BlockSize(qs[i], w)] == QuestionItems(qs[i], w)
  {
    var blocks := QuestionBlocks(qs, w);
    FlattenBlockAt(blocks, i);
    QuestionBlocksPrefix(qs, w, i);
    QuestionsItemsLength(qs[..i], w);
  }

  /** The first item is the centred title naming the level. */
  lemma TitleFirst(s: Simulado, w: bool)
    ensures |Items(s, w)| == 1 + BlocksSize(s.questions, w)
    ensures Items(s, w)[0] == TextItem("Simulado OBMEP - " + Label(s.level), Centered, Title)
  {
    QuestionsItemsLength(s.questions, w);
  }

  /** Without the answer key no bold line ("Resposta Correta", "Explicação:")
      is written at all. */
  lemma NoAnswerKeyWithout(qs: seq<Question>)
    ensures forall k :: 0 <= k < |QuestionsItems(qs, false)| ==> QuestionsItems(qs, false)[k].style == Normal
  {
    var blocks: seq<seq<TextItem>> := QuestionBlocks(qs, false);
    forall k: nat, j: nat | k < |blocks| && j < |blocks[k]|
      ensures blocks[k][j].style == Normal
    {
      if j > 0 {
        OptionItemsAt(qs[k].options, j - 1);
      }
    }
    FlattenAll(blocks, (item: TextItem) => item.style == Normal);
  }

  /** With the answer key, exactly the three answer lines follow each
      question's options; without it, the block ends with the options. */
  lemma AnswerKeyPlacement(q: Question, w: bool)
    ensures |QuestionItems(q, w)| == BlockSize(q, w)
    ensures w ==> QuestionItems(q, w)[1 + |q.options|..] == AnswerItems(q)
    ensures !w ==> QuestionItems(q, w)[1..] == OptionItems(q.options)
  {
    if q.options != [] {
      OptionItemsAt(q.options, 0);
    }
  }

  /** The question line reads back the question's number and text (for numbers
      0..99, which take two characters once padded). */
  lemma HeaderRoundTrip(q: Question)
    requires 0 <= q.number < 100
    ensures var h := HeaderText(q);
      && |h| == 12 + |q.text|
      && h[..8] == "Questão "
      && Strings.ParseInt(h[8..10]) == q.number
      && Strings.IsDigit(h[8]) && Strings.IsDigit(h[9])
      && h[10..12] == ": "
      && h[12..] == q.text
  {
    HeaderPieces(q);
    NumberLabelDigits(q.number);
    var h := HeaderText(q);
    assert h[8] == h[8..10][0] && h[9] == h[8..10][1];
  }

  /** A two-character number label holds two digits that read back as the number. */
  lemma NumberLabelDigits(n: int)
    requires 0 <= n < 100
    ensures var l := NumberLabel(n);
      && |l| == 2 && Strings.ParseInt(l) == n
      && Strings.IsDigit(l[0]) && Strings.IsDigit(l[1])
  {
    NumberLabelPads(n);
    Strings.PaddedNumberWidth(n);
    Strings.PaddedNumberRoundTrip(n);
  }

  lemma {:induction false} HeaderPieces(q: Question)
    requires 0 <= q.number < 100
    ensures var h := HeaderText(q);
      && |h| == 12 + |q.text|
      && h[..8] == "Questão "
      && h[8..10] == NumberLabel(q.number)
      && h[10..12] == ": "
      && h[12..] == q.text
  {
    assert |NumberLabel(q.number)| == 2 by {
      NumberLabelPads(q.number);
      Strings.PaddedNumberWidth(q.number);
    }
    FourPieces("Questão ", NumberLabel(q.number), ": ", q.text);
  }

  lemma FourPieces(a: string, b: string, c: string, d: string)
    ensures var h := a + b + c + d;
      && |h| == |a| + |b| + |c| + |d|
      && h[..|a|] == a
      && h[|a|..|a| + |b|] == b
      && h[|a| + |b|..|a| + |b| + |c|] == c
      && h[|a| + |b| + |c|..] == d
  {
  }

  // ---------------------------------------------------------------------------
  // File name
  // ---------------------------------------------------------------------------

  /** The saved file's name: the level's short name, and " com Gabarito" when
      the answer key is included. */
  function FileName(l: Level, withAnswers: bool): string
  {
    "Simulado OBMEP - " + Strings.Trim(Strings.Split(Label(l), '(')[0])
    + ((if withAnswers then " com Gabarito" else "") + ".pdf")
  }

  lemma FileNameShape(l: Level, w: bool)
    ensures FileName(l, w) == "Simulado OBMEP - " + ShortName(l) + ((if w then " com Gabarito" else "") + ".pdf")
  {
    LabelPrefix(l);
  }

  /** Different exports get different file names. */
  lemma FileNameInjective(l: Level, w: bool, l': Level, w': bool)
    requires FileName(l, w) == FileName(l', w')
    ensures l == l' && w == w'
  {
    FileNameShape(l, w);
    FileNameShape(l', w');
    var tail := (if w then " com Gabarito" else "") + ".pdf";
    var tail' := (if w' then " com Gabarito" else "") + ".pdf";
    ShortNameLength(l);
    ShortNameLength(l');
    MiddleCancel("Simulado OBMEP - ", ShortName(l), tail, ShortName(l'), tail');
    if l != l' {
      LabelsDistinct(l, l');
    }
  }

  lemma ShortNameLength(l: Level)
    ensures |ShortName(l)| == 7
  {
  }

  lemma MiddleCancel(a: string, b: string, c: string, b': string, c': string)
    requires a + b + c == a + b' + c' && |b| == |b'|
    ensures b == b' && c == c'
  {
    var h := a + b + c;
    assert b == h[|a|..|a| + |b|];
    assert c == h[|a| + |b|..];
    var h' := a + b' + c';
    assert b' == h'[|a|..|a| + |b'|];
    assert c' == h'[|a| + |b'|..];
  }

  // ---------------------------------------------------------------------------
  // The layout, as functions of the cursor
  // ---------------------------------------------------------------------------

  /** What laying out some texts produces: the events issued and where the
      cursor ends. */
  datatype Layout = Layout(events: seq<Event>, cursor: real)

  /** One `addText` or `addCenteredText` call at cursor `y`: the events it
      issues and the cursor afterwards. A text that would cross the bottom
      limit goes on a new page, at the top margin. */
  function PlaceOne(m: Metrics, y: real, item: TextItem): Layout
  {
    var h := Height(m, item);
    if y + h > Limit(m) then Layout([NewPage, Put(item, TopMargin, h)], TopMargin + h)
    else Layout([Put(item, y, h)], y + h)
  }

  /** The items written one after the other from cursor `y`. */
  function PlaceAll(m: Metrics, y: real, items: seq<TextItem>): Layout
    decreases |items|
  {
    if items == [] then Layout([], y)
    else
      var before := PlaceAll(m, y, items[..|items| - 1]);
      var last := PlaceOne(m, before.cursor, items[|items| - 1]);
      Layout(before.events + last.events, last.cursor)
  }

  /** A question's block from cursor `y`: the question line, half a line of
      space, the options and, with the answer key, a line and a half of space
      and the key. */
  function BlockLayout(m: Metrics, y: real, q: Question, withAnswers: bool): Layout
  {
    var header := PlaceOne(m, y, TextItem(HeaderText(q), LeftAt(0.0), Normal));
    var options := PlaceAll(m, header.cursor + LineHeight * 0.5, OptionItems(q.options));
    var key := KeyLayout(m, options.cursor, q, withAnswers);
    Layout(header.events + options.events + key.events, key.cursor)
  }

  /** With the answer key, a line and a half of space from cursor `y` and then
      the key; without it, nothing. */
  function KeyLayout(m: Metrics, y: real, q: Question, withAnswers: bool): Layout
  {
    if withAnswers then PlaceAll(m, y + LineHeight * 1.5, AnswerItems(q)) else Layout([], y)
  }

  /** One pass of the loop over the questions from cursor `y`: a line of
      space, a new page when the estimated block would cross the bottom limit,
      then the question's block. */
  function QuestionLayout(m: Metrics, y: real, q: Question, withAnswers: bool): Layout
  {
    var breaks := y + LineHeight + BlockEstimate(q, withAnswers) > Limit(m);
    var block := BlockLayout(m, if breaks then TopMargin else y + LineHeight, q, withAnswers);
    Layout((if breaks then [NewPage] else []) + block.events, block.cursor)
  }

  /** The document up to and including the first `n` questions: the title
      at the top margin, two lines of space, then the questions one after the
      other, each from where the previous one left the cursor. */
  function DocumentUpTo(m: Metrics, s: Simulado, n: nat, withAnswers: bool): Layout
    requires n <= |s.questions|
  {
    if n == 0 then
      var title := PlaceOne(m, TopMargin, TitleItem(s.level));
      Layout(title.events, title.cursor + LineHeight * 2.0)
    else
      var before := DocumentUpTo(m, s, n - 1, withAnswers);
      var last := QuestionLayout(m, before.cursor, s.questions[n - 1], withAnswers);
      Layout(before.events + last.events, last.cursor)
  }

  /** The whole document. */
  function DocumentLayout(m: Metrics, s: Simulado, withAnswers: bool): seq<Event>
  {
    DocumentUpTo(m, s, |s.questions|, withAnswers).events
  }

  /** Placing items writes exactly those items, in order. */
  lemma {:induction false} PlaceAllTexts(m: Metrics, y: real, items: seq<TextItem>)
    ensures Texts(PlaceAll(m, y, items).events) == items
    decreases |items|
  {
    if items != [] {
      var n := |items| - 1;
      var before := PlaceAll(m, y, items[..n]);
      var last := PlaceOne(m, before.cursor, items[n]);
      assert PlaceAll(m, y, items).events == before.events + last.events;
      assert Texts(before.events) == items[..n] by {
        PlaceAllTexts(m, y, items[..n]);
      }
      assert Texts(last.events) == [items[n]] by {
        PlaceOneTexts(m, before.cursor, items[n]);
      }
      TextsAppend(before.events, last.events);
      assert items[..n] + [items[n]] == items;
    }
  }

  /** A question's block writes exactly the question's items. */
  lemma BlockLayoutTexts(m: Metrics, y: real, q: Question, withAnswers: bool)
    ensures Texts(BlockLayout(m, y, q, withAnswers).events) == QuestionItems(q, withAnswers)
  {
    var headerItem := TextItem(HeaderText(q), LeftAt(0.0), Normal);
    var header := PlaceOne(m, y, headerItem);
    var options := PlaceAll(m, header.cursor + LineHeight * 0.5, OptionItems(q.options));
    var key := KeyLayout(m, options.cursor, q, withAnswers);
    assert BlockLayout(m, y, q, withAnswers).events == header.events + options.events + key.events;
    assert Texts(header.events) == [headerItem] by {
      PlaceOneTexts(m, y, headerItem);
    }
    assert Texts(options.events) == OptionItems(q.options) by {
      PlaceAllTexts(m, header.cursor + LineHeight * 0.5, OptionItems(q.options));
    }
    assert Texts(key.events) == (if withAnswers then AnswerItems(q) else []) by {
      if withAnswers {
        PlaceAllTexts(m, options.cursor + LineHeight * 1.5, AnswerItems(q));
      }
    }
    TextsAppend(header.events, options.events);
    TextsAppend(header.events + options.events, key.events);
  }

  /** A question's layout writes exactly the question's items. */
  lemma QuestionLayoutTexts(m: Metrics, y: real, q: Question, withAnswers: bool)
    ensures Texts(QuestionLayout(m, y, q, withAnswers).events) == QuestionItems(q, withAnswers)
  {
    var breaks := y + LineHeight + BlockEstimate(q, withAnswers) > Limit(m);
    var block := BlockLayout(m, if breaks then TopMargin else y + LineHeight, q, withAnswers);
    var pre: seq<Event> := if breaks then [NewPage] else [];
    assert Texts(pre) == [] by {
      if breaks {
        TextsSnoc([], NewPage);
      }
    }
    BlockLayoutTexts(m, if breaks then TopMargin else y + LineHeight, q, withAnswers);
    TextsAppend(pre, block.events);
  }

  lemma PlaceOneTexts(m: Metrics, y: real, item: TextItem)
    ensures Texts(PlaceOne(m, y, item).events) == [item]
  {
    var h := Height(m, item);
    if y + h > Limit(m) {
      TextsSnoc([], NewPage);
      TextsSnoc([NewPage], Put(item, TopMargin, h));
    } else {
      TextsSnoc([], Put(item, y, h));
    }
  }

  /** The document up to `n` questions writes exactly the title, then the
      blocks of the first `n` questions. */
  lemma DocumentUpToTexts(m: Metrics, s: Simulado, n: nat, withAnswers: bool)
    requires n <= |s.questions|
    ensures Texts(DocumentUpTo(m, s, n, withAnswers).events)
         == [TitleItem(s.level)] + Flatten(QuestionBlocks(s.questions, withAnswers)[..n])
  {
    var blocks := QuestionBlocks(s.questions, withAnswers);
    PlaceOneTexts(m, TopMargin, TitleItem(s.level));
    assert blocks[..0] == [];
    for i := 0 to n
      invariant Texts(DocumentUpTo(m, s, i, withAnswers).events) == [TitleItem(s.level)] + Flatten(blocks[..i])
    {
      var before := DocumentUpTo(m, s, i, withAnswers);
      var last := QuestionLayout(m, before.cursor, s.questions[i], withAnswers);
      DocumentUpToStep(m, s, i + 1, withAnswers, before, last);
      QuestionLayoutTexts(m, before.cursor, s.questions[i], withAnswers);
      TextsBlockStep(before.events, last.events, [TitleItem(s.level)], blocks, i + 1);
    }
  }

  /** Appending the events of block `n - 1` to those of the blocks before it
      appends that block's items. */
  lemma TextsBlockStep(before: seq<Event>, last: seq<Event>, head: seq<TextItem>,
                          blocks: seq<seq<TextItem>>, n: nat)
    requires 0 < n <= |blocks|
    requires Texts(before) == head + Flatten(blocks[..n - 1])
    requires Texts(last) == blocks[n - 1]
    ensures Texts(before + last) == head + Flatten(blocks[..n])
  {
    TextsAppend(before, last);
    FlattenSnoc(blocks, n - 1);
    AppendAssoc(head, Flatten(blocks[..n - 1]), blocks[n - 1]);
  }

  /** One more question appends its layout from where the others left the
      cursor. */
  lemma DocumentUpToStep(m: Metrics, s: Simulado, n: nat, withAnswers: bool, before: Layout, last: Layout)
    requires 0 < n <= |s.questions|
    requires before == DocumentUpTo(m, s, n - 1, withAnswers)
    requires last == QuestionLayout(m, before.cursor, s.questions[n - 1], withAnswers)
    ensures DocumentUpTo(m, s, n, withAnswers) == Layout(before.events + last.events, last.cursor)
  {
  }

  /** The document writes exactly the exam's items: the title, then each
      question's block in exam order. */
  lemma DocumentLayoutTexts(m: Metrics, s: Simulado, withAnswers: bool)
    ensures Texts(DocumentLayout(m, s, withAnswers)) == Items(s, withAnswers)
  {
    DocumentUpToTexts(m, s, |s.questions|, withAnswers);
    var blocks := QuestionBlocks(s.questions, withAnswers);
    assert blocks[..|blocks|] == blocks;
  }

  /** The page check before a question: a new page comes first exactly when
      the estimated block, or failing that the question line itself, would
      cross the bottom limit after the line of space; otherwise the question
      line is written right there. */
  lemma QuestionLayoutBreak(m: Metrics, y: real, q: Question, withAnswers: bool)
    ensures var events := QuestionLayout(m, y, q, withAnswers).events;
      var header := TextItem(HeaderText(q), LeftAt(0.0), Normal);
      var h := Height(m, header);
      var breaks := y + LineHeight + BlockEstimate(q, withAnswers) > Limit(m);
      && |events| >= 1
      && (events[0] == NewPage <==> breaks || y + LineHeight + h > Limit(m))
      && (!breaks && y + LineHeight + h <= Limit(m) ==> events[0] == Put(header, y + LineHeight, h))
      && (breaks && TopMargin + h <= Limit(m) ==> |events| >= 2 && events[1] == Put(header, TopMargin, h))
  {
  }

  // ---------------------------------------------------------------------------
  // The cursor and the document
  // ---------------------------------------------------------------------------

  /** The document under construction and the vertical cursor `y`. */
  class PdfWriter {
    const metrics: Metrics
    var y: real
    var events: seq<Event>

    ghost predicate Valid()
      reads this
    {
      && TopMargin <= y
      && WellPlaced(events, metrics)
    }

    /** A new document: the cursor at the top margin. */
    constructor (m: Metrics)
      ensures Valid() && metrics == m && y == TopMargin && events == []
    {
      metrics := m;
      y := TopMargin;
      events := [];
    }

    /** The cursor logic shared by `addText` and `addCenteredText`: start a new
        page when the text would cross the bottom limit, write it, move down. */
    method Place(item: TextItem)
      requires Valid()
      modifies this
      ensures Valid()
      ensures var h := Height(metrics, item);
        if old(y) + h > Limit(metrics) then
          events == old(events) + [NewPage, Put(item, TopMargin, h)] && y == TopMargin + h
        else
          events == old(events) + [Put(item, old(y), h)] && y == old(y) + h
    {
      var h := Height(metrics, item);
      if y + h > Limit(metrics) {
        events := events + [NewPage];
        y := TopMargin;
      }
      events := events + [Put(item, y, h)];
      y := y + h;
    }

    /** `addText`: a left-aligned text at `indent` from the left margin,
        wrapped in the bold font when `isBold`. */
    method AddText(text: string, indent: real, isBold: bool)
      requires Valid()
      modifies this
      ensures Valid()
      ensures var item := TextItem(text, LeftAt(indent), if isBold then Bold else Normal);
        var h := Height(metrics, item);
        if old(y) + h > Limit(metrics) then
          events == old(events) + [NewPage, Put(item, TopMargin, h)] && y == TopMargin + h
        else
          events == old(events) + [Put(item, old(y), h)] && y == old(y) + h
    {
      Place(TextItem(text, LeftAt(indent), if isBold then Bold else Normal));
    }

    /** `addCenteredText`: a centred text, in the title font when `isTitle`. */
    method AddCenteredText(text: string, isTitle: bool)
      requires Valid()
      modifies this
      ensures Valid()
      ensures var item := TextItem(text, Centered, if isTitle then Title else Normal);
        var h := Height(metrics, item);
        if old(y) + h > Limit(metrics) then
          events == old(events) + [NewPage, Put(item, TopMargin, h)] && y == TopMargin + h
        else
          events == old(events) + [Put(item, old(y), h)] && y == old(y) + h
    {
      Place(TextItem(text, Centered, if isTitle then Title else Normal));
    }

    /** A spacing step: the cursor moves down without a page check. */
    method Skip(d: real)
      requires Valid() && d >= 0.0
      modifies this
      ensures Valid() && events == old(events) && y == old(y) + d
    {
      y := y + d;
    }

    /** The check before a question: when its estimated block would cross the
        bottom limit, start a new page at the top margin. */
    method BreakBefore(estimate: real)
      requires Valid()
      modifies this
      ensures Valid()
      ensures if old(y) + estimate > Limit(metrics) then
          events == old(events) + [NewPage] && y == TopMargin
        else
          events == old(events) && y == old(y)
    {
      if y + estimate > Limit(metrics) {
        events := events + [NewPage];
        y := TopMargin;
      }
    }
  }

  /** The options of a question, one left-aligned line each at indent 5, in
      list order. */
  method RenderOptions(pdf: PdfWriter, options: seq<string>)
    requires pdf.Valid()
    modifies pdf
    ensures pdf.Valid()
    ensures var placed := PlaceAll(pdf.metrics, old(pdf.y), OptionItems(options));
      pdf.events == old(pdf.events) + placed.events && pdf.y == placed.cursor
  {
    ghost var events0 := pdf.events;
    ghost var y0 := pdf.y;
    ghost var m := pdf.metrics;
    for i := 0 to |options|
      invariant pdf.Valid() && pdf.metrics == m
      invariant pdf.events == events0 + PlaceAll(m, y0, OptionItems(options[..i])).events
      invariant pdf.y == PlaceAll(m, y0, OptionItems(options[..i])).cursor
    {
      ghost var done := PlaceAll(m, y0, OptionItems(options[..i]));
      var text := OptionText(i, options[i]);
      ghost var item := TextItem(text, LeftAt(5.0), Normal);
      ghost var step := PlaceOne(m, done.cursor, item);
      pdf.AddText(text, 5.0, false);
      assert pdf.events == (events0 + done.events) + step.events && pdf.y == step.cursor;
      OptionItemsSnoc(options, i);
      PlaceAllSnoc(m, y0, OptionItems(options[..i]), item);
      AppendAssoc(events0, done.events, step.events);
    }
    assert options[..|options|] == options;
  }

  /** The answer key of a question: the correct answer and the "Explicação:"
      heading in bold, then the explanation. */
  method RenderAnswer(pdf: PdfWriter, q: Question)
    requires pdf.Valid()
    modifies pdf
    ensures pdf.Valid()
    ensures var placed := PlaceAll(pdf.metrics, old(pdf.y), AnswerItems(q));
      pdf.events == old(pdf.events) + placed.events && pdf.y == placed.cursor
  {
    ghost var events0 := pdf.events;
    ghost var y0 := pdf.y;
    var key := AnswerItems(q);
    ghost var p1 := PlaceOne(pdf.metrics, y0, key[0]);
    pdf.AddText("Resposta Correta: " + q.answer, 0.0, true);
    assert pdf.events == events0 + p1.events && pdf.y == p1.cursor;
    ghost var p2 := PlaceOne(pdf.metrics, p1.cursor, key[1]);
    pdf.AddText("Explicação:", 0.0, true);
    assert pdf.events == events0 + p1.events + p2.events && pdf.y == p2.cursor;
    ghost var p3 := PlaceOne(pdf.metrics, p2.cursor, key[2]);
    pdf.AddText(q.explanation, 0.0, false);
    assert pdf.events == events0 + p1.events + p2.events + p3.events && pdf.y == p3.cursor;
    assert PlaceAll(pdf.metrics, y0, key) == Layout(p1.events + p2.events + p3.events, p3.cursor) by {
      PlaceThree(pdf.metrics, y0, key[0], key[1], key[2]);
      assert [key[0], key[1], key[2]] == key;
    }
    Assoc4(events0, p1.events, p2.events, p3.events);
  }

  /** A question's block: the question line, the options and, when
      `withAnswers`, the answer key. */
  method RenderBlock(pdf: PdfWriter, q: Question, withAnswers: bool)
    requires pdf.Valid()
    modifies pdf
    ensures pdf.Valid()
    ensures var laid := BlockLayout(pdf.metrics, old(pdf.y), q, withAnswers);
      pdf.events == old(pdf.events) + laid.events && pdf.y == laid.cursor
  {
    ghost var e0 := pdf.events;
    ghost var y0 := pdf.y;
    ghost var m := pdf.metrics;
    var header := HeaderText(q);
    ghost var placed := PlaceOne(m, y0, TextItem(header, LeftAt(0.0), Normal));
    pdf.AddText(header, 0.0, false);
    assert pdf.events == e0 + placed.events && pdf.y == placed.cursor;
    pdf.Skip(LineHeight * 0.5);
    ghost var options := PlaceAll(m, placed.cursor + LineHeight * 0.5, OptionItems(q.options));
    RenderOptions(pdf, q.options);
    assert pdf.events == (e0 + placed.events) + options.events && pdf.y == options.cursor;
    ghost var key := KeyLayout(m, options.cursor, q, withAnswers);
    RenderKey(pdf, q, withAnswers);
    assert pdf.events == ((e0 + placed.events) + options.events) + key.events && pdf.y == key.cursor;
    BlockLayoutParts(m, y0, q, withAnswers, placed, options, key);
    assert pdf.events == e0 + (placed.events + options.events + key.events) by {
      AppendAssoc(e0, placed.events, options.events);
      AppendAssoc(e0, placed.events + options.events, key.events);
    }
  }

  /** With `withAnswers`, a line and a half of space and the answer key;
      otherwise nothing. */
  method RenderKey(pdf: PdfWriter, q: Question, withAnswers: bool)
    requires pdf.Valid()
    modifies pdf
    ensures pdf.Valid()
    ensures var key := KeyLayout(pdf.metrics, old(pdf.y), q, withAnswers);
      pdf.events == old(pdf.events) + key.events && pdf.y == key.cursor
  {
    if withAnswers {
      pdf.Skip(LineHeight * 1.5);
      RenderAnswer(pdf, q);
    } else {
      assert pdf.events == pdf.events + [];
    }
  }

  /** `BlockLayout` assembled from its parts. */
  lemma BlockLayoutParts(m: Metrics, y: real, q: Question, withAnswers: bool,
                         header: Layout, options: Layout, key: Layout)
    requires header == PlaceOne(m, y, TextItem(HeaderText(q), LeftAt(0.0), Normal))
    requires options == PlaceAll(m, header.cursor + LineHeight * 0.5, OptionItems(q.options))
    requires key == KeyLayout(m, options.cursor, q, withAnswers)
    ensures BlockLayout(m, y, q, withAnswers) == Layout(header.events + options.events + key.events, key.cursor)
  {
  }

  /** One pass of the loop over the questions: a line of space, the page
      check on the estimated block height, then the question's block. */
  method RenderQuestion(pdf: PdfWriter, q: Question, withAnswers: bool)
    requires pdf.Valid()
    modifies pdf
    ensures pdf.Valid()
    ensures var laid := QuestionLayout(pdf.metrics, old(pdf.y), q, withAnswers);
      pdf.events == old(pdf.events) + laid.events && pdf.y == laid.cursor
  {
    ghost var e0 := pdf.events;
    pdf.Skip(LineHeight);
    pdf.BreakBefore(BlockEstimate(q, withAnswers));
    ghost var pre := pdf.events[|e0|..];
    assert pdf.events == e0 + pre;
    ghost var block := BlockLayout(pdf.metrics, pdf.y, q, withAnswers);
    RenderBlock(pdf, q, withAnswers);
    AppendAssoc(e0, pre, block.events);
  }

  /** One more option adds its line at the end. */
  lemma OptionItemsSnoc(options: seq<string>, i: nat)
    requires i < |options|
    ensures OptionItems(options[..i + 1]) == OptionItems(options[..i]) + [TextItem(OptionText(i, options[i]), LeftAt(5.0), Normal)]
  {
    assert options[..i + 1][..i] == options[..i];
  }

  /** Placing one more item appends what placing it alone issues, from the
      cursor the others left. */
  lemma PlaceAllSnoc(m: Metrics, y: real, items: seq<TextItem>, item: TextItem)
    ensures var before := PlaceAll(m, y, items);
      var last := PlaceOne(m, before.cursor, item);
      PlaceAll(m, y, items + [item]) == Layout(before.events + last.events, last.cursor)
  {
    assert (items + [item])[..|items|] == items;
  }

  lemma PlaceThree(m: Metrics, y: real, a: TextItem, b: TextItem, c: TextItem)
    ensures var p1 := PlaceOne(m, y, a);
      var p2 := PlaceOne(m, p1.cursor, b);
      var p3 := PlaceOne(m, p2.cursor, c);
      PlaceAll(m, y, [a, b, c]) == Layout(p1.events + p2.events + p3.events, p3.cursor)
  {
    var p1 := PlaceOne(m, y, a);
    var p2 := PlaceOne(m, p1.cursor, b);
    assert PlaceAll(m, y, []) == Layout([], y);
    PlaceAllSnoc(m, y, [], a);
    assert [] + [a] == [a] && [] + p1.events == p1.events;
    PlaceAllSnoc(m, y, [a], b);
    assert [a] + [b] == [a, b];
    assert PlaceAll(m, y, [a, b]) == Layout(p1.events + p2.events, p2.cursor);
    PlaceAllSnoc(m, y, [a, b], c);
    assert [a, b] + [c] == [a, b, c];
  }

  lemma AppendAssoc<T>(a: seq<T>, b: seq<T>, c: seq<T>)
    ensures (a + b) + c == a + (b + c)
  {
  }

  lemma Assoc4<T>(a: seq<T>, b: seq<T>, c: seq<T>, d: seq<T>)
    ensures a + b + c + d == a + (b + c + d)
  {
  }

  /** The layout part of `handleDownloadPdf`: writes the title, then each
      question with its options and, when `withAnswers`, its answer key. */
  method RenderPdf(s: Simulado, withAnswers: bool, m: Metrics) returns (events: seq<Event>)
    ensures events == DocumentLayout(m, s, withAnswers)
    ensures Texts(events) == Items(s, withAnswers)
    ensures WellPlaced(events, m)
  {
    var pdf := new PdfWriter(m);
    var title := TitleItem(s.level);
    pdf.AddCenteredText(title.text, true);
    assert [] + PlaceOne(m, TopMargin, title).events == PlaceOne(m, TopMargin, title).events;
    pdf.Skip(LineHeight * 2.0);
    RenderQuestions(pdf, s, withAnswers);
    DocumentLayoutTexts(m, s, withAnswers);
    events := pdf.events;
  }

  /** The loop over the questions, from just below the title: each question's
      layout follows the one before, so the document ends as `DocumentLayout`. */
  method RenderQuestions(pdf: PdfWriter, s: Simulado, withAnswers: bool)
    requires pdf.Valid()
    requires pdf.events == DocumentUpTo(pdf.metrics, s, 0, withAnswers).events
    requires pdf.y == DocumentUpTo(pdf.metrics, s, 0, withAnswers).cursor
    modifies pdf
    ensures pdf.Valid()
    ensures pdf.events == DocumentLayout(pdf.metrics, s, withAnswers)
    ensures pdf.y == DocumentUpTo(pdf.metrics, s, |s.questions|, withAnswers).cursor
  {
    ghost var m := pdf.metrics;
    for i := 0 to |s.questions|
      invariant pdf.Valid() && pdf.metrics == m
      invariant pdf.events == DocumentUpTo(m, s, i, withAnswers).events
      invariant pdf.y == DocumentUpTo(m, s, i, withAnswers).cursor
    {
      ghost var before := DocumentUpTo(m, s, i, withAnswers);
      ghost var last := QuestionLayout(m, before.cursor, s.questions[i], withAnswers);
      RenderQuestion(pdf, s.questions[i], withAnswers);
      DocumentUpToStep(m, s, i + 1, withAnswers, before, last);
    }
    ghost var whole := DocumentUpTo(m, s, |s.questions|, withAnswers);
    assert pdf.events == whole.events && pdf.y == whole.cursor;
  }

  // ---------------------------------------------------------------------------
  // The export action
  // ---------------------------------------------------------------------------

  /** A file handed to the browser: its name and the document written. */
  datatype SavedPdf = SavedPdf(fileName: string, events: seq<Event>)

  /** The exam view's export state: the busy flag and the files saved so far. */
  class ExamView {
    const simulado: Simulado
    var isDownloading: bool
    var saved: seq<SavedPdf>

    constructor (s: Simulado)
      ensures simulado == s && !isDownloading && saved == []
    {
      simulado := s;
      isDownloading := false;
      saved := [];
    }

    /** `handleDownloadPdf`: ignored when the busy flag is up; otherwise
        the flag is raised, the document is laid out and saved under its
        file name, and the flag is lowered again whether the engine succeeded
        or threw (`engineFails`), in which case nothing is saved. The handler
        never waits, so the flag is down again whenever it returns: starting
        from the constructor it is never up when the handler is entered. */
    method HandleDownloadPdf(withAnswers: bool, m: Metrics, engineFails: bool)
      modifies this
      ensures old(isDownloading) ==> isDownloading && saved == old(saved)
      ensures !old(isDownloading) ==> !isDownloading
      ensures !old(isDownloading) && engineFails ==> saved == old(saved)
      ensures !old(isDownloading) && !engineFails ==>
        && |saved| == |old(saved)| + 1
        && saved[..|old(saved)|] == old(saved)
        && saved[|old(saved)|].fileName == FileName(simulado.level, withAnswers)
        && saved[|old(saved)|].events == DocumentLayout(m, simulado, withAnswers)
        && Texts(saved[|old(saved)|].events) == Items(simulado, withAnswers)
        && WellPlaced(saved[|old(saved)|].events, m)
    {
      if isDownloading {
        return;
      }
      isDownloading := true;
      if !engineFails {
        var events := RenderPdf(simulado, withAnswers, m);
        var file := SavedPdf(FileName(simulado.level, withAnswers), events);
        ghost var before := saved;
        saved := saved + [file];
        assert saved[..|before|] == before && saved[|before|] == file;
      }
      isDownloading := false;
    }
  }
}
