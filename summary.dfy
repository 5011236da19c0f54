/**
 * The summary screen: the four answer cards, the report fetched from the
 * report service, its line-by-line rendering, and the 28-day log.
 */
module Summary {
  import opened Wrappers
  import opened JsBuiltins
  import opened Types

  /** What one line of the report renders as. */
  datatype Block =
    | Heading1(text: string)
    | Heading2(text: string)
    | Heading3(text: string)
    | TableLine(line: string)
    | Blank
    | Paragraph(line: string)

  /** The prefix rules, first match wins: `# `, `## `, `### ` on the raw line
    * (the marker is sliced off), then a trimmed line starting with `|`
    * (kept verbatim), then a whitespace-only line, then a paragraph. A line
    * is a heading exactly when it starts with one of the three markers, and
    * table and paragraph blocks hold the line verbatim. */
  function ClassifyLine(line: string): (r: Block)
    ensures r.Heading1? || r.Heading2? || r.Heading3? <==> IsHeading(line)
    ensures r.TableLine? || r.Paragraph? ==> r.line == line
  {
    if StartsWith(line, "# ") then Heading1(line[2..])
    else if StartsWith(line, "## ") then Heading2(line[3..])
    else if StartsWith(line, "### ") then Heading3(line[4..])
    else if StartsWith(Trim(line), "|") then TableLine(line)
    else if Trim(line) == "" then Blank
    else Paragraph(line)
  }

  /** The line a block is written as (a blank block as the empty line). */
  function Markdown(b: Block): string {
    match b
    case Heading1(t) => "# " + t
    case Heading2(t) => "## " + t
    case Heading3(t) => "### " + t
    case TableLine(l) => l
    case Blank => ""
    case Paragraph(l) => l
  }

  predicate IsHeading(line: string) {
    StartsWith(line, "# ") || StartsWith(line, "## ") || StartsWith(line, "### ")
  }

  /** A line that does not begin with `#` is not a heading. */
  lemma NotHeading(line: string)
    requires line == [] || line[0] != '#'
    ensures !IsHeading(line)
  {
    if line != [] {
      if |line| >= 2 {
        assert line[..2][0] == line[0];
      }
      if |line| >= 3 {
        assert line[..3][0] == line[0];
      }
      if |line| >= 4 {
        assert line[..4][0] == line[0];
      }
    }
  }

  /** Each heading marker selects its own level, whatever follows it. */
  lemma HeadingMarkers(t: string)
    ensures ClassifyLine("# " + t) == Heading1(t)
    ensures ClassifyLine("## " + t) == Heading2(t)
    ensures ClassifyLine("### " + t) == Heading3(t)
  {
    assert ("# " + t)[..2] == "# ";
    assert ("# " + t)[2..] == t;
    assert ("## " + t)[1] == '#';
    assert ("## " + t)[..3] == "## ";
    assert ("## " + t)[3..] == t;
    assert ("### " + t)[1] == '#' && ("### " + t)[2] == '#';
    assert ("### " + t)[..4] == "### ";
    assert ("### " + t)[4..] == t;
  }

  /** Every block except a blank one keeps the whole line: writing the block
    * back (marker plus text, or the verbatim line) gives the line; a blank
    * block comes only from a whitespace-only line. */
  lemma ClassifyLineLossless(line: string)
    ensures ClassifyLine(line) != Blank ==> Markdown(ClassifyLine(line)) == line
    ensures ClassifyLine(line) == Blank <==> !IsHeading(line) && AllWhitespace(line)
  {
    var b := ClassifyLine(line);
    if StartsWith(line, "# ") {
      assert b == Heading1(line[2..]);
      assert line == line[..2] + line[2..];
    } else if StartsWith(line, "## ") {
      assert b == Heading2(line[3..]);
      assert line == line[..3] + line[3..];
    } else if StartsWith(line, "### ") {
      assert b == Heading3(line[4..]);
      assert line == line[..4] + line[4..];
    } else {
      TrimEmptyIff(line);
    }
  }

  /** A non-heading line is a table line exactly when its first
    * non-whitespace character is `|`. */
  lemma TableLineIff(line: string)
    requires !IsHeading(line)
    ensures ClassifyLine(line).TableLine? <==> TrimStart(line) != [] && TrimStart(line)[0] == '|'
  {
    TrimHead(line);
    StartsWithChar(Trim(line), '|');
  }

  /** Classifying is stable: the written-back form of a block classifies as
    * the same block. */
  lemma ClassifyMarkdownStable(line: string)
    ensures ClassifyLine(Markdown(ClassifyLine(line))) == ClassifyLine(line)
  {
    ClassifyLineLossless(line);
    var b := ClassifyLine(line);
    if b == Blank {
      assert Markdown(b) == "";
      assert Trim("") == "";
    }
  }

  /** `report.split('\n').map(...)`: one block per line, in order. */
  function Classify(report: string): (r: seq<Block>)
    ensures |r| == Count(report, '\n') + 1
  {
    Map(ClassifyLine, SplitLines(report))
  }

  /** Order is preserved: the blocks of two texts joined by a newline are the
    * blocks of the first followed by the blocks of the second. */
  lemma ClassifyAround(a: string, b: string)
    ensures Classify(a + "\n" + b) == Classify(a) + Classify(b)
  {
    SplitAround(a, b);
    MapAppend(ClassifyLine, SplitLines(a), SplitLines(b));
  }

  /** A text without newlines is a single block. */
  lemma ClassifyOneLine(line: string)
    requires '\n' !in line
    ensures Classify(line) == [ClassifyLine(line)]
  {
    SplitSingleLine(line);
  }

  /** An empty report renders as a single blank block. */
  lemma ClassifyEmpty()
    ensures Classify("") == [Blank]
  {
    assert SplitLines("") == [""];
    assert Trim("") == "";
  }

  /** A line that is not a heading and whose first non-whitespace character
    * is not `|` is a paragraph. */
  lemma ParagraphLine(line: string)
    requires !IsHeading(line)
    requires TrimStart(line) != [] && TrimStart(line)[0] != '|'
    ensures ClassifyLine(line) == Paragraph(line)
  {
    TableLineIff(line);
    TrimHead(line);
  }

  /** A single heading line is a single heading block. */
  lemma HeadingOneLine(t: string)
    requires '\n' !in t
    ensures Classify("# " + t) == [Heading1(t)]
  {
    ClassifyOneLine("# " + t);
    HeadingMarkers(t);
  }

  /** A single line that starts with neither `#` nor whitespace nor `|` is a
    * single paragraph block. */
  lemma ParagraphOneLine(line: string)
    requires '\n' !in line && line != []
    requires line[0] != '#' && line[0] != '|' && !IsWhitespace(line[0])
    ensures Classify(line) == [Paragraph(line)]
  {
    ClassifyOneLine(line);
    NotHeading(line);
    ParagraphLine(line);
  }

  /** A single line that starts with `|` is a single table block. */
  lemma TableOneLine(line: string)
    requires '\n' !in line && line != [] && line[0] == '|'
    ensures Classify(line) == [TableLine(line)]
  {
    ClassifyOneLine(line);
    NotHeading(line);
    TableLineIff(line);
  }

  /** A one-block line followed by more text: its block comes first. */
  lemma ClassifyCons(line: string, rest: string, b: Block, bs: seq<Block>)
    requires Classify(line) == [b] && Classify(rest) == bs
    ensures Classify(line + "\n" + rest) == [b] + bs
  {
    ClassifyAround(line, rest);
  }

  /** A paragraph line and a table line. */
  lemma TwoLineBlocks(body: string, row: string)
    requires '\n' !in body && body != [] && body[0] != '#' && body[0] != '|' && !IsWhitespace(body[0])
    requires '\n' !in row && row != [] && row[0] == '|'
    ensures Classify(body + "\n" + row) == [Paragraph(body), TableLine(row)]
  {
    TableOneLine(row);
    ParagraphOneLine(body);
    ClassifyCons(body, row, Paragraph(body), [TableLine(row)]);
  }

  /** An empty line before more text adds one blank block in front. */
  lemma BlankThen(rest: string, bs: seq<Block>)
    requires Classify(rest) == bs
    ensures Classify("" + "\n" + rest) == [Blank] + bs
  {
    ClassifyEmpty();
    ClassifyCons("", rest, Blank, bs);
  }

  /** A level-1 heading line before more text adds its heading block in front. */
  lemma HeadingThen(title: string, rest: string, bs: seq<Block>)
    requires '\n' !in title && Classify(rest) == bs
    ensures Classify(("# " + title) + "\n" + rest) == [Heading1(title)] + bs
  {
    HeadingOneLine(title);
    ClassifyCons("# " + title, rest, Heading1(title), bs);
  }

  /** An empty line, a paragraph line and a table line. */
  lemma ThreeLineBlocks(body: string, row: string)
    requires '\n' !in body && body != [] && body[0] != '#' && body[0] != '|' && !IsWhitespace(body[0])
    requires '\n' !in row && row != [] && row[0] == '|'
    ensures Classify("" + "\n" + (body + "\n" + row)) == [Blank, Paragraph(body), TableLine(row)]
  {
    TwoLineBlocks(body, row);
    BlankThen(body + "\n" + row, [Paragraph(body), TableLine(row)]);
    assert [Blank] + [Paragraph(body), TableLine(row)] == [Blank, Paragraph(body), TableLine(row)];
  }

  /** A heading line, an empty line, a paragraph line and a table line. */
  lemma FourLineBlocks(title: string, body: string, row: string)
    requires '\n' !in title
    requires '\n' !in body && body != [] && body[0] != '#' && body[0] != '|' && !IsWhitespace(body[0])
    requires '\n' !in row && row != [] && row[0] == '|'
    ensures Classify(("# " + title) + "\n" + ("" + "\n" + (body + "\n" + row)))
         == [Heading1(title), Blank, Paragraph(body), TableLine(row)]
  {
    var bs := [Blank, Paragraph(body), TableLine(row)];
    ThreeLineBlocks(body, row);
    HeadingThen(title, "" + "\n" + (body + "\n" + row), bs);
    assert [Heading1(title)] + bs == [Heading1(title), Blank, Paragraph(body), TableLine(row)];
  }

  /** A report with a heading, a blank line, a paragraph and a table row.
    * The text comes in as a parameter fixed by the precondition, and the
    * blocks are built line by line by the lemmas above: stated directly on
    * the string literal, the proof makes the verifier unfold the literal
    * character by character and grows far beyond its resource limit. */
  lemma ClassifyExample(report: string)
    requires report == "# Title\n\nBody text\n| a | b |"
    ensures Classify(report)
         == [Heading1("Title"), Blank, Paragraph("Body text"), TableLine("| a | b |")]
  {
    FourLineBlocks("Title", "Body text", "| a | b |");
    ExampleText();
  }

  /** The example report, written as its four lines joined by newlines. */
  lemma ExampleText()
    ensures ("# " + "Title") + "\n" + ("" + "\n" + ("Body text" + "\n" + "| a | b |"))
         == "# Title\n\nBody text\n| a | b |"
  {
  }

  /** `如果 ${obstacle}，那么 ${plan}`: the If-Then card. */
  function PlanCard(d: WoopData): (r: string)
    ensures StartsWith(r, "如果 " + d.obstacle)
    ensures |r| == |d.obstacle| + |d.plan| + 7
    ensures r[|r| - |d.plan|..] == d.plan
  {
    "如果 " + d.obstacle + "，那么 " + d.plan
  }

  /** Reading the If-Then card back: with the obstacle known, the card
    * determines the plan. */
  lemma PlanCardDeterminesPlan(d: WoopData, e: WoopData)
    requires d.obstacle == e.obstacle && PlanCard(d) == PlanCard(e)
    ensures d.plan == e.plan
  {
    var r := PlanCard(d);
    assert d.plan == r[|r| - |d.plan|..];
  }

  datatype Card = Card(title: string, value: string)

  /** The four summary cards, in the order wish, outcome, obstacle, If-Then plan. */
  function Cards(d: WoopData): (r: seq<Card>)
    ensures |r| == 4
    ensures r[0].value == d.wish && r[1].value == d.outcome && r[2].value == d.obstacle
    ensures r[3].value == PlanCard(d)
  {
    [ Card("W - Wish (愿望)", d.wish),
      Card("O - Outcome (结果)", d.outcome),
      Card("O - Obstacle (障碍)", d.obstacle),
      Card("P - Plan (If-Then)", PlanCard(d)) ]
  }

  const LogDays: nat := 28

  /** `DAY ${i + 1}` */
  function DayLabel(i: nat): string {
    "DAY " + Decimal(i + 1)
  }

  /** The labels of the execution log: `Array.from({ length: 28 })`, cell `i`
    * labelled with day `i + 1`. */
  function LogLabels(): (r: seq<string>)
    ensures |r| == LogDays
  {
    seq(LogDays, i requires 0 <= i < LogDays => DayLabel(i))
  }

  /** The log runs from `DAY 1` to `DAY 28`, and every cell's label names a
    * different day: cell `i` reads back as day `i + 1`. */
  lemma LogLabelsDays()
    ensures LogLabels()[0] == "DAY 1" && LogLabels()[LogDays - 1] == "DAY 28"
    ensures forall i :: 0 <= i < LogDays ==>
      StartsWith(LogLabels()[i], "DAY ") && ParseDecimal(LogLabels()[i][4..]) == i + 1
  {
    assert Decimal(1) == "1";
    assert Decimal(28) == Decimal(2) + "8";
    forall i | 0 <= i < LogDays
      ensures StartsWith(LogLabels()[i], "DAY ") && ParseDecimal(LogLabels()[i][4..]) == i + 1
    {
      assert LogLabels()[i][4..] == Decimal(i + 1);
      ParseDecimalOfDecimal(i + 1);
    }
  }

  /** The summary screen's state: the report text and the loading flag. The
    * answers it was mounted with are fixed. */
  class SummaryView {
    const data: WoopData
    var report: string
    var isLoading: bool

    /** Mounting: empty report, loading; the report service is then called
      * with `data`. */
    constructor (d: WoopData)
      ensures data == d && report == "" && isLoading
    {
      data := d;
      report := "";
      isLoading := true;
    }

    /** The report service returned `res`: the report is the text, or `''`
      * when the text is empty or missing; loading ends. */
    method ReportArrived(res: Option<string>)
      requires isLoading
      modifies this
      ensures report == res.GetOr("")
      ensures !isLoading
    {
      report := if res.Some? && res.value != "" then res.value else "";
      isLoading := false;
    }

    /** The report service threw: the report stays as it was; loading ends. */
    method ReportFailed()
      requires isLoading
      modifies this
      ensures report == old(report)
      ensures !isLoading
    {
      isLoading := false;
    }

    /** The rendered report once loading has ended. */
    function Blocks(): (r: seq<Block>)
      reads this
      requires !isLoading
      ensures |r| >= 1
    {
      Classify(report)
    }
  }
}
