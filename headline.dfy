/**
 * The animated hero headline: every character of every line is revealed in
 * turn, and one counter, running on across spans and lines, gives each
 * character its place in the reveal order. The page turns that place into a
 * CSS delay of 0.05 s per step; the model keeps the integer place.
 */
module Headline {
  import opened AppData
  import Text

  /** One revealed character: the character, the class of its span, and its place in the reveal order. */
  datatype AnimatedChar = AnimatedChar(ch: char, cls: string, index: nat)

  /** The text of one line: its spans' texts, concatenated. */
  function LineText(line: seq<HeadlinePart>): string {
    if line == [] then [] else LineText(line[..|line| - 1]) + line[|line| - 1].text
  }

  /** The class each character of a line is painted with. */
  function LineClasses(line: seq<HeadlinePart>): seq<string> {
    if line == [] then []
    else
      var last := line[|line| - 1];
      LineClasses(line[..|line| - 1]) + seq(|last.text|, _ => last.cls)
  }

  /** The number of characters on the given lines. */
  function CharCount(lines: seq<seq<HeadlinePart>>): nat {
    if lines == [] then 0 else CharCount(lines[..|lines| - 1]) + |LineText(lines[|lines| - 1])|
  }

  /** The characters of one span, numbered on from start. */
  function AnimatePart(part: HeadlinePart, start: nat): (chars: seq<AnimatedChar>)
    ensures |chars| == |part.text|
  {
    seq(|part.text|, k requires 0 <= k < |part.text| => AnimatedChar(part.text[k], part.cls, start + k))
  }

  /** The characters of one line, numbered on from start. */
  function AnimateLine(line: seq<HeadlinePart>, start: nat): (row: seq<AnimatedChar>)
    ensures |row| == |LineText(line)|
  {
    if line == [] then []
    else
      var init := line[..|line| - 1];
      AnimateLine(init, start) + AnimatePart(line[|line| - 1], start + |LineText(init)|)
  }

  /** The animated headline: one row per line, the counter carried from each line to the next. */
  function Animate(lines: seq<seq<HeadlinePart>>): (rows: seq<seq<AnimatedChar>>)
    ensures |rows| == |lines|
  {
    if lines == [] then []
    else
      var init := lines[..|lines| - 1];
      Animate(init) + [AnimateLine(lines[|lines| - 1], CharCount(init))]
  }

  /** All rows, one after the other. */
  function Flatten(rows: seq<seq<AnimatedChar>>): seq<AnimatedChar> {
    if rows == [] then [] else Flatten(rows[..|rows| - 1]) + rows[|rows| - 1]
  }

  /** The plain characters of one animated row. */
  function RowText(row: seq<AnimatedChar>): string {
    Text.Map((c: AnimatedChar) => c.ch, row)
  }

  /** fullHeadlineText: the lines' texts joined by single spaces. */
  function FullHeadlineText(lines: seq<seq<HeadlinePart>>): (text: string)
    ensures |lines| >= 1 ==> |text| >= |LineText(lines[0])| + |lines| - 1
  {
    Text.Join(Text.Map(LineText, lines), ' ')
  }

  /**
   * A line yields exactly one entry per character of its text, in order,
   * each with its span's class, numbered start, start + 1, ... without gaps.
   */
  lemma {:induction false} AnimateLineAt(line: seq<HeadlinePart>, start: nat)
    ensures |AnimateLine(line, start)| == |LineText(line)| == |LineClasses(line)|
    ensures forall j :: 0 <= j < |LineText(line)| ==>
      AnimateLine(line, start)[j] == AnimatedChar(LineText(line)[j], LineClasses(line)[j], start + j)
  {
    if line != [] {
      var init, last := line[..|line| - 1], line[|line| - 1];
      AnimateLineAt(init, start);
      var row, text, classes := AnimateLine(line, start), LineText(line), LineClasses(line);
      var n := |LineText(init)|;
      forall j | 0 <= j < |text| ensures row[j] == AnimatedChar(text[j], classes[j], start + j) {
        if j >= n {
          assert row[j] == AnimatePart(last, start + n)[j - n];
          assert text[j] == last.text[j - n];
          assert classes[j] == last.cls;
        }
      }
    }
  }

  /** Line i of the animation is line i of the headline, numbered on from the characters of the lines above it. */
  lemma {:induction false} AnimateAt(lines: seq<seq<HeadlinePart>>)
    ensures |Animate(lines)| == |lines|
    ensures forall i :: 0 <= i < |lines| ==> Animate(lines)[i] == AnimateLine(lines[i], CharCount(lines[..i]))
  {
    if lines != [] {
      var init := lines[..|lines| - 1];
      AnimateAt(init);
      forall i | 0 <= i < |lines| ensures Animate(lines)[i] == AnimateLine(lines[i], CharCount(lines[..i])) {
        if i < |init| {
          assert init[..i] == lines[..i];
        } else {
          assert lines[..i] == init;
        }
      }
    }
  }

  /**
   * The reveal order has no gaps and no repeats: read line after line, the
   * characters carry the indices 0, 1, 2, ..., one per character of the
   * headline.
   */
  lemma {:induction false} RevealOrderIsGapless(lines: seq<seq<HeadlinePart>>)
    ensures |Flatten(Animate(lines))| == CharCount(lines)
    ensures forall k :: 0 <= k < CharCount(lines) ==> Flatten(Animate(lines))[k].index == k
  {
    if lines != [] {
      var init, last := lines[..|lines| - 1], lines[|lines| - 1];
      RevealOrderIsGapless(init);
      var before := CharCount(init);
      AnimateLineAt(last, before);
      var rows := Animate(lines);
      assert rows[..|rows| - 1] == Animate(init);
      var flat := Flatten(rows);
      assert flat == Flatten(Animate(init)) + AnimateLine(last, before);
      forall k | 0 <= k < CharCount(lines) ensures flat[k].index == k {
        if k >= before {
          assert flat[k] == AnimateLine(last, before)[k - before];
        }
      }
    }
  }

  /** Hence the delays strictly increase along the reveal order. */
  lemma RevealDelaysIncrease(lines: seq<seq<HeadlinePart>>)
    ensures forall a, b :: 0 <= a < b < |Flatten(Animate(lines))| ==>
      Flatten(Animate(lines))[a].index < Flatten(Animate(lines))[b].index
  {
    RevealOrderIsGapless(lines);
  }

  /** Read row by row and joined by spaces, the animated characters spell the headline's full text. */
  lemma AnimationSpellsFullText(lines: seq<seq<HeadlinePart>>)
    ensures |Animate(lines)| == |lines|
    ensures forall i :: 0 <= i < |lines| ==> RowText(Animate(lines)[i]) == LineText(lines[i])
    ensures Text.Join(Text.Map(RowText, Animate(lines)), ' ') == FullHeadlineText(lines)
  {
    AnimateAt(lines);
    var rows := Animate(lines);
    forall i | 0 <= i < |lines| ensures RowText(rows[i]) == LineText(lines[i]) {
      AnimateLineAt(lines[i], CharCount(lines[..i]));
    }
    assert Text.Map(RowText, rows) == Text.Map(LineText, lines);
  }

  /** Numbering one more character of a span extends the span's numbering by that character. */
  lemma AnimatePartStep(text: string, cls: string, start: nat, k: nat)
    requires k < |text|
    ensures AnimatePart(HeadlinePart(text[..k + 1], cls), start)
      == AnimatePart(HeadlinePart(text[..k], cls), start) + [AnimatedChar(text[k], cls, start + k)]
  {
  }

  /** Numbering a line span by span: the next span's characters follow those of the spans before it. */
  lemma AnimateLineStep(line: seq<HeadlinePart>, start: nat, j: nat)
    requires j < |line|
    ensures AnimateLine(line[..j + 1], start)
      == AnimateLine(line[..j], start) + AnimatePart(line[j], start + |LineText(line[..j])|)
    ensures |LineText(line[..j + 1])| == |LineText(line[..j])| + |line[j].text|
  {
    assert line[..j + 1][..j] == line[..j];
  }

  /** Numbering the headline line by line: the next line's characters follow those of the lines above it. */
  lemma AnimateStep(lines: seq<seq<HeadlinePart>>, i: nat)
    requires i < |lines|
    ensures Animate(lines[..i + 1]) == Animate(lines[..i]) + [AnimateLine(lines[i], CharCount(lines[..i]))]
    ensures CharCount(lines[..i + 1]) == CharCount(lines[..i]) + |LineText(lines[i])|
  {
    assert lines[..i + 1][..i] == lines[..i];
  }

  /** The seed lines read "Turning Data" and "Into Insights". */
  lemma SeedLineTexts()
    ensures |InitialHeadlineParts()| == 2
    ensures LineText(InitialHeadlineParts()[0]) == "Turning Data"
    ensures LineText(InitialHeadlineParts()[1]) == "Into Insights"
  {
    var lines := InitialHeadlineParts();
    assert lines[0][..1] == [lines[0][0]];
    assert lines[1][..1] == [lines[1][0]];
  }

  /** The seed's first line holds twelve characters. */
  lemma SeedFirstLineCount()
    ensures CharCount(InitialHeadlineParts()[..1]) == 12
  {
    var lines := InitialHeadlineParts();
    SeedLineTexts();
    assert lines[..1][..0] == [];
  }

  /**
   * The seed headline: "Turning " + "Data" (12 characters) takes the places
   * 0 to 11, and "Into " + "Insights" (13 characters) takes 12 to 24.
   */
  lemma SeedHeadlineOrder()
    ensures var rows := Animate(InitialHeadlineParts());
      && |rows| == 2 && |rows[0]| == 12 && |rows[1]| == 13
      && (forall j :: 0 <= j < 12 ==> rows[0][j].index == j)
      && (forall j :: 0 <= j < 13 ==> rows[1][j].index == 12 + j)
  {
    var lines := InitialHeadlineParts();
    SeedLineTexts();
    SeedFirstLineCount();
    AnimateAt(lines);
    assert lines[..0] == [];
    AnimateLineAt(lines[0], 0);
    AnimateLineAt(lines[1], 12);
  }

  /** The seed headline's full text reads "Turning Data Into Insights". */
  lemma SeedHeadlineText()
    ensures FullHeadlineText(InitialHeadlineParts()) == "Turning Data Into Insights"
  {
    var lines := InitialHeadlineParts();
    SeedLineTexts();
    var texts := Text.Map(LineText, lines);
    assert texts == ["Turning Data", "Into Insights"];
    assert texts[1..] == ["Into Insights"];
    assert Text.Join(texts, ' ') == "Turning Data" + [' '] + "Into Insights";
  }
}
