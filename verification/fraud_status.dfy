/**
 * The presentation rules of the verdict card (src/components/FraudStatus.tsx): the badge colour
 * of a status label, the colour band of the score bar, and the segmentation of a narrative
 * explanation into titled sections with tagged body lines. The card defines formatExplanation
 * but renders the explanation through its Markdown renderer; the segmentation is modelled as
 * the function defines it.
 */
module FraudStatus {
  import opened Basics
  import opened Text

  datatype Colour = Green | Yellow | Red | Gray

  /** Badge colour of a status label; anything but the three verdicts, `Pending` included, is gray. */
  function StatusColour(status: string): (c: Colour)
    ensures c == Green <==> status == "Clear"
    ensures c == Yellow <==> status == "Suspicious"
    ensures c == Red <==> status == "Fraudulent"
    ensures c == Gray <==> status != "Clear" && status != "Suspicious" && status != "Fraudulent"
  {
    if status == "Clear" then Green
    else if status == "Suspicious" then Yellow
    else if status == "Fraudulent" then Red
    else Gray
  }

  /**
   * Colour of the score bar. The score is optional in the card's props; an absent score
   * compares false against both thresholds and so falls through to green.
   */
  function ScoreBand(score: Option<real>): (c: Colour)
    ensures c != Gray
    ensures c == Red <==> score.Some? && score.value >= 0.8
    ensures c == Yellow <==> score.Some? && 0.5 <= score.value < 0.8
    ensures c == Green <==> score.None? || score.value < 0.5
  {
    if score.Some? && score.value >= 0.8 then Red
    else if score.Some? && score.value >= 0.5 then Yellow
    else Green
  }

  /** The styling tag of one body line. */
  datatype Tag = Warning | Affirmation | Neutral

  const WarningGlyph: char := '⚠'
  const CheckGlyph: char := '✓'

  /** A warning glyph wins over a check mark; a line with neither is neutral. */
  function TagOf(line: string): (t: Tag)
    ensures t == Warning <==> WarningGlyph in line
    ensures t == Affirmation <==> WarningGlyph !in line && CheckGlyph in line
    ensures t == Neutral <==> WarningGlyph !in line && CheckGlyph !in line
  {
    if WarningGlyph in line then Warning
    else if CheckGlyph in line then Affirmation
    else Neutral
  }

  /** The text after a digit run: more digits, or '.' followed by a whitespace character. */
  predicate DigitsThenDot(t: string)
    decreases |t|
  {
    |t| >= 2 &&
    if IsDigit(t[0]) then DigitsThenDot(t[1..]) else t[0] == '.' && IsJsSpace(t[1])
  }

  /**
   * The lookahead of the section separator: one or more digits, a '.', and whitespace.
   * The whitespace may itself be a newline.
   */
  predicate StartsWithItemMarker(t: string) {
    |t| >= 1 && IsDigit(t[0]) && DigitsThenDot(t[1..])
  }

  /** The raw sections: the explanation split at every newline followed by an item marker. */
  function Sections(explanation: string): (r: seq<string>)
    ensures |r| >= 1
  {
    SplitAt(explanation, '\n', StartsWithItemMarker)
  }

  /** Joining the sections with newlines restores the explanation: only separators are dropped. */
  lemma SectionsJoin(explanation: string)
    ensures Join(Sections(explanation), "\n") == explanation
  {
    SplitAtJoin(explanation, '\n', StartsWithItemMarker);
  }

  /**
   * Each section after the first one starts an enumerated item: the text from that section
   * on begins with digits, '.' and whitespace. (The section alone can be as short as "2."
   * when that whitespace is the newline that ends it.)
   */
  lemma SectionsStartAtMarkers(explanation: string)
    ensures var r := Sections(explanation);
      forall i | 1 <= i < |r| :: StartsWithItemMarker(Join(r[i..], "\n"))
  {
    var r := Sections(explanation);
    forall i | 1 <= i < |r| ensures StartsWithItemMarker(Join(r[i..], "\n")) {
      SplitAtCutBefore(explanation, '\n', StartsWithItemMarker, i);
    }
  }

  /** No section contains a newline that is followed by an item marker. */
  lemma SectionsAreMaximal(explanation: string)
    ensures var r := Sections(explanation);
      forall i, j | 0 <= i < |r| && 0 <= j < |r[i]| ::
        !CutsAt(Join(r[i..], "\n"), j, '\n', StartsWithItemMarker)
  {
    var r := Sections(explanation);
    forall i, j | 0 <= i < |r| && 0 <= j < |r[i]|
      ensures !CutsAt(Join(r[i..], "\n"), j, '\n', StartsWithItemMarker)
    {
      SplitAtNoCutInside(explanation, '\n', StartsWithItemMarker, i, j);
    }
  }

  /** An explanation with no newline-then-marker anywhere is one section. */
  lemma UnmarkedExplanationIsOneSection(explanation: string)
    requires forall j | 0 <= j < |explanation| :: !CutsAt(explanation, j, '\n', StartsWithItemMarker)
    ensures Sections(explanation) == [explanation]
  {
    assert [explanation][0..] == [explanation];
    SplitAtUnique(explanation, '\n', StartsWithItemMarker, [explanation]);
  }

  datatype BodyLine = BodyLine(text: string, tag: Tag)
  datatype Section = Section(title: string, lines: seq<BodyLine>)

  /** The first row of a section is its longest newline-free prefix. */
  lemma FirstRowFacts(section: string)
    ensures var head := Split(section, '\n')[0];
      head <= section && '\n' !in head && (|head| < |section| ==> section[|head|] == '\n')
  {
    var rows := Split(section, '\n');
    SplitJoinAndNoSeparator(section, '\n');
    JoinHead(rows, "\n");
  }

  /** One body line as shown: trimmed, and tagged from the line as written. */
  function ShowLine(raw: string): BodyLine
  {
    BodyLine(Strip(raw, IsJsSpace), TagOf(raw))
  }

  /**
   * Trimming removes only whitespace, so the tag agrees with the shown text, and trimming
   * cannot bring in a newline.
   */
  lemma ShownLineKeepsTag(raw: string)
    ensures '\n' !in raw ==> '\n' !in ShowLine(raw).text
    ensures ShowLine(raw).tag == TagOf(ShowLine(raw).text)
  {
    assert !IsJsSpace(WarningGlyph) && !IsJsSpace(CheckGlyph);
    StripKeeps(raw, IsJsSpace, '\n');
    StripKeeps(raw, IsJsSpace, WarningGlyph);
    StripKeeps(raw, IsJsSpace, CheckGlyph);
  }

  /**
   * One section as the card shows it: the first line untrimmed as the title, and every
   * further line trimmed, tagged from the line as written.
   */
  function FormatSection(section: string): (r: Section)
    ensures r.title <= section && '\n' !in r.title
    ensures |r.title| < |section| ==> section[|r.title|] == '\n'
    ensures |r.lines| == |Split(section, '\n')| - 1
    ensures forall k | 0 <= k < |r.lines| :: r.lines[k] == ShowLine(Split(section, '\n')[k + 1])
  {
    var rows := Split(section, '\n');
    FirstRowFacts(section);
    Section(rows[0], ShowLines(rows[1..]))
  }

  function ShowLines(rows: seq<string>): (r: seq<BodyLine>)
    ensures |r| == |rows| && forall k | 0 <= k < |rows| :: r[k] == ShowLine(rows[k])
  {
    seq(|rows|, k requires 0 <= k < |rows| => ShowLine(rows[k]))
  }

  /** Every shown body line is trimmed, newline-free, and tagged as its own text reads. */
  lemma BodyLinesShowTheirTag(section: string)
    ensures var lines := FormatSection(section).lines;
      forall k | 0 <= k < |lines| ::
        lines[k].text == Strip(Split(section, '\n')[k + 1], IsJsSpace) &&
        '\n' !in lines[k].text && lines[k].tag == TagOf(lines[k].text)
  {
    var rows := Split(section, '\n');
    var lines := FormatSection(section).lines;
    SplitJoinAndNoSeparator(section, '\n');
    forall k | 0 <= k < |lines|
      ensures '\n' !in lines[k].text && lines[k].tag == TagOf(lines[k].text)
    {
      assert '\n' !in rows[k + 1];
      ShownLineKeepsTag(rows[k + 1]);
    }
  }

  /** A falsy (empty) explanation renders nothing; otherwise every section is shown in order. */
  function FormatExplanation(explanation: string): (r: seq<Section>)
    ensures explanation == "" <==> r == []
    ensures explanation != "" ==> |r| == |Sections(explanation)|
    ensures forall k | 0 <= k < |r| :: r[k] == FormatSection(Sections(explanation)[k])
  {
    if explanation == "" then []
    else
      var parts := Sections(explanation);
      seq(|parts|, k requires 0 <= k < |parts| => FormatSection(parts[k]))
  }

  /** A non-empty single-line explanation is one section, titled by the whole text, with no body. */
  lemma SingleLineExplanation(explanation: string)
    requires explanation != "" && '\n' !in explanation
    ensures FormatExplanation(explanation) == [Section(explanation, [])]
  {
    SplitWithoutSeparator(explanation, '\n', StartsWithItemMarker);
    SplitWithoutSeparator(explanation, '\n', Always);
  }

  /** The title of a section that opens with a newline-free line `head` and a newline is `head`. */
  lemma TitleIsFirstLine(section: string, head: string)
    requires '\n' !in head && head + "\n" <= section
    ensures FormatSection(section).title == head
  {
    var rest := section[|head| + 1..];
    assert section == head + ("\n" + rest);
    SplitAtHead(head, "\n" + rest, '\n', Always);
    assert ("\n" + rest)[1..] == rest;
    assert SplitAt("\n" + rest, '\n', Always)[0] == "";
    assert head + "" == head;
  }
}
