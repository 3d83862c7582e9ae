/** The legend panel of create_legend: a fixed-height strip as wide as the
    garden, with a centred title and one icon-and-label entry per grade. */
module LegendPanel {
  import opened Geometry
  import opened Grades
  import opened TextAnchor

  const Padding: int := 10
  const LegendHeight: int := 160
  const IconSize: int := 30
  /** Vertical distance from one entry to the next. */
  const EntryStep: int := IconSize + 5
  /** The y of the first entry. */
  const FirstEntryY: int := Padding + 30
  /** The grades in the order the legend lists them. */
  const LegendOrder: seq<Grade> := [A, B, C, D, F]
  const TitleText: string := "\U{1F338} Legend: Plant Health"

  /** One legend row: the grade's icon pasted at iconAt, its label drawn at labelAt. */
  datatype Entry = Entry(grade: Grade, iconAt: Point, iconSize: int, labelAt: Point, text: string)

  datatype Legend = Legend(width: int, height: int, title: string, titleAt: Point, entries: seq<Entry>)

  /** The entry drawn for `grade` when the running y is `y`. */
  function EntryAt(grade: Grade, y: int): Entry {
    Entry(grade, Point(Padding, y), IconSize, Point(Padding + IconSize + 10, y + 5), Label(grade))
  }

  /** The entries the loop draws for `grades`, starting at y and stepping by EntryStep. */
  function EntriesFrom(grades: seq<Grade>, y: int): (es: seq<Entry>)
    ensures |es| == |grades|
    decreases |grades|
  {
    if grades == [] then [] else [EntryAt(grades[0], y)] + EntriesFrom(grades[1..], y + EntryStep)
  }

  /** The legend for a garden `imgWidth` wide whose title measures `title`. */
  function LegendLayout(imgWidth: int, title: Extent): Legend {
    Legend(imgWidth, LegendHeight, TitleText, Point(CenteredX(imgWidth, title.width), Padding),
           EntriesFrom(LegendOrder, FirstEntryY))
  }

  /** Builds the legend as the source does: y starts at padding + 30 and grows
      by icon_size + 5 after each of the five grades. */
  method CreateLegend(imgWidth: int, title: Extent) returns (legend: Legend)
    ensures legend == LegendLayout(imgWidth, title)
  {
    var entries: seq<Entry> := [];
    var y := Padding + 30;
    var i := 0;
    while i < |LegendOrder|
      invariant 0 <= i <= |LegendOrder|
      invariant y == FirstEntryY + EntryStep * i
      invariant entries + EntriesFrom(LegendOrder[i..], y) == EntriesFrom(LegendOrder, FirstEntryY)
    {
      var grade := LegendOrder[i];
      assert LegendOrder[i..][1..] == LegendOrder[i + 1..];
      entries := entries + [EntryAt(grade, y)];
      y := y + IconSize + 5;
      i := i + 1;
    }
    assert entries + EntriesFrom(LegendOrder[i..], y) == entries;
    legend := Legend(imgWidth, LegendHeight, TitleText,
                     Point(CenteredX(imgWidth, title.width), Padding), entries);
  }

  /** Entry k of a run starting at y is grade k, placed k steps further down. */
  lemma {:induction false} EntriesFromAt(grades: seq<Grade>, y: int, k: nat)
    requires k < |grades|
    ensures EntriesFrom(grades, y)[k] == EntryAt(grades[k], y + EntryStep * k)
  {
    if k > 0 {
      EntriesFromAt(grades[1..], y + EntryStep, k - 1);
    }
  }

  /** Entry k (A, B, C, D, F in that order) has its icon at (10, 40 + 35k) and
      its label at (50, 45 + 35k). */
  lemma LegendEntryPositions(imgWidth: int, title: Extent, k: nat)
    requires k < 5
    ensures var es := LegendLayout(imgWidth, title).entries;
      && |es| == 5
      && es[k].grade == LegendOrder[k]
      && es[k].iconAt == Point(10, 40 + 35 * k)
      && es[k].iconSize == 30
      && es[k].labelAt == Point(50, 45 + 35 * k)
      && es[k].text == Label(LegendOrder[k])
  {
    EntriesFromAt(LegendOrder, FirstEntryY, k);
  }

  /** Consecutive entries are exactly icon_size + 5 = 35 pixels apart. */
  lemma LegendEntrySpacing(imgWidth: int, title: Extent, k: nat)
    requires k + 1 < 5
    ensures var es := LegendLayout(imgWidth, title).entries;
      es[k + 1].iconAt.y == es[k].iconAt.y + 35 && es[k + 1].labelAt.y == es[k].labelAt.y + 35
  {
    LegendEntryPositions(imgWidth, title, k);
    LegendEntryPositions(imgWidth, title, k + 1);
  }

  /** The legend is as wide as requested and 160 high, and its title is
      centred at y = padding. */
  lemma LegendFrame(imgWidth: int, title: Extent)
    ensures var l := LegendLayout(imgWidth, title);
      && l.width == imgWidth && l.height == 160 && l.titleAt.y == 10
      && 0 <= (imgWidth - title.width - l.titleAt.x) - l.titleAt.x <= 1
      && (title.width <= imgWidth ==> 0 <= l.titleAt.x && l.titleAt.x + title.width <= imgWidth)
  {
  }

  /** What the code computes near the bottom edge: the icons of A to C lie
      between the top and bottom edges, the D icon (rows 145 to 174) crosses
      the 160-pixel edge and the F entry starts below it, so both are clipped. */
  lemma LegendLastEntriesClipped(imgWidth: int, title: Extent)
    ensures var l := LegendLayout(imgWidth, title);
      && (forall k :: 0 <= k < 3 ==> 0 <= l.entries[k].iconAt.y && l.entries[k].iconAt.y + IconSize <= l.height)
      && l.entries[3].iconAt.y < l.height < l.entries[3].iconAt.y + IconSize
      && l.entries[4].iconAt.y >= l.height
  {
    LegendEntryPositions(imgWidth, title, 0);
    LegendEntryPositions(imgWidth, title, 1);
    LegendEntryPositions(imgWidth, title, 2);
    LegendEntryPositions(imgWidth, title, 3);
    LegendEntryPositions(imgWidth, title, 4);
  }
}
