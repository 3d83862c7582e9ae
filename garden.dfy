/** The garden compositor (create_class_garden): one tile per record in input
    order, pasted row-major into a grid of `cols` columns, with the legend
    stacked below. */
module Garden {
  import opened PyInt
  import opened Geometry
  import opened Grades
  import opened StudentTile
  import opened LegendPanel
  import opened Grid

  /** One row of the uploaded table: the identifier as text and the score. */
  datatype Record = Record(studentId: string, score: real)

  /** A tile pasted into the garden with its top-left corner at `at`. */
  datatype Paste = Paste(tile: Tile, at: Point)

  datatype Garden = Garden(width: int, height: int, pastes: seq<Paste>)

  /** The final image: the garden pasted at gardenAt, the legend at legendAt. */
  datatype Composite = Composite(width: int, height: int, garden: Garden, gardenAt: Point,
                                 legend: Legend, legendAt: Point)

  /** How the source fails: `// 0` raises, and an image of negative width is refused. */
  datatype Failure = ZeroDivision | NegativeSize

  datatype GardenResult = NoImage | Failed(failure: Failure) | Image(composite: Composite)

  /** The tile of one record: its grade's icon, labelled with its identifier. */
  function TileFor(r: Record, measure: string -> Extent): Tile {
    CreateStudentImage(r.studentId, GradeToLetter(r.score), measure(r.studentId))
  }

  /** c is the composite the source builds for these records and columns. */
  predicate IsGardenOf(c: Composite, records: seq<Record>, cols: int,
                       measure: string -> Extent, title: Extent)
    requires cols > 0
  {
    var n := |records|;
    && c.garden.width == cols * TileSize
    && c.garden.height == Rows(n, cols) * TileSize
    && |c.garden.pastes| == n
    && (forall k :: 0 <= k < n ==>
          c.garden.pastes[k] == Paste(TileFor(records[k], measure), TileOffset(k, cols, TileSize, TileSize)))
    && c.legend == LegendLayout(c.garden.width, title)
    && c.gardenAt == Point(0, 0)
    && c.legendAt == Point(0, c.garden.height)
    && c.width == c.garden.width
    && c.height == c.garden.height + LegendHeight
  }

  function PasteRect(p: Paste): Rect {
    RectAt(p.at, p.tile.width, p.tile.height)
  }

  /** Geometry every composite keeps: each tile inside the garden, no two
      tiles overlapping, and the legend, as wide as the garden, directly below it. */
  predicate WellFormed(c: Composite) {
    var g := c.garden;
    && (forall k :: 0 <= k < |g.pastes| ==> Inside(PasteRect(g.pastes[k]), Rect(0, 0, g.width, g.height)))
    && (forall i, j :: 0 <= i < |g.pastes| && 0 <= j < |g.pastes| && i != j ==>
          Disjoint(PasteRect(g.pastes[i]), PasteRect(g.pastes[j])))
    && c.gardenAt == Point(0, 0)
    && c.legend.width == g.width && c.width == g.width
    && c.legendAt == Point(0, g.height)
    && c.height == g.height + c.legend.height
  }

  /** The layout the source computes always has that geometry. */
  lemma {:induction false} GardenIsWellFormed(c: Composite, records: seq<Record>, cols: int,
                                             measure: string -> Extent, title: Extent)
    requires cols > 0 && IsGardenOf(c, records, cols, measure, title)
    ensures WellFormed(c)
  {
    var n := |records|;
    var g := c.garden;
    forall k | 0 <= k < n
      ensures Inside(PasteRect(g.pastes[k]), Rect(0, 0, g.width, g.height))
    {
      TileInsideGarden(k, n, cols, TileSize, TileSize);
    }
    forall i, j | 0 <= i < n && 0 <= j < n && i != j
      ensures Disjoint(PasteRect(g.pastes[i]), PasteRect(g.pastes[j]))
    {
      TilesDisjoint(i, j, cols, TileSize, TileSize);
    }
    assert c.legend.width == g.width;
  }

  /** Renders one tile per record, then, when there is at least one, lays them
      out and stacks the legend below. */
  method CreateClassGarden(records: seq<Record>, cols: int, measure: string -> Extent, title: Extent)
    returns (result: GardenResult)
    ensures result.NoImage? <==> |records| == 0
    ensures result.Failed? <==> |records| > 0 && cols <= 0
    ensures result.Failed? ==> result.failure == if cols == 0 then ZeroDivision else NegativeSize
    ensures result.Image? ==> cols > 0 && IsGardenOf(result.composite, records, cols, measure, title)
    ensures result.Image? ==> WellFormed(result.composite)
  {
    var studentImages: seq<Tile> := [];
    var i := 0;
    while i < |records|
      invariant 0 <= i <= |records|
      invariant |studentImages| == i
      invariant forall k :: 0 <= k < i ==> studentImages[k] == TileFor(records[k], measure)
    {
      var row := records[i];
      var grade := GradeToLetter(row.score);
      var img := CreateStudentImage(row.studentId, grade, measure(row.studentId));
      studentImages := studentImages + [img];
      i := i + 1;
    }

    if |studentImages| == 0 {
      return NoImage;
    }

    var imgW, imgH := studentImages[0].width, studentImages[0].height;
    if cols == 0 {
      return Failed(ZeroDivision);
    }
    var rows := -FloorDiv(-|studentImages|, cols);
    var gardenW := cols * imgW;
    var gardenH := rows * imgH;
    if gardenW < 0 || gardenH < 0 {
      return Failed(NegativeSize);
    }
    assert cols > 0;

    var pastes: seq<Paste> := [];
    var idx := 0;
    while idx < |studentImages|
      invariant 0 <= idx <= |studentImages|
      invariant |pastes| == idx
      invariant forall k :: 0 <= k < idx ==>
        pastes[k] == Paste(studentImages[k], TileOffset(k, cols, imgW, imgH))
    {
      var x := FloorMod(idx, cols) * imgW;
      var y := FloorDiv(idx, cols) * imgH;
      pastes := pastes + [Paste(studentImages[idx], Point(x, y))];
      idx := idx + 1;
    }
    var garden := Garden(gardenW, gardenH, pastes);

    var legendImg := CreateLegend(gardenW, title);
    var combinedH := gardenH + legendImg.height;
    var combined := Composite(gardenW, combinedH, garden, Point(0, 0), legendImg, Point(0, gardenH));
    GardenIsWellFormed(combined, records, cols, measure, title);
    return Image(combined);
  }
}
