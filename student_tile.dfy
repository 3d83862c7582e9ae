/** One student's tile (create_student_image): the grade's icon resized to a
    fixed square with the student identifier drawn centred near the bottom. */
module StudentTile {
  import opened Geometry
  import opened Grades
  import opened TextAnchor

  /** Every icon is resized to TileSize x TileSize pixels. */
  const TileSize: int := 100
  /** Gap between the bottom of the label and the bottom of the tile. */
  const LabelBottomMargin: int := 5

  /** The rendered tile: which icon, its size, and the point the label is drawn at. */
  datatype Tile = Tile(studentId: string, icon: Grade, width: int, height: int, labelAt: Point)

  /** The tile for an identifier whose text measures `text` in the label font. */
  function CreateStudentImage(studentId: string, grade: Grade, text: Extent): (t: Tile)
    ensures t.studentId == studentId && t.icon == grade
    ensures t.width == TileSize && t.height == TileSize
    ensures t.labelAt.y + text.height + LabelBottomMargin == t.height
    ensures 0 <= (t.width - text.width - t.labelAt.x) - t.labelAt.x <= 1
  {
    Tile(studentId, grade, TileSize, TileSize,
         Point(CenteredX(TileSize, text.width), TileSize - text.height - LabelBottomMargin))
  }

  /** For a label that fits the tile (at most 100 wide, at most 95 high), a box
      of the measured size placed at the drawing point lies wholly inside the tile. */
  lemma LabelInsideTile(studentId: string, grade: Grade, text: Extent)
    requires 0 <= text.width <= TileSize
    requires 0 <= text.height <= TileSize - LabelBottomMargin
    ensures var t := CreateStudentImage(studentId, grade, text);
      Inside(RectAt(t.labelAt, text.width, text.height), Rect(0, 0, t.width, t.height))
  {
  }
}
