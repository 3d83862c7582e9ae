# Class garden layout model

A Dafny model of the logic in `class_garden.py`, a small Streamlit app that turns a table of
student identifiers and scores into one "garden" picture. Each student becomes a 100×100 plant
tile. The plant is chosen by the student's letter grade and the tile carries the student's
identifier. The tiles are placed row by row in a grid of `cols` columns (4 in the app), and a
160-pixel legend goes below the grid. The model covers the parts that are arithmetic:

- the grade ladder (`Grades`), with scores modelled as `real`;
- Python's floor division and remainder (`PyInt`). Dafny's `/` and `%` are Euclidean.
  Floor division is written out for a divisor of either sign. The remainder is needed only
  for a positive divisor, where the two agree;
- horizontal text centring by floor-halving (`TextAnchor`), used for the tile label and for
  the legend title;
- the tile (`StudentTile`): its fixed size and where its label goes;
- the legend (`LegendPanel`): a method whose loop moves `y` down by `icon_size + 5` for each
  grade, proved equal to a recursive specification, plus the closed-form entry positions;
- the grid (`Grid`): the row count by ceiling division, the row-major cell and pixel offset of
  each tile, containment, non-overlap and order;
- the compositor (`Garden`): a method whose two loops mirror the source's. One loop renders
  a tile per record, in input order. The other records the paste offset of every tile. The
  method takes the empty-input branch, the error paths and the stacking of the legend below
  the grid. It is proved to return the layout `IsGardenOf` describes, and that this layout
  is `WellFormed`.

Pixel work is represented by what it would produce:
- a pasted tile is a `Paste` (the tile and its offset);
- a drawn legend row is an `Entry` (its positions and its text).

Text measurement is a PIL call. So a tile's label size comes from a parameter
`measure: string -> Extent`, and the legend title's size from a parameter `title: Extent`.

The last two legend entries do not fit in the legend. The legend is 160 pixels high. The D icon
covers rows 145 to 174, and the F entry starts at row 180. `LegendLastEntriesClipped` states
these positions, which are what the code computes. No containment claim is made for them.

Error paths follow the code:
- with no records the result is `NoImage`, whatever `cols` is, because the test for an empty list
  comes before the division;
- with records and `cols == 0` the result is `Failed(ZeroDivision)`: Python's `//` raises;
- with records and `cols < 0` the result is `Failed(NegativeSize)`. The row count is still
  computed, but the garden width `cols * 100` is negative, and image creation rejects a
  negative size.

## Model

| member | source | states |
|---|---|---|
| PyInt.FloorDiv | class_garden.py:94 | `a // b` is the floor of a/b for either sign of a non-zero divisor: `q*b <= a < q*b + b` when b > 0, `q*b + b < a <= q*b` when b < 0 |
| PyInt.FloorMod | class_garden.py:100 | `a % b` for b > 0 lies in `[0, b)` and `a == (a // b) * b + a % b` |
| Grades.GradeToLetter | class_garden.py:28-33 | the returned grade's threshold is met by the score, and no better grade's threshold is met (the best grade reached; F needs nothing) |
| Grades.GradeBands | class_garden.py:28-33 | both directions for each grade: A iff score ≥ 90; B iff 80 ≤ score < 90; C iff 70 ≤ score < 80; D iff 60 ≤ score < 70; F iff score < 60 |
| Grades.LetterIsOneOfFive | class_garden.py:28-33 | the classifier's letter is always one of "A", "B", "C", "D", "F" |
| Grades.GradeMonotone | class_garden.py:28-33 | s1 ≤ s2 implies the grade of s1 is no better than the grade of s2 |
| Grades.GradeExamples | class_garden.py:28-33 | the boundary scores: 90 is A, 89.999 is B, 80 is B, 70 is C, 60 is D, 59.9 is F; no clamping, so 150 is A and -20 is F |
| TextAnchor.CenteredX | class_garden.py:45-47 | `(W - tw) // 2` makes the right margin equal to the left margin or one pixel more, and text no wider than the box stays inside it; the same formula centres the legend title at line 70 |
| TextAnchor.CenteredOverhang | class_garden.py:47 | text wider than the box starts left of it and reaches or passes its right edge |
| StudentTile.CreateStudentImage | class_garden.py:35-49 | a tile carries the identifier and the grade's icon and is 100×100; the label's drawing point is where a box of the measured size ends 5 pixels above the tile's bottom and is horizontally centred to within one pixel |
| StudentTile.LabelInsideTile | class_garden.py:45-47 | for a label at most 100 wide and at most 95 high, a box of the measured size placed at the drawing point lies wholly inside the tile |
| Grid.Rows | class_garden.py:94 | `-(-n // cols)` is the ceiling of n / cols for cols > 0: non-negative, `rows*cols >= n`, `(rows-1)*cols < n` when n > 0, and 0 when n is 0 |
| Grid.NegatedFloorIsCeiling | class_garden.py:94 | if q is the floor of -n / cols, then -q is the smallest non-negative count of rows that holds n cells |
| Grid.CellOf | class_garden.py:100-101 | tile idx sits at column `idx % cols` (in `[0, cols)`) and row `idx // cols` (≥ 0), and `row*cols + col == idx` |
| Grid.CellOfIndexOf | class_garden.py:99-102 | every grid cell is the cell of the tile whose row-major index it has (CellOf and IndexOf are inverse) |
| Grid.TileOffsetOfCell | class_garden.py:100-101 | the paste offset of a tile is its column times the tile width and its row times the tile height |
| Grid.TileInsideGarden | class_garden.py:94-102 | each tile with `0 <= idx < n` lies wholly inside the `cols*w` by `rows*h` garden |
| Grid.DistinctCells | class_garden.py:99-102 | distinct indices have distinct cells |
| Grid.TilesDisjoint | class_garden.py:99-102 | tiles of positive size at distinct indices do not overlap |
| Grid.RowMajorOrder | class_garden.py:99-102 | a later index is in a later row, or in the same row further right |
| Grid.FiveTilesFourColumns | class_garden.py:83-101 | 5 records in the default 4 columns give 2 rows, and tile 4 sits at column 0, row 1, offset (0, 100) |
| LegendPanel.EntriesFrom | class_garden.py:73-79 | the loop draws exactly one legend entry per grade |
| LegendPanel.EntriesFromAt | class_garden.py:73-79 | entry k of a run starting at y is for grade k and placed at `y + 35*k` |
| LegendPanel.CreateLegend | class_garden.py:51-81 | the legend the loop builds is a strip `img_width` wide and 160 high, with the title centred at y = 10 and entries A, B, C, D, F, y starting at 40 and stepping by 35 |
| LegendPanel.LegendEntryPositions | class_garden.py:72-79 | entry k (A, B, C, D, F in that order) has its 30-pixel icon at (10, 40 + 35k), its label at (50, 45 + 35k) and that grade's label text |
| LegendPanel.LegendEntrySpacing | class_garden.py:79 | consecutive entries are exactly `icon_size + 5 = 35` pixels apart, icon and label alike |
| LegendPanel.LegendFrame | class_garden.py:51-70 | the legend is as wide as requested and 160 high; the title's drawing point is at y = padding = 10, and a box of the measured title width placed there is centred to within one pixel |
| LegendPanel.LegendLastEntriesClipped | class_garden.py:53-79 | vertically, the icons of A to C lie between the top and bottom edges of the 160-pixel legend; the D icon crosses the bottom edge and the F entry starts below it |
| Garden.GardenIsWellFormed | class_garden.py:93-108 | in the computed layout every tile lies inside the garden and no two tiles overlap; the legend is as wide as the garden and pasted directly below it at y = garden height; the composite is garden width wide and garden height + legend height tall |
| Garden.CreateClassGarden | class_garden.py:83-110 | no image iff there are no records; with records, failure iff cols ≤ 0 (division by zero for 0, negative size otherwise); otherwise tile k is record k's tile, pasted at its row-major offset; the garden is `cols*100` wide whatever the record count and `rows*100` high; the legend is stacked below; and the result is well formed |

## Left out

- The Streamlit page is not modelled (class_garden.py:115-128): the title, the upload widget, the data display, the image display and the download button. They are UI calls.
- CSV parsing with `pd.read_csv` and the row iteration with `iterrows` are not modelled (class_garden.py:119, 85). The input is a sequence of `Record(studentId, score)`, with the identifier already converted to text by `str`. A malformed table is not modelled.
- PIL image work is not modelled: loading the icons at import, creating and resizing images, drawing text and the border rectangle (class_garden.py:9-15, 36-37, 54, 64, 76-77, 97, 106). A paste is represented by its offset. Image sizes are integers.
- Text measurement with `textbbox` is not modelled (class_garden.py:45, 68). The measured extents are parameters.
- StudentTile.CreateStudentImage: `Extent` keeps only the box's width and height (`bbox[2]-bbox[0]`, `bbox[3]-bbox[1]`), not its left and top offsets `bbox[0]`, `bbox[1]`. PIL puts the ink at the drawing point plus those offsets. So the placement and centring stated are those of a box of the measured size at the drawing point, not of the drawn text.
- StudentTile.LabelInsideTile: for the same reason, the containment is of a box of the measured size at the drawing point. Ink shifted by a positive top offset can reach below the tile.
- LegendPanel.LegendFrame: for the same reason, the title is centred as a box of the measured width at the drawing point, not as its drawn ink.
- LegendPanel.LegendLastEntriesClipped: states only the vertical extent of the icons. The labels' measured heights are not modelled, so whether each label fits is not stated. Horizontal fit is not stated either: the icons span x = 10 to 39, so they fit only when the legend is at least 40 wide.
- The font fallback (class_garden.py:39-42, 57-61) is not modelled. It depends on the environment and only chooses a font, which shows up only in the measured extents.
- PNG serialisation to a byte buffer is not modelled (class_garden.py:125-126). It is I/O through a library encoder. So the PNG dimension round trip is not stated.
- Scores are `real`, not IEEE floats. NaN and rounding are not modelled, and neither are non-numeric scores, which make Python's comparison raise.
- The row count is modelled only for an integer `cols`. For `cols < 0` the model returns `NegativeSize` as soon as the garden width is negative. This assumes that PIL's `Image.new` raises for a negative width. That behaviour belongs to a library that is not part of this model.
- Alpha blending when pasting is not modelled (class_garden.py:102, 107-108): the background showing through the empty cells of the last row is not represented. `Grid.Rows` bounds how many cells are empty: `rows*cols - n`, fewer than `cols`.
