/** Text placement arithmetic shared by the student tiles and the legend
    title: the measured text box is centred horizontally by halving the
    spare width with Python's floor division. */
module TextAnchor {
  import opened PyInt

  /** `(boxWidth - textWidth) // 2`: the left margin. The right margin is
      never smaller and exceeds it by at most one pixel; text no wider than
      the box stays inside it. */
  function CenteredX(boxWidth: int, textWidth: int): (x: int)
    ensures 0 <= (boxWidth - textWidth - x) - x <= 1
    ensures textWidth <= boxWidth ==> 0 <= x && x + textWidth <= boxWidth
  {
    FloorDiv(boxWidth - textWidth, 2)
  }

  /** Text wider than the box overhangs it, again split floor-halved. */
  lemma CenteredOverhang(boxWidth: int, textWidth: int)
    requires boxWidth < textWidth
    ensures CenteredX(boxWidth, textWidth) < 0
    ensures CenteredX(boxWidth, textWidth) + textWidth >= boxWidth
  {
  }
}
