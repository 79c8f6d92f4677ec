/** Glyph palettes: the nine named glyphs of one box-drawing style
    (src/dict_tree/boxes.py). Pure data. */
module Boxes {

  datatype Box = Box(
    space: string,
    horizontal: string,
    vertical: string,
    angleTopRight: string,
    vbranchToRight: string,
    hbranchToBottom: string,
    listItem: string,
    baseItem: string,
    lineBreak: string)
  {
    /** Every glyph is one character, as in the three shipped palettes. */
    predicate SingleWidth()
    {
      |space| == 1 && |horizontal| == 1 && |vertical| == 1 && |angleTopRight| == 1 &&
      |vbranchToRight| == 1 && |hbranchToBottom| == 1 && |listItem| == 1 &&
      |baseItem| == 1 && |lineBreak| == 1
    }

    /** The branch-down glyph is told apart from every glyph a leaf prefix is
        made of, so its presence in a prefix can be seen. */
    predicate BranchDownDistinct()
    {
      SingleWidth() &&
      hbranchToBottom != space && hbranchToBottom != horizontal &&
      hbranchToBottom != vertical && hbranchToBottom != angleTopRight &&
      hbranchToBottom != vbranchToRight && hbranchToBottom != baseItem
    }
  }

  const ThinBox := Box(" ", "\U{2500}", "\U{2502}", "\U{2514}", "\U{251C}", "\U{252C}", "\U{2576}", "\U{257E}", "\n")

  const ThickBox := Box(" ", "\U{2501}", "\U{2503}", "\U{2517}", "\U{2523}", "\U{2533}", "\U{257A}", "\U{2501}", "\n")

  const DoubleBox := Box(" ", "\U{2550}", "\U{2551}", "\U{255A}", "\U{2560}", "\U{2566}", "\U{2576}", "\U{2550}", "\n")

  lemma ShippedPalettesAreDistinct()
    ensures ThinBox.BranchDownDistinct() && ThickBox.BranchDownDistinct() && DoubleBox.BranchDownDistinct()
    ensures ThinBox.lineBreak == ThickBox.lineBreak == DoubleBox.lineBreak == "\n"
  {
  }
}
