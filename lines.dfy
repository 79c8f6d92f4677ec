/** One output line and its box-drawing prefix: `DictionaryTree.build_line`
    (src/dict_tree/bin.py:258-315). */
module Lines {
  import opened Text
  import opened Boxes
  import opened Nodes

  datatype LineType = IndentOnly | ScalarLine | TreeBranchBottom | TreeListItem

  /** `DictionaryTree.TreeLine`: the four fields of a line, in render order. */
  datatype TreeLine = TreeLine(boxLines: string, name: string, typeLabel: string, valueLabel: string)

  function Max(a: int, b: int): int
  {
    if a >= b then a else b
  }

  /** The columns drawn for one ancestor: a guide or a blank, then fill. */
  function Segment(box: Box, layer: bool, indent: int): string
  {
    (if layer then box.vertical else box.space) + Repeat(box.space, Max(0, indent - 1))
  }

  /** `_tree_indent`: one segment per flag of `layers`, in order. */
  function Indentation(box: Box, layers: seq<bool>, indent: int): string
  {
    if layers == [] then ""
    else Indentation(box, layers[..|layers| - 1], indent) + Segment(box, layers[|layers| - 1], indent)
  }

  /** `_branch_char`. */
  function BranchGlyph(box: Box, layers: seq<bool>, isLast: bool): string
  {
    if layers != [] then (if isLast then box.angleTopRight else box.vbranchToRight)
    else box.baseItem
  }

  /** `_box_lines` for each line type. */
  function BoxLines(box: Box, lineType: LineType, isLast: bool, layers: seq<bool>, indent: int): string
  {
    var treeIndent := Indentation(box, layers, indent);
    var branch := BranchGlyph(box, layers, isLast);
    match lineType
    case IndentOnly => treeIndent
    case ScalarLine => treeIndent + branch + Repeat(box.horizontal, Max(1, indent)) + box.space
    case TreeBranchBottom =>
      treeIndent + branch + Repeat(box.horizontal, Max(0, indent - 1)) + box.hbranchToBottom + box.space
    case TreeListItem => treeIndent + Repeat(box.space, Max(0, indent - 2)) + box.listItem + box.space
  }

  /** `build_line` with the default template: prefix, name, type name, value. */
  function BuildLine(info: Info, name: string, box: Box, lineType: LineType, isLast: bool,
                     layers: seq<bool>, indent: int): (line: TreeLine)
    ensures line.name == name && line.typeLabel == TypeLabel(info) && line.valueLabel == ValueLabel(info)
    ensures Indentation(box, layers, indent) <= line.boxLines
  {
    TreeLine(BoxLines(box, lineType, isLast, layers, indent), name, TypeLabel(info), ValueLabel(info))
  }

  lemma IndentationAppend(box: Box, layers: seq<bool>, layer: bool, indent: int)
    ensures Indentation(box, layers + [layer], indent) == Indentation(box, layers, indent) + Segment(box, layer, indent)
  {
    assert (layers + [layer])[..|layers|] == layers;
  }

  /** The width of one ancestor's columns. */
  function SegmentWidth(indent: int): nat
  {
    1 + Max(0, indent - 1)
  }

  lemma {:induction false} IndentationLength(box: Box, layers: seq<bool>, indent: int)
    requires box.SingleWidth()
    ensures |Indentation(box, layers, indent)| == |layers| * SegmentWidth(indent)
  {
    if layers != [] {
      IndentationLength(box, layers[..|layers| - 1], indent);
    }
  }

  function SegmentChar(box: Box, layer: bool, d: nat): char
    requires box.SingleWidth()
  {
    if d == 0 then (if layer then box.vertical[0] else box.space[0]) else box.space[0]
  }

  lemma SegmentAt(box: Box, layer: bool, indent: int, d: nat)
    requires box.SingleWidth() && d < SegmentWidth(indent)
    ensures |Segment(box, layer, indent)| == SegmentWidth(indent)
    ensures Segment(box, layer, indent)[d] == SegmentChar(box, layer, d)
  {
    if d > 0 {
      assert box.space == [box.space[0]];
      RepeatOneChar(box.space[0], Max(0, indent - 1), d - 1);
    }
  }

  /** Column `i * w + d` of the indentation is in ancestor `i`'s segment: a
      vertical guide at its first column exactly when `layers[i]` holds, a
      blank otherwise and at every other column. */
  lemma {:induction false} IndentationAt(box: Box, layers: seq<bool>, indent: int, i: nat, d: nat)
    requires box.SingleWidth() && i < |layers| && d < SegmentWidth(indent)
    ensures i * SegmentWidth(indent) + d < |Indentation(box, layers, indent)|
    ensures Indentation(box, layers, indent)[i * SegmentWidth(indent) + d] == SegmentChar(box, layers[i], d)
  {
    var w := SegmentWidth(indent);
    var init := layers[..|layers| - 1];
    IndentationLength(box, init, indent);
    SegmentAt(box, layers[|layers| - 1], indent, d);
    if i < |layers| - 1 {
      IndentationAt(box, init, indent, i, d);
    } else {
      assert i * w == |init| * w;
    }
  }

  /** Every character of the indentation is a guide or a blank. */
  lemma {:induction false} IndentationChars(box: Box, layers: seq<bool>, indent: int)
    ensures forall c :: c in Indentation(box, layers, indent) ==> c in box.vertical || c in box.space
  {
    if layers != [] {
      IndentationChars(box, layers[..|layers| - 1], indent);
    }
  }

  /** The glyph right after the indentation: the base marker at the root, else
      the corner exactly for the last sibling and the right branch otherwise. */
  lemma BranchAt(box: Box, lineType: LineType, isLast: bool, layers: seq<bool>, indent: int)
    requires box.SingleWidth() && (lineType == ScalarLine || lineType == TreeBranchBottom)
    ensures |Indentation(box, layers, indent)| == |layers| * SegmentWidth(indent)
    ensures |layers| * SegmentWidth(indent) < |BoxLines(box, lineType, isLast, layers, indent)|
    ensures layers == [] ==> BoxLines(box, lineType, isLast, layers, indent)[0] == box.baseItem[0]
    ensures layers != [] && isLast ==>
      BoxLines(box, lineType, isLast, layers, indent)[|layers| * SegmentWidth(indent)] == box.angleTopRight[0]
    ensures layers != [] && !isLast ==>
      BoxLines(box, lineType, isLast, layers, indent)[|layers| * SegmentWidth(indent)] == box.vbranchToRight[0]
  {
    IndentationLength(box, layers, indent);
  }

  /** A leaf prefix ends with `max(1, indent)` horizontals and a blank, and
      holds no branch-down glyph. */
  lemma ScalarTail(box: Box, isLast: bool, layers: seq<bool>, indent: int)
    requires box.BranchDownDistinct()
    ensures var p := BoxLines(box, ScalarLine, isLast, layers, indent);
      var n := Max(1, indent);
      |p| >= n + 1 &&
      (forall i :: |p| - n - 1 <= i < |p| - 1 ==> p[i] == box.horizontal[0]) &&
      p[|p| - 1] == box.space[0] &&
      box.hbranchToBottom[0] !in p
  {
    var p := BoxLines(box, ScalarLine, isLast, layers, indent);
    var ind := Indentation(box, layers, indent);
    var h := Repeat(box.horizontal, Max(1, indent));
    var n := Max(1, indent);
    assert p == ind + BranchGlyph(box, layers, isLast) + h + box.space;
    IndentationChars(box, layers, indent);
    forall i | |p| - n - 1 <= i < |p| - 1
      ensures p[i] == box.horizontal[0]
    {
      RepeatOneChar(box.horizontal[0], n, i - (|p| - n - 1));
      assert box.horizontal == [box.horizontal[0]];
    }
    assert box.hbranchToBottom[0] !in h;
  }

  /** A parent prefix ends with `max(0, indent - 1)` horizontals, the
      branch-down glyph and a blank. */
  lemma BranchBottomTail(box: Box, isLast: bool, layers: seq<bool>, indent: int)
    requires box.SingleWidth()
    ensures var p := BoxLines(box, TreeBranchBottom, isLast, layers, indent);
      var n := Max(0, indent - 1);
      |p| >= n + 2 &&
      (forall i :: |p| - n - 2 <= i < |p| - 2 ==> p[i] == box.horizontal[0]) &&
      p[|p| - 2] == box.hbranchToBottom[0] &&
      p[|p| - 1] == box.space[0]
  {
    var p := BoxLines(box, TreeBranchBottom, isLast, layers, indent);
    var n := Max(0, indent - 1);
    forall i | |p| - n - 2 <= i < |p| - 2
      ensures p[i] == box.horizontal[0]
    {
      RepeatOneChar(box.horizontal[0], n, i - (|p| - n - 2));
      assert box.horizontal == [box.horizontal[0]];
    }
  }

  /** A leaf prefix and a parent prefix are equally long: one segment per
      ancestor, then a branch, fill and a blank taking one more segment's
      width plus two columns. */
  lemma PrefixLengths(box: Box, isLast: bool, layers: seq<bool>, indent: int)
    requires box.SingleWidth()
    ensures |BoxLines(box, ScalarLine, isLast, layers, indent)| == (|layers| + 1) * Max(1, indent) + 2
    ensures |BoxLines(box, TreeBranchBottom, isLast, layers, indent)| == (|layers| + 1) * Max(1, indent) + 2
  {
    IndentationLength(box, layers, indent);
    var m := SegmentWidth(indent);
    assert m == Max(1, indent);
    assert (|layers| + 1) * m == |layers| * m + m;
  }
}
