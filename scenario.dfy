/** The walk on one concrete object, `{"x": 1, "y": [2, 3]}` with no name
    (src/dict_tree/bin.py:67-89), for any palette and indent. */
module Scenario {
  import opened Text
  import opened Boxes
  import opened Nodes
  import opened Lines
  import opened TreeWalk

  function IntInfo(text: string): Info
  {
    Info("int", {"int", "object"}, text, "")
  }

  const Two: Node := Scalar(IntInfo("2"))
  const Three: Node := Scalar(IntInfo("3"))
  const Y: Node := Sequence(Info("list", {"list", "object"}, "[2, 3]", ""), [Two, Three])
  const X: Node := Scalar(IntInfo("1"))
  const RootInfo := Info("dict", {"dict", "object"}, "{'x': 1, 'y': [2, 3]}", "Instance of [dict] at address [0x1]")

  /** The root mapping, with `y` as the value under "y". */
  function Sample(y: Node): Node
  {
    Mapping(RootInfo, [Entry("x", X), Entry("y", y)])
  }

  const Root: Node := Sample(Y)

  /** A two-element list pads its indices to one digit. */
  lemma IndexLabelsOfTwo()
    ensures ListPadding(2) == 1 && IndexLabel(0, 1) == "[0]" && IndexLabel(1, 1) == "[1]"
  {
    assert Pow10(0) < 2 <= Pow10(1);
    OneDigitLabel(0);
    OneDigitLabel(1);
  }

  lemma OneDigitLabel(d: nat)
    requires d < 10
    ensures IndexLabel(d, 1) == ['[', "0123456789"[d], ']']
  {
    assert NatToString(d) == [DigitChar(d)];
    assert PadLeft([DigitChar(d)], 1) == [DigitChar(d)];
  }

  /** "y" is the last entry: it draws no guide for its own level, and its two
      items are walked two levels deep under padded index labels. */
  lemma YLines(box: Box, indent: int)
    ensures Walk(box, Y, "y", true, [false], indent, IgnoreStandardTypes) ==
      [BuildLine(Y.info, "y", box, TreeBranchBottom, true, [false], indent),
       BuildLine(Two.info, "[0]", box, ScalarLine, false, [false, false], indent),
       BuildLine(Three.info, "[1]", box, ScalarLine, true, [false, false], indent)]
  {
    YItems(box, indent);
    WalkSequence(box, Y, "y", true, [false], indent, IgnoreStandardTypes);
  }

  /** The items of `[2, 3]`: "[0]" on a right branch, then "[1]" on the
      corner. */
  lemma YItems(box: Box, indent: int)
    ensures SeqLines(box, Y, 2, true, [false], indent) ==
      [BuildLine(Two.info, "[0]", box, ScalarLine, false, [false, false], indent),
       BuildLine(Three.info, "[1]", box, ScalarLine, true, [false, false], indent)]
  {
    SeqLinesStep(box, Y, 0, true, [false], indent);
    FirstItem(box, indent);
    SeqLinesStep(box, Y, 1, true, [false], indent);
    SecondItem(box, indent);
    Pair(BuildLine(Two.info, "[0]", box, ScalarLine, false, [false, false], indent),
         BuildLine(Three.info, "[1]", box, ScalarLine, true, [false, false], indent));
  }

  /** Item 0 of `[2, 3]` is one leaf line labelled "[0]", not last. */
  lemma FirstItem(box: Box, indent: int)
    ensures Walk(box, Y.items[0], IndexLabel(0, ListPadding(|Y.items|)), 0 + 1 >= |Y.items|,
                 [false] + [!true], indent, IgnoreStandardTypes) ==
      [BuildLine(Two.info, "[0]", box, ScalarLine, false, [false, false], indent)]
  {
    assert Y.items[0] == Two && |Y.items| == 2;
    IndexLabelsOfTwo();
    Deeper(false);
    Leaf(box, Two, "[0]", false, indent);
  }

  /** Item 1 of `[2, 3]` is one leaf line labelled "[1]", last. */
  lemma SecondItem(box: Box, indent: int)
    ensures Walk(box, Y.items[1], IndexLabel(1, ListPadding(|Y.items|)), 1 + 1 >= |Y.items|,
                 [false] + [!true], indent, IgnoreStandardTypes) ==
      [BuildLine(Three.info, "[1]", box, ScalarLine, true, [false, false], indent)]
  {
    assert Y.items[1] == Three && |Y.items| == 2;
    IndexLabelsOfTwo();
    Deeper(false);
    Leaf(box, Three, "[1]", true, indent);
  }

  /** A number two levels deep is one leaf line under the name it is given. */
  lemma Leaf(box: Box, n: Node, text: string, isLast: bool, indent: int)
    requires n.Scalar?
    ensures Walk(box, n, text, isLast, [false, false], indent, IgnoreStandardTypes) ==
      [BuildLine(n.info, text, box, ScalarLine, isLast, [false, false], indent)]
  {
    WalkLeaf(box, n, text, isLast, [false, false], indent, IgnoreStandardTypes);
  }

  /** The root: its own line under the guessed name, then "x", then the
      lines of whatever value sits under "y". */
  lemma RootLines(box: Box, y: Node, indent: int)
    ensures Walk(box, Sample(y), "", true, [], indent, IgnoreStandardTypes) ==
      [BuildLine(RootInfo, "Instance of [dict] at address [0x1]", box, TreeBranchBottom, true, [], indent),
       BuildLine(X.info, "x", box, ScalarLine, false, [false], indent)]
      + Walk(box, y, "y", true, [false], indent, IgnoreStandardTypes)
  {
    var std, root := IgnoreStandardTypes, Sample(y);
    var lx := BuildLine(X.info, "x", box, ScalarLine, false, [false], indent);
    assert [] + [!true] == [false];
    WalkLeaf(box, X, "x", false, [false], indent, std);
    MapLinesStep(box, root, 0, true, [], indent);
    assert MapLines(box, root, 1, true, [], indent) == [lx];
    MapLinesStep(box, root, 1, true, [], indent);
    var head := BuildLine(RootInfo, "Instance of [dict] at address [0x1]", box, TreeBranchBottom, true, [], indent);
    assert EffectiveName(RootInfo, "", []) == "Instance of [dict] at address [0x1]" && HeadType(|root.entries|) == TreeBranchBottom;
    WalkMapping(box, root, "", true, [], indent, std);
    ConsTwo(head, lx, Walk(box, y, "y", true, [false], indent, std));
  }

  /** The layers below a last child of a first-level node. */
  lemma Deeper(b: bool)
    ensures [b] + [!true] == [b, false]
  {
  }

  lemma Pair<T>(a: T, b: T)
    ensures [a] + [b] == [a, b]
  {
  }

  lemma ConsTwo<T>(a: T, b: T, rest: seq<T>)
    ensures [a] + ([b] + rest) == [a, b] + rest
  {
  }

  /** Five lines, one per node, with any single-width palette and any
      indent: the root under its guessed name, "x" with type int and value 1,
      "y" with type list and no value, then "[0]" on a right branch and "[1]"
      on the corner, both two levels deep (column 12 for the thin palette
      and indent 6). */
  lemma RootFiveLines(box: Box, indent: int)
    requires box.SingleWidth()
    ensures var w := Walk(box, Root, "", true, [], indent, IgnoreStandardTypes);
      var column := 2 * SegmentWidth(indent);
      |w| == 5 &&
      w[0].name == "Instance of [dict] at address [0x1]" && w[0].typeLabel == "dict" && w[0].valueLabel == "" &&
      w[1].name == "x" && w[1].typeLabel == "int" && w[1].valueLabel == "1" &&
      w[2].name == "y" && w[2].typeLabel == "list" && w[2].valueLabel == "" &&
      w[3].name == "[0]" && w[3].valueLabel == "2" &&
      |w[3].boxLines| > column && w[3].boxLines[column] == box.vbranchToRight[0] &&
      w[4].name == "[1]" && w[4].valueLabel == "3" &&
      |w[4].boxLines| > column && w[4].boxLines[column] == box.angleTopRight[0]
  {
    YLines(box, indent);
    RootLines(box, Y, indent);
    ValueLabelRule(RootInfo);
    ValueLabelRule(Y.info);
    BranchAt(box, ScalarLine, false, [false, false], indent);
    BranchAt(box, ScalarLine, true, [false, false], indent);
  }
}
