/** The walk and the format on `{"": 1}` named "R" with the thin palette and
    indent 6 (src/dict_tree/bin.py:115-377): the object on which `render`
    misaligns the type column. */
module Misalignment {
  import opened Text
  import opened Boxes
  import opened Nodes
  import opened Lines
  import opened TreeWalk
  import opened Columns
  import opened Scenario

  /** `{"": 1}`: one entry with an empty key. */
  const OneEntry: Node :=
    Mapping(Info("dict", {"dict", "object"}, "{'': 1}", "Instance of [dict] at address [0x2]"), [Entry("", X)])

  /** Named "R", `{"": 1}` is its own line, then one leaf line for the entry
      under its empty key, for any palette and indent. */
  lemma OneEntryLines(box: Box, indent: int)
    ensures Walk(box, OneEntry, "R", true, [], indent, IgnoreStandardTypes) ==
      [BuildLine(OneEntry.info, "R", box, TreeBranchBottom, true, [], indent),
       BuildLine(X.info, "", box, ScalarLine, true, [false], indent)]
  {
    var std := IgnoreStandardTypes;
    assert [] + [!true] == [false];
    WalkLeaf(box, X, "", true, [false], indent, std);
    MapLinesStep(box, OneEntry, 0, true, [], indent);
    assert MapLines(box, OneEntry, 1, true, [], indent) == [BuildLine(X.info, "", box, ScalarLine, true, [false], indent)];
    WalkMapping(box, OneEntry, "R", true, [], indent, std);
  }

  lemma RepeatFive(s: string)
    ensures Repeat(s, 5) == s + s + s + s + s
  {
    assert Repeat(s, 1) == s;
    assert Repeat(s, 2) == s + s;
    assert Repeat(s, 3) == s + s + s;
    assert Repeat(s, 4) == s + s + s + s;
  }

  lemma RepeatSix(s: string)
    ensures Repeat(s, 6) == s + s + s + s + s + s
  {
    RepeatFive(s);
  }

  /** The prefixes of those two lines for any palette and indent 6. */
  lemma OneEntryPrefixes(box: Box)
    ensures BoxLines(box, TreeBranchBottom, true, [], 6)
            == box.baseItem + Repeat(box.horizontal, 5) + box.hbranchToBottom + box.space
    ensures BoxLines(box, ScalarLine, true, [false], 6)
            == box.space + Repeat(box.space, 5) + box.angleTopRight + Repeat(box.horizontal, 6) + box.space
  {
  }

  /** The same prefixes spelt out for the thin palette. */
  lemma ThinPrefixes()
    ensures BoxLines(ThinBox, TreeBranchBottom, true, [], 6) == "\U{257E}\U{2500}\U{2500}\U{2500}\U{2500}\U{2500}\U{252C} "
    ensures BoxLines(ThinBox, ScalarLine, true, [false], 6) == "      \U{2514}\U{2500}\U{2500}\U{2500}\U{2500}\U{2500}\U{2500} "
  {
    OneEntryPrefixes(ThinBox);
    RepeatFive("\U{2500}");
    RepeatSix("\U{2500}");
    RepeatFive(" ");
  }

  /** The walk of `{"": 1}` named "R" with the thin palette and indent 6,
      line by line. */
  lemma ThinOneEntryLines()
    ensures Walk(ThinBox, OneEntry, "R", true, [], 6, IgnoreStandardTypes) ==
      [TreeLine("\U{257E}\U{2500}\U{2500}\U{2500}\U{2500}\U{2500}\U{252C} ", "R", "dict", ""),
       TreeLine("      \U{2514}\U{2500}\U{2500}\U{2500}\U{2500}\U{2500}\U{2500} ", "", "int", "1")]
  {
    OneEntryLines(ThinBox, 6);
    ThinPrefixes();
    ValueLabelRule(OneEntry.info);
    ValueLabelRule(X.info);
  }

  /** That walk gives exactly the two lines of Columns.MisalignedExample, so
      the misalignment shown there is what `render` prints for `{"": 1}`. */
  lemma OneEntryMisaligned()
    ensures var lines := Walk(ThinBox, OneEntry, "R", true, [], 6, IgnoreStandardTypes);
      var w := WidenAll(Zero, lines);
      |lines| == 2 && w.name == 14 &&
      |FormatLine(lines[0], w)| >= 22 && |FormatLine(lines[1], w)| >= 18 &&
      FormatLine(lines[0], w)[18..22] == "dict" &&
      FormatLine(lines[1], w)[14..17] == "int" &&
      FormatLine(lines[1], w)[18..] != "int1"
  {
    ThinOneEntryLines();
    MisalignedExample();
  }
}
