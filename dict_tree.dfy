/** `DictionaryTree` (src/dict_tree/bin.py:56-384): the line buffer and the
    running column widths, filled by the recursive walk and formatted by
    `render`. */
module DictTree {
  import opened Text
  import opened Boxes
  import opened Nodes
  import opened Lines
  import opened TreeWalk
  import opened Columns

  class DictionaryTree {
    var lineBuffer: seq<TreeLine>
    var maxLengths: Widths

    /** The widths are those `add_line` accumulates over the buffer, from the
        zeros `reset_lines` sets. */
    ghost predicate Valid()
      reads this
    {
      maxLengths == WidenAll(Zero, lineBuffer)
    }

    /** `DictionaryTree(obj, name, box, indent, ignore_types, echo)`: reset,
        then walk the object from the root. */
    constructor (obj: Node, name: string, box: Box, indent: int, ignoreTypes: set<string>)
      ensures Valid()
      ensures lineBuffer == Walk(box, obj, name, true, [], indent, ignoreTypes)
    {
      lineBuffer := [];
      maxLengths := Zero;
      new;
      ResetLines();
      BuildLines(obj, name, box, true, [], indent, ignoreTypes);
    }

    /** `reset_lines`: an empty buffer and all widths 0. */
    method ResetLines()
      modifies this
      ensures lineBuffer == [] && maxLengths == Zero
      ensures Valid()
    {
      lineBuffer := [];
      maxLengths := Zero;
    }

    /** `add_line`: append the line and raise the widths to cover it. */
    method AddLine(line: TreeLine)
      modifies this
      ensures lineBuffer == old(lineBuffer) + [line]
      ensures maxLengths == Widen(old(maxLengths), line)
      ensures old(Valid()) ==> Valid()
    {
      lineBuffer := lineBuffer + [line];
      maxLengths := maxLengths.(name := Max(maxLengths.name, |line.boxLines| + |line.name|));
      maxLengths := maxLengths.(typeLabel := Max(maxLengths.typeLabel, |line.typeLabel|));
      maxLengths := maxLengths.(valueLabel := Max(maxLengths.valueLabel, |line.valueLabel|));
      assert lineBuffer[..|lineBuffer| - 1] == old(lineBuffer);
    }

    /** `build_lines`: append the node's own line, then walk its entries or
        items in order; the recursive calls use the default ignore set. */
    method BuildLines(obj: Node, name: string, box: Box, isLast: bool, layers: seq<bool>,
                      indent: int, ignoreTypes: set<string>)
      modifies this
      ensures lineBuffer == old(lineBuffer) + Walk(box, obj, name, isLast, layers, indent, ignoreTypes)
      ensures maxLengths == WidenAll(old(maxLengths), Walk(box, obj, name, isLast, layers, indent, ignoreTypes))
      ensures old(Valid()) ==> Valid()
      decreases obj, 1
    {
      var nm := name;
      if nm == "" && layers == [] {
        nm := obj.info.guess;
      }
      assert nm == EffectiveName(obj.info, name, layers);
      if obj.Mapping? && !Forced(obj.info, layers, ignoreTypes) {
        var line := BuildLine(obj.info, nm, box, if |obj.entries| > 0 then TreeBranchBottom else ScalarLine,
                              isLast, layers, indent);
        AddLine(line);
        BuildEntries(obj, box, isLast, layers, indent);
        MapBufferDone(box, obj, name, isLast, layers, indent, ignoreTypes, old(lineBuffer), old(maxLengths), line);
      } else if obj.Sequence? && !Forced(obj.info, layers, ignoreTypes) {
        var line := BuildLine(obj.info, nm, box, if |obj.items| > 0 then TreeBranchBottom else ScalarLine,
                              isLast, layers, indent);
        AddLine(line);
        BuildItems(obj, box, isLast, layers, indent);
        SeqBufferDone(box, obj, name, isLast, layers, indent, ignoreTypes, old(lineBuffer), old(maxLengths), line);
      } else {
        var line := BuildLine(obj.info, nm, box, ScalarLine, isLast, layers, indent);
        AddLine(line);
        WalkLeaf(box, obj, name, isLast, layers, indent, ignoreTypes);
        WidenAllOne(old(maxLengths), line);
      }
      WidenAllAppend(Zero, old(lineBuffer), Walk(box, obj, name, isLast, layers, indent, ignoreTypes));
    }

    /** The loop of `build_lines` over a mapping's entries: each value is
        walked under its key, one level deeper, as last for the final entry. */
    method BuildEntries(obj: Node, box: Box, isLast: bool, layers: seq<bool>, indent: int)
      requires obj.Mapping?
      modifies this
      ensures lineBuffer == old(lineBuffer) + MapLines(box, obj, |obj.entries|, isLast, layers, indent)
      ensures maxLengths == WidenAll(old(maxLengths), MapLines(box, obj, |obj.entries|, isLast, layers, indent))
      decreases obj, 0
    {
      var entries := obj.entries;
      ghost var start, widths := lineBuffer, maxLengths;
      assert start == start + MapLines(box, obj, 0, isLast, layers, indent);
      for id := 0 to |entries|
        invariant lineBuffer == start + MapLines(box, obj, id, isLast, layers, indent)
        invariant maxLengths == WidenAll(widths, MapLines(box, obj, id, isLast, layers, indent))
      {
        var tailOfDict := id + 1 >= |entries|;
        assert entries[id] in obj.entries;
        BuildLines(entries[id].value, entries[id].key, box, tailOfDict, layers + [!isLast], indent, IgnoreStandardTypes);
        MapBufferStep(box, obj, id, isLast, layers, indent, start, widths);
      }
    }

    /** The loop of `build_lines` over a sequence's items: each item is
        walked under its padded index label, one level deeper, as last for
        the final item. */
    method BuildItems(obj: Node, box: Box, isLast: bool, layers: seq<bool>, indent: int)
      requires obj.Sequence?
      modifies this
      ensures lineBuffer == old(lineBuffer) + SeqLines(box, obj, |obj.items|, isLast, layers, indent)
      ensures maxLengths == WidenAll(old(maxLengths), SeqLines(box, obj, |obj.items|, isLast, layers, indent))
      decreases obj, 0
    {
      var items := obj.items;
      ghost var start, widths := lineBuffer, maxLengths;
      assert start == start + SeqLines(box, obj, 0, isLast, layers, indent);
      var listPadding := ListPadding(|items|);
      for id := 0 to |items|
        invariant lineBuffer == start + SeqLines(box, obj, id, isLast, layers, indent)
        invariant maxLengths == WidenAll(widths, SeqLines(box, obj, id, isLast, layers, indent))
      {
        var tailOfList := id + 1 >= |items|;
        assert items[id] in obj.items;
        BuildLines(items[id], IndexLabel(id, listPadding), box, tailOfList, layers + [!isLast], indent, IgnoreStandardTypes);
        SeqBufferStep(box, obj, id, isLast, layers, indent, start, widths);
      }
    }

    /** `render`: one formatted string per buffered line, in buffer order,
        joined by the palette's line break with none after the last. */
    method Render(box: Box) returns (text: string)
      ensures text == Join(FormatAll(lineBuffer, maxLengths), box.lineBreak)
    {
      var buffer, widths := lineBuffer, maxLengths;
      var lines: seq<string> := [];
      for i := 0 to |buffer|
        invariant lines == FormatAll(buffer[..i], widths)
      {
        FormatAllAppend(buffer, i, widths);
        lines := lines + [FormatLine(buffer[i], widths)];
      }
      assert buffer[..|buffer|] == buffer;
      text := Join(lines, box.lineBreak);
    }
  }

  /** `render` aligns a valid tree: a buffered line whose name gap is
      non-zero has its type at `max_name + 4` and its value at `ValueColumn`
      of the tree's own widths. */
  lemma RenderAligned(tree: DictionaryTree, i: nat)
    requires tree.Valid() && i < |tree.lineBuffer|
    requires tree.maxLengths.name - |tree.lineBuffer[i].boxLines| != 0
    ensures var line, w := tree.lineBuffer[i], tree.maxLengths;
      var f := FormatLine(line, w);
      |f| >= ValueColumn(w) &&
      f[w.name + 4..w.name + 4 + |line.typeLabel|] == line.typeLabel &&
      f[ValueColumn(w)..] == line.valueLabel
  {
    var lines := tree.lineBuffer;
    assert tree.maxLengths == WidenAll(Zero, lines);
    BufferAlignment(lines, i);
  }

  /** Walking entry `id` after the lines of the entries before it extends
      both the buffer and the widths to those of the first `id + 1`
      entries. */
  lemma MapBufferStep(box: Box, obj: Node, id: nat, isLast: bool, layers: seq<bool>, indent: int,
                       start: seq<TreeLine>, widths: Widths)
    requires obj.Mapping? && id < |obj.entries|
    ensures var before := MapLines(box, obj, id, isLast, layers, indent);
      var child := Walk(box, obj.entries[id].value, obj.entries[id].key, id + 1 >= |obj.entries|,
                        layers + [!isLast], indent, IgnoreStandardTypes);
      var after := MapLines(box, obj, id + 1, isLast, layers, indent);
      (start + before) + child == start + after &&
      WidenAll(WidenAll(widths, before), child) == WidenAll(widths, after)
  {
    var before := MapLines(box, obj, id, isLast, layers, indent);
    var child := Walk(box, obj.entries[id].value, obj.entries[id].key, id + 1 >= |obj.entries|,
                      layers + [!isLast], indent, IgnoreStandardTypes);
    MapLinesStep(box, obj, id, isLast, layers, indent);
    ConcatAssoc(start, before, child);
    WidenAllAppend(widths, before, child);
  }

  /** After the last entry, the node's own line and its entries' lines are
      the walk of the node, for the buffer and for the widths alike. */
  lemma MapBufferDone(box: Box, obj: Node, name: string, isLast: bool, layers: seq<bool>, indent: int,
                      ignoreTypes: set<string>, buf: seq<TreeLine>, widths: Widths, line: TreeLine)
    requires obj.Mapping? && !Forced(obj.info, layers, ignoreTypes)
    requires line == BuildLine(obj.info, EffectiveName(obj.info, name, layers), box, HeadType(|obj.entries|),
                               isLast, layers, indent)
    ensures var walk := Walk(box, obj, name, isLast, layers, indent, ignoreTypes);
      var rest := MapLines(box, obj, |obj.entries|, isLast, layers, indent);
      (buf + [line]) + rest == buf + walk && WidenAll(Widen(widths, line), rest) == WidenAll(widths, walk)
  {
    var rest := MapLines(box, obj, |obj.entries|, isLast, layers, indent);
    WalkMapping(box, obj, name, isLast, layers, indent, ignoreTypes);
    ConcatAssoc(buf, [line], rest);
    WidenAllOne(widths, line);
    WidenAllAppend(widths, [line], rest);
  }

  /** The same for a sequence and its items. */
  lemma SeqBufferDone(box: Box, obj: Node, name: string, isLast: bool, layers: seq<bool>, indent: int,
                      ignoreTypes: set<string>, buf: seq<TreeLine>, widths: Widths, line: TreeLine)
    requires obj.Sequence? && !Forced(obj.info, layers, ignoreTypes)
    requires line == BuildLine(obj.info, EffectiveName(obj.info, name, layers), box, HeadType(|obj.items|),
                               isLast, layers, indent)
    ensures var walk := Walk(box, obj, name, isLast, layers, indent, ignoreTypes);
      var rest := SeqLines(box, obj, |obj.items|, isLast, layers, indent);
      (buf + [line]) + rest == buf + walk && WidenAll(Widen(widths, line), rest) == WidenAll(widths, walk)
  {
    var rest := SeqLines(box, obj, |obj.items|, isLast, layers, indent);
    WalkSequence(box, obj, name, isLast, layers, indent, ignoreTypes);
    ConcatAssoc(buf, [line], rest);
    WidenAllOne(widths, line);
    WidenAllAppend(widths, [line], rest);
  }

  /** The same for item `id` of a sequence. */
  lemma SeqBufferStep(box: Box, obj: Node, id: nat, isLast: bool, layers: seq<bool>, indent: int,
                       start: seq<TreeLine>, widths: Widths)
    requires obj.Sequence? && id < |obj.items|
    ensures var before := SeqLines(box, obj, id, isLast, layers, indent);
      var child := Walk(box, obj.items[id], IndexLabel(id, ListPadding(|obj.items|)), id + 1 >= |obj.items|,
                        layers + [!isLast], indent, IgnoreStandardTypes);
      var after := SeqLines(box, obj, id + 1, isLast, layers, indent);
      (start + before) + child == start + after &&
      WidenAll(WidenAll(widths, before), child) == WidenAll(widths, after)
  {
    var before := SeqLines(box, obj, id, isLast, layers, indent);
    var child := Walk(box, obj.items[id], IndexLabel(id, ListPadding(|obj.items|)), id + 1 >= |obj.items|,
                      layers + [!isLast], indent, IgnoreStandardTypes);
    SeqLinesStep(box, obj, id, isLast, layers, indent);
    ConcatAssoc(start, before, child);
    WidenAllAppend(widths, before, child);
  }
}
