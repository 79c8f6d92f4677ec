/** Column widths and column alignment: the running maxima `add_line` keeps
    (src/dict_tree/bin.py:318-333) and the per-line format `render` builds
    from them (src/dict_tree/bin.py:340-377). */
module Columns {
  import opened Text
  import opened Lines

  /** `max_lengths`, one entry per TreeLine field. The "name" entry measures
      the prefix and the name together. */
  datatype Widths = Widths(boxLines: int, name: int, typeLabel: int, valueLabel: int)

  /** `max_lengths` as `reset_lines` leaves it. */
  const Zero := Widths(0, 0, 0, 0)

  /** The widths after `add_line(line)`; "box_lines" is never touched. */
  function Widen(w: Widths, line: TreeLine): Widths
  {
    w.(name := Max(w.name, |line.boxLines| + |line.name|),
       typeLabel := Max(w.typeLabel, |line.typeLabel|),
       valueLabel := Max(w.valueLabel, |line.valueLabel|))
  }

  /** The widths after adding `lines` one by one. */
  function WidenAll(w: Widths, lines: seq<TreeLine>): Widths
  {
    if lines == [] then w else Widen(WidenAll(w, lines[..|lines| - 1]), lines[|lines| - 1])
  }

  /** Adding a line never shrinks a width, and covers that line. */
  lemma WidenGrows(w: Widths, line: TreeLine)
    ensures var v := Widen(w, line);
      v.boxLines == w.boxLines &&
      w.name <= v.name && w.typeLabel <= v.typeLabel && w.valueLabel <= v.valueLabel &&
      |line.boxLines| + |line.name| <= v.name && |line.typeLabel| <= v.typeLabel &&
      |line.valueLabel| <= v.valueLabel
  {
  }

  /** Adding one line is one `add_line`. */
  lemma WidenAllOne(w: Widths, line: TreeLine)
    ensures WidenAll(w, [line]) == Widen(w, line)
  {
    assert [line][..0] == [];
  }

  /** Adding `a` and then `b` gives the widths of adding `a + b`. */
  lemma {:induction false} WidenAllAppend(w: Widths, a: seq<TreeLine>, b: seq<TreeLine>)
    ensures WidenAll(w, a + b) == WidenAll(WidenAll(w, a), b)
  {
    if b == [] {
      assert a + b == a;
    } else {
      var init := b[..|b| - 1];
      assert (a + b)[..|a + b| - 1] == a + init;
      WidenAllAppend(w, a, init);
    }
  }

  /** Starting from `Zero`, the widths are exactly the column maxima over the
      lines added so far: every line fits, and each maximum is reached by some
      line (or is 0 when there are none); "box_lines" stays 0. */
  lemma {:induction false} WidenAllIsMaximum(lines: seq<TreeLine>)
    ensures var w := WidenAll(Zero, lines);
      w.boxLines == 0 &&
      (forall i :: 0 <= i < |lines| ==>
         |lines[i].boxLines| + |lines[i].name| <= w.name &&
         |lines[i].typeLabel| <= w.typeLabel && |lines[i].valueLabel| <= w.valueLabel) &&
      (w.name == 0 || exists i :: 0 <= i < |lines| && |lines[i].boxLines| + |lines[i].name| == w.name) &&
      (w.typeLabel == 0 || exists i :: 0 <= i < |lines| && |lines[i].typeLabel| == w.typeLabel) &&
      (w.valueLabel == 0 || exists i :: 0 <= i < |lines| && |lines[i].valueLabel| == w.valueLabel)
  {
    if lines != [] {
      var init := lines[..|lines| - 1];
      var last := lines[|lines| - 1];
      WidenAllIsMaximum(init);
      var u := WidenAll(Zero, init);
      var w := WidenAll(Zero, lines);
      assert w == Widen(u, last);
      forall i | 0 <= i < |lines|
        ensures |lines[i].boxLines| + |lines[i].name| <= w.name
        ensures |lines[i].typeLabel| <= w.typeLabel && |lines[i].valueLabel| <= w.valueLabel
      {
        if i < |lines| - 1 {
          assert lines[i] == init[i];
        }
      }
      if w.name != 0 && w.name != |last.boxLines| + |last.name| {
        var i :| 0 <= i < |init| && |init[i].boxLines| + |init[i].name| == u.name;
        assert lines[i] == init[i];
      }
      if w.typeLabel != 0 && w.typeLabel != |last.typeLabel| {
        var i :| 0 <= i < |init| && |init[i].typeLabel| == u.typeLabel;
        assert lines[i] == init[i];
      }
      if w.valueLabel != 0 && w.valueLabel != |last.valueLabel| {
        var i :| 0 <= i < |init| && |init[i].valueLabel| == u.valueLabel;
        assert lines[i] == init[i];
      }
    }
  }

  /** The line's prefix and name fit the name width, its type fits the type
      width, and no width is kept for the prefix column. */
  predicate Fits(line: TreeLine, w: Widths)
  {
    w.boxLines == 0 && |line.boxLines| + |line.name| <= w.name && |line.typeLabel| <= w.typeLabel
  }

  /** Every buffered line fits the widths accumulated over the buffer. */
  lemma WidenAllCovers(lines: seq<TreeLine>, i: nat)
    requires i < |lines|
    ensures Fits(lines[i], WidenAll(Zero, lines))
  {
    WidenAllIsMaximum(lines);
  }

  // ---------------------------------------------------------------------------
  // Formatting

  /** One field of the template: `{f:{width+4}s}` when the width is non-zero,
      a bare `{f}` otherwise. */
  function PadField(s: string, width: int): string
  {
    if width != 0 then PadRight(s, width + 4) else s
  }

  /** The name and type fields as they come out of the template, padding
      included; their widths decide where the later fields start. */
  function NameField(line: TreeLine, w: Widths): string
  {
    PadField(line.name, w.name - |line.boxLines|)
  }

  function TypeField(line: TreeLine, w: Widths): string
  {
    PadField(line.typeLabel, w.typeLabel)
  }

  /** `template_string.format(**line._asdict())` for one buffered line: the
      name width is reduced by this line's prefix length, and the last field
      (the value) is never padded. */
  function FormatLine(line: TreeLine, w: Widths): string
  {
    PadField(line.boxLines, w.boxLines) + NameField(line, w) + TypeField(line, w) + line.valueLabel
  }

  /** `_lines`: one formatted string per buffered line, in order. */
  function FormatAll(lines: seq<TreeLine>, w: Widths): (r: seq<string>)
    ensures |r| == |lines|
    ensures forall i :: 0 <= i < |lines| ==> r[i] == FormatLine(lines[i], w)
  {
    seq(|lines|, i requires 0 <= i < |lines| => FormatLine(lines[i], w))
  }

  /** Formatting one more line of the buffer appends its formatted string. */
  lemma FormatAllAppend(buf: seq<TreeLine>, i: nat, w: Widths)
    requires i < |buf|
    ensures FormatAll(buf[..i + 1], w) == FormatAll(buf[..i], w) + [FormatLine(buf[i], w)]
  {
    var a, b := FormatAll(buf[..i + 1], w), FormatAll(buf[..i], w) + [FormatLine(buf[i], w)];
    assert |a| == |b|;
    forall k | 0 <= k < |a|
      ensures a[k] == b[k]
    {
      if k < i {
        assert buf[..i + 1][k] == buf[..i][k];
      }
    }
  }

  /** Where the value column starts on an aligned line. */
  function ValueColumn(w: Widths): int
  {
    w.name + 4 + (if w.typeLabel != 0 then w.typeLabel + 4 else 0)
  }

  /** On a line that fits the widths and whose prefix is shorter than the
      name width, the prefix is printed unpadded, the name follows it, the
      type starts at column `max_name + 4` and the value at `ValueColumn(w)`:
      the same columns on all such lines, whatever their depth. */
  lemma Alignment(line: TreeLine, w: Widths)
    requires Fits(line, w) && w.name - |line.boxLines| != 0
    ensures var f := FormatLine(line, w);
      |f| >= ValueColumn(w) &&
      f[..|line.boxLines|] == line.boxLines &&
      f[|line.boxLines|..|line.boxLines| + |line.name|] == line.name &&
      f[w.name + 4..w.name + 4 + |line.typeLabel|] == line.typeLabel &&
      f[ValueColumn(w)..] == line.valueLabel
  {
    FieldOffsets(line, w);
  }

  /** The widths of the padded fields of a line that fits. */
  lemma FieldWidths(line: TreeLine, w: Widths)
    requires Fits(line, w)
    ensures |NameField(line, w)| == (if w.name - |line.boxLines| != 0 then w.name - |line.boxLines| + 4 else |line.name|)
    ensures |TypeField(line, w)| == (if w.typeLabel != 0 then w.typeLabel + 4 else 0)
    ensures NameField(line, w)[..|line.name|] == line.name
    ensures TypeField(line, w)[..|line.typeLabel|] == line.typeLabel
  {
  }

  /** The columns of one formatted line that fits the widths, in the aligned
      case (non-zero name gap) and in the zero-gap case alike. */
  lemma FieldOffsets(line: TreeLine, w: Widths)
    requires Fits(line, w)
    ensures var f := FormatLine(line, w);
      var typeStart := if w.name - |line.boxLines| != 0 then w.name + 4 else w.name;
      var valueStart := typeStart + (if w.typeLabel != 0 then w.typeLabel + 4 else 0);
      |f| == valueStart + |line.valueLabel| &&
      f[..|line.boxLines|] == line.boxLines &&
      f[|line.boxLines|..|line.boxLines| + |line.name|] == line.name &&
      f[typeStart..typeStart + |line.typeLabel|] == line.typeLabel &&
      f[valueStart..] == line.valueLabel
  {
    FieldWidths(line, w);
    FieldSlices(line.boxLines, NameField(line, w), TypeField(line, w), line.valueLabel,
                |line.name|, |line.typeLabel|);
  }

  /** Slicing `b + n + t + v` at the field boundaries, for fields `n` and `t`
      that begin with strings of lengths `k` and `m`. */
  lemma FieldSlices(b: string, n: string, t: string, v: string, k: nat, m: nat)
    requires k <= |n| && m <= |t|
    ensures var f := b + n + t + v;
      f[..|b|] == b && f[|b|..|b| + k] == n[..k] &&
      f[|b| + |n|..|b| + |n| + m] == t[..m] && f[|b| + |n| + |t|..] == v
  {
    var f := b + n + t + v;
    Slices4(b, n, t, v);
    SliceOfSlice(f, |b|, |b| + k, |b| + |n|);
    SliceOfSlice(f, |b| + |n|, |b| + |n| + m, |b| + |n| + |t|);
  }

  /** `render` puts the palette's line break between consecutive lines and
      nowhere else: with a break character that no line contains, the text
      holds exactly one fewer break than there are lines. */
  lemma {:induction false} FormatAllLineBreaks(lines: seq<TreeLine>, w: Widths, c: char)
    requires |lines| >= 1
    requires forall i :: 0 <= i < |lines| ==> Count(c, FormatLine(lines[i], w)) == 0
    ensures Count(c, Join(FormatAll(lines, w), [c])) == |lines| - 1
  {
    JoinSeparators(FormatAll(lines, w), c);
  }

  // ---------------------------------------------------------------------------
  // The zero-gap case

  /** When a line's prefix alone is as wide as the name column, the line's
      name is necessarily empty, the name field gets no padding at all
      (not even the 4 separating blanks), and the type starts at column
      `max_name` instead of `max_name + 4`. */
  lemma ZeroGapMisaligns(line: TreeLine, w: Widths)
    requires Fits(line, w) && w.name - |line.boxLines| == 0
    ensures var f := FormatLine(line, w);
      line.name == "" &&
      |f| >= w.name + |line.typeLabel| &&
      f[w.name..w.name + |line.typeLabel|] == line.typeLabel
  {
    FieldOffsets(line, w);
  }

  /** With the widths accumulated over a whole buffer, every line of it
      whose name gap is non-zero has its type at `max_name + 4` and its value
      at `ValueColumn`. */
  lemma BufferAlignment(lines: seq<TreeLine>, i: nat)
    requires i < |lines| && WidenAll(Zero, lines).name - |lines[i].boxLines| != 0
    ensures var w := WidenAll(Zero, lines);
      var f := FormatLine(lines[i], w);
      |f| >= ValueColumn(w) &&
      f[w.name + 4..w.name + 4 + |lines[i].typeLabel|] == lines[i].typeLabel &&
      f[ValueColumn(w)..] == lines[i].valueLabel
  {
    var w := WidenAll(Zero, lines);
    WidenAllCovers(lines, i);
    assert Fits(lines[i], w);
    Alignment(lines[i], w);
  }

  /** Two lines as the walk produces them for `{"": 1}` named "R" with the
      thin palette and indent 6: the root's type starts at column 18, the
      child's at column 14. */
  lemma MisalignedExample()
    ensures var root := TreeLine("\U{257E}\U{2500}\U{2500}\U{2500}\U{2500}\U{2500}\U{252C} ", "R", "dict", "");
      var child := TreeLine("      \U{2514}\U{2500}\U{2500}\U{2500}\U{2500}\U{2500}\U{2500} ", "", "int", "1");
      var w := WidenAll(Zero, [root, child]);
      w.name == 14 &&
      |FormatLine(root, w)| >= 22 && |FormatLine(child, w)| >= 18 &&
      FormatLine(root, w)[18..22] == "dict" &&
      FormatLine(child, w)[14..17] == "int" &&
      FormatLine(child, w)[18..] != "int1"
  {
    var root := TreeLine("\U{257E}\U{2500}\U{2500}\U{2500}\U{2500}\U{2500}\U{252C} ", "R", "dict", "");
    var child := TreeLine("      \U{2514}\U{2500}\U{2500}\U{2500}\U{2500}\U{2500}\U{2500} ", "", "int", "1");
    var lines := [root, child];
    assert lines[..1] == [root];
    assert WidenAll(Zero, [root]) == Widths(0, 9, 4, 0) by {
      assert [root][..0] == [];
    }
    var w := WidenAll(Zero, lines);
    assert w == Widths(0, 14, 4, 1);
    WidenAllCovers(lines, 0);
    WidenAllCovers(lines, 1);
    Alignment(root, w);
    ZeroGapMisaligns(child, w);
    FieldOffsets(child, w);
  }

  /** The evidently intended format: the name field is always padded to
      `max_name - len(box_lines) + 4`, zero gap included. */
  function FormatLineAligned(line: TreeLine, w: Widths): string
  {
    PadField(line.boxLines, w.boxLines) + PadRight(line.name, w.name - |line.boxLines| + 4)
    + TypeField(line, w) + line.valueLabel
  }

  /** With the corrected format the type starts at `max_name + 4` and the
      value at `ValueColumn(w)` on every line that fits, zero gap included. */
  lemma AlignedEverywhere(line: TreeLine, w: Widths)
    requires Fits(line, w)
    ensures var f := FormatLineAligned(line, w);
      |f| >= ValueColumn(w) &&
      f[..|line.boxLines|] == line.boxLines &&
      f[w.name + 4..w.name + 4 + |line.typeLabel|] == line.typeLabel &&
      f[ValueColumn(w)..] == line.valueLabel
  {
    var n := PadRight(line.name, w.name - |line.boxLines| + 4);
    FieldWidths(line, w);
    FieldSlices(line.boxLines, n, TypeField(line, w), line.valueLabel, |line.name|, |line.typeLabel|);
  }
}
