# dict_tree in Dafny

A model of the renderer at the heart of `dict_tree`. `DictionaryTree` walks a
nested object and appends one `TreeLine` per visited object to a line buffer:
mappings (dicts, objects with `__dict__`, namedtuples) and sequences (lists
and tuples) are expanded, and everything else becomes a leaf. Each
line carries a box-drawing prefix, a name, a type label and a value label,
and `add_line` keeps the running maximum width of each column. `render`
then pads every line's fields to those widths and joins them with the
palette's line break.

The model has seven modules:

- `Text`: the Python string operations the renderer uses (`n * s`,
  `str.join`, `str(int)`, `{:Ns}` and `{:Nd}` formatting).
- `Boxes`: the three glyph palettes.
- `Nodes`: what the renderer reads off an object: its kind, the names of its
  classes (for `isinstance`), `type(obj).__name__`, `str(obj)` and the root
  label `guess_name` would give. Also the type/value label rule of the line
  template.
- `Lines`: `build_line`, the prefix of one line.
- `TreeWalk`: the walk as a pure function `Walk` of the object and its
  context, plus what the walk guarantees. It makes one line per node. Each
  node's own line comes first, then its children in order. Each child's line
  is at the position given by the children before it, and is marked as last
  exactly for the final child. Every line of a subtree carries its
  ancestors' guides. Index labels are padded to a common width.
- `Columns`: the widths `add_line` accumulates and the per-line format
  `render` builds, with alignment lemmas for the resulting columns.
- `DictTree`: the class `DictionaryTree`.
  - Fields: `lineBuffer` and `maxLengths`.
  - `ResetLines`, `AddLine`, a recursive `BuildLines`, and `Render` with a
    loop over the buffer. The two loops of `build_lines`, over a mapping's
    entries and over a sequence's items, are the methods `BuildEntries` and
    `BuildItems`, which `BuildLines` calls.
  - Each method is proved against the functions above. `BuildLines` appends
    exactly `Walk(...)` to the buffer and raises the widths exactly as adding
    those lines one by one would. Every method keeps the invariant that the
    widths are the column maxima of the buffer.

`Scenario` proves what the walk gives on `{"x": 1, "y": [2, 3]}`, for any
single-width palette and any indent. `Misalignment` proves what the walk and
the format give on `{"": 1}` named "R" with the thin palette and indent 6,
the object of the finding below.

Two behaviours of the code are kept as written:
- The recursive calls of `build_lines` do not forward `ignore_types`, so every
  object below the root is classified with the default set.
- In `render`, the name field gets no padding at all when
  `max_name - len(box_lines)` is 0.

The second is listed under Findings.

Two facts about the output:
- `{"x": 1, "y": [2, 3]}` gives five lines (root, "x", "y", "[0]", "[1]"):
  `Scenario.RootFiveLines`.
- List indices are right-aligned with blanks by `f"[{_id:{_list_padding}}]"`:
  `TreeWalk.IndexLabelDigits`.

## Model

| member | source | states |
|---|---|---|
| Text.Repeat | src/dict_tree/bin.py:293-295 | `n * s` of a one-character glyph is n characters long and uses only that glyph |
| Text.RepeatLength | src/dict_tree/bin.py:293-295 | `n * s` is n times as long as s |
| Text.PadRight | src/dict_tree/bin.py:364 | `{:Ns}` keeps the string as a prefix, fills with blanks, and is max(N, len) long |
| Text.PadLeft | src/dict_tree/bin.py:232 | `{:N}` on an index keeps the digits as a suffix after blanks, max(N, len) long |
| Text.NatToStringRoundTrip | src/dict_tree/bin.py:232 | `str(id)` reads back as id and has no leading zero |
| Text.NatToStringLength | src/dict_tree/bin.py:225-232 | `str(n)` has at most k digits exactly when n < 10^k |
| Text.Join | src/dict_tree/bin.py:375-377 | `sep.join` starts with the first part, ends with the last, and is the part itself for one part |
| Text.JoinSeparators | src/dict_tree/bin.py:375-377 | joining parts free of the break character puts exactly one break between consecutive parts and none at the end |
| Boxes.ShippedPalettesAreDistinct | src/dict_tree/boxes.py:9-42 | in each palette the branch-down glyph differs from every leaf-prefix glyph, and the line break is "\n" |
| Nodes.IsInstance | src/dict_tree/bin.py:26-29 | `isinstance(obj, types)`: some class of the object is named in `types`; used by `ValueLabelRule` and by the walk's `Forced` |
| Nodes.TypeLabel | src/dict_tree/bin.py:22-23 | the "type" entry of the template, `type(obj).__name__`; `Lines.BuildLine` puts it on every line |
| Nodes.ValueLabel | src/dict_tree/bin.py:24-30 | the "value" entry of the template; its two cases are `ValueLabelRule` |
| Nodes.SequenceShowsNoValue | src/dict_tree/bin.py:194-200 | a sequence whose classes agree with its kind (`WellFormed`: a list or a tuple) shows no value |
| Nodes.ValueLabelRule | src/dict_tree/bin.py:11-32 | the value label is empty for an instance of dict, list or tuple (namedtuples included), and `str(obj)` otherwise |
| Lines.Segment | src/dict_tree/bin.py:281 | one ancestor's columns: a guide or a blank, then `max(0, indent-1)` blanks; `SegmentAt` gives each column |
| Lines.Indentation | src/dict_tree/bin.py:280-283 | `_tree_indent`, one segment per layer in order; its length, columns and characters are `IndentationLength`, `IndentationAt` and `IndentationChars` |
| Lines.BranchGlyph | src/dict_tree/bin.py:285-290 | `_branch_char`; where it lands is `BranchAt` |
| Lines.BoxLines | src/dict_tree/bin.py:292-304 | `_box_lines` for each line type; the two the walk uses are described by `BranchAt`, `ScalarTail`, `BranchBottomTail` and `PrefixLengths` |
| Lines.BuildLine | src/dict_tree/bin.py:258-315 | the line carries the given name, `type(obj).__name__` and the value label, and its prefix starts with the ancestors' indentation |
| Lines.IndentationLength | src/dict_tree/bin.py:280-283 | the indentation is `max(1, indent)` columns per ancestor |
| Lines.IndentationAt | src/dict_tree/bin.py:280-283 | column i*w of the indentation is a vertical guide exactly when layer i is set; every other column is blank |
| Lines.IndentationChars | src/dict_tree/bin.py:280-283 | the indentation is made only of guides and blanks |
| Lines.BranchAt | src/dict_tree/bin.py:285-294 | after the indentation comes the base marker at the root, and otherwise the corner for the last sibling and the right branch for the others |
| Lines.ScalarTail | src/dict_tree/bin.py:293-300 | a leaf prefix ends with `max(1, indent)` horizontals and a blank, and never holds the branch-down glyph |
| Lines.BranchBottomTail | src/dict_tree/bin.py:294-302 | a parent prefix ends with `max(0, indent-1)` horizontals, the branch-down glyph and a blank |
| Lines.PrefixLengths | src/dict_tree/bin.py:293-294 | for every indent, leaf and parent prefixes are both (depth+1)*max(1, indent)+2 long |
| TreeWalk.Forced | src/dict_tree/bin.py:149-156 | an object of an ignored type is printed as a scalar except at the root; `RootIgnoreSetIrrelevant` shows the root is never collapsed |
| TreeWalk.EffectiveName | src/dict_tree/bin.py:127-128 | the guessed name replaces an empty name only at the root; `WalkHead` shows it on the first line |
| TreeWalk.Walk | src/dict_tree/bin.py:115-256 | the lines `build_lines` appends for one object; what they are is stated by `WalkSize`, `WalkHead`, `HeadBranchDown`, `WalkGuides`, the child lemmas below and `RootIgnoreSetIrrelevant` |
| TreeWalk.MapLines | src/dict_tree/bin.py:179-190 | the lines of a mapping's first k entries, each value walked under `str(key)` one level deeper with the default ignore set; see `MapLinesSize`, `MapLinesPrefix`, `MapLinesAt` and `MapLinesGuides` |
| TreeWalk.SeqLines | src/dict_tree/bin.py:225-237 | the lines of a sequence's first k items, each walked under its padded index label one level deeper; see `SeqLinesSize`, `SeqLinesPrefix`, `SeqLinesAt` and `SeqLinesGuides` |
| TreeWalk.IndexLabel | src/dict_tree/bin.py:232 | `f"[{_id:{_list_padding}}]"`; its layout is `IndexLabelDigits` and its width `IndexLabelWidth` |
| TreeWalk.ListPadding | src/dict_tree/bin.py:225 | `ceil(log10(max(1, n)))` is the least k with 10^k >= max(1, n) |
| TreeWalk.WalkSize | src/dict_tree/bin.py:115-256 | the walk appends at least one line and never more lines than nodes, and exactly one per node when the object is not collapsed and nothing below it is a class or module |
| TreeWalk.MapLinesSize | src/dict_tree/bin.py:179-190 | the entries' lines number at most the entries' nodes, and exactly that many when none is collapsed |
| TreeWalk.SeqLinesSize | src/dict_tree/bin.py:226-237 | the same for the items of a sequence |
| TreeWalk.WalkHead | src/dict_tree/bin.py:126-256 | the first line is the object's own: guessed name at an unnamed root, its type and value labels, and a parent prefix exactly when it is expanded with at least one child |
| TreeWalk.HeadBranchDown | src/dict_tree/bin.py:167-256 | the branch-down glyph is in the object's prefix if and only if the object is expanded and non-empty |
| TreeWalk.WalkGuides | src/dict_tree/bin.py:179-190 | every line of a subtree starts with its root's indentation, and every line after the first with that indentation extended by "not last" |
| TreeWalk.MapLinesGuides | src/dict_tree/bin.py:179-190 | all lines of a mapping's entries start with the children's indentation |
| TreeWalk.SeqLinesGuides | src/dict_tree/bin.py:226-237 | all lines of a sequence's items start with the children's indentation |
| TreeWalk.MapLinesPrefix | src/dict_tree/bin.py:179-190 | the lines of the first j entries are a prefix of those of the first k, strictly shorter for j < k |
| TreeWalk.SeqLinesPrefix | src/dict_tree/bin.py:226-237 | the lines of the first j items are a prefix of those of the first k, strictly shorter for j < k |
| TreeWalk.MapLinesAt | src/dict_tree/bin.py:179-190 | entry j's first line comes right after the lines of the entries before it |
| TreeWalk.SeqLinesAt | src/dict_tree/bin.py:226-237 | item j's first line comes right after the lines of the items before it |
| TreeWalk.MapChildHeads | src/dict_tree/bin.py:179-190 | each non-final entry, in order: it starts before every later entry and is walked under its key, one level deeper, as not last |
| TreeWalk.MapLastChild | src/dict_tree/bin.py:180 | the final entry is walked as the last sibling |
| TreeWalk.SeqChildHeads | src/dict_tree/bin.py:226-237 | each non-final item, in order: it starts before every later item and is walked under its padded index label, one level deeper, as not last |
| TreeWalk.SeqLastChild | src/dict_tree/bin.py:226-227 | the final item is walked under its padded index label as the last sibling |
| TreeWalk.IndexLabelWidth | src/dict_tree/bin.py:225-232 | in a list of two or more items every label is padding+2 wide |
| TreeWalk.IndexLabelsEqualWidth | src/dict_tree/bin.py:225-232 | all index labels of one list have the same width |
| TreeWalk.IndexLabelDigits | src/dict_tree/bin.py:232 | a label is "[", blanks, the index's digits (which read back as the index) and "]" |
| TreeWalk.RootIgnoreSetIrrelevant | src/dict_tree/bin.py:149-190 | for any tuple of types, the caller's `ignore_types` never changes the walk from the root, because the set is not forwarded and the root is never collapsed |
| Columns.Widen | src/dict_tree/bin.py:318-333 | the widths after one `add_line`; see `WidenGrows` |
| Columns.WidenAll | src/dict_tree/bin.py:318-333 | the widths after adding lines one by one; see `WidenAllIsMaximum` and `WidenAllAppend` |
| Columns.WidenGrows | src/dict_tree/bin.py:318-333 | `add_line` never shrinks a width, covers the added line, and leaves the prefix width at 0 |
| Columns.WidenAllIsMaximum | src/dict_tree/bin.py:318-333 | from the reset widths, each width is the maximum over the buffered lines (0 for none), and the prefix width stays 0 |
| Columns.WidenAllAppend | src/dict_tree/bin.py:318-333 | adding two sequences of lines one after the other gives the widths of adding them all at once |
| Columns.WidenAllCovers | src/dict_tree/bin.py:318-333 | every buffered line fits the accumulated widths |
| Columns.PadField | src/dict_tree/bin.py:364 | one template field, padded to width+4 only when the width is non-zero; see `FieldWidths` |
| Columns.FormatLine | src/dict_tree/bin.py:346-373 | `template_string.format(...)` for one buffered line; see `FieldWidths`, `FieldOffsets` and `Alignment` |
| Columns.FieldWidths | src/dict_tree/bin.py:364 | the name field is `max_name - len(box_lines) + 4` wide unless that gap is 0, the type field is `max_type + 4` wide unless `max_type` is 0, and each field starts with its text |
| Columns.FieldOffsets | src/dict_tree/bin.py:346-373 | a fitting line is prefix, name, type and value at fixed columns that depend only on the widths and on whether the name gap is 0 |
| Columns.Alignment | src/dict_tree/bin.py:346-373 | on a fitting line with a non-zero name gap, the type starts at column `max_name + 4` and the value at the value column, whatever the line's depth |
| Columns.BufferAlignment | src/dict_tree/bin.py:318-373 | with the widths accumulated over a whole buffer, every line of it with a non-zero name gap has its type at `max_name + 4` and its value at the value column |
| Columns.FormatAllLineBreaks | src/dict_tree/bin.py:375-377 | provided no formatted line contains the break character, the rendered text holds one break fewer than there are lines |
| Columns.ZeroGapMisaligns | src/dict_tree/bin.py:364 | with a zero name gap the name is empty and the type starts at column `max_name`, not `max_name + 4` |
| Columns.MisalignedExample | src/dict_tree/bin.py:364 | for `{"": 1}` named "R" (thin palette, indent 6) the root's type is at column 18 and the child's at column 14 |
| Columns.AlignedEverywhere | src/dict_tree/bin.py:364 | with the name field always padded, every fitting line has its type at `max_name + 4` and its value at the value column |
| DictTree.DictionaryTree.constructor | src/dict_tree/bin.py:67-89 | a new tree holds exactly the walk of the object from the root, with consistent widths |
| DictTree.DictionaryTree.ResetLines | src/dict_tree/bin.py:91-99 | an empty buffer and all widths 0 |
| DictTree.DictionaryTree.AddLine | src/dict_tree/bin.py:318-333 | appends the line and raises each width to cover it, keeping the widths the buffer's maxima |
| DictTree.DictionaryTree.BuildLines | src/dict_tree/bin.py:115-256 | appends exactly the walk's lines to the buffer and raises the widths exactly as adding those lines one by one would, keeping the widths the buffer's maxima |
| DictTree.DictionaryTree.BuildEntries | src/dict_tree/bin.py:179-190 | the loop over a mapping's entries appends exactly the entries' lines and raises the widths by them |
| DictTree.DictionaryTree.BuildItems | src/dict_tree/bin.py:225-237 | the loop over a sequence's items appends exactly the items' lines and raises the widths by them |
| DictTree.DictionaryTree.Render | src/dict_tree/bin.py:335-382 | returns one formatted string per buffered line, in buffer order, joined by the palette's line break |
| DictTree.RenderAligned | src/dict_tree/bin.py:318-373 | in a tree whose widths are those accumulated over its buffer, every buffered line with a non-zero name gap is formatted with its type at `max_name + 4` and its value at the value column |
| Scenario.IndexLabelsOfTwo | src/dict_tree/bin.py:225-232 | a two-item list is padded to one digit and labelled "[0]" and "[1]" |
| Scenario.YItems | src/dict_tree/bin.py:225-237 | the items of `[2, 3]` give "[0]" (not last) and then "[1]" (last), two levels deep |
| Scenario.YLines | src/dict_tree/bin.py:194-237 | the list `[2, 3]` as last entry gives its own line, then "[0]" and "[1]" two levels deep |
| Scenario.RootLines | src/dict_tree/bin.py:137-190 | the root mapping gives its guessed-name line, then "x", then the lines of "y" |
| Scenario.RootFiveLines | src/dict_tree/bin.py:115-256 | for any single-width palette and indent, `{"x": 1, "y": [2, 3]}` gives five lines with these names and labels, "[0]" on the right branch and "[1]" on the corner |
| Misalignment.OneEntryLines | src/dict_tree/bin.py:137-190 | for any palette and indent, `{"": 1}` named "R" gives its own branch-down line under "R", then one last leaf line under the empty key |
| Misalignment.OneEntryPrefixes | src/dict_tree/bin.py:280-302 | with indent 6, the root's prefix is base item, five horizontals, branch-down, space, and the child's is six blanks, corner, six horizontals, space |
| Misalignment.ThinPrefixes | src/dict_tree/bin.py:280-302 | those two prefixes spelt out with the thin palette |
| Misalignment.ThinOneEntryLines | src/dict_tree/bin.py:115-310 | with the thin palette and indent 6, the walk of `{"": 1}` named "R" is exactly the two lines of `Columns.MisalignedExample` |
| Misalignment.OneEntryMisaligned | src/dict_tree/bin.py:364 | those walked lines, formatted with their accumulated widths, put the root's type at column 18 and the child's at column 14 |

## Left out

- `echo` and `print` (src/dict_tree/bin.py:85-89, 379-380) are output only. `Render` returns the text, and the constructor does not render.
- The `__main__` demo (src/dict_tree/bin.py:387-451) is not part of this model.
- `guess_name` (src/dict_tree/bin.py:101-113) is not modelled; its result is the `guess` field of each object's `Info`. The address it prints is `id(obj)`, which only the runtime knows.
- Introspection is not modelled: `isinstance` against `dict`, `__dict__`, `_fields`/`_asdict` and `Generator`. Each object arrives already classified as a `Mapping`, `Sequence` or `Scalar`, with its class names, `str(obj)` and `str(key)` as strings.
- Generators are not modelled. The code sends them to the list branch (src/dict_tree/bin.py:194-206), but `copy(obj)` at src/dict_tree/bin.py:210 raises `TypeError` for a generator, so no generator is ever listed. The model has no generator node.
- Objects that contain themselves are not modelled. `build_lines` has no cycle guard or depth guard, so `d = {}; d["k"] = d`, or nesting deeper than the interpreter's recursion limit, recurses at src/dict_tree/bin.py:183-190 until `RecursionError`. A `Node` is a finite tree and `Walk` is total, so the model has neither case.
- An `ignore_types` that is not a tuple of types is not modelled. `isinstance(obj, ignore_types)` at src/dict_tree/bin.py:154 and 205 runs before `layers` is looked at, so for a mapping or list root a list such as `[type]` (which the annotation `Iterable[type]` allows) raises `TypeError`. The model takes a set of class names, which always works.
- The dictionary views' iteration order is not modelled. Entries and items are given in iteration order.
- `isinstance` compares class names, so two distinct classes with the same name are treated as one.
- The `template` parameter of `build_line` is not modelled; the default template is fixed, because the walk never passes another.
- The line types `INDENT_ONLY` and `TREE_LIST_ITEM` are modelled in `Lines.BoxLines` but have no lemmas, because the walk never produces them.
- The `isinstance(line, TreeLine)` guard in `add_line` is not modelled, because `AddLine` only accepts a `TreeLine`.
- `math.log10` is floating point; `TreeWalk.ListPadding` is the exact integer value. For lists of very many items (around 10^15 and more) the float rounding can give a smaller padding than the model does.
- `len` counts characters with no regard to display width, and so does the model, so double-width glyphs misalign in both.
- `__str__ = render` (src/dict_tree/bin.py:384) is not modelled separately: it is `Render` with the thin palette.
- Columns.Alignment: stated for one line and any widths the line fits. That every buffered line fits the accumulated widths is the separate lemma `Columns.WidenAllCovers`, and the two together are `Columns.BufferAlignment`.
- DictTree.DictionaryTree.Render: renders as the code does, with zero-gap lines misaligned. The corrected format is `Columns.FormatLineAligned`, and its property is `Columns.AlignedEverywhere`.

## Findings

| source | as written | input that shows it | evidently intended | confidence | as-written member | corrected member |
|---|---|---|---|---|---|---|
| src/dict_tree/bin.py:364 | the name field is formatted bare when `max_name - len(box_lines)` is 0, which drops the 4 separating blanks along with the padding | `{"": 1}` named "R", thin palette, indent 6: the child's prefix is the widest name column (14), so its type starts at column 14 while the root's starts at 18 | pad the name field to `max_name - len(box_lines) + 4` on every line, so all types start at `max_name + 4` | medium, not executed | Columns.ZeroGapMisaligns, Columns.MisalignedExample, Misalignment.OneEntryMisaligned | Columns.AlignedEverywhere |
