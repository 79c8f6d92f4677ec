/** The lines `DictionaryTree.build_lines` appends for one object, as a
    function of the object and the walk's context (src/dict_tree/bin.py:115-256),
    and what the walk guarantees about them. */
module TreeWalk {
  import opened Text
  import opened Boxes
  import opened Nodes
  import opened Lines

  /** An object in `ignore_types` is printed as a scalar, except at the root. */
  predicate Forced(info: Info, layers: seq<bool>, ignoreTypes: set<string>)
  {
    IsInstance(info, ignoreTypes) && layers != []
  }

  /** The root gets the guessed label when no name is given. */
  function EffectiveName(info: Info, name: string, layers: seq<bool>): string
  {
    if name == "" && layers == [] then info.guess else name
  }

  function HeadType(children: nat): LineType
  {
    if children > 0 then TreeBranchBottom else ScalarLine
  }

  /** Least k >= K with 10^k >= m, given that no smaller one qualifies. */
  function LeastPowerAtLeast(m: nat, k: nat): (r: nat)
    requires m >= 1 && (k == 0 || Pow10(k - 1) < m)
    ensures Pow10(r) >= m
    ensures r == 0 || Pow10(r - 1) < m
    decreases m - Pow10(k)
  {
    if Pow10(k) >= m then k else LeastPowerAtLeast(m, k + 1)
  }

  /** `_list_padding = ceil(log10(max(1, n)))`, in integers: the least k with
      10^k >= max(1, n). */
  function ListPadding(n: nat): (k: nat)
    ensures Pow10(k) >= Max(1, n)
    ensures k == 0 || Pow10(k - 1) < n
  {
    LeastPowerAtLeast(Max(1, n), 0)
  }

  /** `f"[{id:{padding}}]"`. */
  function IndexLabel(id: nat, padding: nat): string
  {
    "[" + PadLeft(NatToString(id), padding) + "]"
  }

  /** The lines `build_lines(obj, name, box, is_last_item, layers, indent,
      ignore_types)` appends, in order. */
  function Walk(box: Box, node: Node, name: string, isLast: bool, layers: seq<bool>,
                indent: int, ignoreTypes: set<string>): seq<TreeLine>
    decreases node, 1
  {
    var nm := EffectiveName(node.info, name, layers);
    if node.Mapping? && !Forced(node.info, layers, ignoreTypes) then
      [BuildLine(node.info, nm, box, HeadType(|node.entries|), isLast, layers, indent)]
      + MapLines(box, node, |node.entries|, isLast, layers, indent)
    else if node.Sequence? && !Forced(node.info, layers, ignoreTypes) then
      [BuildLine(node.info, nm, box, HeadType(|node.items|), isLast, layers, indent)]
      + SeqLines(box, node, |node.items|, isLast, layers, indent)
    else
      [BuildLine(node.info, nm, box, ScalarLine, isLast, layers, indent)]
  }

  /** The lines of the first k entries of a mapping; the recursive calls get
      the default ignore set, not the caller's. */
  function MapLines(box: Box, node: Node, k: nat, parentLast: bool, layers: seq<bool>, indent: int): seq<TreeLine>
    requires node.Mapping? && k <= |node.entries|
    decreases node, 0, k
  {
    if k == 0 then []
    else
      MapLines(box, node, k - 1, parentLast, layers, indent)
      + Walk(box, node.entries[k - 1].value, node.entries[k - 1].key, k >= |node.entries|,
             layers + [!parentLast], indent, IgnoreStandardTypes)
  }

  /** The lines of the first k items of a sequence, named by padded index. */
  function SeqLines(box: Box, node: Node, k: nat, parentLast: bool, layers: seq<bool>, indent: int): seq<TreeLine>
    requires node.Sequence? && k <= |node.items|
    decreases node, 0, k
  {
    if k == 0 then []
    else
      SeqLines(box, node, k - 1, parentLast, layers, indent)
      + Walk(box, node.items[k - 1], IndexLabel(k - 1, ListPadding(|node.items|)), k >= |node.items|,
             layers + [!parentLast], indent, IgnoreStandardTypes)
  }

  // ---------------------------------------------------------------------------
  // Counting nodes

  /** The number of nodes of the object graph: every container counts itself
      and each of its entries or items. */
  function Size(node: Node): nat
    decreases node, 1
  {
    match node
    case Mapping(_, es) => 1 + MapSize(node, |es|)
    case Sequence(_, xs) => 1 + SeqSize(node, |xs|)
    case Scalar(_) => 1
  }

  function MapSize(node: Node, k: nat): nat
    requires node.Mapping? && k <= |node.entries|
    decreases node, 0, k
  {
    if k == 0 then 0 else MapSize(node, k - 1) + Size(node.entries[k - 1].value)
  }

  function SeqSize(node: Node, k: nat): nat
    requires node.Sequence? && k <= |node.items|
    decreases node, 0, k
  {
    if k == 0 then 0 else SeqSize(node, k - 1) + Size(node.items[k - 1])
  }

  /** No object below the root is a class or a module. */
  predicate Plain(node: Node)
  {
    match node
    case Mapping(_, es) =>
      forall j :: 0 <= j < |es| ==> !IsInstance(es[j].value.info, IgnoreStandardTypes) && Plain(es[j].value)
    case Sequence(_, xs) =>
      forall j :: 0 <= j < |xs| ==> !IsInstance(xs[j].info, IgnoreStandardTypes) && Plain(xs[j])
    case Scalar(_) => true
  }

  /** One line per visited node: never more lines than nodes, and exactly one
      per node when nothing below the root is collapsed. */
  lemma {:induction false} WalkSize(box: Box, node: Node, name: string, isLast: bool, layers: seq<bool>,
                                    indent: int, ignoreTypes: set<string>)
    ensures 1 <= |Walk(box, node, name, isLast, layers, indent, ignoreTypes)| <= Size(node)
    ensures !Forced(node.info, layers, ignoreTypes) && Plain(node) ==>
      |Walk(box, node, name, isLast, layers, indent, ignoreTypes)| == Size(node)
    decreases node, 1
  {
    if node.Mapping? && !Forced(node.info, layers, ignoreTypes) {
      MapLinesSize(box, node, |node.entries|, isLast, layers, indent);
    } else if node.Sequence? && !Forced(node.info, layers, ignoreTypes) {
      SeqLinesSize(box, node, |node.items|, isLast, layers, indent);
    }
  }

  lemma {:induction false} MapLinesSize(box: Box, node: Node, k: nat, parentLast: bool, layers: seq<bool>, indent: int)
    requires node.Mapping? && k <= |node.entries|
    ensures |MapLines(box, node, k, parentLast, layers, indent)| <= MapSize(node, k)
    ensures Plain(node) ==> |MapLines(box, node, k, parentLast, layers, indent)| == MapSize(node, k)
    decreases node, 0, k
  {
    if k > 0 {
      var child := node.entries[k - 1];
      MapLinesSize(box, node, k - 1, parentLast, layers, indent);
      WalkSize(box, child.value, child.key, k >= |node.entries|, layers + [!parentLast], indent, IgnoreStandardTypes);
      MapLinesUnfold(box, node, k, parentLast, layers, indent);
      if Plain(node) {
        assert !IsInstance(child.value.info, IgnoreStandardTypes) && Plain(child.value);
      }
    }
  }

  lemma {:induction false} SeqLinesSize(box: Box, node: Node, k: nat, parentLast: bool, layers: seq<bool>, indent: int)
    requires node.Sequence? && k <= |node.items|
    ensures |SeqLines(box, node, k, parentLast, layers, indent)| <= SeqSize(node, k)
    ensures Plain(node) ==> |SeqLines(box, node, k, parentLast, layers, indent)| == SeqSize(node, k)
    decreases node, 0, k
  {
    if k > 0 {
      var child := node.items[k - 1];
      SeqLinesSize(box, node, k - 1, parentLast, layers, indent);
      WalkSize(box, child, IndexLabel(k - 1, ListPadding(|node.items|)), k >= |node.items|,
               layers + [!parentLast], indent, IgnoreStandardTypes);
      SeqLinesUnfold(box, node, k, parentLast, layers, indent);
      if Plain(node) {
        assert !IsInstance(child.info, IgnoreStandardTypes) && Plain(child);
      }
    }
  }

  // ---------------------------------------------------------------------------
  // The node's own line

  /** Whether the walk expands the node into children. */
  predicate Expanded(node: Node, layers: seq<bool>, ignoreTypes: set<string>)
  {
    !node.Scalar? && !Forced(node.info, layers, ignoreTypes)
  }

  function ChildCount(node: Node): nat
  {
    match node
    case Mapping(_, es) => |es|
    case Sequence(_, xs) => |xs|
    case Scalar(_) => 0
  }

  /** The first line is the node's own: its (possibly guessed) name, its type
      and value labels, and a parent prefix exactly when it is expanded into
      at least one child. */
  lemma WalkHead(box: Box, node: Node, name: string, isLast: bool, layers: seq<bool>,
                 indent: int, ignoreTypes: set<string>)
    ensures var w := Walk(box, node, name, isLast, layers, indent, ignoreTypes);
      var lineType := if Expanded(node, layers, ignoreTypes) && ChildCount(node) > 0
                      then TreeBranchBottom else ScalarLine;
      |w| >= 1 &&
      w[0].name == EffectiveName(node.info, name, layers) &&
      w[0].typeLabel == node.info.typeName &&
      w[0].valueLabel == ValueLabel(node.info) &&
      w[0].boxLines == BoxLines(box, lineType, isLast, layers, indent)
  {
  }

  /** Leaves (scalars, collapsed objects, empty containers) never carry the
      branch-down glyph; expanded non-empty containers always do. */
  lemma HeadBranchDown(box: Box, node: Node, name: string, isLast: bool, layers: seq<bool>,
                       indent: int, ignoreTypes: set<string>)
    requires box.BranchDownDistinct()
    ensures var w := Walk(box, node, name, isLast, layers, indent, ignoreTypes);
      |w| >= 1 &&
      (box.hbranchToBottom[0] in w[0].boxLines <==> Expanded(node, layers, ignoreTypes) && ChildCount(node) > 0)
  {
    WalkHead(box, node, name, isLast, layers, indent, ignoreTypes);
    var w := Walk(box, node, name, isLast, layers, indent, ignoreTypes);
    if Expanded(node, layers, ignoreTypes) && ChildCount(node) > 0 {
      BranchBottomTail(box, isLast, layers, indent);
      var p := w[0].boxLines;
      assert p[|p| - 2] == box.hbranchToBottom[0];
    } else {
      ScalarTail(box, isLast, layers, indent);
    }
  }

  // ---------------------------------------------------------------------------
  // Guides drawn for ancestors

  lemma PrefixTransitive<T>(a: seq<T>, b: seq<T>, c: seq<T>)
    requires a <= b && b <= c
    ensures a <= c
  {
    assert c[..|a|] == c[..|b|][..|a|];
  }

  /** Every line of `lines` starts with `indentation`. */
  predicate AllUnder(lines: seq<TreeLine>, indentation: string)
  {
    forall i :: 0 <= i < |lines| ==> indentation <= lines[i].boxLines
  }

  lemma AllUnderConcat(a: seq<TreeLine>, b: seq<TreeLine>, indentation: string)
    requires AllUnder(a, indentation) && AllUnder(b, indentation)
    ensures AllUnder(a + b, indentation)
  {
    forall i | 0 <= i < |a + b|
      ensures indentation <= (a + b)[i].boxLines
    {
      if i < |a| {
        assert (a + b)[i] == a[i];
      } else {
        assert (a + b)[i] == b[i - |a|];
      }
    }
  }

  /** One more entry keeps every line under the indentation. */
  lemma MapLinesAllUnder(box: Box, node: Node, k: nat, parentLast: bool, layers: seq<bool>, indent: int,
                         indentation: string)
    requires node.Mapping? && 0 < k <= |node.entries|
    requires AllUnder(MapLines(box, node, k - 1, parentLast, layers, indent), indentation)
    requires AllUnder(Walk(box, node.entries[k - 1].value, node.entries[k - 1].key, k >= |node.entries|,
                           layers + [!parentLast], indent, IgnoreStandardTypes), indentation)
    ensures AllUnder(MapLines(box, node, k, parentLast, layers, indent), indentation)
  {
    MapLinesUnfold(box, node, k, parentLast, layers, indent);
    AllUnderConcat(MapLines(box, node, k - 1, parentLast, layers, indent),
                   Walk(box, node.entries[k - 1].value, node.entries[k - 1].key, k >= |node.entries|,
                        layers + [!parentLast], indent, IgnoreStandardTypes), indentation);
  }

  /** One more item keeps every line under the indentation. */
  lemma SeqLinesAllUnder(box: Box, node: Node, k: nat, parentLast: bool, layers: seq<bool>, indent: int,
                         indentation: string)
    requires node.Sequence? && 0 < k <= |node.items|
    requires AllUnder(SeqLines(box, node, k - 1, parentLast, layers, indent), indentation)
    requires AllUnder(Walk(box, node.items[k - 1], IndexLabel(k - 1, ListPadding(|node.items|)), k >= |node.items|,
                           layers + [!parentLast], indent, IgnoreStandardTypes), indentation)
    ensures AllUnder(SeqLines(box, node, k, parentLast, layers, indent), indentation)
  {
    SeqLinesUnfold(box, node, k, parentLast, layers, indent);
    AllUnderConcat(SeqLines(box, node, k - 1, parentLast, layers, indent),
                   Walk(box, node.items[k - 1], IndexLabel(k - 1, ListPadding(|node.items|)), k >= |node.items|,
                        layers + [!parentLast], indent, IgnoreStandardTypes), indentation);
  }

  /** A line under `outer` followed by lines under `inner`, where `outer`
      is a prefix of `inner`: all of them are under `outer`, and all but the
      first under `inner`. */
  lemma AllUnderCons(head: TreeLine, rest: seq<TreeLine>, outer: string, inner: string)
    requires outer <= head.boxLines && outer <= inner && AllUnder(rest, inner)
    ensures AllUnder([head] + rest, outer)
    ensures forall i :: 0 < i < |[head] + rest| ==> inner <= ([head] + rest)[i].boxLines
  {
    var w := [head] + rest;
    forall i | 0 <= i < |w|
      ensures outer <= w[i].boxLines
      ensures i > 0 ==> inner <= w[i].boxLines
    {
      if i > 0 {
        assert w[i] == rest[i - 1];
        PrefixTransitive(outer, inner, rest[i - 1].boxLines);
      }
    }
  }

  /** Every line of a subtree starts with its root's indentation, and every
      line below the root line starts with the indentation extended by the
      root's own "not last" flag: the guides of the ancestors run through the
      whole subtree. */
  lemma {:induction false} WalkGuides(box: Box, node: Node, name: string, isLast: bool, layers: seq<bool>,
                                      indent: int, ignoreTypes: set<string>)
    ensures var w := Walk(box, node, name, isLast, layers, indent, ignoreTypes);
      AllUnder(w, Indentation(box, layers, indent)) &&
      forall i :: 0 < i < |w| ==> Indentation(box, layers + [!isLast], indent) <= w[i].boxLines
    decreases node, 1
  {
    var nm := EffectiveName(node.info, name, layers);
    var outer := Indentation(box, layers, indent);
    var inner := Indentation(box, layers + [!isLast], indent);
    IndentationAppend(box, layers, !isLast, indent);
    if node.Mapping? && !Forced(node.info, layers, ignoreTypes) {
      MapLinesGuides(box, node, |node.entries|, isLast, layers, indent);
      WalkMapping(box, node, name, isLast, layers, indent, ignoreTypes);
      AllUnderCons(BuildLine(node.info, nm, box, HeadType(|node.entries|), isLast, layers, indent),
                   MapLines(box, node, |node.entries|, isLast, layers, indent), outer, inner);
    } else if node.Sequence? && !Forced(node.info, layers, ignoreTypes) {
      SeqLinesGuides(box, node, |node.items|, isLast, layers, indent);
      WalkSequence(box, node, name, isLast, layers, indent, ignoreTypes);
      AllUnderCons(BuildLine(node.info, nm, box, HeadType(|node.items|), isLast, layers, indent),
                   SeqLines(box, node, |node.items|, isLast, layers, indent), outer, inner);
    } else {
      WalkLeaf(box, node, name, isLast, layers, indent, ignoreTypes);
      AllUnderCons(BuildLine(node.info, nm, box, ScalarLine, isLast, layers, indent), [], outer, inner);
    }
  }

  lemma {:induction false} MapLinesGuides(box: Box, node: Node, k: nat, parentLast: bool, layers: seq<bool>, indent: int)
    requires node.Mapping? && k <= |node.entries|
    ensures AllUnder(MapLines(box, node, k, parentLast, layers, indent), Indentation(box, layers + [!parentLast], indent))
    decreases node, 0, k
  {
    if k > 0 {
      MapLinesGuides(box, node, k - 1, parentLast, layers, indent);
      WalkGuides(box, node.entries[k - 1].value, node.entries[k - 1].key, k >= |node.entries|,
                 layers + [!parentLast], indent, IgnoreStandardTypes);
      MapLinesAllUnder(box, node, k, parentLast, layers, indent, Indentation(box, layers + [!parentLast], indent));
    }
  }

  lemma {:induction false} SeqLinesGuides(box: Box, node: Node, k: nat, parentLast: bool, layers: seq<bool>, indent: int)
    requires node.Sequence? && k <= |node.items|
    ensures AllUnder(SeqLines(box, node, k, parentLast, layers, indent), Indentation(box, layers + [!parentLast], indent))
    decreases node, 0, k
  {
    if k > 0 {
      SeqLinesGuides(box, node, k - 1, parentLast, layers, indent);
      WalkGuides(box, node.items[k - 1], IndexLabel(k - 1, ListPadding(|node.items|)), k >= |node.items|,
                 layers + [!parentLast], indent, IgnoreStandardTypes);
      SeqLinesAllUnder(box, node, k, parentLast, layers, indent, Indentation(box, layers + [!parentLast], indent));
    }
  }

  // ---------------------------------------------------------------------------
  // Children in order

  /** The lines of the first j entries are a prefix of those of the first k,
      and strictly shorter when j < k. */
  lemma {:induction false} MapLinesPrefix(box: Box, node: Node, j: nat, k: nat, parentLast: bool, layers: seq<bool>, indent: int)
    requires node.Mapping? && j <= k <= |node.entries|
    ensures MapLines(box, node, j, parentLast, layers, indent) <= MapLines(box, node, k, parentLast, layers, indent)
    ensures j < k ==> |MapLines(box, node, j, parentLast, layers, indent)| < |MapLines(box, node, k, parentLast, layers, indent)|
    decreases k, 1
  {
    if j < k {
      MapLinesPrefixStep(box, node, j, k, parentLast, layers, indent);
    }
  }

  lemma MapLinesPrefixStep(box: Box, node: Node, j: nat, k: nat, parentLast: bool, layers: seq<bool>, indent: int)
    requires node.Mapping? && j < k <= |node.entries|
    ensures MapLines(box, node, j, parentLast, layers, indent) <= MapLines(box, node, k, parentLast, layers, indent)
    ensures |MapLines(box, node, j, parentLast, layers, indent)| < |MapLines(box, node, k, parentLast, layers, indent)|
    decreases k, 0
  {
    var a := MapLines(box, node, j, parentLast, layers, indent);
    var b := MapLines(box, node, k - 1, parentLast, layers, indent);
    var c := MapLines(box, node, k, parentLast, layers, indent);
    MapLinesPrefix(box, node, j, k - 1, parentLast, layers, indent);
    MapLinesGrow(box, node, k, parentLast, layers, indent);
    PrefixTransitive(a, b, c);
  }


  lemma {:induction false} SeqLinesPrefix(box: Box, node: Node, j: nat, k: nat, parentLast: bool, layers: seq<bool>, indent: int)
    requires node.Sequence? && j <= k <= |node.items|
    ensures SeqLines(box, node, j, parentLast, layers, indent) <= SeqLines(box, node, k, parentLast, layers, indent)
    ensures j < k ==> |SeqLines(box, node, j, parentLast, layers, indent)| < |SeqLines(box, node, k, parentLast, layers, indent)|
    decreases k, 1
  {
    if j < k {
      SeqLinesPrefixStep(box, node, j, k, parentLast, layers, indent);
    }
  }

  lemma SeqLinesPrefixStep(box: Box, node: Node, j: nat, k: nat, parentLast: bool, layers: seq<bool>, indent: int)
    requires node.Sequence? && j < k <= |node.items|
    ensures SeqLines(box, node, j, parentLast, layers, indent) <= SeqLines(box, node, k, parentLast, layers, indent)
    ensures |SeqLines(box, node, j, parentLast, layers, indent)| < |SeqLines(box, node, k, parentLast, layers, indent)|
    decreases k, 0
  {
    var a := SeqLines(box, node, j, parentLast, layers, indent);
    var b := SeqLines(box, node, k - 1, parentLast, layers, indent);
    var c := SeqLines(box, node, k, parentLast, layers, indent);
    SeqLinesPrefix(box, node, j, k - 1, parentLast, layers, indent);
    SeqLinesGrow(box, node, k, parentLast, layers, indent);
    PrefixTransitive(a, b, c);
  }


  /** Where the line of entry j of an expanded mapping sits. */
  function MapChildStart(box: Box, node: Node, j: nat, isLast: bool, layers: seq<bool>, indent: int): nat
    requires node.Mapping? && j <= |node.entries|
  {
    1 + |MapLines(box, node, j, isLast, layers, indent)|
  }

  function SeqChildStart(box: Box, node: Node, j: nat, isLast: bool, layers: seq<bool>, indent: int): nat
    requires node.Sequence? && j <= |node.items|
  {
    1 + |SeqLines(box, node, j, isLast, layers, indent)|
  }

  /** An expanded mapping: its own line, then the lines of its entries. */
  lemma WalkMapping(box: Box, node: Node, name: string, isLast: bool, layers: seq<bool>,
                    indent: int, ignoreTypes: set<string>)
    requires node.Mapping? && !Forced(node.info, layers, ignoreTypes)
    ensures var w := Walk(box, node, name, isLast, layers, indent, ignoreTypes);
      w == [BuildLine(node.info, EffectiveName(node.info, name, layers), box, HeadType(|node.entries|), isLast, layers, indent)]
           + MapLines(box, node, |node.entries|, isLast, layers, indent)
  {
  }

  /** An expanded sequence: its own line, then the lines of its items. */
  lemma WalkSequence(box: Box, node: Node, name: string, isLast: bool, layers: seq<bool>,
                     indent: int, ignoreTypes: set<string>)
    requires node.Sequence? && !Forced(node.info, layers, ignoreTypes)
    ensures var w := Walk(box, node, name, isLast, layers, indent, ignoreTypes);
      w == [BuildLine(node.info, EffectiveName(node.info, name, layers), box, HeadType(|node.items|), isLast, layers, indent)]
           + SeqLines(box, node, |node.items|, isLast, layers, indent)
  {
  }

  /** Anything not expanded: a single leaf line. */
  lemma WalkLeaf(box: Box, node: Node, name: string, isLast: bool, layers: seq<bool>,
                 indent: int, ignoreTypes: set<string>)
    requires !Expanded(node, layers, ignoreTypes)
    ensures Walk(box, node, name, isLast, layers, indent, ignoreTypes)
            == [BuildLine(node.info, EffectiveName(node.info, name, layers), box, ScalarLine, isLast, layers, indent)]
  {
  }

  /** Within the entries' lines, those of entry j start right after the
      lines of the entries before it. */
  lemma MapLinesAt(box: Box, node: Node, j: nat, parentLast: bool, layers: seq<bool>, indent: int)
    requires node.Mapping? && j < |node.entries|
    ensures var before := MapLines(box, node, j, parentLast, layers, indent);
      var all := MapLines(box, node, |node.entries|, parentLast, layers, indent);
      |before| < |all| &&
      all[|before|] == Walk(box, node.entries[j].value, node.entries[j].key, j + 1 >= |node.entries|,
                            layers + [!parentLast], indent, IgnoreStandardTypes)[0]
  {
    var n := |node.entries|;
    var before := MapLines(box, node, j, parentLast, layers, indent);
    var upto := MapLines(box, node, j + 1, parentLast, layers, indent);
    var sub := Walk(box, node.entries[j].value, node.entries[j].key, j + 1 >= n, layers + [!parentLast], indent, IgnoreStandardTypes);
    var all := MapLines(box, node, n, parentLast, layers, indent);
    MapLinesStep(box, node, j, parentLast, layers, indent);
    WalkNonEmpty(box, node.entries[j].value, node.entries[j].key, j + 1 >= n, layers + [!parentLast], indent, IgnoreStandardTypes);
    ConcatHead(before, sub);
    MapLinesPrefix(box, node, j + 1, n, parentLast, layers, indent);
    PrefixIndex(upto, all, |before|);
  }

  /** A non-final entry j of an expanded mapping starts before every later
      entry j' and is walked under its key, with the parent's flags extended
      by "the parent is not last", as not last (the final entry is
      `MapLastChild`). */
  lemma MapChildHeads(box: Box, node: Node, name: string, isLast: bool, layers: seq<bool>,
                      indent: int, ignoreTypes: set<string>, j: nat, j': nat)
    requires node.Mapping? && !Forced(node.info, layers, ignoreTypes) && j < j' < |node.entries|
    ensures var w := Walk(box, node, name, isLast, layers, indent, ignoreTypes);
      var s := MapChildStart(box, node, j, isLast, layers, indent);
      s < MapChildStart(box, node, j', isLast, layers, indent) < |w| &&
      w[s] == Walk(box, node.entries[j].value, node.entries[j].key, j + 1 == |node.entries|,
                   layers + [!isLast], indent, IgnoreStandardTypes)[0]
  {
    var n := |node.entries|;
    var w := Walk(box, node, name, isLast, layers, indent, ignoreTypes);
    var before := MapLines(box, node, j, isLast, layers, indent);
    MapLinesPrefix(box, node, j, j', isLast, layers, indent);
    MapLinesAt(box, node, j', isLast, layers, indent);
    MapLinesAt(box, node, j, isLast, layers, indent);
    WalkMapping(box, node, name, isLast, layers, indent, ignoreTypes);
  }

  /** The final entry is walked as the last sibling. */
  lemma MapLastChild(box: Box, node: Node, name: string, isLast: bool, layers: seq<bool>,
                     indent: int, ignoreTypes: set<string>)
    requires node.Mapping? && !Forced(node.info, layers, ignoreTypes) && |node.entries| > 0
    ensures var w := Walk(box, node, name, isLast, layers, indent, ignoreTypes);
      var j := |node.entries| - 1;
      var s := MapChildStart(box, node, j, isLast, layers, indent);
      s < |w| &&
      w[s] == Walk(box, node.entries[j].value, node.entries[j].key, true, layers + [!isLast], indent, IgnoreStandardTypes)[0]
  {
    var n := |node.entries|;
    WalkSize(box, node.entries[n - 1].value, node.entries[n - 1].key, true, layers + [!isLast], indent, IgnoreStandardTypes);
  }

  /** Within the items' lines, those of item j start right after the lines
      of the items before it. */
  lemma SeqLinesAt(box: Box, node: Node, j: nat, parentLast: bool, layers: seq<bool>, indent: int)
    requires node.Sequence? && j < |node.items|
    ensures var before := SeqLines(box, node, j, parentLast, layers, indent);
      var all := SeqLines(box, node, |node.items|, parentLast, layers, indent);
      |before| < |all| &&
      all[|before|] == Walk(box, node.items[j], IndexLabel(j, ListPadding(|node.items|)), j + 1 >= |node.items|,
                            layers + [!parentLast], indent, IgnoreStandardTypes)[0]
  {
    var n := |node.items|;
    var before := SeqLines(box, node, j, parentLast, layers, indent);
    var upto := SeqLines(box, node, j + 1, parentLast, layers, indent);
    var sub := Walk(box, node.items[j], IndexLabel(j, ListPadding(n)), j + 1 >= n, layers + [!parentLast], indent, IgnoreStandardTypes);
    var all := SeqLines(box, node, n, parentLast, layers, indent);
    SeqLinesStep(box, node, j, parentLast, layers, indent);
    WalkNonEmpty(box, node.items[j], IndexLabel(j, ListPadding(n)), j + 1 >= n, layers + [!parentLast], indent, IgnoreStandardTypes);
    ConcatHead(before, sub);
    SeqLinesPrefix(box, node, j + 1, n, parentLast, layers, indent);
    PrefixIndex(upto, all, |before|);
  }

  /** A non-final item j of an expanded sequence starts before every later
      item j' and is walked under its padded index label, one level deeper,
      as not last (the final item is `SeqLastChild`). */
  lemma SeqChildHeads(box: Box, node: Node, name: string, isLast: bool, layers: seq<bool>,
                      indent: int, ignoreTypes: set<string>, j: nat, j': nat)
    requires node.Sequence? && !Forced(node.info, layers, ignoreTypes) && j < j' < |node.items|
    ensures var w := Walk(box, node, name, isLast, layers, indent, ignoreTypes);
      var s := SeqChildStart(box, node, j, isLast, layers, indent);
      s < SeqChildStart(box, node, j', isLast, layers, indent) < |w| &&
      w[s] == Walk(box, node.items[j], IndexLabel(j, ListPadding(|node.items|)), j + 1 == |node.items|,
                   layers + [!isLast], indent, IgnoreStandardTypes)[0]
  {
    var n := |node.items|;
    var w := Walk(box, node, name, isLast, layers, indent, ignoreTypes);
    var before := SeqLines(box, node, j, isLast, layers, indent);
    SeqLinesPrefix(box, node, j, j', isLast, layers, indent);
    SeqLinesAt(box, node, j', isLast, layers, indent);
    SeqLinesAt(box, node, j, isLast, layers, indent);
    WalkSequence(box, node, name, isLast, layers, indent, ignoreTypes);
  }


  /** The final item is walked as the last sibling. */
  lemma SeqLastChild(box: Box, node: Node, name: string, isLast: bool, layers: seq<bool>,
                     indent: int, ignoreTypes: set<string>)
    requires node.Sequence? && !Forced(node.info, layers, ignoreTypes) && |node.items| > 0
    ensures var w := Walk(box, node, name, isLast, layers, indent, ignoreTypes);
      var j := |node.items| - 1;
      var s := SeqChildStart(box, node, j, isLast, layers, indent);
      s < |w| &&
      w[s] == Walk(box, node.items[j], IndexLabel(j, ListPadding(|node.items|)), true,
                   layers + [!isLast], indent, IgnoreStandardTypes)[0]
  {
    var n := |node.items|;
    WalkSize(box, node.items[n - 1], IndexLabel(n - 1, ListPadding(n)), true, layers + [!isLast], indent, IgnoreStandardTypes);
  }

  // ---------------------------------------------------------------------------
  // Index labels

  /** In a list of more than one element every index fits the padding width,
      so all index labels of the list are equally long. */
  lemma IndexLabelWidth(n: nat, i: nat)
    requires 1 < n && i < n
    ensures ListPadding(n) >= 1
    ensures |IndexLabel(i, ListPadding(n))| == ListPadding(n) + 2
  {
    var k := ListPadding(n);
    NatToStringLength(i, k);
  }

  lemma IndexLabelsEqualWidth(n: nat, i: nat, j: nat)
    requires i < n && j < n
    ensures |IndexLabel(i, ListPadding(n))| == |IndexLabel(j, ListPadding(n))|
  {
    if n > 1 {
      IndexLabelWidth(n, i);
      IndexLabelWidth(n, j);
    }
  }

  /** A label shows the index right-aligned: blanks, then the digits of the
      index, which read back as the index. */
  lemma IndexLabelDigits(i: nat, padding: nat)
    ensures var text := IndexLabel(i, padding);
      var digits := NatToString(i);
      |text| >= |digits| + 2 && text[0] == '[' && text[|text| - 1] == ']' &&
      text[|text| - 1 - |digits|..|text| - 1] == digits &&
      (forall c :: 1 <= c < |text| - 1 - |digits| ==> text[c] == ' ') &&
      ParseDigits(digits) == i
  {
    IndexLabelLayout(i, padding);
    NatToStringRoundTrip(i);
  }

  /** The layout of a label, apart from what its digits mean. */
  lemma IndexLabelLayout(i: nat, padding: nat)
    ensures var text := IndexLabel(i, padding);
      var digits := NatToString(i);
      |text| >= |digits| + 2 && text[0] == '[' && text[|text| - 1] == ']' &&
      text[|text| - 1 - |digits|..|text| - 1] == digits &&
      (forall c :: 1 <= c < |text| - 1 - |digits| ==> text[c] == ' ')
  {
    var digits := NatToString(i);
    assert IndexLabel(i, padding) == "[" + PadLeft(digits, padding) + "]";
    BracketedPad(digits, padding);
  }

  /** `"[" + PadLeft(s, w) + "]"`: the brackets around blanks and then s. */
  lemma BracketedPad(s: string, w: nat)
    ensures var text := "[" + PadLeft(s, w) + "]";
      |text| >= |s| + 2 && text[0] == '[' && text[|text| - 1] == ']' &&
      text[|text| - 1 - |s|..|text| - 1] == s &&
      (forall c :: 1 <= c < |text| - 1 - |s| ==> text[c] == ' ')
  {
    var p := PadLeft(s, w);
    var text := "[" + p + "]";
    assert text[1..|text| - 1] == p;
    assert text[|text| - 1 - |s|..|text| - 1] == p[|p| - |s|..];
    forall c | 1 <= c < |text| - 1 - |s|
      ensures text[c] == ' '
    {
      assert text[c] == p[c - 1];
    }
  }

  // ---------------------------------------------------------------------------
  // The ignore set

  /** The caller's ignore set is consulted only for the object walked first,
      and only when it is not at the root; at the root it changes nothing. */
  lemma RootIgnoreSetIrrelevant(box: Box, node: Node, name: string, isLast: bool, indent: int,
                                ignoreTypes: set<string>, otherTypes: set<string>)
    ensures Walk(box, node, name, isLast, [], indent, ignoreTypes) == Walk(box, node, name, isLast, [], indent, otherTypes)
  {
  }
  lemma ConcatPrefix<T>(a: seq<T>, b: seq<T>)
    ensures a <= a + b && |a + b| == |a| + |b|
  {
  }

  lemma ConcatHead<T>(a: seq<T>, b: seq<T>)
    requires |b| >= 1
    ensures |a| < |a + b| && (a + b)[|a|] == b[0]
  {
  }

  lemma PrefixIndex<T>(a: seq<T>, b: seq<T>, k: nat)
    requires a <= b && k < |a|
    ensures k < |b| && b[k] == a[k]
  {
  }

  lemma WalkNonEmpty(box: Box, node: Node, name: string, isLast: bool, layers: seq<bool>,
                      indent: int, ignoreTypes: set<string>)
    ensures |Walk(box, node, name, isLast, layers, indent, ignoreTypes)| >= 1
  {
  }

  /** The lines of the first k entries end with those of entry k - 1. */
  lemma MapLinesUnfold(box: Box, node: Node, k: nat, parentLast: bool, layers: seq<bool>, indent: int)
    requires node.Mapping? && 0 < k <= |node.entries|
    ensures MapLines(box, node, k, parentLast, layers, indent)
            == MapLines(box, node, k - 1, parentLast, layers, indent)
               + Walk(box, node.entries[k - 1].value, node.entries[k - 1].key, k >= |node.entries|,
                      layers + [!parentLast], indent, IgnoreStandardTypes)
    ensures MapSize(node, k) == MapSize(node, k - 1) + Size(node.entries[k - 1].value)
  {
  }

  /** The lines of the first k items end with those of item k - 1. */
  lemma SeqLinesUnfold(box: Box, node: Node, k: nat, parentLast: bool, layers: seq<bool>, indent: int)
    requires node.Sequence? && 0 < k <= |node.items|
    ensures SeqLines(box, node, k, parentLast, layers, indent)
            == SeqLines(box, node, k - 1, parentLast, layers, indent)
               + Walk(box, node.items[k - 1], IndexLabel(k - 1, ListPadding(|node.items|)), k >= |node.items|,
                      layers + [!parentLast], indent, IgnoreStandardTypes)
    ensures SeqSize(node, k) == SeqSize(node, k - 1) + Size(node.items[k - 1])
  {
  }

  /** One more entry strictly extends the lines. */
  lemma MapLinesGrow(box: Box, node: Node, k: nat, parentLast: bool, layers: seq<bool>, indent: int)
    requires node.Mapping? && 0 < k <= |node.entries|
    ensures MapLines(box, node, k - 1, parentLast, layers, indent) <= MapLines(box, node, k, parentLast, layers, indent)
    ensures |MapLines(box, node, k - 1, parentLast, layers, indent)| < |MapLines(box, node, k, parentLast, layers, indent)|
  {
    MapLinesUnfold(box, node, k, parentLast, layers, indent);
    WalkNonEmpty(box, node.entries[k - 1].value, node.entries[k - 1].key, k >= |node.entries|,
                 layers + [!parentLast], indent, IgnoreStandardTypes);
    ConcatPrefix(MapLines(box, node, k - 1, parentLast, layers, indent),
                 Walk(box, node.entries[k - 1].value, node.entries[k - 1].key, k >= |node.entries|,
                      layers + [!parentLast], indent, IgnoreStandardTypes));
  }

  /** One more item strictly extends the lines. */
  lemma SeqLinesGrow(box: Box, node: Node, k: nat, parentLast: bool, layers: seq<bool>, indent: int)
    requires node.Sequence? && 0 < k <= |node.items|
    ensures SeqLines(box, node, k - 1, parentLast, layers, indent) <= SeqLines(box, node, k, parentLast, layers, indent)
    ensures |SeqLines(box, node, k - 1, parentLast, layers, indent)| < |SeqLines(box, node, k, parentLast, layers, indent)|
  {
    SeqLinesUnfold(box, node, k, parentLast, layers, indent);
    WalkNonEmpty(box, node.items[k - 1], IndexLabel(k - 1, ListPadding(|node.items|)), k >= |node.items|,
                 layers + [!parentLast], indent, IgnoreStandardTypes);
    ConcatPrefix(SeqLines(box, node, k - 1, parentLast, layers, indent),
                 Walk(box, node.items[k - 1], IndexLabel(k - 1, ListPadding(|node.items|)), k >= |node.items|,
                      layers + [!parentLast], indent, IgnoreStandardTypes));
  }

  lemma ConcatAssoc<T>(a: seq<T>, b: seq<T>, c: seq<T>)
    ensures (a + b) + c == a + (b + c)
  {
  }

  /** One more entry: its lines follow those of the entries before it. */
  lemma MapLinesStep(box: Box, node: Node, k: nat, parentLast: bool, layers: seq<bool>, indent: int)
    requires node.Mapping? && k < |node.entries|
    ensures MapLines(box, node, k + 1, parentLast, layers, indent)
            == MapLines(box, node, k, parentLast, layers, indent)
               + Walk(box, node.entries[k].value, node.entries[k].key, k + 1 >= |node.entries|,
                      layers + [!parentLast], indent, IgnoreStandardTypes)
  {
  }

  /** One more item: its lines follow those of the items before it. */
  lemma SeqLinesStep(box: Box, node: Node, k: nat, parentLast: bool, layers: seq<bool>, indent: int)
    requires node.Sequence? && k < |node.items|
    ensures SeqLines(box, node, k + 1, parentLast, layers, indent)
            == SeqLines(box, node, k, parentLast, layers, indent)
               + Walk(box, node.items[k], IndexLabel(k, ListPadding(|node.items|)), k + 1 >= |node.items|,
                      layers + [!parentLast], indent, IgnoreStandardTypes)
  {
  }
}
