/** The objects the renderer walks, reduced to what it looks at: how the walk
    classifies them (mapping-like, sequence-like, anything else), the names of
    the classes they are instances of, `type(obj).__name__`, `str(obj)` and
    the root label `guess_name` would produce (src/dict_tree/bin.py). */
module Nodes {

  /** What the renderer reads off one object. `classes` holds the names of the
      classes the object is an instance of (its type and the type's bases), so
      `isinstance(obj, types)` is a non-empty intersection with `types`. */
  datatype Info = Info(typeName: string, classes: set<string>, text: string, guess: string)

  /** Mapping: a dict, an object exposing `__dict__` that is no list or tuple,
      or a namedtuple, with its (str(key), value) pairs in iteration order.
      Sequence: a list or tuple, with its items in order. The code also
      routes generators here, but `copy(obj)` raises for them before their
      own line is added, so a generator is not a `Sequence` of this model.
      Scalar: everything else. */
  datatype Node =
    | Mapping(info: Info, entries: seq<Entry>)
    | Sequence(info: Info, items: seq<Node>)
    | Scalar(info: Info)

  /** A node's kind agrees with its classes as the walk's tests classify an
      object: a mapping is no list (a dict, a `__dict__` object that is no
      list or tuple, or a namedtuple), a sequence is a list or a tuple, and
      anything else is neither a dict, a list nor a tuple. This is about the
      node itself, not its children. */
  predicate WellFormed(node: Node)
  {
    match node
    case Mapping(info, _) => "list" !in info.classes
    case Sequence(info, _) => "list" in info.classes || "tuple" in info.classes
    case Scalar(info) => "dict" !in info.classes && "list" !in info.classes && "tuple" !in info.classes
  }

  /** One (str(key), value) pair of a mapping. */
  datatype Entry = Entry(key: string, value: Node)

  predicate IsInstance(info: Info, types: set<string>)
  {
    info.classes * types != {}
  }

  /** NON_VALUE_TYPES: instances of these show no value label. */
  const NonValueTypes: set<string> := {"dict", "list", "tuple"}

  /** IGNORE_STANDARD_TYPES: classes and modules, which are not expanded below
      the root. */
  const IgnoreStandardTypes: set<string> := {"type", "module"}

  /** IGNORE_NO_TYPES. */
  const IgnoreNoTypes: set<string> := {}

  /** The "type" entry of DICTIONARY_TREELINE_TEMPLATE. */
  function TypeLabel(info: Info): string
  {
    info.typeName
  }

  /** The "value" entry of DICTIONARY_TREELINE_TEMPLATE: `str(obj)`, or empty
      for an instance of dict, list or tuple. */
  function ValueLabel(info: Info): string
  {
    if IsInstance(info, NonValueTypes) then "" else info.text
  }

  /** A namedtuple is a tuple, so it shows no value even though the walk
      treats it as a mapping. */
  lemma ValueLabelRule(info: Info)
    ensures ("dict" in info.classes || "list" in info.classes || "tuple" in info.classes) ==> ValueLabel(info) == ""
    ensures ("dict" !in info.classes && "list" !in info.classes && "tuple" !in info.classes) ==> ValueLabel(info) == info.text
  {
    if "dict" in info.classes {
      assert "dict" in info.classes * NonValueTypes;
    } else if "list" in info.classes {
      assert "list" in info.classes * NonValueTypes;
    } else if "tuple" in info.classes {
      assert "tuple" in info.classes * NonValueTypes;
    } else {
      assert forall c :: c in info.classes * NonValueTypes ==> c in NonValueTypes;
    }
  }

  /** A well-formed sequence is a list or a tuple, so it shows no value. */
  lemma SequenceShowsNoValue(node: Node)
    requires WellFormed(node) && node.Sequence?
    ensures ValueLabel(node.info) == ""
  {
    ValueLabelRule(node.info);
  }
}
