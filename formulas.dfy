/** The formula language of pystreamv.py: the Formula node kinds, the
    combinators that build them, and the input streams whose fields are the
    leaves of every formula. */
module Formulas {
  import opened Wrappers
  import opened Units

  /** A host value that is an int, float, str or bool (bool is an int in the
      host language); floats are exact reals. */
  datatype Scalar = IntValue(i: int) | FloatValue(r: real) | StrValue(s: string) | BoolValue(b: bool)

  /** Any other host value (an external function, say): an opaque token with
      the text its repr gives. */
  datatype HostValue = HostValue(id: nat, repr: string)

  /** The declared type of a stream field; only carried along. */
  datatype FieldType = FieldType(name: string)

  const FloatType := FieldType("float")

  /** What an InputStream is declared from: no type at all (None), a class
      (with its identity, its name, its annotations when it has any, and the
      other entries of its namespace), or a plain dictionary of fields. */
  datatype StreamType =
    | NoType
    | ClassType(id: nat, name: string, annotations: Option<seq<(string, FieldType)>>,
                attributes: seq<(string, FieldType)>)
    | DictType(entries: seq<(string, FieldType)>)

  /** An argument of a formula node, classified as the compiler classifies it. */
  datatype Operand =
    | FormulaArg(f: Formula)
    | PeriodArg(p: Period)
    | UnitArg(u: Unit)
    | ScalarArg(v: Scalar)
    | HostArg(h: HostValue)

  /** The formula node kinds. `Plain` is a bare Formula(op, *args); the others
      are its subclasses, holding the attributes their constructors set. A
      TemporalOp keeps its target apart from its extra arguments. */
  datatype Formula =
    | Plain(op: string, args: seq<Operand>)
    | BinaryOp(op: string, left: Operand, right: Operand)
    | IndexOp(target: Operand, index: Operand)
    | TemporalOp(op: string, target: Operand, args: seq<Operand>)
    | FieldAccess(stream: InputStream, field: string)
    | MultiplexFormula(output: Operand, idFrom: Operand, eosFrom: Operand)
    | AlwaysOperator(duration: Operand, condition: Operand)

  /** The `op` string every node carries; the subclasses with a fixed
      operator pass it to the base constructor. */
  function Op(f: Formula): string
  {
    match f
    case Plain(op, _) => op
    case BinaryOp(op, _, _) => op
    case IndexOp(_, _) => "index"
    case TemporalOp(op, _, _) => op
    case FieldAccess(_, _) => "field_access"
    case MultiplexFormula(_, _, _) => "multiplex"
    case AlwaysOperator(_, _) => "always"
  }

  /** Size measures, used only to show that compilation terminates. */
  function FormulaSize(f: Formula): nat
  {
    match f
    case Plain(_, _) => 1
    case BinaryOp(_, l, r) => 1 + OperandSize(l) + OperandSize(r)
    case IndexOp(t, i) => 1 + OperandSize(t) + OperandSize(i)
    case TemporalOp(_, t, args) => 1 + OperandSize(t) + OperandsSize(args)
    case FieldAccess(_, _) => 1
    case MultiplexFormula(o, i, e) => 1 + OperandSize(o) + OperandSize(i) + OperandSize(e)
    case AlwaysOperator(d, c) => 1 + OperandSize(d) + OperandSize(c)
  }

  function OperandSize(o: Operand): nat
  {
    match o
    case FormulaArg(f) => 2 + FormulaSize(f)
    case _ => 1
  }

  function OperandsSize(os: seq<Operand>): nat
  {
    if os == [] then 0 else OperandSize(os[0]) + OperandsSize(os[1..])
  }

  /** Reading an operand-valued attribute of a node: only the subclass whose
      constructor sets the attribute has it. */
  function Attr(f: Formula, name: string): (r: Option<Operand>)
    ensures r.Some? ==> OperandSize(r.value) < FormulaSize(f)
    ensures r.Some? <==>
      || (f.BinaryOp? && (name == "left" || name == "right"))
      || (f.IndexOp? && (name == "target" || name == "index"))
      || (f.TemporalOp? && name == "target")
      || (f.MultiplexFormula? && (name == "output" || name == "id_from" || name == "eos_from"))
      || (f.AlwaysOperator? && (name == "duration" || name == "condition"))
  {
    match f
    case BinaryOp(_, l, r) =>
      if name == "left" then Some(l) else if name == "right" then Some(r) else None
    case IndexOp(t, i) =>
      if name == "target" then Some(t) else if name == "index" then Some(i) else None
    case TemporalOp(_, t, _) =>
      if name == "target" then Some(t) else None
    case MultiplexFormula(o, i, e) =>
      if name == "output" then Some(o)
      else if name == "id_from" then Some(i)
      else if name == "eos_from" then Some(e)
      else None
    case AlwaysOperator(d, c) =>
      if name == "duration" then Some(d) else if name == "condition" then Some(c) else None
    case _ => None
  }

  // ---- Combinators (the Formula operators and the DSL functions) ----

  /** The host language tries the right operand's reflected comparison
      first when its class is a proper subclass of the left operand's: here,
      a bare Formula (such as `GLOBAL.time`) on the left and a node of one of
      its subclasses on the right. `Formula` defines `__lt__` and `__gt__`,
      each the other's reflection, but no `__rsub__`, so only `<` and `>` are
      affected. */
  predicate RightReflects(a: Formula, b: Operand)
  {
    a.Plain? && b.FormulaArg? && !b.f.Plain?
  }

  /** `a < b`, which is `b.__gt__(a)` when the right operand reflects. */
  function Lt(a: Formula, b: Operand): Formula
  {
    if RightReflects(a, b) then BinaryOp(">", b, FormulaArg(a)) else BinaryOp("<", FormulaArg(a), b)
  }

  /** `a > b`, which is `b.__lt__(a)` when the right operand reflects. */
  function Gt(a: Formula, b: Operand): Formula
  {
    if RightReflects(a, b) then BinaryOp("<", b, FormulaArg(a)) else BinaryOp(">", FormulaArg(a), b)
  }

  /** `a - b` (no reflection: there is no `__rsub__`) */
  function Sub(a: Formula, b: Operand): Formula { BinaryOp("-", FormulaArg(a), b) }

  /** `a[i]`: the offset is not validated. */
  function Index(a: Formula, i: Operand): Formula { IndexOp(FormulaArg(a), i) }

  /** `a.every(p)`: the period is the only extra argument. */
  function Every(a: Formula, p: Operand): Formula { TemporalOp("every", FormulaArg(a), [p]) }

  /** `a.last()`: no extra arguments. */
  function Last(a: Formula): Formula { TemporalOp("last", FormulaArg(a), []) }

  /** `H(duration, condition)` */
  function H(duration: Operand, condition: Operand): Formula { AlwaysOperator(duration, condition) }

  /** `multiplex_id(output, id_from, eos_from)` */
  function MultiplexId(output: Operand, idFrom: Operand, eosFrom: Operand): Formula
  {
    MultiplexFormula(output, idFrom, eosFrom)
  }

  /** `GLOBAL.time` */
  const GlobalTime := Plain("global_time", [])

  /** The combinators keep their operands where the visitors look for
      them: the receiver on the left or as the target, the other operand on
      the right, as the index or as the only extra argument. A comparison
      whose right operand reflects is built the other way round, with the
      mirrored operator. */
  lemma CombinatorShapes(a: Formula, b: Operand)
    ensures Lt(a, b).BinaryOp? && Gt(a, b).BinaryOp? && Sub(a, b).BinaryOp?
    ensures !RightReflects(a, b) ==>
      && Lt(a, b).op == "<" && Lt(a, b).left == FormulaArg(a) && Lt(a, b).right == b
      && Gt(a, b).op == ">" && Gt(a, b).left == FormulaArg(a) && Gt(a, b).right == b
    ensures RightReflects(a, b) ==>
      && Lt(a, b).op == ">" && Lt(a, b).left == b && Lt(a, b).right == FormulaArg(a)
      && Gt(a, b).op == "<" && Gt(a, b).left == b && Gt(a, b).right == FormulaArg(a)
    ensures Sub(a, b).op == "-" && Sub(a, b).left == FormulaArg(a) && Sub(a, b).right == b
    ensures Op(Index(a, b)) == "index" && Index(a, b).target == FormulaArg(a) && Index(a, b).index == b
    ensures Op(Every(a, b)) == "every" && Every(a, b).target == FormulaArg(a) && Every(a, b).args == [b]
    ensures Op(Last(a)) == "last" && Last(a).target == FormulaArg(a) && Last(a).args == []
  {
  }

  // ---- Input streams ----

  predicate IsPrivate(name: string)
  {
    |name| > 0 && name[0] == '_'
  }

  /** The field table that filling a dictionary from `entries` in order
      yields; with `skipPrivate`, names starting with '_' are skipped. */
  function FromEntries(entries: seq<(string, FieldType)>, skipPrivate: bool): map<string, FieldType>
  {
    if entries == [] then map[]
    else
      var m := FromEntries(entries[..|entries| - 1], skipPrivate);
      var e := entries[|entries| - 1];
      if skipPrivate && IsPrivate(e.0) then m else m[e.0 := e.1]
  }

  /** The fields InputStream.__init__ collects from a type: its annotations
      if it has any, else the entries of a dictionary, else the public entries
      of a class namespace; None has no fields. */
  function DeclaredFields(t: StreamType): map<string, FieldType>
  {
    match t
    case NoType => map[]
    case ClassType(_, _, Some(annotations), _) => FromEntries(annotations, false)
    case DictType(entries) => FromEntries(entries, false)
    case ClassType(_, _, None, attributes) => FromEntries(attributes, true)
  }

  /** A name is a field exactly when some entry declares it (and it is not
      skipped as private), and its type is that of the last such entry. */
  lemma {:induction false} FromEntriesLookup(entries: seq<(string, FieldType)>, skipPrivate: bool, name: string)
    ensures name in FromEntries(entries, skipPrivate) <==>
      !(skipPrivate && IsPrivate(name)) && exists i :: 0 <= i < |entries| && entries[i].0 == name
    ensures name in FromEntries(entries, skipPrivate) ==>
      exists j :: 0 <= j < |entries| && entries[j].0 == name &&
        FromEntries(entries, skipPrivate)[name] == entries[j].1 &&
        forall k :: j < k < |entries| ==> entries[k].0 != name
  {
    if entries != [] {
      var init := entries[..|entries| - 1];
      FromEntriesLookup(init, skipPrivate, name);
      var last := |entries| - 1;
      if entries[last].0 == name && !(skipPrivate && IsPrivate(name)) {
        assert FromEntries(entries, skipPrivate)[name] == entries[last].1;
      } else {
        assert FromEntries(entries, skipPrivate) == FromEntries(init, skipPrivate) ||
          FromEntries(entries, skipPrivate) == FromEntries(init, skipPrivate)[entries[last].0 := entries[last].1];
        if exists i :: 0 <= i < |entries| && entries[i].0 == name {
          var i :| 0 <= i < |entries| && entries[i].0 == name;
          if i == last {
            assert skipPrivate && IsPrivate(name);
          } else {
            assert init[i].0 == name;
          }
        }
        if name in FromEntries(entries, skipPrivate) {
          var j :| 0 <= j < |init| && init[j].0 == name &&
            FromEntries(init, skipPrivate)[name] == init[j].1 &&
            forall k :: j < k < |init| ==> init[k].0 != name;
          assert entries[j] == init[j];
        }
      }
    }
  }

  /** The result of reading an attribute of a stream: a field access, one
      of the attributes its constructor set, or an AttributeError. */
  datatype StreamAttr = FieldAttr(formula: Formula) | InstanceAttr(name: string) | NoSuchAttribute(name: string)

  /** InputStream and TimestampedStream: the stream's type and its field
      table (`_fields`). */
  class InputStream {
    const streamType: StreamType
    const timestamped: bool
    var fields: map<string, FieldType>

    /** InputStream(type) */
    constructor (t: StreamType)
      ensures streamType == t && !timestamped
      ensures fields == DeclaredFields(t)
    {
      var m := CollectFields(t);
      streamType := t;
      timestamped := false;
      fields := m;
    }

    /** TimestampedStream(original) (`timestamp(stream)`): the fields its
        type declares, updated with the original's fields, plus `time`. */
    constructor Timestamp(original: InputStream)
      ensures streamType == original.streamType && timestamped
      ensures fields == (DeclaredFields(original.streamType) + original.fields)["time" := FloatType]
    {
      var m := CollectFields(original.streamType);
      streamType := original.streamType;
      timestamped := true;
      fields := m;
      new;
      fields := fields + original.fields;
      fields := fields["time" := FloatType];
    }

    /** The three collecting loops of InputStream.__init__. */
    static method CollectFields(t: StreamType) returns (m: map<string, FieldType>)
      ensures m == DeclaredFields(t)
    {
      if t.ClassType? && t.annotations.Some? {
        m := Fill(t.annotations.value, false);
      } else if t.DictType? {
        m := Fill(t.entries, false);
      } else if t.ClassType? {
        m := Fill(t.attributes, true);
      } else {
        m := map[];
      }
    }

    static method Fill(entries: seq<(string, FieldType)>, skipPrivate: bool) returns (m: map<string, FieldType>)
      ensures m == FromEntries(entries, skipPrivate)
    {
      m := map[];
      var i := 0;
      while i < |entries|
        invariant 0 <= i <= |entries|
        invariant m == FromEntries(entries[..i], skipPrivate)
      {
        var (name, ty) := entries[i];
        assert entries[..i + 1][..i] == entries[..i];
        if !(skipPrivate && IsPrivate(name)) {
          m := m[name := ty];
        }
        i := i + 1;
      }
      assert entries[..|entries|] == entries;
    }

    /** The attributes set on the instance itself, which attribute lookup
        finds before consulting the field table. */
    function InstanceAttributes(): set<string>
    {
      if timestamped then {"type", "_fields", "_original", "time"} else {"type", "_fields"}
    }

    /** `stream.name` (InputStream.__getattr__, reached only when ordinary
        lookup fails). A timestamped stream's own `time` attribute is the
        access to its `time` field. */
    function GetAttr(name: string): (r: StreamAttr)
      reads this
      ensures r.FieldAttr? ==> r.formula == FieldAccess(this, name)
      ensures r.FieldAttr? <==>
        (name in fields && name !in InstanceAttributes()) || (timestamped && name == "time")
      ensures r.NoSuchAttribute? <==> name !in fields && name !in InstanceAttributes()
    {
      if timestamped && name == "time" then FieldAttr(FieldAccess(this, "time"))
      else if name in InstanceAttributes() then InstanceAttr(name)
      else if name in fields then FieldAttr(FieldAccess(this, name))
      else NoSuchAttribute(name)
    }
  }
}
