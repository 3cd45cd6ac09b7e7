/** What stage 1 promises: it fails exactly on nodes whose kind lacks what
    their visitor reads, it names every term after the node's operator and
    gives it the compiled operands in the order of the visitor, and the
    combinators only ever build nodes it can compile. */
module CircuitProperties {
  import opened Wrappers
  import opened Units
  import opened Formulas
  import opened Circuit

  /** A node its visitor can read: its kind has the attributes the visitor
      for its operator reads, and its formula operands are well formed too.
      Operators without a visitor read nothing. */
  predicate WellFormed(f: Formula)
    decreases FormulaSize(f), 1
  {
    var key := OpKey(Op(f));
    if key == "field_access" then f.FieldAccess?
    else if key in {"binary_op", "lt", "gt", "sub"} then
      f.BinaryOp? && OperandOk(f.left) && OperandOk(f.right)
    else if key == "index" then
      f.IndexOp? && OperandOk(f.target) && OperandOk(f.index)
    else if key == "every" then
      f.TemporalOp? && FirstArg(f).Ok? && OperandOk(f.target) && OperandOk(FirstArg(f).value)
    else if key == "last" then
      f.TemporalOp? && OperandOk(f.target)
    else if key == "always" then
      f.AlwaysOperator? && OperandOk(f.duration) && OperandOk(f.condition)
    else if key == "multiplex" then
      f.MultiplexFormula? && OperandOk(f.output) && OperandOk(f.idFrom) && OperandOk(f.eosFrom)
    else true
  }

  predicate OperandOk(o: Operand)
    decreases OperandSize(o), 0
  {
    o.FormulaArg? ==> WellFormed(o.f)
  }

  /** Which visitor compiles a formula, by its operator's key. */
  lemma Dispatch(f: Formula)
    ensures OpKey(Op(f)) == "field_access" ==> Compile(f) == VisitFieldAccess(f)
    ensures OpKey(Op(f)) == "binary_op" ==> Compile(f) == VisitBinary("op_" + Op(f), f)
    ensures OpKey(Op(f)) in {"lt", "gt", "sub"} ==> Compile(f) == VisitBinary(OpKey(Op(f)), f)
    ensures OpKey(Op(f)) == "index" ==> Compile(f) == VisitIndex(f)
    ensures OpKey(Op(f)) == "every" ==> Compile(f) == VisitEvery(f)
    ensures OpKey(Op(f)) == "last" ==> Compile(f) == VisitLast(f)
    ensures OpKey(Op(f)) == "always" ==> Compile(f) == VisitAlways(f)
    ensures OpKey(Op(f)) == "multiplex" ==> Compile(f) == VisitMultiplex(f)
    ensures OpKey(Op(f)) == "global_time" ==> Compile(f) == Ok(Call("global_time", []))
    ensures OpKey(Op(f)) == "second" ==> Compile(f) == Ok(Call("time_unit_second", []))
    ensures OpKey(Op(f)) !in VisitorKeys ==> Compile(f) == Ok(Call(Op(f), []))
  {
    var key := OpKey(Op(f));
    if key == "field_access" {
      assert Compile(f) == VisitFieldAccess(f);
    } else if key == "binary_op" {
      assert Compile(f) == VisitBinary("op_" + Op(f), f);
    } else if key == "lt" || key == "gt" || key == "sub" {
      assert Compile(f) == VisitBinary(key, f);
    } else if key == "index" {
      assert Compile(f) == VisitIndex(f);
    } else if key == "every" {
      assert Compile(f) == VisitEvery(f);
    } else if key == "last" {
      assert Compile(f) == VisitLast(f);
    } else if key == "always" {
      assert Compile(f) == VisitAlways(f);
    } else if key == "multiplex" {
      assert Compile(f) == VisitMultiplex(f);
    } else if key !in VisitorKeys {
      assert Compile(f) == GenericVisit(FormulaToAst(f));
      assert VisitChildren(FormulaToAst(f).children) == Ok([]);
    }
  }

  /** What each visitor needs and builds, for a node of any kind. */
  lemma VisitorsOk(name: string, f: Formula)
    ensures VisitFieldAccess(f).Ok? <==> f.FieldAccess?
    ensures VisitBinary(name, f).Ok? <==>
      f.BinaryOp? && CompileOperand(f.left).Ok? && CompileOperand(f.right).Ok?
    ensures VisitBinary(name, f).Ok? ==>
      VisitBinary(name, f).value == Call(name, [CompileOperand(f.left).value, CompileOperand(f.right).value])
    ensures VisitIndex(f).Ok? <==>
      f.IndexOp? && CompileOperand(f.target).Ok? && CompileOperand(f.index).Ok?
    ensures VisitIndex(f).Ok? ==>
      VisitIndex(f).value == Call("index", [CompileOperand(f.target).value, CompileOperand(f.index).value])
    ensures f.TemporalOp? ==>
      (VisitEvery(f).Ok? <==>
        FirstArg(f).Ok? && CompileOperand(f.target).Ok? && CompileOperand(FirstArg(f).value).Ok?)
    ensures f.TemporalOp? && VisitEvery(f).Ok? ==>
      VisitEvery(f).value == Call("every", [CompileOperand(f.target).value, CompileOperand(FirstArg(f).value).value])
    ensures !(f.TemporalOp? || f.IndexOp?) ==> VisitEvery(f).Err? && VisitLast(f).Err?
    ensures f.TemporalOp? ==> (VisitLast(f).Ok? <==> CompileOperand(f.target).Ok?)
    ensures f.TemporalOp? && VisitLast(f).Ok? ==>
      VisitLast(f).value == Call("last", [CompileOperand(f.target).value])
    ensures VisitAlways(f).Ok? <==>
      f.AlwaysOperator? && CompileOperand(f.duration).Ok? && CompileOperand(f.condition).Ok?
    ensures VisitAlways(f).Ok? ==>
      VisitAlways(f).value == Call("always", [CompileOperand(f.duration).value, CompileOperand(f.condition).value])
    ensures VisitMultiplex(f).Ok? <==>
      f.MultiplexFormula? && CompileOperand(f.output).Ok? &&
      CompileOperand(f.idFrom).Ok? && CompileOperand(f.eosFrom).Ok?
    ensures VisitMultiplex(f).Ok? ==>
      VisitMultiplex(f).value == Call("multiplex",
        [CompileOperand(f.output).value, CompileOperand(f.idFrom).value, CompileOperand(f.eosFrom).value])
  {
  }

  /** Compilation succeeds exactly on well-formed formulas: it never fails
      on an operator it does not know, and always fails on a node of the
      wrong kind. */
  lemma {:induction false} CompileOkIff(f: Formula)
    ensures Compile(f).Ok? <==> WellFormed(f)
    decreases FormulaSize(f), 1
  {
    Dispatch(f);
    VisitorsOk(OpKey(Op(f)), f);
    VisitorsOk("op_" + Op(f), f);
    match f
    case BinaryOp(_, l, r) =>
      OperandOkIff(l);
      OperandOkIff(r);
    case IndexOp(t, i) =>
      OperandOkIff(t);
      OperandOkIff(i);
    case TemporalOp(_, t, args) =>
      OperandOkIff(t);
      if args != [] {
        OperandOkIff(FirstArg(f).value);
      }
    case AlwaysOperator(d, c) =>
      OperandOkIff(d);
      OperandOkIff(c);
    case MultiplexFormula(o, i, e) =>
      OperandOkIff(o);
      OperandOkIff(i);
      OperandOkIff(e);
    case Plain(_, _) =>
    case FieldAccess(_, _) =>
  }

  lemma {:induction false} OperandOkIff(o: Operand)
    ensures CompileOperand(o).Ok? <==> OperandOk(o)
    decreases OperandSize(o), 0
  {
    if o.FormulaArg? {
      CompileOkIff(o.f);
    }
  }

  /** The operands a node's visitor compiles, in the order it lists them:
      left and right; target and index; target and period; target;
      duration and condition; output, id and end-of-stream; or none. */
  function VisitedOperands(f: Formula): seq<Operand>
  {
    var key := OpKey(Op(f));
    match f
    case BinaryOp(_, l, r) => if key in {"binary_op", "lt", "gt", "sub"} then [l, r] else []
    case IndexOp(t, i) => [t, i]
    case TemporalOp(_, t, args) =>
      if key == "every" && args != [] then [t, args[0]]
      else if key == "last" then [t]
      else []
    case AlwaysOperator(d, c) => [d, c]
    case MultiplexFormula(o, i, e) => [o, i, e]
    case _ => []
  }

  /** The name of the term a non-leaf node compiles to: its visitor key,
      except that `binary_op` is prefixed and `second` is the unit term. */
  function IrName(f: Formula): string
  {
    var key := OpKey(Op(f));
    if key == "binary_op" then "op_binary_op"
    else if key == "second" then "time_unit_second"
    else key
  }

  /** Every well-formed node other than a field access compiles to one term
      named after its operator whose arguments are exactly its visited
      operands, compiled, in order. */
  lemma CompileShape(f: Formula)
    requires WellFormed(f) && !f.FieldAccess?
    ensures Compile(f).Ok?
    ensures Compile(f).value.Call? && Name(Compile(f).value) == IrName(f)
    ensures |Compile(f).value.args| == |VisitedOperands(f)|
    ensures forall i :: 0 <= i < |VisitedOperands(f)| ==>
      CompileOperand(VisitedOperands(f)[i]) == Ok(Compile(f).value.args[i])
  {
    CompileOkIff(f);
    Dispatch(f);
    VisitorsOk(OpKey(Op(f)), f);
    VisitorsOk("op_" + Op(f), f);
  }

  /** A field access compiles to a childless source leaf carrying the
      stream's type and the field name. */
  lemma CompileFieldAccess(s: InputStream, field: string)
    ensures Compile(FieldAccess(s, field)) == Ok(Source(s.streamType, field))
    ensures Name(Compile(FieldAccess(s, field)).value) == "source"
  {
  }

  /** `_compile_operand` classifies its argument: a formula is compiled on
      its own, a period and a unit are kept as they are (durations are not
      normalised in this stage), a scalar becomes a constant with the same
      value and any other value an external term. */
  lemma OperandClassification(o: Operand)
    ensures o.FormulaArg? ==> CompileOperand(o) == Compile(o.f)
    ensures o.PeriodArg? ==> CompileOperand(o) == Ok(PeriodTerm(o.p))
    ensures o.UnitArg? ==> CompileOperand(o) == Ok(UnitTerm(o.u))
    ensures o.ScalarArg? ==> CompileOperand(o) == Ok(Constant(o.v))
    ensures o.HostArg? ==> CompileOperand(o) == Ok(External(o.h))
  {
  }

  /** `a < b`, `a > b` and `a - b` compile to `lt`, `gt` and `sub` over
      exactly the compiled left and right operands, in that order; when the
      right operand reflects, `a < b` compiles to `gt(b, a)` and `a > b` to
      `lt(b, a)`. */
  lemma CompileComparisons(a: Formula, b: Operand)
    ensures Compile(Lt(a, b)).Ok? <==> Compile(a).Ok? && CompileOperand(b).Ok?
    ensures Compile(Gt(a, b)).Ok? <==> Compile(a).Ok? && CompileOperand(b).Ok?
    ensures Compile(Sub(a, b)).Ok? <==> Compile(a).Ok? && CompileOperand(b).Ok?
    ensures Compile(Lt(a, b)).Ok? ==>
      Compile(Lt(a, b)).value ==
        if RightReflects(a, b) then Call("gt", [CompileOperand(b).value, Compile(a).value])
        else Call("lt", [Compile(a).value, CompileOperand(b).value])
    ensures Compile(Gt(a, b)).Ok? ==>
      Compile(Gt(a, b)).value ==
        if RightReflects(a, b) then Call("lt", [CompileOperand(b).value, Compile(a).value])
        else Call("gt", [Compile(a).value, CompileOperand(b).value])
    ensures Compile(Sub(a, b)).Ok? ==>
      Compile(Sub(a, b)).value == Call("sub", [Compile(a).value, CompileOperand(b).value])
  {
    Dispatch(Lt(a, b));
    Dispatch(Gt(a, b));
    Dispatch(Sub(a, b));
  }

  /** `GLOBAL.time < s.x` compiles to `gt(s.x, GLOBAL.time)`, not to
      `lt(GLOBAL.time, s.x)`: the field access is a subclass node, so its
      reflected `>` builds the formula. The other way round, `s.x < GLOBAL.time`
      is an ordinary `lt`. */
  lemma ReflectedComparison(s: InputStream, field: string)
    ensures Compile(Lt(GlobalTime, FormulaArg(FieldAccess(s, field)))) ==
      Ok(Call("gt", [Source(s.streamType, field), Call("global_time", [])]))
    ensures Compile(Gt(GlobalTime, FormulaArg(FieldAccess(s, field)))) ==
      Ok(Call("lt", [Source(s.streamType, field), Call("global_time", [])]))
    ensures Compile(Lt(FieldAccess(s, field), FormulaArg(GlobalTime))) ==
      Ok(Call("lt", [Source(s.streamType, field), Call("global_time", [])]))
  {
    CompileFieldAccess(s, field);
    CompileWithoutOperands("global_time", []);
    CompileComparisons(GlobalTime, FormulaArg(FieldAccess(s, field)));
    CompileComparisons(FieldAccess(s, field), FormulaArg(GlobalTime));
  }

  /** `a[k]` compiles to `index` over the target and the constant k, for
      every integer k: offsets are not validated. */
  lemma CompileIndex(a: Formula, k: int)
    ensures Compile(Index(a, ScalarArg(IntValue(k)))).Ok? <==> Compile(a).Ok?
    ensures Compile(a).Ok? ==>
      Compile(Index(a, ScalarArg(IntValue(k)))).value == Call("index", [Compile(a).value, Constant(IntValue(k))])
  {
    Dispatch(Index(a, ScalarArg(IntValue(k))));
  }

  /** `a.every(p)` compiles to `every` over the target and the period, which
      is still a period term, not yet seconds; `a.last()` to `last` over the
      target alone. */
  lemma CompileTemporal(a: Formula, p: Period)
    ensures Compile(Every(a, PeriodArg(p))).Ok? <==> Compile(a).Ok?
    ensures Compile(a).Ok? ==>
      Compile(Every(a, PeriodArg(p))).value == Call("every", [Compile(a).value, PeriodTerm(p)])
    ensures Compile(Last(a)).Ok? <==> Compile(a).Ok?
    ensures Compile(a).Ok? ==> Compile(Last(a)).value == Call("last", [Compile(a).value])
  {
    Dispatch(Every(a, PeriodArg(p)));
    Dispatch(Last(a));
  }

  /** `H(d, c)` compiles to `always` over the duration and the condition. */
  lemma CompileAlways(d: Operand, c: Operand)
    ensures Compile(H(d, c)).Ok? <==> CompileOperand(d).Ok? && CompileOperand(c).Ok?
    ensures Compile(H(d, c)).Ok? ==>
      Compile(H(d, c)).value == Call("always", [CompileOperand(d).value, CompileOperand(c).value])
  {
    Dispatch(H(d, c));
  }

  /** `multiplex_id(output, id, eos)` compiles to `multiplex` over the
      output, the id source and the end-of-stream source, in that order; the
      output template is compiled exactly as it would be on its own. */
  lemma CompileMultiplex(output: Formula, idFrom: Operand, eosFrom: Operand)
    ensures Compile(MultiplexId(FormulaArg(output), idFrom, eosFrom)).Ok? <==>
      Compile(output).Ok? && CompileOperand(idFrom).Ok? && CompileOperand(eosFrom).Ok?
    ensures Compile(MultiplexId(FormulaArg(output), idFrom, eosFrom)).Ok? ==>
      Compile(MultiplexId(FormulaArg(output), idFrom, eosFrom)).value ==
        Call("multiplex", [Compile(output).value, CompileOperand(idFrom).value, CompileOperand(eosFrom).value])
  {
    Dispatch(MultiplexId(FormulaArg(output), idFrom, eosFrom));
  }

  /** `GLOBAL.time` compiles to a childless `global_time`; `Formula('second')`
      to `time_unit_second`; an operator without a visitor to a childless
      term of that name, whatever arguments the formula holds. */
  lemma CompileWithoutOperands(op: string, args: seq<Operand>)
    ensures Compile(GlobalTime) == Ok(Call("global_time", []))
    ensures Compile(Plain("second", args)) == Ok(Call("time_unit_second", []))
    ensures OpKey(op) !in VisitorKeys ==> Compile(Plain(op, args)) == Ok(Call(op, []))
  {
    Dispatch(Plain(op, args));
  }

  /** generic_visit compiles the children a node was given, in order, and
      fails when one of them does. */
  lemma {:induction false} VisitChildrenInOrder(cs: seq<Ast>)
    ensures VisitChildren(cs).Ok? <==> forall i :: 0 <= i < |cs| ==> Visit(cs[i]).Ok?
    ensures VisitChildren(cs).Ok? ==>
      |VisitChildren(cs).value| == |cs| &&
      forall i :: 0 <= i < |cs| ==> Visit(cs[i]) == Ok(VisitChildren(cs).value[i])
  {
    if cs != [] {
      VisitChildrenInOrder(cs[1..]);
      if VisitChildren(cs).Ok? {
        forall i | 0 <= i < |cs|
          ensures Visit(cs[i]) == Ok(VisitChildren(cs).value[i])
        {
          if i > 0 {
            assert cs[i] == cs[1..][i - 1];
          }
        }
      }
      if forall i :: 0 <= i < |cs| ==> Visit(cs[i]).Ok? {
        forall i | 0 <= i < |cs| - 1
          ensures Visit(cs[1..][i]).Ok?
        {
          assert cs[1..][i] == cs[i + 1];
        }
      }
    }
  }

  /** A node whose operator has no visitor compiles to a term of that name
      over its compiled children; a node built from a formula alone has none. */
  lemma GenericVisitKeepsChildren(node: Ast)
    requires OpKey(Op(node.formula)) !in VisitorKeys
    ensures Visit(node).Ok? <==> forall i :: 0 <= i < |node.children| ==> Visit(node.children[i]).Ok?
    ensures Visit(node).Ok? ==>
      Visit(node).value.Call? && Name(Visit(node).value) == Op(node.formula) &&
      |Visit(node).value.args| == |node.children| &&
      forall i :: 0 <= i < |node.children| ==> Visit(node.children[i]) == Ok(Visit(node).value.args[i])
  {
    VisitChildrenInOrder(node.children);
  }

  /** The comparison combinators, reflected or not, build well-formed nodes
      from well-formed parts. */
  lemma ComparisonsWellFormed(a: Formula, b: Operand)
    requires WellFormed(a) && OperandOk(b)
    ensures WellFormed(Lt(a, b)) && WellFormed(Gt(a, b)) && WellFormed(Sub(a, b))
  {
    assert OperandOk(FormulaArg(a));
    if RightReflects(a, b) {
      assert Lt(a, b) == BinaryOp(">", b, FormulaArg(a));
      assert Gt(a, b) == BinaryOp("<", b, FormulaArg(a));
    } else {
      assert Lt(a, b) == BinaryOp("<", FormulaArg(a), b);
      assert Gt(a, b) == BinaryOp(">", FormulaArg(a), b);
    }
  }

  /** The same for the combinators that keep their receiver as the target. */
  lemma TargetCombinatorsWellFormed(a: Formula, b: Operand)
    requires WellFormed(a) && OperandOk(b)
    ensures WellFormed(Index(a, b)) && WellFormed(Every(a, b)) && WellFormed(Last(a))
  {
    assert OperandOk(FormulaArg(a));
    assert FirstArg(Every(a, b)) == Ok(b);
  }

  /** The same for `H`, `multiplex_id` and the leaves. */
  lemma OtherCombinatorsWellFormed(a: Formula, b: Operand, c: Operand, s: InputStream, field: string)
    requires WellFormed(a) && OperandOk(b) && OperandOk(c)
    ensures WellFormed(H(b, c)) && WellFormed(MultiplexId(FormulaArg(a), b, c))
    ensures WellFormed(GlobalTime) && WellFormed(FieldAccess(s, field))
  {
    assert OperandOk(FormulaArg(a));
  }

  /** The combinators build only well-formed nodes from well-formed parts,
      so every formula written with them compiles. */
  lemma CombinatorsWellFormed(a: Formula, b: Operand, c: Operand, s: InputStream, field: string)
    requires WellFormed(a) && OperandOk(b) && OperandOk(c)
    ensures WellFormed(Lt(a, b)) && WellFormed(Gt(a, b)) && WellFormed(Sub(a, b))
    ensures WellFormed(Index(a, b)) && WellFormed(Every(a, b)) && WellFormed(Last(a))
    ensures WellFormed(H(b, c)) && WellFormed(MultiplexId(FormulaArg(a), b, c))
    ensures WellFormed(GlobalTime) && WellFormed(FieldAccess(s, field))
    ensures Compile(Lt(a, b)).Ok? && Compile(Every(a, b)).Ok? && Compile(MultiplexId(FormulaArg(a), b, c)).Ok?
  {
    ComparisonsWellFormed(a, b);
    TargetCombinatorsWellFormed(a, b);
    OtherCombinatorsWellFormed(a, b, c, s, field);
    CompileOkIff(Lt(a, b));
    CompileOkIff(Every(a, b));
    CompileOkIff(MultiplexId(FormulaArg(a), b, c));
  }
}
