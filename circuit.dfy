/** Stage 1 of the compiler (pystreamv.py, CircuitCompiler): a formula is
    turned into an IR tree of function terms. Dispatch is on the node's `op`
    string, not on its kind, so a node whose kind lacks the attributes its
    visitor reads fails with an AttributeError or IndexError. */
module Circuit {
  import opened Wrappers
  import opened Units
  import opened Formulas

  /** The IR: a FunctionTerm with a name and ordered arguments, or one of its
      childless leaf subclasses. */
  datatype Term =
    | Call(functionName: string, args: seq<Term>)
    | Source(streamType: StreamType, field: string)
    | Constant(value: Scalar)
    | External(fn: HostValue)
    | PeriodTerm(period: Period)
    | UnitTerm(unit: Unit)

  /** The `function_name` every term carries. */
  function Name(t: Term): string
  {
    match t
    case Call(name, _) => name
    case Source(_, _) => "source"
    case Constant(_) => "const"
    case External(_) => "external"
    case PeriodTerm(_) => "period"
    case UnitTerm(_) => "unit"
  }

  /** The exceptions a visitor can raise on a node of the wrong kind. */
  datatype CompileError = AttributeError(attribute: string) | IndexError

  /** FormulaAST as a value: a formula and the child nodes added to it. */
  datatype Ast = Ast(formula: Formula, children: seq<Ast>)

  function AstSize(a: Ast): nat
  {
    1 + FormulaSize(a.formula) + AstsSize(a.children)
  }

  function AstsSize(cs: seq<Ast>): nat
  {
    if cs == [] then 0 else 1 + AstSize(cs[0]) + AstsSize(cs[1..])
  }

  /** `to_ast` and `_formula_to_ast`: a node with no children. */
  function FormulaToAst(f: Formula): Ast
  {
    Ast(f, [])
  }

  /** FormulaAST, whose child list `add_child` extends in place. */
  class FormulaAst {
    const formula: Formula
    var children: seq<Ast>

    constructor (formula: Formula, children: seq<Ast>)
      ensures this.formula == formula && this.children == children
    {
      this.formula := formula;
      this.children := children;
    }

    function Value(): Ast
      reads this
    {
      Ast(formula, children)
    }

    method AddChild(child: Ast)
      modifies this
      ensures children == old(children) + [child]
    {
      children := children + [child];
    }

    /** compile_to_circuit */
    method CompileToCircuit() returns (r: Result<Term, CompileError>)
      ensures r == Visit(Value())
    {
      r := Visit(Ast(formula, children));
    }
  }

  /** The visitor suffix an operator selects. */
  function OpKey(op: string): string
  {
    if op == ">" then "gt" else if op == "<" then "lt" else if op == "-" then "sub" else op
  }

  /** The suffixes for which CircuitCompiler has a `visit_` method. */
  const VisitorKeys: set<string> :=
    {"field_access", "binary_op", "lt", "gt", "sub", "index", "every", "last",
     "always", "multiplex", "global_time", "second"}

  /** CircuitCompiler.visit: a field access becomes a source leaf, any other
      node a function term. */
  function Visit(node: Ast): (r: Result<Term, CompileError>)
    ensures r.Ok? ==> if node.formula.FieldAccess? then r.value.Source? else r.value.Call?
    decreases AstSize(node), 1
  {
    var f := node.formula;
    var key := OpKey(Op(f));
    if key == "field_access" then VisitFieldAccess(f)
    else if key == "binary_op" then VisitBinary("op_" + Op(f), f)
    else if key == "lt" || key == "gt" || key == "sub" then VisitBinary(key, f)
    else if key == "index" then VisitIndex(f)
    else if key == "every" then VisitEvery(f)
    else if key == "last" then VisitLast(f)
    else if key == "always" then VisitAlways(f)
    else if key == "multiplex" then VisitMultiplex(f)
    else if key == "global_time" then Ok(Call("global_time", []))
    else if key == "second" then Ok(Call("time_unit_second", []))
    else GenericVisit(node)
  }

  /** generic_visit: a term named by the operator over the compiled children. */
  function GenericVisit(node: Ast): (r: Result<Term, CompileError>)
    ensures r.Ok? ==> r.value.Call? && Name(r.value) == Op(node.formula) && |r.value.args| == |node.children|
    decreases AstSize(node), 0
  {
    var args :- VisitChildren(node.children);
    Ok(Call(Op(node.formula), args))
  }

  /** The children, visited left to right; the first failure stops it. */
  function VisitChildren(cs: seq<Ast>): (r: Result<seq<Term>, CompileError>)
    ensures r.Ok? ==> |r.value| == |cs|
    ensures cs != [] && Visit(cs[0]).Err? ==> r == Err(Visit(cs[0]).error)
    decreases AstsSize(cs), 2
  {
    if cs == [] then Ok([])
    else
      var head :- Visit(cs[0]);
      var tail :- VisitChildren(cs[1..]);
      Ok([head] + tail)
  }

  /** Reading an attribute the visitor needs, or raising AttributeError. */
  function Need(f: Formula, name: string): (r: Result<Operand, CompileError>)
    ensures r.Ok? ==> OperandSize(r.value) < FormulaSize(f)
    ensures r.Ok? ==> Attr(f, name) == Some(r.value)
    ensures r.Err? ==> Attr(f, name).None? && r.error == AttributeError(name)
  {
    match Attr(f, name)
    case Some(o) => Ok(o)
    case None => Err(AttributeError(name))
  }

  /** visit_field_access: only a field access has the `stream` it reads. */
  function VisitFieldAccess(f: Formula): (r: Result<Term, CompileError>)
    ensures r.Ok? <==> f.FieldAccess?
    ensures r.Ok? ==> r.value.Source? && r.value.field == f.field
  {
    match f
    case FieldAccess(stream, field) => Ok(Source(stream.streamType, field))
    case _ => Err(AttributeError("stream"))
  }

  /** visit_lt, visit_gt, visit_sub and visit_binary_op, which differ only in
      the name they give the term. */
  function VisitBinary(name: string, f: Formula): (r: Result<Term, CompileError>)
    ensures r.Ok? ==> f.BinaryOp? && r.value.Call? && Name(r.value) == name && |r.value.args| == 2
    ensures !f.BinaryOp? ==> r == Err(AttributeError("left"))
    decreases FormulaSize(f), 1
  {
    var left :- Need(f, "left");
    var leftTerm :- CompileOperand(left);
    var right :- Need(f, "right");
    var rightTerm :- CompileOperand(right);
    Ok(Call(name, [leftTerm, rightTerm]))
  }

  /** visit_index */
  function VisitIndex(f: Formula): (r: Result<Term, CompileError>)
    ensures r.Ok? ==> f.IndexOp? && r.value.Call? && Name(r.value) == "index" && |r.value.args| == 2
    ensures !f.IndexOp? && !f.TemporalOp? ==> r == Err(AttributeError("target"))
    decreases FormulaSize(f), 1
  {
    var target :- Need(f, "target");
    var targetTerm :- CompileOperand(target);
    var index :- Need(f, "index");
    var indexTerm :- CompileOperand(index);
    Ok(Call("index", [targetTerm, indexTerm]))
  }

  /** `args[0]` of a node that has a target. */
  function FirstArg(f: Formula): (r: Result<Operand, CompileError>)
    requires f.IndexOp? || f.TemporalOp?
    ensures r.Ok? ==> OperandSize(r.value) < FormulaSize(f)
    ensures f.IndexOp? ==> r == Ok(f.target)
    ensures f.TemporalOp? ==> r == (if f.args == [] then Err(IndexError) else Ok(f.args[0]))
  {
    match f
    case IndexOp(target, _) => Ok(target)
    case TemporalOp(_, _, args) => if args == [] then Err(IndexError) else Ok(args[0])
  }

  /** visit_every: the target is read before `args[0]`, so a node without a
      target fails with AttributeError and a temporal node without extra
      arguments with IndexError. An index node passes: its `args[0]` is its
      target. */
  function VisitEvery(f: Formula): (r: Result<Term, CompileError>)
    ensures r.Ok? ==> (f.TemporalOp? || f.IndexOp?) && r.value.Call? && Name(r.value) == "every" && |r.value.args| == 2
    ensures !f.IndexOp? && !f.TemporalOp? ==> r == Err(AttributeError("target"))
    ensures f.TemporalOp? && f.args == [] && CompileOperand(f.target).Ok? ==> r == Err(IndexError)
    decreases FormulaSize(f), 1
  {
    var target :- Need(f, "target");
    var targetTerm :- CompileOperand(target);
    var period :- FirstArg(f);
    var periodTerm :- CompileOperand(period);
    Ok(Call("every", [targetTerm, periodTerm]))
  }

  /** visit_last */
  function VisitLast(f: Formula): (r: Result<Term, CompileError>)
    ensures r.Ok? ==> (f.TemporalOp? || f.IndexOp?) && r.value.Call? && Name(r.value) == "last" && |r.value.args| == 1
    ensures !f.IndexOp? && !f.TemporalOp? ==> r == Err(AttributeError("target"))
    decreases FormulaSize(f), 1
  {
    var target :- Need(f, "target");
    var targetTerm :- CompileOperand(target);
    Ok(Call("last", [targetTerm]))
  }

  /** visit_always */
  function VisitAlways(f: Formula): (r: Result<Term, CompileError>)
    ensures r.Ok? ==> f.AlwaysOperator? && r.value.Call? && Name(r.value) == "always" && |r.value.args| == 2
    ensures !f.AlwaysOperator? ==> r == Err(AttributeError("duration"))
    decreases FormulaSize(f), 1
  {
    var duration :- Need(f, "duration");
    var durationTerm :- CompileOperand(duration);
    var condition :- Need(f, "condition");
    var conditionTerm :- CompileOperand(condition);
    Ok(Call("always", [durationTerm, conditionTerm]))
  }

  /** visit_multiplex: the output template is compiled like any operand. */
  function VisitMultiplex(f: Formula): (r: Result<Term, CompileError>)
    ensures r.Ok? ==> f.MultiplexFormula? && r.value.Call? && Name(r.value) == "multiplex" && |r.value.args| == 3
    ensures !f.MultiplexFormula? ==> r == Err(AttributeError("output"))
    decreases FormulaSize(f), 1
  {
    var output :- Need(f, "output");
    var outputTerm :- CompileOperand(output);
    var idFrom :- Need(f, "id_from");
    var idTerm :- CompileOperand(idFrom);
    var eosFrom :- Need(f, "eos_from");
    var eosTerm :- CompileOperand(eosFrom);
    Ok(Call("multiplex", [outputTerm, idTerm, eosTerm]))
  }

  /** _compile_operand: formulas recurse, durations and units stay as they
      are, scalars become constants and anything else an external term. */
  function CompileOperand(o: Operand): (r: Result<Term, CompileError>)
    ensures !o.FormulaArg? ==> r.Ok? && !r.value.Call? && !r.value.Source?
    ensures o.FormulaArg? && r.Ok? ==> (r.value.Source? <==> o.f.FieldAccess?)
    decreases OperandSize(o), 1
  {
    match o
    case FormulaArg(g) =>
      assert AstsSize(FormulaToAst(g).children) == 0;
      Visit(FormulaToAst(g))
    case PeriodArg(p) => Ok(PeriodTerm(p))
    case UnitArg(u) => Ok(UnitTerm(u))
    case ScalarArg(v) => Ok(Constant(v))
    case HostArg(h) => Ok(External(h))
  }

  /** Formula.compile and compile_formula: the root is a source leaf exactly
      for a field access, and a function term otherwise. */
  function Compile(f: Formula): (r: Result<Term, CompileError>)
    ensures r.Ok? ==> (r.value.Source? <==> f.FieldAccess?) && (r.value.Call? <==> !f.FieldAccess?)
  {
    Visit(FormulaToAst(f))
  }
}
