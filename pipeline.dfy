/** The two stages together: stage 1 only emits calls that have the
    children stage 2 reads, so on a well-formed formula the only way stage 2
    can fail is a source that does not resolve. */
module Pipeline {
  import opened Wrappers
  import opened Units
  import opened Formulas
  import opened Circuit
  import opened CircuitProperties
  import opened LsCompile

  /** An IR tree in which every call to an operator stage 2 knows has
      exactly the children stage 2 reads. */
  predicate Shaped(t: Term)
    decreases t
  {
    match t
    case Call(fn, args) =>
      (fn in KnownOps ==> |args| == Arity(fn)) &&
      forall i :: 0 <= i < |args| ==> Shaped(args[i])
    case _ => true
  }

  /** The (stream type, field) pairs of the source leaves of an IR tree. */
  function Sources(t: Term): set<(StreamType, string)>
    decreases t
  {
    match t
    case Source(st, field) => {(st, field)}
    case Call(_, args) => set i, s | 0 <= i < |args| && s in Sources(args[i]) :: s
    case _ => {}
  }

  /** Every source of the tree resolves. */
  predicate SourcesResolve(h: Hooks, t: Term)
  {
    forall s :: s in Sources(t) ==> h.resolveSource(s.0, s.1).Ok?
  }

  /** On a shaped tree, translation fails only on a source. */
  lemma {:induction false} ShapedTranslatable(h: Hooks, t: Term)
    requires Shaped(t)
    ensures Translatable(h, t) <==> SourcesResolve(h, t)
    decreases t
  {
    match t
    case Call(fn, args) =>
      forall i | 0 <= i < |args| ensures Translatable(h, args[i]) <==> SourcesResolve(h, args[i]) {
        ShapedTranslatable(h, args[i]);
      }
      if SourcesResolve(h, t) {
        forall i | 0 <= i < |args| ensures SourcesResolve(h, args[i]) {
          forall s | s in Sources(args[i]) ensures h.resolveSource(s.0, s.1).Ok? {
            assert s in Sources(t);
          }
        }
      }
    case Source(st, field) =>
      assert (st, field) in Sources(t);
    case _ =>
  }

  /** The visited operands of a node are smaller than the node. */
  lemma VisitedOperandsSmaller(f: Formula)
    ensures forall i :: 0 <= i < |VisitedOperands(f)| ==> OperandSize(VisitedOperands(f)[i]) < FormulaSize(f)
  {
    if f.TemporalOp? && f.args != [] {
      assert OperandsSize(f.args) == OperandSize(f.args[0]) + OperandsSize(f.args[1..]);
    }
  }

  /** A well-formed node visits as many operands as stage 2 reads for the
      name stage 1 gives it. */
  lemma ArityAgrees(f: Formula)
    requires WellFormed(f) && !f.FieldAccess?
    ensures IrName(f) in KnownOps ==> |VisitedOperands(f)| == Arity(IrName(f))
  {
  }

  /** Whatever stage 1 produces is shaped for stage 2. */
  lemma {:induction false} StageOneShaped(f: Formula)
    ensures Compile(f).Ok? ==> Shaped(Compile(f).value)
    decreases FormulaSize(f), 1
  {
    if Compile(f).Ok? {
      CompileOkIff(f);
      if f.FieldAccess? {
        CompileFieldAccess(f.stream, f.field);
      } else {
        CompileShape(f);
        ArityAgrees(f);
        VisitedOperandsSmaller(f);
        var t := Compile(f).value;
        forall i | 0 <= i < |t.args| ensures Shaped(t.args[i]) {
          OperandShaped(VisitedOperands(f)[i]);
        }
      }
    }
  }

  lemma {:induction false} OperandShaped(o: Operand)
    ensures CompileOperand(o).Ok? ==> Shaped(CompileOperand(o).value)
    decreases OperandSize(o), 0
  {
    if o.FormulaArg? {
      StageOneShaped(o.f);
    }
  }

  /** End to end: a well-formed formula compiles, and its IR translates
      exactly when each of its sources resolves, whatever the factories. */
  lemma PipelineTotal(f: Formula, h: Hooks)
    requires WellFormed(f)
    ensures Compile(f).Ok?
    ensures CompileNode(h, Compile(f).value).Ok? <==> SourcesResolve(h, Compile(f).value)
  {
    CompileOkIff(f);
    StageOneShaped(f);
    TranslatableIff(h, Compile(f).value);
    ShapedTranslatable(h, Compile(f).value);
  }

  /** The backend root of a well-formed non-leaf formula is named after its
      operator (an empty one becoming `unknown`) and has one child per
      visited operand; a root that stage 1 names `time_unit_second` (from
      `Formula('second')` or `Formula('time_unit_second')`) becomes the
      constant 1.0 instead. */
  lemma RootName(f: Formula, resolve: (StreamType, string) -> Result<Backend, LsError>)
    requires WellFormed(f) && !f.FieldAccess? && Compile(f).Ok?
    requires CompileNode(DefaultHooks(resolve), Compile(f).value).Ok?
    ensures var b := CompileNode(DefaultHooks(resolve), Compile(f).value).value;
      if IrName(f) == "time_unit_second" then b == BConst(FloatValue(1.0))
      else
        && b.BCall?
        && b.name == (if IrName(f) == "" then "unknown" else IrName(f))
        && |b.args| == |VisitedOperands(f)|
  {
    CompileShape(f);
    StageOneShaped(f);
    var t := Compile(f).value;
    if IrName(f) != "time_unit_second" {
      if IrName(f) in KnownOps {
        KnownOperator(resolve, IrName(f), t.args);
      } else {
        OtherOperator(resolve, IrName(f), t.args);
      }
    }
  }

  /** `a.every(k * unit)` end to end: the period reaches stage 2 as a
      duration and leaves it as its length in seconds. */
  lemma EveryEndToEnd(a: Formula, p: Period, resolve: (StreamType, string) -> Result<Backend, LsError>)
    requires Compile(a).Ok?
    requires CompileNode(DefaultHooks(resolve), Compile(a).value).Ok?
    ensures Compile(Every(a, PeriodArg(p))) == Ok(Call("every", [Compile(a).value, PeriodTerm(p)]))
    ensures CompileNode(DefaultHooks(resolve), Compile(Every(a, PeriodArg(p))).value) ==
      Ok(BCall("every", [CompileNode(DefaultHooks(resolve), Compile(a).value).value,
                         BConst(FloatValue(p.value * p.unit.toSeconds))]))
  {
    CompileTemporal(a, p);
    var h := DefaultHooks(resolve);
    var args := [Compile(a).value, PeriodTerm(p)];
    KnownOperator(resolve, "every", args);
    assert CompileNode(h, args[1]) == Ok(BConst(FloatValue(p.value * p.unit.toSeconds)));
    var b := CompileNode(h, Call("every", args)).value;
    assert b.args == [CompileNode(h, args[0]).value, CompileNode(h, args[1]).value];
  }
}
