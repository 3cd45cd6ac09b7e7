/** The stale-intruder monitor of test_pystreamv_ls_compile.py, through both
    stages: a `stale` formula over a timestamped intruder stream and a
    `multiplex` formula keyed by the intruder's id. */
module StaleScenario {
  import opened Wrappers
  import opened Units
  import opened Formulas
  import opened Circuit
  import opened CircuitProperties
  import opened LsCompile

  /** The intruder type: a class annotated with `lat`, `lon` and `id`. */
  const IntruderType := ClassType(2, "IntruderType",
    Some([("lat", FieldType("float")), ("lon", FieldType("float")), ("id", FieldType("int"))]), [])

  /** `((time.last() - GLOBAL.time) > 10).every(10 * s)` */
  function Stale(time: Formula): Formula
  {
    Every(Gt(Sub(Last(time), FormulaArg(GlobalTime)), ScalarArg(IntValue(10))), PeriodArg(Scale(10.0, Seconds)))
  }

  /** `mock_dist[i]` for the opaque formula `distance_stream`. */
  function DistanceAt(i: int): Formula
  {
    Index(Plain("distance_stream", []), ScalarArg(IntValue(i)))
  }

  /** `H(5 * s, mock_dist[-1] < mock_dist[-2])` */
  const Output := H(PeriodArg(Scale(5.0, Seconds)), FormulaArg(Lt(DistanceAt(-1), FormulaArg(DistanceAt(-2)))))

  /** The IR of `stale`. */
  const StaleIr :=
    Call("every", [
      Call("gt", [
        Call("sub", [Call("last", [Source(IntruderType, "time")]), Call("global_time", [])]),
        Constant(IntValue(10))]),
      PeriodTerm(Scale(10.0, Seconds))])

  /** The IR of `mock_dist[i]`. */
  function DistanceAtIr(i: int): Term
  {
    Call("index", [Call("distance_stream", []), Constant(IntValue(i))])
  }

  /** The IR of the multiplexed output. */
  const OutputIr :=
    Call("always", [PeriodTerm(Scale(5.0, Seconds)), Call("lt", [DistanceAtIr(-1), DistanceAtIr(-2)])])

  /** The test's source map: the intruder's `time` and `id`, keyed by its type. */
  const TestSourceMap := map[
    SourceKey(ClassHead(IntruderType.id), "time") := BCall("source_intruder_time", []),
    SourceKey(ClassHead(IntruderType.id), "id") := BCall("source_intruder_id", [])]

  /** The backend tree of `stale`. */
  const StaleTree :=
    BCall("every", [
      BCall("gt", [
        BCall("sub", [BCall("last", [BCall("source_intruder_time", [])]), BCall("global_time", [])]),
        BConst(IntValue(10))]),
      BConst(FloatValue(10.0))])

  /** `distance_stream[i]` in the backend. */
  function DistanceAtTree(i: int): Backend
  {
    BCall("index", [BCall("distance_stream", []), BConst(IntValue(i))])
  }

  /** The backend tree of the multiplexed output. */
  const OutputTree :=
    BCall("always", [BConst(FloatValue(5.0)), BCall("lt", [DistanceAtTree(-1), DistanceAtTree(-2)])])

  /** Stage 1 on `stale`: the period stays a duration. */
  lemma StaleStageOne(ts: InputStream)
    requires ts.streamType == IntruderType
    ensures Compile(Stale(FieldAccess(ts, "time"))) == Ok(StaleIr)
  {
    var time := FieldAccess(ts, "time");
    CompileFieldAccess(ts, "time");
    CompileTemporal(time, Scale(10.0, Seconds));
    CompileWithoutOperands("global_time", []);
    var age := Sub(Last(time), FormulaArg(GlobalTime));
    CompileComparisons(Last(time), FormulaArg(GlobalTime));
    CompileComparisons(age, ScalarArg(IntValue(10)));
    var tooOld := Gt(age, ScalarArg(IntValue(10)));
    assert Compile(tooOld) == Ok(StaleIr.args[0]);
    CompileTemporal(tooOld, Scale(10.0, Seconds));
  }

  /** Stage 1 on the output: the index offsets -1 and -2 become constants. */
  lemma OutputStageOne()
    ensures Compile(Output) == Ok(OutputIr)
  {
    CompileWithoutOperands("distance_stream", []);
    CompileIndex(Plain("distance_stream", []), -1);
    CompileIndex(Plain("distance_stream", []), -2);
    OperandClassification(FormulaArg(DistanceAt(-2)));
    CompileComparisons(DistanceAt(-1), FormulaArg(DistanceAt(-2)));
    var closer := Lt(DistanceAt(-1), FormulaArg(DistanceAt(-2)));
    assert Compile(closer) == Ok(OutputIr.args[1]);
    CompileAlways(PeriodArg(Scale(5.0, Seconds)), FormulaArg(closer));
  }

  /** Stage 2 on `stale`, with the test's source map. */
  lemma StaleStageTwo()
    ensures CompileToLs(StaleIr, Some(TestSourceMap), None, None, None) == Ok(StaleTree)
  {
    var resolve := (st, field) => ResolveSource(TestSourceMap, st, field);
    var h := DefaultHooks(resolve);
    ResolverPrecedence(StaleIr, None, resolve, TestSourceMap);
    LeafTranslation(resolve, IntValue(10), 10.0, Seconds, HostValue(0, ""), []);
    var time := Source(IntruderType, "time");
    assert CompileNode(h, time) == Ok(BCall("source_intruder_time", []));
    TranslateCall(resolve, "last", [time], [BCall("source_intruder_time", [])]);
    TranslateCall(resolve, "global_time", [], []);
    var age := StaleIr.args[0].args[0];
    TranslateCall(resolve, "sub", age.args, StaleTree.args[0].args[0].args);
    TranslateCall(resolve, "gt", StaleIr.args[0].args, StaleTree.args[0].args);
    TranslateCall(resolve, "every", StaleIr.args, StaleTree.args);
  }

  /** Stage 2 on the output. */
  lemma OutputStageTwo()
    ensures CompileToLs(OutputIr, Some(TestSourceMap), None, None, None) == Ok(OutputTree)
  {
    var resolve := (st, field) => ResolveSource(TestSourceMap, st, field);
    ResolverPrecedence(OutputIr, None, resolve, TestSourceMap);
    LeafTranslation(resolve, IntValue(-1), 5.0, Seconds, HostValue(0, ""), []);
    TranslateCall(resolve, "distance_stream", [], []);
    TranslateCall(resolve, "index", DistanceAtIr(-1).args, DistanceAtTree(-1).args);
    TranslateCall(resolve, "index", DistanceAtIr(-2).args, DistanceAtTree(-2).args);
    TranslateCall(resolve, "lt", OutputIr.args[1].args, OutputTree.args[1].args);
    TranslateCall(resolve, "always", OutputIr.args, OutputTree.args);
  }

  /** Stage 2 on `mux`, given its children's translations. */
  lemma MuxStageTwo()
    ensures CompileToLs(Call("multiplex", [OutputIr, Source(IntruderType, "id"), StaleIr]),
                        Some(TestSourceMap), None, None, None) ==
      Ok(BCall("multiplex", [OutputTree, BCall("source_intruder_id", []), StaleTree]))
  {
    var resolve := (st, field) => ResolveSource(TestSourceMap, st, field);
    var h := DefaultHooks(resolve);
    var args := [OutputIr, Source(IntruderType, "id"), StaleIr];
    ResolverPrecedence(Call("multiplex", args), None, resolve, TestSourceMap);
    ResolverPrecedence(OutputIr, None, resolve, TestSourceMap);
    ResolverPrecedence(StaleIr, None, resolve, TestSourceMap);
    StaleStageTwo();
    OutputStageTwo();
    KnownOperator(resolve, "multiplex", args);
    var b := CompileNode(h, Call("multiplex", args)).value;
    assert b.args == [OutputTree, BCall("source_intruder_id", []), StaleTree];
  }

  /** test_compile_stale_and_multiplex: build the streams and formulas, run
      stage 1, map the intruder's `time` and `id` to backend sources, run
      stage 2. */
  method CompileStaleAndMultiplex() returns (staleLs: Result<Backend, LsError>, muxLs: Result<Backend, LsError>)
    ensures staleLs == Ok(StaleTree)
    ensures staleLs.value.name == "every"
    ensures muxLs == Ok(BCall("multiplex", [OutputTree, BCall("source_intruder_id", []), StaleTree]))
    ensures muxLs.value.args[0].name == "always" && muxLs.value.args[0].args[1].name == "lt"
    ensures muxLs.value.args[0].args[1].args[0].args[1] == BConst(IntValue(-1))
    ensures muxLs.value.args[0].args[1].args[1].args[1] == BConst(IntValue(-2))
  {
    var intruder := new InputStream(IntruderType);
    var intrTs := new InputStream.Timestamp(intruder);
    FromEntriesLookup(IntruderType.annotations.value, false, "id");
    assert IntruderType.annotations.value[2].0 == "id";

    var time := intrTs.GetAttr("time");
    var stale := Stale(time.formula);
    var id := intruder.GetAttr("id");
    var mux := MultiplexId(FormulaArg(Output), FormulaArg(id.formula), FormulaArg(stale));

    StaleStageOne(intrTs);
    OutputStageOne();
    CompileFieldAccess(intruder, "id");
    CompileMultiplex(Output, FormulaArg(id.formula), FormulaArg(stale));
    var staleFt := Compile(stale).value;
    var muxFt := Compile(mux).value;
    assert muxFt == Call("multiplex", [OutputIr, Source(IntruderType, "id"), StaleIr]);

    assert SimpleIntruderSourceMap(IntruderType) == Ok(TestSourceMap);
    staleLs := CompileToLs(staleFt, Some(TestSourceMap), None, None, None);
    muxLs := CompileToLs(muxFt, Some(TestSourceMap), None, None, None);
    StaleStageTwo();
    MuxStageTwo();
  }
}
