# pystreamv: a two-stage compiler for stream-monitoring formulas, in Dafny

pystreamv is a small formula language for monitoring data streams. A
formula is built from input-stream fields (`intruder.id`), comparisons and
subtraction (`<`, `>`, `-`), history indexing (`f[-1]`), temporal operators
(`f.every(10 * s)`, `f.last()`, `H(duration, condition)`), the global clock
(`GLOBAL.time`) and `multiplex_id`, which runs one copy of a formula per
stream id.

Compilation happens in two stages:

- Stage 1 (`CircuitCompiler`) turns the formula tree into an IR of function
  terms. Its leaves are sources, constants, periods, units and external
  functions.
- Stage 2 (`PystreamvToLSCompiler`) retargets that IR to the stream-processing
  backend through three hooks:
  - a source resolver, by default a `SourceResolver` over a source map;
  - a constant factory;
  - a call factory.

The project also models `CompareLastTwoTerm`, a backend term. It remembers
the previous `dist` it saw and marks each item with whether its `dist`
decreased.

Files:

- `wrappers.dfy`: Option and Result.
- `units.dfy`: units and periods.
- `formulas.dfy`: the formula language and the input streams. The stream
  field tables are filled by loops, as in the source.
- `circuit.dfy`: stage 1.
- `circuit_props.dfy`: what stage 1 guarantees.
- `ls_compile.dfy`: stage 2 and its properties.
- `pipeline.dfy`: both stages together.
- `compare_last_two.dfy`: the `CompareLastTwoTerm` state machine.
- `scenario.dfy`: the stale-intruder example of the test suite, end to end.

Stage 1 dispatches on the node's `op` string, not on its class. So a node
whose class lacks what its visitor reads raises an exception:

- `Formula('index')` and `Formula('every')` have no `target` and raise
  `AttributeError`, since each visitor reads the target first.
- `TemporalOp('every', a)`, built without a period, has a target but no
  `args[0]`; when `a` compiles, it raises `IndexError`.

The model keeps this behaviour as `CompileError` results. `WellFormed`
characterises exactly the formulas that compile (`CompileOkIff`). Every
combinator applied to well-formed operands builds a well-formed formula
(`CombinatorsWellFormed`).

`<` and `>` follow the host language's operator resolution. When the left
operand is a bare `Formula` (such as `GLOBAL.time`) and the right one is a
node of one of its subclasses, the right operand's reflected method runs
first. So `GLOBAL.time < s.x` builds `s.x > GLOBAL.time` and compiles to
`gt(s.x, GLOBAL.time)` (`RightReflects`, `ReflectedComparison`). `-` has no
reflected method and is not affected.

Periods are converted to seconds in stage 2, not in stage 1. Stage 1 emits
`PeriodTerm(p)` unchanged (`CompileTemporal`). Stage 2 turns it into the
constant `value * unit.to_seconds` (pystreamv_ls_compile.py:102-105;
`LeafTranslation`, `EveryEndToEnd`).

## Model

| member | source | states |
|---|---|---|
| Units.Scale | pystreamv.py:14-15 | `k * u` is a period of value `k` in unit `u` |
| Units.ToSeconds | pystreamv.py:26-27 | a period in seconds lasts its own value; a non-negative period of a non-negative unit lasts non-negative time (the general product is stated by ScaleToSeconds) |
| Units.ScaleToSeconds | pystreamv.py:26-27 | a period `k * u` lasts `k * u.to_seconds` seconds, so 10 s is 10, 10 m is 600, and 1000 times k ms is k |
| Formulas.Attr | pystreamv.py:81-154 | an operand attribute exists exactly on the node class whose constructor sets it: `left`/`right` on BinaryOp, `target`/`index` on IndexOp, `target` on TemporalOp, `output`/`id_from`/`eos_from` on MultiplexFormula, `duration`/`condition` on AlwaysOperator; it is smaller than the node |
| Formulas.Lt | pystreamv.py:54-55 | `a < b`; properties stated by CombinatorShapes and CompileComparisons |
| Formulas.Gt | pystreamv.py:57-58 | `a > b`; properties stated by CombinatorShapes and CompileComparisons |
| Formulas.Sub | pystreamv.py:60-61 | `a - b`; properties stated by CombinatorShapes and CompileComparisons |
| Formulas.Index | pystreamv.py:63-64 | `a[i]`; properties stated by CombinatorShapes and CompileIndex |
| Formulas.Every | pystreamv.py:66-67 | `a.every(p)`; properties stated by CombinatorShapes and CompileTemporal |
| Formulas.Last | pystreamv.py:69-70 | `a.last()`; properties stated by CombinatorShapes and CompileTemporal |
| Formulas.H | pystreamv.py:160-161 | `H(d, c)`; properties stated by CombinatorsWellFormed and CompileAlways |
| Formulas.MultiplexId | pystreamv.py:163-164 | `multiplex_id(o, i, e)`; properties stated by CombinatorsWellFormed and CompileMultiplex |
| Formulas.CombinatorShapes | pystreamv.py:54-70 | `a < b`, `a > b`, `a - b` are binary nodes with ops `<`, `>`, `-`, left `a` and right `b`, except that when `a` is a bare `Formula` and `b` a subclass node, `a < b` is `b > a` and `a > b` is `b < a`; `a[i]` has target `a` and index `i`; `a.every(p)` has target `a` and extra arguments `[p]`; `a.last()` has none |
| Formulas.FromEntriesLookup | pystreamv.py:111-122 | a name is a field exactly when some entry declares it (and it is not private when private names are skipped); its type is that of the last such entry |
| Formulas.InputStream.constructor | pystreamv.py:106-122 | the new stream's field table is what its type declares: annotations, else dictionary entries, else public class entries |
| Formulas.InputStream.Timestamp | pystreamv.py:130-137 | a timestamped stream keeps the original's type; its fields are the declared ones updated with the original's, plus `time` of type float |
| Formulas.InputStream.CollectFields | pystreamv.py:110-122 | the three collecting branches yield the declared fields of the type |
| Formulas.InputStream.Fill | pystreamv.py:112-122 | inserting entries one by one, later entries overriding earlier ones, yields the declared field table |
| Formulas.InputStream.GetAttr | pystreamv.py:124-137 | reading a name gives a field access exactly when it is a declared field not shadowed by an instance attribute (or `time` of a timestamped stream), and an AttributeError exactly when it is neither a field nor an instance attribute |
| Circuit.FormulaAst.constructor | pystreamv.py:168-170 | a new node holds the formula and the given children |
| Circuit.FormulaAst.AddChild | pystreamv.py:172-173 | the child is appended after the existing children |
| Circuit.FormulaAst.CompileToCircuit | pystreamv.py:175-178 | compiling a node visits its current formula and children |
| Circuit.Need | pystreamv.py:201-254 | a visitor reading an attribute gets the operand the node stores under that name, or an AttributeError naming it |
| Circuit.Visit | pystreamv.py:183-189 | a field access compiles to a source leaf and every other node to a function term; the dispatch table is stated by Dispatch |
| Circuit.GenericVisit | pystreamv.py:191-194 | a node without a visitor gives a term named after its op with one argument per child |
| Circuit.VisitChildren | pystreamv.py:193 | one term per child, and the first child's failure is the result's |
| Circuit.VisitFieldAccess | pystreamv.py:196-199 | succeeds exactly on a field access, giving a source leaf for its field |
| Circuit.VisitBinary | pystreamv.py:201-223 | succeeds only on a binary node, giving a two-argument term of the given name; any other node fails on reading `left` |
| Circuit.VisitIndex | pystreamv.py:225-229 | succeeds only on an index node, giving a two-argument `index`; a node without a target fails on reading `target` |
| Circuit.VisitEvery | pystreamv.py:231-236 | succeeds only on a node with a target, giving a two-argument `every`; a node without a target raises AttributeError, and a temporal node whose target compiles but which has no extra arguments raises IndexError |
| Circuit.VisitLast | pystreamv.py:238-241 | succeeds only on a node with a target, giving a one-argument `last`; any other node fails on reading `target` |
| Circuit.VisitAlways | pystreamv.py:243-247 | succeeds only on an always node, giving a two-argument `always`; any other node fails on reading `duration` |
| Circuit.VisitMultiplex | pystreamv.py:249-254 | succeeds only on a multiplex node, giving a three-argument `multiplex`; any other node fails on reading `output` |
| Circuit.CompileOperand | pystreamv.py:262-275 | a non-formula operand never fails and becomes a leaf; a compiled formula operand is a source exactly for a field access (classification stated by OperandClassification) |
| Circuit.Compile | pystreamv.py:76-79 | the root of a compiled formula is a source leaf exactly for a field access and a function term otherwise (success stated by CompileOkIff) |
| Circuit.FirstArg | pystreamv.py:231-236 | `args[0]` of a temporal node is its first extra argument, and one without extra arguments raises IndexError; `args[0]` of an index node is its target |
| CircuitProperties.Dispatch | pystreamv.py:183-194 | `<`, `>`, `-` select `lt`, `gt`, `sub`; every other op selects its own visitor; an op without a visitor compiles to a term of that name with no arguments |
| CircuitProperties.VisitorsOk | pystreamv.py:196-254 | each visitor succeeds exactly when the node has the attributes it reads and they compile, and then builds its named term over them in its order |
| CircuitProperties.CompileOkIff | pystreamv.py:183-281 | stage 1 succeeds exactly on well-formed formulas |
| CircuitProperties.OperandOkIff | pystreamv.py:262-275 | an operand compiles exactly when it is not an ill-formed formula |
| CircuitProperties.CompileShape | pystreamv.py:201-260 | a well-formed non-leaf node compiles to one term named after its operator whose arguments are its visited operands, compiled, in visitor order |
| CircuitProperties.CompileFieldAccess | pystreamv.py:196-199 | a field access compiles to a childless source leaf carrying the stream's type and the field |
| CircuitProperties.OperandClassification | pystreamv.py:262-275 | formulas recurse, periods stay periods, units stay units, scalars become constants with the same value, anything else an external term |
| CircuitProperties.CompileComparisons | pystreamv.py:207-223 | `a < b`, `a > b`, `a - b` compile to `lt`, `gt`, `sub` over `[a, b]` compiled, in that order, except that a reflecting right operand gives `gt(b, a)` for `a < b` and `lt(b, a)` for `a > b`; each succeeds exactly when both operands compile |
| CircuitProperties.ReflectedComparison | pystreamv.py:54-58 | `GLOBAL.time < s.x` compiles to `gt(source, global_time)` and `GLOBAL.time > s.x` to `lt(source, global_time)`, while `s.x < GLOBAL.time` is `lt(source, global_time)` |
| CircuitProperties.CompileIndex | pystreamv.py:225-229 | `a[k]` compiles to `index(a, const(k))` for any integer k, negative offsets included |
| CircuitProperties.CompileTemporal | pystreamv.py:231-241 | `a.every(p)` compiles to `every(a, PeriodTerm(p))` with the period not yet normalised; `a.last()` compiles to `last(a)` |
| CircuitProperties.CompileAlways | pystreamv.py:243-247 | `H(d, c)` compiles to `always(d, c)` |
| CircuitProperties.CompileMultiplex | pystreamv.py:249-254 | `multiplex_id(o, i, e)` compiles to `multiplex(o, i, e)`, with the output formula compiled unchanged as child 0 |
| CircuitProperties.CompileWithoutOperands | pystreamv.py:256-260 | `GLOBAL.time` compiles to `global_time()`, `Formula('second')` to `time_unit_second()`, and an op without a visitor to a term of that name with no arguments, whatever its args |
| CircuitProperties.VisitChildrenInOrder | pystreamv.py:191-194 | the generic visitor's children compile in order, and it fails exactly when a child fails |
| CircuitProperties.GenericVisitKeepsChildren | pystreamv.py:191-194 | a node without a visitor compiles to a term of its op's name over its children's terms, in order |
| CircuitProperties.CombinatorsWellFormed | pystreamv.py:54-70 | every combinator applied to well-formed operands builds a well-formed node, so it compiles |
| LsCompile.HeadOf | pystreamv_ls_compile.py:35-36 | using a stream type in a key fails with TypeError exactly for an unhashable dictionary type |
| LsCompile.ResolveSource | pystreamv_ls_compile.py:29-41 | a resolved source is one of the map's values, and a KeyError names a key the map lacks |
| LsCompile.ResolveSourceFallback | pystreamv_ls_compile.py:29-41 | no type gives ValueError; otherwise the `(type, field)` key wins, then `(type name, field)`, else KeyError; it succeeds exactly when one of the two keys is present |
| LsCompile.SameNameOtherIdentity | pystreamv_ls_compile.py:34-40 | a key by type does not serve another type with the same name; a key by name serves both |
| LsCompile.DefaultMakeConst | pystreamv_ls_compile.py:57-71 | the default constant is a node named `const` holding the value |
| LsCompile.DefaultMakeCall | pystreamv_ls_compile.py:44-54 | the default call is a node with the given name and arguments |
| LsCompile.CompileToLs | pystreamv_ls_compile.py:156-177 | with neither a resolver nor a source map, the result is ValueError |
| LsCompile.SimpleIntruderSourceMap | pystreamv_ls_compile.py:208-213 | the map has two entries, which resolve the type's `time` and `id` to the intruder source placeholders; a dictionary type is unhashable |
| LsCompile.CompileNode | pystreamv_ls_compile.py:96-153 | only a source or a call can fail, and a known operator with fewer children than it reads always fails (exact success condition stated by TranslatableIff) |
| LsCompile.CompilePrefix | pystreamv_ls_compile.py:118-148 | a translated prefix has exactly k elements, and fewer than k children always fail |
| LsCompile.PrefixInOrder | pystreamv_ls_compile.py:118-148 | the first k children are translated left to right; success exactly when all k exist and translate, and then the result holds their translations in order |
| LsCompile.PrefixMissingChild | pystreamv_ls_compile.py:122-148 | when every present child translates but fewer than k are present, the result is IndexError |
| LsCompile.PrefixFirstError | pystreamv_ls_compile.py:118-148 | when child j is the first that fails, the result is that child's error |
| LsCompile.TranslatableIff | pystreamv_ls_compile.py:96-153 | stage 2 succeeds exactly on trees whose sources resolve and whose known calls have the children they read |
| LsCompile.KnownOperator | pystreamv_ls_compile.py:122-148 | a known operator keeps its name and translates exactly its first k children (2, 1 for `last`, 3 for `multiplex`, 0 for `global_time`); surplus children are ignored, and a missing one raises IndexError |
| LsCompile.OtherOperator | pystreamv_ls_compile.py:152-153 | any other name becomes a call over all children in order; the name never raises, and an empty name becomes `unknown` |
| LsCompile.TranslateCall | pystreamv_ls_compile.py:122-153 | translation is compositional: a call whose children translate to `xs` translates to a call over `xs` |
| LsCompile.LeafTranslation | pystreamv_ls_compile.py:100-111 | a constant keeps its value; a period `k * u` becomes the constant `k * u.to_seconds` (10 minutes: 600.0); a unit becomes its scale; `time_unit_second` becomes 1.0; an external function becomes `external(const(repr))` |
| LsCompile.ResolverPrecedence | pystreamv_ls_compile.py:172-177 | a supplied resolver makes the source map irrelevant; a source map alone means resolution through SourceResolver; with neither, compilation fails |
| Pipeline.ShapedTranslatable | pystreamv_ls_compile.py:96-153 | on a tree whose known calls have exactly the children stage 2 reads, translation fails only on a source that does not resolve |
| Pipeline.ArityAgrees | pystreamv.py:201-260 | each well-formed node visits as many operands as stage 2 reads for the name stage 1 gives it |
| Pipeline.StageOneShaped | pystreamv.py:183-281 | every IR tree stage 1 produces has exactly the children stage 2 reads at each known call |
| Pipeline.OperandShaped | pystreamv.py:262-275 | the same for a compiled operand |
| Pipeline.PipelineTotal | pystreamv_ls_compile.py:96-153 | a well-formed formula compiles, and its IR translates exactly when each of its sources resolves, whatever the factories |
| Pipeline.RootName | pystreamv_ls_compile.py:122-153 | the backend root of a well-formed non-leaf formula is named after its operator (`unknown` for an empty one), with one child per visited operand; a root that stage 1 names `time_unit_second` (from `Formula('second')` or `Formula('time_unit_second')`) becomes the constant 1.0 |
| Pipeline.EveryEndToEnd | pystreamv_ls_compile.py:102-105 | `a.every(p)` reaches stage 2 as a period and leaves it as `every(a, const(p in seconds))` |
| CompareLastTwo.Respond | pystreamv_ls_compile.py:271-280 | the output keeps `id`, `dist` and the time; it has `lt` exactly when both `dist` and the previous one are numeric, and then `lt` says whether `dist` is smaller |
| CompareLastTwo.CompareLastTwoTerm.constructor | pystreamv_ls_compile.py:267-269 | a new term has no previous `dist` |
| CompareLastTwo.CompareLastTwoTerm.F | pystreamv_ls_compile.py:271-280 | the term responds to the item given the previous `dist`, then remembers the item's `dist`, numeric or not |
| CompareLastTwo.RunPairs | pystreamv_ls_compile.py:271-280 | over a stream, each output is the response to its item given the previous item's `dist` |
| CompareLastTwo.FreshTermOutputs | pystreamv_ls_compile.py:267-280 | a fresh term never marks the first item, and marks a later one exactly when it and its predecessor carry numeric `dist`s |
| StaleScenario.StaleStageOne | test_pystreamv_ls_compile.py:33-39 | `stale` compiles to `every(gt(sub(last(source(time)), global_time), const(10)), PeriodTerm(10 s))` over the timestamped stream's original type |
| StaleScenario.OutputStageOne | test_pystreamv_ls_compile.py:34-35 | the output compiles to `always(PeriodTerm(5 s), lt(index(distance_stream, const(-1)), index(distance_stream, const(-2))))` |
| StaleScenario.StaleStageTwo | test_pystreamv_ls_compile.py:50-56 | with the test's source map, `stale` translates to `every(gt(sub(last(source_intruder_time), global_time), const(10)), const(10.0))` |
| StaleScenario.OutputStageTwo | test_pystreamv_ls_compile.py:50-57 | the output translates to `always(const(5.0), lt(index(…, const(-1)), index(…, const(-2))))` |
| StaleScenario.MuxStageTwo | test_pystreamv_ls_compile.py:50-57 | the multiplex IR translates to `multiplex(always(…), source_intruder_id, stale tree)` |
| StaleScenario.CompileStaleAndMultiplex | test_pystreamv_ls_compile.py:24-86 | building the streams and formulas of the test and compiling both gives exactly those backend trees: root `every`; a multiplex whose child 0 is `always`, whose condition is `lt` over indices `const(-1)` and `const(-2)` |

## Left out

- `biolanguage.py` and `usage_example.py` are not part of this model. They reflect on Python source code and keep a process-wide registry, and neither compiler stage uses them.
- The runtime helpers are not part of this model, because they depend on threads, randomness, the wall clock, floating-point `math.hypot` or printing. These are `RandomIntruderSource`, `run_random_intruder_sponge`, `ComputeStaleTerm`, `ComputeDistanceTerm` and `ls_print_tree`.
- The backend itself is left out: logicsponge's `FunctionTerm`, its execution and the per-key fan-out of `multiplex`. Stage 2 only builds a `multiplex` node.
- The default factories set attributes on freshly built backend objects. Here they build `Backend` values, so node identity and later mutation of a node are not modelled.
- A `const` node's `args == [value]` attribute is not kept separately. It always equals `[value]`.
- Custom factories and resolvers are modelled as total functions. A custom `make_const` or `make_call` that raises is not modelled. A resolver may fail, through its Result.
- `FormulaAST` children are kept as values (`Ast`). Aliasing is not modelled: neither a child added to two parents, nor the caller's list that `FormulaAST(formula, children)` keeps (pystreamv.py:170), which a later `add_child` also extends.
- Numbers are exact. Integers are unbounded and scale products are real, so IEEE rounding in `float(...)` and in `value * to_seconds` is not modelled.
- `float()` applied to a period value that is a string is not modelled, because periods hold real values.
- Reflected operators with a non-formula left operand (`10 < f`, which Python turns into `f > 10`) are not modelled, because the combinators take a formula on the left. The reflection between a bare `Formula` and a subclass node is modelled (`RightReflects`).
- Attribute lookup does not model class attributes, methods or dunder names shadowing a field. Only the instance attributes set by the constructors are modelled (`type`, `_fields`, `_original`, `time`).
- The annotation test is modelled as a type that either has annotations or does not. Python versions that give every class an empty `__annotations__` correspond to a type with empty annotations.
- `SourceResolver` is modelled for a SourceTerm whose `field` is present. A source whose field is `None` cannot arise from a field access.
- A source map keyed by a type name given as a string (`NameHead`) is supported by the resolver. `simple_intruder_source_map` is modelled only for a stream type argument, not for a string.
- `create_module` and `sys.modules` registration are not part of this model. Neither are the `__repr__` methods or `ScheduledFormula`.
