/** Stage 2 of the compiler (pystreamv_ls_compile.py): the IR produced by
    stage 1 is retargeted to the backend through three hooks, a source
    resolver and two node factories. Durations are normalised to seconds
    here, not in stage 1. */
module LsCompile {
  import opened Wrappers
  import opened Units
  import opened Formulas
  import opened Circuit

  /** A backend node as the default factories build it: `const` nodes carry
      a value, every other node a name and ordered arguments. */
  datatype Backend = BConst(value: Scalar) | BCall(name: string, args: seq<Backend>)

  /** The `name` attribute of a backend node. */
  function NodeName(b: Backend): string
  {
    match b
    case BConst(_) => "const"
    case BCall(name, _) => name
  }

  /** The first part of a source-map key: the stream type object itself
      (or None), or a type name given as a string. */
  datatype KeyHead = NoneHead | ClassHead(id: nat) | NameHead(name: string)

  /** A source-map key `(type or type name, field)`. */
  datatype SourceKey = SourceKey(head: KeyHead, field: string)

  /** The exceptions stage 2 can raise. */
  datatype LsError =
    | ValueError(message: string)
    | KeyError(key: SourceKey)
    | TypeError
    | IndexError

  const MissingSource := "Invalid SourceTerm, missing stream_type/field"
  const MissingResolver := "Provide resolve_source or source_map"

  /** Hashing a stream type to use it in a key: a dictionary type is
      unhashable. */
  function HeadOf(t: StreamType): (r: Result<KeyHead, LsError>)
    ensures r.Err? <==> t.DictType?
    ensures r.Err? ==> r.error == TypeError
    ensures r.Ok? && t.ClassType? ==> r.value == ClassHead(t.id)
    ensures r.Ok? && t.NoType? ==> r.value == NoneHead
  {
    match t
    case NoType => Ok(NoneHead)
    case ClassType(id, _, _, _) => Ok(ClassHead(id))
    case DictType(_) => Err(TypeError)
  }

  /** SourceResolver.__call__ over the mapping it copied: the identity key
      first, then the name key, else KeyError. */
  function ResolveSource(mapping: map<SourceKey, Backend>, st: StreamType, field: string): (r: Result<Backend, LsError>)
    ensures r.Ok? ==> r.value in mapping.Values
    ensures r.Err? && r.error.KeyError? ==> r.error.key !in mapping
  {
    if st.NoType? then Err(ValueError(MissingSource))
    else
      var head :- HeadOf(st);
      var byObject := SourceKey(head, field);
      if byObject in mapping then Ok(mapping[byObject])
      else
        var byName := SourceKey(NameHead(st.name), field);
        if byName in mapping then Ok(mapping[byName])
        else Err(KeyError(byName))
  }

  /** The three hooks of PystreamvToLSCompiler. */
  datatype Hooks = Hooks(
    resolveSource: (StreamType, string) -> Result<Backend, LsError>,
    makeConst: Scalar -> Backend,
    makeCall: (string, seq<Backend>) -> Backend)

  /** default_make_const: a node named `const` holding the value. */
  function DefaultMakeConst(): (make: Scalar -> Backend)
    ensures forall v :: NodeName(make(v)) == "const" && make(v).BConst? && make(v).value == v
  {
    v => BConst(v)
  }

  /** default_make_call: a node with the given name and arguments. */
  function DefaultMakeCall(): (make: (string, seq<Backend>) -> Backend)
    ensures forall n, xs :: make(n, xs).BCall? && NodeName(make(n, xs)) == n && make(n, xs).args == xs
  {
    (n, xs) => BCall(n, xs)
  }

  /** The hooks of a compiler built without custom factories. */
  function DefaultHooks(resolve: (StreamType, string) -> Result<Backend, LsError>): Hooks
  {
    Hooks(resolve, DefaultMakeConst(), DefaultMakeCall())
  }

  /** The function names _compile_node handles itself. */
  const KnownOps: set<string> :=
    {"lt", "gt", "sub", "index", "last", "every", "always", "multiplex",
     "global_time", "time_unit_second"}

  /** How many leading children a known operator reads. */
  function Arity(fn: string): nat
  {
    if fn == "last" then 1
    else if fn == "multiplex" then 3
    else if fn == "global_time" || fn == "time_unit_second" then 0
    else 2
  }

  /** PystreamvToLSCompiler._compile_node: only a source or a call can fail,
      and a known operator without the children it reads always does. */
  function CompileNode(h: Hooks, t: Term): (r: Result<Backend, LsError>)
    ensures r.Err? ==> t.Source? || t.Call?
    ensures (t.Call? && t.functionName in KnownOps && t.functionName != "time_unit_second" &&
             |t.args| < Arity(t.functionName)) ==> r.Err?
    decreases t, 1
  {
    match t
    case Source(st, field) => h.resolveSource(st, field)
    case Constant(v) => Ok(h.makeConst(v))
    case PeriodTerm(p) => Ok(h.makeConst(FloatValue(ToSeconds(p))))
    case UnitTerm(u) => Ok(h.makeConst(FloatValue(u.toSeconds)))
    case External(fn) => Ok(h.makeCall("external", [h.makeConst(StrValue(fn.repr))]))
    case Call(fn, args) =>
      if fn == "time_unit_second" then Ok(h.makeConst(FloatValue(1.0)))
      else if fn in KnownOps then
        var xs :- CompilePrefix(h, args, Arity(fn));
        Ok(h.makeCall(fn, xs))
      else
        var xs :- CompilePrefix(h, args, |args|);
        Ok(h.makeCall(if fn == "" then "unknown" else fn, xs))
  }

  /** `[c(args[0]), ..., c(args[k-1])]`, left to right: a child that fails
      stops the translation, and a missing child raises IndexError. */
  function CompilePrefix(h: Hooks, ts: seq<Term>, k: nat): (r: Result<seq<Backend>, LsError>)
    ensures r.Ok? ==> k <= |ts| && |r.value| == k
    ensures k > |ts| ==> r.Err?
    decreases ts, 0
  {
    if k == 0 then Ok([])
    else if ts == [] then Err(LsError.IndexError)
    else
      var x :- CompileNode(h, ts[0]);
      var xs :- CompilePrefix(h, ts[1..], k - 1);
      Ok([x] + xs)
  }

  /** compile_to_ls: a supplied resolver wins over a source map, and with
      neither the call fails. Missing factories fall back to the defaults. */
  function CompileToLs(
    root: Term,
    sourceMap: Option<map<SourceKey, Backend>>,
    resolveSource: Option<(StreamType, string) -> Result<Backend, LsError>>,
    makeConst: Option<Scalar -> Backend>,
    makeCall: Option<(string, seq<Backend>) -> Backend>): (r: Result<Backend, LsError>)
    ensures resolveSource.None? && sourceMap.None? ==> r == Err(ValueError(MissingResolver))
  {
    var resolve :-
      if resolveSource.Some? then Ok(resolveSource.value)
      else if sourceMap.Some? then Ok((st, field) => ResolveSource(sourceMap.value, st, field))
      else Err(ValueError(MissingResolver));
    var mkConst := if makeConst.Some? then makeConst.value else DefaultMakeConst();
    var mkCall := if makeCall.Some? then makeCall.value else DefaultMakeCall();
    CompileNode(Hooks(resolve, mkConst, mkCall), root)
  }

  /** simple_intruder_source_map: the `time` and `id` sources of one stream
      type, keyed by the type itself. */
  function SimpleIntruderSourceMap(t: StreamType): (r: Result<map<SourceKey, Backend>, LsError>)
    ensures r.Err? <==> t.DictType?
    ensures r.Ok? && t.ClassType? ==>
      ResolveSource(r.value, t, "time") == Ok(BCall("source_intruder_time", [])) &&
      ResolveSource(r.value, t, "id") == Ok(BCall("source_intruder_id", []))
    ensures r.Ok? ==> |r.value| == 2
  {
    var head :- HeadOf(t);
    Ok(map[SourceKey(head, "time") := BCall("source_intruder_time", []),
           SourceKey(head, "id") := BCall("source_intruder_id", [])])
  }

  // ---- Properties ----

  /** The resolver's fallback order, error by error. */
  lemma ResolveSourceFallback(mapping: map<SourceKey, Backend>, st: StreamType, field: string)
    ensures st.NoType? ==> ResolveSource(mapping, st, field) == Err(ValueError(MissingSource))
    ensures st.DictType? ==> ResolveSource(mapping, st, field) == Err(TypeError)
    ensures st.ClassType? ==>
      var byObject := SourceKey(ClassHead(st.id), field);
      var byName := SourceKey(NameHead(st.name), field);
      && (byObject in mapping ==> ResolveSource(mapping, st, field) == Ok(mapping[byObject]))
      && (byObject !in mapping && byName in mapping ==> ResolveSource(mapping, st, field) == Ok(mapping[byName]))
      && (byObject !in mapping && byName !in mapping ==> ResolveSource(mapping, st, field) == Err(KeyError(byName)))
    ensures ResolveSource(mapping, st, field).Ok? <==>
      st.ClassType? &&
      (SourceKey(ClassHead(st.id), field) in mapping || SourceKey(NameHead(st.name), field) in mapping)
  {
  }

  /** Two distinct stream types with the same name: a map keyed by the
      first type does not serve the second, a map keyed by the name serves
      both with the same node. */
  lemma SameNameOtherIdentity(a: StreamType, b: StreamType, field: string, node: Backend)
    requires a.ClassType? && b.ClassType? && a.id != b.id && a.name == b.name
    ensures ResolveSource(map[SourceKey(ClassHead(a.id), field) := node], a, field) == Ok(node)
    ensures ResolveSource(map[SourceKey(ClassHead(a.id), field) := node], b, field).Err?
    ensures ResolveSource(map[SourceKey(NameHead(a.name), field) := node], a, field) == Ok(node)
    ensures ResolveSource(map[SourceKey(NameHead(a.name), field) := node], b, field) == Ok(node)
  {
  }

  /** Children are translated in order: the prefix succeeds exactly when
      there are k children and each translates, and then holds their
      translations. */
  lemma {:induction false} PrefixInOrder(h: Hooks, ts: seq<Term>, k: nat)
    ensures CompilePrefix(h, ts, k).Ok? <==>
      k <= |ts| && forall i :: 0 <= i < k ==> CompileNode(h, ts[i]).Ok?
    ensures CompilePrefix(h, ts, k).Ok? ==>
      |CompilePrefix(h, ts, k).value| == k &&
      forall i :: 0 <= i < k ==> CompilePrefix(h, ts, k).value[i] == CompileNode(h, ts[i]).value
    decreases ts
  {
    if k != 0 && ts != [] {
      PrefixInOrder(h, ts[1..], k - 1);
      assert forall i :: 1 <= i < |ts| ==> ts[1..][i - 1] == ts[i];
      if CompileNode(h, ts[0]).Ok? && CompilePrefix(h, ts[1..], k - 1).Ok? {
        var xs := CompilePrefix(h, ts, k).value;
        assert xs == [CompileNode(h, ts[0]).value] + CompilePrefix(h, ts[1..], k - 1).value;
      }
    }
  }

  /** When every present child translates but fewer than k are present,
      the prefix raises IndexError. */
  lemma {:induction false} PrefixMissingChild(h: Hooks, ts: seq<Term>, k: nat)
    requires k > |ts| && forall i :: 0 <= i < |ts| ==> CompileNode(h, ts[i]).Ok?
    ensures CompilePrefix(h, ts, k) == Err(LsError.IndexError)
    decreases ts
  {
    if ts != [] {
      assert forall i :: 0 <= i < |ts[1..]| ==> ts[1..][i] == ts[i + 1];
      PrefixMissingChild(h, ts[1..], k - 1);
    }
  }

  /** The error of a failing prefix is that of its first failing child. */
  lemma {:induction false} PrefixFirstError(h: Hooks, ts: seq<Term>, k: nat, j: nat)
    requires j < k && j < |ts| && CompileNode(h, ts[j]).Err?
    requires forall i :: 0 <= i < j ==> CompileNode(h, ts[i]).Ok?
    ensures CompilePrefix(h, ts, k) == Err(CompileNode(h, ts[j]).error)
    decreases ts
  {
    if j > 0 {
      assert ts[1..][j - 1] == ts[j];
      assert forall i :: 0 <= i < j - 1 ==> ts[1..][i] == ts[i + 1];
      PrefixFirstError(h, ts[1..], k - 1, j - 1);
    }
  }

  /** A reference definition of which IR trees stage 2 can translate: each
      source resolves, and each call has the children its name reads, all
      translatable. */
  predicate Translatable(h: Hooks, t: Term)
    decreases t
  {
    match t
    case Source(st, field) => h.resolveSource(st, field).Ok?
    case Call(fn, args) =>
      fn == "time_unit_second" ||
      var k := if fn in KnownOps then Arity(fn) else |args|;
      k <= |args| && forall i :: 0 <= i < k ==> Translatable(h, args[i])
    case _ => true
  }

  /** Translation fails only where the reference definition says so. */
  lemma {:induction false} TranslatableIff(h: Hooks, t: Term)
    ensures CompileNode(h, t).Ok? <==> Translatable(h, t)
    decreases t
  {
    match t
    case Call(fn, args) =>
      if fn != "time_unit_second" {
        var k := if fn in KnownOps then Arity(fn) else |args|;
        PrefixInOrder(h, args, k);
        forall i | 0 <= i < |args| ensures CompileNode(h, args[i]).Ok? <==> Translatable(h, args[i]) {
          TranslatableIff(h, args[i]);
        }
      }
    case _ =>
  }

  /** A known operator keeps its name and translates exactly its first
      Arity(fn) children, in order; surplus children are ignored and a
      missing one raises IndexError. */
  lemma KnownOperator(resolve: (StreamType, string) -> Result<Backend, LsError>, fn: string, args: seq<Term>)
    requires fn in KnownOps && fn != "time_unit_second"
    ensures var r := CompileNode(DefaultHooks(resolve), Call(fn, args));
      && (r.Ok? <==>
            Arity(fn) <= |args| &&
            forall i :: 0 <= i < Arity(fn) ==> CompileNode(DefaultHooks(resolve), args[i]).Ok?)
      && (r.Ok? ==>
            r.value.BCall? && r.value.name == fn && |r.value.args| == Arity(fn) &&
            forall i :: 0 <= i < Arity(fn) ==> r.value.args[i] == CompileNode(DefaultHooks(resolve), args[i]).value)
      && (|args| < Arity(fn) && (forall i :: 0 <= i < |args| ==> CompileNode(DefaultHooks(resolve), args[i]).Ok?) ==>
            r == Err(LsError.IndexError))
  {
    PrefixInOrder(DefaultHooks(resolve), args, Arity(fn));
    if |args| < Arity(fn) && forall i :: 0 <= i < |args| ==> CompileNode(DefaultHooks(resolve), args[i]).Ok? {
      PrefixMissingChild(DefaultHooks(resolve), args, Arity(fn));
    }
  }

  /** Any other name becomes a call over all children, in order; the name
      itself never raises, and an empty name becomes `unknown`. */
  lemma OtherOperator(resolve: (StreamType, string) -> Result<Backend, LsError>, fn: string, args: seq<Term>)
    requires fn !in KnownOps
    ensures var r := CompileNode(DefaultHooks(resolve), Call(fn, args));
      && (r.Ok? <==> forall i :: 0 <= i < |args| ==> CompileNode(DefaultHooks(resolve), args[i]).Ok?)
      && (r.Ok? ==>
            r.value.BCall? && r.value.name == (if fn == "" then "unknown" else fn) &&
            |r.value.args| == |args| &&
            forall i :: 0 <= i < |args| ==> r.value.args[i] == CompileNode(DefaultHooks(resolve), args[i]).value)
  {
    PrefixInOrder(DefaultHooks(resolve), args, |args|);
  }

  /** Translation is compositional: a call whose children translate to
      `xs`, and which has the children its name reads, translates to a call
      over `xs`. */
  lemma TranslateCall(resolve: (StreamType, string) -> Result<Backend, LsError>, fn: string,
                      args: seq<Term>, xs: seq<Backend>)
    requires fn != "time_unit_second" && (fn in KnownOps ==> |args| == Arity(fn))
    requires |xs| == |args| && forall i :: 0 <= i < |args| ==> CompileNode(DefaultHooks(resolve), args[i]) == Ok(xs[i])
    ensures CompileNode(DefaultHooks(resolve), Call(fn, args)) == Ok(BCall(if fn == "" then "unknown" else fn, xs))
  {
    if fn in KnownOps {
      KnownOperator(resolve, fn, args);
    } else {
      OtherOperator(resolve, fn, args);
    }
    assert CompileNode(DefaultHooks(resolve), Call(fn, args)).value.args == xs;
  }

  /** Leaves become constants, durations measured in seconds; an external
      function becomes a call carrying its representation. */
  lemma LeafTranslation(resolve: (StreamType, string) -> Result<Backend, LsError>, v: Scalar, k: real, u: Unit,
                        fn: HostValue, args: seq<Term>)
    ensures CompileNode(DefaultHooks(resolve), Constant(v)) == Ok(BConst(v))
    ensures CompileNode(DefaultHooks(resolve), PeriodTerm(Scale(k, u))) == Ok(BConst(FloatValue(k * u.toSeconds)))
    ensures CompileNode(DefaultHooks(resolve), PeriodTerm(Scale(10.0, Minutes))) == Ok(BConst(FloatValue(600.0)))
    ensures CompileNode(DefaultHooks(resolve), UnitTerm(u)) == Ok(BConst(FloatValue(u.toSeconds)))
    ensures CompileNode(DefaultHooks(resolve), Call("time_unit_second", args)) == Ok(BConst(FloatValue(1.0)))
    ensures CompileNode(DefaultHooks(resolve), External(fn)) == Ok(BCall("external", [BConst(StrValue(fn.repr))]))
  {
    ScaleToSeconds(k, u);
    ScaleToSeconds(10.0, Minutes);
  }

  /** A supplied resolver makes any source map irrelevant; a source map
      alone means resolution through SourceResolver. */
  lemma ResolverPrecedence(
    root: Term,
    sourceMap: Option<map<SourceKey, Backend>>,
    resolve: (StreamType, string) -> Result<Backend, LsError>,
    mapping: map<SourceKey, Backend>)
    ensures CompileToLs(root, sourceMap, Some(resolve), None, None) == CompileNode(DefaultHooks(resolve), root)
    ensures CompileToLs(root, Some(mapping), None, None, None) ==
      CompileNode(DefaultHooks((st, field) => ResolveSource(mapping, st, field)), root)
    ensures CompileToLs(root, None, None, None, None).Err?
  {
  }
}
