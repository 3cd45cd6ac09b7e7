/** CompareLastTwoTerm (pystreamv_ls_compile.py): a backend term that keeps
    the previous `dist` it saw and marks each item with whether its `dist`
    is smaller than the previous one. */
module CompareLastTwo {
  import opened Wrappers
  import opened Formulas

  /** A data item: a payload whose values may be None, and a timestamp. */
  datatype DataItem = DataItem(payload: map<string, Option<Scalar>>, time: Option<real>)

  /** `item.get(key, None)` */
  function Get(item: DataItem, key: string): Option<Scalar>
  {
    if key in item.payload then item.payload[key] else None
  }

  /** `isinstance(v, (int, float))`, which a bool also passes. */
  predicate IsNumeric(v: Option<Scalar>)
  {
    v.Some? && (v.value.IntValue? || v.value.FloatValue? || v.value.BoolValue?)
  }

  /** The number a numeric value compares as. */
  function Num(v: Scalar): real
    requires v.IntValue? || v.FloatValue? || v.BoolValue?
  {
    match v
    case IntValue(i) => i as real
    case FloatValue(r) => r
    case BoolValue(b) => if b then 1.0 else 0.0
  }

  /** What the term emits for `item` when the previous `dist` was `prev`. */
  function Respond(prev: Option<Scalar>, item: DataItem): (out: DataItem)
    ensures out.time == item.time
    ensures Get(out, "id") == Get(item, "id") && Get(out, "dist") == Get(item, "dist")
    ensures out.payload.Keys <= {"id", "dist", "lt"}
    ensures "id" in out.payload && "dist" in out.payload
    ensures "lt" in out.payload <==> IsNumeric(Get(item, "dist")) && IsNumeric(prev)
    ensures "lt" in out.payload ==>
      out.payload["lt"] == Some(BoolValue(Num(Get(item, "dist").value) < Num(prev.value)))
  {
    var dist := Get(item, "dist");
    var payload := map["id" := Get(item, "id"), "dist" := dist];
    if IsNumeric(dist) && IsNumeric(prev) then
      DataItem(payload["lt" := Some(BoolValue(Num(dist.value) < Num(prev.value)))], item.time)
    else
      DataItem(payload, item.time)
  }

  /** The term, whose only state is the previous `dist`. */
  class CompareLastTwoTerm {
    var prev: Option<Scalar>

    constructor ()
      ensures prev == None
    {
      prev := None;
    }

    /** CompareLastTwoTerm.f: respond, then remember this item's `dist`,
        whatever it is. */
    method F(item: DataItem) returns (out: DataItem)
      modifies this
      ensures prev == Get(item, "dist")
      ensures out == Respond(old(prev), item)
    {
      var dist := Get(item, "dist");
      var payload := map["id" := Get(item, "id"), "dist" := dist];
      if IsNumeric(dist) && IsNumeric(prev) {
        payload := payload["lt" := Some(BoolValue(Num(dist.value) < Num(prev.value)))];
      }
      prev := dist;
      out := DataItem(payload, item.time);
    }
  }

  /** The outputs for a stream of items fed one by one to a term whose
      previous `dist` starts as `prev`. */
  function Run(prev: Option<Scalar>, items: seq<DataItem>): seq<DataItem>
    decreases |items|
  {
    if items == [] then []
    else [Respond(prev, items[0])] + Run(Get(items[0], "dist"), items[1..])
  }

  /** Each output is the response to its item given the previous item's
      `dist` (or the initial state, for the first). */
  lemma {:induction false} RunPairs(prev: Option<Scalar>, items: seq<DataItem>)
    ensures |Run(prev, items)| == |items|
    ensures forall i :: 0 <= i < |items| ==>
      Run(prev, items)[i] == Respond(if i == 0 then prev else Get(items[i - 1], "dist"), items[i])
    decreases |items|
  {
    if items != [] {
      RunPairs(Get(items[0], "dist"), items[1..]);
      forall i | 1 <= i < |items|
        ensures Run(prev, items)[i] == Respond(Get(items[i - 1], "dist"), items[i])
      {
        assert Run(prev, items)[i] == Run(Get(items[0], "dist"), items[1..])[i - 1];
        if i > 1 {
          assert items[1..][i - 2] == items[i - 1];
        }
      }
    }
  }

  /** A fresh term never marks the first item, and marks a later item
      exactly when it and its predecessor carry numeric `dist`s, with
      whether the later one is smaller. */
  lemma FreshTermOutputs(items: seq<DataItem>)
    ensures |Run(None, items)| == |items|
    ensures items != [] ==> "lt" !in Run(None, items)[0].payload
    ensures forall i :: 0 < i < |items| ==>
      ("lt" in Run(None, items)[i].payload <==>
        IsNumeric(Get(items[i], "dist")) && IsNumeric(Get(items[i - 1], "dist")))
    ensures forall i :: 0 < i < |items| && IsNumeric(Get(items[i], "dist")) && IsNumeric(Get(items[i - 1], "dist")) ==>
      Run(None, items)[i].payload["lt"] ==
        Some(BoolValue(Num(Get(items[i], "dist").value) < Num(Get(items[i - 1], "dist").value)))
    ensures forall i :: 0 <= i < |items| ==>
      Run(None, items)[i].time == items[i].time &&
      Get(Run(None, items)[i], "id") == Get(items[i], "id") &&
      Get(Run(None, items)[i], "dist") == Get(items[i], "dist")
  {
    RunPairs(None, items);
    forall i | 0 <= i < |items|
      ensures Run(None, items)[i].time == items[i].time
      ensures Get(Run(None, items)[i], "id") == Get(items[i], "id")
      ensures Get(Run(None, items)[i], "dist") == Get(items[i], "dist")
      ensures i > 0 ==>
        ("lt" in Run(None, items)[i].payload <==>
          IsNumeric(Get(items[i], "dist")) && IsNumeric(Get(items[i - 1], "dist")))
    {
      var before: Option<Scalar> := if i == 0 then None else Get(items[i - 1], "dist");
      assert Run(None, items)[i] == Respond(before, items[i]);
    }
  }
}
