/**
 * The client-side cursor: a thin wrapper over a minimongo cursor that adds
 * promise-style `next`, `fetch`/`toArray` from the current position, and
 * stacked `map` transforms.
 *
 * The minimongo cursor is modelled by the documents it yields, in order,
 * together with its `skip`, `limit` and `fields` values; its iterator is a
 * position in those documents. The documents are taken to be the same on
 * every call: no local write happens between `next` and `fetch`.
 */
module ClientCursors {
  import opened Common

  /** The transformed documents from position `from` onward. */
  function Remaining(results: seq<Value>, from: nat, maps: seq<Transform>): (r: seq<Value>)
    requires from <= |results|
    ensures |r| == |results| - from
    ensures forall k :: 0 <= k < |r| ==> r[k] == ApplyAll(maps, results[from + k])
  {
    seq(|results| - from, k requires 0 <= k < |results| - from => ApplyAll(maps, results[from + k]))
  }

  /** Moving one position on drops the first remaining document. */
  lemma RemainingStep(results: seq<Value>, from: nat, maps: seq<Transform>)
    requires from < |results|
    ensures Remaining(results, from, maps) == [ApplyAll(maps, results[from])] + Remaining(results, from + 1, maps)
  {
    var a := Remaining(results, from, maps);
    var b := [ApplyAll(maps, results[from])] + Remaining(results, from + 1, maps);
    assert |a| == |b|;
    forall k | 0 <= k < |a|
      ensures a[k] == b[k]
    {
      if k > 0 {
        assert b[k] == Remaining(results, from + 1, maps)[k - 1];
      }
    }
  }

  class ClientCursor {
    /** The documents the minimongo cursor yields. */
    const results: seq<Value>
    const skip: Value
    const limit: Value
    const fields: Value
    /** The composition of the `map` transforms; the identity to begin with. */
    var mapTransform: Transform
    /** The `map` transforms so far, in call order. */
    ghost var maps: seq<Transform>
    /** How many times `next` was called since the last restart. */
    var i: nat
    /** The live iterator's position, if any. */
    var iteratorAt: Option<nat>

    ghost predicate Valid()
      reads this
    {
      && (forall x :: mapTransform(x) == ApplyAll(maps, x))
      && (iteratorAt.None? ==> i == 0)
      && (iteratorAt.Some? ==> iteratorAt.value == i && i <= |results|)
    }

    constructor (results: seq<Value>, skip: Value, limit: Value, fields: Value)
      ensures Valid() && maps == [] && i == 0 && iteratorAt.None?
      ensures this.results == results && this.skip == skip && this.limit == limit && this.fields == fields
    {
      this.results := results;
      this.skip := skip;
      this.limit := limit;
      this.fields := fields;
      var identity: Transform := x => x;
      mapTransform := identity;
      maps := [];
      i := 0;
      iteratorAt := None;
    }

    /** `options`: `fields` defaults to an empty object. */
    function Options(): (r: Options)
      reads this
      ensures r.Keys == {"skip", "limit", "fields"}
      ensures r["skip"] == skip && r["limit"] == limit
      ensures Truthy(fields) ==> r["fields"] == fields
      ensures !Truthy(fields) ==> r["fields"] == Obj(map[])
      ensures Truthy(r["fields"])
    {
      map["skip" := skip, "limit" := limit, "fields" := Or(fields, Obj(map[]))]
    }

    /** `fetch` and `toArray`: the documents from the current position on,
        each passed through the current map transform. */
    function Fetch(): (r: seq<Value>)
      reads this
      requires Valid()
      ensures r == Remaining(results, i, maps)
    {
      var rs := results;
      var f := mapTransform;
      var from := i;
      seq(|rs| - from, k requires 0 <= k < |rs| - from => f(rs[from + k]))
    }

    /**
     * `next`: yields the documents in order, untransformed, one per call;
     * after the last one it yields null and starts over, so a further call
     * yields the first document again.
     */
    method Next() returns (r: Value)
      modifies this
      requires Valid()
      ensures Valid() && maps == old(maps) && mapTransform == old(mapTransform)
      ensures old(i) < |results| ==>
        r == results[old(i)] && i == old(i) + 1 && iteratorAt == Some(i)
      ensures old(i) == |results| ==> r == Null && i == 0 && iteratorAt.None?
      ensures old(i) < |results| ==> Fetch() == old(Fetch())[1..]
      ensures old(i) == |results| ==> Fetch() == Remaining(results, 0, maps)
    {
      if iteratorAt.None? {
        iteratorAt := Some(0);
      }
      var position := iteratorAt.value;
      var done := position >= |results|;
      i := i + 1;
      if done {
        iteratorAt := None;
        i := 0;
        return Null;
      }
      iteratorAt := Some(position + 1);
      r := results[position];
      RemainingStep(results, position, maps);
    }

    /** `map(t)`: composes `t` after the current transform and returns the same cursor. */
    method Map(t: Transform) returns (c: ClientCursor)
      modifies this
      requires Valid()
      ensures c == this && Valid()
      ensures maps == old(maps) + [t] && i == old(i) && iteratorAt == old(iteratorAt)
      ensures |Fetch()| == |old(Fetch())|
      ensures forall k :: 0 <= k < |Fetch()| ==> Fetch()[k] == t(old(Fetch())[k])
    {
      var previous := mapTransform;
      var composed: Transform := x => t(previous(x));
      mapTransform := composed;
      maps := maps + [t];
      forall x
        ensures mapTransform(x) == ApplyAll(maps, x)
      {
        assert maps[..|maps| - 1] == old(maps);
      }
      c := this;
    }
  }
}
