/**
 * The cursor shared by client and server: what it remembers of the options
 * it was created with, the description that identifies its query, and the
 * transforms stacked on it by `map`.
 *
 * The underlying hooked cursor (iteration, `toArray`, `count`, the
 * underlying `map`) is not part of this model; it is kept as an opaque value.
 */
module FindCursors {
  import opened Common

  /** The options a cursor is created with: the document transform and the
      options of the `find` call that produced it. */
  datatype FindCursorOptions = FindCursorOptions(transform: Option<Transform>, invocationOptions: Option<Options>)

  /** The query options a cursor keeps. */
  datatype CursorOptions = CursorOptions(skip: Value, limit: Value, projection: Value, sort: Value, disableOplog: Value)

  /** What identifies a cursor's query. */
  datatype Description = Description(filter: Value, skip: Value, limit: Value, projection: Value, sort: Value)

  const NO_SYNC_ITERATOR := "You can't use sync iterator"

  /** The kept query options: `fields` takes precedence over `projection`. */
  function CursorOptionsOf(inv: Option<Options>): (r: CursorOptions)
    ensures r.skip == Get(inv, "skip") && r.limit == Get(inv, "limit")
    ensures r.sort == Get(inv, "sort") && r.disableOplog == Get(inv, "disableOplog")
    ensures Truthy(Get(inv, "fields")) ==> r.projection == Get(inv, "fields")
    ensures !Truthy(Get(inv, "fields")) ==> r.projection == Get(inv, "projection")
  {
    CursorOptions(
      Get(inv, "skip"), Get(inv, "limit"),
      Or(Get(inv, "fields"), Get(inv, "projection")),
      Get(inv, "sort"), Get(inv, "disableOplog"))
  }

  /** The description of a query from its filter and `find` options: skip,
      limit, projection and sort; `disableOplog` and transforms play no part. */
  function DescriptionOf(filter: Value, inv: Option<Options>): (d: Description)
    ensures d.filter == filter
    ensures var o := CursorOptionsOf(inv);
      d.skip == o.skip && d.limit == o.limit && d.projection == o.projection && d.sort == o.sort
  {
    var o := CursorOptionsOf(inv);
    Description(filter, o.skip, o.limit, o.projection, o.sort)
  }

  class FindCursor {
    const filter: Value
    /** The underlying cursor. */
    const underlying: Value
    const originalOptions: FindCursorOptions
    /** The document transform: identity unless one was given. */
    const transform: Transform
    const options: CursorOptions
    /** The composition of the `map` transforms; `undefined` until the first `map`. */
    var mapTransform: Option<Transform>
    /** The `map` transforms so far, in call order. */
    ghost var maps: seq<Transform>

    ghost predicate Valid()
      reads this
    {
      && (originalOptions.transform.Some? ==> transform == originalOptions.transform.value)
      && (originalOptions.transform.None? ==> forall x :: transform(x) == x)
      && (mapTransform.None? <==> maps == [])
      && (mapTransform.Some? ==> forall x :: mapTransform.value(x) == ApplyAll(maps, x))
    }

    constructor (filter: Value, underlying: Value, opts: FindCursorOptions)
      ensures Valid() && maps == []
      ensures this.filter == filter && this.underlying == underlying && originalOptions == opts
      ensures opts.transform.Some? ==> transform == opts.transform.value
      ensures opts.transform.None? ==> forall x :: transform(x) == x
      ensures options == CursorOptionsOf(opts.invocationOptions)
    {
      this.filter := filter;
      this.underlying := underlying;
      var chosen: Transform := x => x;
      if opts.transform.Some? {
        chosen := opts.transform.value;
      }
      this.transform := chosen;
      originalOptions := opts;
      options := CursorOptionsOf(opts.invocationOptions);
      mapTransform := None;
      maps := [];
    }

    /** `cursorDescription`: determined by the filter and the `find` options alone. */
    function CursorDescription(): (d: Description)
      reads this
      requires options == CursorOptionsOf(originalOptions.invocationOptions)
      ensures d == DescriptionOf(filter, originalOptions.invocationOptions)
    {
      Description(filter, options.skip, options.limit, options.projection, options.sort)
    }

    /** The options `countAsync` counts with: skip and limit only when asked to. */
    function CountOptions(applySkipLimit: Value): (r: Options)
      ensures Truthy(applySkipLimit) ==> r.Keys == {"skip", "limit"} && r["skip"] == options.skip && r["limit"] == options.limit
      ensures !Truthy(applySkipLimit) ==> r == map[]
    {
      if Truthy(applySkipLimit) then map["skip" := options.skip, "limit" := options.limit] else map[]
    }

    /** `[Symbol.iterator]`: synchronous iteration is always refused. */
    function SyncIterator(): (r: Result<()>)
      ensures r.Err? && r.error == PlainError(NO_SYNC_ITERATOR)
    {
      Err(PlainError(NO_SYNC_ITERATOR))
    }

    /** `map(t)`: stacks `t` after the transforms already mapped. */
    method Map(t: Transform)
      modifies this
      requires Valid()
      ensures Valid()
      ensures maps == old(maps) + [t]
      ensures forall x :: mapTransform.value(x) == t(ApplyAll(old(maps), x))
    {
      if mapTransform.Some? {
        var prev := mapTransform.value;
        var composed: Transform := x => t(prev(x));
        mapTransform := Some(composed);
      } else {
        mapTransform := Some(t);
      }
      maps := maps + [t];
      forall x
        ensures mapTransform.value(x) == ApplyAll(maps, x)
      {
        assert maps[..|maps| - 1] == old(maps);
      }
    }
  }
}
