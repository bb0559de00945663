/**
 * Change propagation to a redis-oplog deployment: the channel names a write
 * is announced on, and, for every written document and every channel, the
 * event emitted to the pub/sub transport and, for optimistic writes, the
 * same event processed locally right away.
 *
 * The transport (`Vent.emit`) and the local subscription manager are not
 * part of this model: a handler returns the ordered list of calls it makes
 * to them.
 */
module Redis {
  import opened Common
  import opened Validation

  /** The redis options of a write; None / absent values are JavaScript
      `undefined` (an omitted options bag has every field absent). */
  datatype RedisOptions = RedisOptions(
    channel: Option<string>,
    channels: Option<seq<string>>,
    namespace: Option<string>,
    namespaces: Option<seq<string>>,
    optimistic: Value,
    pushToRedis: Value)

  const NO_OPTIONS := RedisOptions(None, None, None, None, Undefined, Undefined)

  /** A string option is used only when truthy, i.e. present and non-empty. */
  predicate Present(s: Option<string>)
  {
    s.Some? && s.value != ""
  }

  /** `options?.optimistic !== false`: optimistic unless explicitly `false`. */
  predicate Optimistic(o: RedisOptions)
  {
    o.optimistic != Bool(false)
  }

  /** `ns::channel` for every namespace, in order. */
  function Namespaced(namespaces: seq<string>, defaultChannel: string): (r: seq<string>)
    ensures |r| == |namespaces|
    ensures forall i :: 0 <= i < |r| ==> r[i] == namespaces[i] + "::" + defaultChannel
  {
    seq(|namespaces|, i requires 0 <= i < |namespaces| => namespaces[i] + "::" + defaultChannel)
  }

  /** `channel::id` for every document id, in order. */
  function PerDocument(defaultChannel: string, ids: seq<string>): (r: seq<string>)
    ensures |r| == |ids|
    ensures forall i :: 0 <= i < |r| ==> r[i] == defaultChannel + "::" + ids[i]
  {
    seq(|ids|, i requires 0 <= i < |ids| => defaultChannel + "::" + ids[i])
  }

  /** The channels the options name explicitly: `channel`, then `channels`,
      then the namespaced default channel(s). */
  function Explicit(defaultChannel: string, o: RedisOptions): (r: seq<string>)
    ensures |r| == (if Present(o.channel) then 1 else 0)
      + (if o.channels.Some? then |o.channels.value| else 0)
      + (if Present(o.namespace) then 1 else 0)
      + (if o.namespaces.Some? then |o.namespaces.value| else 0)
    // Nothing explicit exactly when no option contributes a channel: empty
    // `channels`/`namespaces` arrays and empty strings count as none.
    ensures r == [] <==>
      && !Present(o.channel) && (o.channels.None? || o.channels.value == [])
      && !Present(o.namespace) && (o.namespaces.None? || o.namespaces.value == [])
    ensures Present(o.channel) ==> r[0] == o.channel.value
  {
    (if Present(o.channel) then [o.channel.value] else [])
    + (if o.channels.Some? then o.channels.value else [])
    + (if Present(o.namespace) then [o.namespace.value + "::" + defaultChannel] else [])
    + (if o.namespaces.Some? then Namespaced(o.namespaces.value, defaultChannel) else [])
  }

  /** `getChannels`: the explicit channels when there are any; otherwise the
      collection's own channel followed by one channel per given document id. */
  function ChannelsFor(defaultChannel: string, o: RedisOptions, docIds: Option<seq<string>>): (r: seq<string>)
    ensures |r| > 0
    ensures Explicit(defaultChannel, o) != [] ==> r == Explicit(defaultChannel, o)
    ensures Explicit(defaultChannel, o) == [] ==>
      && r[0] == defaultChannel
      && r[1..] == (if docIds.Some? then PerDocument(defaultChannel, docIds.value) else [])
  {
    var e := Explicit(defaultChannel, o);
    if e != [] then e
    else [defaultChannel] + (if docIds.Some? then PerDocument(defaultChannel, docIds.value) else [])
  }

  /** Options that name no channel at all announce on the collection's
      channel and the per-document ones; any explicit channel replaces them all. */
  lemma DefaultChannelOnlyWithoutExplicit(defaultChannel: string, o: RedisOptions, id: string)
    ensures o.channel.None? && o.channels.None? && o.namespace.None? && o.namespaces.None? ==>
      ChannelsFor(defaultChannel, o, Some([id])) == [defaultChannel, defaultChannel + "::" + id]
    ensures Present(o.channel) ==>
      ChannelsFor(defaultChannel, o, Some([id]))[0] == o.channel.value
      && ChannelsFor(defaultChannel, o, Some([id])) == ChannelsFor(defaultChannel, o, None)
  {
    if o.channel.None? && o.channels.None? && o.namespace.None? && o.namespaces.None? {
      assert Explicit(defaultChannel, o) == [];
      assert PerDocument(defaultChannel, [id]) == [defaultChannel + "::" + id];
    }
  }

  /** `getChannels`, building the list step by step as the code does. */
  method GetChannels(defaultChannel: string, o: RedisOptions, docIds: Option<seq<string>>) returns (channels: seq<string>)
    ensures channels == ChannelsFor(defaultChannel, o, docIds)
  {
    channels := [];
    if Present(o.channel) {
      channels := channels + [o.channel.value];
    }
    if o.channels.Some? {
      channels := channels + o.channels.value;
    }
    if Present(o.namespace) {
      channels := channels + [o.namespace.value + "::" + defaultChannel];
    }
    if o.namespaces.Some? {
      channels := AppendNamespaced(channels, o.namespaces.value, defaultChannel);
    }
    assert channels == Explicit(defaultChannel, o);
    if |channels| == 0 {
      channels := [defaultChannel];
      if docIds.Some? {
        channels := AppendPerDocument(channels, defaultChannel, docIds.value);
      }
    }
  }

  /** The `namespaces.map(...)` push of `getChannels`. */
  method AppendNamespaced(channels: seq<string>, ns: seq<string>, defaultChannel: string) returns (r: seq<string>)
    ensures r == channels + Namespaced(ns, defaultChannel)
  {
    r := channels;
    var i := 0;
    while i < |ns|
      invariant 0 <= i <= |ns|
      invariant r == channels + Namespaced(ns[..i], defaultChannel)
    {
      assert Namespaced(ns[..i + 1], defaultChannel) == Namespaced(ns[..i], defaultChannel) + [ns[i] + "::" + defaultChannel];
      r := r + [ns[i] + "::" + defaultChannel];
      i := i + 1;
    }
    assert ns[..|ns|] == ns;
  }

  /** The `docIds.forEach` push of `getChannels`. */
  method AppendPerDocument(channels: seq<string>, defaultChannel: string, ids: seq<string>) returns (r: seq<string>)
    ensures r == channels + PerDocument(defaultChannel, ids)
  {
    r := channels;
    var j := 0;
    while j < |ids|
      invariant 0 <= j <= |ids|
      invariant r == channels + PerDocument(defaultChannel, ids[..j])
    {
      assert PerDocument(defaultChannel, ids[..j + 1]) == PerDocument(defaultChannel, ids[..j]) + [defaultChannel + "::" + ids[j]];
      r := r + [defaultChannel + "::" + ids[j]];
      j := j + 1;
    }
    assert ids[..|ids|] == ids;
  }

  // ---------------------------------------------------------------------
  // Events and the calls a handler makes

  datatype EventKind = InsertEvent | UpdateEvent(fields: seq<string>) | RemoveEvent

  /** The event payload: kind, `{ _id }`, changed fields (updates only) and the
      uid of the emitting subscription manager (null when optimistic). */
  datatype RedisEvent = RedisEvent(kind: EventKind, id: string, uid: Option<string>)

  /** One call a handler makes: an emit to the transport, or an immediate
      local processing of the same event. */
  datatype Action = Emit(channel: string, event: RedisEvent) | ProcessLocally(channel: string, event: RedisEvent)

  /** The `uid` field: none for optimistic writes, else the manager's uid. */
  function UidFor(o: RedisOptions, managerUid: string): Option<string>
  {
    if Optimistic(o) then None else Some(managerUid)
  }

  /** The calls made for one event on each of `channels`, in channel order:
      an emit, followed by a local processing when optimistic. */
  function Fanout(channels: seq<string>, e: RedisEvent, optimistic: bool): (r: seq<Action>)
    ensures |r| == if optimistic then 2 * |channels| else |channels|
    ensures forall i :: 0 <= i < |r| ==> r[i].event == e
    decreases |channels|
  {
    if channels == [] then []
    else
      var c := channels[|channels| - 1];
      Fanout(channels[..|channels| - 1], e, optimistic)
        + [Emit(c, e)] + (if optimistic then [ProcessLocally(c, e)] else [])
  }

  /** The channels an event about `id` goes to: per-document channels are
      added for updates and removes, never for inserts. */
  function ChannelsOf(kind: EventKind, defaultChannel: string, o: RedisOptions, id: string): seq<string>
  {
    ChannelsFor(defaultChannel, o, if kind.InsertEvent? then None else Some([id]))
  }

  /** The calls made for one document. */
  function ForDocument(kind: EventKind, defaultChannel: string, o: RedisOptions, managerUid: string, id: string): seq<Action>
  {
    Fanout(ChannelsOf(kind, defaultChannel, o, id), RedisEvent(kind, id, UidFor(o, managerUid)), Optimistic(o))
  }

  /** All calls made by a handler: documents in the outer loop, channels inner. */
  function Plan(kind: EventKind, defaultChannel: string, o: RedisOptions, managerUid: string, ids: seq<string>): seq<Action>
    decreases |ids|
  {
    if ids == [] then []
    else
      Plan(kind, defaultChannel, o, managerUid, ids[..|ids| - 1])
        + ForDocument(kind, defaultChannel, o, managerUid, ids[|ids| - 1])
  }

  /** `handleRemove`. */
  method HandleRemove(defaultChannel: string, ids: seq<string>, o: RedisOptions, managerUid: string)
    returns (actions: seq<Action>)
    ensures actions == Plan(RemoveEvent, defaultChannel, o, managerUid, ids)
  {
    actions := [];
    var i := 0;
    while i < |ids|
      invariant 0 <= i <= |ids|
      invariant actions == Plan(RemoveEvent, defaultChannel, o, managerUid, ids[..i])
    {
      var id := ids[i];
      var channels := GetChannels(defaultChannel, o, Some([id]));
      var calls := EmitAll(channels, RedisEvent(RemoveEvent, id, UidFor(o, managerUid)), Optimistic(o));
      assert ids[..i + 1][..i] == ids[..i];
      actions := actions + calls;
      i := i + 1;
    }
    assert ids[..|ids|] == ids;
  }

  /** `handleUpdate`. */
  method HandleUpdate(defaultChannel: string, ids: seq<string>, fields: seq<string>, o: RedisOptions, managerUid: string)
    returns (actions: seq<Action>)
    ensures actions == Plan(UpdateEvent(fields), defaultChannel, o, managerUid, ids)
  {
    actions := [];
    var i := 0;
    while i < |ids|
      invariant 0 <= i <= |ids|
      invariant actions == Plan(UpdateEvent(fields), defaultChannel, o, managerUid, ids[..i])
    {
      var id := ids[i];
      var channels := GetChannels(defaultChannel, o, Some([id]));
      var calls := EmitAll(channels, RedisEvent(UpdateEvent(fields), id, UidFor(o, managerUid)), Optimistic(o));
      assert ids[..i + 1][..i] == ids[..i];
      actions := actions + calls;
      i := i + 1;
    }
    assert ids[..|ids|] == ids;
  }

  /** `handleInserts`: nothing when `pushToRedis` is explicitly false; the
      channels are computed once, without per-document channels. */
  method HandleInserts(defaultChannel: string, ids: seq<string>, o: RedisOptions, managerUid: string)
    returns (actions: seq<Action>)
    ensures o.pushToRedis == Bool(false) ==> actions == []
    ensures o.pushToRedis != Bool(false) ==> actions == Plan(InsertEvent, defaultChannel, o, managerUid, ids)
  {
    actions := [];
    if o.pushToRedis == Bool(false) {
      return;
    }
    var channels := GetChannels(defaultChannel, o, None);
    var i := 0;
    while i < |ids|
      invariant 0 <= i <= |ids|
      invariant actions == Plan(InsertEvent, defaultChannel, o, managerUid, ids[..i])
    {
      var calls := EmitAll(channels, RedisEvent(InsertEvent, ids[i], UidFor(o, managerUid)), Optimistic(o));
      assert ids[..i + 1][..i] == ids[..i];
      actions := actions + calls;
      i := i + 1;
    }
    assert ids[..|ids|] == ids;
  }

  /** The inner `channels.forEach` of the handlers. */
  method EmitAll(channels: seq<string>, e: RedisEvent, optimistic: bool) returns (calls: seq<Action>)
    ensures calls == Fanout(channels, e, optimistic)
  {
    calls := [];
    var j := 0;
    while j < |channels|
      invariant 0 <= j <= |channels|
      invariant calls == Fanout(channels[..j], e, optimistic)
    {
      assert channels[..j + 1][..j] == channels[..j];
      calls := calls + [Emit(channels[j], e)];
      if optimistic {
        calls := calls + [ProcessLocally(channels[j], e)];
      }
      j := j + 1;
    }
    assert channels[..|channels|] == channels;
  }

  // ---------------------------------------------------------------------
  // What the handlers announce

  /** `a` is one of the calls made for document `id`. */
  ghost predicate CallFor(a: Action, kind: EventKind, defaultChannel: string, o: RedisOptions, managerUid: string, id: string)
  {
    var chs := ChannelsOf(kind, defaultChannel, o, id);
    var e := RedisEvent(kind, id, UidFor(o, managerUid));
    exists j :: 0 <= j < |chs| && (a == Emit(chs[j], e) || (Optimistic(o) && a == ProcessLocally(chs[j], e)))
  }

  /** The calls for one event: an emit on every channel, a local processing on
      every channel exactly when optimistic, and nothing else. */
  lemma {:induction false} FanoutMembers(channels: seq<string>, e: RedisEvent, optimistic: bool, a: Action)
    ensures a in Fanout(channels, e, optimistic) <==>
      exists j :: 0 <= j < |channels| && (a == Emit(channels[j], e) || (optimistic && a == ProcessLocally(channels[j], e)))
    decreases |channels|
  {
    if channels != [] {
      var p := channels[..|channels| - 1];
      FanoutMembers(p, e, optimistic, a);
      assert forall j :: 0 <= j < |p| ==> p[j] == channels[j];
    }
  }

  /** A handler announces every document on every one of its channels, and
      makes no other call. */
  lemma {:induction false} PlanMembers(kind: EventKind, defaultChannel: string, o: RedisOptions, managerUid: string, ids: seq<string>, a: Action)
    ensures a in Plan(kind, defaultChannel, o, managerUid, ids) <==>
      exists i :: 0 <= i < |ids| && CallFor(a, kind, defaultChannel, o, managerUid, ids[i])
    decreases |ids|
  {
    if ids != [] {
      var p := ids[..|ids| - 1];
      var id := ids[|ids| - 1];
      PlanMembers(kind, defaultChannel, o, managerUid, p, a);
      FanoutMembers(ChannelsOf(kind, defaultChannel, o, id), RedisEvent(kind, id, UidFor(o, managerUid)), Optimistic(o), a);
      assert a in ForDocument(kind, defaultChannel, o, managerUid, id) <==> CallFor(a, kind, defaultChannel, o, managerUid, id);
      assert a in Plan(kind, defaultChannel, o, managerUid, ids) <==>
        a in Plan(kind, defaultChannel, o, managerUid, p) || a in ForDocument(kind, defaultChannel, o, managerUid, id);
      if a in Plan(kind, defaultChannel, o, managerUid, ids) {
        if a in Plan(kind, defaultChannel, o, managerUid, p) {
          var i :| 0 <= i < |p| && CallFor(a, kind, defaultChannel, o, managerUid, p[i]);
          assert p[i] == ids[i];
        } else {
          assert ids[|ids| - 1] == id;
        }
      }
      if exists i :: 0 <= i < |ids| && CallFor(a, kind, defaultChannel, o, managerUid, ids[i]) {
        var i :| 0 <= i < |ids| && CallFor(a, kind, defaultChannel, o, managerUid, ids[i]);
        if i < |p| {
          assert p[i] == ids[i];
        }
      }
    }
  }

  /** Every event carries no uid when the write is optimistic and the
      manager's uid otherwise; nothing is processed locally unless optimistic. */
  lemma PlanUid(kind: EventKind, defaultChannel: string, o: RedisOptions, managerUid: string, ids: seq<string>, a: Action)
    requires a in Plan(kind, defaultChannel, o, managerUid, ids)
    ensures a.event.uid == (if Optimistic(o) then None else Some(managerUid))
    ensures a.ProcessLocally? ==> Optimistic(o)
    ensures a.event.kind == kind && a.event.id in ids
  {
    PlanMembers(kind, defaultChannel, o, managerUid, ids, a);
  }

  /** A local processing always comes right after the emit of the same event
      on the same channel. */
  lemma {:induction false} FanoutProcessFollowsEmit(channels: seq<string>, e: RedisEvent, optimistic: bool, k: int)
    requires 0 <= k < |Fanout(channels, e, optimistic)|
    requires Fanout(channels, e, optimistic)[k].ProcessLocally?
    ensures k > 0
    ensures Fanout(channels, e, optimistic)[k - 1] == Emit(Fanout(channels, e, optimistic)[k].channel, e)
    decreases |channels|
  {
    var p := channels[..|channels| - 1];
    var f := Fanout(p, e, optimistic);
    if k < |f| {
      FanoutProcessFollowsEmit(p, e, optimistic, k);
    }
  }

  lemma {:induction false} PlanProcessFollowsEmit(kind: EventKind, defaultChannel: string, o: RedisOptions, managerUid: string, ids: seq<string>, k: int)
    requires 0 <= k < |Plan(kind, defaultChannel, o, managerUid, ids)|
    requires Plan(kind, defaultChannel, o, managerUid, ids)[k].ProcessLocally?
    ensures k > 0
    ensures Plan(kind, defaultChannel, o, managerUid, ids)[k - 1]
      == Emit(Plan(kind, defaultChannel, o, managerUid, ids)[k].channel, Plan(kind, defaultChannel, o, managerUid, ids)[k].event)
    decreases |ids|
  {
    var p := Plan(kind, defaultChannel, o, managerUid, ids[..|ids| - 1]);
    var id := ids[|ids| - 1];
    var e := RedisEvent(kind, id, UidFor(o, managerUid));
    var f := Fanout(ChannelsOf(kind, defaultChannel, o, id), e, Optimistic(o));
    if k < |p| {
      PlanProcessFollowsEmit(kind, defaultChannel, o, managerUid, ids[..|ids| - 1], k);
    } else {
      var whole := Plan(kind, defaultChannel, o, managerUid, ids);
      assert whole == p + f;
      assert whole[k] == f[k - |p|];
      FanoutProcessFollowsEmit(ChannelsOf(kind, defaultChannel, o, id), e, Optimistic(o), k - |p|);
      assert whole[k - 1] == f[k - |p| - 1];
      assert f[k - |p|].event == e;
    }
  }

  // ---------------------------------------------------------------------
  // The `after` hooks

  /** How a write reported failure. */
  datatype WriteError = NoError | BulkWrite(insertedIds: seq<string>) | OtherError

  /** The ids announced after `insertOne`: the inserted id when truthy; on a
      bulk-write error the ids it reports; on any other error none at all
      (None: the hook returns without announcing). */
  function InsertedIdsOne(insertedId: Option<string>, error: WriteError): (r: Option<seq<string>>)
    ensures error.OtherError? <==> r.None?
    ensures error.BulkWrite? ==> r == Some(error.insertedIds)
    ensures error.NoError? ==> r == Some(if Present(insertedId) then [insertedId.value] else [])
  {
    match error
    case BulkWrite(ids) => Some(ids)
    case OtherError => None
    case NoError => Some(if Present(insertedId) then [insertedId.value] else [])
  }

  /** The ids announced after `insertMany`: `insertedIds` (in index order) or
      the bulk-write error's; none on any other error. */
  function InsertedIdsMany(insertedIds: Option<seq<string>>, error: WriteError): (r: Option<seq<string>>)
    ensures error.OtherError? <==> r.None?
    ensures error.BulkWrite? ==> r == Some(error.insertedIds)
    ensures error.NoError? ==> r == Some(if insertedIds.Some? then insertedIds.value else [])
  {
    match error
    case BulkWrite(ids) => Some(ids)
    case OtherError => None
    case NoError => Some(if insertedIds.Some? then insertedIds.value else [])
  }

  /** The argument keys of every operator of a modifier, in order
      (`flatMap` of `Object.keys`). */
  function ParamKeys(m: Mutator): (r: seq<string>)
    ensures forall x :: x in r <==> exists i :: 0 <= i < |m| && x in ArgKeys(m[i].param)
    decreases |m|
  {
    if m == [] then []
    else
      var p := m[..|m| - 1];
      assert forall i :: 0 <= i < |p| ==> p[i] == m[i];
      ParamKeys(p) + ArgKeys(m[|m| - 1].param)
  }

  /** The fields announced after an update: every argument key of every
      operator, each once, kept whole (a dotted path is not cut). An operator
      whose argument is `null` or `undefined` makes `Object.keys` throw. */
  function UpdatedFields(m: Mutator): (r: Result<seq<string>>)
    ensures r.Err? <==> exists i :: 0 <= i < |m| && m[i].param.Nullish?
    ensures r.Err? ==> r.error == TypeError(NULL_TO_OBJECT)
    ensures r.Ok? ==> NoDups(r.value)
    ensures r.Ok? ==> forall x :: x in r.value <==> exists i :: 0 <= i < |m| && x in ArgKeys(m[i].param)
  {
    if exists i :: 0 <= i < |m| && m[i].param.Nullish? then Err(TypeError(NULL_TO_OBJECT))
    else
      var r := Dedup(ParamKeys(m));
      assert forall x :: x in r <==> x in Elems(r);
      Ok(r)
  }

  /** A later operator never reorders or drops the fields announced for the
      earlier ones: its new keys are appended, in the `Set`'s insertion order. */
  lemma UpdatedFieldsGrow(m: Mutator, e: ModifierEntry)
    requires UpdatedFields(m + [e]).Ok?
    ensures UpdatedFields(m).Ok?
    ensures var before := UpdatedFields(m).value;
      var after := UpdatedFields(m + [e]).value;
      |before| <= |after| && after[..|before|] == before
  {
    assert forall i :: 0 <= i < |m| ==> (m + [e])[i] == m[i];
    assert (m + [e])[..|m + [e]| - 1] == m;
    DedupPrefix(ParamKeys(m), ArgKeys(e.param));
  }

  /** The `after.updateOne` / `after.updateMany` hooks: the changed fields are
      computed from the modifier, then every updated id is announced. */
  method AfterUpdate(defaultChannel: string, ids: seq<string>, m: Mutator, o: RedisOptions, managerUid: string)
    returns (r: Result<seq<Action>>)
    ensures UpdatedFields(m).Err? ==> r == Err(TypeError(NULL_TO_OBJECT))
    ensures UpdatedFields(m).Ok? ==> r.Ok? && r.value == Plan(UpdateEvent(UpdatedFields(m).value), defaultChannel, o, managerUid, ids)
  {
    var fields := UpdatedFields(m);
    if fields.Err? {
      return Err(fields.error);
    }
    var actions := HandleUpdate(defaultChannel, ids, fields.value, o, managerUid);
    r := Ok(actions);
  }

  /** Whenever the validators accept a modifier, redis announces every field
      they were shown, by its full paths: each announced path whose top-level
      segment is not `__proto__` has that segment among the validated fields
      (`AnnouncedFieldsAreValidated`), and each validated field is the
      top-level segment of an announced path (`ValidatedFieldsAreAnnounced`). */
  lemma AnnouncedFieldsAreValidated(m: Mutator)
    requires ModifiedFields(m).Ok?
    ensures UpdatedFields(m).Ok?
    ensures forall x :: x in UpdatedFields(m).value && TopLevel(x) != PROTO ==>
      TopLevel(x) in ModifiedFields(m).value
  {
    ModifiedFieldsElems(m);
    forall x | x in UpdatedFields(m).value && TopLevel(x) != PROTO
      ensures TopLevel(x) in ModifiedFields(m).value
    {
      var i :| 0 <= i < |m| && x in ArgKeys(m[i].param);
      KeyTopLevel(ArgKeys(m[i].param), x);
    }
  }

  lemma ValidatedFieldsAreAnnounced(m: Mutator)
    requires ModifiedFields(m).Ok?
    ensures UpdatedFields(m).Ok?
    ensures forall y :: y in ModifiedFields(m).value ==>
      exists x :: x in UpdatedFields(m).value && TopLevel(x) == y
  {
    ModifiedFieldsElems(m);
    forall y | y in ModifiedFields(m).value
      ensures exists x :: x in UpdatedFields(m).value && TopLevel(x) == y
    {
      var i :| 0 <= i < |m| && y in TopLevels(ArgKeys(m[i].param));
      var keys := ArgKeys(m[i].param);
      var k :| 0 <= k < |keys| && TopLevels(keys)[k] == y;
      assert keys[k] in UpdatedFields(m).value;
    }
  }

  lemma KeyTopLevel(keys: seq<string>, x: string)
    requires x in keys
    ensures TopLevel(x) in TopLevels(keys)
  {
    var k :| 0 <= k < |keys| && keys[k] == x;
    assert TopLevels(keys)[k] == TopLevel(x);
  }

  /** The two lists differ on dotted paths: `{ $set: { "a.b": 1 } }` announces
      `a.b` (here) while validators see `a` (`DottedPathValidatedAsTopLevel`). */
  lemma AnnouncedFieldsKeepPaths()
    ensures UpdatedFields([ModifierEntry("$set", Fields([("a.b", Num(1))]))]) == Ok(["a.b"])
  {
    var m := [ModifierEntry("$set", Fields([("a.b", Num(1))]))];
    assert ParamKeys(m) == ["a.b"] by {
      assert ArgKeys(m[0].param) == ["a.b"];
      assert m[..0] == [];
    }
    assert UpdatedFields(m) == Ok(Dedup(ParamKeys(m))) by {
      assert !exists i :: 0 <= i < |m| && m[i].param.Nullish?;
    }
    DedupOfNoDups(["a.b"]);
  }

  lemma DottedPathValidatedAsTopLevel()
    ensures ModifiedFields([ModifierEntry("$set", Fields([("a.b", Num(1))]))]) == Ok(["a"])
  {
    var m := [ModifierEntry("$set", Fields([("a.b", Num(1))]))];
    assert FirstEntryError(m).None? by {
      assert EntryError(m[0]).None?;
    }
    assert TopLevel("a.b") == "a" by {
      assert IndexOf("a.b", '.') == 1 by {
        assert "a.b"[0] == 'a' && "a.b"[1] == '.';
        assert "a.b"[1..] == ".b";
      }
    }
    assert Touched(m) == ["a"] by {
      assert m[..0] == [];
      assert ArgKeys(m[0].param) == ["a.b"];
      assert TopLevels(["a.b"]) == ["a"];
    }
    assert AssignedKeys(["a"]) == ["a"] by {
      assert ["a"][..0] == [];
      assert !IsArrayIndex("a") by { assert !IsDigit('a'); }
    }
  }
}
