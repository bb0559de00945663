/**
 * The allow/deny access-control engine of a hooked collection: the
 * per-collection validation context, the registration of validators, the
 * accumulated field projection validators need, and the deny-then-allow
 * decision for insert, update and remove coming from an untrusted caller.
 *
 * Validators and document transforms are user code: they are modelled as
 * arbitrary pure Dafny functions.
 */
module Validation {
  import opened Common

  /** The argument of one update operator: an object, given by its own
      properties in `Object.keys` order, or `null`/`undefined`. */
  datatype Param = Fields(entries: seq<(string, Value)>) | Nullish

  /** `Object.keys` of an operator argument (none for `null`, which the
      engine refuses before asking). */
  function ArgKeys(p: Param): seq<string>
  {
    match p
    case Nullish => []
    case Fields(es) => seq(|es|, i requires 0 <= i < |es| => es[i].0)
  }

  /** One key of an update modifier with its argument:
      `{ $set: { a: 1, "b.c": 2 } }` is
      `[ModifierEntry("$set", Fields([("a", Num(1)), ("b.c", Num(2))]))]`. */
  datatype ModifierEntry = ModifierEntry(key: string, param: Param)

  /** An update modifier, keys in `Object.keys` order; validators receive it whole. */
  type Mutator = seq<ModifierEntry>

  /** The arguments a validator is called with, per operation. */
  datatype ValidatorCall =
    | InsertCall(userId: Option<string>, doc: Value)
    | UpdateCall(userId: Option<string>, doc: Value, fields: seq<string>, mutator: Mutator)
    | RemoveCall(userId: Option<string>, doc: Value)

  /**
   * A validator function object given to `allow`/`deny`. Registration writes
   * the transform onto the function object itself, so the one object
   * registered on several collections, or for several kinds, carries the
   * transform of its latest registration everywhere.
   */
  class ValidatorFn {
    const check: ValidatorCall -> bool
    var transform: Option<Transform>

    constructor (check: ValidatorCall -> bool)
      ensures this.check == check && transform.None?
    {
      this.check := check;
      transform := None;
    }
  }

  datatype Rules = Rules(allow: seq<ValidatorFn>, deny: seq<ValidatorFn>)

  datatype Polarity = Allow | Deny
  {
    function Name(): string
    {
      match this
      case Allow => "allow"
      case Deny => "deny"
    }
  }

  datatype Kind = InsertKind | UpdateKind | RemoveKind
  {
    function Name(): string
    {
      match this
      case InsertKind => "insert"
      case UpdateKind => "update"
      case RemoveKind => "remove"
    }
  }

  /** A snapshot of a validation context: the fields a validate function reads. */
  datatype ContextState = ContextState(
    restricted: bool,
    insert: Rules,
    update: Rules,
    remove: Rules,
    fetch: Option<seq<string>>,
    fetchAllFields: bool)
  {
    function RulesFor(kind: Kind): Rules
    {
      match kind
      case InsertKind => insert
      case UpdateKind => update
      case RemoveKind => remove
    }

    function WithRules(kind: Kind, r: Rules): ContextState
    {
      match kind
      case InsertKind => this.(insert := r)
      case UpdateKind => this.(update := r)
      case RemoveKind => this.(remove := r)
    }
  }

  const NO_RULES := "Can't validate something with no allow/deny rules"
  const NO_METHODS := "Can't specify allow/deny rules on a collection with no methods"
  const NO_REDEFINE := "Can't redefine mutation methods"
  const ACCESS_DENIED := "Access denied"
  const NOT_SINGLE_ID := "validated update should be of a single ID"
  const NO_UPSERT := "Access denied. Upserts not allowed in a restricted collection."
  const NO_REPLACE := "Access denied. In a restricted collection you can only update documents, not replace them. Use a Mongo update operator, such as '$set'."

  function OperatorNotAllowed(op: string): string
  {
    "Access denied. Operator " + op + " not allowed in a restricted collection."
  }

  /** The update operators an untrusted caller may use. */
  const ALLOWED_OPERATORS: set<string> :=
    {"$inc", "$set", "$unset", "$addToSet", "$pop", "$pullAll", "$pull", "$pushAll", "$push", "$bit"}

  /** The option keys `allow`/`deny` accept. */
  const VALID_KEYS: set<string> := {"insert", "update", "remove", "fetch", "transform"}

  const EMPTY_RULES := Rules([], [])

  /** A freshly created context: unrestricted, no validators, an empty fetch list. */
  const INITIAL := ContextState(false, EMPTY_RULES, EMPTY_RULES, EMPTY_RULES, Some([]), false)

  // ---------------------------------------------------------------------
  // Projection accumulator

  /** The field names accumulated so far (`fetch ?? []`). */
  function FetchNames(fetch: Option<seq<string>>): seq<string>
  {
    if fetch.Some? then fetch.value else []
  }

  /**
   * The state after `updateFetch(fields)`: nothing changes once all fields
   * are needed; a field list is merged into the accumulated list without
   * duplicates; `undefined` switches to all fields and drops the list.
   */
  function FetchUpdated(s: ContextState, fields: Option<seq<string>>): (t: ContextState)
    ensures s.fetchAllFields ==> t == s
    ensures !s.fetchAllFields && fields.Some? ==>
      && t == s.(fetch := t.fetch)
      && t.fetch.Some?
      && Elems(t.fetch.value) == Elems(FetchNames(s.fetch)) + Elems(fields.value)
      && NoDups(t.fetch.value)
    ensures !s.fetchAllFields && fields.Some? && NoDups(FetchNames(s.fetch)) ==>
      |FetchNames(s.fetch)| <= |t.fetch.value| && t.fetch.value[..|FetchNames(s.fetch)|] == FetchNames(s.fetch)
    ensures !s.fetchAllFields && fields.None? ==>
      t == s.(fetchAllFields := true, fetch := None)
  {
    if s.fetchAllFields then s
    else if fields.Some? then
      var old_ := FetchNames(s.fetch);
      DedupOfNoDupsPrefix(old_, fields.value);
      s.(fetch := Some(Dedup(old_ + fields.value)))
    else
      s.(fetchAllFields := true, fetch := None)
  }

  /** Helper: `Dedup(a + b)` starts with `a` when `a` has no duplicates. */
  lemma DedupOfNoDupsPrefix(a: seq<string>, b: seq<string>)
    ensures |Dedup(a)| <= |Dedup(a + b)|
    ensures NoDups(a) ==> |a| <= |Dedup(a + b)| && Dedup(a + b)[..|a|] == a
  {
    DedupPrefix(a, b);
    if NoDups(a) {
      DedupOfNoDups(a);
    }
  }

  /** Once all fields are needed, no sequence of `updateFetch` calls narrows it again. */
  lemma {:induction false} AllFieldsIsFinal(s: ContextState, calls: seq<Option<seq<string>>>)
    requires s.fetchAllFields
    ensures FetchFolded(s, calls) == s
    decreases |calls|
  {
    if calls != [] {
      AllFieldsIsFinal(FetchUpdated(s, calls[0]), calls[1..]);
    }
  }

  /** `updateFetch` applied once per element of `calls`, in order. */
  function FetchFolded(s: ContextState, calls: seq<Option<seq<string>>>): ContextState
    decreases |calls|
  {
    if calls == [] then s else FetchFolded(FetchUpdated(s, calls[0]), calls[1..])
  }

  /** The accumulated names only grow: every name once fetched stays fetched
      until the context switches to all fields. */
  lemma {:induction false} FetchOnlyGrows(s: ContextState, calls: seq<Option<seq<string>>>)
    requires !s.fetchAllFields
    ensures var t := FetchFolded(s, calls);
      t.fetchAllFields || Elems(FetchNames(s.fetch)) <= Elems(FetchNames(t.fetch))
    decreases |calls|
  {
    if calls != [] {
      var s' := FetchUpdated(s, calls[0]);
      if s'.fetchAllFields {
        AllFieldsIsFinal(s', calls[1..]);
      } else {
        FetchOnlyGrows(s', calls[1..]);
      }
    }
  }

  // ---------------------------------------------------------------------
  // The context object and the registry that maps collections to it

  /** The validation context of one collection, updated in place. */
  class ValidationContext {
    var restricted: bool
    var insert: Rules
    var update: Rules
    var remove: Rules
    var fetch: Option<seq<string>>
    var fetchAllFields: bool

    function State(): ContextState
      reads this
    {
      ContextState(restricted, insert, update, remove, fetch, fetchAllFields)
    }

    constructor ()
      ensures State() == INITIAL
    {
      restricted := false;
      insert, update, remove := EMPTY_RULES, EMPTY_RULES, EMPTY_RULES;
      fetch := Some([]);
      fetchAllFields := false;
    }

    /** `updateFetch`: folds `fields` into the accumulated projection. */
    method UpdateFetch(fields: Option<seq<string>>)
      modifies this
      ensures State() == FetchUpdated(old(State()), fields)
    {
      if !fetchAllFields {
        if fields.Some? {
          var prev := FetchNames(fetch);
          assert [] + prev == prev;
          var names := AddNew([], [], prev);
          names := AddNew(names, prev, fields.value);
          fetch := Some(names);
        } else {
          fetchAllFields := true;
          fetch := None;
        }
      }
    }

    /** Appends `v` to the `pol` list of the `kind` rules. */
    method Push(kind: Kind, pol: Polarity, v: ValidatorFn)
      modifies this
      ensures State() == Pushed(old(State()), kind, pol, v)
    {
      match kind
      case InsertKind => insert := PushRule(insert, pol, v);
      case UpdateKind => update := PushRule(update, pol, v);
      case RemoveKind => remove := PushRule(remove, pol, v);
    }
  }

  /** Adds each of `more` to the `Set` holding `names` (the de-duplicated
      `before`), in order, skipping the ones already present. */
  method AddNew(names: seq<string>, ghost before: seq<string>, more: seq<string>) returns (r: seq<string>)
    requires names == Dedup(before)
    ensures r == Dedup(before + more)
  {
    r := names;
    assert before + more[..0] == before;
    var j := 0;
    while j < |more|
      invariant 0 <= j <= |more|
      invariant r == Dedup(before + more[..j])
    {
      DedupSnoc(before + more[..j], more[j]);
      assert before + more[..j + 1] == (before + more[..j]) + [more[j]];
      if more[j] !in r {
        r := r + [more[j]];
      }
      j := j + 1;
    }
    assert more[..|more|] == more;
  }

  /** The names of the three remote methods registered for a collection. */
  function MutationMethodNames(collectionName: string): set<string>
  {
    var p := "/" + collectionName + "/";
    {p + "insertOne", p + "updateOne", p + "deleteOne"}
  }

  /** The three names are distinct and all live under `/<collection name>/`,
      so two collections with different names never share a method. */
  lemma MutationMethodNamesScoped(collectionName: string)
    ensures |MutationMethodNames(collectionName)| == 3
    ensures forall n :: n in MutationMethodNames(collectionName) ==>
      |n| > |collectionName| + 2 && n[..|collectionName| + 2] == "/" + collectionName + "/"
  {
    var p := "/" + collectionName + "/";
    assert (p + "insertOne")[..|p|] == p && (p + "updateOne")[..|p|] == p && (p + "deleteOne")[..|p|] == p;
    assert (p + "insertOne")[|p|] == 'i' && (p + "updateOne")[|p|] == 'u' && (p + "deleteOne")[|p|] == 'd';
  }

  /**
   * The options a registered remote method passes to the collection: the
   * caller's options with `isInsecure: true` and `inSimulation` (true on the
   * client) written last, so the caller cannot override them.
   */
  function MethodCallOptions(options: Option<Options>, isClient: bool): (r: Options)
    ensures "isInsecure" in r && r["isInsecure"] == Bool(true)
    ensures "inSimulation" in r && r["inSimulation"] == Bool(isClient)
    ensures r.Keys == Spread(options).Keys + {"isInsecure", "inSimulation"}
    ensures forall k :: k in Spread(options) && k != "isInsecure" && k != "inSimulation" ==>
      r[k] == Spread(options)[k]
  {
    Spread(options)["isInsecure" := Bool(true)]["inSimulation" := Bool(isClient)]
  }

  /** `collection -> context`: a context exists once mutation methods are
      defined; `methods` are the remote method names registered so far. */
  class Registry {
    var contexts: map<object, ValidationContext>
    var methods: set<string>

    constructor ()
      ensures contexts == map[] && methods == {}
    {
      contexts := map[];
      methods := {};
    }

    /** The context of `c`, or null when none was created. */
    function Lookup(c: object): (r: ValidationContext?)
      reads this
      ensures r != null <==> c in contexts
      ensures r != null ==> r == contexts[c]
    {
      if c in contexts then contexts[c] else null
    }

    /**
     * The context-creation part of `defineMutationMethods`: creates a fresh,
     * unrestricted context for `c`, and refuses to do so twice.
     */
    method DefineMutationMethods(c: object, collectionName: string) returns (r: Outcome)
      modifies this
      ensures c in old(contexts) ==>
        r == Fail(PlainError(NO_REDEFINE)) && contexts == old(contexts) && methods == old(methods)
      ensures c !in old(contexts) ==>
        && r == Done
        && c in contexts
        && fresh(contexts[c])
        && contexts[c].State() == INITIAL
        && contexts == old(contexts)[c := contexts[c]]
        && methods == old(methods) + MutationMethodNames(collectionName)
    {
      if c in contexts {
        return Fail(PlainError(NO_REDEFINE));
      }
      var ctx := new ValidationContext();
      contexts := contexts[c := ctx];
      methods := methods + MutationMethodNames(collectionName);
      r := Done;
    }
  }

  /** `getProjection`: the projection update and remove validators need.
      A fetched name `__proto__` sets no own key of the projection object. */
  method GetProjection(ctx: ValidationContext?) returns (r: Result<map<string, int>>)
    ensures ctx == null ==> r == Err(PlainError(NO_RULES))
    ensures ctx != null && ctx.fetchAllFields ==> r == Ok(map[])
    ensures ctx != null && !ctx.fetchAllFields ==>
      && r.Ok?
      && r.value.Keys == Elems(FetchNames(ctx.fetch)) - {PROTO}
      && forall k :: k in r.value ==> r.value[k] == 1
  {
    if ctx == null {
      return Err(PlainError(NO_RULES));
    }
    var fields: map<string, int> := map[];
    if !ctx.fetchAllFields && ctx.fetch.Some? {
      var names := ctx.fetch.value;
      var i := 0;
      while i < |names|
        invariant 0 <= i <= |names|
        invariant fields.Keys == Elems(names[..i]) - {PROTO}
        invariant forall k :: k in fields ==> fields[k] == 1
      {
        assert names[..i + 1] == names[..i] + [names[i]];
        if names[i] != PROTO {
          fields := fields[names[i] := 1];
        }
        i := i + 1;
      }
      assert names[..|names|] == names;
    }
    r := Ok(fields);
  }

  // ---------------------------------------------------------------------
  // Registration of validators

  function PushRule(r: Rules, pol: Polarity, v: ValidatorFn): Rules
  {
    match pol
    case Allow => r.(allow := r.allow + [v])
    case Deny => r.(deny := r.deny + [v])
  }

  function Pushed(s: ContextState, kind: Kind, pol: Polarity, v: ValidatorFn): ContextState
  {
    s.WithRules(kind, PushRule(s.RulesFor(kind), pol, v))
  }

  /** What an option value for `insert`/`update`/`remove` is. */
  datatype Slot = Unset | Falsy | NotCallable | Callable(f: ValidatorFn)
  {
    predicate IsTruthy() { NotCallable? || Callable? }

    /** The function object this value is, if it is one. */
    function Fns(): set<ValidatorFn>
    {
      if Callable? then {f} else {}
    }
  }

  /** What the `transform` option is: `undefined` (the collection's transform
      applies), another falsy value, or a function. */
  datatype TransformOption = TransformUndefined | TransformFalsy | TransformGiven(t: Transform)

  /** What the `fetch` option value is. */
  datatype FetchSlot = FetchUnset | FetchFalsy | FetchNotArray | FetchArray(names: seq<string>)
  {
    predicate IsTruthy() { FetchNotArray? || FetchArray? }

    /** The argument handed to `updateFetch`: a falsy `fetch` means all fields. */
    function Argument(): Option<seq<string>>
    {
      if FetchArray? then Some(names) else None
    }
  }

  /** The options of one `allow(...)`/`deny(...)` call; `keys` is `Object.keys(options)`. */
  datatype RuleOptions = RuleOptions(
    keys: seq<string>,
    insert: Slot,
    update: Slot,
    remove: Slot,
    fetch: FetchSlot,
    transform: TransformOption)
  {
    /** An options object as JS presents it: an option that is not an own key
        of the object reads as `undefined`. The operations do not depend on
        this; it ties `keys` to the option values for a reader. */
    predicate ListsItsOptions()
    {
      && ("insert" !in keys ==> insert.Unset?)
      && ("update" !in keys ==> update.Unset?)
      && ("remove" !in keys ==> remove.Unset?)
      && ("fetch" !in keys ==> fetch.FetchUnset?)
      && ("transform" !in keys ==> transform.TransformUndefined?)
    }

    function SlotFor(kind: Kind): (slot: Slot)
      ensures slot.Fns() <= Fns()
    {
      match kind
      case InsertKind => insert
      case UpdateKind => update
      case RemoveKind => remove
    }

    /** The function objects given for the three kinds. */
    function Fns(): set<ValidatorFn>
    {
      insert.Fns() + update.Fns() + remove.Fns()
    }
  }

  /** The first option key that is not a valid one, if any: the key the
      `forEach` over `Object.keys(options)` throws at. */
  function InvalidKey(keys: seq<string>): (r: Option<string>)
    ensures r.None? <==> forall i :: 0 <= i < |keys| ==> keys[i] in VALID_KEYS
    ensures r.Some? ==> exists j :: (0 <= j < |keys| && keys[j] == r.value && r.value !in VALID_KEYS
      && forall i :: 0 <= i < j ==> keys[i] in VALID_KEYS)
  {
    if keys == [] then None
    else if keys[0] !in VALID_KEYS then Some(keys[0])
    else
      var r := InvalidKey(keys[1..]);
      assert forall i :: 1 <= i < |keys| ==> keys[i] == keys[1..][i - 1];
      assert r.Some? ==> exists j :: (0 <= j < |keys| && keys[j] == r.value && r.value !in VALID_KEYS
          && forall i :: 0 <= i < j ==> keys[i] in VALID_KEYS) by {
        if r.Some? {
          var j :| 0 <= j < |keys[1..]| && keys[1..][j] == r.value && r.value !in VALID_KEYS
            && forall i :: 0 <= i < j ==> keys[1..][i] in VALID_KEYS;
          assert keys[j + 1] == r.value;
        }
      }
      r
  }

  /** One step of the `insert`/`update`/`remove` registration loop (the list
      part; the transform is written onto the function object). */
  function RegisterSlot(s: ContextState, kind: Kind, pol: Polarity, slot: Slot): (res: (ContextState, Option<Failure>))
    ensures res.1.Some? <==> slot.NotCallable?
    ensures res.0 == s.(insert := res.0.insert, update := res.0.update, remove := res.0.remove)
    ensures forall k :: k != kind ==> res.0.RulesFor(k) == s.RulesFor(k)
    ensures res.0.RulesFor(kind) ==
      if slot.Callable? then PushRule(s.RulesFor(kind), pol, slot.f) else s.RulesFor(kind)
  {
    match slot
    case Unset => (s, None)
    case Falsy => (s, None)
    case NotCallable => (s, Some(PlainError(pol.Name() + ": Value for `" + kind.Name() + "` must be a function")))
    case Callable(f) => (Pushed(s, kind, pol, f), None)
  }

  /** The transform written onto the registered function objects: the
      collection's when the option is `undefined`, none for another falsy
      value (`wrapTransform` returns null for it), otherwise the wrapped one. */
  function RuleTransform(o: RuleOptions, collectionTransform: Option<Transform>, wrap: Transform -> Transform): (r: Option<Transform>)
    ensures o.transform.TransformUndefined? ==> r == collectionTransform
    ensures o.transform.TransformFalsy? ==> r.None?
    ensures o.transform.TransformGiven? ==> r == Some(wrap(o.transform.t))
  {
    match o.transform
    case TransformUndefined => collectionTransform
    case TransformFalsy => None
    case TransformGiven(t) => Some(wrap(t))
  }


  /** The three validator kinds, in the order `addValidator` registers them. */
  const KINDS: seq<Kind> := [InsertKind, UpdateKind, RemoveKind]

  /** Some value for one of `kinds` is truthy but not a function. */
  predicate Stops(o: RuleOptions, kinds: seq<Kind>)
  {
    exists j :: 0 <= j < |kinds| && o.SlotFor(kinds[j]).NotCallable?
  }

  /**
   * The registration loop over `kinds`: each function given is appended to its
   * list; the first truthy value that is not a function stops the loop with
   * an error, keeping what was appended before it.
   */
  function RegisterAll(s: ContextState, kinds: seq<Kind>, pol: Polarity, o: RuleOptions): (res: (ContextState, Option<Failure>))
    ensures res.1.Some? <==> Stops(o, kinds)
    ensures res.0 == s.(insert := res.0.insert, update := res.0.update, remove := res.0.remove)
    ensures forall kind :: kind !in kinds ==> res.0.RulesFor(kind) == s.RulesFor(kind)
    decreases |kinds|
  {
    if kinds == [] then (s, None)
    else
      var p := kinds[..|kinds| - 1];
      var last := kinds[|kinds| - 1];
      assert forall j :: 0 <= j < |p| ==> p[j] == kinds[j];
      assert forall kind :: kind in kinds ==> kind in p || kind == last;
      var (s', e) := RegisterAll(s, p, pol, o);
      if e.Some? then (s', e) else RegisterSlot(s', last, pol, o.SlotFor(last))
  }

  /** Once a value that is not a function stopped the loop, later kinds change nothing. */
  lemma {:induction false} RegisterAllStops(s: ContextState, kinds: seq<Kind>, pol: Polarity, o: RuleOptions, i: nat, k: nat)
    requires i < k <= |kinds|
    requires RegisterAll(s, kinds[..i + 1], pol, o).1.Some?
    ensures RegisterAll(s, kinds[..k], pol, o) == RegisterAll(s, kinds[..i + 1], pol, o)
    decreases k
  {
    if k > i + 1 {
      RegisterAllStops(s, kinds, pol, o, i, k - 1);
      assert kinds[..k][..k - 1] == kinds[..k - 1];
    }
  }

  /** `w` is the set of function objects given for a kind of `kinds` that
      the loop reaches before a value that is not a function stops it. */
  ghost predicate WrittenBy(o: RuleOptions, kinds: seq<Kind>, w: set<ValidatorFn>)
  {
    && (forall f :: f in w ==>
          exists j :: 0 <= j < |kinds| && o.SlotFor(kinds[j]) == Callable(f) && !Stops(o, kinds[..j]))
    && (forall j :: 0 <= j < |kinds| && o.SlotFor(kinds[j]).Callable? && !Stops(o, kinds[..j]) ==>
          o.SlotFor(kinds[j]).f in w)
  }

  /** The function objects whose `transform` property the loop over `kinds`
      overwrites. */
  function Written(o: RuleOptions, kinds: seq<Kind>): (w: set<ValidatorFn>)
    ensures w <= o.Fns()
    decreases |kinds|
  {
    if kinds == [] then {}
    else
      var p := kinds[..|kinds| - 1];
      if Stops(o, p) then Written(o, p) else Written(o, p) + o.SlotFor(kinds[|kinds| - 1]).Fns()
  }

  /** The transform lands on exactly the functions given for the kinds the
      loop reaches. */
  lemma {:induction false} WrittenIsReached(o: RuleOptions, kinds: seq<Kind>)
    ensures WrittenBy(o, kinds, Written(o, kinds))
    decreases |kinds|
  {
    if kinds != [] {
      WrittenIsReached(o, kinds[..|kinds| - 1]);
      WrittenChar(o, kinds, Written(o, kinds));
    }
  }

  /** The characterisation of `Written` for one more kind, from the one for the prefix. */
  lemma WrittenChar(o: RuleOptions, kinds: seq<Kind>, w: set<ValidatorFn>)
    requires kinds != []
    requires var p := kinds[..|kinds| - 1];
      && WrittenBy(o, p, Written(o, p))
      && w == if Stops(o, p) then Written(o, p) else Written(o, p) + o.SlotFor(kinds[|kinds| - 1]).Fns()
    ensures WrittenBy(o, kinds, w)
  {
    var p := kinds[..|kinds| - 1];
    var n := |kinds| - 1;
    assert forall j :: 0 <= j <= n ==> p[..j] == kinds[..j];
    forall j | 0 <= j < |kinds| && o.SlotFor(kinds[j]).Callable? && !Stops(o, kinds[..j])
      ensures o.SlotFor(kinds[j]).f in w
    {
      if j < n {
        assert p[j] == kinds[j];
      } else {
        assert kinds[..j] == p;
      }
    }
    forall f | f in w
      ensures exists j :: 0 <= j < |kinds| && o.SlotFor(kinds[j]) == Callable(f) && !Stops(o, kinds[..j])
    {
      if f in Written(o, p) {
        var j :| 0 <= j < |p| && o.SlotFor(p[j]) == Callable(f) && !Stops(o, p[..j]);
        assert kinds[j] == p[j];
      } else {
        assert !Stops(o, kinds[..n]);
      }
    }
  }

  /** One more kind of the loop, for the transforms: the objects written so
      far plus the one given for the next kind, while nothing stopped it. */
  lemma WrittenStep(o: RuleOptions, i: nat)
    requires i < |KINDS|
    requires !Stops(o, KINDS[..i])
    ensures Written(o, KINDS[..i + 1]) == Written(o, KINDS[..i]) + o.SlotFor(KINDS[i]).Fns()
  {
    assert KINDS[..i + 1][..i] == KINDS[..i];
  }

  /** A value that is not a function ends the writing of transforms. */
  lemma WrittenStops(o: RuleOptions, i: nat)
    requires i < |KINDS|
    requires !Stops(o, KINDS[..i]) && o.SlotFor(KINDS[i]).NotCallable?
    ensures Written(o, KINDS) == Written(o, KINDS[..i])
  {
    WrittenIsReached(o, KINDS);
    WrittenIsReached(o, KINDS[..i]);
    forall f | f in Written(o, KINDS)
      ensures f in Written(o, KINDS[..i])
    {
      var j :| 0 <= j < |KINDS| && o.SlotFor(KINDS[j]) == Callable(f) && !Stops(o, KINDS[..j]);
      assert j < i;
      assert KINDS[..i][j] == KINDS[j] && KINDS[..i][..j] == KINDS[..j];
    }
    forall f | f in Written(o, KINDS[..i])
      ensures f in Written(o, KINDS)
    {
      var j :| 0 <= j < i && o.SlotFor(KINDS[..i][j]) == Callable(f) && !Stops(o, KINDS[..i][..j]);
      assert KINDS[..i][j] == KINDS[j] && KINDS[..i][..j] == KINDS[..j];
    }
  }

  /** The function objects one `addValidator` call writes a transform onto:
      none when a key is invalid, otherwise those the loop reaches. */
  function Rewritten(o: RuleOptions): set<ValidatorFn>
  {
    if InvalidKey(o.keys).Some? then {} else Written(o, KINDS)
  }

  /** After a successful registration, the `kind` lists hold exactly the old
      lists plus the function given for `kind`, if any, under `pol`. */
  ghost predicate RulesAfter(s: ContextState, kind: Kind, pol: Polarity, o: RuleOptions, s': ContextState)
  {
    var slot := o.SlotFor(kind);
    s'.RulesFor(kind) ==
      if slot.Callable? then PushRule(s.RulesFor(kind), pol, slot.f) else s.RulesFor(kind)
  }

  /** A full pass over the three kinds registers each given function once, under its own kind. */
  lemma RegisterAllKinds(s: ContextState, pol: Polarity, o: RuleOptions)
    requires RegisterAll(s, KINDS, pol, o).1.None?
    ensures forall kind :: RulesAfter(s, kind, pol, o, RegisterAll(s, KINDS, pol, o).0)
  {
    assert KINDS[..1][..0] == [];
    assert KINDS[..2][..1] == KINDS[..1];
    assert KINDS[..3][..2] == KINDS[..2];
    assert KINDS[..3] == KINDS;
    var r1 := RegisterSlot(s, InsertKind, pol, o.insert);
    var r2 := RegisterSlot(r1.0, UpdateKind, pol, o.update);
    var r3 := RegisterSlot(r2.0, RemoveKind, pol, o.remove);
    assert RegisterAll(s, KINDS[..1], pol, o) == r1;
    assert RegisterAll(s, KINDS[..2], pol, o) == r2;
    assert RegisterAll(s, KINDS, pol, o) == r3;
    forall kind
      ensures RulesAfter(s, kind, pol, o, r3.0)
    {
      match kind
      case InsertKind =>
      case UpdateKind =>
      case RemoveKind =>
    }
  }

  /**
   * `addValidator` on an existing context: the new state of the lists and the
   * outcome. The checks interleave with the updates exactly as in the code,
   * so a failure part-way leaves the earlier updates in place.
   */
  function AddValidatorResult(s: ContextState, pol: Polarity, o: RuleOptions): (ContextState, Outcome)
  {
    match InvalidKey(o.keys)
    case Some(k) => (s, Fail(PlainError(pol.Name() + ": Invalid key: " + k)))
    case None =>
      var (s4, e) := RegisterAll(s.(restricted := true), KINDS, pol, o);
      if e.Some? then (s4, Fail(e.value)) else FetchStep(s4, pol, o)
  }

  /** The last step of `addValidator`: when any of update, remove or fetch is
      given, `fetch` must be an array (or absent) and is folded into the
      projection. */
  function FetchStep(s: ContextState, pol: Polarity, o: RuleOptions): (ContextState, Outcome)
  {
    if o.update.IsTruthy() || o.remove.IsTruthy() || o.fetch.IsTruthy() then
      if o.fetch.FetchNotArray? then
        (s, Fail(PlainError(pol.Name() + ": Value for `fetch` must be an array")))
      else
        (FetchUpdated(s, o.fetch.Argument()), Done)
    else
      (s, Done)
  }

  /** What `addValidator` refuses: an unknown key before anything changes; a
      value for insert, update or remove that is not a function; a `fetch` that
      is not an array. Past the key check the collection is restricted, even
      when a later check fails. */
  lemma AddValidatorRefusals(s: ContextState, pol: Polarity, o: RuleOptions)
    ensures var res := AddValidatorResult(s, pol, o);
      && (InvalidKey(o.keys).Some? ==>
            res == (s, Fail(PlainError(pol.Name() + ": Invalid key: " + InvalidKey(o.keys).value))))
      && (InvalidKey(o.keys).None? ==> res.0.restricted)
      && (InvalidKey(o.keys).None? && (o.insert.NotCallable? || o.update.NotCallable? || o.remove.NotCallable?) ==>
            res.1.Fail?)
      && (InvalidKey(o.keys).None? && o.fetch.FetchNotArray? ==> res.1.Fail?)
  {
    if InvalidKey(o.keys).None? {
      assert o.insert == o.SlotFor(KINDS[0]);
      assert o.update == o.SlotFor(KINDS[1]);
      assert o.remove == o.SlotFor(KINDS[2]);
    }
  }

  /** The outcome is success exactly when every check passes; then every
      function given is appended to its own list under the call's polarity,
      every one of them has had its transform written, and nothing else is
      appended. */
  lemma AddValidatorSuccess(s: ContextState, pol: Polarity, o: RuleOptions)
    ensures var res := AddValidatorResult(s, pol, o);
      && (res.1.Done? <==>
            && InvalidKey(o.keys).None?
            && !o.insert.NotCallable? && !o.update.NotCallable? && !o.remove.NotCallable?
            && ((o.update.IsTruthy() || o.remove.IsTruthy() || o.fetch.IsTruthy()) ==> !o.fetch.FetchNotArray?))
      && (res.1.Done? ==>
            && (forall kind :: RulesAfter(s, kind, pol, o, res.0))
            && Rewritten(o) == o.Fns())
  {
    var res := AddValidatorResult(s, pol, o);
    assert o.insert == o.SlotFor(KINDS[0]);
    assert o.update == o.SlotFor(KINDS[1]);
    assert o.remove == o.SlotFor(KINDS[2]);
    if res.1.Done? {
      var s1 := s.(restricted := true);
      RegisterAllKinds(s1, pol, o);
      forall kind
        ensures RulesAfter(s, kind, pol, o, res.0)
      {
        assert RulesAfter(s1, kind, pol, o, RegisterAll(s1, KINDS, pol, o).0);
        assert s1.RulesFor(kind) == s.RulesFor(kind);
      }
      AllGivenAreWritten(o);
    }
  }

  /** When no value is a non-function, the loop writes the transform onto
      every function given. */
  lemma AllGivenAreWritten(o: RuleOptions)
    requires !o.insert.NotCallable? && !o.update.NotCallable? && !o.remove.NotCallable?
    ensures Written(o, KINDS) == o.Fns()
  {
    WrittenIsReached(o, KINDS);
    forall f | f in o.Fns()
      ensures f in Written(o, KINDS)
    {
      var j := if o.insert == Callable(f) then 0 else if o.update == Callable(f) then 1 else 2;
      assert o.SlotFor(KINDS[j]) == Callable(f);
      assert !Stops(o, KINDS[..j]) by {
        forall i | 0 <= i < j ensures !o.SlotFor(KINDS[..j][i]).NotCallable? {
          assert KINDS[..j][i] == KINDS[i];
        }
      }
    }
  }

  /** The projection is touched only when `update`, `remove` or `fetch` is
      given; a falsy `fetch` beside an update or remove validator makes every
      field needed. */
  lemma AddValidatorFetch(s: ContextState, pol: Polarity, o: RuleOptions)
    ensures var res := AddValidatorResult(s, pol, o);
      && (!o.update.IsTruthy() && !o.remove.IsTruthy() && !o.fetch.IsTruthy() ==>
            res.0.fetch == s.fetch && res.0.fetchAllFields == s.fetchAllFields)
      && (res.1.Done? && !o.fetch.IsTruthy() && (o.update.IsTruthy() || o.remove.IsTruthy()) ==>
            res.0.fetchAllFields)
  {
  }

  /**
   * `addValidator`: registers the validators of one `allow`/`deny` call on the
   * context of a collection (null when mutation methods were never defined).
   * The transform is written onto the function objects themselves, so every
   * list any of them is in, on any collection, sees the new transform.
   */
  method AddValidator(
    ctx: ValidationContext?, pol: Polarity, o: RuleOptions,
    collectionTransform: Option<Transform>, wrap: Transform -> Transform) returns (r: Outcome)
    modifies ctx, o.Fns()
    ensures ctx == null ==> r == Fail(PlainError(NO_METHODS))
    ensures ctx != null ==> (ctx.State(), r) == AddValidatorResult(old(ctx.State()), pol, o)
    ensures ctx != null ==> forall f :: f in Rewritten(o) ==> f.transform == RuleTransform(o, collectionTransform, wrap)
    ensures unchanged(o.Fns() - Rewritten(o))
    ensures ctx == null ==> unchanged(o.Fns())
  {
    if ctx == null {
      return Fail(PlainError(NO_METHODS));
    }
    var bad := InvalidKey(o.keys);
    if bad.Some? {
      return Fail(PlainError(pol.Name() + ": Invalid key: " + bad.value));
    }
    r := Register(ctx, pol, o, RuleTransform(o, collectionTransform, wrap));
  }

  /** `addValidator` past its key check: restrict the collection, register
      each kind's function with transform `t`, then check `fetch`. */
  method Register(ctx: ValidationContext, pol: Polarity, o: RuleOptions, t: Option<Transform>) returns (r: Outcome)
    requires InvalidKey(o.keys).None?
    modifies ctx, o.Fns()
    ensures (ctx.State(), r) == AddValidatorResult(old(ctx.State()), pol, o)
    ensures forall f :: f in Written(o, KINDS) ==> f.transform == t
    ensures unchanged(o.Fns() - Written(o, KINDS))
  {
    ctx.restricted := true;
    var e := RegisterKinds(ctx, pol, o, t);
    if e.Some? {
      return Fail(e.value);
    }
    r := CheckFetch(ctx, pol, o);
  }

  /** The `fetch` check and update that end `addValidator`. */
  method CheckFetch(ctx: ValidationContext, pol: Polarity, o: RuleOptions) returns (r: Outcome)
    modifies ctx
    ensures (ctx.State(), r) == FetchStep(old(ctx.State()), pol, o)
  {
    if o.update.IsTruthy() || o.remove.IsTruthy() || o.fetch.IsTruthy() {
      if o.fetch.FetchNotArray? {
        return Fail(PlainError(pol.Name() + ": Value for `fetch` must be an array"));
      }
      ctx.UpdateFetch(o.fetch.Argument());
    }
    r := Done;
  }

  /** One more kind of the loop: stopped stays stopped, otherwise one `RegisterSlot` step. */
  lemma RegisterAllStep(s: ContextState, pol: Polarity, o: RuleOptions, i: nat)
    requires i < |KINDS|
    ensures var r := RegisterAll(s, KINDS[..i], pol, o);
      RegisterAll(s, KINDS[..i + 1], pol, o) ==
        if r.1.Some? then r else RegisterSlot(r.0, KINDS[i], pol, o.SlotFor(KINDS[i]))
  {
    assert KINDS[..i + 1][..i] == KINDS[..i];
  }

  /** The `["insert", "update", "remove"].forEach` loop of `addValidator`:
      each function given gets the transform `t` and is pushed. */
  method RegisterKinds(ctx: ValidationContext, pol: Polarity, o: RuleOptions, t: Option<Transform>)
    returns (e: Option<Failure>)
    modifies ctx, o.Fns()
    ensures (ctx.State(), e) == RegisterAll(old(ctx.State()), KINDS, pol, o)
    ensures forall f :: f in Written(o, KINDS) ==> f.transform == t
    ensures unchanged(o.Fns() - Written(o, KINDS))
  {
    ghost var s1 := ctx.State();
    ghost var w: set<ValidatorFn> := {};
    var i := 0;
    while i < |KINDS|
      invariant 0 <= i <= |KINDS|
      invariant RegisterAll(s1, KINDS[..i], pol, o) == (ctx.State(), None)
      invariant w == Written(o, KINDS[..i])
      invariant forall f :: f in w ==> f.transform == t
      invariant unchanged(o.Fns() - w)
    {
      var slot := o.SlotFor(KINDS[i]);
      e := RegisterOne(ctx, KINDS[i], pol, slot, t);
      if e.Some? {
        RegisterStopsAt(s1, pol, o, i);
        return;
      }
      RegisterGoesOn(s1, pol, o, i);
      w := w + slot.Fns();
      i := i + 1;
    }
    assert KINDS[..|KINDS|] == KINDS;
    e := None;
  }

  /** The callback the loop runs for one kind: a value that is not a
      function throws; a function gets the transform and is pushed. */
  method RegisterOne(ctx: ValidationContext, kind: Kind, pol: Polarity, slot: Slot, t: Option<Transform>)
    returns (e: Option<Failure>)
    modifies ctx, slot.Fns()
    ensures (ctx.State(), e) == RegisterSlot(old(ctx.State()), kind, pol, slot)
    ensures slot.Callable? ==> slot.f.transform == t
  {
    if slot.NotCallable? {
      return Some(PlainError(pol.Name() + ": Value for `" + kind.Name() + "` must be a function"));
    }
    if slot.Callable? {
      slot.f.transform := t;
      ctx.Push(kind, pol, slot.f);
    }
    e := None;
  }

  /** The loop's exit on a value that is not a function: the lists as they
      were, the error, and no further transform written. */
  lemma RegisterStopsAt(s: ContextState, pol: Polarity, o: RuleOptions, i: nat)
    requires i < |KINDS| && RegisterAll(s, KINDS[..i], pol, o).1.None?
    requires o.SlotFor(KINDS[i]).NotCallable?
    ensures RegisterAll(s, KINDS, pol, o) ==
      (RegisterAll(s, KINDS[..i], pol, o).0,
       Some(PlainError(pol.Name() + ": Value for `" + KINDS[i].Name() + "` must be a function")))
    ensures Written(o, KINDS) == Written(o, KINDS[..i])
  {
    RegisterAllStep(s, pol, o, i);
    RegisterAllStops(s, KINDS, pol, o, i, |KINDS|);
    WrittenStops(o, i);
    assert KINDS[..|KINDS|] == KINDS;
  }

  /** The loop's step past a kind whose value is a function or falsy. */
  lemma RegisterGoesOn(s: ContextState, pol: Polarity, o: RuleOptions, i: nat)
    requires i < |KINDS| && RegisterAll(s, KINDS[..i], pol, o).1.None?
    requires !o.SlotFor(KINDS[i]).NotCallable?
    ensures RegisterAll(s, KINDS[..i + 1], pol, o) ==
      (RegisterSlot(RegisterAll(s, KINDS[..i], pol, o).0, KINDS[i], pol, o.SlotFor(KINDS[i])).0, None)
    ensures Written(o, KINDS[..i + 1]) == Written(o, KINDS[..i]) + o.SlotFor(KINDS[i]).Fns()
  {
    RegisterAllStep(s, pol, o, i);
    WrittenStep(o, i);
  }

  // ---------------------------------------------------------------------
  // The deny-then-allow decision

  /** What one validation hands to every validator, before each validator's
      own transform is applied to the document. */
  datatype Invocation =
    | InsertInvocation(userId: Option<string>, inserted: Doc, generatedId: Value)
    | UpdateInvocation(userId: Option<string>, doc: Value, fields: seq<string>, mutator: Mutator)
    | RemoveInvocation(userId: Option<string>, doc: Value)

  /** The arguments a validator whose transform is `t` is called with (insert
      uses the intended `docToValidate`). */
  function CallWith(inv: Invocation, t: Option<Transform>): ValidatorCall
  {
    match inv
    case InsertInvocation(u, doc, g) => InsertCall(u, DocToValidateIntended(t, doc, g))
    case UpdateInvocation(u, doc, fields, m) => UpdateCall(u, TransformDoc(t, doc), fields, m)
    case RemoveInvocation(u, doc) => RemoveCall(u, TransformDoc(t, doc))
  }

  /** Validator `v` returns true on the arguments built for it, with the
      transform its function object carries at the time of the call. */
  predicate Accepts(v: ValidatorFn, inv: Invocation)
    reads v
  {
    v.check(CallWith(inv, v.transform))
  }

  ghost predicate AnyAccepts(vs: seq<ValidatorFn>, inv: Invocation)
    reads vs
  {
    exists j :: 0 <= j < |vs| && Accepts(vs[j], inv)
  }

  /** The scan `vs.some(...)` performs from index `from`: the index of the
      first validator that returns true, if any. */
  function FirstAccepting(vs: seq<ValidatorFn>, inv: Invocation, from: nat): (r: Option<nat>)
    requires from <= |vs|
    reads vs
    ensures r.Some? ==>
      && from <= r.value < |vs|
      && Accepts(vs[r.value], inv)
      && forall j :: from <= j < r.value ==> !Accepts(vs[j], inv)
    ensures r.None? ==> forall j :: from <= j < |vs| ==> !Accepts(vs[j], inv)
    decreases |vs| - from
  {
    if from == |vs| then None
    else if Accepts(vs[from], inv) then Some(from)
    else FirstAccepting(vs, inv, from + 1)
  }

  /** A verdict and how many validator calls were made to reach it. */
  datatype Verdict<+T> = Verdict(result: Result<T>, consulted: nat)

  /**
   * The deny-then-allow rule shared by insert, update and remove: the deny
   * list is scanned until a validator returns true (denied); otherwise the
   * allow list is scanned until one returns true (allowed); when none does,
   * including when the allow list is empty, the call is denied.
   */
  function Decide(rules: Rules, inv: Invocation): (v: Verdict<()>)
    reads rules.allow, rules.deny
    ensures v.result.Ok? <==> !AnyAccepts(rules.deny, inv) && AnyAccepts(rules.allow, inv)
    ensures v.result.Err? ==> v.result.error == MeteorError(FORBIDDEN, ACCESS_DENIED)
    // The calls made: the deny validators up to the first that accepts; or all
    // of them, then the allow validators up to the first that accepts; or all.
    ensures var d := FirstAccepting(rules.deny, inv, 0);
      var a := FirstAccepting(rules.allow, inv, 0);
      v.consulted ==
        if d.Some? then d.value + 1
        else if a.Some? then |rules.deny| + a.value + 1
        else |rules.deny| + |rules.allow|
  {
    match FirstAccepting(rules.deny, inv, 0)
    case Some(k) => Verdict(Err(MeteorError(FORBIDDEN, ACCESS_DENIED)), k + 1)
    case None =>
      match FirstAccepting(rules.allow, inv, 0)
      case None => Verdict(Err(MeteorError(FORBIDDEN, ACCESS_DENIED)), |rules.deny| + |rules.allow|)
      case Some(k) => Verdict(Ok(()), |rules.deny| + k + 1)
  }

  // ---------------------------------------------------------------------
  // Insert

  /** The document property `_id`, `undefined` when absent. */
  function IdOf(doc: Doc): Value
  {
    if "_id" in doc then doc["_id"] else Undefined
  }

  /** The id generated before validation: a new id when the document has no
      truthy `_id`, otherwise `undefined`. */
  function GeneratedId(doc: Doc, newId: Value): (g: Value)
    ensures Truthy(IdOf(doc)) ==> g == Undefined
    ensures !Truthy(IdOf(doc)) ==> g == newId
  {
    if !Truthy(IdOf(doc)) then newId else Undefined
  }

  /**
   * `docToValidate` as written, for a validator whose transform is `t`: with a
   * transform it gets a copy of the document whose `_id` is overwritten with
   * the generated id whenever that id is not `null`, which includes `undefined`.
   */
  function DocToValidate(t: Option<Transform>, doc: Doc, generatedId: Value): (r: Value)
    ensures t.None? ==> r == Obj(doc)
    ensures t.Some? && generatedId != Null ==> r == t.value(Obj(doc["_id" := generatedId]))
  {
    if t.Some? then
      var copy := if generatedId != Null then doc["_id" := generatedId] else doc;
      t.value(Obj(copy))
    else Obj(doc)
  }

  /** As written, a transformed insert validator never sees the `_id` a
      document already carries: it is replaced by `undefined`. */
  lemma TransformedValidatorLosesId(t: Transform, doc: Doc, newId: Value)
    requires Truthy(IdOf(doc))
    ensures DocToValidate(Some(t), doc, GeneratedId(doc, newId)) == t(Obj(doc["_id" := Undefined]))
    ensures doc["_id" := Undefined] != doc
  {
    assert doc["_id" := Undefined]["_id"] == Undefined;
  }

  /** `docToValidate` as evidently intended: the generated id is written only
      when one was generated. */
  function DocToValidateIntended(t: Option<Transform>, doc: Doc, generatedId: Value): (r: Value)
    ensures t.None? ==> r == Obj(doc)
  {
    if t.Some? then
      var copy := if generatedId != Undefined && generatedId != Null then doc["_id" := generatedId] else doc;
      t.value(Obj(copy))
    else Obj(doc)
  }

  /** With the intended definition a transformed validator sees the document's
      own `_id` when it has one, and the new id otherwise. */
  lemma IntendedDocKeepsId(t: Transform, doc: Doc, newId: Value)
    requires newId != Undefined && newId != Null
    ensures Truthy(IdOf(doc)) ==>
      DocToValidateIntended(Some(t), doc, GeneratedId(doc, newId)) == t(Obj(doc))
    ensures !Truthy(IdOf(doc)) ==>
      DocToValidateIntended(Some(t), doc, GeneratedId(doc, newId)) == t(Obj(doc["_id" := newId]))
  {
  }

  /** The two definitions differ only when no id was generated: whenever one
      was, a transformed validator sees the same document under both. */
  lemma IntendedAgreesWhenGenerated(t: Option<Transform>, doc: Doc, generatedId: Value)
    requires generatedId != Undefined
    ensures DocToValidateIntended(t, doc, generatedId) == DocToValidate(t, doc, generatedId)
  {
  }

  /**
   * `validateInsert`: `newId` is what the collection's id generator returns
   * (drawn only when the document has no truthy `_id`). On success the
   * document to insert is returned.
   */
  function ValidateInsert(ctx: Option<ContextState>, doc: Doc, userId: Option<string>, newId: Value): (v: Verdict<Doc>)
    reads if ctx.Some? then ctx.value.insert.allow else [], if ctx.Some? then ctx.value.insert.deny else []
    ensures ctx.None? ==> v == Verdict(Err(PlainError(NO_RULES)), 0)
    ensures ctx.Some? ==>
      var inv := InsertInvocation(userId, doc, GeneratedId(doc, newId));
      && (v.result.Ok? <==> !AnyAccepts(ctx.value.insert.deny, inv) && AnyAccepts(ctx.value.insert.allow, inv))
      && (v.result.Err? ==> v.result.error == MeteorError(FORBIDDEN, ACCESS_DENIED))
    // Zero allow validators: always denied.
    ensures ctx.Some? && ctx.value.insert.allow == [] ==> v.result.Err?
    // A document that has an `_id` key keeps its own value.
    ensures v.result.Ok? && "_id" in doc ==> v.result.value == doc
    // A document without one gets the generated id, unless the generator returned null.
    ensures v.result.Ok? && "_id" !in doc ==>
      v.result.value == if newId != Null then doc["_id" := newId] else doc
  {
    match ctx
    case None => Verdict(Err(PlainError(NO_RULES)), 0)
    case Some(s) =>
      var generatedId := GeneratedId(doc, newId);
      var d := Decide(s.insert, InsertInvocation(userId, doc, generatedId));
      if d.result.Err? then Verdict(Err(d.result.error), d.consulted)
      else
        var out := if generatedId != Null then map["_id" := generatedId] + doc else doc;
        Verdict(Ok(out), d.consulted)
  }

  // ---------------------------------------------------------------------
  // Update

  /** JavaScript `s.indexOf(c)`: the first index of `c`, or -1. */
  function IndexOf(s: string, c: char): (r: int)
    ensures r == -1 <==> c !in s
    ensures r != -1 ==> 0 <= r < |s| && s[r] == c && c !in s[..r]
  {
    if s == [] then -1
    else if s[0] == c then 0
    else
      var k := IndexOf(s[1..], c);
      assert forall x :: x in s[1..] ==> x in s;
      if k == -1 then -1
      else
        assert s[..k + 1] == [s[0]] + s[1..][..k];
        k + 1
  }

  /** The top-level segment of a field path: the text before the first `.`. */
  function TopLevel(field: string): (r: string)
    ensures '.' !in r
    ensures |r| <= |field| && r == field[..|r|]
    ensures '.' !in field ==> r == field
    ensures '.' in field ==> |r| < |field| && field[|r|] == '.'
  {
    var k := IndexOf(field, '.');
    if k != -1 then field[..k] else field
  }

  function TopLevels(keys: seq<string>): (r: seq<string>)
    ensures |r| == |keys|
    ensures forall k :: 0 <= k < |keys| ==> r[k] == TopLevel(keys[k])
  {
    seq(|keys|, k requires 0 <= k < |keys| => TopLevel(keys[k]))
  }

  /** The top-level segments touched by all entries, in the order the walk
      assigns them. */
  function Touched(m: Mutator): seq<string>
    decreases |m|
  {
    if m == [] then [] else Touched(m[..|m| - 1]) + TopLevels(ArgKeys(m[|m| - 1].param))
  }

  /** Every segment touched is the top-level segment of an argument key of
      some entry, and every such segment is touched. */
  lemma {:induction false} TouchedElems(m: Mutator)
    ensures forall x :: x in Touched(m) <==> exists i :: 0 <= i < |m| && x in TopLevels(ArgKeys(m[i].param))
    decreases |m|
  {
    if m != [] {
      var p := m[..|m| - 1];
      TouchedElems(p);
      assert forall i :: 0 <= i < |p| ==> p[i] == m[i];
    }
  }

  predicate AllowedOperator(key: string)
  {
    |key| > 0 && key[0] == '$' && key in ALLOWED_OPERATORS
  }

  /** The error one modifier entry raises, if any: a key that is not an
      operator, then an operator outside the allow-list, then an argument
      `Object.keys` cannot take. */
  function EntryError(e: ModifierEntry): (r: Option<Failure>)
    ensures r.None? <==> AllowedOperator(e.key) && e.param.Fields?
    ensures |e.key| == 0 || e.key[0] != '$' ==> r == Some(MeteorError(FORBIDDEN, NO_REPLACE))
    ensures |e.key| > 0 && e.key[0] == '$' && e.key !in ALLOWED_OPERATORS ==>
      r == Some(MeteorError(FORBIDDEN, OperatorNotAllowed(e.key)))
    ensures AllowedOperator(e.key) && e.param.Nullish? ==> r == Some(TypeError(NULL_TO_OBJECT))
  {
    if |e.key| == 0 || e.key[0] != '$' then Some(MeteorError(FORBIDDEN, NO_REPLACE))
    else if e.key !in ALLOWED_OPERATORS then Some(MeteorError(FORBIDDEN, OperatorNotAllowed(e.key)))
    else if e.param.Nullish? then Some(TypeError(NULL_TO_OBJECT))
    else None
  }

  /** The error of the first offending modifier entry, scanning in order. */
  function FirstEntryError(m: Mutator): (r: Option<Failure>)
    ensures r.None? <==> forall i :: 0 <= i < |m| ==> EntryError(m[i]).None?
    ensures r.Some? ==> exists i :: (0 <= i < |m| && r == EntryError(m[i])
      && forall j :: 0 <= j < i ==> EntryError(m[j]).None?)
    decreases |m|
  {
    if m == [] then None
    else
      var p := m[..|m| - 1];
      assert forall i :: 0 <= i < |p| ==> p[i] == m[i];
      var e := FirstEntryError(p);
      if e.Some? then e else EntryError(m[|m| - 1])
  }

  /**
   * The modifier check of `validateUpdate` and the fields it reports: an empty
   * modifier or a non-operator key is a replacement (refused), an operator
   * outside the allow-list is refused, a `null` argument throws; otherwise
   * the keys of the object the top-level segments were assigned to
   * (`ModifiedFieldsKeys` states their order).
   */
  function ModifiedFields(m: Mutator): (r: Result<seq<string>>)
    ensures |m| == 0 ==> r == Err(MeteorError(FORBIDDEN, NO_REPLACE))
    ensures |m| > 0 && FirstEntryError(m).Some? ==> r == Err(FirstEntryError(m).value)
    ensures r.Ok? <==> |m| > 0 && forall i :: 0 <= i < |m| ==> EntryError(m[i]).None?
  {
    if |m| == 0 then Err(MeteorError(FORBIDDEN, NO_REPLACE))
    else match FirstEntryError(m)
      case Some(e) => Err(e)
      case None => Ok(AssignedKeys(Touched(m)))
  }

  /**
   * The fields validators receive, in `Object.keys` order of the object they
   * were assigned to: every top-level segment of an argument key except
   * `__proto__`, once each; array-index names first, ascending; then the
   * others in the order first touched.
   */
  lemma ModifiedFieldsKeys(m: Mutator)
    requires ModifiedFields(m).Ok?
    ensures var r := ModifiedFields(m).value;
      && NoDups(r)
      && (forall f :: f in r ==> '.' !in f)
      && (forall x :: x in r <==> (x != PROTO && exists i :: 0 <= i < |m| && x in TopLevels(ArgKeys(m[i].param))))
      && IndexKeysFirst(r)
      && Filter(IsNamedKey, r) == Filter(IsNamedKey, Dedup(Touched(m)))
  {
    AssignedKeysOrder(Touched(m));
    ModifiedFieldsElems(m);
  }

  /** The fields validators receive are the top-level segments of the
      argument keys, `__proto__` excepted. */
  lemma ModifiedFieldsElems(m: Mutator)
    requires ModifiedFields(m).Ok?
    ensures forall x :: x in ModifiedFields(m).value <==>
      (x != PROTO && exists i :: 0 <= i < |m| && x in TopLevels(ArgKeys(m[i].param)))
  {
    AssignedKeysElems(Touched(m));
    TouchedElems(m);
  }

  /** `transformDoc`: the validator's transform applied to the fetched document
      (which may be `null`), or the document itself. */
  function TransformDoc(t: Option<Transform>, doc: Value): (r: Value)
    ensures t.None? ==> r == doc
    ensures t.Some? ==> r == t.value(doc)
  {
    if t.Some? then t.value(doc) else doc
  }

  /** Once a document carries a truthy `_id`, an insert validator (with the
      intended `docToValidate`) sees it exactly as an update or remove
      validator with the same transform sees it. */
  lemma SameViewForEveryOperation(t: Option<Transform>, doc: Doc, newId: Value)
    requires Truthy(IdOf(doc))
    ensures DocToValidateIntended(t, doc, GeneratedId(doc, newId)) == TransformDoc(t, Obj(doc))
  {
  }

  /**
   * `validateUpdate` as one decision: the selector must be a single id, then
   * no upsert, then the modifier must be a well-formed, allowed update; only
   * then are validators consulted, with the modified top-level fields and
   * the whole modifier.
   */
  function UpdateVerdict(
    ctx: Option<ContextState>, selectorIsId: bool, m: Mutator, options: Option<Options>,
    userId: Option<string>, doc: Value): (v: Verdict<()>)
    reads if ctx.Some? then ctx.value.update.allow else [], if ctx.Some? then ctx.value.update.deny else []
    ensures ctx.None? ==> v == Verdict(Err(PlainError(NO_RULES)), 0)
    ensures ctx.Some? && !selectorIsId ==> v == Verdict(Err(PlainError(NOT_SINGLE_ID)), 0)
    ensures ctx.Some? && selectorIsId && Truthy(Get(options, "upsert")) ==>
      v == Verdict(Err(MeteorError(FORBIDDEN, NO_UPSERT)), 0)
    ensures ctx.Some? && selectorIsId && !Truthy(Get(options, "upsert")) && ModifiedFields(m).Err? ==>
      v == Verdict(Err(ModifiedFields(m).error), 0)
    // No validator runs before all the shape checks pass.
    ensures v.consulted > 0 ==>
      ctx.Some? && selectorIsId && !Truthy(Get(options, "upsert")) && ModifiedFields(m).Ok?
    ensures v.result.Ok? <==>
      && ctx.Some? && selectorIsId && !Truthy(Get(options, "upsert")) && ModifiedFields(m).Ok?
      && var inv := UpdateInvocation(userId, doc, ModifiedFields(m).value, m);
         !AnyAccepts(ctx.value.update.deny, inv) && AnyAccepts(ctx.value.update.allow, inv)
    // Zero allow validators: always denied.
    ensures ctx.Some? && ctx.value.update.allow == [] ==> v.result.Err?
  {
    if ctx.None? then Verdict(Err(PlainError(NO_RULES)), 0)
    else if !selectorIsId then Verdict(Err(PlainError(NOT_SINGLE_ID)), 0)
    else if Truthy(Get(options, "upsert")) then Verdict(Err(MeteorError(FORBIDDEN, NO_UPSERT)), 0)
    else match ModifiedFields(m)
      case Err(e) => Verdict(Err(e), 0)
      case Ok(fields) => Decide(ctx.value.update, UpdateInvocation(userId, doc, fields, m))
  }

  /** A later entry cannot change the error of an earlier offending entry. */
  lemma {:induction false} FirstErrorStays(m: Mutator, i: nat, k: nat)
    requires i < k <= |m|
    requires FirstEntryError(m[..i + 1]).Some?
    ensures FirstEntryError(m[..k]) == FirstEntryError(m[..i + 1])
    decreases k
  {
    if k > i + 1 {
      FirstErrorStays(m, i, k - 1);
      assert m[..k][..k - 1] == m[..k - 1];
    }
  }

  /**
   * `validateUpdate`: the shape checks in order, then the modifier walk, then
   * the validators.
   */
  method ValidateUpdate(
    ctx: Option<ContextState>, selectorIsId: bool, m: Mutator, options: Option<Options>,
    userId: Option<string>, doc: Value) returns (v: Verdict<()>)
    ensures v == UpdateVerdict(ctx, selectorIsId, m, options, userId, doc)
  {
    if ctx.None? {
      return Verdict(Err(PlainError(NO_RULES)), 0);
    }
    if !selectorIsId {
      return Verdict(Err(PlainError(NOT_SINGLE_ID)), 0);
    }
    if Truthy(Get(options, "upsert")) {
      return Verdict(Err(MeteorError(FORBIDDEN, NO_UPSERT)), 0);
    }
    var fields := CollectModifiedFields(m);
    if fields.Err? {
      return Verdict(Err(fields.error), 0);
    }
    v := Decide(ctx.value.update, UpdateInvocation(userId, doc, fields.value, m));
  }

  /**
   * The modifier walk of `validateUpdate`: refuses an empty modifier, then
   * visits the entries in order, refusing the first that is not an allowed
   * operator or whose argument is `null`, and assigning the top-level
   * segment of every argument key to the field object.
   */
  method CollectModifiedFields(m: Mutator) returns (r: Result<seq<string>>)
    ensures r == ModifiedFields(m)
  {
    if |m| == 0 {
      return Err(MeteorError(FORBIDDEN, NO_REPLACE));
    }
    var modified: seq<string> := [];
    var i := 0;
    while i < |m|
      invariant 0 <= i <= |m|
      invariant FirstEntryError(m[..i]).None?
      invariant modified == AssignedKeys(Touched(m[..i]))
    {
      var op := m[i].key;
      EntryErrorStays(m, i);
      if |op| == 0 || op[0] != '$' {
        return Err(MeteorError(FORBIDDEN, NO_REPLACE));
      }
      if op !in ALLOWED_OPERATORS {
        return Err(MeteorError(FORBIDDEN, OperatorNotAllowed(op)));
      }
      if m[i].param.Nullish? {
        return Err(TypeError(NULL_TO_OBJECT));
      }
      TouchedSnoc(m, i);
      modified := AddTopLevels(modified, Touched(m[..i]), ArgKeys(m[i].param));
      i := i + 1;
    }
    assert m[..|m|] == m;
    r := Ok(modified);
  }

  /** The walk's step at entry `i`: an offending entry decides the outcome,
      otherwise the walk goes on with one more entry accepted. */
  lemma EntryErrorStays(m: Mutator, i: nat)
    requires 0 < |m| && i < |m|
    requires FirstEntryError(m[..i]).None?
    ensures EntryError(m[i]).Some? ==> ModifiedFields(m) == Err(EntryError(m[i]).value)
    ensures EntryError(m[i]).None? ==> FirstEntryError(m[..i + 1]).None?
  {
    assert m[..i + 1][..i] == m[..i];
    assert FirstEntryError(m[..i + 1]) == EntryError(m[i]);
    if EntryError(m[i]).Some? {
      FirstErrorStays(m, i, |m|);
      assert m[..|m|] == m;
    }
  }

  lemma TouchedSnoc(m: Mutator, i: nat)
    requires i < |m|
    ensures Touched(m[..i + 1]) == Touched(m[..i]) + TopLevels(ArgKeys(m[i].param))
  {
    assert m[..i + 1][..i] == m[..i];
  }

  lemma TopLevelsSnoc(before: seq<string>, keys: seq<string>, j: nat)
    requires j < |keys|
    ensures before + TopLevels(keys[..j + 1]) == (before + TopLevels(keys[..j])) + [TopLevel(keys[j])]
  {
    assert TopLevels(keys[..j + 1]) == TopLevels(keys[..j]) + [TopLevel(keys[j])];
  }

  /** The inner loop over one operator's argument keys: each key is cut at
      its first `.` and assigned to the field object. */
  method AddTopLevels(modified: seq<string>, ghost before: seq<string>, keys: seq<string>) returns (r: seq<string>)
    requires modified == AssignedKeys(before)
    ensures r == AssignedKeys(before + TopLevels(keys))
  {
    r := modified;
    assert before + TopLevels(keys[..0]) == before;
    var j := 0;
    while j < |keys|
      invariant 0 <= j <= |keys|
      invariant r == AssignedKeys(before + TopLevels(keys[..j]))
    {
      var field := keys[j];
      var dot := IndexOf(field, '.');
      if dot != -1 {
        field := field[..dot];
      }
      assert field == TopLevel(keys[j]);
      TopLevelsSnoc(before, keys, j);
      AssignedKeysSnoc(before + TopLevels(keys[..j]), field);
      r := AssignKey(r, field);
      j := j + 1;
    }
    assert keys[..|keys|] == keys;
  }

  /** The field object of the walk for `{ $set: { b: 1 }, $inc: { "1": 2 } }`:
      `b` is assigned first, yet the array-index name `"1"` is listed first. */
  lemma IndexFieldListedFirst()
    ensures ModifiedFields([ModifierEntry("$set", Fields([("b", Num(1))])),
                            ModifierEntry("$inc", Fields([("1", Num(2))]))]) == Ok(["1", "b"])
  {
    var m := [ModifierEntry("$set", Fields([("b", Num(1))])), ModifierEntry("$inc", Fields([("1", Num(2))]))];
    assert EntryError(m[0]).None? && EntryError(m[1]).None?;
    assert FirstEntryError(m[..1]).None?;
    assert m[..|m| - 1] == m[..1];
    assert FirstEntryError(m).None?;
    assert ArgKeys(m[0].param) == ["b"] && ArgKeys(m[1].param) == ["1"];
    assert TopLevels(["b"]) == ["b"] && TopLevels(["1"]) == ["1"];
    assert m[..1][..0] == [];
    assert Touched(m[..1]) == ["b"];
    assert Touched(m) == ["b", "1"];
    IndexAssignedAfterNameListedFirst();
  }

  // ---------------------------------------------------------------------
  // Remove

  /** `validateDelete`: the deny-then-allow rule on the fetched document. */
  function ValidateDelete(ctx: Option<ContextState>, userId: Option<string>, doc: Value): (v: Verdict<()>)
    reads if ctx.Some? then ctx.value.remove.allow else [], if ctx.Some? then ctx.value.remove.deny else []
    ensures ctx.None? ==> v == Verdict(Err(PlainError(NO_RULES)), 0)
    ensures ctx.Some? ==>
      var inv := RemoveInvocation(userId, doc);
      && (v.result.Ok? <==> !AnyAccepts(ctx.value.remove.deny, inv) && AnyAccepts(ctx.value.remove.allow, inv))
      && (v.result.Err? ==> v.result.error == MeteorError(FORBIDDEN, ACCESS_DENIED))
    ensures ctx.Some? && ctx.value.remove.allow == [] ==> v.result.Err?
  {
    match ctx
    case None => Verdict(Err(PlainError(NO_RULES)), 0)
    case Some(s) => Decide(s.remove, RemoveInvocation(userId, doc))
  }

  /** The `restricted` flag is written by registration but read by no
      decision: flipping it changes no verdict. */
  lemma RestrictedIsNeverRead(s: ContextState, b: bool, doc: Doc, d: Value, userId: Option<string>, newId: Value,
                              selectorIsId: bool, m: Mutator, options: Option<Options>)
    ensures ValidateInsert(Some(s.(restricted := b)), doc, userId, newId) == ValidateInsert(Some(s), doc, userId, newId)
    ensures UpdateVerdict(Some(s.(restricted := b)), selectorIsId, m, options, userId, d)
      == UpdateVerdict(Some(s), selectorIsId, m, options, userId, d)
    ensures ValidateDelete(Some(s.(restricted := b)), userId, d) == ValidateDelete(Some(s), userId, d)
  {
  }
}
