/**
 * The Meteor-compatible hooked collection: id generation, the option bags it
 * builds for the underlying hooked collection, the allow/deny wiring and the
 * three `before` hooks that run the validation engine for untrusted calls.
 *
 * The underlying hooked collection, the backing driver and Meteor's method
 * transport are not part of this model; `isServer` stands for
 * `Meteor.isServer` (and its negation for `Meteor.isClient`).
 */
module Collection {
  import opened Common
  import opened Validation

  // ---------------------------------------------------------------------
  // Id generation

  /** Where random ids are drawn from: the per-collection seeded stream, or
      the insecure generator when the collection has no name. */
  datatype RandomSource = Stream(seed: string) | Insecure

  /** The random generator, as a parameter: `id()` and `hexString(24)` per source. */
  datatype Randomness = Randomness(id: RandomSource -> string, hex24: RandomSource -> string)

  /** The id generators a collection can use. */
  datatype IdGenerator = StringIds | ObjectIds | Custom(f: string -> Value)

  /** The `idGeneration` constructor option. */
  datatype IdGenerationOption = DefaultGeneration | Named(name: string) | Function(f: string -> Value)

  const UNRECOGNIZED_ID_GENERATION := "Unrecognized ID generation"

  /** The source the built-in generators draw from for collection `name`. */
  function IdSource(name: string): (r: RandomSource)
    ensures name != "" <==> r.Stream?
    ensures r.Stream? ==> r.seed == "/collection/" + name
  {
    if name != "" then Stream("/collection/" + name) else Insecure
  }

  /** The generator selected by the `idGeneration` option; an unknown name is refused. */
  function ChooseIdGeneration(opt: IdGenerationOption): (r: Result<IdGenerator>)
    ensures r.Err? <==> opt.Named? && opt.name != "STRING" && opt.name != "MONGO"
    ensures r.Err? ==> r.error == PlainError(UNRECOGNIZED_ID_GENERATION)
    ensures opt.DefaultGeneration? || opt == Named("STRING") ==> r == Ok(StringIds)
    ensures opt == Named("MONGO") ==> r == Ok(ObjectIds)
    ensures opt.Function? ==> r == Ok(Custom(opt.f))
  {
    match opt
    case DefaultGeneration => Ok(StringIds)
    case Named(n) =>
      if n == "STRING" then Ok(StringIds)
      else if n == "MONGO" then Ok(ObjectIds)
      else Err(PlainError(UNRECOGNIZED_ID_GENERATION))
    case Function(f) => Ok(Custom(f))
  }

  /** `_makeNewID` for a collection called `name`. */
  function NewId(gen: IdGenerator, name: string, rng: Randomness): (r: Value)
    ensures gen.StringIds? ==> r.Str? && r.s == rng.id(IdSource(name))
    ensures gen.ObjectIds? ==> r.ObjectId? && r.hex == rng.hex24(IdSource(name))
    ensures gen.Custom? ==> r == gen.f(name)
  {
    match gen
    case StringIds => Str(rng.id(IdSource(name)))
    case ObjectIds => ObjectId(rng.hex24(IdSource(name)))
    case Custom(f) => f(name)
  }

  /** Distinct named collections draw from distinct seeded streams, so the
      streams of two collections never interleave; only unnamed collections
      share a source, the insecure one. */
  lemma {:induction false} DistinctNamesDistinctStreams(a: string, b: string)
    ensures IdSource(a) == IdSource(b) ==> a == b
  {
    if IdSource(a) == IdSource(b) && a != "" {
      var prefix := "/collection/";
      assert a == (prefix + a)[|prefix|..];
      assert b == (prefix + b)[|prefix|..];
    }
  }

  // ---------------------------------------------------------------------
  // Option bags

  /** `alreadyInSimulation()`: `enclosing && enclosing.isSimulation`, which
      need not be a boolean. */
  function AlreadyInSimulation(enclosing: Value, isSimulation: Value): (r: Value)
    ensures !Truthy(enclosing) ==> r == enclosing
    ensures Truthy(enclosing) ==> r == isSimulation
  {
    if Truthy(enclosing) then isSimulation else enclosing
  }

  /** `Meteor.isClient && alreadyInSimulation()`. */
  function InSimulationDefault(isServer: bool, alreadyInSimulation: Value): (r: Value)
    ensures isServer ==> r == Bool(false)
    ensures !isServer ==> r == alreadyInSimulation
  {
    if !isServer then alreadyInSimulation else Bool(false)
  }

  /** The options `insertOne` passes on: `inSimulation` defaults, the caller's options win. */
  function InsertCallOptions(options: Option<Options>, isServer: bool, alreadyInSimulation: Value): (r: Options)
    ensures r.Keys == Spread(options).Keys + {"inSimulation"}
    ensures forall k :: k in Spread(options) ==> r[k] == Spread(options)[k]
    ensures "inSimulation" !in Spread(options) ==> r["inSimulation"] == InSimulationDefault(isServer, alreadyInSimulation)
  {
    map["inSimulation" := InSimulationDefault(isServer, alreadyInSimulation)] + Spread(options)
  }

  /** The options `deleteOne` (and `updateOne`, once past its upsert guard) pass on: `alwaysAttemptOperation`
      and `inSimulation` default, the caller's options win. */
  function MutationCallOptions(options: Option<Options>, isServer: bool, alreadyInSimulation: Value): (r: Options)
    ensures r.Keys == Spread(options).Keys + {"alwaysAttemptOperation", "inSimulation"}
    ensures forall k :: k in Spread(options) ==> r[k] == Spread(options)[k]
    ensures "alwaysAttemptOperation" !in Spread(options) ==> r["alwaysAttemptOperation"] == Bool(!isServer)
    ensures "inSimulation" !in Spread(options) ==> r["inSimulation"] == InSimulationDefault(isServer, alreadyInSimulation)
  {
    map["alwaysAttemptOperation" := Bool(!isServer), "inSimulation" := InSimulationDefault(isServer, alreadyInSimulation)]
      + Spread(options)
  }

  /** `findOne` options: a copy of the caller's, with `projection` taken from a truthy `fields`. */
  function FindOneOptions(options: Option<Options>): (r: Options)
    ensures Truthy(Get(options, "fields")) ==> r == Spread(options)["projection" := Get(options, "fields")]
    ensures !Truthy(Get(options, "fields")) ==> r == Spread(options)
  {
    var copy := Spread(options);
    if "fields" in copy && Truthy(copy["fields"]) then copy["projection" := copy["fields"]] else copy
  }

  /** `find` options: the caller's, with the collection's driver and the collection
      itself written over any caller values, then `projection` from a truthy `fields`. */
  function FindOptions(options: Option<Options>, driver: Value, self: Value): (r: Options)
    ensures "_driver" in r && r["_driver"] == driver
    ensures "_collection" in r && r["_collection"] == self
    ensures Truthy(Get(options, "fields")) ==> "projection" in r && r["projection"] == Get(options, "fields")
    // Every other caller option is kept, `projection` included when `fields` is falsy.
    ensures forall k ::
      (k in Spread(options) && k != "_driver" && k != "_collection" &&
       (k == "projection" ==> !Truthy(Get(options, "fields")))) ==>
      k in r && r[k] == Spread(options)[k]
    ensures r.Keys == Spread(options).Keys + {"_driver", "_collection"} +
      (if Truthy(Get(options, "fields")) then {"projection"} else {})
  {
    var bag := Spread(options)["_driver" := driver]["_collection" := self];
    if "fields" in bag && Truthy(bag["fields"]) then bag["projection" := bag["fields"]] else bag
  }

  /** The user id a hook passes to the validators: `Meteor.userId() || undefined`. */
  function CallerId(raw: Option<string>): (r: Option<string>)
    ensures r.Some? <==> raw.Some? && raw.value != ""
    ensures r.Some? ==> r == raw
  {
    if raw.Some? && raw.value != "" then raw else None
  }

  // ---------------------------------------------------------------------
  // The `before` hooks installed on the server

  /** Whether a call came from an untrusted client: `options?.isInsecure`. */
  predicate Untrusted(options: Option<Options>)
  {
    Truthy(Get(options, "isInsecure"))
  }

  /** The `shouldRun` predicate of the update and delete hooks: `options?.isInsecure || false`. */
  function ShouldRun(options: Option<Options>): (r: Value)
    ensures Truthy(r) <==> Untrusted(options)
    ensures !Untrusted(options) ==> r == Bool(false)
  {
    Or(Get(options, "isInsecure"), Bool(false))
  }

  /**
   * The `before.insertOne` hook: a trusted call is left alone (None); an
   * untrusted one is validated and, when allowed, passes on its original
   * arguments; when refused, the validation error is thrown.
   */
  function BeforeInsertOne(
    ctx: Option<ContextState>, doc: Doc, options: Option<Options>,
    userId: Option<string>, newId: Value): (r: Result<Option<(Doc, Option<Options>)>>)
    reads if ctx.Some? then ctx.value.insert.allow else [], if ctx.Some? then ctx.value.insert.deny else []
    ensures !Untrusted(options) ==> r == Ok(None)
    ensures Untrusted(options) ==>
      && (r.Ok? <==> ValidateInsert(ctx, doc, CallerId(userId), newId).result.Ok?)
      && (r.Ok? ==> r.value == Some((doc, options)))
      && (r.Err? ==> r.error == ValidateInsert(ctx, doc, CallerId(userId), newId).result.error)
  {
    if !Untrusted(options) then Ok(None)
    else
      var v := ValidateInsert(ctx, doc, CallerId(userId), newId);
      if v.result.Err? then Err(v.result.error) else Ok(Some((doc, options)))
  }

  /** The `before.update` hook: trusted calls pass; untrusted ones are refused
      with the validation error or pass. */
  method BeforeUpdate(
    ctx: Option<ContextState>, selectorIsId: bool, m: Mutator, options: Option<Options>,
    userId: Option<string>, doc: Value) returns (r: Outcome)
    ensures !Untrusted(options) ==> r == Done
    ensures Untrusted(options) ==>
      var v := UpdateVerdict(ctx, selectorIsId, m, options, CallerId(userId), doc);
      (r == Done <==> v.result.Ok?) && (r.Fail? ==> r.error == v.result.error)
  {
    if !Untrusted(options) {
      return Done;
    }
    var v := ValidateUpdate(ctx, selectorIsId, m, options, CallerId(userId), doc);
    r := if v.result.Err? then Fail(v.result.error) else Done;
  }

  /** The `before.delete` hook. */
  function BeforeDelete(ctx: Option<ContextState>, options: Option<Options>, userId: Option<string>, doc: Value): (r: Outcome)
    reads if ctx.Some? then ctx.value.remove.allow else [], if ctx.Some? then ctx.value.remove.deny else []
    ensures !Untrusted(options) ==> r == Done
    ensures Untrusted(options) ==>
      var v := ValidateDelete(ctx, CallerId(userId), doc);
      (r == Done <==> v.result.Ok?) && (r.Fail? ==> r.error == v.result.error)
  {
    if !Untrusted(options) then Done
    else
      var v := ValidateDelete(ctx, CallerId(userId), doc);
      if v.result.Err? then Fail(v.result.error) else Done
  }

  /** Every call arriving through a registered remote method is untrusted,
      whatever options the caller sent, so the hooks always validate it. */
  lemma RemoteCallsAreValidated(options: Option<Options>, isClient: bool, isServer: bool, alreadyInSimulation: Value)
    ensures Untrusted(Some(InsertCallOptions(Some(MethodCallOptions(options, isClient)), isServer, alreadyInSimulation)))
    ensures Untrusted(Some(MutationCallOptions(Some(MethodCallOptions(options, isClient)), isServer, alreadyInSimulation)))
    ensures Truthy(ShouldRun(Some(MutationCallOptions(Some(MethodCallOptions(options, isClient)), isServer, alreadyInSimulation))))
  {
    var m := MethodCallOptions(options, isClient);
    assert "isInsecure" in Spread(Some(m));
    assert InsertCallOptions(Some(m), isServer, alreadyInSimulation)["isInsecure"] == Bool(true);
    assert MutationCallOptions(Some(m), isServer, alreadyInSimulation)["isInsecure"] == Bool(true);
  }

  /** A call from trusted code without `isInsecure` is never refused by the
      hooks, whatever the allow/deny rules say. */
  lemma TrustedCallsBypassRules(ctx: Option<ContextState>, doc: Doc, options: Option<Options>, userId: Option<string>, newId: Value, d: Value)
    requires !Untrusted(options)
    ensures BeforeInsertOne(ctx, doc, options, userId, newId) == Ok(None)
    ensures BeforeDelete(ctx, options, userId, d) == Done
    ensures ShouldRun(options) == Bool(false)
  {
  }

  /** On the server `insertOne` has already given the document a truthy `_id`
      when the insert hook runs, so the hook validates with no generated id and
      the document it would return is the one it was given. */
  lemma ServerInsertHookKeepsDoc(ctx: Option<ContextState>, doc: Doc, userId: Option<string>, newId: Value)
    requires Truthy(IdOf(doc))
    ensures GeneratedId(doc, newId) == Undefined
    ensures ValidateInsert(ctx, doc, userId, newId).result.Ok? ==>
      ValidateInsert(ctx, doc, userId, newId).result.value == doc
  {
  }

  // ---------------------------------------------------------------------
  // The collection

  /** A caller-owned document object, which `insertOne` updates in place. */
  class DocRef {
    var fields: Doc

    constructor (fields: Doc)
      ensures this.fields == fields
    {
      this.fields := fields;
    }
  }

  const UPSERT_NOT_SUPPORTED := "Upsert not supported on the client"

  /** The `defineMutationMethods` constructor option: defaults to true. */
  predicate ShouldDefineMutationMethods(v: Value)
  {
    v == Undefined || Truthy(v)
  }

  /** The constructor options the model keeps. */
  datatype CollectionOptions = CollectionOptions(
    transform: Option<Transform>,
    defineMutationMethods: Value,
    idGeneration: IdGenerationOption,
    driver: Value)

  class MeteorHookedCollection {
    const name: string
    const idGeneration: IdGenerator
    const transform: Option<Transform>
    const driver: Value
    /** Whether the three allow/deny `before` hooks were installed. */
    var hooksInstalled: bool

    constructor (name: string, idGeneration: IdGenerator, transform: Option<Transform>, driver: Value)
      ensures this.name == name && this.idGeneration == idGeneration
      ensures this.transform == transform && this.driver == driver
      ensures !hooksInstalled
    {
      this.name := name;
      this.idGeneration := idGeneration;
      this.transform := transform;
      this.driver := driver;
      hooksInstalled := false;
    }

    /**
     * The collection constructor: refuses an unknown id-generation name; then,
     * unless told not to, creates the collection's validation context and its
     * remote methods and, on the server only, installs the `before` hooks.
     */
    static method New(name: string, opts: CollectionOptions, registry: Registry, isServer: bool)
      returns (r: Result<MeteorHookedCollection>)
      modifies registry
      ensures ChooseIdGeneration(opts.idGeneration).Err? ==>
        r == Err(PlainError(UNRECOGNIZED_ID_GENERATION)) && unchanged(registry)
      ensures ChooseIdGeneration(opts.idGeneration).Ok? ==> r.Ok? && fresh(r.value)
      ensures r.Ok? ==>
        var c := r.value;
        && c.name == name
        && c.idGeneration == ChooseIdGeneration(opts.idGeneration).value
        && c.transform == opts.transform
        && c.driver == opts.driver
        && c.hooksInstalled == (isServer && ShouldDefineMutationMethods(opts.defineMutationMethods))
        && (ShouldDefineMutationMethods(opts.defineMutationMethods) ==>
              && c in registry.contexts
              && fresh(registry.contexts[c])
              && registry.contexts[c].State() == INITIAL
              && registry.contexts == old(registry.contexts)[c := registry.contexts[c]]
              && registry.methods == old(registry.methods) + MutationMethodNames(name))
        && (!ShouldDefineMutationMethods(opts.defineMutationMethods) ==> unchanged(registry))
    {
      var gen := ChooseIdGeneration(opts.idGeneration);
      if gen.Err? {
        return Err(gen.error);
      }
      var c := new MeteorHookedCollection(name, gen.value, opts.transform, opts.driver);
      if ShouldDefineMutationMethods(opts.defineMutationMethods) {
        var defined := registry.DefineMutationMethods(c, name);
        assert c !in old(registry.contexts);
        if isServer {
          c.hooksInstalled := true;
        }
      }
      r := Ok(c);
    }

    /** `_makeNewID`. */
    function MakeNewId(rng: Randomness): Value
    {
      NewId(idGeneration, name, rng)
    }

    /** `allow(options)` / `deny(options)`: registers validators on this
        collection's context, with the collection transform as the default.
        The functions given are shared objects: their new transform is seen
        wherever else they were registered. */
    method AddRules(registry: Registry, pol: Polarity, o: RuleOptions, wrap: Transform -> Transform)
      returns (r: Outcome)
      modifies registry.Lookup(this), o.Fns()
      ensures registry.Lookup(this) == null ==> r == Fail(PlainError(NO_METHODS))
      ensures registry.Lookup(this) != null ==>
        var ctx := registry.Lookup(this);
        (ctx.State(), r) == AddValidatorResult(old(ctx.State()), pol, o)
      ensures registry.Lookup(this) != null ==>
        forall f :: f in Rewritten(o) ==> f.transform == RuleTransform(o, transform, wrap)
      ensures unchanged(o.Fns() - Rewritten(o))
      ensures registry.Lookup(this) == null ==> unchanged(o.Fns())
    {
      r := AddValidator(registry.Lookup(this), pol, o, transform, wrap);
    }

    /**
     * `insertOne`: on the server a document without a truthy `_id` gets a new
     * id written into it before anything else runs; the options passed on
     * default `inSimulation`.
     */
    method InsertOne(doc: DocRef, options: Option<Options>, isServer: bool, alreadyInSimulation: Value, rng: Randomness)
      returns (callOptions: Options)
      modifies doc
      ensures callOptions == InsertCallOptions(options, isServer, alreadyInSimulation)
      ensures !Truthy(IdOf(old(doc.fields))) && isServer ==>
        doc.fields == old(doc.fields)["_id" := MakeNewId(rng)]
      ensures Truthy(IdOf(old(doc.fields))) || !isServer ==> doc.fields == old(doc.fields)
      // On the server the document reaches the hooks with a truthy `_id`
      // whenever it had one or the generator produced one.
      ensures isServer && Truthy(MakeNewId(rng)) ==> Truthy(IdOf(doc.fields))
    {
      callOptions := InsertCallOptions(options, isServer, alreadyInSimulation);
      if !Truthy(IdOf(doc.fields)) && isServer {
        doc.fields := doc.fields["_id" := MakeNewId(rng)];
      }
    }

    /** `updateOne`: an upsert is refused (on the server too, despite the
        message); otherwise the options passed on. */
    function UpdateOne(options: Option<Options>, isServer: bool, alreadyInSimulation: Value): (r: Result<Options>)
      ensures r.Err? <==> Truthy(Get(options, "upsert"))
      ensures r.Err? ==> r.error == PlainError(UPSERT_NOT_SUPPORTED)
      ensures r.Ok? ==> r.value == MutationCallOptions(options, isServer, alreadyInSimulation)
    {
      if Truthy(Get(options, "upsert")) then Err(PlainError(UPSERT_NOT_SUPPORTED))
      else Ok(MutationCallOptions(options, isServer, alreadyInSimulation))
    }
  }
}
