# meteor-mongo-collection-hooks: a Dafny model of the core

This project models the core of `meteor-mongo-collection-hooks`. The package makes a hooked MongoDB
collection behave like a Meteor collection, in six parts:

- **The allow/deny engine** (`validation.dfy`, module `Validation`).
  - Each collection has a validation context, created once, when its remote mutation methods are defined.
  - `allow`/`deny` calls register validators into it.
  - It keeps a projection accumulator: the fields update and remove validators need.
  - It decides insert, update and remove calls from untrusted clients: deny validators first, then allow validators.
  - Update shape checks come first: single-id selector, no upsert, an operator-only modifier, allowed operators.
- **The collection** (`collection.dfy`, module `Collection`).
  - Choosing the id generator.
  - The option bags handed to the underlying hooked collection.
  - The three `before` hooks that run the engine for untrusted calls, and the server-side `_id` assignment in `insertOne`.
- **Redis propagation** (`redis.dfy`, module `Redis`).
  - The channel names a write is announced on.
  - For every written document and channel: the emitted event, and for optimistic writes the immediate local processing of the same event.
  - The ids and fields the `after` hooks announce.
- **The shared find cursor** (`find_cursor.dfy`, module `FindCursors`): the options it keeps, the description that identifies its query, `countAsync` options, the sync-iterator guard and stacked `map` transforms.
- **The server cursor** (`server_cursor.dfy`, module `ServerCursors`): the collection guard, and the `observeChanges` configuration. That covers driver precedence, the redis-oplog checks, the lazily created shared subscription manager, the `ordered` default and `clone`.
- **The client cursor** (`client_cursor.dfy`, module `ClientCursors`): `next` as a state machine over a position and a live iterator, `fetch`/`toArray` from the current position, and composed `map` transforms.

`common.dfy` (module `Common`) holds the JavaScript vocabulary the model needs:

- values and truthiness;
- `||` and `o?.k`;
- object spread (a right-biased map union);
- the two exception kinds;
- insertion-ordered de-duplication, which is what `Array.from(new Set(...))` gives;
- the order in which `Object.keys` lists the keys assigned to a plain object: array-index keys first, in ascending numeric order, then the others in order of first assignment, and never `__proto__`, whose assignment creates no own key.

Validators are function objects (`Validation.ValidatorFn`): a pure check plus a mutable `transform` property. Registration writes the transform onto the object itself, so an object registered on several collections, or for several kinds, carries the transform of its latest registration everywhere. Transforms are modelled as arbitrary pure functions. Objects the code holds but never inspects, such as drivers, classes and collections, are opaque `Handle` values.

Notable behaviours of the code that the model keeps:

- **Zero allow validators:** a call is denied whether or not the collection is `restricted`. The `restricted` flag is written but never read (`Validation.RestrictedIsNeverRead`).
- **Server-side id:** on the server, `insertOne` gives a document without a truthy `_id` a new id before any hook runs (`Collection.MeteorHookedCollection.InsertOne`). The id is therefore committed before authorization, not after.
- **Partial registration:** a failed `allow`/`deny` call keeps what it did before the failing check (`Validation.AddValidatorResult`). That can mean validators already pushed and the context already restricted.
- **`updateOne` upsert:** refused on the server too, although the message says "on the client".
- **Field order:** update validators receive the modified fields in `Object.keys` order, so `{ $set: { b: 1 }, $inc: { "1": 2 } }` gives `["1", "b"]` although `b` is touched first (`Validation.IndexFieldListedFirst`), and a `__proto__` field is never reported.
- **`null` operator arguments:** `{ $set: null }` makes `Object.keys` throw a `TypeError` during the update walk and in the redis `after` hooks, rather than a 403.
- **Shared validator objects:** registering a function already registered elsewhere overwrites the transform it runs with there too; `transform: null` makes it run with no transform.

## Model

| member | source | states |
|---|---|---|
| Common.Dedup | src/server/redis.ts:158 | `Array.from` of a `Set` filled in order holds every element exactly once, nothing else, and is no longer than its input |
| Common.DedupPrefix | src/lib/validation.ts:73-76 | adding more names never reorders or drops the names already collected: the old result is a prefix of the new one |
| Common.DedupOfNoDups | src/lib/validation.ts:74-76 | a list without duplicates passes through the `Set` unchanged |
| Common.AssignedKeysOrder | src/lib/validation.ts:186-212 | the keys of an object after a run of assignments: every assigned key except `__proto__`, once each; array indices first, strictly ascending by value; the other keys in order of first assignment |
| Common.IndexAssignedAfterNameListedFirst | src/lib/validation.ts:208-212 | assigning `b` and then `"1"` lists `"1"` before `"b"` |
| Common.InsertIndexOrdered | src/lib/validation.ts:208-212 | a new array-index key joins the leading index keys at its numeric place, keeping them strictly ascending |
| Common.DecimalInjective | src/lib/validation.ts:208-212 | two canonical decimal keys with the same value are the same key, so ascending order among index keys is strict |
| Common.ApplyAllAppend | src/lib/cursor.ts:139-143 | mapping with one batch of `map` transforms and then another is mapping with both batches, in call order |
| Validation.FetchUpdated | src/lib/validation.ts:71-83 | once all fields are needed nothing changes; a field list merges into the projection as a duplicate-free set union that keeps the old names first; `undefined` switches to all fields and drops the list |
| Validation.AllFieldsIsFinal | src/lib/validation.ts:71-83 | once all fields are needed, no sequence of `updateFetch` calls changes the context again |
| Validation.FetchOnlyGrows | src/lib/validation.ts:71-83 | across any sequence of `updateFetch` calls, a name once in the projection stays there unless the context switches to all fields |
| Validation.ValidationContext.constructor | src/lib/validation.ts:35-48 | a new context is unrestricted, has no validators, an empty fetch list and is not in all-fields mode |
| Validation.ValidatorFn.constructor | src/lib/validation.ts:310-323 | a validator function object starts with its check and no transform property |
| Validation.ValidationContext.UpdateFetch | src/lib/validation.ts:65-84 | the context after `updateFetch` is exactly `FetchUpdated` of the context before |
| Validation.AddNew | src/lib/validation.ts:73-76 | adding names one at a time to a `Set` that holds the de-duplicated old list gives the de-duplicated concatenation |
| Validation.ValidationContext.Push | src/lib/validation.ts:323 | the validator is appended to the list of its kind and polarity; every other list is unchanged |
| Validation.MutationMethodNamesScoped | src/lib/validation.ts:273-286 | a collection registers three distinct remote methods, all under `/<collection name>/` |
| Validation.MethodCallOptions | src/lib/validation.ts:276-284 | a remote method passes the caller's options with `isInsecure: true` and `inSimulation` (true on the client) written last, so the caller cannot override them; every other option is kept |
| Validation.Registry.Lookup | src/lib/validation.ts:12 | a collection has a context exactly when one was registered for it, and then it is that one |
| Validation.Registry.DefineMutationMethods | src/lib/validation.ts:263-272 | a second definition fails with "Can't redefine mutation methods" and changes nothing; the first one registers a fresh initial context and the three method names and leaves the other contexts alone |
| Validation.GetProjection | src/lib/validation.ts:50-63 | no context is an error; all-fields mode gives `{}`; otherwise the projection maps exactly the fetched names to 1, except `__proto__`, whose assignment sets no key |
| Validation.InvalidKey | src/lib/validation.ts:301-306 | no key is reported exactly when every option key is one of `insert`, `update`, `remove`, `fetch`, `transform`; otherwise the reported key is the first option key outside that list, all keys before it being valid |
| Validation.RegisterSlot | src/lib/validation.ts:311-324 | one kind's option fails exactly when it is truthy but not a function; a function object is appended to its kind's list under the call's polarity; the other kinds' lists are untouched |
| Validation.RuleTransform | src/lib/validation.ts:316-321 | `transform` absent gives the collection's transform; `transform: null` (or another falsy value) gives none, so the validator sees untransformed documents; a given transform is wrapped |
| Validation.RegisterAll | src/lib/validation.ts:310-325 | the registration loop fails exactly when some kind's option is truthy but not a function; only the three lists change; kinds outside the loop are untouched |
| Validation.RegisterAllStops | src/lib/validation.ts:310-325 | once a non-function option stops the loop, the later kinds change nothing |
| Validation.RegisterAllKinds | src/lib/validation.ts:310-325 | a successful pass appends each given function to its own kind's list exactly once |
| Validation.Written | src/lib/validation.ts:310-321 | the function objects whose transform the loop overwrites are among the ones given |
| Validation.WrittenIsReached | src/lib/validation.ts:310-321 | the transform lands on exactly the function objects given for the kinds the loop reaches before a non-function option stops it |
| Validation.AllGivenAreWritten | src/lib/validation.ts:310-321 | when no option is a non-function, every function object given has its transform overwritten |
| Validation.RegisterKinds | src/lib/validation.ts:310-325 | the in-place registration loop leaves the context and the outcome exactly as `RegisterAll` over insert, update, remove says; every function object it reaches now carries the transform `t`, and no other function object given changes |
| Validation.RegisterOne | src/lib/validation.ts:311-324 | one kind: a non-function fails with "<allow/deny>: Value for `<kind>` must be a function"; a function object gets the transform written onto it and is pushed |
| Validation.RegisterStopsAt | src/lib/validation.ts:312-314 | a non-function at kind i ends the loop with its error, keeping what was pushed before and writing no later transform |
| Validation.RegisterGoesOn | src/lib/validation.ts:311-323 | past a function or a falsy option the loop's state is one `RegisterSlot` step further, and the written set grows by that kind's function |
| Validation.AddValidatorRefusals | src/lib/validation.ts:301-329 | an unknown key fails with "<allow/deny>: Invalid key: k" before anything changes; past that check the collection is restricted even if a later check fails; a non-function validator or a non-array `fetch` makes the call fail |
| Validation.AddValidatorSuccess | src/lib/validation.ts:301-331 | a call succeeds exactly when every key is valid, no kind's option is a non-function, and `fetch`, when consulted, is not a truthy non-array; then every function object given is appended once to its own list under the call's polarity, nothing else is appended, and every one of them had its transform overwritten |
| Validation.AddValidatorFetch | src/lib/validation.ts:326-331 | the projection is left alone unless `update`, `remove` or `fetch` is given; a successful call with `update` or `remove` and no truthy `fetch` (absent included) switches to all fields |
| Validation.AddValidator | src/lib/validation.ts:291-332 | without a context the call fails with "Can't specify allow/deny rules on a collection with no methods" and no function object given changes; otherwise the new context state and the outcome are those of `AddValidatorResult`; every function object reached carries the call's transform (seen by every list holding it, on any collection), and no other function object given changes |
| Validation.Register | src/lib/validation.ts:307-331 | past the key check: the state and outcome of `AddValidatorResult`, the transform on every function reached, nothing else given changed |
| Validation.CheckFetch | src/lib/validation.ts:326-331 | the `fetch` check and projection update that end `addValidator` |
| Validation.FirstAccepting | src/lib/validation.ts:121-127 | the `some`/`every` scan finds the first validator that returns true, and none before it does; finding none means none does |
| Validation.Decide | src/lib/validation.ts:119-127 | a call is allowed exactly when no deny validator returns true and some allow validator does; otherwise it fails with 403 "Access denied"; exactly the deny validators up to the first that returns true are run, or all of them and then the allow validators up to the first that returns true, or all; each runs with the transform its function object carries at the time |
| Validation.GeneratedId | src/lib/validation.ts:115-118 | a new id is drawn exactly when the document has no truthy `_id`; otherwise the generated id is `undefined` |
| Validation.DocToValidate | src/lib/validation.ts:86-96 | as written: a validator without a transform sees the document; one with a transform sees the transformed copy with `_id` set to the generated id whenever that id is not `null` |
| Validation.TransformedValidatorLosesId | src/lib/validation.ts:86-96 | as written, a transformed insert validator given a document with a truthy `_id` sees `_id: undefined` in place of it |
| Validation.DocToValidateIntended | src/lib/validation.ts:86-96 | a validator without a transform sees the document itself |
| Validation.IntendedDocKeepsId | src/lib/validation.ts:86-96 | with the correction, a transformed validator sees the document's own `_id` when it has one and the new id otherwise |
| Validation.IntendedAgreesWhenGenerated | src/lib/validation.ts:86-96 | the correction changes nothing whenever an id was generated |
| Validation.ValidateInsert | src/lib/validation.ts:105-135 | (validators see documents through the corrected `docToValidate`, see Findings) no context is an error; allowed exactly when no deny and some allow validator accepts; otherwise 403; zero allow validators always deny; the returned document keeps its own `_id` key when present and otherwise gains the generated id |
| Validation.SameViewForEveryOperation | src/lib/validation.ts:86-103 | `transformDoc` on a fetched document shows a validator what the corrected insert path shows it for a document with a truthy `_id`: the transform of the document, or the document itself |
| Validation.IndexOf | src/lib/validation.ts:203-204 | `indexOf` is -1 exactly when the character is absent; otherwise it is its first position |
| Validation.TopLevel | src/lib/validation.ts:203-205 | a field path is cut before its first `.`: the result is a dot-free prefix, the whole path when it has no dot |
| Validation.EntryError | src/lib/validation.ts:193-200 | a modifier entry raises no error exactly when its key is an allowed operator and its argument is an object; a key not starting with `$` raises the 403 no-replace error; an unknown `$` operator raises 403 "Operator <op> not allowed"; a `null`/`undefined` argument of an allowed operator makes `Object.keys` throw a `TypeError` |
| Validation.FirstEntryError | src/lib/validation.ts:191-199 | there is no error exactly when every entry is an allowed operator with an object argument; otherwise it is the error of the first entry that raises one |
| Validation.FirstErrorStays | src/lib/validation.ts:191-199 | keys after the first offending one cannot change the error raised |
| Validation.ModifiedFields | src/lib/validation.ts:183-212 | an empty modifier is a refused replacement; otherwise the error is that of the first offending entry; the walk succeeds exactly when the modifier is non-empty and every entry is an allowed operator with an object argument |
| Validation.ModifiedFieldsKeys | src/lib/validation.ts:200-212 | the fields validators receive are duplicate-free and dot-free, are exactly the top-level segments of the argument keys other than `__proto__`, list array-index names first in ascending order, and the other names in order of first touch |
| Validation.IndexFieldListedFirst | src/lib/validation.ts:200-212 | `{ $set: { b: 1 }, $inc: { "1": 2 } }` gives validators the fields `["1", "b"]`: the field assigned second is listed first because it is an array index |
| Validation.TouchedElems | src/lib/validation.ts:191-210 | a name is touched by the walk exactly when it is the top-level segment of some argument key of some operator |
| Validation.CollectModifiedFields | src/lib/validation.ts:183-212 | the nested `forEach` walk, assigning into the field object, computes exactly `ModifiedFields`, errors included |
| Validation.AddTopLevels | src/lib/validation.ts:200-209 | the inner loop leaves the field object's keys as assigning each key's top-level segment in turn gives |
| Validation.UpdateVerdict | src/lib/validation.ts:153-234 | checks run in order: context, single-id selector, upsert (403), modifier shape; no validator runs before all shape checks pass; allowed exactly when the shape is valid, no deny accepts and some allow accepts; zero allow validators always deny |
| Validation.ValidateUpdate | src/lib/validation.ts:153-234 | the imperative `validateUpdate` computes exactly `UpdateVerdict` |
| Validation.ValidateDelete | src/lib/validation.ts:236-261 | no context is an error; allowed exactly when no deny and some allow validator accepts the transformed fetched document; otherwise 403; zero allow validators always deny |
| Validation.RestrictedIsNeverRead | src/lib/validation.ts:307 | the `restricted` flag changes no insert, update or remove verdict |
| Collection.IdSource | src/lib/collection.ts:54-70 | a named collection draws ids from the stream seeded `/collection/<name>`; an unnamed one from the insecure generator |
| Collection.DistinctNamesDistinctStreams | src/lib/collection.ts:54-70 | two collections draw from the same source only when they have the same name |
| Collection.ChooseIdGeneration | src/lib/collection.ts:122-133 | `STRING` or nothing gives string ids; `MONGO` gives object ids; a function is used as is; any other name fails with "Unrecognized ID generation" |
| Collection.NewId | src/lib/collection.ts:241-243 | string ids are the random stream's `id()`; object ids wrap its 24-hex string; a custom generator is called with the collection name |
| Collection.AlreadyInSimulation | src/lib/collection.ts:41-52 | without an enclosing invocation the result is that falsy value; with one, its `isSimulation` |
| Collection.InSimulationDefault | src/lib/collection.ts:247 | the `inSimulation` default is false on the server and the enclosing simulation flag on the client |
| Collection.InsertCallOptions | src/lib/collection.ts:245-249 | `insertOne` passes on the caller's options unchanged plus an `inSimulation` default used only when the caller gave none |
| Collection.MutationCallOptions | src/lib/collection.ts:256-263 | `deleteOne` (and `updateOne`) pass on the caller's options unchanged plus `alwaysAttemptOperation` (true on the client) and `inSimulation` defaults used only when absent |
| Collection.FindOneOptions | src/lib/collection.ts:211-219 | `findOne` copies the options and sets `projection` from a truthy `fields` |
| Collection.FindOptions | src/lib/collection.ts:221-231 | `find` always passes the collection's driver and the collection itself, overriding the caller; `projection` comes from a truthy `fields`, and otherwise the caller's own `projection` is kept; every other option is kept and nothing else is added |
| Collection.CallerId | src/lib/collection.ts:163 | the user id passed to validators is absent exactly when there is none or it is empty |
| Collection.ShouldRun | src/lib/collection.ts:181-184 | the update and delete hooks run exactly for untrusted calls, and report `false` otherwise |
| Collection.BeforeInsertOne | src/lib/collection.ts:156-168 | a trusted call is left alone; an untrusted one succeeds exactly when insert validation does, and then returns its original arguments, discarding the document `validateInsert` returned; a refusal carries the validation error |
| Collection.BeforeUpdate | src/lib/collection.ts:170-186 | trusted calls pass; an untrusted call passes exactly when update validation allows it and otherwise fails with its error |
| Collection.BeforeDelete | src/lib/collection.ts:188-204 | trusted calls pass; an untrusted call passes exactly when delete validation allows it and otherwise fails with its error |
| Collection.RemoteCallsAreValidated | src/lib/collection.ts:160-183 | whatever options a remote caller sends, the call arrives untrusted, so every hook validates it |
| Collection.TrustedCallsBypassRules | src/lib/collection.ts:160-162 | a call without `isInsecure` is never refused by the hooks, whatever the rules |
| Collection.ServerInsertHookKeepsDoc | src/lib/collection.ts:250-252 | on the server the document already has a truthy `_id` when the hook runs, so no id is generated and the validated document is the one given |
| Collection.MeteorHookedCollection.New | src/lib/collection.ts:106-139 | an unknown id-generation name fails before anything is registered; otherwise the collection keeps its name, generator, transform and driver; unless `defineMutationMethods` is falsy, a fresh initial context and the three methods are registered for it; the hooks are installed on the server only |
| Collection.MeteorHookedCollection.AddRules | src/lib/collection.ts:233-239 | `allow`/`deny` register on the collection's own context with the collection transform as the default; a collection without a context (mutation methods never defined) fails and no function object given changes; the function objects reached carry the new transform everywhere they are registered, and no other one given changes |
| Collection.MeteorHookedCollection.InsertOne | src/lib/collection.ts:245-254 | on the server a document without a truthy `_id` gets a new id written into it, and nothing else changes; so on the server it reaches the hooks with a truthy `_id` whenever the generator returns one; options are the `insertOne` bag |
| Collection.MeteorHookedCollection.UpdateOne | src/lib/collection.ts:266-277 | fails exactly when `upsert` is truthy, whatever the side; otherwise passes on the mutation option bag |
| Redis.ChannelsFor | src/server/redis.ts:21-43 | there is always a channel; explicit channels, when any, are the whole answer; otherwise the collection channel followed by one `channel::id` per document id |
| Redis.Explicit | src/server/redis.ts:22-35 | the explicit channels: one for a non-empty `channel`, one per `channels` entry, one for a non-empty `namespace`, one per `namespaces` entry; none exactly when no option contributes one; `channel` comes first |
| Redis.DefaultChannelOnlyWithoutExplicit | src/server/redis.ts:36-41 | options naming no channel give the collection channel and the document's channel; a channel option makes the document ids irrelevant |
| Redis.GetChannels | src/server/redis.ts:21-43 | the step-by-step push computes exactly `ChannelsFor` |
| Redis.AppendNamespaced | src/server/redis.ts:33-35 | the loop appends the namespaced channels in order |
| Redis.AppendPerDocument | src/server/redis.ts:38-40 | the loop appends the per-document channels in order |
| Redis.Fanout | src/server/redis.ts:49-58 | one emit per channel, plus one local processing per channel when optimistic; every call carries the same event |
| Redis.EmitAll | src/server/redis.ts:49-58 | the inner loop makes exactly the `Fanout` calls |
| Redis.HandleRemove | src/server/redis.ts:45-61 | the calls are exactly the remove plan: per document, its channels, in order |
| Redis.HandleUpdate | src/server/redis.ts:63-80 | the calls are exactly the update plan with the given fields |
| Redis.HandleInserts | src/server/redis.ts:82-104 | no calls when `pushToRedis` is explicitly false; otherwise exactly the insert plan, without per-document channels |
| Redis.FanoutMembers | src/server/redis.ts:49-58 | an event is emitted on every channel and processed locally on every channel exactly when optimistic, and nothing else happens |
| Redis.PlanMembers | src/server/redis.ts:45-104 | a handler makes a call exactly when it belongs to one of the documents' fan-outs |
| Redis.PlanUid | src/server/redis.ts:48-53 | every event carries no uid when optimistic and the manager's uid otherwise; local processing happens only when optimistic; the event is of the handler's kind and about one of its documents |
| Redis.FanoutProcessFollowsEmit | src/server/redis.ts:55-58 | a local processing comes right after the emit of the same event on the same channel |
| Redis.PlanProcessFollowsEmit | src/server/redis.ts:46-59 | across a whole handler, every local processing comes right after the emit of the same event on the same channel |
| Redis.InsertedIdsOne | src/server/redis.ts:114-121 | nothing is announced on a non-bulk error; a bulk-write error's ids are announced; otherwise the truthy inserted id |
| Redis.InsertedIdsMany | src/server/redis.ts:129-136 | nothing is announced on a non-bulk error; a bulk-write error's ids, otherwise the inserted ids |
| Redis.ParamKeys | src/server/redis.ts:158 | exactly the argument keys of the modifier's operators |
| Redis.UpdatedFields | src/server/redis.ts:158 | a `null`/`undefined` operator argument makes `Object.keys` throw a `TypeError`; otherwise the announced fields are every argument key, whole, once each |
| Redis.UpdatedFieldsGrow | src/server/redis.ts:158 | a later operator never reorders or drops the fields announced for earlier ones |
| Redis.AfterUpdate | src/server/redis.ts:154-169 | the `after.updateOne`/`after.updateMany` hooks throw the `TypeError` of a `null` argument, or make exactly the update plan with the announced fields |
| Redis.AnnouncedFieldsAreValidated | src/server/redis.ts:158 | for any modifier the validators accept, each announced path whose top-level segment is not `__proto__` has that segment among the validated fields |
| Redis.ValidatedFieldsAreAnnounced | src/server/redis.ts:158 | for any modifier the validators accept, each validated field is the top-level segment of an announced path |
| Redis.AnnouncedFieldsKeepPaths | src/server/redis.ts:158 | `{ $set: { "a.b": 1 } }` announces the whole path `a.b` |
| Redis.DottedPathValidatedAsTopLevel | src/lib/validation.ts:203-209 | the same modifier shows validators only the top-level segment `a` |
| FindCursors.CursorOptionsOf | src/lib/cursor.ts:52-58 | skip, limit, sort and `disableOplog` come from the `find` options; `fields` wins over `projection` when truthy |
| FindCursors.DescriptionOf | src/lib/cursor.ts:61-71 | a description holds the filter and the skip, limit, projection and sort kept from the `find` options |
| FindCursors.FindCursor.constructor | src/lib/cursor.ts:40-59 | the cursor keeps its filter, underlying cursor and options; its transform is the given one or the identity; no `map` yet |
| FindCursors.FindCursor.CursorDescription | src/lib/cursor.ts:61-71 | the description depends on the filter and the `find` options only |
| FindCursors.FindCursor.CountOptions | src/lib/cursor.ts:114-116 | `countAsync` counts with skip and limit exactly when asked, else with no options |
| FindCursors.FindCursor.SyncIterator | src/lib/cursor.ts:150-152 | synchronous iteration always fails with "You can't use sync iterator" |
| FindCursors.FindCursor.Map | src/lib/cursor.ts:139-148 | `map(t)` makes the map transform `t` after all earlier ones |
| ServerCursors.ObserveError | src/server/cursor.ts:110-132 | a projection with `_id: false` or `_id: 0` is refused first; then, on the redis path only, an uninitialised pub/sub manager |
| ServerCursors.DriverClassFor | src/server/cursor.ts:113-124 | the caller's driver class wins, then the cursor's; on the redis path only the redis driver is the last resort, so there is always one |
| ServerCursors.OrderedFlag | src/server/cursor.ts:149 | `ordered` is truthy exactly when the caller's is, and `false` otherwise |
| ServerCursors.ServerFindCursor.New | src/server/cursor.ts:49-61 | fails with "Must provide a collection" exactly when the `find` options carry no truthy `_collection`; otherwise a fresh cursor holding that collection and driver class, with no `map` yet |
| ServerCursors.ServerFindCursor.ObserveChanges | src/server/cursor.ts:105-158 | refuses exactly as `ObserveError` says, touching nothing; the driver, transform, `ordered` and multiplexer key are as above; on the redis path the shared subscription manager is created once and reused afterwards; off it there is none |
| ServerCursors.ServerFindCursor.Clone | src/server/cursor.ts:164-170 | the clone is fresh, over the cloned underlying cursor, with the same filter, options, collection and description, and no `map` transforms |
| ServerCursors.SameQuerySameKey | src/server/cursor.ts:144-147 | cursors over the same filter and `find` options share a multiplexer key, whatever their transforms |
| ClientCursors.RemainingStep | src/client/mongoCursor.ts:20-44 | one step on drops exactly the first remaining document |
| ClientCursors.ClientCursor.constructor | src/client/mongoCursor.ts:5-10 | a new cursor has the identity transform, position 0 and no iterator |
| ClientCursors.ClientCursor.Options | src/client/mongoCursor.ts:12-18 | skip and limit come from the minimongo cursor; `fields` defaults to `{}`, so it is always truthy |
| ClientCursors.ClientCursor.Fetch | src/client/mongoCursor.ts:38-44 | `fetch`/`toArray` give the results from the current position on, through the current map transform |
| ClientCursors.ClientCursor.Next | src/client/mongoCursor.ts:20-33 | yields the documents in order, untransformed, advancing the position by one; at the end yields null, resets position and iterator, and a later call restarts from the first document; `fetch` afterwards loses exactly the yielded document |
| ClientCursors.ClientCursor.Map | src/client/mongoCursor.ts:50-60 | returns the same cursor; afterwards every fetched document is `t` of what was fetched before |

## Left out

- Meteor's method transport: `connection.methods` registration, `check`/`Match` argument checks, `Meteor.userId()` (a parameter), DDP invocation lookup (`alreadyInSimulation`'s inputs are parameters).
- The underlying hooked collection and cursor (`mongo-collection-hooks`): hook ordering, `getDocument`, the hooks' `projection` option, `super.map`, `count`, `toArray`, `forEach`. Their results are parameters or are not modelled.
- The backing collection and driver (`getBackingCollection`, `MongoInternals`): opaque values.
- Randomness (`DDP.randomStream`, `Random.insecure`, `Mongo.ObjectID`): a `Randomness` parameter.
- `EJSON.clone`, `equals` and `stringify`: the multiplexer key is kept as the namespace and the description rather than as a string.
- The observer machinery (`observeChanges`, `observeFromObserveChanges`, drivers, multiplexer, `_publishCursor`, `observe`): an external package.
- Minimongo's matcher, sorter and projection compiler.
- Whether a cursor can use redis-oplog (`canUseRedisOplog`) and the package's configuration: the `RedisEnv` parameter.
- The redis transport (`Vent.emit`, `RedisSubscriptionManager.process`, `OptimisticInvocation`): recorded as the ordered list of calls a handler makes.
- The write fence read by `handleInserts`: it has no effect.
- The registration of the six `after` hooks in `applyRedis`: modelled through the ids and fields each one derives and the handler it calls.
- `LocalCollection._selectorIsIdPerhapsAsObject`: a boolean parameter of update validation.
- `LocalCollection.wrapTransform`: the `wrap` parameter.
- Numbers are integers: floating-point values in option bags and projections are not modelled.
- Delegating members with no logic of their own: the `_ensureIndex`, `_name` and `_transform` getters, `getTransform`, the server `fetch`, `forEachAsync`, `mapAsync`, `fetchAsync`, and the client `count`, `observe` and `observeChanges`.
- The client cursor's `forEach`: it calls `slice` on the minimongo cursor itself rather than on its fetched results, and it skips the map transforms. Its behaviour depends on the minimongo cursor, which is not part of this model.
- `src/server/subManager.ts` is not part of this model; its module-level slot is the `SubManagerSlot` class.
- The `insecure` flag and the dummy `upsert` validator lists of a context: no code reads them.
- Validation.ValidationContext.UpdateFetch: the "no allow/deny rules" error for a missing context is not modelled, because the method belongs to the context; its only caller, `addValidator`, checks for the context first.
- ServerCursors.ServerFindCursor.Clone: the clone's transform is stated equal to the original's pointwise rather than as the same function object, because the identity transform is created anew for each cursor.
- FindCursors.FindCursor.Map and ClientCursors.ClientCursor.Map: a map transform is stated pointwise (its value on every document), not as function identity.
- Validation.DocToValidateIntended: its contract covers only validators without a transform; the transformed case is stated by `IntendedDocKeepsId`.
- Concurrency: hooks and handlers run to completion one at a time.
- ClientCursors.ClientCursor.Next and ClientCursors.ClientCursor.Fetch: the minimongo result set is assumed unchanged between calls. `next` iterates a snapshot while `fetch`/`toArray` run the query again, so after a local write `slice(#i)` need not drop exactly the documents `next` yielded.
- Operator arguments that are primitives other than `null`/`undefined` (`{ $inc: 5 }`): `Object.keys` of such a value lists no keys (or a string's indices); an argument is modelled as an object or as `null`/`undefined`.
- `LocalCollection.wrapTransform` itself: a truthy transform is passed through the `wrap` parameter; a falsy one yields no transform.

## Findings

| source | as written | input that shows it | evidently intended | confidence | as-written member | corrected member |
|---|---|---|---|---|---|---|
| src/lib/validation.ts:90-92 | `generatedId !== null` also holds when no id was generated (`undefined`), so the copy handed to a transformed insert validator gets `_id: undefined` | a document `{ _id: "a" }` inserted by an untrusted client on the server, with an insert validator that has a transform: the transform receives `{ _id: undefined }` (always so on the server, where `insertOne` assigns `_id` first) | write `_id` only when an id was generated, so the validator sees the document's own `_id` | high; not executed | Validation.TransformedValidatorLosesId | Validation.IntendedDocKeepsId |
