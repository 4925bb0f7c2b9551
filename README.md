# DanmakuCraft2 core, modelled in Dafny

DanmakuCraft2 is a browser game in which bullet comments ("danmaku") are
placed in a large toroidal world. This project models the layer of the
client that stores entities and wires systems to them, a few small stateful
game rules, and the codec that hides a comment's position in its text:

- **Entity storages** (`EntityFinder`, `GlobalEntityStorage`,
  `QuadtreeEntityStorage`, `SetContainer`). A storage is a set that
  dispatches change events, and a change event is never empty.
- **Pipeline wiring** (`EntityTrackerBuilder`, `TrackerBuilderWrapper`,
  `VisibilityBuilderLanguage`, `Lifting`, `SystemEnginesEngine`,
  `EngineCap`). These builders group systems per finder, and the fluent
  clause languages issue builder calls. A lift turns a per-entity system
  into a system over regions. The engines run their begin hooks in order
  and their end hooks in reverse.
- **Stateful systems** (`CollisionDetectionSystem`,
  `BlinkCachedDisplaySystem`, `ChestSystem`, `Comment`). These are the
  region set queried for collisions, the display system that dispatches on
  blink state, the chest spawner's timer and flag, and the comment entity
  that switches between coherent and decoherent.
- **Buffs** (`BuffDataContainer`, `Chromatic`, `BuffDescription`,
  `Texts`). These are a capped FIFO, a bouncing colour channel, and text
  lookups that can throw.
- **Codec and small pure pieces** (`CommentDataUtil`, `Response`,
  `PhysicalConstants`). These cover the comment metadata codec with its
  JavaScript int32 hash, the server reply discriminator, and the render
  radius.

Each source class whose fields change becomes a Dafny `class` with methods
that carry `modifies` clauses. Each such method is specified against a pure
function of the old state, and lemmas speak about those functions. Pure
code becomes functions and lemmas. Thrown exceptions become a `Result` or
an `Outcome` that carries an `Error(kind, message)`. A JavaScript `Set`
becomes a sequence with no duplicates, kept in insertion order, which is
the Set's iteration order.

Collaborators whose code is not part of this model become function-typed
parameters or call logs. These are the quadtree, `Distance`,
`validateRadius`, the entity tracker and the visibility engine builder, the
entity manager, `Blink`, Phaser's text bounds, and the law's random
strategies. A value that a strategy's `next()` would return reaches the
model as a method parameter. `space.dfy` and `base.dfy` hold the shared
vocabulary: points, regions, `Option`, `Result`, and sequence helpers for
sets.

## Model

Small helpers carry contracts of their own but no row, because they state facts about sequences or maps, not about the source: `EntityTrackerBuilder.FindersOf`, `EntityTrackerBuilder.UpdateTwice`, `GlobalEntityStorage.FirstIndex`, `PhysicalConstants.Max`, `SystemEnginesEngine.CallsAppend` and `SystemEnginesEngine.Regroup`.

| member | source | states |
|---|---|---|
| EntityFinder.NewStateChanged | client/src/util/entityStorage/EntityFinder.ts:29-35 | Construction throws a TypeError exactly when both lists are empty. The removed list defaults to empty. An accepted event holds exactly the two lists it was given. |
| EntityFinder.OneArgumentNeedsRegistered | client/src/util/entityStorage/EntityFinder.ts:29-34 | With the removed list left to its default, the event is accepted iff some entity is registered, and its removed list is empty. |
| EntityFinder.AcceptedIffNonEmpty | client/src/util/entityStorage/EntityFinder.ts:29-34 | Construction accepts an event iff it is non-empty, and then it lists the given entities. |
| GlobalEntityStorage.Around | client/src/util/entityStorage/GlobalEntityStorage.ts:26-34 | The filtered list holds stored entities that pass the display-or-coordinates closeness test, and every stored entity that passes is in it. |
| GlobalEntityStorage.NewEntitiesProperties | client/src/util/entityStorage/GlobalEntityStorage.ts:46-56 | A batch adds only entities not already stored, each once, in batch order. After the batch, every batch entity is in the Set. |
| GlobalEntityStorage.NewEntitiesOfStored | client/src/util/entityStorage/GlobalEntityStorage.ts:46-56 | A batch made only of stored entities adds nothing. |
| GlobalEntityStorage.GlobalEntityStorage.constructor | client/src/util/entityStorage/GlobalEntityStorage.ts:12-15 | A storage over the given Set, with no events dispatched. |
| GlobalEntityStorage.GlobalEntityStorage.Create | client/src/util/entityStorage/GlobalEntityStorage.ts:17-19 | A fresh storage over an empty Set. |
| GlobalEntityStorage.GlobalEntityStorage.ListAround | client/src/util/entityStorage/GlobalEntityStorage.ts:21-35 | A zero radius gives nothing. Any other radius gives exactly the stored entities that pass the closeness test. |
| GlobalEntityStorage.GlobalEntityStorage.Elements | client/src/util/entityStorage/GlobalEntityStorage.ts:68-70 | Iteration yields each stored entity exactly once. |
| GlobalEntityStorage.GlobalEntityStorage.Register | client/src/util/entityStorage/GlobalEntityStorage.ts:37-44 | A stored entity changes nothing and dispatches nothing. A new one is appended and dispatches exactly `StateChanged([e], [])`. |
| GlobalEntityStorage.GlobalEntityStorage.RegisterBatch | client/src/util/entityStorage/GlobalEntityStorage.ts:46-56 | The new entities are appended once each, in input order. One event lists them, or there is no event when nothing was new. |
| GlobalEntityStorage.GlobalEntityStorage.Deregister | client/src/util/entityStorage/GlobalEntityStorage.ts:58-66 | An absent entity is logged, and the Set and the events stay unchanged. A present one is removed and dispatches exactly `StateChanged([], [e])`. |
| GlobalEntityStorage.RegisterThenDeregister | client/src/util/entityStorage/GlobalEntityStorage.ts:37-66 | Registering a new entity and then deregistering it restores the Set. |
| QuadtreeEntityStorage.FlattenChunksEmpty | client/src/util/entityStorage/QuadtreeEntityStorage.ts:51-52 | The flattened entity list is empty exactly when every chunk is empty. |
| QuadtreeEntityStorage.SignalsShape | client/src/util/entityStorage/QuadtreeEntityStorage.ts:53-58 | Each signal fires at most once, only with a non-empty list, and the registered signal comes before the deregistered one. |
| QuadtreeEntityStorage.NoSignalsForEmptyChunks | client/src/util/entityStorage/QuadtreeEntityStorage.ts:53-58 | A tree update that reports only empty chunks fires nothing. |
| QuadtreeEntityStorage.QuadtreeEntityStorage.constructor | client/src/util/entityStorage/QuadtreeEntityStorage.ts:14-18 | A storage over the given tree, with no signals fired. |
| QuadtreeEntityStorage.QuadtreeEntityStorage.ListAround | client/src/util/entityStorage/QuadtreeEntityStorage.ts:27-32 | An error from `validateRadius` propagates. Otherwise the result is the tree's answer for the rectangle inflated from the coordinates by the radius. |
| QuadtreeEntityStorage.QuadtreeEntityStorage.Elements | client/src/util/entityStorage/QuadtreeEntityStorage.ts:46-48 | Iteration yields exactly the tree's contents. |
| QuadtreeEntityStorage.QuadtreeEntityStorage.Register | client/src/util/entityStorage/QuadtreeEntityStorage.ts:34-36 | One `add` on the tree; its chunks drive the signals. |
| QuadtreeEntityStorage.QuadtreeEntityStorage.RegisterBatch | client/src/util/entityStorage/QuadtreeEntityStorage.ts:38-40 | One `addBatch` on the tree; its chunks drive the signals. |
| QuadtreeEntityStorage.QuadtreeEntityStorage.Deregister | client/src/util/entityStorage/QuadtreeEntityStorage.ts:42-44 | One `remove` on the tree; its chunks drive the signals. |
| QuadtreeEntityStorage.QuadtreeEntityStorage.DispatchUpdatesOfChunks | client/src/util/entityStorage/QuadtreeEntityStorage.ts:50-59 | Exactly one tree mutation, followed by the signals of its reported chunks. |
| SetContainer.Empty | client/src/util/entityStorage/chunk/SetContainer.ts:5 | A new container holds no values. |
| SetContainer.Add | client/src/util/entityStorage/chunk/SetContainer.ts:8-13 | The result holds the old values plus the item, each once. The receiver is a value and is not changed. |
| SetContainer.Count | client/src/util/entityStorage/chunk/SetContainer.ts:15-17 | The count is the size of the Set of stored values. |
| SetContainer.DistinctCardinality | client/src/util/entityStorage/chunk/SetContainer.ts:15-17 | A list without repeats has as many elements as the set of its elements, so the list's length is the Set's size. |
| SetContainer.Elements | client/src/util/entityStorage/chunk/SetContainer.ts:19-21 | Iteration yields exactly the stored values, each once, as many as `count`. |
| SetContainer.EmptyCount | client/src/util/entityStorage/chunk/SetContainer.ts:5-17 | A default container has count 0. |
| SetContainer.AddCount | client/src/util/entityStorage/chunk/SetContainer.ts:8-17 | The count grows by one exactly when the item was absent, and is unchanged otherwise. |
| SetContainer.AddIdempotent | client/src/util/entityStorage/chunk/SetContainer.ts:8-13 | Adding an item twice is adding it once. |
| SetContainer.AddAll | client/src/util/entityStorage/chunk/SetContainer.ts:8-13 | A container built by adds holds exactly the added items, each once. |
| EntityTrackerBuilder.ApplyEffect | src/update/EntityTrackerBuilder.ts:19-27 | One call keeps the Map well formed and the finisher fixed. It appends the system to the end of that finder's existence list or tick list only, through the record builder (:66-74). A new finder is put last in the Map, a known one keeps the order. Other finders' record builders are untouched. |
| EntityTrackerBuilder.ReplayOrder | src/update/EntityTrackerBuilder.ts:42-53 | After any calls on any given Map, the Map holds its original keys, then each new finder once, in first-use order. The finisher is unchanged. |
| EntityTrackerBuilder.ReplayFinisher | src/update/EntityTrackerBuilder.ts:12-27 | No call changes the builder's finisher. |
| EntityTrackerBuilder.ReplayRecord | src/update/EntityTrackerBuilder.ts:19-27 | After any calls, each finder's record builder is the one it started with, or a new empty one with the builder's finisher (:47-50). The systems applied to that finder are appended to it, each list in application order, as the record builder pushes them (:66-74). |
| EntityTrackerBuilder.BuildFailsIffNoCalls | src/update/EntityTrackerBuilder.ts:29-32 | Building throws a TypeError exactly when the given Map was empty and no system was applied. |
| EntityTrackerBuilder.BuiltRecords | src/update/EntityTrackerBuilder.ts:29-40 | The tracker holds one record per key of the Map: the given keys, then the new finders in first-use order. Each record is built from its starting record builder with the applied systems appended in order (:76-83). The tracker gets the trackee, the radius and the builder's finisher. |
| EntityTrackerBuilder.BuiltFromEmpty | src/update/EntityTrackerBuilder.ts:12-53 | From an empty Map, the tracker holds one record per distinct finder in first-use order, each with exactly its own systems and the one shared finisher. |
| EntityTrackerBuilder.RecordBuilder.AddExistenceSystem | src/update/EntityTrackerBuilder.ts:66-69 | The system is appended to the existence list only. |
| EntityTrackerBuilder.RecordBuilder.AddTickSystem | src/update/EntityTrackerBuilder.ts:71-74 | The system is appended to the tick list only. |
| EntityTrackerBuilder.RecordBuilder.Build | src/update/EntityTrackerBuilder.ts:76-83 | The record of the finder, with a null filter, the collected lists and the shared finisher. |
| EntityTrackerBuilder.EntityTrackerBuilder.constructor | src/update/EntityTrackerBuilder.ts:12-17 | The builder over the given Map, which may already hold record builders. It keeps the given trackee, radius and finisher. The Map is a key order plus a table, so it only has to list each key once. |
| EntityTrackerBuilder.EntityTrackerBuilder.ApplyExistenceSystem | src/update/EntityTrackerBuilder.ts:19-22 | The new state is one existence application on the old one, and the builder itself is returned. |
| EntityTrackerBuilder.EntityTrackerBuilder.ApplyTickSystem | src/update/EntityTrackerBuilder.ts:24-27 | The new state is one tick application on the old one, and the builder itself is returned. |
| EntityTrackerBuilder.EntityTrackerBuilder.GetTrackingRecordBuilder | src/update/EntityTrackerBuilder.ts:42-53 | A known finder gets its stored record builder and the Map is unchanged. An unknown one gets a new empty record builder over the builder's finisher, which is stored last. |
| EntityTrackerBuilder.EntityTrackerBuilder.Build | src/update/EntityTrackerBuilder.ts:29-40 | The result is the build of the current Map: a TypeError when it is empty, or the tracker whose records `BuiltRecords` describes. |
| TrackerBuilderWrapper.LiftedApplier | src/update/entityTrackerBuilderWrapper.ts:98-100 | Lifting an applier keeps its kind and wraps its system in one more lift over the same original system; the tick applier does the same at :132-134. |
| TrackerBuilderWrapper.CallOf | src/update/entityTrackerBuilderWrapper.ts:94-96 | An existence applier issues an existence call and a tick applier a tick call, with its own system and the given finder; the tick applier is at :128-130. |
| TrackerBuilderWrapper.AddToBuilder | src/update/entityTrackerBuilderWrapper.ts:94-96 | The builder's state advances by exactly that one call, for either applier (:128-130 for ticks). |
| TrackerBuilderWrapper.SystemApplierManager.Lifted | src/update/entityTrackerBuilderWrapper.ts:158-160 | The current applier is lifted once, and the original one is kept. |
| TrackerBuilderWrapper.SystemApplierManager.Get | src/update/entityTrackerBuilderWrapper.ts:162-164 | The current, possibly lifted, applier. |
| TrackerBuilderWrapper.SystemApplierManager.GetOriginal | src/update/entityTrackerBuilderWrapper.ts:166-168 | The original applier. |
| TrackerBuilderWrapper.CreateToClause | src/update/entityTrackerBuilderWrapper.ts:22-25 | A clause whose current applier and original applier are both the given applier. |
| TrackerBuilderWrapper.ApplyClause.ApplyExistenceSystem | src/update/entityTrackerBuilderWrapper.ts:12-15 | An existence applier over the system, which is both the current and the original applier. |
| TrackerBuilderWrapper.ApplyClause.ApplyTickSystem | src/update/entityTrackerBuilderWrapper.ts:17-20 | A tick applier over the system, which is both the current and the original applier. |
| TrackerBuilderWrapper.ToClause.ToLiftedEntities | src/update/entityTrackerBuilderWrapper.ts:34-36 | The current applier is lifted once, and the original one is kept. |
| TrackerBuilderWrapper.ToClause.ToEntities | src/update/entityTrackerBuilderWrapper.ts:38-40 | The manager is passed on unchanged. |
| TrackerBuilderWrapper.OfClause.Of | src/update/entityTrackerBuilderWrapper.ts:53-56 | Exactly one builder call with the current applier, then a continuation over the same manager. |
| TrackerBuilderWrapper.ApplyOrToOrOfOrBuildClause.AsApplyClause | src/update/entityTrackerBuilderWrapper.ts:58-62 | The continuation used as the `ApplyClause` it extends keeps the same builder. |
| TrackerBuilderWrapper.ApplyOrToOrOfOrBuildClause.ToLiftedEntities | src/update/entityTrackerBuilderWrapper.ts:65-67 | Restarts from the original applier, lifted once. |
| TrackerBuilderWrapper.ApplyOrToOrOfOrBuildClause.ToEntities | src/update/entityTrackerBuilderWrapper.ts:69-71 | Restarts from the original applier. |
| TrackerBuilderWrapper.ApplyOrToOrOfOrBuildClause.And | src/update/entityTrackerBuilderWrapper.ts:73-76 | One more builder call with the same applier, and the clause itself is returned. |
| TrackerBuilderWrapper.ApplyOrToOrOfOrBuildClause.Build | src/update/entityTrackerBuilderWrapper.ts:78-80 | The builder's own build result. |
| TrackerBuilderWrapper.ApplierTouchesOneList | src/update/entityTrackerBuilderWrapper.ts:94-96 | An existence applier changes only existence lists and a tick applier (:128-130) only tick lists. |
| TrackerBuilderWrapper.OfAndSameApplier | src/update/entityTrackerBuilderWrapper.ts:53-76 | `of(f)` and a later `and(g)` register the same system, of the same kind, for f and for g. |
| TrackerBuilderWrapper.ChainNeverStacksLifts | src/update/entityTrackerBuilderWrapper.ts:34-71 | Every clause of a chain holds at most one lift over the original applier, and the original is never lost. |
| TrackerBuilderWrapper.RegisteredDepth | src/update/entityTrackerBuilderWrapper.ts:53-76 | What `of`/`and` registers wraps the original system in at most one lift. |
| Lifting.Run | src/update/entityTrackerBuilderWrapper.ts:103-150 | The member loop of any lift depth issues exactly the calls of the lifted hook's specification. |
| Lifting.LiftedHookVisitsMembers | src/update/entityTrackerBuilderWrapper.ts:103-150 | A lift over a supplied system calls it once per member, in container order, with the same hook and time. |
| Lifting.LiftedEnterExitVisitsMembers | src/update/entityTrackerBuilderWrapper.ts:107-117 | Lifted `enter` and `exit` on a region call the inner hook once per member of the region's container, in order. |
| Lifting.HookCallsSameHook | client/src/engine/visibility/visibilityEngineBuilderLanguage.ts:103-119 | Every call a hook makes, however deeply lifted, is that same hook on the original system. |
| Lifting.MembersCallsSameHook | client/src/engine/visibility/visibilityEngineBuilderLanguage.ts:103-119 | The same holds for a loop over members. |
| Lifting.EmptyRegionNoCalls | client/src/engine/visibility/visibilityEngineBuilderLanguage.ts:103-119 | A lift over a region with an empty container makes no inner calls. |
| Lifting.FinishForwardsOnce | src/update/entityTrackerBuilderWrapper.ts:119-121 | `finish` reaches the original system exactly once, whatever the number of lifts. |
| Lifting.TickForwardsOnce | src/update/entityTrackerBuilderWrapper.ts:147-149 | `tick(time)` reaches the original system exactly once, with the same time. |
| VisibilityBuilderLanguage.VisibilityEngineBuilder.constructor | client/src/engine/visibility/visibilityEngineBuilderLanguage.ts:8-10 | A builder that has recorded no `apply` calls yet. |
| VisibilityBuilderLanguage.VisibilityEngineBuilder.Apply | client/src/engine/visibility/visibilityEngineBuilderLanguage.ts:29-31 | The call is appended to the builder's record. |
| VisibilityBuilderLanguage.VisibilityEngineBuilder.Build | client/src/engine/visibility/visibilityEngineBuilderLanguage.ts:20-22 | The engine built from the calls recorded so far. |
| VisibilityBuilderLanguage.SystemLifter.Lifted | client/src/engine/visibility/visibilityEngineBuilderLanguage.ts:131-133 | One more lift around the current system, keeping the original. |
| VisibilityBuilderLanguage.SystemLifter.Get | client/src/engine/visibility/visibilityEngineBuilderLanguage.ts:135-137 | The current, possibly lifted, system. |
| VisibilityBuilderLanguage.SystemLifter.GetOriginal | client/src/engine/visibility/visibilityEngineBuilderLanguage.ts:139-141 | The original system. |
| VisibilityBuilderLanguage.OnOrBuildClause.OnUpdate | client/src/engine/visibility/visibilityEngineBuilderLanguage.ts:12-14 | Selects the update phase. |
| VisibilityBuilderLanguage.OnOrBuildClause.OnRender | client/src/engine/visibility/visibilityEngineBuilderLanguage.ts:16-18 | Selects the render phase. |
| VisibilityBuilderLanguage.OnOrBuildClause.Build | client/src/engine/visibility/visibilityEngineBuilderLanguage.ts:20-22 | The builder's engine for the calls made so far. |
| VisibilityBuilderLanguage.ApplyClause.Apply | client/src/engine/visibility/visibilityEngineBuilderLanguage.ts:29-31 | A clause over the system that keeps the phase flag. |
| VisibilityBuilderLanguage.ToClause.ToChildren | client/src/engine/visibility/visibilityEngineBuilderLanguage.ts:41-44 | The system under exactly one lift, with the original and the flag kept. |
| VisibilityBuilderLanguage.ToClause.ToEntities | client/src/engine/visibility/visibilityEngineBuilderLanguage.ts:46-49 | The system unwrapped, with the flag kept. |
| VisibilityBuilderLanguage.OfClause.Of | client/src/engine/visibility/visibilityEngineBuilderLanguage.ts:63-66 | Exactly one `apply(system, finder, isOnUpdate)` with the current system. |
| VisibilityBuilderLanguage.ApplyOrToOrOfOrBuildClause.AsApplyClause | client/src/engine/visibility/visibilityEngineBuilderLanguage.ts:69-75 | The continuation is an apply clause with the same builder and flag, not an `OnOrBuildClause`. |
| VisibilityBuilderLanguage.ApplyOrToOrOfOrBuildClause.CreateOriginalToClause | client/src/engine/visibility/visibilityEngineBuilderLanguage.ts:94-96 | A `ToClause` over the same builder and phase flag, holding the lifter's original system. |
| VisibilityBuilderLanguage.ApplyOrToOrOfOrBuildClause.ToChildren | client/src/engine/visibility/visibilityEngineBuilderLanguage.ts:77-96 | Restarts from the original system, lifted once. |
| VisibilityBuilderLanguage.ApplyOrToOrOfOrBuildClause.ToEntities | client/src/engine/visibility/visibilityEngineBuilderLanguage.ts:81-96 | Restarts from the original system, unwrapped. |
| VisibilityBuilderLanguage.ApplyOrToOrOfOrBuildClause.And | client/src/engine/visibility/visibilityEngineBuilderLanguage.ts:85-88 | One more `apply` with the same system and flag as `of` used. |
| VisibilityBuilderLanguage.ApplyOrToOrOfOrBuildClause.Build | client/src/engine/visibility/visibilityEngineBuilderLanguage.ts:90-92 | The builder's engine for the calls made so far. |
| VisibilityBuilderLanguage.ChainKeepsFlagAndLiftDepth | client/src/engine/visibility/visibilityEngineBuilderLanguage.ts:41-96 | Along a chain the phase flag is fixed, and every lifter holds at most one lift over the same original system. |
| VisibilityBuilderLanguage.ToChildrenRegistersOneLift | client/src/engine/visibility/visibilityEngineBuilderLanguage.ts:99-124 | After `toChildren`, the registered system calls the supplied system once per member of a region, in order. |
| SystemEnginesEngine.Calls | client/src/engine/SystemEnginesEngine.ts:8-26 | One call per engine, in list order, all in that phase and with the same time. |
| SystemEnginesEngine.CallsOnePhase | client/src/engine/SystemEnginesEngine.ts:8-26 | Every call of a hook run is in that hook's phase and carries the same time, and an empty list makes no calls. |
| SystemEnginesEngine.BeginThenEndIsBracketed | client/src/engine/SystemEnginesEngine.ts:8-16 | A begin run followed by the matching end run is the nested bracket sequence e1…en, en…e1. |
| SystemEnginesEngine.EndMirrorsBegin | client/src/engine/SystemEnginesEngine.ts:8-16 | The k-th end call goes to the engine of the k-th begin call from the back. |
| SystemEnginesEngine.EngineLog.constructor | client/src/engine/SystemEnginesEngine.ts:8-26 | An empty log of hook calls. |
| SystemEnginesEngine.EngineLog.Record | client/src/engine/SystemEnginesEngine.ts:8-26 | One hook call is appended to the log. |
| SystemEnginesEngine.SystemEnginesEngine.constructor | client/src/engine/SystemEnginesEngine.ts:5-6 | The engine over the given list. |
| SystemEnginesEngine.SystemEnginesEngine.RunForward | client/src/engine/SystemEnginesEngine.ts:8-12 | Appends exactly `Calls(engines, phase, time)`. |
| SystemEnginesEngine.SystemEnginesEngine.RunReversed | client/src/engine/SystemEnginesEngine.ts:14-16 | Appends exactly the calls over the reversed list. |
| SystemEnginesEngine.SystemEnginesEngine.UpdateBegin | client/src/engine/SystemEnginesEngine.ts:8-12 | Every engine's `updateBegin` once, in list order. |
| SystemEnginesEngine.SystemEnginesEngine.UpdateEnd | client/src/engine/SystemEnginesEngine.ts:14-16 | Every engine's `updateEnd` once, in reverse list order. |
| SystemEnginesEngine.SystemEnginesEngine.RenderBegin | client/src/engine/SystemEnginesEngine.ts:18-22 | Every engine's `renderBegin` once, in list order. |
| SystemEnginesEngine.SystemEnginesEngine.RenderEnd | client/src/engine/SystemEnginesEngine.ts:24-26 | Every engine's `renderEnd` once, in reverse list order. |
| EngineCap.FramePhasesStaySeparate | client/src/engine/EngineCap.ts:7-15 | `update` makes only update calls and `render` only render calls. Both use the stored time, and each runs every end hook in reverse before every begin hook forward. |
| EngineCap.SingleEngineEndThenBegin | client/src/engine/EngineCap.ts:7-15 | With one engine, `update` is `updateEnd` then `updateBegin`, and `render` is `renderEnd` then `renderBegin`. |
| EngineCap.ConsecutiveUpdatesBracket | client/src/engine/EngineCap.ts:7-10 | In two updates in a row, the second one's end phase closes the first one's begin phase as a nested bracket. |
| EngineCap.EngineCap.constructor | client/src/engine/EngineCap.ts:4 | The capped engine and the stored time. |
| EngineCap.EngineCap.Update | client/src/engine/EngineCap.ts:7-10 | Appends exactly the end-then-begin update calls. |
| EngineCap.EngineCap.Render | client/src/engine/EngineCap.ts:12-15 | Appends exactly the end-then-begin render calls. |
| CollisionDetectionSystem.AnyIn | src/entitySystem/system/existence/CollisionDetectionSystem.ts:32-36 | The region-by-region `some`, member by member, is true iff some member of some region satisfies the callback. |
| CollisionDetectionSystem.AnyInContainer | src/entitySystem/system/existence/CollisionDetectionSystem.ts:32-36 | The inner scan is true iff some member satisfies the callback. |
| CollisionDetectionSystem.CollisionDetectionSystem.constructor | src/entitySystem/system/existence/CollisionDetectionSystem.ts:8-9 | The system over the given Set of regions. |
| CollisionDetectionSystem.CollisionDetectionSystem.Enter | src/entitySystem/system/existence/CollisionDetectionSystem.ts:11-13 | The region is added to the Set once. |
| CollisionDetectionSystem.CollisionDetectionSystem.Exit | src/entitySystem/system/existence/CollisionDetectionSystem.ts:15-17 | The region is deleted from the Set; an absent region changes nothing. |
| CollisionDetectionSystem.CollisionDetectionSystem.Finish | src/entitySystem/system/existence/CollisionDetectionSystem.ts:19-20 | `finish` changes nothing. |
| CollisionDetectionSystem.CollisionDetectionSystem.CollidesIf | src/entitySystem/system/existence/CollisionDetectionSystem.ts:32-36 | True iff some entity of some current region satisfies the callback, so false with no regions. |
| CollisionDetectionSystem.CollisionDetectionSystem.CollidesWith | src/entitySystem/system/existence/CollisionDetectionSystem.ts:22-30 | True iff some entity with another display intersects the given display. |
| CollisionDetectionSystem.EnterTwiceIsEnterOnce | src/entitySystem/system/existence/CollisionDetectionSystem.ts:11-13 | Entering twice is entering once, and the region is held once. |
| CollisionDetectionSystem.EnterThenExitRestores | src/entitySystem/system/existence/CollisionDetectionSystem.ts:11-17 | A new region that enters and then exits leaves the Set as it was. |
| CollisionDetectionSystem.EnterAddsItsMembers | src/entitySystem/system/existence/CollisionDetectionSystem.ts:11-36 | After `enter`, a query holds iff it held before or some member of the new region satisfies it. |
| CollisionDetectionSystem.ExitRemovesOnly | src/entitySystem/system/existence/CollisionDetectionSystem.ts:15-36 | After `exit`, a query can only turn from true to false. |
| CollisionDetectionSystem.OwnDisplayNeverCollides | src/entitySystem/system/existence/CollisionDetectionSystem.ts:22-30 | Entities whose display is the queried one never count. |
| BlinkCachedDisplaySystem.EnterTraceMembers | client/src/entitySystem/system/visibility/BlinkCachedDisplaySystem.ts:18-34 | A call is in the `enter` trace exactly when some member's branch makes it. |
| BlinkCachedDisplaySystem.ExitTraceMembers | client/src/entitySystem/system/visibility/BlinkCachedDisplaySystem.ts:39-45 | A call is in the `exit` trace exactly when some member's branch makes it. |
| BlinkCachedDisplaySystem.EnterDispatch | client/src/entitySystem/system/visibility/BlinkCachedDisplaySystem.ts:18-34 | A blinking member is drawn uncached and positioned. A member with a blink that is not blinking is released and adopted. A member without a blink is adopted only when it has no parent. `enter` never exits anyone. Each of these holds in both directions. |
| BlinkCachedDisplaySystem.ExitDispatch | client/src/entitySystem/system/visibility/BlinkCachedDisplaySystem.ts:39-45 | Exactly the members with a blink leave the uncached drawing. Exactly those not blinking afterwards are released. Nobody is adopted or entered. |
| BlinkCachedDisplaySystem.EnterOrderPerMember | client/src/entitySystem/system/visibility/BlinkCachedDisplaySystem.ts:20-31 | Per member, a blinking one is drawn uncached before it is positioned, and a non-blinking one is released before it is adopted. |
| BlinkCachedDisplaySystem.BlinkCachedDisplaySystem.constructor | client/src/entitySystem/system/visibility/BlinkCachedDisplaySystem.ts:13-16 | The system over its two collaborator systems. |
| BlinkCachedDisplaySystem.BlinkCachedDisplaySystem.Enter | client/src/entitySystem/system/visibility/BlinkCachedDisplaySystem.ts:18-34 | The loop makes exactly the `enter` trace: the members in container order, each taking one branch. |
| BlinkCachedDisplaySystem.BlinkCachedDisplaySystem.Update | client/src/entitySystem/system/visibility/BlinkCachedDisplaySystem.ts:36-37 | `update` changes nothing. |
| BlinkCachedDisplaySystem.BlinkCachedDisplaySystem.Exit | client/src/entitySystem/system/visibility/BlinkCachedDisplaySystem.ts:39-45 | The loop makes exactly the `exit` trace. |
| BlinkCachedDisplaySystem.BlinkCachedDisplaySystem.Finish | client/src/entitySystem/system/visibility/BlinkCachedDisplaySystem.ts:47-48 | `finish` changes nothing. |
| ChestSystem.Chest.constructor | client/src/entitySystem/system/ChestSystem.ts:159 | A new chest is closed and placed at the given coordinates. |
| ChestSystem.ChestRegister.constructor | client/src/entitySystem/system/ChestSystem.ts:127 | An empty register. |
| ChestSystem.ChestRegister.Register | client/src/entitySystem/system/ChestSystem.ts:160 | The chest is inserted into the Set. |
| ChestSystem.ChestRegister.Deregister | client/src/entitySystem/system/ChestSystem.ts:170 | The chest is removed from the Set. |
| ChestSystem.ChestRegister.AnyClosed | client/src/entitySystem/system/ChestSystem.ts:146 | True iff some registered chest is not open. |
| ChestSystem.Scheduled | client/src/entitySystem/system/ChestSystem.ts:153-156 | Scheduling sets the flag and takes the drawn interval. |
| ChestSystem.SpawnStepCases | client/src/entitySystem/system/ChestSystem.ts:137-151 | With a schedule, a tick spawns iff the reduced interval is at or below 0, even with closed chests, and the schedule is cleared. Without a schedule, a tick spawns iff every chest is open. |
| ChestSystem.Ticks | client/src/entitySystem/system/ChestSystem.ts:137-151 | One spawn flag per tick. |
| ChestSystem.CountdownSpawnsWhenDue | client/src/entitySystem/system/ChestSystem.ts:138-144 | A scheduled spawner counts the interval down over the ticks. It spawns nothing while the total elapsed time stays below the interval, and spawns on the tick that reaches it. |
| ChestSystem.Trackee.constructor | client/src/entitySystem/system/ChestSystem.ts:51 | The trackee at its coordinates. |
| ChestSystem.ExecuteOpensOnce | client/src/entitySystem/system/ChestSystem.ts:59-71 | An open chest, or a far trackee, opens nothing. A chest that one `execute` opened is not opened by a second one. |
| ChestSystem.ChestOpener.constructor | client/src/entitySystem/system/ChestSystem.ts:49-57 | The opener over the trackee, the closeness test and the touchable distance. |
| ChestSystem.ChestOpener.WithDefaultDistance | client/src/entitySystem/system/ChestSystem.ts:56 | Without a distance argument, the touchable distance defaults to 40. |
| ChestSystem.ChestOpener.Execute | client/src/entitySystem/system/ChestSystem.ts:59-80 | Returns true exactly when the chest was closed and the trackee is close. Afterwards the chest is open iff it was open or this call opened it. |
| ChestSystem.ChestSpawner.constructor | client/src/entitySystem/system/ChestSystem.ts:126-135 | A spawner built without a schedule schedules at once with the drawn interval. |
| ChestSystem.ChestSpawner.SpawnIfAppropriate | client/src/entitySystem/system/ChestSystem.ts:137-151 | The schedule moves by one spawn step. A spawn registers exactly one new closed chest at the drawn location, and otherwise the register is unchanged. |
| ChestSystem.ChestSpawner.ScheduleNextSpawning | client/src/entitySystem/system/ChestSystem.ts:153-156 | The schedule becomes the drawn interval, with the flag set. |
| ChestSystem.ChestSpawner.SpawnAt | client/src/entitySystem/system/ChestSystem.ts:158-162 | A fresh closed chest at the coordinates is appended to the register. |
| ChestSystem.ChestDemolisher.constructor | client/src/entitySystem/system/ChestSystem.ts:166-167 | The demolisher over the register. |
| ChestSystem.ChestDemolisher.Demolish | client/src/entitySystem/system/ChestSystem.ts:169-171 | The chest leaves the register. |
| ChestSystem.ChestSystem.constructor | client/src/entitySystem/system/ChestSystem.ts:16-20 | The system over its opener, spawner and demolisher. |
| ChestSystem.ChestSystem.Tick | client/src/entitySystem/system/ChestSystem.ts:22-24 | Exactly the spawner's step. |
| ChestSystem.ChestSystem.Enter | client/src/entitySystem/system/ChestSystem.ts:26-27 | `enter` changes neither the system nor the chest. |
| ChestSystem.ChestSystem.Update | client/src/entitySystem/system/ChestSystem.ts:29-33 | The next spawning is scheduled iff this call opened the chest. |
| ChestSystem.ChestSystem.Exit | client/src/entitySystem/system/ChestSystem.ts:35-37 | The chest is deregistered. |
| ChestSystem.ChestSystem.Finish | client/src/entitySystem/system/ChestSystem.ts:39-40 | `finish` changes nothing. |
| Comment.DecohereStep | src/entity/comment.ts:131-139 | A coherent entity gets the made text as its display. A decoherent one throws and keeps its display. |
| Comment.CohereStep | src/entity/comment.ts:141-147 | A decoherent entity drops its display. A coherent one throws. |
| Comment.MeasureOf | src/entity/comment.ts:149-155 | The display of a decoherent entity. A coherent entity throws. |
| Comment.CoherenceRoundTrip | src/entity/comment.ts:131-155 | Decohering and then cohering a new entity succeeds both times and returns it to coherence. A second decohere or a second cohere throws. |
| Comment.CommentEntityManager.constructor | src/entity/comment.ts:28 | An entity manager that has received no loads. |
| Comment.CommentEntityManager.Load | src/entity/comment.ts:60 | The load of one entity is recorded. |
| Comment.CommentEntityManager.LoadBatch | src/entity/comment.ts:54 | The load of one batch is recorded. |
| Comment.CommentEntity.constructor | src/entity/comment.ts:121-129 | A new entity is coherent, with the given size, colour, text and coordinate. |
| Comment.CommentEntity.Decohere | src/entity/comment.ts:131-139 | The state and outcome of `DecohereStep`. |
| Comment.CommentEntity.Cohere | src/entity/comment.ts:141-147 | The state and outcome of `CohereStep`. |
| Comment.CommentEntity.Measure | src/entity/comment.ts:149-155 | The display when decoherent; a coherent entity throws. The state is unchanged. |
| Comment.DisplaysOf | src/entity/comment.ts:38-41 | For each region, its members' displays, in order. |
| Comment.Members | src/entity/comment.ts:38-41 | Every member of every region is in the set. |
| Comment.ContainerDisplays | src/entity/comment.ts:41 | The members' displays, one per member. |
| Comment.RegionCollidesIff | src/entity/comment.ts:40-48 | Over displayed entities, the `hasCollision` loop of a region is true iff some member's text bounds intersect the rectangle. |
| Comment.PlacementIff | src/entity/comment.ts:37-50 | When every entity of the current regions is displayed, `canPlaceIn` is false iff some entity's text bounds intersect the rectangle. |
| Comment.PlacementThrowsOnlyOnCoherent | src/entity/comment.ts:37-50 | `canPlaceIn` throws only by measuring a coherent entity of some region. |
| Comment.RegionThrowsOnlyOnCoherent | src/entity/comment.ts:40-48 | A region's loop throws only by measuring a coherent member. |
| Comment.CommentManager.constructor | src/entity/comment.ts:26-35 | The manager starts with the font family setting. |
| Comment.CommentManager.CanPlaceIn | src/entity/comment.ts:37-50 | The loop with the `hasCollision` flag computes the placement result over the current regions' displays. |
| Comment.CommentManager.MakeText | src/entity/comment.ts:64-75 | A text with the given content, size and fill, in the current font. |
| Comment.CommentManager.OnFontChanged | src/entity/comment.ts:77-85 | Afterwards the font is the given one; the same font changes nothing. |
| Comment.CommentManager.BuildEntity | src/entity/comment.ts:92-102 | A new coherent entity with the data's size, colour, text and coordinates. |
| Comment.CommentManager.LoadBatch | src/entity/comment.ts:52-56 | One new entity per data item, in order, handed to the entity manager as one batch. |
| Comment.CommentManager.Load | src/entity/comment.ts:58-62 | One new entity, handed to the entity manager. Its size, colour and text are the data's, its coordinate is the point of the data's coordinates, it has no display yet and its manager is this one (:92-94). |
| BuffDataContainer.Added | client/src/entitySystem/system/buff/BuffDataContainer.ts:7-12 | The item is pushed at the back. When that exceeds the cap, exactly the front item is shifted off, so a length within the cap stays within it. |
| BuffDataContainer.AddedEvictsOldest | client/src/entitySystem/system/buff/BuffDataContainer.ts:9-11 | Adding to a full container keeps its length and evicts the oldest item. |
| BuffDataContainer.AddAllKeepsLatest | client/src/entitySystem/system/buff/BuffDataContainer.ts:7-12 | From empty, any run of adds leaves exactly the latest `max` items, oldest first. |
| BuffDataContainer.CapScenarios | client/src/entitySystem/system/buff/BuffDataContainer.ts:4-12 | With cap 2, three adds leave the last two. With the default cap 1, only the latest add is held. |
| BuffDataContainer.BuffDataContainer.constructor | client/src/entitySystem/system/buff/BuffDataContainer.ts:4 | The container with the given cap and items, which default to a cap of 1 and no items. |
| BuffDataContainer.BuffDataContainer.Add | client/src/entitySystem/system/buff/BuffDataContainer.ts:7-12 | The items become `Added` of the old items. |
| BuffDataContainer.BuffDataContainer.HasBuff | client/src/entitySystem/system/buff/BuffDataContainer.ts:14-16 | True iff the container is non-empty. |
| BuffDataContainer.BuffDataContainer.Pop | client/src/entitySystem/system/buff/BuffDataContainer.ts:18-23 | An empty container throws and stays empty. Otherwise exactly the front item is removed. |
| BuffDataContainer.BuffDataContainer.Peek | client/src/entitySystem/system/buff/BuffDataContainer.ts:25-33 | The front item. Otherwise the given default, or a throw when there is none. |
| Chromatic.Skip | client/src/entitySystem/system/buff/Chromatic.ts:21-25 | A tick acts iff the counter has reached 2, and then resets it. Otherwise the counter goes up by one. |
| Chromatic.ActsEveryThirdTick | client/src/entitySystem/system/buff/Chromatic.ts:6-25 | From 0 the counter stays in 0..2, and exactly every third tick acts. |
| Chromatic.Round | client/src/entitySystem/system/buff/Chromatic.ts:69 | The nearest integer, with halves rounded up. |
| Chromatic.TransitionTickCases | client/src/entitySystem/system/buff/Chromatic.ts:72-91 | A paused channel only shrinks its pause. A moving one advances by twice its velocity. Above 255 it clamps with velocity minus the speed, and below 64 it clamps with velocity plus the speed. A drawn pause replaces the interval. |
| Chromatic.TickKeepsRange | client/src/entitySystem/system/buff/Chromatic.ts:78-86 | A value in [64, 255] stays there after a tick. |
| Chromatic.TicksKeepRange | client/src/entitySystem/system/buff/Chromatic.ts:52-86 | Over any run of ticks, the value and the rounded value stay in [64, 255]. |
| Chromatic.BouncingColorTransition.constructor | client/src/entitySystem/system/buff/Chromatic.ts:55-60 | The transition with the drawn value, velocity and pause. |
| Chromatic.BouncingColorTransition.GetValue | client/src/entitySystem/system/buff/Chromatic.ts:68-70 | The rounded value, which lies in [64, 255] when the value does. |
| Chromatic.BouncingColorTransition.Tick | client/src/entitySystem/system/buff/Chromatic.ts:72-91 | The new state is `TransitionTick` of the old one. |
| Chromatic.ColoredDisplay.constructor | client/src/entitySystem/system/buff/Chromatic.ts:31-36 | A display to which no colours have been added. |
| Chromatic.ColoredDisplay.AddColor | client/src/entitySystem/system/buff/Chromatic.ts:31-36 | The colour is appended. |
| Chromatic.Chromatic.constructor | client/src/entitySystem/system/buff/Chromatic.ts:12-18 | Three distinct transitions and the given counter. |
| Chromatic.Chromatic.Tick | client/src/entitySystem/system/buff/Chromatic.ts:20-37 | A skipped tick moves only the counter. An acting tick steps each channel once and adds the colour of the three rounded values. |
| Chromatic.Chromatic.Set | client/src/entitySystem/system/buff/Chromatic.ts:39-40 | `set` changes nothing. |
| BuffDescription.KeyFor | client/src/entitySystem/system/buff/BuffDescription.ts:7-12 | NONE, CHROMATIC and HASTY map to their description keys, and any other type has no key. |
| BuffDescription.For | client/src/entitySystem/system/buff/BuffDescription.ts:5-16 | A type outside the enum throws a TypeError. Otherwise the result is `Texts.forName` of the key. |
| BuffDescription.KnownBuffsAreDescribed | client/src/entitySystem/system/buff/BuffDescription.ts:5-16 | A known buff is always described with a non-empty text; the three texts are given. |
| Texts.ForName | client/src/render/Texts.ts:2-9 | The entry of a name whose entry is non-empty. Any other name throws an error naming it. |
| Texts.FoundExactlyTheTableNames | client/src/render/Texts.ts:12-31 | Every entry of the table is non-empty, so exactly the table's names are found. |
| Texts.NotFoundNamesTheKey | client/src/render/Texts.ts:4-6 | Two different names that are not found give two different errors. |
| Response.Response.Apply | client/src/environment/component/officialWebsite/Response.ts:35-47 | A value reply returns the wrapped value. An error reply throws ErrorResponseError with the reason. |
| Response.From | client/src/environment/component/officialWebsite/Response.ts:7-15 | The value status, tested first, gives a value reply. The error status gives an error reply. Any other or missing status gives null. |
| Response.FromThenApply | client/src/environment/component/officialWebsite/Response.ts:7-47 | Decoding and then applying returns exactly the value, or throws with exactly the reason. |
| PhysicalConstants.DerivedConstants | client/src/PhysicalConstants.ts:4-22 | The sampling radius is 4000. The tracker radius is 800, and 50 of them span the world. The width outside a chunk is 50. |
| PhysicalConstants.Ceil | client/src/PhysicalConstants.ts:25-28 | The least integer not below the argument. |
| PhysicalConstants.GetRenderRadius | client/src/PhysicalConstants.ts:24-29 | The longer side plus the comment overhang (50) plus the distance walked in 2 s (432), times 1.1, rounded up. |
| PhysicalConstants.RenderRadiusSymmetric | client/src/PhysicalConstants.ts:24-29 | Swapping width and height gives the same radius. |
| PhysicalConstants.CeilMonotone | client/src/PhysicalConstants.ts:25-28 | The ceiling is monotone. |
| PhysicalConstants.RenderRadiusMonotone | client/src/PhysicalConstants.ts:24-29 | A larger longer side never gets a smaller radius. |
| PhysicalConstants.RenderRadiusCovers | client/src/PhysicalConstants.ts:25-28 | On a screen of non-negative size, the radius is at least the longer side plus 50 plus 432. |
| CommentDataUtil.ToInt32 | src/environment/component/bilibili/CommentDataUtil.ts:104-107 | The int32 image: a value in [-2^31, 2^31) congruent to the argument modulo 2^32. |
| CommentDataUtil.Xor32 | src/environment/component/bilibili/CommentDataUtil.ts:107 | The bitwise exclusive or of the two 32-bit images, read back as int32, so int32 again. |
| CommentDataUtil.BitXorBelow | src/environment/component/bilibili/CommentDataUtil.ts:107 | The exclusive or of the low bits below a power p lies below p. |
| CommentDataUtil.XorOfSameTopBitBelow | src/environment/component/bilibili/CommentDataUtil.ts:107 | When the two values agree on the top bit, their exclusive or has that bit clear. |
| CommentDataUtil.Int32Fixed | src/environment/component/bilibili/CommentDataUtil.ts:104-107 | An int32 value is its own int32 image. |
| CommentDataUtil.ResidueSign | src/environment/component/bilibili/CommentDataUtil.ts:104-107 | An int32 value is non-negative exactly when the top bit of its 32-bit image is clear. |
| CommentDataUtil.XorOfSameSignNonNegative | src/environment/component/bilibili/CommentDataUtil.ts:107 | The exclusive or of two int32 values of the same sign is non-negative. |
| CommentDataUtil.ShiftKeepsSign | src/environment/component/bilibili/CommentDataUtil.ts:107 | `x >> 15` is int32 and has the sign of x. |
| CommentDataUtil.JsRem | src/environment/component/bilibili/CommentDataUtil.ts:108 | `%` with the sign of the dividend. It lies strictly between -m and m, and agrees with the mathematical remainder on non-negative dividends. |
| CommentDataUtil.Framed | src/environment/component/bilibili/CommentDataUtil.ts:102 | The codes, unchanged, between the fixed frames `,87h` and `{cIb`: eight more codes in all. |
| CommentDataUtil.Finish | src/environment/component/bilibili/CommentDataUtil.ts:107-108 | The folded result lies in [0, 0x8000): `ret >> 15` has the sign of ret, so the exclusive or is non-negative, and so is the remainder. |
| CommentDataUtil.HashOf | src/environment/component/bilibili/CommentDataUtil.ts:100-110 | The hash lies in [0, 0x8000). |
| CommentDataUtil.Numbers | src/environment/component/bilibili/CommentDataUtil.ts:97 | The properties as numbers, one for one. |
| CommentDataUtil.MacOf | src/environment/component/bilibili/CommentDataUtil.ts:94-98 | The tag lies in [0, 0x8000). |
| CommentDataUtil.NaNForgetsLaterCodes | src/environment/component/bilibili/CommentDataUtil.ts:103-106 | Once a NaN enters the loop, the codes processed before it no longer matter. |
| CommentDataUtil.EmptyMessageTagIgnoresProperties | src/environment/component/bilibili/CommentDataUtil.ts:94-98 | The tag of an empty message is the same whatever its properties. |
| CommentDataUtil.Hash | src/environment/component/bilibili/CommentDataUtil.ts:100-110 | The downward loop computes `HashOf`, which lies in [0, 0x8000). |
| CommentDataUtil.Mac | src/environment/component/bilibili/CommentDataUtil.ts:94-98 | Computes `MacOf`. |
| CommentDataUtil.SafeCodeInverse | src/environment/component/bilibili/CommentDataUtil.ts:118-126 | Encoding maps [0, 0x8000) into the safe ranges, and decoding inverts it. Decoding maps the safe ranges back into [0, 0x8000), and encoding inverts that. |
| CommentDataUtil.ToSafeCharCodesAsWritten | src/environment/component/bilibili/CommentDataUtil.ts:114-119 | As written, the encoder throws iff some code is below 0x8000. |
| CommentDataUtil.ToSafeCharCodes | src/environment/component/bilibili/CommentDataUtil.ts:113-119 | With the guard the comments state, the encoder throws iff some code lies outside [0, 0x8000). Its result is safe and decodes back to the codes. |
| CommentDataUtil.ToActualCharCodes | src/environment/component/bilibili/CommentDataUtil.ts:121-127 | Throws iff some code is outside [0x4000, 0x9fff] ∪ [0xb000, 0xcfff]. Otherwise each code is decoded. |
| CommentDataUtil.ActualAfterSafe | src/environment/component/bilibili/CommentDataUtil.ts:118-126 | Decoding what the corrected encoder produced gives back the codes. |
| CommentDataUtil.FromCharCodes | src/environment/component/bilibili/CommentDataUtil.ts:89 | One code unit per number; numbers within 16 bits are kept as they are. |
| CommentDataUtil.LastIndexOf | src/environment/component/bilibili/CommentDataUtil.ts:9 | -1 or a position where the delimiter occurs, with no occurrence after it. |
| CommentDataUtil.OccursInPrefix | src/environment/component/bilibili/CommentDataUtil.ts:9 | An occurrence that ends before the last code unit is an occurrence in the text without that unit, and conversely. |
| CommentDataUtil.LastOccurrenceInPrefix | src/environment/component/bilibili/CommentDataUtil.ts:9 | When the text does not end with the delimiter, the last occurrence in the text without its last unit is the last occurrence in the text. |
| CommentDataUtil.Split | src/environment/component/bilibili/CommentDataUtil.ts:53 | At least one piece. |
| CommentDataUtil.SplitJoinsBack | src/environment/component/bilibili/CommentDataUtil.ts:53 | No piece of `split(',')` contains a comma, and joining the pieces with commas gives back the text. |
| CommentDataUtil.SplitOfJoinedByComma | src/environment/component/bilibili/CommentDataUtil.ts:53 | Splitting comma-free pieces joined with commas gives back the pieces. |
| CommentDataUtil.SplitOfCommaFreeAlone | src/environment/component/bilibili/CommentDataUtil.ts:53 | A comma-free text splits into itself alone. |
| CommentDataUtil.SplitOfCommaFree | src/environment/component/bilibili/CommentDataUtil.ts:53 | A comma-free word, a comma and a rest split into the word followed by the pieces of the rest. |
| CommentDataUtil.CommentDataOf | src/environment/component/bilibili/CommentDataUtil.ts:40-63 | Data exactly for 2 or 4 properties: coordinates, plus an effect when there are 4. |
| CommentDataUtil.Authenticated | src/environment/component/bilibili/CommentDataUtil.ts:30-50 | Data is returned exactly when there is a last property, it is the tag of the text and the others, and 2 or 4 others remain. The data's text is the comment text. |
| CommentDataUtil.ForgedTagRejected | src/environment/component/bilibili/CommentDataUtil.ts:28-34 | Decodable metadata whose last property is missing or is not the tag of the text and the others makes parsing return null. |
| CommentDataUtil.ParseAt | src/environment/component/bilibili/CommentDataUtil.ts:9-50 | Once the last delimiter and the decoded metadata are known, parsing is the data of the properties before the tag. |
| CommentDataUtil.DataOfProperties | src/environment/component/bilibili/CommentDataUtil.ts:75-82 | The properties the encoder lays out decode, by the property count test (:40-50), to the same coordinates and effect. |
| CommentDataUtil.ParseFromXmlStrings | src/environment/component/bilibili/CommentDataUtil.ts:7-64 | The copy loop and the pop compute `Parse`. |
| CommentDataUtil.Properties | src/environment/component/bilibili/CommentDataUtil.ts:75-82 | The coordinates, then the effect's type and parameter when there is an effect. |
| CommentDataUtil.GenerateAsWrittenAlwaysThrows | src/environment/component/bilibili/CommentDataUtil.ts:84-117 | As written, generating metadata always throws, naming the properties and the tag. |
| CommentDataUtil.GenerateFailsIff | src/environment/component/bilibili/CommentDataUtil.ts:72-92 | The corrected encoder fails exactly when a property lies outside [0, 0x8000); the tag always lies inside. |
| CommentDataUtil.DelimiterAfterText | src/environment/component/bilibili/CommentDataUtil.ts:66-70 | In an injected text with safe metadata, the last delimiter that `lastIndexOf` (:9) finds is the injected one. |
| CommentDataUtil.NoSlashAfter | src/environment/component/bilibili/CommentDataUtil.ts:66-70 | No `/` follows the injected delimiter. |
| CommentDataUtil.ParseInjected | src/environment/component/bilibili/CommentDataUtil.ts:14-63 | Safe metadata whose last code is the tag of the text parses to the data of the remaining codes. |
| CommentDataUtil.ParseAfterBuild | src/environment/component/bilibili/CommentDataUtil.ts:7-92 | Round trip: with properties in [0, 0x8000), building succeeds, and parsing gives back the text, coordinates, effect and attribute fields 2, 3, 4 and 6. |
| CommentDataUtil.ParseSplitsAtLastDelimiter | src/environment/component/bilibili/CommentDataUtil.ts:9-27 | Without a delimiter the result is null. Otherwise the comment text is the prefix before the last delimiter. |
| CommentDataUtil.UnsafeMetadataRejected | src/environment/component/bilibili/CommentDataUtil.ts:121-125 | A metadata code unit outside the safe ranges makes parsing return null through the caught throw (:20-24). |
| CommentDataUtil.BuildInjectedCommentText | src/environment/component/bilibili/CommentDataUtil.ts:66-70 | Computes `Build`: the text, the delimiter, then the metadata. |
| CommentDataUtil.GenerateCommentMetadata | src/environment/component/bilibili/CommentDataUtil.ts:72-92 | Computes the corrected `Generate`. |

## Left out

- Rendering, audio, DOM and web-server code, object factories, the preset, `Hasty`, `AddChildToRegionSystem`, `Display` and pure interfaces. These are I/O, graphics or plumbing with no logic of their own to verify.
- The quadtree, `Distance`, `validateRadius`, the entity tracker, the visibility engine builder and engine, the entity manager, `Blink` and `TimedBuff`. Their code is not part of this model, so they become function parameters, stand-in classes or call logs.
- The law strategies and every random draw. The value `next()` would return is a parameter: intervals, locations, speeds, pauses and initial channel values.
- The chest shaking tween, the notifier and the buff activation after a chest opens (ChestSystem.ts:82-122). These are async animation code; only the `isOpen` flag is kept.
- `EntityFactory.createChest`. It is not part of this model and is taken to give a closed chest at the coordinates.
- `EntityRegister` is modelled as a Set of chests in insertion order.
- Chromatic.Chromatic.constructor: it requires three distinct transitions, which the source's three `new` calls guarantee.
- Phaser's text object, `getWebRGB`, `RGBtoString` and the bounds intersection are abstract. The text anchor set in `decohere` is not modelled.
- The effect `initialize` in `buildEntity` (comment.ts:96-99). The effect factory is not part of this model.
- The font-setting subscription in the `CommentManager` constructor. Only its handler `onFontChanged` is modelled.
- `getCurrentRegions` of the entity tracker is a parameter of `canPlaceIn`.
- Floating point. Lengths, times and colour values are exact reals, with 1.1 taken as 11/10. Chest timers are integer milliseconds, and coordinates encoded in comment metadata are integers.
- The hash sums `31 * ret + code` exactly, as integers. Double-precision rounding of intermediate values beyond 2^53 is not modelled.
- Properties that the `Texts` table inherits from `Object.prototype` are not modelled. The table is only its own entries.
- A buff type outside the enum becomes `Other`. The `${data}` text in the error is a parameter.
- The status strings of `Response` are parameters.
- `Number` and `parseInt` of the attribute fields in `parseFromXmlStrings` (CommentDataUtil.ts:53-63). The fields stay strings.
- `console.error` in `deregister` is modelled as a log of the entities it reports.
- EntityTrackerBuilder.RecordBuilder.Build: the built record shares the record builder's arrays in the source (:76-83), so a system applied to the same finder after `build()` also reaches the built tracker. The model copies the lists, and this aliasing is not captured.
- EntityTrackerBuilder.EntityTrackerBuilder.constructor: the caller's Map is stored by reference, so the caller and the builder share later insertions. The model holds the Map as a value, and that sharing is not captured.
- Tests: the tracker-builder test is disabled and targets a class that is not part of this model.

## Findings

| source | as written | input that shows it | evidently intended | confidence | as-written member | corrected member |
|---|---|---|---|---|---|---|
| src/environment/component/bilibili/CommentDataUtil.ts:115 | `toSafeCharCodes` throws when some code is below 0x8000. The tag from `mac` is always below 0x8000, so `generateCommentMetadata` throws for every input. | Any comment, e.g. text "a" at (0, 0) with no effect: the tag is in [0, 0x8000). | Throw when some code lies outside [0, 0x8000), as the comments at :74 and :113 say. The encoded metadata then decodes back. | not executed | CommentDataUtil.ToSafeCharCodesAsWritten, CommentDataUtil.GenerateAsWrittenAlwaysThrows | CommentDataUtil.ToSafeCharCodes, CommentDataUtil.ParseAfterBuild |
