# RTS game client and server core, modelled in Dafny

The repository is a small real-time strategy game. A browser client talks to
an ASP.NET server over a WebSocket game protocol. This project models the
deterministic, in-memory parts on both sides of that protocol and proves
properties of them:

- the client's two-class **command buffer**. `drain` hands out every
  high-priority command before every low-priority one (`command_buf.dfy`);
- the client **world state**, meaning the players and entities tables, keyed by
  string id and in insertion order. `applySnapshot` merges partial snapshots
  into them, and upsert, remove, clear and query helpers complete it
  (`world.dfy`). Snapshot payloads are dynamic JavaScript values (`js_values.dfy`).
  A JavaScript `Map` is an insertion-ordered table (`tables.dfy`);
- the two versions of the client **entity**: constructor defaults, the
  derived `selectable` flag, damage, movement and the JSON field set
  (`entity.dfy` for `data/entity.js`, `entry.dfy` for the older `data/entry.js`);
- the **selection store**: distinct selected ids in insertion order, a
  hover value and a set of subscribers (`selection_store.dfy`);
- the **input rules**, that is, the closures of `init` in `ui/input.js`:
  - point hit-testing, topmost by `z`, classified as ally, resource, enemy or ground;
  - rectangle selection and single (toggle) selection;
  - the commands a right click or a key press issues (`input.dfy`);
- the fixed-step **tick model**: running flag, simulated time, listeners and
  loop statistics (`tick_model.dfy`);
- the server's **id generators** and **player registries**, in both the older
  `Server/Domain` version and the newer `Server/Core/Domain` version
  (`int64.dfy`, `concurrent_maps.dfy`, `domain.dfy`, `core_domain.dfy`).

Modelling conventions:

- Classes stand for what the source updates in place: `CommandBuf`, `World`,
  `Entity`, the selection store, the input state, the tick model, the id
  generators and the registries. Each one's methods are specified against pure
  functions (`Step`, `Drained`, `MergeAll`, `Damage`, `Dedup`, `HitAt`,
  `Decide`, `Invocations`, `Incremented`, `TryAdd`, ...). The lemmas are stated
  about those functions.
- Callbacks are opaque handles. These are tick listeners, selection
  subscribers and the command gateway `issue`. A tick returns the list of
  listener calls it makes. A right click or a key press returns the command it
  would hand to `issue`.
- Snapshot numbers are integers. Geometry and time are reals. `Math.hypot(dx, dy) >= 4`
  becomes `dx*dx + dy*dy >= 16`.
- `Interlocked.Increment` on a `long` wraps from long.MaxValue to
  long.MinValue. The model writes that wrap out, and ids from a fresh counter are 1, 2, 3, … until then.

Observations that the model makes precise:

- `applySnapshot` skips an entry whose id stringifies to the empty
  string. `upsertEntity` only rejects a missing id, so it stores such an
  entity under the key `""` (`ClientWorld.EmptyIdDiffers`).
- In attack-move mode a right click on one of the player's own units issues an
  attack on that unit. Hit results for entities always carry an id, so an
  attack-move click always issues an order (`Input.AttackMoveRightClick`).
- `NextEntitye` is declared to return a nullable `long` but never returns null.

## Model

| member | source | states |
|---|---|---|
| CommandBuffer.Drained | GameServer/wwwroot/core/commandBuf.js:8-11 | the drained list starts with the whole high queue, ends with the whole low queue, and has length exactly \|hi\| + \|lo\| |
| CommandBuffer.RunAppends | GameServer/wwwroot/core/commandBuf.js:5-7 | enqueueing a list of requests appends, FIFO, the 'hi' ones to `hi` and all others to `lo` |
| CommandBuffer.ClassesPartition | GameServer/wwwroot/core/commandBuf.js:5-7 | the high and low classes together hold every enqueued command once (as multisets), neither duplicating nor dropping any |
| CommandBuffer.DrainAfterRun | GameServer/wwwroot/core/commandBuf.js:8-11 | draining a fresh buffer after a run of requests yields the high commands in order then the low ones, a permutation of all commands enqueued |
| CommandBuffer.CommandBuf.Enqueue | GameServer/wwwroot/core/commandBuf.js:5-7 | prio "hi" appends to `hi`; any other prio, the default "lo" included, appends to `lo`; the other queue is unchanged |
| CommandBuffer.CommandBuf.Drain | GameServer/wwwroot/core/commandBuf.js:8-11 | returns old `hi` ++ old `lo` and leaves both queues empty |
| CommandBuffer.DrainScenario | GameServer/wwwroot/core/commandBuf.js:5-11 | a "sync" enqueued at hi after two lo commands drains first; an immediate second drain returns [] |
| JsValues.Spread | GameServer/wwwroot/data/world.js:52 | the own enumerable properties a spread copies: each maps to the object's value for that key, and absent keys read as undefined |
| JsValues.IntToString | GameServer/wwwroot/data/world.js:49 | String(n) of a number is never the empty string |
| JsValues.KeysOf | GameServer/wwwroot/data/world.js:46 | an object's property names, each once, ordered by their first definitions |
| JsValues.ListOf | GameServer/wwwroot/data/world.js:46 | an array's items, or `Object.values`: one value per property, the value its name reads |
| JsValues.LookupDistinct | GameServer/wwwroot/data/world.js:46 | when every name is defined once, a name reads the value defined with it |
| JsValues.ObjectValuesInOrder | GameServer/wwwroot/data/world.js:46 | when every name is defined once, `Object.values` lists the defined values in order |
| JsValues.DuplicateKeyReadsLast | GameServer/wwwroot/data/world.js:58 | an entities object defining "e1" twice yields a single entry, the one defined last |
| Tables.Table.Put | GameServer/wwwroot/data/world.js:52 | Map.set stores the value under the key and keeps the key order valid, old keys first |
| Tables.Table.Delete | GameServer/wwwroot/data/world.js:98 | Map.delete removes exactly that key |
| Tables.Table.Values | GameServer/wwwroot/data/world.js:81 | Map.values lists the stored values in key insertion order |
| ClientWorld.Merged | GameServer/wwwroot/data/world.js:51-66 | the merged record has `id` forced to the string key; fields of the snapshot entry override, other previous fields are kept; an entity's owner is the stringified new owner or the previous owner, and stays a string |
| ClientWorld.OwnedBy | GameServer/wwwroot/data/world.js:80-82 | the entities listed have exactly the given owner, and every entity with that owner is listed |
| ClientWorld.MergeAllWellFormed | GameServer/wwwroot/data/world.js:47-67 | merging a list keeps every record's id equal to its key and every owner a string, and keeps the existing keys |
| ClientWorld.MergeAllAppend | GameServer/wwwroot/data/world.js:47-53 | merging a + b is merging a then b |
| ClientWorld.MergeAllSkips | GameServer/wwwroot/data/world.js:48-62 | an entry that is falsy, has a null id, or whose id stringifies to "" has no effect |
| ClientWorld.MergeAllUntouched | GameServer/wwwroot/data/world.js:30-31 | a key no entry of the snapshot names keeps its previous record |
| ClientWorld.MergeAllKeys | GameServer/wwwroot/data/world.js:47-53 | after a merge a key is present iff it was before or some entry names it |
| ClientWorld.MergeAllLastEntry | GameServer/wwwroot/data/world.js:51-66 | the stored record for a key is the last entry naming it merged over the record that existed before that entry |
| ClientWorld.AbsentSectionUnchanged | GameServer/wwwroot/data/world.js:45-57 | a missing or falsy players/entities section leaves that table unchanged |
| ClientWorld.EmptyIdDiffers | GameServer/wwwroot/data/world.js:91-92 | an entry with id "" is skipped by applySnapshot but stored under "" by upsertEntity |
| ClientWorld.NumericIdKept | GameServer/wwwroot/data/world.js:49 | a numeric id becomes its decimal string |
| ClientWorld.MergeLoop | GameServer/wwwroot/data/world.js:47-67 | the loop over one section's entries computes MergeAll: skips, then merges each entry over the record stored under its id |
| ClientWorld.World.constructor | GameServer/wwwroot/data/world.js:18-27 | a world starts empty and applies a truthy seed snapshot |
| ClientWorld.World.ApplySnapshot | GameServer/wwwroot/data/world.js:34-69 | a non-object is a no-op; time is taken only from a number and myId only from a string or number, as String(myId); both tables are merged as MergeAll says and stay well formed |
| ClientWorld.World.GetMyPlayer | GameServer/wwwroot/data/world.js:72-75 | the player stored under myId, and null when myId is unset, empty or not a key |
| ClientWorld.World.GetEntitiesByOwner | GameServer/wwwroot/data/world.js:78-83 | [] for an empty owner; otherwise exactly the entities with that owner, in table order |
| ClientWorld.World.GetEntity | GameServer/wwwroot/data/world.js:86 | the entity stored under the id, or null when there is none |
| ClientWorld.World.UpsertEntity | GameServer/wwwroot/data/world.js:90-96 | merges one entity as applySnapshot does, but rejects only a missing id; nothing else changes |
| ClientWorld.World.RemoveEntity | GameServer/wwwroot/data/world.js:98 | deletes only that key; players, time and myId are unchanged |
| ClientWorld.World.Clear | GameServer/wwwroot/data/world.js:100 | empties both tables, time becomes 0 and myId null |
| Entities.ColorOr | GameServer/wwwroot/data/entity.js:31 | a falsy colour becomes "red"; a non-empty colour is kept |
| Entities.Damaged | GameServer/wwwroot/data/entity.js:48-50 | max(0, hp - dmg): never negative, zero iff dmg >= hp, and never above hp for dmg >= 0 |
| Entities.Initial | GameServer/wwwroot/data/entity.js:21-36 | fields copied verbatim, speed defaults to 0, colour to "red", selectable iff data.selectable or the type starts with unit, building or resource |
| Entities.PosRoundTrip | GameServer/wwwroot/data/entity.js:39-42 | setting pos then reading it gives the value set; setting pos to itself changes nothing |
| Entities.DamageComposes | GameServer/wwwroot/data/entity.js:48-50 | damage a then b >= 0 equals damage a + b |
| Entities.AliveAfterDamage | GameServer/wwwroot/data/entity.js:45-50 | alive after damage iff dmg < hp; a dead entity has hp 0 |
| Entities.MovesCompose | GameServer/wwwroot/data/entity.js:53-56 | two moves add up, and a move changes no serialized field but x and y |
| Entities.PrefixedTypesSelectable | GameServer/wwwroot/data/entity.js:33-35 | every type starting with unit, building or resource is selectable |
| Entities.JsonRoundTrip | GameServer/wwwroot/data/entity.js:59-71 | toJSON keeps exactly id, type, x, y, w, h, hp, owner, color: rebuilding from it loses only speed (back to 0) and an explicit selectable |
| Entities.Entity.constructor | GameServer/wwwroot/data/entity.js:21-36 | the new entity's state is Initial(data) |
| Entities.Entity.SetPos | GameServer/wwwroot/data/entity.js:42 | only x and y change, to the given position |
| Entities.Entity.ApplyDamage | GameServer/wwwroot/data/entity.js:48-50 | hp becomes max(0, hp - dmg); nothing else changes |
| Entities.Entity.MoveBy | GameServer/wwwroot/data/entity.js:53-56 | x and y shift by the delta; nothing else changes |
| Entities.Entity.Pos | GameServer/wwwroot/data/entity.js:39 | the `pos` getter reads x and y |
| Entities.Entity.IsAlive | GameServer/wwwroot/data/entity.js:45 | alive iff hp > 0 |
| Entities.Entity.ToJSON | GameServer/wwwroot/data/entity.js:59-71 | the nine serialized fields carry the entity's id, type, x, y, w, h, hp, owner and color |
| LegacyEntities.Initial | GameServer/wwwroot/data/entry.js:19-29 | fields copied verbatim, colour defaults to "red" when falsy |
| LegacyEntities.JsonRoundTrip | GameServer/wwwroot/data/entry.js:52-64 | toJSON yields exactly the nine stored fields: rebuilding from it gives the same entity |
| LegacyEntities.DamageClamps | GameServer/wwwroot/data/entry.js:41-43 | hp never drops below 0, and damage a then b >= 0 equals damage a + b |
| LegacyEntities.Entity.constructor | GameServer/wwwroot/data/entry.js:19-29 | the new entity's state is Initial(data) |
| LegacyEntities.Entity.SetPos | GameServer/wwwroot/data/entry.js:35 | only x and y change, to the given position |
| LegacyEntities.Entity.ApplyDamage | GameServer/wwwroot/data/entry.js:38-43 | hp becomes max(0, hp - dmg), and isAlive afterwards iff dmg < old hp |
| LegacyEntities.Entity.MoveBy | GameServer/wwwroot/data/entry.js:46-49 | x and y shift by the delta; nothing else changes |
| LegacyEntities.Entity.Pos | GameServer/wwwroot/data/entry.js:32 | the `pos` getter reads x and y |
| LegacyEntities.Entity.IsAlive | GameServer/wwwroot/data/entry.js:38 | alive iff hp is at least 1, that is hp > 0 |
| LegacyEntities.Entity.ToJSON | GameServer/wwwroot/data/entry.js:52-64 | the serialized object carries all nine fields of the entity |
| Seqs.InsertAll | GameServer/wwwroot/ui/input.js:67-70 | adding ids to a Set keeps the old ones first, in order, adds the new ones, and stays duplicate-free |
| Seqs.Dedup | GameServer/wwwroot/ui/selectionStore.js:17 | `new Set(list)` holds exactly the elements of list, without duplicates, in the order of their first occurrences |
| Seqs.Without | GameServer/wwwroot/ui/selectionStore.js:20 | Set.delete removes only that element |
| Seqs.DedupOfDistinct | GameServer/wwwroot/ui/input.js:68-71 | a Set rebuilt from a duplicate-free list is that list |
| Selection.SelectionStore.Get | GameServer/wwwroot/ui/selectionStore.js:16 | the current ids, without duplicates, and the current hover value |
| Selection.SelectionStore.Set | GameServer/wwwroot/ui/selectionStore.js:17 | the selection becomes the deduplicated list; hover unchanged |
| Selection.SelectionStore.Add | GameServer/wwwroot/ui/selectionStore.js:19 | inserts the id; an id already present leaves the selection unchanged |
| Selection.SelectionStore.Delete | GameServer/wwwroot/ui/selectionStore.js:20 | removes only that id |
| Selection.SelectionStore.Clear | GameServer/wwwroot/ui/selectionStore.js:21 | empties the ids and keeps hover |
| Selection.SelectionStore.SetHover | GameServer/wwwroot/ui/selectionStore.js:22 | changes only the hover value |
| Selection.SelectionStore.OnChange | GameServer/wwwroot/ui/selectionStore.js:23 | registers the subscriber |
| Selection.SelectionStore.Unsubscribe | GameServer/wwwroot/ui/selectionStore.js:23 | the unsubscribe function removes exactly that subscriber and reports whether it was there |
| Selection.StoreScenario | GameServer/wwwroot/ui/selectionStore.js:17-20 | set [u1,u2,u1] gives [u1,u2]; add u3 then u1 gives [u1,u2,u3]; del u1 gives [u2,u3] |
| Input.Classify | GameServer/wwwroot/ui/input.js:46-48 | ally iff the owner is the local player; otherwise resource iff type "resource"; otherwise enemy; never ground |
| Input.Under | GameServer/wwwroot/ui/input.js:37-42 | exactly the entities whose box contains the point, edges included |
| Input.TopIndex | GameServer/wwwroot/ui/input.js:43-44 | the first element of greatest z (missing z = 0): what a stable descending sort puts first |
| Input.Topmost | GameServer/wwwroot/ui/input.js:36-45 | none iff nothing is under the point; otherwise an entity under it, of greatest z among them, and the earliest in the list among equals |
| Input.HitAt | GameServer/wwwroot/ui/input.js:36-50 | ground with no entity iff nothing is under the point; otherwise the topmost entity with its classification |
| Input.TopOfUnder | GameServer/wwwroot/ui/input.js:43-45 | sorting the entities under the point and taking the first yields Topmost |
| Input.HitTestPoint | GameServer/wwwroot/ui/input.js:36-50 | the loop, sort and classification compute HitAt |
| Input.OwnsIdUnique | GameServer/wwwroot/ui/input.js:52-55 | with unique ids, isOwned(id) iff the entity with that id belongs to the local player |
| Input.OwnedIds | GameServer/wwwroot/ui/input.js:122 | `ids.filter(isOwned)`: exactly the ids isOwned accepts, at most as many as given |
| Input.IsOwned | GameServer/wwwroot/ui/input.js:52-55 | the first entity with the id decides; false when there is none |
| Input.FilterOwned | GameServer/wwwroot/ui/input.js:122 | computes OwnedIds |
| Input.Picked | GameServer/wwwroot/ui/input.js:57-65 | the picked ids are exactly those of selectable entities of the local player whose box meets the rectangle, edges included |
| Input.RectSelection | GameServer/wwwroot/ui/input.js:66-74 | non-additive: exactly the pick; additive: the old selection, in order, followed by the new pick ids; duplicate-free |
| Input.Toggle | GameServer/wwwroot/ui/input.js:82-83 | the id leaves if selected and joins otherwise; every other id stays as it was |
| Input.SingleSelection | GameServer/wwwroot/ui/input.js:78-90 | a miss clears; non-additive selects just the hit id; additive is Toggle of the hit id; stays duplicate-free |
| Input.Decide | GameServer/wwwroot/ui/input.js:130-148 | every order goes to the owned ids and the mode ends default; attack-move: ground gives an attackMove move to the point, a hit with an id an attack on that id, no order only without an id; default: enemy gives attack, resource gives harvest, anything else moveLine to the point |
| Input.DefaultRightClickTargets | GameServer/wwwroot/ui/input.js:141-147 | in default mode an attack targets the topmost entity, owned by someone else and not a resource; harvest targets a foreign resource; moveLine iff the ground or an own unit is under the cursor |
| Input.AttackMoveRightClick | GameServer/wwwroot/ui/input.js:133-139 | in attack-move mode a right click always orders: attack-move over the ground, otherwise attack the topmost entity; the mode resets |
| Input.RightClick | GameServer/wwwroot/ui/input.js:125-150 | without owned selected ids or a known cursor position nothing is issued and the mode is kept; otherwise the mode ends default, every order goes to the owned ids, moves go to the last cursor position and attacks or harvests to the id hit there |
| Input.KeyMode | GameServer/wwwroot/ui/input.js:178-187 | Escape gives default mode, a or A attack-move, any other key keeps the mode |
| Input.OwnerChangeScenario | GameServer/wwwroot/ui/input.js:57-76 | the same rectangle picks nothing while the owner id is unknown and the player's unit once it is set; a registered subscriber survives both selections |
| Input.Input.SelectInRect | GameServer/wwwroot/ui/input.js:57-76 | the store's ids become RectSelection of the pick, with the owner id read at the event; hover and subscribers unchanged |
| Input.Input.SelectSingle | GameServer/wwwroot/ui/input.js:78-90 | the store's ids become SingleSelection of the hit at the point: a miss clears, a plain click selects the hit id, shift/ctrl toggles it; hover and subscribers unchanged |
| Input.Input.OnPointerDown | GameServer/wwwroot/ui/input.js:93-105 | a left press marks the button down at that point and not dragging; other buttons change nothing |
| Input.Input.OnPointerMove | GameServer/wwwroot/ui/input.js:158-174 | remembers the position, replaces hover only when the kind or id under the cursor changed, and starts a drag once the cursor is 4 pixels from the press; the selected ids and subscribers are unchanged |
| Input.Input.OnPointerUp | GameServer/wwwroot/ui/input.js:107-156 | left: a drag selects the box spanned by press and last position, otherwise a single selection at the press (shift or ctrl adds); right: the order Decide gives for the owned selected ids, only with some and a known position; the press state always resets; hover and subscribers unchanged |
| Input.Input.OnKeyDown | GameServer/wwwroot/ui/input.js:178-193 | a/A arms attack-move; Escape clears the selection and resets the mode; s/S stops the owned selected ids when there are any; hover and subscribers unchanged |
| TickModel.Invocations | GameServer/wwwroot/core/model.js:34-36 | one call per listener, in registration order, each with dt/1000 |
| TickModel.EachListenerOnce | GameServer/wwwroot/core/model.js:34-36 | with a set of listeners, a tick calls each registered listener exactly once and no other |
| TickModel.Model.constructor | GameServer/wwwroot/core/model.js:8-18 | stopped, time 0, no listeners, fixedDtMs = 1000 / tps with tps 20 by default |
| TickModel.Model.OnTick | GameServer/wwwroot/core/model.js:42-44 | registering a listener twice keeps one registration |
| TickModel.Model.Tick | GameServer/wwwroot/core/model.js:31-37 | timeMs grows by exactly dt (fixedDtMs by default) and every listener is called once with dt/1000 |
| TickModel.Model.LoopStep | GameServer/wwwroot/core/model.js:46-55 | a stopped model does nothing; a running one ticks fixedDtMs, records the tick's duration, and its budget becomes fixedDtMs - lastTickMs |
| TickModel.Model.Start | GameServer/wwwroot/core/model.js:21-25 | a no-op when running; otherwise sets running and runs the first loop step |
| TickModel.Model.Stop | GameServer/wwwroot/core/model.js:27-29 | clears running and changes nothing else |
| TickModel.TickScenario | GameServer/wwwroot/core/model.js:31-44 | at 20 tps two default ticks reach 100 ms, and a listener registered twice is called once with 0.05 |
| TickModel.StopScenario | GameServer/wwwroot/core/model.js:21-29 | a stopped model's next loop step makes no calls |
| Int64.Incremented | GameServer/Server/Domain/IdGen.cs:15 | Interlocked.Increment: adds one below long.MaxValue and wraps to long.MinValue at it |
| Int64.AfterFromZero | GameServer/Server/Domain/IdGen.cs:9-15 | after n calls on a fresh counter the counter equals n |
| Int64.IssuedFromZero | GameServer/Server/Domain/IdGen.cs:3-15 | a fresh counter returns 1, 2, 3, …: the i-th call returns i + 1 |
| Int64.IssuedIncreasing | GameServer/Server/Domain/IdGen.cs:3-6 | the returned ids strictly increase, so no id is returned twice, until long.MaxValue |
| Int64.WrapsAtMax | GameServer/Server/Domain/IdGen.cs:15 | the call after long.MaxValue returns long.MinValue |
| ConcurrentMaps.TryAdd | GameServer/Server/Domain/PlayerRegistry.cs:14 | succeeds iff the key is free; on success the value is stored and the size grows by one, otherwise nothing changes |
| ConcurrentMaps.TryRemove | GameServer/Server/Domain/PlayerRegistry.cs:17 | reports whether the key was present; afterwards it is absent and every other entry is unchanged |
| ConcurrentMaps.AddThenRemove | GameServer/Server/Domain/PlayerRegistry.cs:14-17 | adding a fresh id then removing it restores the registry |
| ConcurrentMaps.AddTwiceKeepsFirst | GameServer/Server/Core/Domain/PlayerRegistry.cs:10 | a second add under the same id fails and keeps the first player |
| ConcurrentMaps.RemoveTwice | GameServer/Server/Core/Domain/PlayerRegistry.cs:12 | a second removal of the same id reports false |
| Domain.IdGen.Next | GameServer/Server/Domain/IdGen.cs:15 | increments the counter and returns the new value |
| Domain.PlayerRegistry.Add | GameServer/Server/Domain/PlayerRegistry.cs:13-14 | false and unchanged if the id is taken; otherwise the player is inserted under its id and the result is true |
| Domain.PlayerRegistry.Remove | GameServer/Server/Domain/PlayerRegistry.cs:16-17 | true iff the id was present; afterwards it is absent and other entries are unchanged |
| Domain.PlayerRegistry.TryGet | GameServer/Server/Domain/PlayerRegistry.cs:19-20 | succeeds iff the id is present and then yields the stored player |
| Domain.PlayerRegistry.Count | GameServer/Server/Domain/PlayerRegistry.cs:22-23 | the number of registered ids |
| Domain.PlayerRegistry.Snapshot | GameServer/Server/Domain/PlayerRegistry.cs:25-30 | a copy of the contents as a value, which later Add or Remove cannot change |
| Domain.IdScenario | GameServer/Server/Domain/IdGen.cs:9-15 | a fresh generator returns 1 then 2 |
| Domain.RegistryScenario | GameServer/Server/Domain/PlayerRegistry.cs:14-30 | a duplicate add fails; after Remove, TryGet fails and Count is 0, while a snapshot taken earlier still holds the player |
| CoreDomain.IdGen.NextEntity | GameServer/Server/Core/Domain/IdGen.cs:9 | advances only the entity counter and returns its new value, never null |
| CoreDomain.IdGen.NextPlayer | GameServer/Server/Core/Domain/IdGen.cs:11 | advances only the player counter and returns its new value |
| CoreDomain.PlayerRegistry.Add | GameServer/Server/Core/Domain/PlayerRegistry.cs:10 | rejects a duplicate id and leaves the map unchanged; otherwise inserts |
| CoreDomain.PlayerRegistry.Remove | GameServer/Server/Core/Domain/PlayerRegistry.cs:12 | true iff the id was present; only that key is removed |
| CoreDomain.PlayerRegistry.Get | GameServer/Server/Core/Domain/PlayerRegistry.cs:14-15 | the stored player iff the id is present, else null |
| CoreDomain.PlayerRegistry.Count | GameServer/Server/Core/Domain/PlayerRegistry.cs:16 | the number of registered ids |
| CoreDomain.PlayerRegistry.Snapshot | GameServer/Server/Core/Domain/PlayerRegistry.cs:18-19 | a copy of the contents as a value |
| CoreDomain.IdScenario | GameServer/Server/Core/Domain/IdGen.cs:5-11 | the counters are independent: player 1, entity 1, then player 2 |
| CoreDomain.RegistryScenario | GameServer/Server/Core/Domain/PlayerRegistry.cs:10-16 | Get finds an added player, finds nothing after Remove, and Count drops back to 0 |

## Left out

- Network clients, server sessions and acceptors, serializers, message
  records and the snapshot and send services. They are socket and JSON-library
  plumbing. The join/teardown flow's domain effect is `Next`, then `Add`, and finally `Remove`; the id generator
  and registry model cover it.
- Rendering, camera, UI panels, the synchronizer and the client stubs: they
  draw, touch the DOM, or call functions no file defines.
- The overlay layer `init` registers draws the drag rectangle; it is drawing
  only, as are `setPointerCapture` and `console.log`.
- The screen-to-world conversion is not drawing: it yields the world
  coordinates every selection and order uses. It depends on the camera,
  which is not part of this model, so it is abstracted: each pointer event
  arrives with both its screen and its world coordinates.
- The `init` argument checks throw on a missing canvas, model, entities, UI
  or owner. The model's constructor takes the selection store and each event
  takes the entity list and the owner id as values, so a missing one cannot
  be expressed and that error path is not modelled.
- `input.js` keeps `mode`, `downPt`, `lastMove`, `dragging` and `isDown` at
  module level, so repeated `init` calls share them. The model gives each
  `Input` object its own copy.
- The `queueMicrotask` notification of selection subscribers is
  asynchronous. Subscribers are a set of handles and are never called.
- Tick listeners may mutate the shared `stats` object or register further
  listeners during a tick. Listeners here are opaque handles, and a tick
  calls exactly the listeners registered when it starts.
- `performance.now` and `setTimeout` in `loop`: the tick's measured duration
  is a parameter of `LoopStep`/`Start`; the timer that schedules the next
  step is the caller calling `LoopStep` again.
- TickModel.Model.constructor: requires a non-zero tps. JavaScript's
  `1000 / 0` is Infinity, which reals do not have.
- ConcurrentDictionary and Interlocked atomicity: operations are sequential
  and each call is one atomic step.
- Floating point: coordinates, sizes and times are reals; hp and damage
  amounts are integers (`Entities.Damaged`, both `ApplyDamage` methods).
  Numbers inside snapshots are integers, so `String(number)` is the decimal
  form of an integer. Fractions, NaN and Infinity are not modelled.
- Snapshot objects are lists of property definitions. A name defined twice
  is one property, enumerated at its first definition and holding its last
  value. JavaScript enumerates integer-like names first in ascending order;
  the model enumerates them in definition order. Getters, prototypes and
  symbol keys are not modelled.
- The `palyers` alias getter of `World` returns the same table as `players`,
  so it adds nothing to the model.
- Input.Sprite: entity ids, owners and types are strings, so every hit on an
  entity carries an id. The `hit.id != null` test of `selectSingle` and the
  `target.id != null` tests of the right click (input.js lines 137, 141 and
  143) are therefore always true for entity hits; an entity without an id is
  not modelled.
- Entity.cs, Unit.cs, Soldier.cs and player.js are data holders; they are not part
  of this model.
