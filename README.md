# Veloren core: a Dafny model

This project models four cores of the Veloren game (an early version of the Rust code base) and proves properties of them:

* **Server bookkeeping** (`server/src/lib.rs`), in `protocol.dfy` and `server.dfy`.
  * The per-client session protocol: the state table of `handle_new_messages` over the six client states, and the keep-alive and timeout rule.
  * Chat routing and the split of chat commands.
  * The terrain chunk pipeline: the pending set, at most one finished chunk drained per tick, and eviction by Chebyshev chunk distance.
  * Deaths and respawns.
  * The per-tick replication to clients, with the `in_vd` filter and the one-tick `ForceUpdate`.
* **The melee combat system** (`common/src/sys/combat.rs`), in `combat.dfy`. It covers one hit pass per swing, guarded by `applied`, every qualifying target hit, and removal after the swing's time window.
* **The client-side figure manager** (`voxygen/src/scene/figure.rs`), in `figure.dfy`. It covers the tick-stamped model cache with age-based eviction, the bone-slot layout of a figure mesh, the view-distance hysteresis of `maintain`, the pruning of dead entities' states, and the `render` filter.
* **LOD fixed-point index arithmetic** (`worldsim/src/lodstore/index.rs`), in `lod.dfy`. It covers the encode and decode of positions, `Sub`, row-major flattening, and the level-index mapping. All of it is modelled with Rust's release-build semantics: wrapping casts and arithmetic.

## Structure

`components.dfy` holds the entity-component store shared by the server and combat. Entities are naturals. Each component kind is a map keyed by entity, and marker components are sets. `World` is a class whose `entities` field lists the alive entities in index order.

Server-side state that Rust updates in place is modelled as a class with `modifies` clauses:

* `Server.Server`: sessions, client order, outbox, pending chunks, jobs, finished chunks and terrain.
* `Figure.FigureModelCache` and `Figure.FigureMgr`.
* The combat system, which works on the `World`.

Each loop becomes a `while` loop proved against a specification function:

* `HandleMsg`/`HandleBatch`/`ProcessSession`;
* `ProcessRound`;
* `Kill`/`KillAll`;
* `RespawnAll`;
* `PhysicsUpdates`;
* `RunSpec`;
* `Maintained`;
* `RenderAll`.

The properties are proved about those functions. The LOD index is pure and is modelled by functions and lemmas.

The unseen `client.rs` is modelled as follows:

* `allow_state(s)` sets the session state and sends `StateAnswerOk(s)`.
* `error_state(e)` keeps the state and sends `StateAnswerErr(e, state)`.
* `force_state(s)` sets the state and sends `ForceState(s)`.
* `notify(e, msg)` queues a message for `e` when `e` is a client.
* `notify_registered` addresses every client whose state is not Connected.
* `notify_ingame` addresses every Spectator or Character client.

The clients are visited in a fixed order (`order`, the connection order). It stands in for the iteration order of the clients map.

## Model

| member | source | states |
|---|---|---|
| Lod.NewAxis | worldsim/src/lodstore/index.rs:47-51 | definition: one axis of `new`, `(x * 32 + 65535) as u32` with each i32 step wrapped; its properties are the NewAxis* lemmas |
| Lod.ToPosAxis | worldsim/src/lodstore/index.rs:59 | definition: one axis of `to_pos_i`, `(x / 32 - 2048) as i32` in u32; see ToPosAxisIsFloor |
| Lod.SubAxis | worldsim/src/lodstore/index.rs:38-45 | definition: one axis of `Sub`, the u32 difference cast to i32 and re-encoded; see SubOfEncodings and SubAxisUnderflow |
| Lod.RelativeTo1d | worldsim/src/lodstore/index.rs:66-68 | definition: `relative_to_1d` with every u32 step wrapped; see RelativeTo1dInRange |
| Lod.LengthToIndex | worldsim/src/lodstore/index.rs:76 | definition: `(n + 4) as u8` with the i8 wrap; see the LengthToIndex* lemmas |
| Lod.TwoPowU | worldsim/src/lodstore/index.rs:79 | definition: `1 << n` in u16 with the shift masked; see TwoPowUIsPow2 and TwoPowURelease |
| Lod.NewAxisNoWrap | worldsim/src/lodstore/index.rs:47-51 | the stored axis equals the plain `x*32 + 65535` exactly when -2047 <= x <= 134215680; above 67106816 the i32 steps overflow and only the final `as u32` restores the plain value |
| Lod.NewAxisIsModular | worldsim/src/lodstore/index.rs:47-51 | the stored axis is the true encoding taken modulo 2^32 |
| Lod.NewAxisWrapsBelow | worldsim/src/lodstore/index.rs:47-51 | below -2047 (down to the i32 multiplication limit) the stored axis is 2^32 larger than the true encoding |
| Lod.ToPosAxisIsFloor | worldsim/src/lodstore/index.rs:59 | decoding is floor division by 32 minus 2048 |
| Lod.ToPosAxisIgnoresFraction | worldsim/src/lodstore/index.rs:59 | two stored values with the same quotient by 32 decode to the same integer |
| Lod.DecodeEncodeAxis | worldsim/src/lodstore/index.rs:47-59 | on the non-wrapping range, decode(encode(x)) is x - 1, not x |
| Lod.DecodeEncode | worldsim/src/lodstore/index.rs:47-59 | `to_pos_i(new(p))` is p - 1 on every axis |
| Lod.DecodeEncodeNeverIdentity | worldsim/src/lodstore/index.rs:47-59 | no position whose x axis is in the non-wrapping range survives the round trip |
| Lod.SubOfEncodings | worldsim/src/lodstore/index.rs:38-51 | for -2047 <= q <= p with p - q <= 4194240 (all of the documented range -2048 to 4095 above -2047), subtracting two encodings re-encodes the raw difference: 1024*(p - q) + 65535 |
| Lod.SubOfNew | worldsim/src/lodstore/index.rs:38-51 | the same fact, axis by axis, for `Sub` on two `LodIndex` values |
| Lod.SubAxisUnderflow | worldsim/src/lodstore/index.rs:38-45 | when the left value is smaller, the u32 subtraction wraps and the wrapped value is re-encoded |
| Lod.RelativeTo1dInRange | worldsim/src/lodstore/index.rs:66-68 | within bounds and without overflow, the flat index is x + y*sx + z*sx*sy and is below sx*sy*sz |
| Lod.RowMajor | worldsim/src/lodstore/index.rs:66-68 | the flat index is the offset inside one z-sheet plus the whole sheets below it |
| Lod.RelativeTo1dInjective | worldsim/src/lodstore/index.rs:66-68 | distinct in-bounds positions flatten to distinct indices |
| Lod.LengthToIndexRange | worldsim/src/lodstore/index.rs:70-76 | length exponents in [-4, 11] map in order onto index exponents in [0, 15], as n + 4 |
| Lod.LengthToIndexInjective | worldsim/src/lodstore/index.rs:76 | `length_to_index` is injective on all of i8, the wrap included |
| Lod.LengthToIndexBounds | worldsim/src/lodstore/index.rs:70-76 | the two range ends map onto each other |
| Lod.TwoPowUIsPow2 | worldsim/src/lodstore/index.rs:73-80 | `two_pow_u(n)` is 2^n and fits in u16 for every n <= 15 |
| Lod.TwoPowURelease | worldsim/src/lodstore/index.rs:78-80 | for every u8, the release build's masked shift makes `two_pow_u(n)` equal to 2^(n mod 16), which fits in u16 |
| Components.AbsAsU32 | voxygen/src/scene/figure.rs:696-698 | `d.abs() as u32` truncates the absolute value toward zero when it fits in u32, and saturates at 2^32 - 1 otherwise |
| Components.World.CreateEntitySynced | server/src/lib.rs:382 | a fresh entity, listed after every alive one, carrying only the next Uid |
| Components.Without | server/src/lib.rs:620 | an entity is kept iff it was listed and is not the removed one, and the list never grows |
| Components.World.DeleteEntity | server/src/lib.rs:620 | the entity is no longer alive, every storage forgets it, and the order of the others is kept |
| Combat.IsHit | common/src/sys/combat.rs:48-51 | definition: the four hit conditions (another entity, alive, within range, inside the cone) |
| Combat.Hits | common/src/sys/combat.rs:44-51 | definition: a target of the Pos/Vel/Stats join that meets IsHit |
| Combat.Knock | common/src/sys/combat.rs:55-56 | after the knock-back the vertical velocity is exactly 15 |
| Combat.HitOne | common/src/sys/combat.rs:47-58 | only the target's Vel, Stats and ForceUpdate can change, no death flag changes, and every other entity is untouched |
| Combat.HitPass | common/src/sys/combat.rs:44-59 | a pass over the targets changes only Vel, Stats and ForceUpdate, and only for the targets visited |
| Combat.Swing | common/src/sys/combat.rs:41-69 | one attacker's turn changes only Vel, Stats, ForceUpdate and Attacking, and never a death flag or the keys of Vel, Stats or Attacking |
| Combat.SwingAll | common/src/sys/combat.rs:39-70 | the same frame for the whole attacker loop |
| Combat.RunSpec | common/src/sys/combat.rs:38-74 | the system changes only Vel, Stats, ForceUpdate and Attacking; Attacking only shrinks; ForceUpdate only grows |
| Combat.HitPassAt | common/src/sys/combat.rs:44-58 | over distinct targets, a qualifying target is damaged by 10 with the attacker's Uid, knocked back and force-updated once; any other entity is untouched |
| Combat.SwingAttacking | common/src/sys/combat.rs:42-68 | one turn marks the attacker's swing applied, records it as finished when past 0.5 s, advances its time otherwise, and touches no other swing |
| Combat.SwingAllAttacking | common/src/sys/combat.rs:39-70 | over distinct attackers, every joined swing is applied and those past the window are exactly the finished list |
| Combat.SwingTarget | common/src/sys/combat.rs:42-61 | one turn damages, lifts and force-updates a target exactly when its pass lands on it, and otherwise leaves it alone |
| Combat.SwingAllTarget | common/src/sys/combat.rs:39-61 | a target loses 10 health per landed hit; if none lands it is unchanged, otherwise it is force-updated and moving up at 15 |
| Combat.RunAttacking | common/src/sys/combat.rs:60-74 | after the tick a joined swing is gone exactly when it was past 0.5 s, and otherwise it is applied with its time advanced by dt |
| Combat.RunTarget | common/src/sys/combat.rs:44-58 | after the tick every entity has lost 10 health per attacker whose pass landed on it; if someone hit it, it is force-updated and moving up at 15, otherwise it is unchanged |
| Combat.HittersZero | common/src/sys/combat.rs:42 | when every swing is already applied, no attacker lands a hit |
| Combat.RunIdleWhenApplied | common/src/sys/combat.rs:42-61 | with every joined swing applied, a tick leaves Vel, Stats and ForceUpdate alone |
| Combat.SecondRunHitsNothing | common/src/sys/combat.rs:42-61 | a swing hits at most once: the next tick damages and pushes nobody |
| Combat.HitTarget | common/src/sys/combat.rs:47-58 | the inner loop body updates the world as `HitOne` states |
| Combat.HitTargets | common/src/sys/combat.rs:44-59 | the inner loop updates the world as `HitPass` over the alive entities states |
| Combat.SwingOne | common/src/sys/combat.rs:41-69 | one outer-loop iteration updates the world and the finished list as `Swing` states |
| Combat.Run | common/src/sys/combat.rs:24-75 | the whole system run leaves the world as `RunSpec` states |
| Combat.RemoveFinished | common/src/sys/combat.rs:70-74 | exactly the finished swings lose their Attacking component |
| Figure.BoneMeshes | voxygen/src/scene/figure.rs:63-118 | a body always has 16 bone slots |
| Figure.TaggedFromSlots | voxygen/src/scene/figure.rs:120-129 | each mesh entry comes from the slot its bone tag names, tags strictly increase, and every present slot contributes |
| Figure.TaggedLeading | voxygen/src/scene/figure.rs:120-129 | when exactly the first n slots are present, the mesh is those n parts tagged 0 to n - 1 |
| Figure.BoneLayout | voxygen/src/scene/figure.rs:63-129 | humanoid bodies fill 14 slots, quadrupeds 6 and medium quadrupeds 11, and the part in slot i carries bone index i |
| Figure.BuildMesh | voxygen/src/scene/figure.rs:120-129 | the mesh loop produces exactly the tagged mesh of the slots |
| Figure.Touched | voxygen/src/scene/figure.rs:54-135 | after a use the body is cached with `last_used` = tick; a hit keeps the existing model; a miss builds it; other entries are unchanged |
| Figure.Retained | voxygen/src/scene/figure.rs:142-146 | cleaning keeps exactly the entries with last_used + 60 > tick, unchanged, and adds none |
| Figure.RetainedLater | voxygen/src/scene/figure.rs:142-146 | cleaning at t1 and then at a later t2 is one clean at t2 |
| Figure.UseThenClean | voxygen/src/scene/figure.rs:54-146 | a body used at tick t survives a clean at t' exactly when t' < t + 60 |
| Figure.FigureModelCache.GetOrCreateModel | voxygen/src/scene/figure.rs:48-140 | the cache becomes `Touched`, and the returned model is the cached one, which is the model built for the body |
| Figure.FigureModelCache.Clean | voxygen/src/scene/figure.rs:142-146 | the cache becomes `Retained` of the old cache |
| Figure.VdPercent | voxygen/src/scene/figure.rs:496-500 | `vd_percent` is the largest of the three per-axis percentages |
| Figure.AliveOnly | voxygen/src/scene/figure.rs:656-662 | a state map keeps exactly the states of alive entities, unchanged |
| Figure.Pruned | voxygen/src/scene/figure.rs:656-662 | after pruning, no state map holds an entity that is not alive |
| Figure.MaintainOne | voxygen/src/scene/figure.rs:484-519 | definition: one entity of the `maintain` loop, with the hysteresis thresholds; see Hysteresis and MaintainOneFrame |
| Figure.Visible | voxygen/src/scene/figure.rs:694-702 | definition: the `render` filter (in the join, inside the view box, not dead); see RenderAllMembers |
| Figure.RenderStep | voxygen/src/scene/figure.rs:694-726 | definition: one entity of the `render` loop; see RenderAllMembers |
| Figure.MaintainOneFrame | voxygen/src/scene/figure.rs:484-519 | one loop step changes at most the state of its own entity in its own kind's map |
| Figure.MaintainAllFrame | voxygen/src/scene/figure.rs:484-519 | the loop changes only the states of the entities it visits |
| Figure.Hysteresis | voxygen/src/scene/figure.rs:496-519 | beyond 120 % the state is removed; between 100 % and 120 % it is kept as it was; otherwise it is created or holds the current position and orientation |
| Figure.MaintainSuffix | voxygen/src/scene/figure.rs:484-519 | the steps after an entity's own step leave its state alone |
| Figure.TouchedAllMeaning | voxygen/src/scene/figure.rs:704-720 | after a render pass every body drawn is cached and stamped with the tick, and every other entry is as before |
| Figure.RenderAllMembers | voxygen/src/scene/figure.rs:683-728 | a figure is drawn iff it is inside the box, not dead and has a saved state, always with its body's model; it is warned about iff it is visible without a state |
| Figure.FigureMgr.Clean | voxygen/src/scene/figure.rs:468-470 | the manager's clean is the model cache's clean |
| Figure.FigureMgr.Maintain | voxygen/src/scene/figure.rs:472-663 | the state maps become `Maintained` of the old ones, and afterwards hold only alive entities |
| Figure.FigureMgr.DrawOne | voxygen/src/scene/figure.rs:720 | drawing appends the body's model and records the cache use |
| Figure.FigureMgr.RenderOne | voxygen/src/scene/figure.rs:694-726 | one step of the render loop, as `RenderStep` states, with the cache use recorded |
| Figure.FigureMgr.ShowOne | voxygen/src/scene/figure.rs:704-725 | a visible figure is drawn when it has a state and warned about otherwise |
| Figure.FigureMgr.Render | voxygen/src/scene/figure.rs:665-729 | the draws and warnings are `RenderAll` over the join order, and the cache holds every drawn body stamped with the tick |
| Protocol.HandleMsg | server/src/lib.rs:423-573 | definition: the dispatch of one client message in the session's state; its rows are the lemmas below |
| Protocol.HandleBatch | server/src/lib.rs:421-574 | definition: the messages of one batch dispatched in order; see BatchOnlyAppends and NeverBackToConnected |
| Protocol.ProcessSession | server/src/lib.rs:414-594 | definition: one client's turn, with the ping refresh, the timeout rule and the disconnect; see BatchRefreshesPing, SilentSession and DisconnectIsLast |
| Protocol.Finish | server/src/lib.rs:585-594 | definition: the end of a turn, sending Disconnect and the notice when the client leaves; see DisconnectIsLast |
| Protocol.RequestConnectedDisconnects | server/src/lib.rs:424-425 | requesting Connected only asks for a disconnect |
| Protocol.RequestRegistered | server/src/lib.rs:426-438 | a Registered request is WrongMessage from Connected and Already from Registered; it is granted from Spectator, Character and Dead, and ignored in Pending |
| Protocol.RequestSpectatorAlwaysAlready | server/src/lib.rs:439-451 | a Spectator request is answered Already in every state and never moves the session, because the inner match re-reads the requested state |
| Protocol.RequestCharacterOrDead | server/src/lib.rs:452-456 | requesting Character is WrongMessage and requesting Dead is Impossible, in every state |
| Protocol.InitializePlayer | server/src/lib.rs:634-677 | definition: `initialize_player` with the login notice of lib.rs:466: the Player is written, the physics and animation sync sent, the session allowed into Registered; see RegisterOnlyFromConnected and SyncSendsNoDisconnect |
| Protocol.CreateCharacter | server/src/lib.rs:163-183 | definition: `create_player_character` as `HandleMsg` uses it: the seven component writes at the spawn point and the session allowed into Character; see CharacterTable |
| Protocol.RegisterOnlyFromConnected | server/src/lib.rs:459-471 | Register from Connected stores the Player and ends in Registered with an Ok answer; in any other state it is Impossible and changes nothing |
| Protocol.CharacterTable | server/src/lib.rs:482-496 | Character from Registered, Spectator or Dead ends in Character at the spawn point with default stats and forced update; it is Already in Character, Impossible from Connected, and ignored in Pending |
| Protocol.GatedMessages | server/src/lib.rs:497-547 | Attack, PlayerAnimation and PlayerPhysics outside Character, and Respawn outside Dead, are Impossible and change nothing |
| Protocol.AttackNeverRestarts | server/src/lib.rs:497-509 | an Attack in Character starts a swing only when none is active |
| Protocol.ChatGate | server/src/lib.rs:516-529 | chat is Impossible in Connected and ignored in Pending; otherwise it is queued exactly when it is at most the maximum length |
| Protocol.ChunkRequestGate | server/src/lib.rs:548-566 | a chunk request is Impossible in Connected, Registered and Dead, and ignored in Pending; in game it is answered with the loaded chunk or queued for generation |
| Protocol.AlwaysPossible | server/src/lib.rs:567-572 | in every state, Ping is answered with Pong, Pong is ignored and Disconnect asks for a disconnect |
| Protocol.StateMovesOnlyWhenAllowed | server/src/lib.rs:423-573 | a message changes the session state only with an Ok answer for the new state, and only Register leaves Connected, into Registered |
| Protocol.NeverBackToConnected | server/src/lib.rs:422-573 | no batch brings a registered session back to Connected or into Pending |
| Protocol.MsgOnlyAppends | server/src/lib.rs:423-573 | a message only appends to what is sent, queued and requested; the disconnect flag is raised exactly by Disconnect or by requesting Connected, and never withdrawn |
| Protocol.BatchOnlyAppends | server/src/lib.rs:422-574 | the same for a whole batch: it asks for a disconnect iff one was asked already or the batch holds Disconnect or a Connected request |
| Protocol.BatchRefreshesPing | server/src/lib.rs:418-419 | a non-empty batch sets `last_ping` to now and empties the inbox |
| Protocol.SilentSession | server/src/lib.rs:575-583 | a client that sent nothing is dropped iff more than 20 s have passed or its postbox failed; otherwise it is pinged iff more than 10 s have passed |
| Protocol.SyncSendsNoDisconnect | server/src/lib.rs:643-673 | the physics and animation messages of the login sync never include Disconnect |
| Protocol.BatchSendsNoDisconnect | server/src/lib.rs:422-574 | dispatching a batch never sends Disconnect itself |
| Protocol.DisconnectIsLast | server/src/lib.rs:585-594 | a client's turn ends in a disconnect exactly when the last message sent to it is Disconnect |
| Server.Fanout | server/src/lib.rs:605-613 | a client receives the message iff it is listed and a recipient, and every envelope carries that message |
| Server.FanoutOnce | server/src/lib.rs:605-613 | over distinct clients no two envelopes share an addressee, so each recipient receives exactly one copy |
| Server.Keep | server/src/lib.rs:413-595 | the filtered order keeps exactly the listed entities that are in the kept set, and has no repeats when the original had none (used to cut the client order to the surviving sessions) |
| Server.FindSpace | server/src/lib.rs:780 | finds the first space, or reports that there is none |
| Server.SplitCommandParts | server/src/lib.rs:780-784 | the keyword never holds a space; with a space the command is keyword, space and arguments; without one the arguments are empty |
| Server.Shown | server/src/lib.rs:605-613 | a server notice is shown as is, and a player's line ends with its text |
| Server.RouteLine | server/src/lib.rs:598-614 | definition: the routing of one chat line; see RouteLineRule |
| Server.RouteLineRule | server/src/lib.rs:598-616 | a known command goes to its handler; an unknown one is answered only to its sender; any other line goes to exactly the registered clients |
| Server.ChatEvents | server/src/lib.rs:615 | one frontend Chat event per queued line, in order |
| Server.AdmitMeaning | server/src/lib.rs:381-396 | new clients get Connected sessions stamped with the current time, and other sessions are unchanged |
| Server.NumberUidsMeaning | server/src/lib.rs:382 | new entities get consecutive Uids in creation order, and other Uids are kept |
| Server.Arrivals | server/src/lib.rs:398 | one ClientConnected event per new client, in order |
| Server.JoinedStep | server/src/lib.rs:381-399 | one more connection extends the joined state by one fresh entity, session, Uid and event |
| Server.Departures | server/src/lib.rs:619-623 | one ClientDisconnected event per deleted client, in order |
| Server.Turn | server/src/lib.rs:413-595 | a turn touches only its own session; it removes the session exactly when it records the client as gone |
| Server.ProcessRound | server/src/lib.rs:413-595 | the round only removes sessions; the gone clients have none; unvisited sessions are unchanged |
| Server.RoundKeepsOrDrops | server/src/lib.rs:585-594 | over distinct clients, a session survives the round iff its client is not among the disconnected |
| Server.GoneWereVisited | server/src/lib.rs:589 | only visited clients are recorded as disconnected |
| Server.Sees | server/src/lib.rs:294-309 | definition: a player with a position and a view distance is within it of the chunk in Chebyshev chunk distance |
| Server.KeptAlive | server/src/lib.rs:326-345 | definition: some alive player sees the chunk; see EvictChunks and NoViewKeepsNothing |
| Server.ChunkAudience | server/src/lib.rs:294-318 | definition: the clients whose player sees a drained chunk; see DrainChunk |
| Server.InViewOf | server/src/lib.rs:709-729 | definition: the `in_vd` closure, compared in u32 per axis |
| Server.PhysicsAudience | server/src/lib.rs:731-734 | definition: the in-game clients with the entity in view, its own client only when force-updated; see PhysicsFilter |
| Server.AnimationAudience | server/src/lib.rs:754-757 | definition: the in-game clients, the entity's own client only when force-updated |
| Server.PhysicsUpdates | server/src/lib.rs:686-735 | definition: the physics sync over the join; see SyncPhysics and PhysicsFilter |
| Server.AnimationUpdates | server/src/lib.rs:738-759 | definition: the animation sync, changed or force-updated animations only; see SyncAnimations |
| Server.Chebyshev | server/src/lib.rs:305-307 | the chunk distance is the larger of the two axis distances |
| Server.NoViewKeepsNothing | server/src/lib.rs:341 | when no alive player with a position has a view distance, no chunk is kept alive |
| Server.PhysicsFilter | server/src/lib.rs:709-734 | a client gets an entity's physics iff it is in game, has a position and a view distance, has the entity inside its view box, and is not the entity's own client unless that entity is force-updated |
| Server.DeathNotice | server/src/lib.rs:229-244 | definition: "A was killed by B" when the attacker is an alive player, "A died" otherwise |
| Server.EntityFromUid | server/src/lib.rs:231 | finds an alive entity with the Uid, or there is none |
| Server.DyingMeaning | server/src/lib.rs:225-251 | the kill list is exactly the alive entities with Dying, each once |
| Server.Kill | server/src/lib.rs:255-263 | definition: a dying client is stopped, force-updated and forced Dead; any other entity is deleted; see KillAllOutcome |
| Server.KillAll | server/src/lib.rs:254-264 | the kill loop keeps every session, leaves clients not in the list unchanged, and adds no entity |
| Server.KillAllOutcome | server/src/lib.rs:254-264 | after the kill loop every dying client is Dead, stopped and force-updated, and every other dying entity is deleted |
| Server.KillAllKeeps | server/src/lib.rs:254-264 | the kill loop keeps clients alive and adds no Respawning marker |
| Server.RespawningMeaning | server/src/lib.rs:267-273 | the respawn list is exactly the alive entities with Respawning |
| Server.Respawned | server/src/lib.rs:276-287 | definition: a respawning client gets Character, default stats, z + 100, zero velocity and ForceUpdate; see RespawnAll |
| Server.RespawnAll | server/src/lib.rs:275-288 | every respawning client ends in Character, and other sessions and the alive entities are unchanged |
| Server.DeleteAll | server/src/lib.rs:619-623 | after the deletions, exactly the entities not disconnected are alive |
| Server.Server.Deliver | server/src/lib.rs:416 | the client's inbox grows by the messages that arrived, and a failed postbox stays failed; no other session changes |
| Server.Server.CompleteJob | server/src/lib.rs:772-774 | a worker's job ends and its chunk joins the finished queue, keeping the chunk books balanced |
| Server.Server.Notify | server/src/lib.rs:792-798 | a message is queued only for an existing client |
| Server.Server.NotifyAll | server/src/lib.rs:605 | the outbox grows by the fan-out of the message to the recipients, in client order |
| Server.Server.Connect | server/src/lib.rs:382-396 | a fresh entity with the next Uid, a Connected session stamped now, the initial sync, and the client listed last |
| Server.Server.HandleNewConnections | server/src/lib.rs:378-402 | n new clients join as `Joined` states: fresh distinct entities, Connected sessions, consecutive Uids, one event each |
| Server.Server.PhysicsSnapshot | server/src/lib.rs:643-659 | the physics messages of the login sync, as `PhysicsSync` states |
| Server.Server.AnimationSnapshot | server/src/lib.rs:661-673 | the animation messages of the login sync, as `AnimationSync` states |
| Server.Server.HandleMessage | server/src/lib.rs:423-573 | one message changes the step and the world as `HandleMsg` states |
| Server.Server.CreatePlayerCharacter | server/src/lib.rs:163-183 | actor, default stats and animation, the spawn point, zero velocity, facing +y, and force-updated |
| Server.Server.ProcessClient | server/src/lib.rs:414-594 | one client's turn is `ProcessSession` |
| Server.Server.TakeTurn | server/src/lib.rs:413-595 | one client's turn updates the round as `Turn` states |
| Server.Server.RunRound | server/src/lib.rs:413-595 | the round over the clients is `ProcessRound` |
| Server.Server.ProcessClients | server/src/lib.rs:413-595 | the round, with the client order cut to the surviving sessions |
| Server.Server.ProcessChatCmd | server/src/lib.rs:778-801 | a known keyword runs its command with its arguments; an unknown one is answered to the sender only |
| Server.Server.RouteChat | server/src/lib.rs:598-614 | one chat line is routed as `RouteLine` states |
| Server.Server.RouteChats | server/src/lib.rs:597-616 | the chat lines are routed as `RouteAll`, with one Chat event each |
| Server.Server.DeleteDisconnected | server/src/lib.rs:618-623 | the disconnected entities are deleted in order, with one event each |
| Server.Server.GenerateChunk | server/src/lib.rs:768-776 | the key becomes pending, and a job starts only when it was not pending already |
| Server.Server.GenerateChunks | server/src/lib.rs:625-628 | the requested keys become pending, and jobs start exactly for the keys not pending before |
| Server.Server.FinishRound | server/src/lib.rs:597-630 | the chat is routed, the disconnected deleted and the chunks requested, with the round's events |
| Server.Server.HandleNewMessages | server/src/lib.rs:405-631 | the whole message pass: the round, then its chat, disconnects and chunk requests, with the frontend events |
| Server.Server.CollectDying | server/src/lib.rs:222-251 | the Dying entities in order, and a death notice for each player among them to every registered client |
| Server.Server.KillOne | server/src/lib.rs:255-263 | kills one entity as `Kill` states |
| Server.Server.KillDying | server/src/lib.rs:253-264 | the kill loop is `KillAll` |
| Server.Server.SyncDeaths | server/src/lib.rs:222-264 | the notices, then the kill loop over the Dying entities |
| Server.Server.CollectRespawning | server/src/lib.rs:267-273 | the Respawning entities in order |
| Server.Server.RespawnOne | server/src/lib.rs:276-287 | respawns one entity: Character, default stats, lifted by 100, stopped, force-updated |
| Server.Server.HandleRespawns | server/src/lib.rs:266-288 | the respawn loop is `RespawnAll` over the Respawning entities |
| Server.Server.DrainChunk | server/src/lib.rs:292-322 | at most one finished chunk is taken; it goes to the clients that see it, into the terrain, and out of the pending set |
| Server.Server.KeepsAlive | server/src/lib.rs:327-345 | the inner search answers whether some alive player sees the chunk |
| Server.Server.EvictChunks | server/src/lib.rs:324-353 | a loaded chunk stays exactly when some alive player with a view distance is within it in Chebyshev distance; the chunks kept are unchanged |
| Server.Server.SyncPhysics | server/src/lib.rs:685-735 | the physics sync is `PhysicsUpdates` |
| Server.Server.SyncAnimations | server/src/lib.rs:737-759 | the animation sync sends only changed or force-updated animations, as `AnimationUpdates` states |
| Server.Server.SyncClients | server/src/lib.rs:680-766 | EcsSync to registered clients, then physics and animations, and afterwards no entity is force-updated |
| Server.Server.ClearMarkers | server/src/lib.rs:360-365 | no alive entity keeps Dying or Respawning; other components are unchanged |
| Server.Server.DeathsAndRespawns | server/src/lib.rs:222-288 | a dying non-client is deleted; a dying client that is not respawning ends Dead; a respawning client ends in Character |
| Server.Server.UpdateTerrain | server/src/lib.rs:290-353 | at most one finished chunk leaves the queue and the pending set and is sent to exactly the clients that see it; after the drain's insert, a loaded chunk stays iff some alive player sees it, unchanged |
| Server.Server.SyncAndClean | server/src/lib.rs:355-365 | EcsSync to registered clients, then the physics and animation updates computed before the clear; ForceUpdate is cleared and the alive entities lose Dying and Respawning |
| Server.Server.TerrainAndSync | server/src/lib.rs:290-365 | at most one chunk is drained; every chunk still loaded is seen by some alive player after the cleanup; ForceUpdate is empty and no alive entity keeps a marker |
| Server.Server.TickWorld | server/src/lib.rs:216-365 | time advances; the death and respawn outcomes hold; at most one chunk is drained; every kept chunk is seen; ForceUpdate is empty; no alive entity keeps a marker |
| Server.Server.Tick | server/src/lib.rs:187-368 | a network error returns it and changes nothing; otherwise the clock advances by dt, ForceUpdate is empty, no alive entity keeps a Dying or Respawning marker, at most the oldest finished chunk is drained, and every loaded chunk is seen by some player |
| Server.Server.Drop | server/src/lib.rs:804-808 | every registered client is told that the server shuts down |

## Left out

- `common/src/sys/phys.rs` is not part of this model. It is floating-point integration with drag and glide lift.
- Networking is replaced by a model:
  - Each session has an inbox, with a postbox-error flag in place of `error()`.
  - All clients share one outbox of addressed messages.
  - `Server.Server.Deliver` and `Server.Server.CompleteJob` stand in for the network and the workers.
- The world-state packages are not modelled:
  - `InitialSync` carries only the entity's Uid; its state package and server info are left out.
  - `EcsSync` has no payload.
- The thread pool and channel are modelled as a set of running jobs and a queue of finished chunks. There are no threads.
- World generation and `world.tick` are left out. Chunk contents are opaque.
- `state.tick(dt)`: only the clock advances. Its systems live in code that is not part of this model; the combat system is modelled separately in `combat.dfy`.
- `cleanup()` is left out: `state.cleanup()` lives in code that is not part of this model.
- `create_npc` is left out: no caller in the core uses it.
- `terrain().pos_key` is a function given to the server, `posKey`. The rounding of f32 positions to i32 is therefore left out.
- Values defined in unseen code are configuration (`Config`): the default Stats and AnimationInfo, and `MAX_MSG_LEN`.
- `Stats::change_by` lives in unseen code. It is modelled as adding the amount and recording the change, with no clamping.
- Chat length is counted in characters, not in UTF-8 bytes as `String::len` does.
- The handlers of `CHAT_COMMANDS` are unseen. A known command is recorded as an `Invocation` in the server's `commandLog`.
- The client order `order` stands in for the iteration order of the clients map.
- Components.World.CreateEntitySynced: freed entity slots are not reused. A new entity is always `nextEntity`, listed after every alive one, whereas specs reuses the index of a deleted entity, so in the source a new entity can come before alive ones in join order. That join order also decides the order of the physics, animation and chunk messages.
- The iteration order of the terrain map during eviction is an arbitrary choice (`:|`). The result does not depend on it.
- Float geometry in combat: `angle_between(...).to_degrees()` and `normalized()` are functions given as parameters (`Geometry`). Positions and velocities are reals.
- Figure rendering is left out: GPU models, .vox asset loading, skeleton animation, interpolation, `Mat4` transforms and the damage-fade colour. A loaded part is represented by its loader and the body field it read.
- Integer overflow in the server's chunk distance (`i32::abs` of `i32::MIN`, and the `as u32` casts) is not modelled. Chunk keys are unbounded integers.
- Figure.FigureMgr.Maintain: requires a view distance whose u32 products with the chunk size are non-zero. The source divides by that product and would panic otherwise.
- The i32/u32 overflow panics of a debug build are not modelled. The model follows release semantics throughout `lod.dfy`.
- Server.Server.Tick: states the network-error path, the clock, the cleared ForceUpdate and markers, the drained queue and that every loaded chunk is seen, but does not restate the death and respawn outcomes, the event list or the composed effect of its three passes. Those are stated by HandleNewConnections, HandleNewMessages and TickWorld.
- Server.Server.TickWorld: states the outcome of the death, respawn, terrain and cleanup passes, but not the outbox contents. Those are stated by SyncDeaths, HandleRespawns, UpdateTerrain and SyncAndClean.
- Server.Server.TerrainAndSync: states the chunk queue, the seen-chunk invariant and the cleared markers only. The outbox and the terrain contents are stated by UpdateTerrain and SyncAndClean.
- Server.Server.DeathsAndRespawns: states the state transitions only. The full effect is stated by SyncDeaths and HandleRespawns.
