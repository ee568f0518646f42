/**
 * Client-side figure management (voxygen/src/scene/figure.rs).
 *
 * A figure model is the mesh of a body: up to 16 bone slots, each filled by
 * a part loader chosen from the body's fields, with every vertex of slot i
 * tagged with bone index i. Models are cached per body and stamped with the
 * tick they were last used; stale ones are evicted. Per-entity figure states
 * are kept for entities near the player, with a hysteresis band at the edge
 * of the view distance, and are dropped once their entity is no longer alive.
 * Asset loading, GPU buffers, skeleton animation and the damage-fade colour
 * are not modelled: a loaded part is represented by the loader that produced
 * it and the body field it read.
 */
module Figure {
  import opened Components
  import Lod

  const BONE_SLOTS: nat := 16
  /** Ticks a cached model survives without use. */
  const MODEL_LIFETIME: nat := 60
  /** `view_distance().unwrap_or(1)`. */
  const DEFAULT_VIEW_DISTANCE: nat := 1
  const KEEP_PERCENT: nat := 120
  const UPDATE_PERCENT: nat := 100

  /** The part loaders of the figure module, one per bone mesh kind. */
  datatype Loader =
    | Head | Chest | Belt | Pants | LeftHand | RightHand | LeftFoot | RightFoot | WeaponPart
    | LeftShoulder | RightShoulder | DrawPart | LeftEquip | RightEquip
    | PigHead | PigChest | PigLegLF | PigLegRF | PigLegLB | PigLegRB
    | WolfHeadUpper | WolfJaw | WolfHeadLower | WolfTail | WolfTorsoBack | WolfTorsoMid
    | WolfEars | WolfFootLF | WolfFootRF | WolfFootLB | WolfFootRB

  /** A loaded part mesh: the loader and the variant of the body field it was given. */
  datatype Part = Part(loader: Loader, variant: nat)

  /** A part pushed into the figure mesh with all its vertices tagged by `bone`. */
  datatype BonePart = BonePart(bone: nat, part: Part)

  datatype Model = Model(mesh: seq<BonePart>)

  /** The 16 bone slots of a body, in the order the figure module lists them. */
  function BoneMeshes(body: Body): (r: seq<Option<Part>>)
    ensures |r| == BONE_SLOTS
  {
    match body
    case Humanoid(b) =>
      [Some(Part(Head, b.head)), Some(Part(Chest, b.chest)), Some(Part(Belt, b.belt)),
       Some(Part(Pants, b.pants)), Some(Part(LeftHand, b.hand)), Some(Part(RightHand, b.hand)),
       Some(Part(LeftFoot, b.foot)), Some(Part(RightFoot, b.foot)), Some(Part(WeaponPart, b.weapon)),
       Some(Part(LeftShoulder, b.shoulder)), Some(Part(RightShoulder, b.shoulder)),
       Some(Part(DrawPart, b.draw)), Some(Part(LeftEquip, b.weapon)), Some(Part(RightEquip, b.hand)),
       None, None]
    case Quadruped(b) =>
      [Some(Part(PigHead, b.pigHead)), Some(Part(PigChest, b.pigChest)),
       Some(Part(PigLegLF, b.pigLegL)), Some(Part(PigLegRF, b.pigLegR)),
       Some(Part(PigLegLB, b.pigLegL)), Some(Part(PigLegRB, b.pigLegR)),
       None, None, None, None, None, None, None, None, None, None]
    case QuadrupedMedium(b) =>
      [Some(Part(WolfHeadUpper, b.wolfHeadUpper)), Some(Part(WolfJaw, b.wolfJaw)),
       Some(Part(WolfHeadLower, b.wolfHeadLower)), Some(Part(WolfTail, b.wolfTail)),
       Some(Part(WolfTorsoBack, b.wolfTorsoBack)), Some(Part(WolfTorsoMid, b.wolfTorsoMid)),
       Some(Part(WolfEars, b.wolfEars)), Some(Part(WolfFootLF, b.wolfFootLF)),
       Some(Part(WolfFootRF, b.wolfFootRF)), Some(Part(WolfFootLB, b.wolfFootLB)),
       Some(Part(WolfFootRB, b.wolfFootRB)),
       None, None, None, None, None]
  }

  /** How many leading slots a body kind fills. */
  function FilledSlots(body: Body): nat {
    match body
    case Humanoid(_) => 14
    case Quadruped(_) => 6
    case QuadrupedMedium(_) => 11
  }

  /** The mesh made from the slots: each present slot's part, tagged with its slot index, in slot order. */
  function Tagged(slots: seq<Option<Part>>): seq<BonePart>
    decreases |slots|
  {
    if slots == [] then []
    else
      var n := |slots| - 1;
      Tagged(slots[..n]) + (if slots[n].Some? then [BonePart(n, slots[n].value)] else [])
  }

  /** The characterisation of the tagged mesh: every entry comes from the slot its tag names, tags increase, and every present slot contributes. */
  lemma {:induction false} TaggedFromSlots(slots: seq<Option<Part>>)
    ensures var m := Tagged(slots);
      && (forall k :: 0 <= k < |m| ==> m[k].bone < |slots| && slots[m[k].bone] == Some(m[k].part))
      && (forall k, l :: 0 <= k < l < |m| ==> m[k].bone < m[l].bone)
      && (forall i :: 0 <= i < |slots| && slots[i].Some? ==> BonePart(i, slots[i].value) in m)
    decreases |slots|
  {
    if slots != [] {
      var n := |slots| - 1;
      TaggedFromSlots(slots[..n]);
      var m := Tagged(slots);
      var pre := Tagged(slots[..n]);
      assert forall k :: 0 <= k < |pre| ==> m[k] == pre[k];
      forall i | 0 <= i < |slots| && slots[i].Some? ensures BonePart(i, slots[i].value) in m {
        if i < n {
          assert slots[..n][i] == slots[i];
        } else {
          assert m[|m| - 1] == BonePart(i, slots[i].value);
        }
      }
    }
  }

  /** When exactly the first `n` slots are present, the mesh is those `n` parts tagged 0 to n - 1. */
  lemma {:induction false} TaggedLeading(slots: seq<Option<Part>>, n: nat)
    requires n <= |slots|
    requires forall i :: 0 <= i < |slots| ==> (slots[i].Some? <==> i < n)
    ensures Tagged(slots) == seq(n, k requires 0 <= k < n => BonePart(k, slots[k].value))
    decreases |slots|
  {
    if slots != [] {
      var last := |slots| - 1;
      var pre := slots[..last];
      if last < n {
        TaggedLeading(pre, last);
      } else {
        TaggedLeading(pre, n);
      }
    }
  }

  /** Bone layout: humanoid bodies fill 14 slots, quadrupeds 6 and medium quadrupeds 11, and the part of slot i carries bone index i. */
  lemma BoneLayout(body: Body)
    ensures var m := Tagged(BoneMeshes(body));
      && |m| == FilledSlots(body)
      && (forall k :: 0 <= k < |m| ==> m[k].bone == k && BoneMeshes(body)[k] == Some(m[k].part))
  {
    TaggedLeading(BoneMeshes(body), FilledSlots(body));
  }

  /** The mesh loop of `get_or_create_model`: each present slot pushed with its index as bone tag. */
  method BuildMesh(slots: seq<Option<Part>>) returns (mesh: seq<BonePart>)
    ensures mesh == Tagged(slots)
  {
    mesh := [];
    var i := 0;
    while i < |slots|
      invariant 0 <= i <= |slots|
      invariant mesh == Tagged(slots[..i])
    {
      assert slots[..i + 1][..i] == slots[..i];
      if slots[i].Some? {
        mesh := mesh + [BonePart(i, slots[i].value)];
      }
      i := i + 1;
    }
    assert slots[..i] == slots;
  }

  /** The model the cache builds for a body. */
  function ModelFor(body: Body): Model {
    Model(Tagged(BoneMeshes(body)))
  }

  datatype CacheEntry = CacheEntry(model: Model, lastUsed: nat)

  /** The cache after a use of `body` at `tick`: an existing model is kept and re-stamped, a missing one is built and stamped. */
  function Touched(models: map<Body, CacheEntry>, body: Body, tick: nat): (r: map<Body, CacheEntry>)
    ensures body in r && r[body].lastUsed == tick
    ensures body in models ==> r[body].model == models[body].model
    ensures body !in models ==> r[body].model == ModelFor(body)
    ensures r.Keys == models.Keys + {body}
    ensures forall b :: b in models && b != body ==> r[b] == models[b]
  {
    if body in models then models[body := models[body].(lastUsed := tick)]
    else models[body := CacheEntry(ModelFor(body), tick)]
  }

  /** The cache after `clean(tick)`: the entries used within the last 60 ticks. */
  function Retained(models: map<Body, CacheEntry>, tick: nat): (r: map<Body, CacheEntry>)
    ensures forall b :: b in r <==> b in models && models[b].lastUsed + MODEL_LIFETIME > tick
    ensures forall b :: b in r ==> r[b] == models[b]
  {
    map b | b in models && models[b].lastUsed + MODEL_LIFETIME > tick :: models[b]
  }

  /** Cleaning twice at the same tick, or at a later tick after an earlier one, is one clean at the later tick. */
  lemma RetainedLater(models: map<Body, CacheEntry>, t1: nat, t2: nat)
    requires t1 <= t2
    ensures Retained(Retained(models, t1), t2) == Retained(models, t2)
  {
  }

  /** A body used at tick t survives a clean at t' exactly when t' < t + 60. */
  lemma UseThenClean(models: map<Body, CacheEntry>, body: Body, t: nat, t': nat)
    ensures body in Retained(Touched(models, body, t), t') <==> t' < t + MODEL_LIFETIME
  {
  }

  class FigureModelCache {
    var models: map<Body, CacheEntry>

    /** Every cached model is the one built for its body. */
    ghost predicate Valid()
      reads this
    {
      forall b :: b in models ==> models[b].model == ModelFor(b)
    }

    constructor ()
      ensures Valid() && models == map[]
    {
      models := map[];
    }

    /** `get_or_create_model`: the model for `body`, cached and stamped with `tick`. */
    method GetOrCreateModel(body: Body, tick: nat) returns (model: Model)
      requires Valid()
      modifies this
      ensures Valid()
      ensures models == Touched(old(models), body, tick)
      ensures model == models[body].model && model == ModelFor(body)
    {
      if body in models {
        models := models[body := models[body].(lastUsed := tick)];
      } else {
        var mesh := BuildMesh(BoneMeshes(body));
        models := models[body := CacheEntry(Model(mesh), tick)];
      }
      model := models[body].model;
    }

    /** `clean`: evicts every model unused for 60 ticks. */
    method Clean(tick: nat)
      requires Valid()
      modifies this
      ensures Valid()
      ensures models == Retained(old(models), tick)
    {
      models := map b | b in models && models[b].lastUsed + MODEL_LIFETIME > tick :: models[b];
    }
  }

  /** The per-entity data kept for a figure: where it was last drawn and which way it faced. */
  datatype FigureState = FigureState(pos: Vec3, ori: Vec3)

  datatype Kind = HumanoidKind | QuadrupedKind | QuadrupedMediumKind

  function KindOf(body: Body): Kind {
    match body
    case Humanoid(_) => HumanoidKind
    case Quadruped(_) => QuadrupedKind
    case QuadrupedMedium(_) => QuadrupedMediumKind
  }

  /** The three state maps of the figure manager, one per body kind. */
  datatype FigureStates = FigureStates(
    character: map<Entity, FigureState>,
    quadruped: map<Entity, FigureState>,
    quadrupedMedium: map<Entity, FigureState>)
  {
    function Of(k: Kind): map<Entity, FigureState> {
      match k
      case HumanoidKind => character
      case QuadrupedKind => quadruped
      case QuadrupedMediumKind => quadrupedMedium
    }

    function With(k: Kind, m: map<Entity, FigureState>): (r: FigureStates)
      ensures r.Of(k) == m && forall j :: j != k ==> r.Of(j) == Of(j)
    {
      match k
      case HumanoidKind => this.(character := m)
      case QuadrupedKind => this.(quadruped := m)
      case QuadrupedMediumKind => this.(quadrupedMedium := m)
    }
  }

  const NO_STATES: FigureStates := FigureStates(map[], map[], map[])

  /** What the client exposes to the figure manager: its ECS view, its own entity, view distance, time and tick. */
  datatype ClientView = ClientView(
    entities: seq<Entity>,
    comps: Storages,
    player: Entity,
    viewDistance: Option<nat>,
    tick: nat)
  {
    function Vd(): nat {
      if viewDistance.Some? then viewDistance.value else DEFAULT_VIEW_DISTANCE
    }

    /** The player position, or the origin when the client entity has none. */
    function PlayerPos(): Vec3 {
      if player in comps.pos then comps.pos[player] else ZERO
    }

    /** The join of Pos, Vel, Ori, Actor and AnimationInfo (Stats optional). */
    predicate InJoin(e: Entity) {
      e in comps.pos && e in comps.vel && e in comps.ori && e in comps.actors && e in comps.animations
    }

    function Offset(e: Entity): Vec3
      requires InJoin(e)
    {
      comps.pos[e].Minus(PlayerPos())
    }

    function KindOfEntity(e: Entity): Kind
      requires InJoin(e)
    {
      KindOf(comps.actors[e].body)
    }
  }

  /** One axis of `vd_percent`, in u32 arithmetic that wraps on overflow. */
  function AxisPercent(d: real, vd: nat, sz: nat): nat
    requires Lod.WrapU32(vd * sz) != 0
  {
    Lod.WrapU32(100 * AbsAsU32(d)) / Lod.WrapU32(vd * sz)
  }

  /** The view distances for which `vd_percent` divides by a non-zero u32 on every axis. */
  predicate UsableViewDistance(vd: nat, size: ChunkSize) {
    Lod.WrapU32(vd * size.x) != 0 && Lod.WrapU32(vd * size.y) != 0 && Lod.WrapU32(vd * size.z) != 0
  }

  /** `vd_percent`: the largest per-axis distance as a percentage of the view distance. */
  function VdPercent(off: Vec3, vd: nat, size: ChunkSize): (r: nat)
    requires UsableViewDistance(vd, size)
    ensures r == AxisPercent(off.x, vd, size.x) || r == AxisPercent(off.y, vd, size.y) || r == AxisPercent(off.z, vd, size.z)
    ensures r >= AxisPercent(off.x, vd, size.x) && r >= AxisPercent(off.y, vd, size.y) && r >= AxisPercent(off.z, vd, size.z)
  {
    var px := AxisPercent(off.x, vd, size.x);
    var py := AxisPercent(off.y, vd, size.y);
    var pz := AxisPercent(off.z, vd, size.z);
    var m := if px >= py then px else py;
    if m >= pz then m else pz
  }

  /** One entity of the `maintain` loop: drop beyond 120 %, leave alone above 100 %, otherwise create or update its state. */
  function MaintainOne(view: ClientView, size: ChunkSize, st: FigureStates, e: Entity): FigureStates
    requires UsableViewDistance(view.Vd(), size)
  {
    if !view.InJoin(e) then st
    else
      var k := view.KindOfEntity(e);
      var pct := VdPercent(view.Offset(e), view.Vd(), size);
      if pct > KEEP_PERCENT then st.With(k, st.Of(k) - {e})
      else if pct > UPDATE_PERCENT then st
      else st.With(k, st.Of(k)[e := FigureState(view.comps.pos[e], view.comps.ori[e])])
  }

  function MaintainAll(view: ClientView, size: ChunkSize, st: FigureStates, es: seq<Entity>): FigureStates
    requires UsableViewDistance(view.Vd(), size)
    decreases |es|
  {
    if es == [] then st
    else MaintainOne(view, size, MaintainAll(view, size, st, es[..|es| - 1]), es[|es| - 1])
  }

  /** A state map restricted to the alive entities. */
  function AliveOnly(m: map<Entity, FigureState>, alive: seq<Entity>): (r: map<Entity, FigureState>)
    ensures forall e :: e in r <==> e in m && e in alive
    ensures forall e :: e in r ==> r[e] == m[e]
  {
    map e | e in m && e in alive :: m[e]
  }

  function Pruned(st: FigureStates, alive: seq<Entity>): (r: FigureStates)
    ensures forall k, e :: e in r.Of(k) ==> e in alive
  {
    FigureStates(AliveOnly(st.character, alive), AliveOnly(st.quadruped, alive),
                 AliveOnly(st.quadrupedMedium, alive))
  }

  lemma PrunedOf(st: FigureStates, alive: seq<Entity>, k: Kind)
    ensures Pruned(st, alive).Of(k) == AliveOnly(st.Of(k), alive)
  {
  }

  /** The whole of `maintain`: the loop over the alive entities, then the pruning of dead ones. */
  function Maintained(view: ClientView, size: ChunkSize, st: FigureStates): FigureStates
    requires UsableViewDistance(view.Vd(), size)
  {
    Pruned(MaintainAll(view, size, st, view.entities), view.entities)
  }

  /** One loop step leaves every other entity's state, and every other kind's map, as it was. */
  lemma MaintainOneFrame(view: ClientView, size: ChunkSize, st: FigureStates, e: Entity)
    requires UsableViewDistance(view.Vd(), size)
    ensures var r := MaintainOne(view, size, st, e);
      forall k, x :: (x != e || !view.InJoin(e) || k != view.KindOfEntity(e)) ==>
        (x in r.Of(k) <==> x in st.Of(k)) && (x in st.Of(k) ==> r.Of(k)[x] == st.Of(k)[x])
  {
  }

  /** The loop over `es` touches only entities of `es`. */
  lemma {:induction false} MaintainAllFrame(view: ClientView, size: ChunkSize, st: FigureStates, es: seq<Entity>, x: Entity, k: Kind)
    requires UsableViewDistance(view.Vd(), size)
    requires x !in es || !view.InJoin(x) || k != view.KindOfEntity(x)
    ensures var r := MaintainAll(view, size, st, es);
      (x in r.Of(k) <==> x in st.Of(k)) && (x in st.Of(k) ==> r.Of(k)[x] == st.Of(k)[x])
    decreases |es|
  {
    if es != [] {
      MaintainAllFrame(view, size, st, es[..|es| - 1], x, k);
      MaintainOneFrame(view, size, MaintainAll(view, size, st, es[..|es| - 1]), es[|es| - 1]);
    }
  }

  /** The hysteresis rule of `maintain`, for an entity that appears once in the join order: beyond 120 % its state is gone, between 100 % and 120 % it is as before, otherwise it holds the entity's current position and orientation. */
  lemma Hysteresis(view: ClientView, size: ChunkSize, st: FigureStates, e: Entity)
    requires UsableViewDistance(view.Vd(), size)
    requires view.InJoin(e)
    requires exists i :: 0 <= i < |view.entities| && view.entities[i] == e
               && e !in view.entities[..i] && e !in view.entities[i + 1..]
    ensures var m := Maintained(view, size, st).Of(view.KindOfEntity(e));
      var old_m := st.Of(view.KindOfEntity(e));
      var pct := VdPercent(view.Offset(e), view.Vd(), size);
      && (pct > KEEP_PERCENT ==> e !in m)
      && (UPDATE_PERCENT < pct <= KEEP_PERCENT ==> (e in m <==> e in old_m) && (e in m ==> m[e] == old_m[e]))
      && (pct <= UPDATE_PERCENT ==> e in m && m[e] == FigureState(view.comps.pos[e], view.comps.ori[e]))
  {
    var i :| 0 <= i < |view.entities| && view.entities[i] == e
             && e !in view.entities[..i] && e !in view.entities[i + 1..];
    var es := view.entities;
    var k := view.KindOfEntity(e);
    var upto := MaintainAll(view, size, st, es[..i + 1]);
    assert es[..i + 1][..i] == es[..i];
    MaintainAllFrame(view, size, st, es[..i], e, k);
    var s := MaintainAll(view, size, st, es);
    MaintainSuffix(view, size, st, es, i + 1, e, k);
    assert e in es;
    PrunedOf(s, es, k);
  }

  /** The steps after position `j` of the join order leave an entity not among them alone. */
  lemma {:induction false} MaintainSuffix(view: ClientView, size: ChunkSize, st: FigureStates, es: seq<Entity>, j: nat, x: Entity, k: Kind)
    requires UsableViewDistance(view.Vd(), size)
    requires j <= |es| && x !in es[j..]
    ensures var a := MaintainAll(view, size, st, es[..j]);
      var r := MaintainAll(view, size, st, es);
      (x in r.Of(k) <==> x in a.Of(k)) && (x in a.Of(k) ==> r.Of(k)[x] == a.Of(k)[x])
    decreases |es| - j
  {
    if j < |es| {
      var n := |es| - 1;
      assert es[..n][..j] == es[..j];
      assert x !in es[..n][j..] by {
        assert forall t :: t in es[..n][j..] ==> t in es[j..];
      }
      MaintainSuffix(view, size, st, es[..n], j, x, k);
      assert es[n] in es[j..];
      MaintainOneFrame(view, size, MaintainAll(view, size, st, es[..n]), es[n]);
    } else {
      assert es[..j] == es;
    }
  }

  /** A drawn figure: the entity and the cached model used for it. */
  datatype Draw = Draw(entity: Entity, model: Model)

  /** Both filters of `render`: inside the per-axis box and not dead (an entity without Stats counts as alive). */
  predicate Visible(view: ClientView, size: ChunkSize, e: Entity) {
    && view.InJoin(e)
    && InBox(view.Offset(e), view.Vd(), size)
    && !(e in view.comps.stats && view.comps.stats[e].isDead)
  }

  /** What `render` does over the join order: visible entities with a saved state are drawn, visible ones without are warned about. */
  datatype RenderOut = RenderOut(draws: seq<Draw>, warnings: seq<Entity>)

  /** One entity of the `render` loop. */
  function RenderStep(view: ClientView, size: ChunkSize, st: FigureStates, o: RenderOut, e: Entity): RenderOut {
    if !Visible(view, size, e) then o else Shown(view, st, o, e)
  }

  /** A visible figure: drawn with its body's model when it has a state, warned about otherwise. */
  function Shown(view: ClientView, st: FigureStates, o: RenderOut, e: Entity): RenderOut
    requires view.InJoin(e)
  {
    if e in st.Of(view.KindOfEntity(e)) then
      o.(draws := o.draws + [Draw(e, ModelFor(view.comps.actors[e].body))])
    else o.(warnings := o.warnings + [e])
  }

  function RenderAll(view: ClientView, size: ChunkSize, st: FigureStates, es: seq<Entity>): RenderOut
    decreases |es|
  {
    if es == [] then RenderOut([], [])
    else RenderStep(view, size, st, RenderAll(view, size, st, es[..|es| - 1]), es[|es| - 1])
  }

  /** The bodies `render` asks the cache for, in order. */
  function DrawnBodies(view: ClientView, draws: seq<Draw>): seq<Body>
    requires forall d :: d in draws ==> d.entity in view.comps.actors
    decreases |draws|
  {
    if draws == [] then []
    else DrawnBodies(view, draws[..|draws| - 1]) + [view.comps.actors[draws[|draws| - 1].entity].body]
  }

  /** The cache after using each of `bodies` at `tick`, in order. */
  function TouchedAll(models: map<Body, CacheEntry>, bodies: seq<Body>, tick: nat): (r: map<Body, CacheEntry>)
    decreases |bodies|
  {
    if bodies == [] then models
    else Touched(TouchedAll(models, bodies[..|bodies| - 1], tick), bodies[|bodies| - 1], tick)
  }

  /** After a render pass every body it used is cached and stamped with the tick, and every other entry is as before. */
  lemma {:induction false} TouchedAllMeaning(models: map<Body, CacheEntry>, bodies: seq<Body>, tick: nat)
    ensures forall b :: b in bodies ==> b in TouchedAll(models, bodies, tick) && TouchedAll(models, bodies, tick)[b].lastUsed == tick
    ensures forall b :: b in models && b !in bodies ==> b in TouchedAll(models, bodies, tick) && TouchedAll(models, bodies, tick)[b] == models[b]
    ensures TouchedAll(models, bodies, tick).Keys == models.Keys + set b | b in bodies
    decreases |bodies|
  {
    if bodies != [] {
      var pre := bodies[..|bodies| - 1];
      assert forall b :: b in bodies <==> b in pre || b == bodies[|bodies| - 1];
      TouchedAllMeaning(models, pre, tick);
    }
  }

  /** A figure is drawn exactly when it is visible and has a state, with its body's model; it is warned about exactly when it is visible and has none. */
  lemma {:induction false} RenderAllMembers(view: ClientView, size: ChunkSize, st: FigureStates, es: seq<Entity>)
    ensures var o := RenderAll(view, size, st, es);
      && (forall d :: d in o.draws ==>
            && d.entity in es && Visible(view, size, d.entity)
            && d.entity in st.Of(view.KindOfEntity(d.entity))
            && d.model == ModelFor(view.comps.actors[d.entity].body))
      && (forall e :: e in es && Visible(view, size, e) && e in st.Of(view.KindOfEntity(e)) ==>
            Draw(e, ModelFor(view.comps.actors[e].body)) in o.draws)
      && (forall e :: e in o.warnings <==> e in es && Visible(view, size, e) && e !in st.Of(view.KindOfEntity(e)))
    decreases |es|
  {
    if es != [] {
      var pre := es[..|es| - 1];
      RenderAllMembers(view, size, st, pre);
      assert forall x :: x in es <==> x in pre || x == es[|es| - 1];
    }
  }

  class FigureMgr {
    const chunkSize: ChunkSize
    const modelCache: FigureModelCache
    var states: FigureStates

    ghost predicate Valid()
      reads this, modelCache
    {
      modelCache.Valid()
    }

    constructor (chunkSize: ChunkSize)
      ensures Valid() && fresh(modelCache)
      ensures this.chunkSize == chunkSize && states == NO_STATES && modelCache.models == map[]
    {
      this.chunkSize := chunkSize;
      modelCache := new FigureModelCache();
      states := NO_STATES;
    }

    /** `FigureMgr::clean`: cleans the model cache. */
    method Clean(tick: nat)
      requires Valid()
      modifies modelCache
      ensures Valid()
      ensures modelCache.models == Retained(old(modelCache.models), tick)
    {
      modelCache.Clean(tick);
    }

    /** `maintain`: updates the figure states of the client's entities, then forgets every entity that is no longer alive. */
    method Maintain(view: ClientView)
      requires UsableViewDistance(view.Vd(), chunkSize)
      modifies this`states
      ensures states == Maintained(view, chunkSize, old(states))
      ensures forall k, e :: e in states.Of(k) ==> e in view.entities
    {
      var es := view.entities;
      var vd := view.Vd();
      var playerPos := view.PlayerPos();
      var i := 0;
      while i < |es|
        invariant 0 <= i <= |es|
        invariant states == MaintainAll(view, chunkSize, old(states), es[..i])
      {
        var e := es[i];
        assert es[..i + 1][..i] == es[..i];
        var c := view.comps;
        if e in c.pos && e in c.vel && e in c.ori && e in c.actors && e in c.animations {
          var k := KindOf(c.actors[e].body);
          var pct := VdPercent(c.pos[e].Minus(playerPos), vd, chunkSize);
          if pct > KEEP_PERCENT {
            states := states.With(k, states.Of(k) - {e});
          } else if pct <= UPDATE_PERCENT {
            states := states.With(k, states.Of(k)[e := FigureState(c.pos[e], c.ori[e])]);
          }
        }
        i := i + 1;
      }
      assert es[..i] == es;
      states := FigureStates(
        map x | x in states.character && x in es :: states.character[x],
        map x | x in states.quadruped && x in es :: states.quadruped[x],
        map x | x in states.quadrupedMedium && x in es :: states.quadrupedMedium[x]);
    }

    /** Drawing one figure: its body's model is fetched from the cache and drawn. */
    method DrawOne(view: ClientView, e: Entity, draws: seq<Draw>, ghost start: map<Body, CacheEntry>)
      returns (draws': seq<Draw>)
      requires Valid()
      requires e in view.comps.actors
      requires forall d :: d in draws ==> d.entity in view.comps.actors
      requires modelCache.models == TouchedAll(start, DrawnBodies(view, draws), view.tick)
      modifies modelCache
      ensures Valid()
      ensures draws' == draws + [Draw(e, ModelFor(view.comps.actors[e].body))]
      ensures modelCache.models == TouchedAll(start, DrawnBodies(view, draws'), view.tick)
    {
      var body := view.comps.actors[e].body;
      ghost var bodies := DrawnBodies(view, draws);
      var model := modelCache.GetOrCreateModel(body, view.tick);
      draws' := draws + [Draw(e, model)];
      assert draws'[..|draws|] == draws;
      assert DrawnBodies(view, draws') == bodies + [body];
      assert (bodies + [body])[..|bodies|] == bodies;
    }

    /** One entity of the `render` loop. */
    method RenderOne(view: ClientView, e: Entity, draws: seq<Draw>, warnings: seq<Entity>, ghost start: map<Body, CacheEntry>)
      returns (draws': seq<Draw>, warnings': seq<Entity>)
      requires Valid()
      requires forall d :: d in draws ==> d.entity in view.comps.actors
      requires modelCache.models == TouchedAll(start, DrawnBodies(view, draws), view.tick)
      modifies modelCache
      ensures Valid()
      ensures RenderOut(draws', warnings') == RenderStep(view, chunkSize, states, RenderOut(draws, warnings), e)
      ensures forall d :: d in draws' ==> d.entity in view.comps.actors
      ensures modelCache.models == TouchedAll(start, DrawnBodies(view, draws'), view.tick)
    {
      draws', warnings' := draws, warnings;
      if Visible(view, chunkSize, e) {
        draws', warnings' := ShowOne(view, e, draws, warnings, start);
      }
    }

    /** The visible branch of one `render` step. */
    method ShowOne(view: ClientView, e: Entity, draws: seq<Draw>, warnings: seq<Entity>, ghost start: map<Body, CacheEntry>)
      returns (draws': seq<Draw>, warnings': seq<Entity>)
      requires Valid()
      requires view.InJoin(e)
      requires forall d :: d in draws ==> d.entity in view.comps.actors
      requires modelCache.models == TouchedAll(start, DrawnBodies(view, draws), view.tick)
      modifies modelCache
      ensures Valid()
      ensures RenderOut(draws', warnings') == Shown(view, states, RenderOut(draws, warnings), e)
      ensures forall d :: d in draws' ==> d.entity in view.comps.actors
      ensures modelCache.models == TouchedAll(start, DrawnBodies(view, draws'), view.tick)
    {
      draws', warnings' := draws, warnings;
      var body := view.comps.actors[e].body;
      if e in states.Of(KindOf(body)) {
        draws' := DrawOne(view, e, draws, start);
      } else {
        warnings' := warnings + [e];
      }
    }

    /** `render`: draws the visible figures that have a state with their cached models, and warns about the visible ones that have none. */
    method Render(view: ClientView) returns (draws: seq<Draw>, warnings: seq<Entity>)
      requires Valid()
      modifies modelCache
      ensures Valid()
      ensures RenderOut(draws, warnings) == RenderAll(view, chunkSize, states, view.entities)
      ensures forall d :: d in draws ==> d.entity in view.comps.actors
      ensures modelCache.models == TouchedAll(old(modelCache.models), DrawnBodies(view, draws), view.tick)
    {
      var es := view.entities;
      draws, warnings := [], [];
      var i := 0;
      while i < |es|
        invariant 0 <= i <= |es|
        invariant Valid()
        invariant RenderOut(draws, warnings) == RenderAll(view, chunkSize, states, es[..i])
        invariant forall d :: d in draws ==> d.entity in view.comps.actors
        invariant modelCache.models == TouchedAll(old(modelCache.models), DrawnBodies(view, draws), view.tick)
      {
        assert es[..i + 1][..i] == es[..i];
        draws, warnings := RenderOne(view, es[i], draws, warnings, old(modelCache.models));
        i := i + 1;
      }
      assert es[..i] == es;
    }
  }
}
