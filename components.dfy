/**
 * The entity-component store shared by the server and the combat system.
 *
 * Entities are opaque handles; each component kind is a storage keyed by
 * entity (a `map`, or a `set` for marker components). Join iteration visits
 * the alive entities in index order, which is the order of `entities`.
 * Float vectors are modelled on reals.
 */
module Components {
  import Lod

  datatype Option<T> = None | Some(value: T)

  type Entity = nat
  type Uid = nat

  datatype Vec3 = Vec3(x: real, y: real, z: real) {
    function Plus(o: Vec3): Vec3 { Vec3(x + o.x, y + o.y, z + o.z) }
    function Minus(o: Vec3): Vec3 { Vec3(x - o.x, y - o.y, z - o.z) }
    function Scale(k: real): Vec3 { Vec3(k * x, k * y, k * z) }
  }

  const ZERO: Vec3 := Vec3(0.0, 0.0, 0.0)
  const UNIT_Y: Vec3 := Vec3(0.0, 1.0, 0.0)

  /** Cause of a health change; only attacks are distinguished by the core. */
  datatype HealthSource = Attack(attacker: Uid) | OtherSource

  datatype HealthChange = HealthChange(amount: int, elapsed: real, cause: HealthSource)

  datatype Health = Health(current: int, maximum: int, lastChange: Option<HealthChange>)

  datatype Stats = Stats(hp: Health, isDead: bool)

  /** `hp.change_by(amount, cause)`: adds `amount` and records the change as the latest one. */
  function ChangeBy(s: Stats, amount: int, cause: HealthSource): (r: Stats)
    ensures r.hp.current == s.hp.current + amount
    ensures r.hp.lastChange == Some(HealthChange(amount, 0.0, cause))
    ensures r.isDead == s.isDead && r.hp.maximum == s.hp.maximum
  {
    Stats(Health(s.hp.current + amount, s.hp.maximum, Some(HealthChange(amount, 0.0, cause))), s.isDead)
  }

  /** An active melee swing: seconds elapsed and whether its hit pass already ran. */
  datatype Attacking = Attacking(time: real, applied: bool)

  /** `Attacking::start()`. */
  const ATTACK_START: Attacking := Attacking(0.0, false)

  datatype Player = Player(alias: string, viewDistance: Option<nat>)

  // Body kinds; each field is the variant code of one part enum.
  datatype HumanoidBody = HumanoidBody(head: nat, chest: nat, belt: nat, pants: nat, hand: nat,
                                       foot: nat, weapon: nat, shoulder: nat, draw: nat)
  datatype QuadrupedBody = QuadrupedBody(pigHead: nat, pigChest: nat, pigLegL: nat, pigLegR: nat)
  datatype QuadrupedMediumBody = QuadrupedMediumBody(
    wolfHeadUpper: nat, wolfJaw: nat, wolfHeadLower: nat, wolfTail: nat, wolfTorsoBack: nat,
    wolfTorsoMid: nat, wolfEars: nat, wolfFootLF: nat, wolfFootRF: nat, wolfFootLB: nat, wolfFootRB: nat)
  datatype Body =
    | Humanoid(humanoid: HumanoidBody)
    | Quadruped(quadruped: QuadrupedBody)
    | QuadrupedMedium(quadrupedMedium: QuadrupedMediumBody)

  datatype Actor = Character(name: string, body: Body)

  datatype Animation = Idle | Run | Jump | AttackAnim | Roll | Crun | Cidle | Gliding

  datatype AnimationInfo = AnimationInfo(animation: Animation, time: real, changed: bool)

  /** `TerrainChunkSize::SIZE`, in blocks per axis. */
  datatype ChunkSize = ChunkSize(x: nat, y: nat, z: nat)

  /** `d.abs() as u32`: truncation toward zero, saturating at the largest u32. */
  function AbsAsU32(d: real): (r: nat)
    ensures r < Lod.TWO_32
    ensures (if d < 0.0 then -d else d) < Lod.TWO_32 as real ==> r as real <= (if d < 0.0 then -d else d) < r as real + 1.0
    ensures (if d < 0.0 then -d else d) >= Lod.TWO_32 as real ==> r == Lod.TWO_32 - 1
  {
    var a := if d < 0.0 then -d else d;
    if a >= Lod.TWO_32 as real then Lod.TWO_32 - 1 else a.Floor
  }

  /** The view box: every axis of the offset strictly inside `vd` chunks, compared in u32 as the source does. */
  predicate InBox(off: Vec3, vd: nat, size: ChunkSize) {
    && AbsAsU32(off.x) < Lod.WrapU32(vd * size.x)
    && AbsAsU32(off.y) < Lod.WrapU32(vd * size.y)
    && AbsAsU32(off.z) < Lod.WrapU32(vd * size.z)
  }

  ghost predicate Distinct(s: seq<Entity>) {
    forall i, j :: 0 <= i < j < |s| ==> s[i] != s[j]
  }

  lemma DistinctPrefix(s: seq<Entity>)
    requires Distinct(s) && s != []
    ensures Distinct(s[..|s| - 1]) && s[|s| - 1] !in s[..|s| - 1]
  {
  }

  ghost predicate StrictlyIncreasing(s: seq<Entity>) {
    forall i, j :: 0 <= i < j < |s| ==> s[i] < s[j]
  }

  /** One storage per component kind, keyed by entity; marker components are sets. */
  datatype Storages = Storages(
    uids: map<Entity, Uid>,
    pos: map<Entity, Vec3>,
    vel: map<Entity, Vec3>,
    ori: map<Entity, Vec3>,
    stats: map<Entity, Stats>,
    attacking: map<Entity, Attacking>,
    forceUpdate: set<Entity>,
    players: map<Entity, Player>,
    actors: map<Entity, Actor>,
    animations: map<Entity, AnimationInfo>,
    dying: map<Entity, HealthSource>,
    respawning: set<Entity>)
  {
    /** Every storage without its entry for `e`. */
    function Forget(e: Entity): (r: Storages)
      ensures e !in r.uids && e !in r.pos && e !in r.vel && e !in r.ori && e !in r.stats
      ensures e !in r.attacking && e !in r.forceUpdate && e !in r.players && e !in r.actors
      ensures e !in r.animations && e !in r.dying && e !in r.respawning
      ensures forall x :: x != e && x in uids ==> x in r.uids && r.uids[x] == uids[x]
      ensures forall x :: x != e && x in pos ==> x in r.pos && r.pos[x] == pos[x]
      ensures forall x :: x in r.pos ==> x in pos
      ensures forall x :: x != e && x in players ==> x in r.players && r.players[x] == players[x]
      ensures forall x :: x in r.players ==> x in players
    {
      Storages(uids - {e}, pos - {e}, vel - {e}, ori - {e}, stats - {e}, attacking - {e},
               forceUpdate - {e}, players - {e}, actors - {e}, animations - {e}, dying - {e},
               respawning - {e})
    }
  }

  const EMPTY_STORAGES: Storages :=
    Storages(map[], map[], map[], map[], map[], map[], {}, map[], map[], map[], map[], {})

  /** The entity store: alive entities in index order and their components. */
  class World {
    var entities: seq<Entity>
    var nextEntity: nat
    var nextUid: Uid
    var comps: Storages

    ghost predicate Valid()
      reads this`entities, this`nextEntity
    {
      && StrictlyIncreasing(entities)
      && (forall x :: x in entities ==> x < nextEntity)
    }

    constructor ()
      ensures Valid()
      ensures entities == [] && comps == EMPTY_STORAGES
    {
      entities, nextEntity, nextUid := [], 0, 0;
      comps := EMPTY_STORAGES;
    }

    /** `create_entity_synced().build()`: a fresh alive entity carrying only a fresh Uid. */
    method CreateEntitySynced() returns (e: Entity)
      requires Valid()
      modifies this
      ensures Valid()
      ensures e == old(nextEntity) && e !in old(entities)
      ensures entities == old(entities) + [e]
      ensures comps == old(comps).(uids := old(comps).uids[e := old(nextUid)])
      ensures nextUid == old(nextUid) + 1
    {
      e := nextEntity;
      forall i, j | 0 <= i < j < |entities + [e]| ensures (entities + [e])[i] < (entities + [e])[j] {
        if j < |entities| {
          assert (entities + [e])[i] == entities[i] && (entities + [e])[j] == entities[j];
        } else {
          assert entities[i] in entities;
        }
      }
      entities := entities + [e];
      comps := comps.(uids := comps.uids[e := nextUid]);
      nextEntity := nextEntity + 1;
      nextUid := nextUid + 1;
    }

    /** `delete_entity_synced`: the entity is no longer alive and every storage forgets it. */
    method DeleteEntity(e: Entity)
      requires Valid()
      modifies this
      ensures Valid()
      ensures entities == Without(old(entities), e) && e !in entities
      ensures comps == old(comps).Forget(e)
      ensures nextEntity == old(nextEntity) && nextUid == old(nextUid)
    {
      WithoutKeepsOrder(entities, e);
      entities := Without(entities, e);
      comps := comps.Forget(e);
    }
  }

  /** `s` with every occurrence of `e` removed, order kept. */
  function Without(s: seq<Entity>, e: Entity): (r: seq<Entity>)
    ensures forall x :: x in r <==> x in s && x != e
    ensures |r| <= |s|
  {
    if s == [] then []
    else if s[0] == e then Without(s[1..], e)
    else [s[0]] + Without(s[1..], e)
  }

  lemma {:induction false} WithoutKeepsOrder(s: seq<Entity>, e: Entity)
    requires StrictlyIncreasing(s)
    ensures StrictlyIncreasing(Without(s, e))
    ensures forall x :: x in Without(s, e) ==> x in s
  {
    if s != [] {
      assert StrictlyIncreasing(s[1..]) by {
        forall i, j | 0 <= i < j < |s[1..]| ensures s[1..][i] < s[1..][j] {
          assert s[1..][i] == s[i + 1] && s[1..][j] == s[j + 1];
        }
      }
      WithoutKeepsOrder(s[1..], e);
      if s[0] != e {
        var r := [s[0]] + Without(s[1..], e);
        forall i, j | 0 <= i < j < |r| ensures r[i] < r[j] {
          if i == 0 {
            assert r[j] in Without(s[1..], e);
            var k :| 0 <= k < |s[1..]| && s[1..][k] == r[j];
            assert s[k + 1] == r[j];
          } else {
            assert r[i] == Without(s[1..], e)[i - 1] && r[j] == Without(s[1..], e)[j - 1];
          }
        }
      }
    }
  }
}
