/**
 * The melee combat system (common/src/sys/combat.rs).
 *
 * Every entity with Uid, Pos, Ori and Attacking runs one hit pass per swing:
 * while `applied` is false it hits every entity with Pos, Vel and Stats that
 * qualifies, then sets `applied`. The swing is removed once its elapsed time
 * exceeds half a second. Float geometry is abstracted: squared distance is
 * computed on reals, while the angle in degrees between the facing and the
 * offset to the target, and the normalisation of the push direction, are
 * supplied as functions.
 */
module Combat {
  import opened Components

  const HIT_RANGE_SQUARED: real := 50.0
  const HIT_CONE_DEGREES: real := 70.0
  const DAMAGE: int := 10
  const KNOCKBACK: real := 10.0
  const LIFT: real := 15.0
  const SWING_DURATION: real := 0.5

  /** The float geometry the system relies on, taken as given functions. */
  datatype Geometry = Geometry(angleDegrees: (Vec3, Vec3) -> real, normalized: Vec3 -> Vec3)

  /** The attacker side of one hit pass: its entity, identity, position and facing. */
  datatype Attacker = Attacker(entity: Entity, uid: Uid, from: Vec3, facing: Vec3)

  function DistanceSquared(a: Vec3, b: Vec3): real {
    (a.x - b.x) * (a.x - b.x) + (a.y - b.y) * (a.y - b.y) + (a.z - b.z) * (a.z - b.z)
  }

  /** The four conditions of a hit: another entity, alive, in range and inside the forward cone. */
  predicate IsHit(g: Geometry, atk: Attacker, b: Entity, to: Vec3, target: Stats) {
    && atk.entity != b
    && !target.isDead
    && DistanceSquared(atk.from, to) < HIT_RANGE_SQUARED
    && g.angleDegrees(atk.facing, to.Minus(atk.from)) < HIT_CONE_DEGREES
  }

  /** A target of the join (Pos, Vel and Stats present) that the attacker hits. */
  predicate Hits(g: Geometry, atk: Attacker, c: Storages, b: Entity) {
    b in c.pos && b in c.vel && b in c.stats && IsHit(g, atk, b, c.pos[b], c.stats[b])
  }

  /** Knock-back: a horizontal push away from the attacker, then the vertical velocity is set. */
  function Knock(g: Geometry, v: Vec3, from: Vec3, to: Vec3): (r: Vec3)
    ensures r.z == LIFT
  {
    var pushed := v.Plus(g.normalized(to.Minus(from)).Scale(KNOCKBACK));
    Vec3(pushed.x, pushed.y, LIFT)
  }

  /** The stats a hit leaves behind: 10 damage attributed to the attacker's Uid. */
  function Damaged(s: Stats, atk: Attacker): Stats {
    ChangeBy(s, -DAMAGE, Attack(atk.uid))
  }

  /** The effect of the attacker on one entity of the target join. */
  function HitOne(g: Geometry, atk: Attacker, c: Storages, b: Entity): (r: Storages)
    ensures r == c.(vel := r.vel, stats := r.stats, forceUpdate := r.forceUpdate)
    ensures r.vel.Keys == c.vel.Keys && r.stats.Keys == c.stats.Keys && c.forceUpdate <= r.forceUpdate
    ensures forall x :: x in c.stats ==> r.stats[x].isDead == c.stats[x].isDead
    ensures forall x :: x != b && x in c.stats ==> r.stats[x] == c.stats[x]
    ensures forall x :: x != b && x in c.vel ==> r.vel[x] == c.vel[x]
    ensures forall x :: x != b ==> (x in r.forceUpdate <==> x in c.forceUpdate)
  {
    if Hits(g, atk, c, b) then
      c.(vel := c.vel[b := Knock(g, c.vel[b], atk.from, c.pos[b])],
         stats := c.stats[b := Damaged(c.stats[b], atk)],
         forceUpdate := c.forceUpdate + {b})
    else c
  }

  /** The inner loop: the attacker tried against `bs` in order. */
  function HitPass(g: Geometry, atk: Attacker, c: Storages, bs: seq<Entity>): (r: Storages)
    ensures r == c.(vel := r.vel, stats := r.stats, forceUpdate := r.forceUpdate)
    ensures r.vel.Keys == c.vel.Keys && r.stats.Keys == c.stats.Keys && c.forceUpdate <= r.forceUpdate
    ensures forall x :: x in c.stats ==> r.stats[x].isDead == c.stats[x].isDead
    ensures forall x :: x !in bs && x in c.stats ==> r.stats[x] == c.stats[x]
    ensures forall x :: x !in bs && x in c.vel ==> r.vel[x] == c.vel[x]
    ensures forall x :: x !in bs ==> (x in r.forceUpdate <==> x in c.forceUpdate)
    decreases |bs|
  {
    if bs == [] then c
    else HitOne(g, atk, HitPass(g, atk, c, bs[..|bs| - 1]), bs[|bs| - 1])
  }

  /** Whether `a` is in the attacker join (Uid, Pos, Ori and Attacking present). */
  predicate Joined(c: Storages, a: Entity) {
    a in c.uids && a in c.pos && a in c.ori && a in c.attacking
  }

  function AttackerOf(c: Storages, a: Entity): Attacker
    requires Joined(c, a)
  {
    Attacker(a, c.uids[a], c.pos[a], c.ori[a])
  }

  /** The state of the outer loop: the storages so far and the attackers whose swing is over. */
  datatype Pass = Pass(comps: Storages, finished: seq<Entity>)

  /** One attacker's turn: the hit pass if not yet applied, then the time-window check. */
  function Swing(g: Geometry, dt: real, es: seq<Entity>, p: Pass, a: Entity): (p': Pass)
    ensures var r := p'.comps;
      && r == p.comps.(vel := r.vel, stats := r.stats, forceUpdate := r.forceUpdate, attacking := r.attacking)
      && r.vel.Keys == p.comps.vel.Keys && r.stats.Keys == p.comps.stats.Keys
      && r.attacking.Keys == p.comps.attacking.Keys && p.comps.forceUpdate <= r.forceUpdate
      && (forall x :: x in p.comps.stats ==> r.stats[x].isDead == p.comps.stats[x].isDead)
  {
    var c := p.comps;
    if Joined(c, a) then
      var atk := c.attacking[a];
      var hit := if !atk.applied then HitPass(g, AttackerOf(c, a), c, es) else c;
      var c1 := hit.(attacking := c.attacking[a := atk.(applied := true)]);
      if atk.time > SWING_DURATION then Pass(c1, p.finished + [a])
      else Pass(c1.(attacking := c1.attacking[a := Attacking(atk.time + dt, true)]), p.finished)
    else p
  }

  /** The outer loop over `attackers`, in order. */
  function SwingAll(g: Geometry, dt: real, es: seq<Entity>, p: Pass, attackers: seq<Entity>): (p': Pass)
    ensures var r := p'.comps;
      && r == p.comps.(vel := r.vel, stats := r.stats, forceUpdate := r.forceUpdate, attacking := r.attacking)
      && r.vel.Keys == p.comps.vel.Keys && r.stats.Keys == p.comps.stats.Keys
      && r.attacking.Keys == p.comps.attacking.Keys && p.comps.forceUpdate <= r.forceUpdate
      && (forall x :: x in p.comps.stats ==> r.stats[x].isDead == p.comps.stats[x].isDead)
    decreases |attackers|
  {
    if attackers == [] then p
    else Swing(g, dt, es, SwingAll(g, dt, es, p, attackers[..|attackers| - 1]), attackers[|attackers| - 1])
  }

  /** The whole system run over the join order `es`: all swings, then the finished ones removed. */
  function RunSpec(g: Geometry, dt: real, es: seq<Entity>, c: Storages): (r: Storages)
    ensures r == c.(vel := r.vel, stats := r.stats, forceUpdate := r.forceUpdate, attacking := r.attacking)
    ensures r.vel.Keys == c.vel.Keys && r.stats.Keys == c.stats.Keys && r.attacking.Keys <= c.attacking.Keys
    ensures c.forceUpdate <= r.forceUpdate
    ensures forall x :: x in c.stats ==> r.stats[x].isDead == c.stats[x].isDead
  {
    var p := SwingAll(g, dt, es, Pass(c, []), es);
    p.comps.(attacking := p.comps.attacking - (set a | a in p.finished))
  }

  /** Whether attacker `a` runs its hit pass in this tick and that pass lands on `b`. */
  predicate Lands(g: Geometry, es: seq<Entity>, c: Storages, a: Entity, b: Entity) {
    Joined(c, a) && !c.attacking[a].applied && b in es && Hits(g, AttackerOf(c, a), c, b)
  }

  /** How many of `attackers` land a hit on `b`. */
  function Hitters(g: Geometry, es: seq<Entity>, c: Storages, attackers: seq<Entity>, b: Entity): nat
    decreases |attackers|
  {
    if attackers == [] then 0
    else Hitters(g, es, c, attackers[..|attackers| - 1], b)
         + (if Lands(g, es, c, attackers[|attackers| - 1], b) then 1 else 0)
  }

  /** One hit pass over distinct targets: a qualifying target is knocked back and damaged once; any other entity is untouched. */
  lemma {:induction false} HitPassAt(g: Geometry, atk: Attacker, c: Storages, bs: seq<Entity>, b: Entity)
    requires Distinct(bs)
    ensures var r := HitPass(g, atk, c, bs);
      if b in bs && Hits(g, atk, c, b) then
        && r.vel[b] == Knock(g, c.vel[b], atk.from, c.pos[b])
        && r.stats[b] == Damaged(c.stats[b], atk)
        && b in r.forceUpdate
      else
        && (b in c.stats ==> r.stats[b] == c.stats[b])
        && (b in c.vel ==> r.vel[b] == c.vel[b])
        && (b in r.forceUpdate <==> b in c.forceUpdate)
    decreases |bs|
  {
    if bs != [] {
      var pre := bs[..|bs| - 1];
      var mid := HitPass(g, atk, c, pre);
      DistinctPrefix(bs);
      if b == bs[|bs| - 1] {
        assert b !in pre;
        assert Hits(g, atk, mid, b) == Hits(g, atk, c, b);
      } else {
        HitPassAt(g, atk, c, pre, b);
        assert b in bs <==> b in pre;
      }
    }
  }

  /** One attacker's turn touches only its own swing, marking it applied and advancing its time unless over. */
  lemma SwingAttacking(g: Geometry, dt: real, es: seq<Entity>, p: Pass, a: Entity)
    ensures var p' := Swing(g, dt, es, p, a);
      && (forall x :: x != a && x in p.comps.attacking ==> p'.comps.attacking[x] == p.comps.attacking[x])
      && (if Joined(p.comps, a) then
            && p'.comps.attacking[a] == Attacking(Advanced(p.comps.attacking[a].time, dt), true)
            && p'.finished == p.finished + (if p.comps.attacking[a].time > SWING_DURATION then [a] else [])
          else p' == p)
  {
  }

  /** Over distinct attackers: each joined attacker's swing is marked applied and its time advanced unless over; the finished list is exactly the joined attackers past the window. */
  lemma {:induction false} SwingAllAttacking(g: Geometry, dt: real, es: seq<Entity>, c: Storages, attackers: seq<Entity>)
    requires Distinct(attackers)
    ensures var p := SwingAll(g, dt, es, Pass(c, []), attackers);
      && (forall a :: a in c.attacking && (a !in attackers || !Joined(c, a)) ==> p.comps.attacking[a] == c.attacking[a])
      && (forall a :: a in attackers && Joined(c, a) ==>
            p.comps.attacking[a] == Attacking(Advanced(c.attacking[a].time, dt), true))
      && (forall a :: a in p.finished <==> a in attackers && Joined(c, a) && c.attacking[a].time > SWING_DURATION)
    decreases |attackers|
  {
    if attackers != [] {
      var pre := attackers[..|attackers| - 1];
      var a := attackers[|attackers| - 1];
      DistinctPrefix(attackers);
      SwingAllAttacking(g, dt, es, c, pre);
      var q := SwingAll(g, dt, es, Pass(c, []), pre);
      assert Joined(q.comps, a) == Joined(c, a);
      SwingAttacking(g, dt, es, q, a);
      assert forall x :: x in attackers <==> x in pre || x == a;
    }
  }

  /** The time a swing has after this tick: unchanged once past the window, advanced by `dt` otherwise. */
  function Advanced(time: real, dt: real): real {
    if time > SWING_DURATION then time else time + dt
  }

  /** One attacker's turn, on distinct targets: `b` is damaged, knocked up and force-updated if the pass lands on it, and untouched otherwise. */
  lemma SwingTarget(g: Geometry, dt: real, es: seq<Entity>, p: Pass, a: Entity, b: Entity)
    requires Distinct(es)
    ensures var c := p.comps;
      var r := Swing(g, dt, es, p, a).comps;
      if Lands(g, es, c, a, b) then
        && r.stats[b] == Damaged(c.stats[b], AttackerOf(c, a))
        && r.vel[b].z == LIFT && b in r.forceUpdate
      else
        && (b in c.stats ==> r.stats[b] == c.stats[b])
        && (b in c.vel ==> r.vel[b] == c.vel[b])
        && (b in r.forceUpdate <==> b in c.forceUpdate)
  {
    if Joined(p.comps, a) && !p.comps.attacking[a].applied {
      HitPassAt(g, AttackerOf(p.comps, a), p.comps, es, b);
    }
  }

  /** Over distinct attackers and targets: `b` loses 10 health per landed hit; if none lands it is untouched, otherwise it is knocked up and force-updated. */
  lemma {:induction false} SwingAllTarget(g: Geometry, dt: real, es: seq<Entity>, c: Storages, attackers: seq<Entity>, b: Entity)
    requires Distinct(attackers) && Distinct(es)
    ensures var r := SwingAll(g, dt, es, Pass(c, []), attackers).comps;
      var n := Hitters(g, es, c, attackers, b);
      && (b in c.stats ==> r.stats[b].hp.current == c.stats[b].hp.current - DAMAGE * n)
      && (n == 0 ==>
            && (b in c.stats ==> r.stats[b] == c.stats[b])
            && (b in c.vel ==> r.vel[b] == c.vel[b])
            && (b in r.forceUpdate <==> b in c.forceUpdate))
      && (n > 0 ==> b in r.forceUpdate && b in r.vel && r.vel[b].z == LIFT)
    decreases |attackers|
  {
    if attackers != [] {
      var pre := attackers[..|attackers| - 1];
      var a := attackers[|attackers| - 1];
      DistinctPrefix(attackers);
      SwingAllTarget(g, dt, es, c, pre, b);
      SwingAllAttacking(g, dt, es, c, pre);
      var q := SwingAll(g, dt, es, Pass(c, []), pre);
      assert Joined(q.comps, a) == Joined(c, a);
      assert Lands(g, es, q.comps, a, b) == Lands(g, es, c, a, b) by {
        if Joined(c, a) {
          assert q.comps.attacking[a] == c.attacking[a];
          assert AttackerOf(q.comps, a) == AttackerOf(c, a);
        }
      }
      SwingTarget(g, dt, es, q, a, b);
    }
  }

  /** After the tick, a joined attacker's swing is gone exactly when it was past the window, and otherwise it is applied with its time advanced; every other swing is as it was. */
  lemma RunAttacking(g: Geometry, dt: real, es: seq<Entity>, c: Storages, a: Entity)
    requires Distinct(es)
    ensures var r := RunSpec(g, dt, es, c);
      if a in es && Joined(c, a) then
        && (a in r.attacking <==> c.attacking[a].time <= SWING_DURATION)
        && (a in r.attacking ==> r.attacking[a] == Attacking(c.attacking[a].time + dt, true))
      else
        && (a in r.attacking <==> a in c.attacking)
        && (a in c.attacking ==> r.attacking[a] == c.attacking[a])
  {
    SwingAllAttacking(g, dt, es, c, es);
  }

  /** After the tick, every alive entity has lost 10 health per attacker whose pass landed on it; one nobody hit is unchanged, one that was hit is force-updated and moving up at 15. */
  lemma RunTarget(g: Geometry, dt: real, es: seq<Entity>, c: Storages, b: Entity)
    requires Distinct(es)
    ensures var r := RunSpec(g, dt, es, c);
      var n := Hitters(g, es, c, es, b);
      && r == c.(vel := r.vel, stats := r.stats, forceUpdate := r.forceUpdate, attacking := r.attacking)
      && r.vel.Keys == c.vel.Keys && r.stats.Keys == c.stats.Keys
      && (b in c.stats ==> r.stats[b].hp.current == c.stats[b].hp.current - DAMAGE * n)
      && (n == 0 ==>
            && (b in c.stats ==> r.stats[b] == c.stats[b])
            && (b in c.vel ==> r.vel[b] == c.vel[b])
            && (b in r.forceUpdate <==> b in c.forceUpdate))
      && (n > 0 ==> b in r.forceUpdate && b in r.vel && r.vel[b].z == LIFT)
  {
    SwingAllTarget(g, dt, es, c, es, b);
  }

  lemma {:induction false} HittersZero(g: Geometry, es: seq<Entity>, c: Storages, attackers: seq<Entity>, b: Entity)
    requires forall a :: a in attackers && Joined(c, a) ==> c.attacking[a].applied
    ensures Hitters(g, es, c, attackers, b) == 0
    decreases |attackers|
  {
    if attackers != [] {
      HittersZero(g, es, c, attackers[..|attackers| - 1], b);
    }
  }

  /** With every joined swing already applied, the tick leaves Vel, Stats and ForceUpdate alone. */
  lemma RunIdleWhenApplied(g: Geometry, dt: real, es: seq<Entity>, c: Storages)
    requires Distinct(es)
    requires forall a :: a in es && Joined(c, a) ==> c.attacking[a].applied
    ensures var r := RunSpec(g, dt, es, c);
      r.vel == c.vel && r.stats == c.stats && r.forceUpdate == c.forceUpdate
  {
    var r := RunSpec(g, dt, es, c);
    forall b | true
      ensures (b in c.stats ==> r.stats[b] == c.stats[b]) && (b in c.vel ==> r.vel[b] == c.vel[b])
      ensures (b in r.forceUpdate <==> b in c.forceUpdate)
    {
      HittersZero(g, es, c, es, b);
      RunTarget(g, dt, es, c, b);
    }
    RunTarget(g, dt, es, c, 0);
  }

  /** A swing hits at most once: the next tick, with no new swings, damages and pushes nobody. */
  lemma SecondRunHitsNothing(g: Geometry, dt: real, dt': real, es: seq<Entity>, c: Storages)
    requires Distinct(es)
    ensures var r := RunSpec(g, dt, es, c);
      var r' := RunSpec(g, dt', es, r);
      r'.vel == r.vel && r'.stats == r.stats && r'.forceUpdate == r.forceUpdate
  {
    var r := RunSpec(g, dt, es, c);
    forall a | a in es && Joined(r, a) ensures r.attacking[a].applied {
      RunAttacking(g, dt, es, c, a);
    }
    RunIdleWhenApplied(g, dt', es, r);
  }

  /** The body of the inner loop of `Sys::run`: a qualifying target takes damage, knock-back and a forced update. */
  method HitTarget(w: World, g: Geometry, attacker: Attacker, b: Entity)
    modifies w`comps
    ensures w.comps == HitOne(g, attacker, old(w.comps), b)
  {
    var c := w.comps;
    if b in c.pos && b in c.vel && b in c.stats && IsHit(g, attacker, b, c.pos[b], c.stats[b]) {
      w.comps := c.(vel := c.vel[b := Knock(g, c.vel[b], attacker.from, c.pos[b])],
                    stats := c.stats[b := Damaged(c.stats[b], attacker)],
                    forceUpdate := c.forceUpdate + {b});
    }
  }

  /** The inner loop of `Sys::run`: the attacker tried against every entity of the target join. */
  method HitTargets(w: World, g: Geometry, attacker: Attacker)
    modifies w`comps
    ensures w.comps == HitPass(g, attacker, old(w.comps), w.entities)
  {
    var es := w.entities;
    var j := 0;
    while j < |es|
      invariant 0 <= j <= |es|
      invariant w.comps == HitPass(g, attacker, old(w.comps), es[..j])
    {
      HitTarget(w, g, attacker, es[j]);
      assert es[..j + 1][..j] == es[..j];
      j := j + 1;
    }
    assert es[..j] == es;
  }

  /** One iteration of the outer loop of `Sys::run`, for attacker `a`. */
  method SwingOne(w: World, g: Geometry, dt: real, a: Entity, finished: seq<Entity>)
    returns (finished': seq<Entity>)
    modifies w`comps
    ensures Pass(w.comps, finished') == Swing(g, dt, w.entities, Pass(old(w.comps), finished), a)
  {
    finished' := finished;
    var c := w.comps;
    if a in c.uids && a in c.pos && a in c.ori && a in c.attacking {
      var atk := c.attacking[a];
      if !atk.applied {
        HitTargets(w, g, Attacker(a, c.uids[a], c.pos[a], c.ori[a]));
      }
      w.comps := w.comps.(attacking := c.attacking[a := atk.(applied := true)]);
      if atk.time > SWING_DURATION {
        finished' := finished + [a];
      } else {
        w.comps := w.comps.(attacking := w.comps.attacking[a := Attacking(atk.time + dt, true)]);
      }
    }
  }

  /** `Sys::run`: one combat tick over the world. */
  method Run(w: World, g: Geometry, dt: real)
    modifies w`comps
    ensures w.comps == RunSpec(g, dt, w.entities, old(w.comps))
  {
    var es := w.entities;
    var finished: seq<Entity> := [];
    var i := 0;
    while i < |es|
      invariant 0 <= i <= |es|
      invariant Pass(w.comps, finished) == SwingAll(g, dt, es, Pass(old(w.comps), []), es[..i])
    {
      finished := SwingOne(w, g, dt, es[i], finished);
      assert es[..i + 1][..i] == es[..i];
      i := i + 1;
    }
    assert es[..i] == es;
    RemoveFinished(w, finished);
  }

  /** The final loop of `Sys::run`: the swings that are over lose their Attacking component. */
  method RemoveFinished(w: World, finished: seq<Entity>)
    modifies w`comps
    ensures w.comps == old(w.comps).(attacking := old(w.comps).attacking - (set a | a in finished))
  {
    var k := 0;
    while k < |finished|
      invariant 0 <= k <= |finished|
      invariant w.comps == old(w.comps).(attacking := old(w.comps).attacking - (set a | a in finished[..k]))
    {
      w.comps := w.comps.(attacking := w.comps.attacking - {finished[k]});
      assert finished[..k + 1] == finished[..k] + [finished[k]];
      k := k + 1;
    }
    assert finished[..k] == finished;
  }
}
