/**
 What an attack comes to (DungeonRoom.h, StepCombat and ChaseToward): a blow lands whenever it can, a
 target out of range is closed in on, an attack on nothing ends; and a building that is laid siege to
 falls within a number of ticks that can be computed beforehand.
 */
module Strikes {
  import opened Entities
  import opened Simulation
  import opened Laws
  import opened Evolution
  import opened Replication
  import opened Bystanders
  import opened Movement
  import opened Combat

  // ---- one turn of an attacker ----

  /** An unprompted attack that has led more than 14 from where it began. */
  predicate Strayed(e: Env, u: Unit) { u.autoAggro && Gap(e, u.aggroOrigin, u.pos) > 14.0 }

  /** The unit is alive and attacks t. */
  ghost predicate Attacks(w: World, id: Id, t: Id) {
    id in w.units && w.units[id].hp > 0.0 && w.units[id].attackTarget == t && t != 0
  }

  /** The cooldown a frame later. */
  function CooldownLeft(cd: real, dt: real): real { if cd > dt then cd - dt else 0.0 }

  /** The unit as it decides. */
  function Ready(u: Unit, dt: real): Unit { u.(attackCd := CooldownLeft(u.attackCd, dt)) }

  function AfterBlow(hp: real): real { if hp > 20.0 then hp - 20.0 else 0.0 }

  /** An attacker does not look around: it goes on with its attack. */
  lemma AttackTurn(e: Env, w: World, id: Id, scan: bool, dt: real, t: Id)
    requires WellFormed(w) && Attacks(w, id, t) && w.units[id].attackCd >= 0.0 && dt >= 0.0
    ensures var u := Ready(w.units[id], dt);
            var w1 := w.(units := w.units[id := u]);
            && Feasible(w1, DecideCombat(e, w1, u, dt)) && w1.units[id].id == id
            && Turn(e, w, id, scan, dt) == Commit(w1, DecideCombat(e, w1, u, dt))
  {
    hide DecideCombat, Commit, Feasible;
    var u := Ready(w.units[id], dt);
    assert CoolDown(w.units[id].attackCd, dt) == CooldownLeft(w.units[id].attackCd, dt);
    var w1 := Cool(w, id, dt);
    assert w1 == w.(units := w.units[id := u]);
    assert Alert(e, w1, u) == Ignore;
    assert Deliberated(e, w, id, scan, dt) == w1;
    UnitFacts(w, id);
    CombatFeasible(e, w1, u, dt);
    TurnIs(e, w, id, scan, dt);
    hide WellFormed, UnitOk;
  }

  lemma CombatFeasible(e: Env, w: World, u: Unit, dt: real)
    requires u.id in w.units
    ensures Feasible(w, DecideCombat(e, w, u, dt))
  {
    hide Chase;
  }

  /** v is w but for the attacker, the marks and, if it is hit, the target. */
  ghost predicate Struck(w: World, v: World, id: Id, t: Id, u: Unit)
    requires id in w.units && (t in w.units || t in w.buildings) && id != t
  {
    if t in w.units then
      && v == w.(units := w.units[id := u][t := w.units[t].(hp := AfterBlow(w.units[t].hp))], marks := v.marks)
      && v.marks == w.marks.(dirty := w.marks.dirty + {id, t})
    else
      && v == w.(units := w.units[id := u],
                 buildings := w.buildings[t := w.buildings[t].(hp := AfterBlow(w.buildings[t].hp))], marks := v.marks)
      && v.marks == w.marks.(dirty := w.marks.dirty + {id}, siteDirty := w.marks.siteDirty + {t})
  }

  /** v is w but for the unit, which is now u, and its mark: nobody and nothing else is touched. */
  ghost predicate ActsAlone(w: World, v: World, id: Id, u: Unit) {
    v == w.(units := w.units[id := u], marks := w.marks.(dirty := w.marks.dirty + {id}))
  }

  /** A living target of another team. */
  predicate FairGame(w: World, id: Id, t: Id)
    requires id in w.units
  {
    (t in w.units && w.units[t].hp > 0.0 && w.units[t].team != w.units[id].team)
    || (t !in w.units && t in w.buildings && w.buildings[t].hp > 0.0 && w.buildings[t].team != w.units[id].team)
  }

  /** Where it is, and from how far it can be hit. */
  function TargetPos(w: World, t: Id): Vec3
    requires t in w.units || t in w.buildings
  {
    if t in w.units then w.units[t].pos else w.buildings[t].pos
  }

  function Reach(w: World, t: Id): real { if t in w.units then 2.0 else 4.0 }

  /** In range the attacker turns to the target and stays where it is. */
  lemma ChaseInRange(e: Env, u: Unit, p: Vec3, dt: real, range: real)
    requires range >= 0.0 && Gap(e, u.pos, p) <= range
    ensures var (v, inRange) := Chase(e, u, p, dt, range);
            inRange && v == u.(yaw := if Gap(e, u.pos, p) > 0.0001 then e.atan2(Toward(u.pos, p)) else u.yaw)
  {}

  /** Out of range it goes one stride toward it. */
  lemma ChaseOutOfRange(e: Env, u: Unit, p: Vec3, dt: real, range: real)
    requires IsNorm(e.len) && range >= 1.0 && Gap(e, u.pos, p) > range && Stride(u, dt) >= 0.0
    ensures var (v, inRange) := Chase(e, u, p, dt, range);
            && !inRange && v == u.(yaw := e.atan2(Toward(u.pos, p)), pos := v.pos)
            && Gap(e, u.pos, v.pos) == Stride(u, dt) && Gap(e, v.pos, p) == Abs(Gap(e, u.pos, p) - Stride(u, dt))
  {
    hide IsNorm;
    StepGap(e, u.pos, p, Stride(u, dt));
    GapZero(e, u.pos, u.pos);
    var faced := u.(yaw := e.atan2(Toward(u.pos, p)));
    assert Stride(faced, dt) == Stride(u, dt);
    hide Stride;
  }

  /** What the attacker decides about a target it may hit. */
  lemma DecidesToStrike(e: Env, w: World, u: Unit, dt: real, t: Id)
    requires u.id in w.units && u.attackTarget == t && !Strayed(e, u) && FairGame(w, u.id, t)
    requires w.units[u.id].team == u.team
    ensures var range := Reach(w, t);
            var (c, inRange) := Chase(e, u.(state := Attacking), TargetPos(w, t), dt, range);
            var hit := if t in w.units then HitUnit(t) else HitBuilding(t);
            DecideCombat(e, w, u, dt)
            == if inRange && u.attackCd <= 0.0 then Outcome(c.(attackCd := 1.0), hit) else Outcome(c, NoEffect)
  {
    hide Chase, Gap;
  }

  lemma CommitStrikes(w: World, o: Outcome, id: Id, t: Id)
    requires id in w.units && id != t && o.unit.id == id
    requires o.effect == (if t in w.units then HitUnit(t) else HitBuilding(t)) && (t in w.units || t in w.buildings)
    ensures Feasible(w, o) && Struck(w, Commit(w, o), id, t, o.unit)
  {
    hide Wound;
    if t in w.units {
      assert AfterBlow(w.units[t].hp) == Wound(w.units[t].hp) by { WoundIs(w.units[t].hp); }
    } else {
      assert AfterBlow(w.buildings[t].hp) == Wound(w.buildings[t].hp) by { WoundIs(w.buildings[t].hp); }
    }
    hide AfterBlow;
  }

  lemma WoundIs(hp: real)
    ensures AfterBlow(hp) == Wound(hp)
  {}

  lemma CommitAlone(w: World, o: Outcome, id: Id)
    requires id in w.units && o.unit.id == id && o.effect == NoEffect
    ensures Feasible(w, o) && ActsAlone(w, Commit(w, o), id, o.unit)
  {}

  /** The room with the attacker's cooldown run down differs from the room in nothing else. */
  lemma ReadyStruck(w: World, v: World, id: Id, t: Id, u: Unit, r: Unit)
    requires id in w.units && id != t && (t in w.units || t in w.buildings)
    requires Struck(w.(units := w.units[id := r]), v, id, t, u)
    ensures Struck(w, v, id, t, u)
  {
    assert w.units[id := r][id := u] == w.units[id := u];
  }

  lemma ReadyAlone(w: World, v: World, id: Id, u: Unit, r: Unit)
    requires id in w.units && ActsAlone(w.(units := w.units[id := r]), v, id, u)
    ensures ActsAlone(w, v, id, u)
  {
    assert w.units[id := r][id := u] == w.units[id := u];
  }

  lemma AloneOwn(w: World, v: World, id: Id, u: Unit)
    requires id in w.units && ActsAlone(w, v, id, u)
    ensures id in v.units && v.units[id] == u
  {}

  lemma ReadyGame(e: Env, w: World, id: Id, t: Id, dt: real)
    requires WellFormed(w) && id in w.units
    ensures var w1 := w.(units := w.units[id := Ready(w.units[id], dt)]);
            && FairGame(w1, id, t) == FairGame(w, id, t)
            && (FairGame(w, id, t) ==> id != t && TargetPos(w1, t) == TargetPos(w, t) && Reach(w1, t) == Reach(w, t))
            && Strayed(e, Ready(w.units[id], dt)) == Strayed(e, w.units[id])
            && Ready(w.units[id], dt).id == id
  {
    hide UnitOk, SiteOk, Gap;
  }

  /** What the turn of an attacker comes to, seen from its target. */
  ghost predicate BlowFalls(w: World, v: World, id: Id, t: Id)
    requires id in w.units && (t in w.units || t in w.buildings) && id != t
  {
    && id in v.units && v.units[id] == w.units[id].(state := Attacking, attackCd := 1.0, yaw := v.units[id].yaw)
    && Struck(w, v, id, t, v.units[id])
  }

  /**
   A blow lands whenever it can: the attacker is in range of a living target of another team and its
   cooldown has run out. The target loses 20 hit points, or all it has, and is marked; the attacker
   stands where it stood and waits a second for the next blow; nothing else changes.
   */
  lemma BlowLands(e: Env, w: World, id: Id, scan: bool, dt: real, t: Id)
    requires WellFormed(w) && Attacks(w, id, t) && !Strayed(e, w.units[id]) && FairGame(w, id, t)
    requires dt >= 0.0 && 0.0 <= w.units[id].attackCd <= dt
    requires Gap(e, w.units[id].pos, TargetPos(w, t)) <= Reach(w, t)
    ensures id != t && BlowFalls(w, Turn(e, w, id, scan, dt), id, t)
  {
    hide WellFormed, Turn, DecideCombat, Commit, Chase, Gap, FairGame, Struck, TargetPos, Reach, Strayed;
    var u := Ready(w.units[id], dt);
    var w1 := w.(units := w.units[id := u]);
    ReadyGame(e, w, id, t, dt);
    GameExists(w, id, t);
    GameExists(w1, id, t);
    AttackTurn(e, w, id, scan, dt, t);
    DecidesToStrike(e, w1, u, dt, t);
    ChaseInRange(e, u.(state := Attacking), TargetPos(w1, t), dt, Reach(w1, t));
    var o := DecideCombat(e, w1, u, dt);
    CommitStrikes(w1, o, id, t);
    ReadyStruck(w, Commit(w1, o), id, t, o.unit, u);
    StruckOwn(w, Commit(w1, o), id, t, o.unit);
  }

  lemma GameExists(w: World, id: Id, t: Id)
    requires id in w.units && FairGame(w, id, t)
    ensures t in w.units || t in w.buildings
    ensures Reach(w, t) == (if t in w.units then 2.0 else 4.0)
  {}

  lemma StruckOwn(w: World, v: World, id: Id, t: Id, u: Unit)
    requires id in w.units && (t in w.units || t in w.buildings) && id != t && Struck(w, v, id, t, u)
    ensures id in v.units && v.units[id] == u
  {}

  /** Until the cooldown has run out the attacker in range waits and harms nobody. */
  lemma AttackerWaits(e: Env, w: World, id: Id, scan: bool, dt: real, t: Id)
    requires WellFormed(w) && Attacks(w, id, t) && !Strayed(e, w.units[id]) && FairGame(w, id, t)
    requires 0.0 <= dt < w.units[id].attackCd
    requires Gap(e, w.units[id].pos, TargetPos(w, t)) <= Reach(w, t)
    ensures var u, v := w.units[id], Turn(e, w, id, scan, dt);
            && id in v.units && ActsAlone(w, v, id, v.units[id])
            && v.units[id] == u.(state := Attacking, attackCd := u.attackCd - dt, yaw := v.units[id].yaw)
  {
    hide WellFormed, Turn, DecideCombat, Commit, Chase, Gap, FairGame, TargetPos, Reach, Strayed;
    var u := Ready(w.units[id], dt);
    var w1 := w.(units := w.units[id := u]);
    ReadyGame(e, w, id, t, dt);
    GameExists(w, id, t);
    GameExists(w1, id, t);
    AttackTurn(e, w, id, scan, dt, t);
    DecidesToStrike(e, w1, u, dt, t);
    ChaseInRange(e, u.(state := Attacking), TargetPos(w1, t), dt, Reach(w1, t));
    CommitAlone(w1, DecideCombat(e, w1, u, dt), id);
    ReadyAlone(w, Turn(e, w, id, scan, dt), id, DecideCombat(e, w1, u, dt).unit, u);
  }

  /** An attacker out of range closes in by one stride and harms nobody. */
  lemma AttackerClosesIn(e: Env, w: World, id: Id, scan: bool, dt: real, t: Id)
    requires WellFormed(w) && IsNorm(e.len) && Attacks(w, id, t) && !Strayed(e, w.units[id]) && FairGame(w, id, t)
    requires dt >= 0.0 && w.units[id].attackCd >= 0.0 && Stride(w.units[id], dt) >= 0.0
    requires Gap(e, w.units[id].pos, TargetPos(w, t)) > Reach(w, t)
    ensures var u, v, p := w.units[id], Turn(e, w, id, scan, dt), TargetPos(w, t);
            && id in v.units && ActsAlone(w, v, id, v.units[id])
            && v.units[id] == u.(state := Attacking, attackCd := CooldownLeft(u.attackCd, dt),
                                 pos := v.units[id].pos, yaw := e.atan2(Toward(u.pos, p)))
            && Gap(e, u.pos, v.units[id].pos) == Stride(u, dt)
            && Gap(e, v.units[id].pos, p) == Abs(Gap(e, u.pos, p) - Stride(u, dt))
  {
    hide WellFormed, IsNorm, Turn, DecideCombat, Commit, Chase, Gap, FairGame, TargetPos, Reach, Strayed, CooldownLeft;
    var u := Ready(w.units[id], dt);
    var w1 := w.(units := w.units[id := u]);
    ReadyGame(e, w, id, t, dt);
    GameExists(w, id, t);
    GameExists(w1, id, t);
    AttackTurn(e, w, id, scan, dt, t);
    DecidesToStrike(e, w1, u, dt, t);
    assert Stride(u.(state := Attacking), dt) == Stride(w.units[id], dt);
    hide Stride;
    ChaseOutOfRange(e, u.(state := Attacking), TargetPos(w1, t), dt, Reach(w1, t));
    CommitAlone(w1, DecideCombat(e, w1, u, dt), id);
    ReadyAlone(w, Turn(e, w, id, scan, dt), id, DecideCombat(e, w1, u, dt).unit, u);
  }

  /** An attack on a target that is gone, dead or of the own team ends. */
  lemma AttackEnds(e: Env, w: World, id: Id, scan: bool, dt: real, t: Id)
    requires WellFormed(w) && Attacks(w, id, t) && !Strayed(e, w.units[id]) && !FairGame(w, id, t)
    requires dt >= 0.0 && w.units[id].attackCd >= 0.0
    ensures var u := w.units[id];
            ActsAlone(w, Turn(e, w, id, scan, dt), id,
                   u.(attackTarget := 0, autoAggro := false, state := Idle, attackCd := CooldownLeft(u.attackCd, dt)))
  {
    hide WellFormed, Turn, DecideCombat, Commit, Gap, FairGame, Strayed, CooldownLeft;
    var u := Ready(w.units[id], dt);
    var w1 := w.(units := w.units[id := u]);
    ReadyGame(e, w, id, t, dt);
    AttackTurn(e, w, id, scan, dt, t);
    DecidesToStop(e, w1, u, dt, t);
    CommitAlone(w1, DecideCombat(e, w1, u, dt), id);
    ReadyAlone(w, Turn(e, w, id, scan, dt), id, DecideCombat(e, w1, u, dt).unit, u);
  }

  lemma DecidesToStop(e: Env, w: World, u: Unit, dt: real, t: Id)
    requires u.id in w.units && u.attackTarget == t && !Strayed(e, u) && !FairGame(w, u.id, t)
    requires w.units[u.id].team == u.team
    ensures DecideCombat(e, w, u, dt) == Outcome(u.(attackTarget := 0, autoAggro := false, state := Idle), NoEffect)
  {
    hide Strike, Gap;
  }

  /** An unprompted attacker that has strayed too far gives up and walks back. */
  lemma AttackerTurnsBack(e: Env, w: World, id: Id, scan: bool, dt: real, t: Id)
    requires WellFormed(w) && Attacks(w, id, t) && Strayed(e, w.units[id])
    requires dt >= 0.0 && w.units[id].attackCd >= 0.0
    ensures var u := w.units[id];
            ActsAlone(w, Turn(e, w, id, scan, dt), id,
                   u.(attackTarget := 0, autoAggro := false, hasTarget := true, target := u.aggroOrigin,
                      state := Moving, attackCd := CooldownLeft(u.attackCd, dt)))
  {
    hide WellFormed, Turn, DecideCombat, Commit, Gap, FairGame, Strayed, CooldownLeft;
    var u := Ready(w.units[id], dt);
    var w1 := w.(units := w.units[id := u]);
    ReadyGame(e, w, id, t, dt);
    AttackTurn(e, w, id, scan, dt, t);
    DecidesToTurnBack(e, w1, u, dt);
    CommitAlone(w1, DecideCombat(e, w1, u, dt), id);
    ReadyAlone(w, Turn(e, w, id, scan, dt), id, DecideCombat(e, w1, u, dt).unit, u);
  }

  lemma DecidesToTurnBack(e: Env, w: World, u: Unit, dt: real)
    requires Strayed(e, u)
    ensures DecideCombat(e, w, u, dt)
            == Outcome(u.(attackTarget := 0, autoAggro := false, hasTarget := true, target := u.aggroOrigin,
                          state := Moving), NoEffect)
  {
    hide Strike, Gap;
  }
}
