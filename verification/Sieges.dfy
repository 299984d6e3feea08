/**
 Attacks over whole runs (DungeonRoom.h, StepCombat and RemoveDead): a building that a unit attacks from
 within range, and goes on attacking, is gone within a number of ticks that can be computed beforehand.
 A crystal of 300 hit points falls to one attacker in 281 ticks.
 */
module Sieges {
  import opened Entities
  import opened Simulation
  import opened Laws
  import opened Evolution
  import opened Replication
  import opened Bystanders
  import opened Moments
  import opened Strikes
  import Match
  import WorkerLiveness

  /** The blows a building can take. */
  function BlowsLeft(hp: real): nat
    decreases hp
  {
    if hp <= 0.0 then 0 else 1 + BlowsLeft(hp - 20.0)
  }

  /** The ticks until the last blow lands. */
  function SiegeTicks(hp: real, cd: real): int { 20 * (BlowsLeft(hp) - 1) + TicksIn(cd) }

  lemma {:induction false} BlowsMonotone(hp: real, hp': real)
    requires hp <= hp'
    ensures BlowsLeft(hp) <= BlowsLeft(hp')
    decreases hp'
  {
    if hp > 0.0 { BlowsMonotone(hp - 20.0, hp' - 20.0); }
  }

  lemma OneBlow(hp: real)
    requires hp > 0.0
    ensures BlowsLeft(AfterBlow(hp)) == BlowsLeft(hp) - 1
  {
    if hp <= 20.0 { assert BlowsLeft(hp - 20.0) == 0; }
  }

  lemma CrystalFalls()
    ensures SiegeTicks(300.0, 0.0) == 281
  {
    assert BlowsLeft(200.0) == 5 + BlowsLeft(100.0);
    assert BlowsLeft(300.0) == 5 + BlowsLeft(200.0);
  }

  /** A unit attacks a finished building of another team from within range. */
  ghost predicate Besieges(e: Env, w: World, id: Id, t: Id) {
    && Attacks(w, id, t) && !Strayed(e, w.units[id]) && 0.0 <= w.units[id].attackCd <= 1.0
    && t in w.buildings && !w.buildings[t].underConstruction && w.buildings[t].hp > 0.0
    && w.buildings[t].team != w.units[id].team && Gap(e, w.units[id].pos, w.buildings[t].pos) <= 4.0
  }

  /** A tick in which the attacker survives and is not commanded. */
  ghost predicate Undistracted(e: Env, w: World, input: Input, id: Id) {
    && input.env.len == e.len && Enumerates(input.env.enum)
    && id in w.units && Unaddressed(w, input, id) && id in Advance(w, input).units
  }

  function TicksLeft(w: World, id: Id, t: Id): int
    requires id in w.units && t in w.buildings
  {
    SiegeTicks(w.buildings[t].hp, w.units[id].attackCd)
  }

  lemma NoUnitThere(w: World, t: Id)
    requires WellFormed(w) && t in w.buildings
    ensures t !in w.units && t != 0
  {}

  lemma SameBesieges(e: Env, e': Env, w: World, w': World, id: Id, t: Id)
    requires Besieges(e, w, id, t) && e'.len == e.len && id in w'.units && Spared(w.units[id], w'.units[id])
    requires w'.units[id].hp > 0.0
    requires t in w'.buildings && SameBuilding(w.buildings[t], w'.buildings[t]) && w'.buildings[t].hp > 0.0
    ensures Besieges(e', w', id, t) && TicksLeft(w', id, t) <= TicksLeft(w, id, t)
  {
    BlowsMonotone(w'.buildings[t].hp, w.buildings[t].hp);
    hide BlowsLeft, TicksIn;
  }

  /** The attacker's own turn: the building falls, or it comes nearer to falling. */
  lemma SiegeTurn(e: Env, w: World, id: Id, scan: bool, t: Id)
    requires WellFormed(w) && Besieges(e, w, id, t)
    ensures var v := Turn(e, w, id, scan, TICK_SECONDS);
            && id in v.units && t in v.buildings
            && (v.buildings[t].hp <= 0.0 || (Besieges(e, v, id, t) && TicksLeft(v, id, t) < TicksLeft(w, id, t)))
  {
    hide WellFormed, Turn, Gap, BlowsLeft, TicksIn;
    NoUnitThere(w, t);
    if w.units[id].attackCd <= TICK_SECONDS {
      BlowLands(e, w, id, scan, TICK_SECONDS, t);
      OneBlow(w.buildings[t].hp);
      TicksInSecond();
    } else {
      AttackerWaits(e, w, id, scan, TICK_SECONDS, t);
      TicksInStep(w.units[id].attackCd);
    }
  }

  lemma SiegeTick(e: Env, w: World, input: Input, id: Id, t: Id)
    requires WellFormed(w) && Besieges(e, w, id, t) && Undistracted(e, w, input, id)
    ensures var v := Advance(w, input);
            && id in v.units
            && (t !in v.buildings || (Besieges(e, v, id, t) && TicksLeft(v, id, t) < TicksLeft(w, id, t)))
  {
    hide WellFormed, Besieges, Eve, Morrow, Advance, Turn, Opened, Enumerates, Keeps, Spared, SameBuilding, TicksLeft;
    TickIsTurn(w, input, id);
    EveKeeps(w, input, id);
    MorrowKeeps(w, input, id);
    RestKeeps(w, input, id);
    var eve, morrow, v := Eve(w, input, id), Morrow(w, input, id), Advance(w, input);
    BesiegedStands(e, w, id, t);
    KeepsBuilding(w, eve, t);
    KeepsBuilding(eve, morrow, t);
    if t in v.buildings {
      KeepsBuilding(morrow, v, t);
      StandsAllAlong(w.buildings[t], eve.buildings[t], morrow.buildings[t], v.buildings[t]);
      SameBesieges(e, input.env, w, eve, id, t);
      MorrowIs(w, input, id);
      SiegeTurn(input.env, eve, id, ScanDue(Opened(w, input)), t);
      AliveAtEnd(w, input, id);
      SameBesieges(input.env, e, morrow, v, id, t);
    }
  }

  lemma BesiegedStands(e: Env, w: World, id: Id, t: Id)
    requires Besieges(e, w, id, t)
    ensures id in w.units && t in w.buildings && !w.buildings[t].underConstruction
  {}

  lemma StandsAllAlong(a: Building, b: Building, c: Building, d: Building)
    requires SameBuilding(a, b) && SameBuilding(b, c) && SameBuilding(c, d) && !a.underConstruction && d.hp > 0.0
    ensures b.hp > 0.0 && c.hp > 0.0
  {}

  // ---- whole runs ----

  /** Once gone, a building stays away. */
  lemma GoneStays(w: World, input: Input, t: Id)
    requires WellFormed(w) && t !in w.buildings && t < w.nextId
    ensures t !in Advance(w, input).buildings
  {
    hide WellFormed, Advance;
    AdvanceKeeps(w, input);
    Match.LastingFrame(w, Advance(w, input));
  }

  /** The siege after n ticks. */
  ghost predicate Ongoing(e: Env, w: World, id: Id, t: Id, n: nat, start: int) {
    t < w.nextId && (t in w.buildings ==> Besieges(e, w, id, t) && TicksLeft(w, id, t) + n <= start)
  }

  lemma OngoingTick(e: Env, w: World, input: Input, id: Id, t: Id, n: nat, start: int)
    requires WellFormed(w) && Ongoing(e, w, id, t, n, start)
    requires t in w.buildings ==> Undistracted(e, w, input, id)
    ensures Ongoing(e, ClearMarks(Advance(w, input)), id, t, n + 1, start)
  {
    hide WellFormed, Advance, TicksLeft, Gap;
    AdvanceKeeps(w, input);
    Match.LastingFrame(w, Advance(w, input));
    if t in w.buildings { SiegeTick(e, w, input, id, t); } else { GoneStays(w, input, t); }
    if t in Advance(w, input).buildings { ClearedBesieges(e, Advance(w, input), id, t); }
    hide Evolves, Undistracted, Besieges;
  }

  lemma ClearedBesieges(e: Env, w: World, id: Id, t: Id)
    requires Besieges(e, w, id, t)
    ensures Besieges(e, ClearMarks(w), id, t) && TicksLeft(ClearMarks(w), id, t) == TicksLeft(w, id, t)
  {}

  lemma {:induction false} SiegeSoFar(e: Env, w: World, inputs: seq<Input>, id: Id, t: Id, n: nat, start: int)
    requires WellFormed(w) && n <= |inputs| && Ongoing(e, w, id, t, 0, start)
    requires forall k | 0 <= k < n && t in Run(w, inputs[..k]).buildings ::
               Undistracted(e, Run(w, inputs[..k]), inputs[k], id)
    ensures Ongoing(e, Run(w, inputs[..n]), id, t, n, start)
  {
    hide WellFormed, Advance, Undistracted, Ongoing, Run;
    if n == 0 {
      assert inputs[..0] == [];
      WorkerLiveness.RunNone(w);
    } else {
      SiegeSoFar(e, w, inputs, id, t, n - 1, start);
      RunWellFormed(w, inputs[..n - 1]);
      OngoingTick(e, Run(w, inputs[..n - 1]), inputs[n - 1], id, t, n - 1, start);
      WorkerLiveness.RunStep(w, inputs, n - 1);
    }
  }

  /**
   A siege succeeds: whatever else happens, a building that a unit attacks from within range is gone after
   as many ticks as its hit points and the attacker's cooldown say, if the attacker survives and is not
   commanded while the building stands.
   */
  lemma Siege(e: Env, w: World, inputs: seq<Input>, id: Id, t: Id)
    requires WellFormed(w) && Besieges(e, w, id, t) && |inputs| == TicksLeft(w, id, t)
    requires forall k | 0 <= k < |inputs| && t in Run(w, inputs[..k]).buildings ::
               Undistracted(e, Run(w, inputs[..k]), inputs[k], id)
    ensures t !in Run(w, inputs).buildings
  {
    hide WellFormed, Run, Undistracted, Gap, Attacks, Strayed;
    assert t < w.nextId by { SiteBelow(w, t); }
    SiegeSoFar(e, w, inputs, id, t, |inputs|, |inputs|);
    assert inputs[..|inputs|] == inputs;
    var v := Run(w, inputs);
    if t in v.buildings { StillSome(e, v, id, t); }
    hide Besieges;
  }

  lemma StillSome(e: Env, w: World, id: Id, t: Id)
    requires Besieges(e, w, id, t)
    ensures TicksLeft(w, id, t) >= 1
  {}
}
