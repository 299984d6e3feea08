/**
 Combat over whole runs (DungeonRoom.h, StepCombat, EngageAuto and the cooldown in Step): how often
 a unit can hit, who can hurt whom, and how far an unprompted attacker strays.
 */
module Combat {
  import opened Entities
  import opened Simulation
  import opened Laws
  import opened Evolution
  import opened Replication
  import opened Commands
  import opened Bystanders
  import opened Movement

  // ---- what commands leave alone ----

  /** The same body; and an automatic attack is either the same one as before or has been called off. */
  ghost predicate Told(u: Unit, v: Unit) {
    && SameUnit(u, v) && v.pos == u.pos && v.attackCd == u.attackCd
    && (v.attackTarget == 0 || !v.autoAggro
        || (v.attackTarget == u.attackTarget && v.autoAggro == u.autoAggro && v.aggroOrigin == u.aggroOrigin))
  }

  lemma ObeyTells(e: Env, order: Order, index: nat, count: nat, u: Unit)
    requires index < count
    ensures Told(u, Obey(e, order, index, count, u).unit)
  {
    hide FormationSlot, Shifted, Shift;
  }

  lemma {:induction false} GiveTells(e: Env, w: World, order: Order, ids: seq<Id>, n: nat, id: Id)
    requires WellFormed(w) && OrderOk(order) && n <= |ids| && id in w.units
    ensures id in Give(e, w, order, ids, n).units && Told(w.units[id], Give(e, w, order, ids, n).units[id])
  {
    hide WellFormed, Evolves, Obey, OrderOk, Commit, Lawful, UnitOk, Told;
    if n == 0 {
      ToldRefl(w.units[id]);
    } else {
      var mid, k := Give(e, w, order, ids, n - 1), ids[n - 1];
      GiveTells(e, w, order, ids, n - 1, id);
      GiveKeeps(e, w, order, ids, n - 1);
      if k in mid.units {
        UnitFacts(mid, k);
        var o := Obey(e, order, n - 1, |ids|, mid.units[k]);
        ObeyIsPeaceful(e, order, n - 1, |ids|, mid.units[k]);
        ObeyTells(e, order, n - 1, |ids|, mid.units[k]);
        if Feasible(mid, o) {
          if k == id {
            SettleOwn(mid, id, o);
            ToldTrans(w.units[id], mid.units[id], o.unit);
          } else {
            CommitLeaves(mid, o, id);
          }
        }
      }
    }
  }

  lemma ToldRefl(u: Unit)
    ensures Told(u, u)
  {}

  lemma ToldTrans(u: Unit, v: Unit, x: Unit)
    requires Told(u, v) && Told(v, x)
    ensures Told(u, x)
  {}

  lemma ApplyTells(e: Env, w: World, c: Command, id: Id)
    requires WellFormed(w) && id in w.units
    ensures id in Apply(e, w, c).units && Told(w.units[id], Apply(e, w, c).units[id])
  {
    hide WellFormed, Evolves, Give, OrderOf, OrderOk, Addressees, Pay, Told;
    ToldRefl(w.units[id]);
    if c.kind == BuildCmd {
      BuildTells(e, w, c, id);
    } else if c.kind == TrainCmd {
      if JudgeTrain(w, c).Accepted? { PayNextId(w, c.owner, UnitCost(c.auxType)); }
    } else {
      var ids := Addressees(w, c);
      if ids != [] {
        OrderOfOk(e, w, c);
        GiveTells(e, w, OrderOf(e, w, c), ids, |ids|, id);
      }
    }
  }

  lemma BuildTells(e: Env, w: World, c: Command, id: Id)
    requires WellFormed(w) && id in w.units
    ensures id in ApplyBuild(e, w, c).units && Told(w.units[id], ApplyBuild(e, w, c).units[id])
  {
    hide WellFormed, Evolves, Give, Pay, Told;
    ToldRefl(w.units[id]);
    if JudgeBuild(w, c).Accepted? {
      PositiveId(w);
      PayNextId(w, c.owner, BuildingCost(c.auxType));
      PayKeeps(w, c.owner, BuildingCost(c.auxType));
      var b := NewBuilding(w.nextId, c.owner, TeamOf(w, c.owner), c.auxType, c.target, c.yaw, true);
      var w1 := Pay(w, c.owner, BuildingCost(c.auxType));
      var w2 := SpawnBuilding(w1, b);
      SpawnBuildingKeeps(w1, b);
      var ids := OwnedIds(w2, c.owner, c.unitIds);
      GiveTells(e, w2, Raising(w.nextId), ids, |ids|, id);
    }
  }

  lemma {:induction false} BatchTells(e: Env, w: World, cs: seq<Command>, id: Id)
    requires WellFormed(w) && id in w.units
    ensures id in ApplyAll(e, w, cs).units && Told(w.units[id], ApplyAll(e, w, cs).units[id])
  {
    hide WellFormed, Evolves, Apply, Told;
    if cs == [] {
      ToldRefl(w.units[id]);
    } else {
      var rest, c := cs[..|cs| - 1], cs[|cs| - 1];
      BatchTells(e, w, rest, id);
      ApplyAllKeeps(e, w, rest);
      ApplyTells(e, ApplyAll(e, w, rest), c, id);
      ToldTrans(w.units[id], ApplyAll(e, w, rest).units[id], ApplyAll(e, w, cs).units[id]);
    }
  }

  lemma OpenedTells(w: World, input: Input, id: Id)
    requires WellFormed(w) && id in w.units
    ensures WellFormed(Opened(w, input)) && id in Opened(w, input).units
            && Told(w.units[id], Opened(w, input).units[id])
  {
    hide WellFormed, Evolves, ApplyAll, Told;
    var w0 := w.(pending := w.pending + input.commands);
    QueuesKeep(w, w0);
    PendingKeeps(input.env, w0);
    BatchTells(input.env, w0, w0.pending, id);
    var w1 := ApplyPending(input.env, w0);
    QueuesKeep(w1, TakeRejected(w1));
    QueuesKeep(TakeRejected(w1), Opened(w, input));
  }

  // ---- how often a unit hits ----

  predicate IsHit(effect: Effect) { effect.HitUnit? || effect.HitBuilding? }

  /** This turn lands a hit on somebody. */
  predicate Lands(e: Env, w: World, id: Id, scan: bool, dt: real) {
    && id in w.units && w.units[id].hp > 0.0
    && var w2 := Deliberated(e, w, id, scan, dt);
       id in w2.units && var r := Decide(e, w2, w2.units[id], dt);
       r.React? && IsHit(r.outcome.effect)
  }

  ghost predicate CooldownOk(u: Unit) { 0.0 <= u.attackCd <= ATTACK_COOLDOWN }

  lemma AlertCooldown(e: Env, w: World, u: Unit)
    ensures var r := Alert(e, w, u);
            r.React? ==> r.outcome.unit.attackCd == u.attackCd && !IsHit(r.outcome.effect)
  {}

  lemma WalkCooldown(e: Env, u: Unit, left: real)
    ensures Walk(e, u, left).attackCd == u.attackCd
    decreases if OnPath(u) then |u.path| - u.pathIndex else 0
  {}

  lemma GatherCooldown(e: Env, w: World, u: Unit, dt: real)
    ensures var o := DecideGather(e, w, u, dt); o.unit.attackCd == u.attackCd && !IsHit(o.effect)
  {
    hide MoveToward, Face, Yield;
  }

  lemma ReturnCooldown(e: Env, w: World, u: Unit, dt: real)
    ensures var o := DecideReturn(e, w, u, dt); o.unit.attackCd == u.attackCd && !IsHit(o.effect)
    ensures var o := DecidePreparing(e, u, dt); o.unit.attackCd == u.attackCd && !IsHit(o.effect)
  {
    hide MoveToward, Face, ChosenDropoff;
  }

  lemma FetchCooldown(e: Env, w: World, u: Unit, dt: real)
    ensures forall o | o in [DecidePickup(e, w, u, dt), DecideConstruct(e, w, u, dt)] ::
              o.unit.attackCd == u.attackCd && !IsHit(o.effect)
  {
    hide MoveToward, Sub32;
  }

  lemma CombatCooldown(e: Env, w: World, u: Unit, dt: real)
    ensures var o := DecideCombat(e, w, u, dt);
            if IsHit(o.effect) then u.attackCd <= 0.0 && o.unit.attackCd == ATTACK_COOLDOWN
            else o.unit.attackCd == u.attackCd
  {
    hide Chase;
  }

  /** Only a hit touches the cooldown, and it needs the cooldown to have run down. */
  lemma DecideCooldown(e: Env, w: World, u: Unit, dt: real)
    ensures var r := Decide(e, w, u, dt);
            r.React? ==> if IsHit(r.outcome.effect) then u.attackCd <= 0.0 && r.outcome.unit.attackCd == ATTACK_COOLDOWN
                         else r.outcome.unit.attackCd == u.attackCd
  {
    hide DecideCombat, DecideGather, DecidePreparing, DecideReturn, DecidePickup, DecideConstruct, Walk;
    CombatCooldown(e, w, u, dt);
    GatherCooldown(e, w, u, dt);
    ReturnCooldown(e, w, u, dt);
    FetchCooldown(e, w, u, dt);
    WalkCooldown(e, u, Stride(u, dt));
  }

  lemma SettleCooldown(w: World, id: Id, r: Reaction)
    requires WellFormed(w) && id in w.units && (r.React? ==> Lawful(w, w.units[id], r.outcome))
    ensures id in Settle(w, r).units
    ensures Settle(w, r).units[id] == if r.React? then r.outcome.unit else w.units[id]
  {
    hide WellFormed, Commit;
    UnitFacts(w, id);
    if r.React? { SettleOwn(w, id, r.outcome); }
  }

  /** The unit as it deliberates, and the unit its decision makes of it. */
  lemma TurnIsDecision(e: Env, w: World, id: Id, scan: bool, dt: real)
    requires WellFormed(w) && id in w.units && w.units[id].hp > 0.0
    ensures var w1, w2 := Cool(w, id, dt), Deliberated(e, w, id, scan, dt);
            && WellFormed(w1) && w1.units[id] == w.units[id].(attackCd := CoolDown(w.units[id].attackCd, dt))
            && WellFormed(w2) && id in w2.units && UnitOk(w2.units[id])
            && var a, r := Alert(e, w1, w1.units[id]), Decide(e, w2, w2.units[id], dt);
               && w2.units[id] == (if scan && a.React? then a.outcome.unit else w1.units[id])
               && (a.React? ==> Lawful(w1, w1.units[id], a.outcome))
               && (r.React? ==> Lawful(w2, w2.units[id], r.outcome))
               && id in Turn(e, w, id, scan, dt).units
               && Turn(e, w, id, scan, dt).units[id] == if r.React? then r.outcome.unit else w2.units[id]
  {
    hide WellFormed, Evolves, Lawful, UnitOk, Alert, Decide, Settle, CoolDown;
    var w1 := Cool(w, id, dt);
    CoolKeeps(w, id, dt);
    UnitFacts(w1, id);
    AlertLawful(e, w1, w1.units[id]);
    SettleCooldown(w1, id, Alert(e, w1, w1.units[id]));
    AlertKeeps(e, w1, id);
    var w2 := Deliberated(e, w, id, scan, dt);
    UnitFacts(w2, id);
    DecideLawful(e, w2, w2.units[id], dt);
    SettleCooldown(w2, id, Decide(e, w2, w2.units[id], dt));
  }

  /** What a turn does to the cooldown. */
  lemma TurnCooldown(e: Env, w: World, id: Id, scan: bool, dt: real)
    requires WellFormed(w) && dt >= 0.0 && id in w.units && w.units[id].hp > 0.0 && CooldownOk(w.units[id])
    ensures var u, v := w.units[id], Turn(e, w, id, scan, dt);
            && id in v.units && CooldownOk(v.units[id])
            && (if Lands(e, w, id, scan, dt) then u.attackCd <= dt && v.units[id].attackCd == ATTACK_COOLDOWN
                else v.units[id].attackCd >= u.attackCd - dt)
  {
    hide WellFormed, Turn, Lawful, UnitOk, Alert, Decide, Deliberated;
    TurnIsDecision(e, w, id, scan, dt);
    var w1, w2 := Cool(w, id, dt), Deliberated(e, w, id, scan, dt);
    AlertCooldown(e, w1, w1.units[id]);
    DecideCooldown(e, w2, w2.units[id], dt);
  }

  /** The hits a unit lands in a run. */
  ghost function Hits(w: World, inputs: seq<Input>, id: Id): nat {
    if inputs == [] then 0
    else
      var before := inputs[..|inputs| - 1];
      var v, input := Run(w, before), inputs[|inputs| - 1];
      Hits(w, before, id)
      + if Lands(input.env, Eve(v, input, id), id, ScanDue(Opened(v, input)), TICK_SECONDS) then 1 else 0
  }

  lemma TickCooldown(w: World, input: Input, id: Id)
    requires WellFormed(w) && Enumerates(input.env.enum) && id in w.units && CooldownOk(w.units[id])
    requires id in Advance(w, input).units
    ensures var u, v := w.units[id], Advance(w, input).units[id];
            && CooldownOk(v)
            && (if Lands(input.env, Eve(w, input, id), id, ScanDue(Opened(w, input)), TICK_SECONDS)
                then u.attackCd <= TICK_SECONDS && v.attackCd == ATTACK_COOLDOWN
                else v.attackCd >= u.attackCd - TICK_SECONDS)
  {
    hide WellFormed, Enumerates, Opened, Eve, Advance, Turn, Lands, ScanDue;
    OpenedTells(w, input, id);
    StepIsTurn(w, input, id);
    TurnCooldown(input.env, Eve(w, input, id), id, ScanDue(Opened(w, input)), TICK_SECONDS);
  }

  /** A tick's inputs enumerate every entity once. */
  ghost predicate Regular(inputs: seq<Input>) { forall i | 0 <= i < |inputs| :: Enumerates(inputs[i].env.enum) }

  /** The unit is there after each of the first n ticks. */
  ghost predicate Survives(w: World, inputs: seq<Input>, id: Id) {
    forall n | 0 <= n <= |inputs| :: id in Run(w, inputs[..n]).units
  }

  /**
   In T seconds a surviving unit lands at most T / 1.0 hits and as many more as its cooldown has
   grown by, so never more than 1 + T, whatever it is commanded.
   */
  lemma {:induction false} HitsBounded(w: World, inputs: seq<Input>, id: Id)
    requires WellFormed(w) && Regular(inputs) && Survives(w, inputs, id)
    requires id in w.units && CooldownOk(w.units[id])
    ensures id in Run(w, inputs).units && CooldownOk(Run(w, inputs).units[id])
    ensures Hits(w, inputs, id) as real * ATTACK_COOLDOWN
            <= |inputs| as real * TICK_SECONDS + Run(w, inputs).units[id].attackCd
    ensures Hits(w, inputs, id) as real <= 1.0 + |inputs| as real * TICK_SECONDS / ATTACK_COOLDOWN
  {
    hide WellFormed, Advance, Lands, Eve, Opened, ScanDue, Enumerates, Survives;
    if inputs != [] {
      var before := inputs[..|inputs| - 1];
      SurvivesBefore(w, inputs, id);
      assert forall i | 0 <= i < |before| :: before[i] == inputs[i];
      HitsBounded(w, before, id);
      RunWellFormed(w, before);
      TickCooldown(Run(w, before), inputs[|inputs| - 1], id);
    }
  }

  lemma SurvivesBefore(w: World, inputs: seq<Input>, id: Id)
    requires Survives(w, inputs, id) && inputs != []
    ensures Survives(w, inputs[..|inputs| - 1], id) && id in Run(w, inputs).units
            && id in Advance(Run(w, inputs[..|inputs| - 1]), inputs[|inputs| - 1]).units
  {
    hide Advance;
    assert inputs[..|inputs|] == inputs;
    var before := inputs[..|inputs| - 1];
    forall n | 0 <= n <= |before| ensures id in Run(w, before[..n]).units {
      assert before[..n] == inputs[..n];
    }
  }

  // ---- who can hurt whom ----

  /** On its turn, a living unit of another team hits this one. */
  ghost predicate Strikes(e: Env, w: World, k: Id, scan: bool, dt: real, id: Id) {
    && k in w.units && id in w.units && w.units[k].hp > 0.0 && w.units[k].team != w.units[id].team
    && var w2 := Deliberated(e, w, k, scan, dt);
       k in w2.units && var r := Decide(e, w2, w2.units[k], dt);
       r.React? && r.outcome.effect == HitUnit(id)
  }

  /** How often this happens in a sequence of turns. */
  ghost function Blows(e: Env, w: World, ids: seq<Id>, scan: bool, dt: real, id: Id): nat {
    if ids == [] then 0
    else
      var rest := ids[..|ids| - 1];
      Blows(e, w, rest, scan, dt, id)
      + if Strikes(e, Turns(e, w, rest, scan, dt), ids[|ids| - 1], scan, dt, id) then 1 else 0
  }

  lemma CommitHarm(w: World, o: Outcome, id: Id)
    requires Feasible(w, o) && id in w.units && id != o.unit.id
    ensures id in Commit(w, o).units && Commit(w, o).units[id].team == w.units[id].team
    ensures Commit(w, o).units[id].hp == if o.effect == HitUnit(id) then Wound(w.units[id].hp) else w.units[id].hp
  {
    if o.effect == HitUnit(id) {
      HurtUnits(Touch(w, o.unit.id, o.unit), id);
      TouchOwn(w, o.unit.id, o.unit);
      hide HurtUnit, Touch;
    } else {
      CommitLeaves(w, o, id);
      hide Commit;
    }
  }

  lemma SettleHarm(w: World, k: Id, r: Reaction, id: Id)
    requires WellFormed(w) && k in w.units && id in w.units && (r.React? ==> Lawful(w, w.units[k], r.outcome))
    ensures var v := Settle(w, r);
            && id in v.units && k in v.units
            && v.units[id].team == w.units[id].team && v.units[k].team == w.units[k].team
            && if r.React? && r.outcome.effect == HitUnit(id)
               then w.units[k].team != w.units[id].team && v.units[id].hp == Wound(w.units[id].hp)
               else v.units[id].hp == w.units[id].hp
  {
    hide WellFormed, Commit, UnitOk;
    UnitFacts(w, k);
    UnitFacts(w, id);
    if r.React? {
      if id != k { CommitHarm(w, r.outcome, id); }
      SettleCooldown(w, k, r);
    }
  }

  /** A turn costs another unit hit points only by a hit from another team, and then twenty at most. */
  lemma TurnHarm(e: Env, w: World, k: Id, scan: bool, dt: real, id: Id)
    requires WellFormed(w) && id in w.units
    ensures var v := Turn(e, w, k, scan, dt);
            && id in v.units && v.units[id].team == w.units[id].team
            && v.units[id].hp == if Strikes(e, w, k, scan, dt, id) then Wound(w.units[id].hp) else w.units[id].hp
  {
    hide WellFormed, Lawful, UnitOk, Alert, Decide, Settle, CoolDown;
    if k in w.units && w.units[k].hp > 0.0 {
      TurnIsDecision(e, w, k, scan, dt);
      var w1, w2 := Cool(w, k, dt), Deliberated(e, w, k, scan, dt);
      AlertCooldown(e, w1, w1.units[k]);
      SettleHarm(w1, k, Alert(e, w1, w1.units[k]), id);
      SettleHarm(w2, k, Decide(e, w2, w2.units[k], dt), id);
    }
  }

  lemma WoundBound(hp: real, start: real, n: nat)
    requires hp >= start - n as real * ATTACK_DAMAGE
    ensures Wound(hp) >= start - (n + 1) as real * ATTACK_DAMAGE
  {}

  lemma {:induction false} TurnsHarm(e: Env, w: World, ids: seq<Id>, scan: bool, dt: real, id: Id)
    requires WellFormed(w) && id in w.units
    ensures var v, n := Turns(e, w, ids, scan, dt), Blows(e, w, ids, scan, dt, id);
            && id in v.units && v.units[id].team == w.units[id].team
            && v.units[id].hp >= w.units[id].hp - n as real * ATTACK_DAMAGE
            && (n == 0 ==> v.units[id].hp == w.units[id].hp)
  {
    hide WellFormed, Turn, Strikes, Evolves, Wound;
    if ids != [] {
      var rest := ids[..|ids| - 1];
      TurnsHarm(e, w, rest, scan, dt, id);
      TurnsKeeps(e, w, rest, scan, dt);
      TurnHarm(e, Turns(e, w, rest, scan, dt), ids[|ids| - 1], scan, dt, id);
      WoundBound(Turns(e, w, rest, scan, dt).units[id].hp, w.units[id].hp, Blows(e, w, rest, scan, dt, id));
    }
  }

  /** The blows a unit takes in a tick. */
  ghost function BlowsTaken(w: World, input: Input, id: Id): nat {
    var w0 := Opened(w, input);
    Blows(input.env, w0, input.env.enum(w0.units.Keys), ScanDue(w0), TICK_SECONDS, id)
  }

  /** All damage in a tick is done by units of other teams, twenty points a blow; nobody else dies. */
  lemma TickHarm(w: World, input: Input, id: Id)
    requires WellFormed(w) && Enumerates(input.env.enum) && id in w.units && w.units[id].hp > 0.0
    ensures var v, n := Advance(w, input), BlowsTaken(w, input, id);
            && (id in v.units ==> v.units[id].hp >= w.units[id].hp - n as real * ATTACK_DAMAGE)
            && (n == 0 ==> id in v.units && v.units[id].hp == w.units[id].hp)
  {
    hide WellFormed, Evolves, Turns, ApplyPending, Trainings, SweepUnits, SweepBuildings, Enumerates, Blows;
    var e, dt := input.env, TICK_SECONDS;
    var w0 := Opened(w, input);
    OpenedTells(w, input, id);
    var ids := e.enum(w0.units.Keys);
    TurnsHarm(e, w0, ids, ScanDue(w0), dt, id);
    TurnsKeeps(e, w0, ids, ScanDue(w0), dt);
    RestSpares(e, Turns(e, w0, ids, ScanDue(w0), dt), dt, id);
  }

  // ---- the leash ----

  /** An unprompted attacker is at most the leash and one step away from where it was when it engaged. */
  ghost predicate Leashed(e: Env, u: Unit) {
    u.autoAggro && u.attackTarget != 0 ==>
      Gap(e, u.aggroOrigin, u.pos) <= AGGRO_LEASH + MaxReal(Stride(u, TICK_SECONDS), 0.0)
  }

  lemma ToldLeashed(e: Env, u: Unit, v: Unit)
    requires Told(u, v) && Leashed(e, u)
    ensures Leashed(e, v)
  {
    hide Gap;
  }

  lemma SparedLeashed(e: Env, u: Unit, v: Unit)
    requires Spared(u, v) && Leashed(e, u)
    ensures Leashed(e, v)
  {
    hide Gap;
  }

  lemma AlertLeashed(e: Env, w: World, u: Unit)
    requires IsNorm(e.len)
    ensures var r := Alert(e, w, u); r.React? ==> Leashed(e, r.outcome.unit)
  {
    GapZero(e, u.pos, u.pos);
    hide IsNorm, Gap, NearestEnemy;
  }

  lemma ChaseStays(e: Env, u: Unit, p: Vec3, dt: real, range: real)
    requires IsNorm(e.len) && range >= 0.0
    ensures Gap(e, u.pos, Chase(e, u, p, dt, range).0.pos) <= MaxReal(Stride(u, dt), 0.0)
  {
    hide IsNorm, Stride;
    GapZero(e, u.pos, u.pos);
    StrideSame(u, u.(yaw := e.atan2(Toward(u.pos, p))), dt);
    if Gap(e, u.pos, p) > range && Stride(u, dt) > 0.0 { StepGap(e, u.pos, p, Stride(u, dt)); }
  }

  lemma CombatLeashed(e: Env, w: World, u: Unit)
    requires IsNorm(e.len)
    ensures Leashed(e, DecideCombat(e, w, u, TICK_SECONDS).unit)
  {
    hide IsNorm, Gap, Chase;
    var v := DecideCombat(e, w, u, TICK_SECONDS).unit;
    if u.attackTarget in w.units {
      ChaseStays(e, u.(state := Attacking), w.units[u.attackTarget].pos, TICK_SECONDS, ATTACK_RANGE);
    } else if u.attackTarget in w.buildings {
      ChaseStays(e, u.(state := Attacking), w.buildings[u.attackTarget].pos, TICK_SECONDS, BUILDING_ATTACK_RANGE);
    }
    GapTriangle(e, u.aggroOrigin, u.pos, v.pos);
  }

  lemma WalkTarget(e: Env, u: Unit, left: real)
    ensures Walk(e, u, left).attackTarget == u.attackTarget
    decreases if OnPath(u) then |u.path| - u.pathIndex else 0
  {}

  lemma WorkTarget(e: Env, w: World, u: Unit, dt: real)
    ensures DecideGather(e, w, u, dt).unit.attackTarget == u.attackTarget
    ensures DecideReturn(e, w, u, dt).unit.attackTarget == u.attackTarget
    ensures DecidePreparing(e, u, dt).unit.attackTarget == u.attackTarget
  {
    hide MoveToward, Face, Yield, ChosenDropoff;
  }

  lemma FetchTarget(e: Env, w: World, u: Unit, dt: real)
    ensures DecidePickup(e, w, u, dt).unit.attackTarget == u.attackTarget
    ensures DecideConstruct(e, w, u, dt).unit.attackTarget == u.attackTarget
  {
    hide MoveToward, Sub32;
  }

  lemma DecideLeashed(e: Env, w: World, u: Unit)
    requires IsNorm(e.len)
    ensures var r := Decide(e, w, u, TICK_SECONDS); r.React? ==> Leashed(e, r.outcome.unit)
  {
    hide IsNorm, Gap, DecideCombat, DecideGather, DecidePreparing, DecideReturn, DecidePickup, DecideConstruct, Walk;
    CombatLeashed(e, w, u);
    WorkTarget(e, w, u, TICK_SECONDS);
    FetchTarget(e, w, u, TICK_SECONDS);
    WalkTarget(e, u, Stride(u, TICK_SECONDS));
  }

  lemma TurnLeashed(e: Env, w: World, id: Id, scan: bool)
    requires WellFormed(w) && IsNorm(e.len) && id in w.units && w.units[id].hp > 0.0 && Leashed(e, w.units[id])
    ensures id in Turn(e, w, id, scan, TICK_SECONDS).units && Leashed(e, Turn(e, w, id, scan, TICK_SECONDS).units[id])
  {
    hide WellFormed, IsNorm, Lawful, UnitOk, Alert, Decide, Turn, Deliberated, Gap, CoolDown;
    var dt := TICK_SECONDS;
    TurnIsDecision(e, w, id, scan, dt);
    var w1, w2 := Cool(w, id, dt), Deliberated(e, w, id, scan, dt);
    AlertLeashed(e, w1, w1.units[id]);
    DecideLeashed(e, w2, w2.units[id]);
  }

  lemma LeashedLen(e: Env, e': Env, u: Unit)
    requires e'.len == e.len
    ensures Leashed(e', u) == Leashed(e, u)
  {}

  lemma TickLeashed(e: Env, w: World, input: Input, id: Id)
    requires WellFormed(w) && IsNorm(e.len) && input.env.len == e.len && Enumerates(input.env.enum)
    requires id in w.units && id in Advance(w, input).units && Leashed(e, w.units[id])
    ensures Leashed(e, Advance(w, input).units[id])
  {
    hide WellFormed, IsNorm, Enumerates, Opened, Eve, Advance, Turn, ScanDue, Leashed, Told, Spared;
    OpenedTells(w, input, id);
    StepIsTurn(w, input, id);
    var e', eve := input.env, Eve(w, input, id);
    var o, after := Opened(w, input), Morrow(w, input, id);
    ToldLeashed(e, w.units[id], o.units[id]);
    SparedLeashed(e, o.units[id], eve.units[id]);
    LeashedLen(e, e', eve.units[id]);
    TurnLeashed(e', eve, id, ScanDue(o));
    LeashedLen(e, e', after.units[id]);
    SparedLeashed(e, after.units[id], Advance(w, input).units[id]);
  }

  // ---- units that appear ----

  /** A unit that has just been trained. */
  ghost predicate Fresh(u: Unit) { u.attackTarget == 0 && u.attackCd == 0.0 }

  lemma {:induction false} TrainingsFresh(e: Env, w: World, ids: seq<Id>, dt: real, id: Id)
    requires id in Trainings(e, w, ids, dt).units && id !in w.units
    ensures Fresh(Trainings(e, w, ids, dt).units[id])
  {
    hide Train, Fresh;
    var mid := Trainings(e, w, ids[..|ids| - 1], dt);
    if id in mid.units { TrainingsFresh(e, w, ids[..|ids| - 1], dt, id); }
    TrainFresh(e, mid, ids[|ids| - 1], dt, id);
  }

  lemma TrainFresh(e: Env, w: World, k: Id, dt: real, id: Id)
    requires id in Train(e, w, k, dt).units && (id in w.units ==> Fresh(w.units[id]))
    ensures Fresh(Train(e, w, k, dt).units[id])
  {
    hide Recruit, Fresh, TouchSite, SpawnUnit;
    if k in w.buildings && w.buildings[k].queue != [] {
      var u := Recruit(e, w.buildings[k], w.nextId);
      RecruitFresh(e, w.buildings[k], w.nextId);
      SpawnAdds(w, u);
      forall v, b ensures TouchSite(v, k, b).units == v.units { SiteTouchUnits(v, k, b); }
    }
  }

  lemma SpawnAdds(w: World, u: Unit)
    ensures SpawnUnit(w, u).units == w.units[w.nextId := u]
  {}

  lemma SiteTouchUnits(w: World, k: Id, b: Building)
    ensures TouchSite(w, k, b).units == w.units
  {}

  lemma RecruitFresh(e: Env, b: Building, id: Id)
    requires b.queue != []
    ensures Fresh(Recruit(e, b, id))
  {}

  lemma {:induction false} SweepsLeave(w: World, ids: seq<Id>)
    ensures forall k | k in SweepUnits(w, ids).units :: k in w.units && SweepUnits(w, ids).units[k] == w.units[k]
    ensures SweepBuildings(w, ids).units == w.units
  {
    if ids != [] {
      hide SweepUnit, SweepBuilding;
      SweepsLeave(w, ids[..|ids| - 1]);
      SweepLeaves(SweepUnits(w, ids[..|ids| - 1]), ids[|ids| - 1]);
      SweepLeaves(SweepBuildings(w, ids[..|ids| - 1]), ids[|ids| - 1]);
    }
  }

  lemma SweepLeaves(w: World, id: Id)
    ensures forall k | k in SweepUnit(w, id).units :: k in w.units && SweepUnit(w, id).units[k] == w.units[k]
    ensures SweepBuilding(w, id).units == w.units
  {}

  /** A unit that appears in a tick is fresh: commands and turns create none. */
  lemma NewcomerFresh(w: World, input: Input, id: Id)
    requires WellFormed(w) && id in Advance(w, input).units && id !in w.units
    ensures Fresh(Advance(w, input).units[id])
  {
    hide WellFormed, Evolves, Turns, ApplyPending, Trainings, SweepUnits, SweepBuildings, Fresh;
    var e, dt := input.env, TICK_SECONDS;
    var w0 := Opened(w, input);
    OpenedKeys(w, input);
    var ids := e.enum(w0.units.Keys);
    var w1 := Turns(e, w0, ids, ScanDue(w0), dt);
    TurnsKeeps(e, w0, ids, ScanDue(w0), dt);
    var w2 := Trainings(e, w1, e.enum(w1.buildings.Keys), dt);
    var w3 := SweepUnits(w2, e.enum(w2.units.Keys));
    SweepsLeave(w2, e.enum(w2.units.Keys));
    SweepsLeave(w3, e.enum(w3.buildings.Keys));
    TrainingsFresh(e, w1, e.enum(w1.buildings.Keys), dt, id);
  }

  lemma {:induction false} ApplyAllKeys(e: Env, w: World, cs: seq<Command>)
    requires WellFormed(w)
    ensures ApplyAll(e, w, cs).units.Keys == w.units.Keys
  {
    hide WellFormed, Evolves, Apply;
    if cs != [] {
      var rest := cs[..|cs| - 1];
      ApplyAllKeys(e, w, rest);
      ApplyAllKeeps(e, w, rest);
      ApplyKeys(e, ApplyAll(e, w, rest), cs[|cs| - 1]);
    }
  }

  lemma ApplyKeys(e: Env, w: World, c: Command)
    requires WellFormed(w)
    ensures Apply(e, w, c).units.Keys == w.units.Keys
  {
    hide WellFormed, Evolves, Give, OrderOf, OrderOk, Addressees, Pay;
    if c.kind == BuildCmd {
      if JudgeBuild(w, c).Accepted? {
        PayNextId(w, c.owner, BuildingCost(c.auxType));
        var b := NewBuilding(w.nextId, c.owner, TeamOf(w, c.owner), c.auxType, c.target, c.yaw, true);
        var w2 := SpawnBuilding(Pay(w, c.owner, BuildingCost(c.auxType)), b);
        var ids := OwnedIds(w2, c.owner, c.unitIds);
        GiveKeys(e, w2, Raising(w.nextId), ids, |ids|);
      }
    } else if c.kind == TrainCmd {
      if JudgeTrain(w, c).Accepted? { PayNextId(w, c.owner, UnitCost(c.auxType)); }
    } else {
      var ids := Addressees(w, c);
      if ids != [] { GiveKeys(e, w, OrderOf(e, w, c), ids, |ids|); }
    }
  }

  lemma {:induction false} GiveKeys(e: Env, w: World, order: Order, ids: seq<Id>, n: nat)
    requires n <= |ids|
    ensures Give(e, w, order, ids, n).units.Keys == w.units.Keys
  {
    hide Obey, Commit, Feasible;
    if n > 0 {
      GiveKeys(e, w, order, ids, n - 1);
      var mid, k := Give(e, w, order, ids, n - 1), ids[n - 1];
      if k in mid.units {
        var o := Obey(e, order, n - 1, |ids|, mid.units[k]);
        if Feasible(mid, o) { CommitSameUnits(mid, o); }
      }
    }
  }

  lemma OpenedKeys(w: World, input: Input)
    requires WellFormed(w)
    ensures WellFormed(Opened(w, input)) && Opened(w, input).units.Keys == w.units.Keys
  {
    hide WellFormed, Evolves, ApplyAll;
    var w0 := w.(pending := w.pending + input.commands);
    QueuesKeep(w, w0);
    PendingKeeps(input.env, w0);
    ApplyAllKeys(input.env, w0, w0.pending);
    var w1 := ApplyPending(input.env, w0);
    QueuesKeep(w1, TakeRejected(w1));
    QueuesKeep(TakeRejected(w1), Opened(w, input));
  }

  /**
   The leash holds for every unit at every tick of every run, old or newly trained, whatever is
   commanded, although a Move leaves a stale autoAggro flag behind.
   */
  lemma {:induction false} RunLeashed(e: Env, w: World, inputs: seq<Input>)
    requires WellFormed(w) && IsNorm(e.len) && Regular(inputs)
    requires forall i | 0 <= i < |inputs| :: inputs[i].env.len == e.len
    requires forall k | k in w.units :: Leashed(e, w.units[k])
    ensures forall k | k in Run(w, inputs).units :: Leashed(e, Run(w, inputs).units[k])
  {
    hide WellFormed, IsNorm, Advance, Enumerates, Leashed;
    if inputs != [] {
      var before, input := inputs[..|inputs| - 1], inputs[|inputs| - 1];
      assert forall i | 0 <= i < |before| :: before[i] == inputs[i];
      RunLeashed(e, w, before);
      RunWellFormed(w, before);
      var v := Run(w, before);
      forall k | k in Run(w, inputs).units ensures Leashed(e, Run(w, inputs).units[k]) {
        if k in v.units {
          TickLeashed(e, v, input, k);
        } else {
          NewcomerFresh(v, input, k);
          FreshLeashed(e, Advance(v, input).units[k]);
        }
      }
    }
  }

  lemma FreshLeashed(e: Env, u: Unit)
    requires Fresh(u)
    ensures Leashed(e, u) && CooldownOk(u)
  {}
}
