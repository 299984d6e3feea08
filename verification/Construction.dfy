/**
 Building a site (DungeonRoom.h, StepConstruct): a frame's work adds exactly its share, the site is finished
 when it is complete, and a worker that is left alone finishes it within a number of ticks that can be
 computed beforehand.
 */
module Construction {
  import opened Entities
  import opened Simulation
  import opened Laws
  import opened Evolution
  import opened Replication
  import opened Bystanders
  import opened Movement
  import opened Moments
  import opened Obedience
  import opened Strikes
  import Combat
  import Commands
  import Match
  import Training
  import WorkerLiveness

  // ---- one turn of a builder ----

  /** The unit is alive and goes to build, or builds, site s. */
  ghost predicate Builds(w: World, id: Id, s: Id) {
    && id in w.units && w.units[id].hp > 0.0 && w.units[id].task == Constructing && w.units[id].buildTarget == s
    && w.units[id].attackTarget == 0 && w.units[id].attackCd >= 0.0
  }

  /** The scan does not tear it away: there is none, or no living enemy is within 3. */
  ghost predicate Untroubled(e: Env, w: World, id: Id, scan: bool)
    requires id in w.units
  {
    scan ==> WorkerLiveness.Unthreatened(e, w, w.units[id])
  }

  predicate IsSite(w: World, s: Id) { s in w.buildings && w.buildings[s].underConstruction }

  /** The building after a share of work: finished with full hit points, or with hit points in proportion. */
  function Advanced(b: Building, share: real): Building {
    var percent := b.percent + share;
    if percent >= 100.0 then b.(percent := 100.0, hp := b.maxHp, underConstruction := false)
    else
      var due := b.maxHp * percent / 100.0;
      b.(percent := percent, hp := if due > b.hp then due else b.hp)
  }

  /** A builder does not look around while nobody troubles it: it goes on with its work. */
  lemma BuilderTurn(e: Env, w: World, id: Id, scan: bool, dt: real, s: Id)
    requires WellFormed(w) && Builds(w, id, s) && Untroubled(e, w, id, scan) && dt >= 0.0
    ensures var u := Ready(w.units[id], dt);
            var w1 := w.(units := w.units[id := u]);
            && Feasible(w1, DecideConstruct(e, w1, u, dt)) && u.id == id
            && Turn(e, w, id, scan, dt) == Commit(w1, DecideConstruct(e, w1, u, dt))
  {
    hide DecideConstruct, Commit, Feasible, Alert, Gap;
    var u := Ready(w.units[id], dt);
    assert CoolDown(w.units[id].attackCd, dt) == CooldownLeft(w.units[id].attackCd, dt);
    var w1 := Cool(w, id, dt);
    assert w1 == w.(units := w.units[id := u]);
    if scan {
      assert WorkerLiveness.Unthreatened(e, w1, u);
      WorkerLiveness.NoAlert(e, w1, u);
      WorkerLiveness.IgnoreSettles(w1);
    }
    assert Deliberated(e, w, id, scan, dt) == w1;
    UnitFacts(w, id);
    ConstructLawful(e, w1, u, dt);
    assert Feasible(w1, DecideConstruct(e, w1, u, dt)) by { hide EffectOk, UnitOk; }
    TurnIs(e, w, id, scan, dt);
    hide WellFormed, UnitOk, Lawful;
  }

  /** v is w but for the builder, the site and their marks. */
  ghost predicate Worked(w: World, v: World, id: Id, s: Id, u: Unit, b: Building) {
    && v == w.(units := w.units[id := u], buildings := w.buildings[s := b], marks := v.marks)
    && v.marks == w.marks.(dirty := w.marks.dirty + {id}, siteDirty := w.marks.siteDirty + {s})
  }

  lemma CommitWorks(w: World, o: Outcome, id: Id, s: Id, gain: real)
    requires id in w.units && o.unit.id == id && o.effect == Raise(s, gain) && IsSite(w, s)
    ensures Worked(w, Commit(w, o), id, s, o.unit, Advanced(w.buildings[s], gain))
  {
    assert Raised(w.buildings[s], gain) == Advanced(w.buildings[s], gain) by { RaisedIs(w.buildings[s], gain); }
    hide Raised, Advanced;
  }

  lemma RaisedIs(b: Building, gain: real)
    requires b.underConstruction
    ensures Raised(b, gain) == Advanced(b, gain)
  {}

  lemma DecidesToWork(e: Env, w: World, u: Unit, dt: real, s: Id)
    requires u.buildTarget == s && IsSite(w, s) && Gap(e, u.pos, w.buildings[s].pos) <= 2.5
    requires u.task == Constructing && u.attackTarget == 0 && UnitOk(u)
    ensures DecideConstruct(e, w, u, dt)
            == Outcome(if w.buildings[s].percent + 25.0 * dt >= 100.0 then Released(u).(state := Idle)
                       else u.(state := Working), Raise(s, 25.0 * dt))
  {
    var b := w.buildings[s];
    assert MoveToward(e, u, b.pos, BUILD_RANGE, dt) == (u, true);
    assert Idled(u) == Released(u).(state := Idle);
    hide MoveToward, Idled, Released, Gap;
  }

  lemma ReadyWorked(w: World, v: World, id: Id, s: Id, u: Unit, r: Unit, b: Building)
    requires id in w.units && Worked(w.(units := w.units[id := r]), v, id, s, u, b)
    ensures Worked(w, v, id, s, u, b)
  {
    assert w.units[id := r][id := u] == w.units[id := u];
  }

  /**
   A frame of building in range adds exactly 25 percent a second. The site that gets to 100 percent is no
   longer under construction and has its full hit points, and the worker is idle and free; before that the
   site has at least its share of hit points. Nothing else changes.
   */
  lemma BuilderWorks(e: Env, w: World, id: Id, scan: bool, dt: real, s: Id)
    requires WellFormed(w) && Builds(w, id, s) && Untroubled(e, w, id, scan) && dt >= 0.0
    requires IsSite(w, s) && Gap(e, w.units[id].pos, w.buildings[s].pos) <= 2.5
    ensures var u, b, v := Ready(w.units[id], dt), w.buildings[s], Turn(e, w, id, scan, dt);
            Worked(w, v, id, s, if b.percent + 25.0 * dt >= 100.0 then Released(u).(state := Idle)
                                else u.(state := Working), Advanced(b, 25.0 * dt))
  {
    hide WellFormed, Turn, DecideConstruct, Commit, Gap, Worked, Advanced, Released, CooldownLeft;
    var u := Ready(w.units[id], dt);
    var w1 := w.(units := w.units[id := u]);
    BuilderTurn(e, w, id, scan, dt, s);
    UnitFacts(w, id);
    assert UnitOk(u);
    DecidesToWork(e, w1, u, dt, s);
    var o := DecideConstruct(e, w1, u, dt);
    ReleasedId(u);
    CommitWorks(w1, o, id, s, 25.0 * dt);
    ReadyWorked(w, Commit(w1, o), id, s, o.unit, u, Advanced(w.buildings[s], 25.0 * dt));
  }

  lemma ReleasedId(u: Unit)
    ensures Released(u).id == u.id
  {}

  /** A builder out of range comes nearer by one stride and changes nothing. */
  lemma BuilderApproaches(e: Env, w: World, id: Id, scan: bool, dt: real, s: Id)
    requires WellFormed(w) && IsNorm(e.len) && Builds(w, id, s) && Untroubled(e, w, id, scan) && dt >= 0.0
    requires IsSite(w, s) && Gap(e, w.units[id].pos, w.buildings[s].pos) > 2.5 && Stride(w.units[id], dt) > 0.0
    ensures var u, p, v := w.units[id], w.buildings[s].pos, Turn(e, w, id, scan, dt);
            && id in v.units && ActsAlone(w, v, id, v.units[id])
            && v.units[id] == Ready(u, dt).(state := Moving, pos := v.units[id].pos, yaw := e.atan2(Toward(u.pos, p)))
            && Gap(e, v.units[id].pos, p) == Abs(Gap(e, u.pos, p) - Stride(u, dt))
  {
    hide WellFormed, IsNorm, Turn, Commit, Gap, CooldownLeft, ActsAlone;
    var u := Ready(w.units[id], dt);
    var w1 := w.(units := w.units[id := u]);
    BuilderTurn(e, w, id, scan, dt, s);
    var p := w.buildings[s].pos;
    assert Stride(u, dt) == Stride(w.units[id], dt);
    ApproachIs(e, u, p, dt);
    MoveGap(e, u, p, 2.5, dt);
    hide Stride, MoveToward;
    var o := DecideConstruct(e, w1, u, dt);
    assert o == Outcome(MoveToward(e, u, p, BUILD_RANGE, dt).0.(state := Moving), NoEffect);
    hide DecideConstruct;
    CommitAlone(w1, o, id);
    ReadyAlone(w, Commit(w1, o), id, o.unit, u);
    AloneOwn(w, Commit(w1, o), id, o.unit);
  }

  lemma ApproachIs(e: Env, u: Unit, p: Vec3, dt: real)
    requires Stride(u, dt) > 0.0 && Gap(e, u.pos, p) > 2.5
    ensures var (v, arrived) := MoveToward(e, u, p, BUILD_RANGE, dt);
            !arrived && v == u.(pos := v.pos, yaw := e.atan2(Toward(u.pos, p)))
  {}

  /** A builder whose site is finished or gone is idle and free. */
  lemma BuilderDone(e: Env, w: World, id: Id, scan: bool, dt: real, s: Id)
    requires WellFormed(w) && Builds(w, id, s) && Untroubled(e, w, id, scan) && dt >= 0.0 && !IsSite(w, s)
    ensures ActsAlone(w, Turn(e, w, id, scan, dt), id, Released(Ready(w.units[id], dt)).(state := Idle))
  {
    hide WellFormed, Turn, Commit, CooldownLeft, ActsAlone;
    var u := Ready(w.units[id], dt);
    var w1 := w.(units := w.units[id := u]);
    BuilderTurn(e, w, id, scan, dt, s);
    UnitFacts(w, id);
    assert UnitOk(u);
    assert DecideConstruct(e, w1, u, dt) == Outcome(Released(u).(state := Idle), NoEffect);
    var o := DecideConstruct(e, w1, u, dt);
    ReleasedId(u);
    hide Released;
    CommitAlone(w1, o, id);
    ReadyAlone(w, Commit(w1, o), id, o.unit, u);
  }

  // ---- others never set a site back ----

  /** The building is there; it stays finished if it is, and otherwise no less of it is built. */
  ghost predicate Grown(w: World, v: World, s: Id) {
    && s in w.buildings && s in v.buildings
    && (v.buildings[s].underConstruction ==>
          w.buildings[s].underConstruction && w.buildings[s].percent <= v.buildings[s].percent)
  }

  lemma GrownTrans(a: World, b: World, c: World, s: Id)
    requires Grown(a, b, s) && Grown(b, c, s)
    ensures Grown(a, c, s)
  {}

  /** Work is not taken away. */
  predicate Adds(effect: Effect) { effect.Raise? ==> effect.gain >= 0.0 }

  lemma CommitGrown(w: World, o: Outcome, s: Id)
    requires Feasible(w, o) && s in w.buildings && Adds(o.effect)
    ensures Grown(w, Commit(w, o), s)
  {
    hide Remove;
    if o.effect.Raise? { RaisedGrows(w.buildings[o.effect.site], o.effect.gain); }
    hide Raised;
  }

  lemma RaisedGrows(b: Building, gain: real)
    requires gain >= 0.0
    ensures Raised(b, gain).underConstruction ==> b.underConstruction && Raised(b, gain).percent >= b.percent
  {}

  lemma SettleGrown(w: World, r: Reaction, s: Id)
    requires s in w.buildings && (r.React? ==> Adds(r.outcome.effect))
    ensures Grown(w, Settle(w, r), s)
  {
    hide Commit;
    if r.React? && Feasible(w, r.outcome) { CommitGrown(w, r.outcome, s); }
  }

  lemma DecideAdds(e: Env, w: World, u: Unit, dt: real)
    requires dt >= 0.0
    ensures var r := Decide(e, w, u, dt); r.React? ==> Adds(r.outcome.effect)
  {
    hide MoveToward, Strike, Walk, Yield, Face, ChosenDropoff, Sub32;
  }

  lemma AlertAdds(e: Env, w: World, u: Unit)
    ensures var r := Alert(e, w, u); r.React? ==> Adds(r.outcome.effect)
  {}

  lemma TurnGrown(e: Env, w: World, k: Id, scan: bool, dt: real, s: Id)
    requires s in w.buildings && dt >= 0.0
    ensures Grown(w, Turn(e, w, k, scan, dt), s)
  {
    hide Alert, Decide, Settle, CoolDown;
    if k in w.units && w.units[k].hp > 0.0 {
      var w1 := Cool(w, k, dt);
      AlertAdds(e, w1, w1.units[k]);
      SettleGrown(w1, Alert(e, w1, w1.units[k]), s);
      var w2 := if scan then Settle(w1, Alert(e, w1, w1.units[k])) else w1;
      if k in w2.units {
        DecideAdds(e, w2, w2.units[k], dt);
        SettleGrown(w2, Decide(e, w2, w2.units[k], dt), s);
      }
    }
  }

  lemma {:induction false} TurnsGrown(e: Env, w: World, ids: seq<Id>, scan: bool, dt: real, s: Id)
    requires s in w.buildings && dt >= 0.0
    ensures Grown(w, Turns(e, w, ids, scan, dt), s)
  {
    hide Turn;
    if ids != [] {
      TurnsGrown(e, w, ids[..|ids| - 1], scan, dt, s);
      TurnGrown(e, Turns(e, w, ids[..|ids| - 1], scan, dt), ids[|ids| - 1], scan, dt, s);
    }
  }

  lemma {:induction false} GiveGrown(e: Env, w: World, order: Order, ids: seq<Id>, n: nat, s: Id)
    requires n <= |ids| && s in w.buildings
    ensures Grown(w, Give(e, w, order, ids, n), s)
  {
    hide Obey, Settle;
    if n > 0 {
      GiveGrown(e, w, order, ids, n - 1, s);
      var mid, k := Give(e, w, order, ids, n - 1), ids[n - 1];
      if k in mid.units {
        Commands.ObeyIsPeaceful(e, order, n - 1, |ids|, mid.units[k]);
        SettleGrown(mid, React(Obey(e, order, n - 1, |ids|, mid.units[k])), s);
      }
    }
  }

  lemma ApplyGrown(e: Env, w: World, c: Command, s: Id)
    requires WellFormed(w) && s in w.buildings
    ensures Grown(w, Apply(e, w, c), s)
  {
    hide WellFormed, Give, OrderOf, Addressees, Pay;
    Training.SiteId(w, s);
    if c.kind == BuildCmd {
      if JudgeBuild(w, c).Accepted? {
        PayNextId(w, c.owner, BuildingCost(c.auxType));
        var site := NewBuilding(w.nextId, c.owner, TeamOf(w, c.owner), c.auxType, c.target, c.yaw, true);
        var w2 := SpawnBuilding(Pay(w, c.owner, BuildingCost(c.auxType)), site);
        var ids := OwnedIds(w2, c.owner, c.unitIds);
        GiveGrown(e, w2, Raising(w.nextId), ids, |ids|, s);
      }
    } else if c.kind == TrainCmd {
      if JudgeTrain(w, c).Accepted? { PayNextId(w, c.owner, UnitCost(c.auxType)); }
    } else {
      var ids := Addressees(w, c);
      if ids != [] { GiveGrown(e, w, OrderOf(e, w, c), ids, |ids|, s); }
    }
  }

  lemma {:induction false} BatchGrown(e: Env, w: World, cs: seq<Command>, s: Id)
    requires WellFormed(w) && s in w.buildings
    ensures Grown(w, ApplyAll(e, w, cs), s)
  {
    hide WellFormed, Evolves, Apply;
    if cs != [] {
      var rest := cs[..|cs| - 1];
      BatchGrown(e, w, rest, s);
      ApplyAllKeeps(e, w, rest);
      ApplyGrown(e, ApplyAll(e, w, rest), cs[|cs| - 1], s);
    }
  }

  lemma {:induction false} TrainingsGrown(e: Env, w: World, ids: seq<Id>, dt: real, s: Id)
    requires s in w.buildings
    ensures Grown(w, Trainings(e, w, ids, dt), s)
  {
    hide Train, Recruit;
    if ids != [] {
      TrainingsGrown(e, w, ids[..|ids| - 1], dt, s);
      Training.TrainShape(e, Trainings(e, w, ids[..|ids| - 1], dt), ids[|ids| - 1], dt);
    }
  }

  lemma EveGrown(w: World, input: Input, id: Id, s: Id)
    requires WellFormed(w) && s in w.buildings
    ensures Grown(w, Eve(w, input, id), s)
  {
    hide WellFormed, ApplyAll, Turns, Before, Evolves;
    var w0 := w.(pending := w.pending + input.commands);
    QueuesKeep(w, w0);
    BatchGrown(input.env, w0, w0.pending, s);
    var open := Opened(w, input);
    TurnsGrown(input.env, open, Before(input.env.enum(open.units.Keys), id), ScanDue(open), TICK_SECONDS, s);
  }

  lemma RestGrown(w: World, input: Input, id: Id, s: Id)
    requires Enumerates(input.env.enum) && id in Opened(w, input).units
    requires s in Morrow(w, input, id).buildings && s in Advance(w, input).buildings
    ensures Grown(Morrow(w, input, id), Advance(w, input), s)
  {
    hide Opened, Morrow, Turns, Training.Turned, Trainings, SweepUnits, SweepBuildings, Enumerates;
    var e, dt := input.env, TICK_SECONDS;
    var back := TurnsAfter(w, input, id);
    var m, v := Morrow(w, input, id), Training.Turned(w, input);
    TurnsGrown(e, m, back, ScanDue(Opened(w, input)), dt, s);
    var w2 := Trainings(e, v, e.enum(v.buildings.Keys), dt);
    TrainingsGrown(e, v, e.enum(v.buildings.Keys), dt, s);
    var w3 := SweepUnits(w2, e.enum(w2.units.Keys));
    Training.SweepsQueue(w2, e.enum(w2.units.Keys), s);
    SweepsRaze(w3, e.enum(w3.buildings.Keys), s);
    Training.AdvanceParts(w, input);
    hide Advance;
  }

  // ---- until it is finished ----

  /** The frames of work in range that a site still needs. */
  function WorkTicks(percent: real): (n: nat)
    ensures n >= 1
    decreases 100.0 - percent
  {
    if percent + 1.25 >= 100.0 then 1 else 1 + WorkTicks(percent + 1.25)
  }

  lemma {:induction false} WorkMonotone(p: real, q: real)
    requires p <= q
    ensures WorkTicks(q) <= WorkTicks(p)
    decreases 100.0 - p
  {
    if p + 1.25 < 100.0 && q + 1.25 < 100.0 { WorkMonotone(p + 1.25, q + 1.25); }
  }

  lemma {:induction false} WorkSteps(n: nat)
    requires n >= 1
    ensures WorkTicks(100.0 - n as real * 1.25) == n
  {
    if n > 1 {
      assert 100.0 - n as real * 1.25 + 1.25 == 100.0 - (n - 1) as real * 1.25;
      WorkSteps(n - 1);
    }
  }

  /** From nothing to finished takes one worker eighty ticks in range. */
  lemma FourSeconds()
    ensures WorkTicks(0.0) == 80
  {
    WorkSteps(80);
  }

  /** A worker, fast enough to walk and not so fast as to jump over the site, goes to build or builds it. */
  ghost predicate AtWork(w: World, id: Id, s: Id) {
    Builds(w, id, s) && IsSite(w, s) && 0.0 < Stride(w.units[id], TICK_SECONDS) <= 5.0
  }

  /** The ticks until the site is finished: the way there, then the work. */
  function TicksToFinish(e: Env, w: World, id: Id, s: Id): nat
    requires AtWork(w, id, s)
  {
    Legs(Gap(e, w.units[id].pos, w.buildings[s].pos), Stride(w.units[id], TICK_SECONDS), 2.5)
    + WorkTicks(w.buildings[s].percent)
  }

  /** A tick in which the worker survives, is not commanded and has no enemy near when it looks around. */
  ghost predicate LeftAlone(e: Env, w: World, input: Input, id: Id) {
    && input.env.len == e.len && Enumerates(input.env.enum)
    && id in w.units && Unaddressed(w, input, id) && id in Advance(w, input).units
    && id in Eve(w, input, id).units && Untroubled(input.env, Eve(w, input, id), id, ScanDue(Opened(w, input)))
  }

  /** The same worker at the same site, no further from finishing it. */
  lemma SameAtWork(e: Env, e': Env, w: World, w': World, id: Id, s: Id)
    requires AtWork(w, id, s) && e'.len == e.len && id in w'.units && Spared(w.units[id], w'.units[id])
    requires w'.units[id].hp > 0.0 && IsSite(w', s) && Grown(w, w', s)
    requires SameBuilding(w.buildings[s], w'.buildings[s])
    ensures AtWork(w', id, s) && TicksToFinish(e', w', id, s) <= TicksToFinish(e, w, id, s)
  {
    assert Stride(w'.units[id], TICK_SECONDS) == Stride(w.units[id], TICK_SECONDS);
    assert Gap(e', w'.units[id].pos, w'.buildings[s].pos) == Gap(e, w.units[id].pos, w.buildings[s].pos);
    WorkMonotone(w.buildings[s].percent, w'.buildings[s].percent);
    hide Legs, Gap, Stride, WorkTicks;
  }

  /** The worker's own turn: the site is finished, or it comes nearer to that. */
  lemma WorkTurn(e: Env, w: World, id: Id, scan: bool, s: Id)
    requires WellFormed(w) && IsNorm(e.len) && AtWork(w, id, s) && Untroubled(e, w, id, scan)
    ensures var v := Turn(e, w, id, scan, TICK_SECONDS);
            && id in v.units && s in v.buildings
            && (!IsSite(v, s) || (AtWork(v, id, s) && TicksToFinish(e, v, id, s) < TicksToFinish(e, w, id, s)))
  {
    hide WellFormed, IsNorm, Turn, Gap, WorkTicks, Legs, Stride, Untroubled;
    var v := Turn(e, w, id, scan, TICK_SECONDS);
    if Gap(e, w.units[id].pos, w.buildings[s].pos) <= 2.5 {
      BuilderWorks(e, w, id, scan, TICK_SECONDS, s);
      if w.buildings[s].percent + 25.0 * TICK_SECONDS < 100.0 {
        WorkStep(w.buildings[s].percent);
        StrideSame(w.units[id], v.units[id], TICK_SECONDS);
      }
    } else {
      BuilderApproaches(e, w, id, scan, TICK_SECONDS, s);
      LegsDecrease(Gap(e, w.units[id].pos, w.buildings[s].pos), Stride(w.units[id], TICK_SECONDS), 2.5);
      StrideSame(w.units[id], v.units[id], TICK_SECONDS);
    }
  }

  lemma WorkStep(p: real)
    requires p + 1.25 < 100.0
    ensures WorkTicks(p + 1.25) == WorkTicks(p) - 1 && 25.0 * TICK_SECONDS == 1.25
  {}

  /** A tick: the site is finished or gone, or it comes nearer to being finished. */
  lemma WorkTick(e: Env, w: World, input: Input, id: Id, s: Id)
    requires WellFormed(w) && IsNorm(e.len) && AtWork(w, id, s) && LeftAlone(e, w, input, id)
    ensures var v := Advance(w, input);
            && id in v.units
            && (!IsSite(v, s) || (AtWork(v, id, s) && TicksToFinish(e, v, id, s) < TicksToFinish(e, w, id, s)))
  {
    hide WellFormed, IsNorm, AtWork, Eve, Morrow, Advance, Turn, Opened, Enumerates, Keeps, Spared, SameBuilding,
         TicksToFinish, Grown, Untroubled;
    SiteAtWork(w, id, s);
    TickIsTurn(w, input, id);
    Combat.OpenedKeys(w, input);
    EveKeeps(w, input, id);
    MorrowKeeps(w, input, id);
    RestKeeps(w, input, id);
    EveGrown(w, input, id, s);
    var eve, morrow, v := Eve(w, input, id), Morrow(w, input, id), Advance(w, input);
    KeepsBuilding(w, eve, s);
    KeepsBuilding(eve, morrow, s);
    if IsSite(v, s) {
      RestGrown(w, input, id, s);
      KeepsBuilding(morrow, v, s);
      StaysASite(eve.buildings[s], morrow.buildings[s], v.buildings[s]);
      SameAtWork(e, input.env, w, eve, id, s);
      MorrowIs(w, input, id);
      WorkTurn(input.env, eve, id, ScanDue(Opened(w, input)), s);
      AliveAtEnd(w, input, id);
      SameAtWork(input.env, e, morrow, v, id, s);
    }
  }

  lemma SiteAtWork(w: World, id: Id, s: Id)
    requires AtWork(w, id, s)
    ensures IsSite(w, s) && id in w.units
  {}

  lemma StaysASite(a: Building, b: Building, c: Building)
    requires SameBuilding(a, b) && SameBuilding(b, c) && c.underConstruction
    ensures a.underConstruction && b.underConstruction
  {}

  // ---- whole runs ----

  /** The building site after n ticks. */
  ghost predicate Progressing(e: Env, w: World, id: Id, s: Id, n: nat, start: nat) {
    s < w.nextId && (IsSite(w, s) ==> AtWork(w, id, s) && TicksToFinish(e, w, id, s) + n <= start)
  }

  /** What is no longer a site never is one again. */
  lemma NeverASiteAgain(w: World, input: Input, s: Id)
    requires WellFormed(w) && !IsSite(w, s) && s < w.nextId
    ensures !IsSite(Advance(w, input), s)
  {
    hide WellFormed, Advance;
    AdvanceKeeps(w, input);
    Match.LastingFrame(w, Advance(w, input));
  }

  lemma ProgressTick(e: Env, w: World, input: Input, id: Id, s: Id, n: nat, start: nat)
    requires WellFormed(w) && IsNorm(e.len) && Progressing(e, w, id, s, n, start)
    requires IsSite(w, s) ==> LeftAlone(e, w, input, id)
    ensures Progressing(e, ClearMarks(Advance(w, input)), id, s, n + 1, start)
  {
    hide WellFormed, IsNorm, Advance, AtWork, TicksToFinish;
    AdvanceKeeps(w, input);
    Match.LastingFrame(w, Advance(w, input));
    var v := Advance(w, input);
    if IsSite(w, s) { WorkTick(e, w, input, id, s); } else { NeverASiteAgain(w, input, s); }
    if IsSite(v, s) { ClearedAtWork(e, v, id, s); }
    hide Evolves, LeftAlone;
  }

  lemma ClearedAtWork(e: Env, w: World, id: Id, s: Id)
    requires AtWork(w, id, s)
    ensures AtWork(ClearMarks(w), id, s) && TicksToFinish(e, ClearMarks(w), id, s) == TicksToFinish(e, w, id, s)
  {
    hide Legs, WorkTicks, Gap;
  }

  lemma {:induction false} ProgressSoFar(e: Env, w: World, inputs: seq<Input>, id: Id, s: Id, n: nat, start: nat)
    requires WellFormed(w) && IsNorm(e.len) && n <= |inputs| && Progressing(e, w, id, s, 0, start)
    requires forall k | 0 <= k < n && IsSite(Run(w, inputs[..k]), s) :: LeftAlone(e, Run(w, inputs[..k]), inputs[k], id)
    ensures Progressing(e, Run(w, inputs[..n]), id, s, n, start)
  {
    hide WellFormed, IsNorm, Advance, LeftAlone, Progressing, Run, IsSite;
    if n == 0 {
      assert inputs[..0] == [];
      WorkerLiveness.RunNone(w);
    } else {
      ProgressSoFar(e, w, inputs, id, s, n - 1, start);
      RunWellFormed(w, inputs[..n - 1]);
      ProgressTick(e, Run(w, inputs[..n - 1]), inputs[n - 1], id, s, n - 1, start);
      WorkerLiveness.RunStep(w, inputs, n - 1);
    }
  }

  /**
   A site gets finished: whatever else happens, after as many ticks as the way to it and the work left say,
   a site that a worker was sent to is a site no more, if the worker is left alone while it is one. It has
   then been finished, or destroyed.
   */
  lemma SiteIsFinished(e: Env, w: World, inputs: seq<Input>, id: Id, s: Id)
    requires WellFormed(w) && IsNorm(e.len) && AtWork(w, id, s)
    requires |inputs| == TicksToFinish(e, w, id, s)
    requires forall k | 0 <= k < |inputs| && IsSite(Run(w, inputs[..k]), s) ::
               LeftAlone(e, Run(w, inputs[..k]), inputs[k], id)
    ensures var v := Run(w, inputs); s !in v.buildings || !v.buildings[s].underConstruction
  {
    hide WellFormed, IsNorm, Run, LeftAlone, AtWork, TicksToFinish;
    SiteAtWork(w, id, s);
    SiteBelow(w, s);
    ProgressSoFar(e, w, inputs, id, s, |inputs|, |inputs|);
    assert inputs[..|inputs|] == inputs;
    var v := Run(w, inputs);
    if IsSite(v, s) { StillWork(e, v, id, s); }
  }

  lemma StillWork(e: Env, w: World, id: Id, s: Id)
    requires AtWork(w, id, s)
    ensures TicksToFinish(e, w, id, s) >= 1
  {}
}
