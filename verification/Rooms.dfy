/**
 The room itself (DungeonRoom.h): one object whose methods update the entity maps and the change
 marks in place. Every method is proved to leave exactly the state that module Simulation
 specifies, for the iteration order and the trigonometry that the environment supplies.
 */
module Rooms {
  import opened Entities
  import opened Simulation
  import opened Laws
  import opened Evolution
  import opened Commands
  import opened Match
  import Lobby
  import opened Shards

  class DungeonRoom {
    const roomId: RoomId
    const maxPlayers: nat
    var started: bool
    var over: bool
    var serverTick: nat

    var players: map<Uid, Player>
    var ledgers: map<Uid, Ledger>
    var nextId: Id
    var units: map<Id, Unit>
    var buildings: map<Id, Building>
    var fields: map<Id, Field>
    var drops: map<Id, Drop>
    var scanTick: nat

    var marks: Marks
    var pending: seq<Command>
    var rejected: seq<Rejected>
    var battle: Battle
    ghost var audit: Audit

    ghost function State(): World
      reads this
    {
      World(players, ledgers, nextId, units, buildings, fields, drops, scanTick, marks,
            pending, rejected, battle, audit)
    }

    ghost function Record(): Room
      reads this
    {
      Room(roomId, maxPlayers, started, over, serverTick, State())
    }

    constructor (roomId: RoomId, maxPlayers: nat)
      ensures Record() == Room(roomId, if maxPlayers == 0 then 2 else maxPlayers, false, false, 0, EMPTY_WORLD)
    {
      this.roomId, this.maxPlayers := roomId, if maxPlayers == 0 then 2 else maxPlayers;
      started, over, serverTick := false, false, 0;
      players, ledgers, nextId := map[], map[], 1;
      units, buildings, fields, drops, scanTick := map[], map[], map[], map[], 0;
      marks := NO_MARKS;
      pending, rejected, battle, audit := [], [], Battle(0, 0, false), NO_LOSSES;
    }

    // ---- the lobby ----

    predicate IsFull()
      reads this
    {
      |players| >= maxPlayers
    }

    method AddPlayer(uid: Uid) returns (ok: bool, team: nat)
      modifies this`players, this`ledgers
      ensures Record() == Enter(old(Record()), uid)
      ensures match Lobby.AddPlayer(old(State()), uid, maxPlayers)
              case Seated(_, t) => ok && team == t
              case RoomFull => !ok
    {
      team := 0;
      if uid in players {
        return true, players[uid].team;
      }
      if IsFull() {
        return false, 0;
      }
      team := |players|;
      players := players[uid := Player(uid, team, false)];
      if uid !in ledgers {
        ledgers := ledgers[uid := Ledger(0, 0, 0)];
      }
      ok := true;
    }

    method SetReady(uid: Uid, ready: bool) returns (ok: bool)
      modifies this`players
      ensures ok == (uid in old(players))
      ensures State() == if ok then Lobby.SetReady(old(State()), uid, ready) else old(State())
    {
      if uid !in players {
        return false;
      }
      players := players[uid := players[uid].(ready := ready)];
      ok := true;
    }

    method RemovePlayer(uid: Uid) returns (ok: bool)
      modifies this`players, this`ledgers
      ensures ok == (uid in old(players)) && State() == Lobby.RemovePlayer(old(State()), uid)
    {
      ledgers := Remove(ledgers, uid);
      ok := uid in players;
      players := Remove(players, uid);
    }

    method AllReady(order: set<nat> -> seq<nat>) returns (all: bool)
      requires Enumerates(order)
      ensures all == Lobby.AllReady(State())
    {
      if players == map[] {
        return false;
      }
      var uids := order(players.Keys);
      assert IsEnumeration(uids, players.Keys);
      for i := 0 to |uids|
        invariant forall j | 0 <= j < i :: players[uids[j]].ready
      {
        if !players[uids[i]].ready {
          return false;
        }
      }
      all := true;
    }

    /** Count the teams, hand out the starting resources. */
    method BeginBattle(order: set<nat> -> seq<nat>)
      requires Enumerates(order)
      modifies this`ledgers, this`marks, this`battle
      ensures State() == Begin(old(State()))
    {
      hide UnitTeams, CrystalTeams;
      var teams := CountUnitTeams(order);
      var crystals := CountCrystalTeams(order);
      GrantStart(order);
      battle := Battle(teams, crystals, true);
    }

    method GrantStart(order: set<nat> -> seq<nat>)
      requires Enumerates(order)
      modifies this`ledgers, this`marks
      ensures ledgers == map k | k in old(ledgers) :: START_LEDGER
      ensures marks == old(marks).(ledgerDirty := old(marks).ledgerDirty + old(ledgers).Keys)
    {
      var was := ledgers;
      var uids := order(was.Keys);
      var given: set<Uid> := {};
      assert IsEnumeration(uids, was.Keys);
      for i := 0 to |uids|
        invariant ledgers.Keys == was.Keys && marks == old(marks)
        invariant forall j | 0 <= j < i :: uids[j] in given
        invariant forall u | u in given :: u in was && ledgers[u] == START_LEDGER
      {
        ledgers := ledgers[uids[i] := START_LEDGER];
        given := given + {uids[i]};
      }
      assert given == was.Keys;
      marks := marks.(ledgerDirty := marks.ledgerDirty + given);
    }

    method CountUnitTeams(order: set<nat> -> seq<nat>) returns (n: nat)
      requires Enumerates(order)
      ensures n == |UnitTeams(State())|
    {
      var living := LivingTeams(order);
      n := |living|;
    }

    method LivingTeams(order: set<nat> -> seq<nat>) returns (living: set<nat>)
      requires Enumerates(order)
      ensures living == UnitTeams(State())
    {
      living := {};
      var ids := order(units.Keys);
      assert IsEnumeration(ids, units.Keys);
      for i := 0 to |ids|
        invariant living == set j | 0 <= j < i :: units[ids[j]].team
      {
        living := living + {units[ids[i]].team};
      }
    }

    method CountCrystalTeams(order: set<nat> -> seq<nat>) returns (n: nat)
      requires Enumerates(order)
      ensures n == |CrystalTeams(State())|
    {
      var teams := {};
      var ids := order(buildings.Keys);
      assert IsEnumeration(ids, buildings.Keys);
      for i := 0 to |ids|
        invariant teams == set j | 0 <= j < i && buildings[ids[j]].buildingType == CRYSTAL :: buildings[ids[j]].team
      {
        if buildings[ids[i]].buildingType == CRYSTAL {
          teams := teams + {buildings[ids[i]].team};
        }
      }
      assert teams == CrystalTeams(State());
      n := |teams|;
    }

    /** Crystals decide if at least two teams started with one, units otherwise. */
    method CheckGameOver(order: set<nat> -> seq<nat>) returns (won: bool, winner: nat)
      requires Enumerates(order)
      ensures Match.Verdict(State()) == if won then Won(winner) else Undecided
    {
      winner := 0;
      if !battle.begun {
        return false, 0;
      }
      if battle.crystalTeams >= 2 {
        var alive := {};
        var ids := order(buildings.Keys);
        assert IsEnumeration(ids, buildings.Keys);
        for i := 0 to |ids|
          invariant alive == set j | 0 <= j < i && buildings[ids[j]].buildingType == CRYSTAL
                                     && buildings[ids[j]].hp > 0.0
                               :: buildings[ids[j]].team
        {
          if buildings[ids[i]].buildingType == CRYSTAL && buildings[ids[i]].hp > 0.0 {
            alive := alive + {buildings[ids[i]].team};
          }
        }
        assert alive == LiveCrystalTeams(State());
        won, winner := SoleTeam(alive, order);
        return;
      }
      if battle.teams < 2 {
        return false, 0;
      }
      var living := LivingTeams(order);
      won, winner := SoleTeam(living, order);
    }

    // ---- spawning ----

    method SpawnUnit(owner: Uid, team: nat, unitType: nat, pos: Vec3, hp: real, speed: real, yaw: real)
      returns (id: Id)
      modifies this`nextId, this`units, this`marks
      ensures id == old(nextId)
      ensures State() == Simulation.SpawnUnit(old(State()), NewUnit(id, owner, team, unitType, pos, hp, speed, yaw))
    {
      id := nextId;
      nextId := nextId + 1;
      units := units[id := NewUnit(id, owner, team, unitType, pos, hp, speed, yaw)];
      marks := marks.(spawned := marks.spawned + [id]);
    }

    method SpawnBuilding(owner: Uid, team: nat, buildingType: nat, pos: Vec3, yaw: real, site: bool)
      returns (id: Id)
      modifies this`nextId, this`buildings, this`marks
      ensures id == old(nextId)
      ensures State()
              == Simulation.SpawnBuilding(old(State()), NewBuilding(id, owner, team, buildingType, pos, yaw, site))
    {
      id := nextId;
      nextId := nextId + 1;
      buildings := buildings[id := NewBuilding(id, owner, team, buildingType, pos, yaw, site)];
      marks := marks.(siteSpawned := marks.siteSpawned + [id]);
    }

    method SpawnResourceField(raw: nat, pos: Vec3, amount: nat) returns (id: Id)
      modifies this`nextId, this`fields, this`marks
      ensures id == old(nextId) && State() == SpawnField(old(State()), raw, pos, amount)
    {
      id := nextId;
      nextId := nextId + 1;
      fields := fields[id := Field(id, raw, pos, 0.0, amount)];
      marks := marks.(fieldSpawned := marks.fieldSpawned + [id]);
    }

    method SpawnResourceDrop(raw: nat, pos: Vec3, amount: nat) returns (id: Id)
      modifies this`nextId, this`drops, this`marks
      ensures id == old(nextId) && State() == SpawnDrop(old(State()), raw, pos, amount)
    {
      id := nextId;
      nextId := nextId + 1;
      drops := drops[id := Drop(id, raw, pos, amount)];
      marks := marks.(dropSpawned := marks.dropSpawned + [id]);
    }

    // ---- looking around ----

    method FindNearestEnemy(e: Env, id: Id, range: real) returns (best: Id)
      requires id in units && 0 !in units && Enumerates(e.enum)
      ensures best == NearestEnemy(e, State(), units[id], range)
    {
      hide Gap;
      var u := units[id];
      best := 0;
      var bestGap := range;
      var ids := e.enum(units.Keys);
      for i := 0 to |ids|
        invariant best == ScanEnemy(e, State(), u, range, ids[..i])
        invariant bestGap == if best == 0 then range else Gap(e, u.pos, units[best].pos)
      {
        assert ids[..i + 1][..i] == ids[..i];
        var k := ids[i];
        if units[k].team != u.team && units[k].hp > 0.0 && Gap(e, u.pos, units[k].pos) < bestGap {
          bestGap := Gap(e, u.pos, units[k].pos);
          best := k;
        }
      }
      assert ids[..|ids|] == ids;
    }

    method FindNearestDropoff(e: Env, team: nat, from: Vec3) returns (best: Id)
      requires Enumerates(e.enum) && 0 !in buildings
      ensures best == NearestDropoff(e, State(), team, from)
    {
      best := 0;
      var bestGap := 0.0;
      var ids := e.enum(buildings.Keys);
      for i := 0 to |ids|
        invariant best == ScanDropoff(e, State(), team, from, ids[..i])
        invariant best != 0 ==> bestGap == Gap(e, from, buildings[best].pos)
      {
        assert ids[..i + 1][..i] == ids[..i];
        var k := ids[i];
        if IsDropoff(buildings[k], team) {
          var gap := Gap(e, from, buildings[k].pos);
          if best == 0 || gap < bestGap {
            best, bestGap := k, gap;
          }
        }
      }
      assert ids[..|ids|] == ids;
    }

    // ---- moving ----

    method StepMove(e: Env, id: Id, dt: real)
      requires id in units
      modifies this`units, this`marks
      ensures State() == Touch(old(State()), id, Walk(e, old(units[id]), Stride(old(units[id]), dt)))
    {
      var u := units[id];
      var remaining := Stride(u, dt);
      ghost var goal := Walk(e, u, remaining);
      while remaining > 0.00001
        invariant Walk(e, u, remaining) == goal
        decreases if OnPath(u) then |u.path| - u.pathIndex else 0
      {
        var onPath := OnPath(u);
        var dest := if onPath then u.path[u.pathIndex] else u.target;
        var d := Toward(u.pos, dest);
        var dist := e.len(d);
        if dist <= remaining || dist < 0.0001 {
          u := u.(pos := dest);
          if onPath {
            u := u.(pathIndex := u.pathIndex + 1);
            if u.pathIndex >= |u.path| {
              u := u.(path := [], pathIndex := 0, hasTarget := false, state := Idle);
              break;
            }
            remaining := remaining - MaxReal(dist, 0.0);
            continue;
          }
          u := u.(hasTarget := false, state := Idle);
          break;
        }
        u := u.(pos := Along(u.pos, d, remaining / dist), yaw := e.atan2(d), state := Moving);
        break;
      }
      units := units[id := u];
      marks := marks.(dirty := marks.dirty + {id});
    }

    // ---- the worker's machine ----

    method SwitchToPreparingReturn(e: Env, id: Id, face: Vec3)
      requires id in units
      modifies this`units, this`marks
      ensures State() == Touch(old(State()), id, ToPreparing(e, old(units[id]), face))
    {
      var u := units[id].(task := PreparingReturn, target := face, hasTarget := false,
                          workCd := CARRY_LIFT_DURATION, state := Working);
      units := units[id := Face(e, u, face)];
      marks := marks.(dirty := marks.dirty + {id});
    }

    method SwitchToReturn(id: Id)
      requires id in units
      modifies this`units, this`marks
      ensures State() == Touch(old(State()), id, ToReturning(old(units[id])))
    {
      units := units[id := units[id].(task := Returning, workCd := 0.0, state := Moving)];
      marks := marks.(dirty := marks.dirty + {id});
    }

    /** The gathering loop: one unit of resource for every full harvest interval. */
    method Gather(workCd: real, carried: nat, amount: nat) returns (workCd': real, carried': nat, left: nat)
      ensures var n := Yield(workCd, carried, amount);
              left == amount - n && carried' == carried + n && workCd' == workCd - n as real * HARVEST_INTERVAL
    {
      workCd', carried', left := workCd, carried, amount;
      while workCd' >= HARVEST_INTERVAL && carried' < CARRY_CAPACITY && left > 0
        invariant 0 <= left <= amount && carried' == carried + (amount - left)
        invariant workCd' == workCd - (amount - left) as real * HARVEST_INTERVAL
        invariant Yield(workCd, carried, amount) == amount - left + Yield(workCd', carried', left)
        decreases left
      {
        workCd', carried', left := workCd' - HARVEST_INTERVAL, carried' + 1, left - 1;
      }
    }

    /** Work at the field the unit stands at: gather what the work time yields, remove an empty field. */
    method WorkField(e: Env, id: Id, f: Id, dt: real)
      requires id in units && units[id].id == id && f in fields && fields[f].amount > 0
      modifies this`units, this`fields, this`marks
      ensures var u, field := old(units[id]), old(fields[f]);
              State() == MineField(Touch(old(State()), id, Harvested(e, u, field, dt)), f,
                                   Yield(u.workCd + dt, u.carried, field.amount))
    {
      hide Face, MoveToward, ToPreparing, Yield, Remove;
      var u, field := units[id], fields[f];
      var workCd, carried, left := Gather(u.workCd + dt, u.carried, field.amount);
      marks := marks.(fieldDirty := marks.fieldDirty + {f});
      if left == 0 {
        marks := marks.(fieldDespawned := marks.fieldDespawned + [f]);
        fields := Remove(fields, f);
      } else {
        fields := fields[f := field.(amount := left)];
      }
      u := Face(e, u, field.pos).(state := Working, carriedRaw := field.raw, carried := carried, workCd := workCd);
      if (left == 0 && u.carried > 0) || u.carried >= CARRY_CAPACITY {
        u := ToPreparing(e, u, field.pos);
      }
      Rewrite(id, u);
    }

    method StepGather(e: Env, id: Id, dt: real)
      requires id in units && units[id].id == id
      modifies this`units, this`fields, this`marks
      ensures State() == Settle(old(State()), React(DecideGather(e, old(State()), old(units[id]), dt)))
    {
      hide Face, MoveToward, Yield, Harvested, MineField, ToPreparing;
      var u := units[id];
      GatherFeasible(e, State(), u, dt);
      var f := u.gatherField;
      if u.carried >= CARRY_CAPACITY {
        SwitchToPreparingReturn(e, id, if f in fields then fields[f].pos else u.target);
        return;
      }
      if f !in fields || fields[f].amount == 0 {
        if u.carried > 0 {
          SwitchToPreparingReturn(e, id, u.target);
        } else {
          Rewrite(id, Idled(u));
        }
        return;
      }
      var (moved, arrived) :=
        MoveToward(e, u.(target := fields[f].pos), Shift(fields[f].pos, u.slot), ARRIVE_RADIUS, dt);
      if !arrived {
        Rewrite(id, moved.(state := Moving));
        return;
      }
      ghost var w := State();
      units := units[id := moved];
      Overwrite(w, id, moved, Harvested(e, moved, fields[f], dt));
      WorkField(e, id, f, dt);
    }

    method StepPreparingReturn(e: Env, id: Id, dt: real)
      requires id in units && units[id].id == id
      modifies this`units, this`marks
      ensures State() == Settle(old(State()), React(DecidePreparing(e, old(units[id]), dt)))
    {
      hide Face;
      var u := units[id];
      u := Face(e, u, u.target).(state := Working, workCd := u.workCd - dt);
      if u.workCd <= 0.0 {
        u := ToReturning(u);
      }
      Rewrite(id, u);
    }

    /** Back to the field the unit came from, or idle. */
    method ResumeGathering(id: Id, u: Unit)
      requires id in units
      modifies this`units, this`marks
      ensures State() == Touch(old(State()), id, Resume(old(State()), u))
    {
      if u.gatherField != 0 && u.gatherField in fields {
        Rewrite(id, u.(task := Gathering, state := Moving));
      } else {
        Rewrite(id, ClearTask(u).(state := Idle));
      }
    }

    method StepReturn(e: Env, id: Id, dt: real)
      requires id in units && units[id].id == id && 0 !in buildings && Enumerates(e.enum)
      modifies this`units, this`ledgers, this`marks, this`audit
      ensures State() == Settle(old(State()), React(DecideReturn(e, old(State()), old(units[id]), dt)))
    {
      hide MoveToward, NearestDropoff, Resume, Credit;
      var u := units[id];
      ReturnFeasible(e, State(), u, dt);
      if u.carried == 0 {
        ResumeGathering(id, u);
        return;
      }
      var camp := 0;
      if u.dropoff != 0 && u.dropoff in buildings {
        var b := buildings[u.dropoff];
        if !b.underConstruction && b.team == u.team {
          camp := u.dropoff;
        }
      }
      if camp == 0 {
        camp := FindNearestDropoff(e, u.team, u.pos);
      }
      assert camp == ChosenDropoff(e, State(), u);
      if camp == 0 {
        Rewrite(id, u.(state := Idle));
        return;
      }
      var (moved, arrived) :=
        MoveToward(e, u.(dropoff := camp), Shift(buildings[camp].pos, u.slot), ARRIVE_RADIUS, dt);
      if !arrived {
        Rewrite(id, moved.(state := Moving));
        return;
      }
      ghost var w := State();
      PayIn(u.owner, u.carriedRaw, u.carried);
      ResumeGathering(id, moved.(carried := 0));
      CreditAfter(w, id, Resume(w, moved.(carried := 0)), u.owner, u.carriedRaw, u.carried);
    }

    method PayIn(owner: Uid, raw: nat, amount: nat)
      modifies this`ledgers, this`marks, this`audit
      ensures State() == Credit(old(State()), owner, raw, amount)
    {
      if owner in ledgers {
        ledgers := ledgers[owner := ledgers[owner].Add(ResourceOf(raw), amount)];
        marks := marks.(ledgerDirty := marks.ledgerDirty + {owner});
        if ResourceOf(raw) == Nothing {
          audit := audit.Forfeit(raw, amount);
        }
      } else {
        audit := audit.Forfeit(raw, amount);
      }
    }

    method StepPickup(e: Env, id: Id, dt: real)
      requires id in units && units[id].id == id
      modifies this`units, this`drops, this`marks
      ensures State() == Settle(old(State()), React(DecidePickup(e, old(State()), old(units[id]), dt)))
    {
      hide MoveToward, Remove;
      var u := units[id];
      PickupFeasible(e, State(), u, dt);
      var d := u.pickupDrop;
      if d !in drops {
        if u.carried > 0 {
          SwitchToReturn(id);
        } else {
          Rewrite(id, ClearTask(u).(state := Idle));
        }
        return;
      }
      var drop := drops[d];
      var (moved, arrived) := MoveToward(e, u, Shift(drop.pos, u.slot), ARRIVE_RADIUS, dt);
      if !arrived {
        Rewrite(id, moved.(state := Moving));
        return;
      }
      var space := Sub32(CARRY_CAPACITY, u.carried);
      var take := Min(space, drop.amount);
      if take == drop.amount {
        marks := marks.(dropDespawned := marks.dropDespawned + [d]);
        drops := Remove(drops, d);
      } else {
        drops := drops[d := drop.(amount := drop.amount - take)];
      }
      Rewrite(id, ToReturning(moved.(carriedRaw := drop.raw, carried := u.carried + take)));
    }

    method StepConstruct(e: Env, id: Id, dt: real)
      requires id in units && units[id].id == id
      modifies this`units, this`buildings, this`marks
      ensures State() == Settle(old(State()), React(DecideConstruct(e, old(State()), old(units[id]), dt)))
    {
      hide MoveToward;
      var u := units[id];
      ConstructFeasible(e, State(), u, dt);
      var s := u.buildTarget;
      if s !in buildings || !buildings[s].underConstruction {
        Rewrite(id, ClearTask(u).(state := Idle));
        return;
      }
      var b := buildings[s];
      var (moved, arrived) := MoveToward(e, u, b.pos, BUILD_RANGE, dt);
      if !arrived {
        Rewrite(id, moved.(state := Moving));
        return;
      }
      u := moved.(state := Working);
      b := b.(percent := b.percent + CONSTRUCT_PERCENT_PER_SEC * dt);
      if b.percent >= 100.0 {
        b := b.(percent := 100.0, underConstruction := false, hp := b.maxHp);
        u := ClearTask(u).(state := Idle);
      } else {
        b := b.(hp := MaxReal(b.hp, b.maxHp * b.percent / 100.0));
      }
      buildings := buildings[s := b];
      marks := marks.(siteDirty := marks.siteDirty + {s});
      Rewrite(id, u);
    }

    // ---- combat ----

    method StepCombat(e: Env, id: Id, dt: real)
      requires id in units && units[id].id == id
      modifies this`units, this`buildings, this`marks
      ensures State() == Settle(old(State()), React(DecideCombat(e, old(State()), old(units[id]), dt)))
    {
      hide Chase, Gap, Wound;
      var u := units[id];
      CombatFeasible(e, State(), u, dt);
      if u.autoAggro && Gap(e, u.aggroOrigin, u.pos) > AGGRO_LEASH {
        Rewrite(id, u.(autoAggro := false, attackTarget := 0, hasTarget := true, target := u.aggroOrigin,
                       state := Moving));
        return;
      }
      var t := u.attackTarget;
      if t in units {
        var target := units[t];
        if target.hp <= 0.0 || target.team == u.team {
          Rewrite(id, StopAttack(u));
          return;
        }
        var (moved, inRange) := Chase(e, u.(state := Attacking), target.pos, dt, ATTACK_RANGE);
        if inRange && moved.attackCd <= 0.0 {
          Rewrite(id, moved.(attackCd := ATTACK_COOLDOWN));
          Rewrite(t, target.(hp := Wound(target.hp)));
        } else {
          Rewrite(id, moved);
        }
        return;
      }
      if t in buildings {
        var target := buildings[t];
        if target.hp <= 0.0 || target.team == u.team {
          Rewrite(id, StopAttack(u));
          return;
        }
        var (moved, inRange) := Chase(e, u.(state := Attacking), target.pos, dt, BUILDING_ATTACK_RANGE);
        if inRange && moved.attackCd <= 0.0 {
          buildings := buildings[t := target.(hp := Wound(target.hp))];
          marks := marks.(siteDirty := marks.siteDirty + {t});
          moved := moved.(attackCd := ATTACK_COOLDOWN);
        }
        Rewrite(id, moved);
        return;
      }
      Rewrite(id, StopAttack(u));
    }

    /** Store a unit's record and mark it dirty. */
    method Rewrite(id: Id, u: Unit)
      requires id in units
      modifies this`units, this`marks
      ensures State() == Touch(old(State()), id, u)
    {
      units := units[id := u];
      marks := marks.(dirty := marks.dirty + {id});
    }


    // ---- automatic reactions ----

    /** Put the load down, if there is one. */
    method DropCarried(id: Id)
      requires id in units
      modifies this`units, this`drops, this`nextId, this`marks
      ensures var u, w := old(units[id]), old(State());
              State() == if u.carried == 0 then w
                         else SpawnDrop(w.(units := w.units[id := u.(carried := 0)]), u.carriedRaw, u.pos, u.carried)
      ensures id in units && units[id] == old(units[id]).(carried := 0)
    {
      var u := units[id];
      if u.carried > 0 {
        var _ := SpawnResourceDrop(u.carriedRaw, u.pos, u.carried);
        units := units[id := u.(carried := 0)];
      }
    }

    method EngageAuto(id: Id, target: Id)
      requires id in units
      modifies this`units, this`marks
      ensures State() == Touch(old(State()), id, Engaged(old(units[id]), target))
    {
      var u := units[id];
      Rewrite(id, u.(attackTarget := target, autoAggro := true, aggroOrigin := u.pos, state := Attacking));
    }

    /** Leave the current work and its load, and fight. */
    method DropWorkAndEngage(id: Id, threat: Id)
      requires id in units && units[id].id == id
      modifies this`units, this`drops, this`nextId, this`marks
      ensures var u, w := old(units[id]), old(State());
              State() == Settle(w, React(Shedding(u, Fighting(u, threat))))
    {
      hide Touch, SpawnDrop, Fighting;
      FightingFacts(units[id], threat);
      ShedThenTouch(State(), id, units[id], Fighting(units[id], threat).(carried := 0));
      DropCarried(id);
      Rewrite(id, Fighting(units[id], threat));
    }

    /** Idle units look for enemies; working units only react to a close one. */
    method ReactToEnemies(e: Env, id: Id)
      requires id in units && units[id].id == id && 0 !in units && Enumerates(e.enum)
      modifies this`units, this`drops, this`nextId, this`marks
      ensures State() == Settle(old(State()), Alert(e, old(State()), old(units[id])))
    {
      hide NearestEnemy, Shedding, Engaged, Touch, Fighting;
      var u := units[id];
      if u.attackTarget == 0 {
        if u.task == NoTask && !u.hasTarget {
          var target := FindNearestEnemy(e, id, AGGRO_RANGE);
          if target != 0 {
            EngageAuto(id, target);
            EngagedId(u, target);
          }
        } else if u.task != NoTask {
          var threat := FindNearestEnemy(e, id, DEFEND_RANGE);
          if threat != 0 {
            DropWorkAndEngage(id, threat);
          }
        }
      }
    }

    method CoolUnit(id: Id, dt: real)
      requires id in units
      modifies this`units
      ensures State() == Cool(old(State()), id, dt)
    {
      var u := units[id];
      if u.attackCd > 0.0 {
        u := u.(attackCd := u.attackCd - dt);
        if u.attackCd < 0.0 {
          u := u.(attackCd := 0.0);
        }
      }
      units := units[id := u];
    }

    /** One unit's part of a step. */
    method StepUnit(e: Env, id: Id, scan: bool, dt: real)
      requires WellFormed(State()) && id in units && Enumerates(e.enum)
      modifies this`ledgers, this`nextId, this`units, this`buildings, this`fields, this`drops, this`scanTick,
               this`marks, this`pending, this`rejected, this`audit
      ensures State() == Turn(e, old(State()), id, scan, dt)
      ensures WellFormed(State()) && units.Keys == old(units.Keys)
    {
      hide Evolves, WellFormed, Alert, Decide, Settle, UnitOk, Cool;
      ghost var w := State();
      TurnKeeps(e, w, id, scan, dt);
      if units[id].hp <= 0.0 {
        return;
      }
      CoolKeeps(w, id, dt);
      CoolUnit(id, dt);
      if scan {
        ghost var w1 := State();
        AlertKeeps(e, w1, id);
        UnitFacts(w1, id);
        ZeroIsFree(w1);
        ReactToEnemies(e, id);
      }
      Act(e, id, dt);
    }

    /** Fight, work or walk. */
    method Act(e: Env, id: Id, dt: real)
      requires WellFormed(State()) && id in units && Enumerates(e.enum)
      modifies this`ledgers, this`nextId, this`units, this`buildings, this`fields, this`drops, this`scanTick,
               this`marks, this`pending, this`rejected, this`audit
      ensures State() == Settle(old(State()), Decide(e, old(State()), old(units[id]), dt))
    {
      ghost var w := State();
      UnitFacts(w, id);
      ZeroIsFree(w);
      var u := units[id];
      hide WellFormed, UnitOk, DecideCombat, DecideGather, DecidePreparing, DecideReturn, DecidePickup, DecideConstruct;
      if u.attackTarget != 0 {
        StepCombat(e, id, dt);
        return;
      }
      match u.task
      case Gathering => StepGather(e, id, dt);
      case PreparingReturn => StepPreparingReturn(e, id, dt);
      case Returning => StepReturn(e, id, dt);
      case Pickup => StepPickup(e, id, dt);
      case Constructing => StepConstruct(e, id, dt);
      case NoTask =>
        if u.hasTarget {
          WalkLawful(e, u, Stride(u, dt));
          StepMove(e, id, dt);
        }
    }

    // ---- one fixed step ----

    method StepUnits(e: Env, scan: bool, dt: real)
      requires WellFormed(State()) && Enumerates(e.enum)
      modifies this`ledgers, this`nextId, this`units, this`buildings, this`fields, this`drops, this`scanTick,
               this`marks, this`pending, this`rejected, this`audit
      ensures State() == Turns(e, old(State()), e.enum(old(units.Keys)), scan, dt) && WellFormed(State())
    {
      hide WellFormed, Turn;
      ghost var w := State();
      var ids := e.enum(units.Keys);
      for i := 0 to |ids|
        invariant State() == Turns(e, w, ids[..i], scan, dt)
        invariant WellFormed(State()) && units.Keys == w.units.Keys
      {
        assert ids[..i + 1][..i] == ids[..i];
        StepUnit(e, ids[i], scan, dt);
      }
      assert ids[..|ids|] == ids;
    }

    /** Put the first item of the queue on the map, walking out in front of the building. */
    method TrainUnit(e: Env, b: Building)
      requires b.queue != []
      modifies this`units, this`nextId, this`marks
      ensures State() == Simulation.SpawnUnit(old(State()), Recruit(e, b, old(nextId)))
    {
      hide InFront, Lateral;
      var id := SpawnUnit(b.owner, b.team, b.queue[0].unitType, InFront(e, b, TRAIN_SPAWN_FRONT, 0.0, b.pos.y),
                          100.0, MOVE_SPEED, b.yaw);
      ghost var v := units[id];
      units := units[id := units[id].(
        target := InFront(e, b, TRAIN_SPAWN_FRONT + TRAIN_WALK_OUT, Lateral(id), 0.0), hasTarget := true)];
      assert old(units)[id := v][id := units[id]] == old(units)[id := units[id]];
    }

    /** Advance the training queue of one building. */
    method StepBuilding(e: Env, id: Id, dt: real)
      requires id in buildings
      modifies this`units, this`buildings, this`nextId, this`marks
      ensures State() == Train(e, old(State()), id, dt)
      ensures buildings.Keys == old(buildings.Keys)
    {
      hide Recruit;
      var b := buildings[id];
      if b.queue == [] || b.underConstruction {
        return;
      }
      var item := b.queue[0].(remaining := b.queue[0].remaining - dt);
      if item.remaining <= 0.0 {
        TrainUnit(e, b);
        b := b.(queue := b.queue[1..]);
      } else {
        b := b.(queue := b.queue[0 := item]);
      }
      buildings := buildings[id := b];
      marks := marks.(siteDirty := marks.siteDirty + {id});
    }

    method StepBuildings(e: Env, dt: real)
      requires Enumerates(e.enum)
      modifies this`units, this`buildings, this`nextId, this`marks
      ensures State() == Trainings(e, old(State()), e.enum(old(buildings.Keys)), dt)
    {
      hide Train;
      ghost var w := State();
      var ids := e.enum(buildings.Keys);
      for i := 0 to |ids|
        invariant State() == Trainings(e, w, ids[..i], dt) && buildings.Keys == w.buildings.Keys
      {
        assert ids[..i + 1][..i] == ids[..i];
        StepBuilding(e, ids[i], dt);
      }
      assert ids[..|ids|] == ids;
    }

    method RemoveUnitIfDead(id: Id)
      requires id in units
      modifies this`units, this`marks, this`audit
      ensures State() == SweepUnit(old(State()), id)
      ensures forall j :: j in units <==> j in old(units) && (j != id || old(units[id]).hp > 0.0)
    {
      hide Remove;
      if units[id].hp <= 0.0 {
        marks := marks.(despawned := marks.despawned + [id]);
        audit := audit.Bury(units[id].carriedRaw, units[id].carried);
        units := Remove(units, id);
      }
    }

    method RemoveDeadUnits(e: Env)
      requires Enumerates(e.enum)
      modifies this`units, this`marks, this`audit
      ensures State() == SweepUnits(old(State()), e.enum(old(units.Keys)))
    {
      hide SweepUnit;
      ghost var w := State();
      var ids := e.enum(units.Keys);
      for i := 0 to |ids|
        invariant State() == SweepUnits(w, ids[..i])
        invariant forall j | i <= j < |ids| :: ids[j] in units
      {
        assert ids[..i + 1][..i] == ids[..i];
        RemoveUnitIfDead(ids[i]);
      }
      assert ids[..|ids|] == ids;
    }

    method RemoveBuildingIfDestroyed(id: Id)
      requires id in buildings
      modifies this`buildings, this`marks
      ensures State() == SweepBuilding(old(State()), id)
      ensures forall j :: j in buildings <==> j in old(buildings) && (j != id || old(buildings[id]).hp > 0.0)
    {
      hide Remove;
      if buildings[id].hp <= 0.0 {
        marks := marks.(siteDespawned := marks.siteDespawned + [id]);
        buildings := Remove(buildings, id);
      }
    }

    method RemoveDestroyedBuildings(e: Env)
      requires Enumerates(e.enum)
      modifies this`buildings, this`marks
      ensures State() == SweepBuildings(old(State()), e.enum(old(buildings.Keys)))
    {
      hide SweepBuilding;
      ghost var w := State();
      var ids := e.enum(buildings.Keys);
      for i := 0 to |ids|
        invariant State() == SweepBuildings(w, ids[..i])
        invariant forall j | i <= j < |ids| :: ids[j] in buildings
      {
        assert ids[..i + 1][..i] == ids[..i];
        RemoveBuildingIfDestroyed(ids[i]);
      }
      assert ids[..|ids|] == ids;
    }

    method Step(e: Env, dt: real)
      requires WellFormed(State()) && Enumerates(e.enum)
      modifies this`ledgers, this`nextId, this`units, this`buildings, this`fields, this`drops, this`scanTick,
               this`marks, this`pending, this`rejected, this`audit
      ensures State() == Simulation.Step(e, old(State()), dt) && WellFormed(State())
    {
      hide WellFormed, Evolves;
      StepKeeps(e, State(), dt);
      QueuesKeep(State(), NextScan(State()));
      scanTick := Add32(scanTick, 1);
      StepUnits(e, scanTick % AGGRO_SCAN_TICKS == 0, dt);
      StepBuildings(e, dt);
      RemoveDeadUnits(e);
      RemoveDestroyedBuildings(e);
    }

    // ---- commands ----

    /** The commander's own units among ids, in the given order. */
    method OwnedUnits(owner: Uid, ids: seq<Id>) returns (owned: seq<Id>)
      ensures owned == OwnedIds(State(), owner, ids)
      ensures forall k | k in owned :: k in units
    {
      owned := [];
      for i := 0 to |ids|
        invariant owned == OwnedIds(State(), owner, ids[..i])
      {
        assert ids[..i + 1][..i] == ids[..i];
        if ids[i] in units && units[ids[i]].owner == owner {
          owned := owned + [ids[i]];
        }
      }
      assert ids[..|ids|] == ids;
      OwnedIdsAreOwned(State(), owner, ids);
    }

    method CollectOwnedUnits(owner: Uid, ids: seq<Id>) returns (selected: seq<Id>)
      ensures selected == Selected(State(), owner, ids)
    {
      selected := OwnedUnits(owner, ids);
      selected := SortIds(selected);
    }

    /** What an order changes in one unit. */
    method Instruct(e: Env, order: Order, index: nat, count: nat, id: Id)
      requires index < count && id in units && units[id].id == id
      modifies this`units, this`drops, this`nextId, this`marks
      ensures State() == Settle(old(State()), React(Obey(e, order, index, count, old(units[id]))))
    {
      hide FormationSlot, Shifted, Shift, Touch;
      var u := units[id];
      if order == Halt {
        ShedThenTouch(State(), id, u, Stopped(u).(carried := 0));
        hide SpawnDrop;
        DropCarried(id);
        Rewrite(id, Stopped(units[id]));
        return;
      }
      u := ClearTask(u);
      match order {
        case March(target, path, heading) =>
          var o := FormationSlot(index, count, heading);
          u := u.(target := Shift(target, o), path := Shifted(path, o), pathIndex := 0,
                  hasTarget := true, attackTarget := 0, state := Moving);
        case Assault(victim) =>
          u := u.(attackTarget := victim, autoAggro := false, hasTarget := false, state := Attacking);
        case Harvesting(f, at) =>
          u := u.(slot := e.slot(index, count), attackTarget := 0, hasTarget := false, task := Gathering,
                  gatherField := f, target := at, state := Moving);
        case Storing(camp) =>
          u := u.(slot := e.slot(index, count), attackTarget := 0, hasTarget := false, task := Returning,
                  dropoff := camp, state := Moving);
        case Fetching(d) =>
          u := u.(slot := e.slot(index, count), attackTarget := 0, hasTarget := false, task := Pickup,
                  pickupDrop := d, state := Moving);
        case Raising(site) =>
          u := u.(attackTarget := 0, hasTarget := false, task := Constructing, buildTarget := site, state := Moving);
        case Halt =>
      }
      Rewrite(id, u);
    }

    /** The loop every command ends in: instruct the selected units one after another. */
    method InstructAll(e: Env, order: Order, ids: seq<Id>)
      requires WellFormed(State()) && OrderOk(order) && forall k | k in ids :: k in units
      modifies this`units, this`drops, this`nextId, this`marks
      ensures State() == GiveAll(e, old(State()), order, ids) && WellFormed(State())
    {
      hide WellFormed, Evolves, Obey, Settle, OrderOk, UnitOk;
      ghost var w := State();
      for i := 0 to |ids|
        invariant State() == Give(e, w, order, ids, i) && WellFormed(State())
        invariant units.Keys == w.units.Keys
      {
        assert ids[i] in ids;
        UnitFacts(State(), ids[i]);
        ghost var before := State();
        ObeyLawful(e, before, order, i, |ids|, units[ids[i]]);
        SettleKeeps(before, ids[i], Reaction.React(Obey(e, order, i, |ids|, units[ids[i]])));
        Instruct(e, order, i, |ids|, ids[i]);
      }
    }

    method ApplyMove(e: Env, owner: Uid, ids: seq<Id>, target: Vec3, path: seq<Vec3>)
      requires WellFormed(State())
      modifies this`units, this`drops, this`nextId, this`marks
      ensures var w, all := old(State()), Selected(old(State()), owner, ids);
              State() == if all == [] then w else GiveAll(e, w, March(target, path, Heading(e, w, all, target)), all)
      ensures WellFormed(State())
    {
      hide WellFormed, Heading, Selected, GiveAll;
      var selected := CollectOwnedUnits(owner, ids);
      if selected == [] {
        return;
      }
      SelectedAreOwned(State(), owner, ids);
      assert forall i | 0 <= i < |selected| :: selected[i] in selected;
      var heading := GroupHeading(e, selected, target);
      InstructAll(e, March(target, path, heading), selected);
    }

    method GroupHeading(e: Env, selected: seq<Id>, target: Vec3) returns (heading: Planar)
      requires selected != [] && forall i | 0 <= i < |selected| :: selected[i] in units
      ensures heading == Heading(e, State(), selected, target)
    {
      var sum := ORIGIN;
      for i := 0 to |selected|
        invariant sum == PosSum(State(), selected[..i])
      {
        assert selected[..i + 1][..i] == selected[..i];
        var p := units[selected[i]].pos;
        sum := Vec3(sum.x + p.x, sum.y + p.y, sum.z + p.z);
      }
      assert selected[..|selected|] == selected;
      heading := Direction(e, Toward(Mean(sum, |selected|), target));
    }

    method ApplyStop(e: Env, owner: Uid, ids: seq<Id>)
      requires WellFormed(State())
      modifies this`units, this`drops, this`nextId, this`marks
      ensures State() == GiveAll(e, old(State()), Halt, OwnedIds(old(State()), owner, ids)) && WellFormed(State())
    {
      var owned := OwnedUnits(owner, ids);
      InstructAll(e, Halt, owned);
    }

    method ApplyAttack(e: Env, owner: Uid, ids: seq<Id>, victim: Id)
      requires WellFormed(State())
      modifies this`units, this`drops, this`nextId, this`marks
      ensures State() == GiveAll(e, old(State()), Assault(victim), Without(OwnedIds(old(State()), owner, ids), victim))
      ensures WellFormed(State())
    {
      var owned := OwnedUnits(owner, ids);
      var attackers := [];
      for i := 0 to |owned|
        invariant attackers == Without(owned[..i], victim)
        invariant forall k | k in attackers :: k in units
      {
        assert owned[..i + 1][..i] == owned[..i];
        if owned[i] != victim {
          attackers := attackers + [owned[i]];
        }
      }
      assert owned[..|owned|] == owned;
      InstructAll(e, Assault(victim), attackers);
    }

    /** Harvest, Store and Pickup: workers spread around a shared target. */
    method ApplyWork(e: Env, owner: Uid, ids: seq<Id>, order: Order)
      requires WellFormed(State()) && OrderOk(order)
      modifies this`units, this`drops, this`nextId, this`marks
      ensures State() == GiveAll(e, old(State()), order, Selected(old(State()), owner, ids)) && WellFormed(State())
    {
      var selected := CollectOwnedUnits(owner, ids);
      SelectedAreOwned(State(), owner, ids);
      InstructAll(e, order, selected);
    }

    method AssignConstructors(e: Env, owner: Uid, ids: seq<Id>, site: Id)
      requires WellFormed(State()) && site != 0
      modifies this`units, this`drops, this`nextId, this`marks
      ensures State() == GiveAll(e, old(State()), Raising(site), OwnedIds(old(State()), owner, ids))
      ensures WellFormed(State())
    {
      var owned := OwnedUnits(owner, ids);
      InstructAll(e, Raising(site), owned);
    }

    method Refuse(c: Command, reason: Reason)
      modifies this`rejected
      ensures State() == Reject(old(State()), c, reason)
    {
      rejected := rejected + [Rejected(c.owner, c.clientSeq, reason)];
    }

    method Charge(owner: Uid, cost: Cost)
      requires owner in ledgers
      modifies this`ledgers, this`marks, this`audit
      ensures State() == Pay(old(State()), owner, cost)
    {
      ledgers := ledgers[owner := ledgers[owner].Pay(cost)];
      marks := marks.(ledgerDirty := marks.ledgerDirty + {owner});
      audit := audit.Spend(cost);
    }

    method ApplyBuild(e: Env, c: Command)
      requires WellFormed(State())
      modifies this`ledgers, this`nextId, this`units, this`buildings, this`fields, this`drops, this`scanTick,
               this`marks, this`pending, this`rejected, this`audit
      ensures State() == Simulation.ApplyBuild(e, old(State()), c) && WellFormed(State())
    {
      hide WellFormed, Evolves, GiveAll, Pay, Simulation.SpawnBuilding;
      ghost var w := State();
      BuildKeeps(e, w, c);
      if c.owner !in ledgers {
        Refuse(c, InvalidRequest);
        return;
      }
      if c.auxType == CRYSTAL {
        Refuse(c, InvalidRequest);
        return;
      }
      var cost := BuildingCost(c.auxType);
      if !ledgers[c.owner].CanAfford(cost) {
        Refuse(c, NotEnoughResources);
        return;
      }
      var team := if c.owner in players then players[c.owner].team else 0;
      PayKeeps(w, c.owner, cost);
      PayNextId(w, c.owner, cost);
      Charge(c.owner, cost);
      PositiveId(State());
      SpawnBuildingKeeps(State(), NewBuilding(nextId, c.owner, team, c.auxType, c.target, c.yaw, true));
      var site := SpawnBuilding(c.owner, team, c.auxType, c.target, c.yaw, true);
      AssignConstructors(e, c.owner, c.unitIds, site);
    }

    method ApplyTrain(c: Command)
      requires WellFormed(State())
      modifies this`ledgers, this`nextId, this`units, this`buildings, this`fields, this`drops, this`scanTick,
               this`marks, this`pending, this`rejected, this`audit
      ensures State() == Simulation.ApplyTrain(old(State()), c) && WellFormed(State())
    {
      hide WellFormed, Evolves, Ledger.Pay, Ledger.CanAfford;
      TrainCommandKeeps(State(), c);
      if c.targetEntity !in buildings {
        Refuse(c, InvalidEntity);
        return;
      }
      var b := buildings[c.targetEntity];
      if b.owner != c.owner || b.underConstruction {
        Refuse(c, InvalidEntity);
        return;
      }
      if !Trains(b.buildingType, c.auxType) {
        Refuse(c, InvalidRequest);
        return;
      }
      if c.owner !in ledgers {
        Refuse(c, InvalidRequest);
        return;
      }
      var cost := UnitCost(c.auxType);
      if !ledgers[c.owner].CanAfford(cost) {
        Refuse(c, NotEnoughResources);
        return;
      }
      Charge(c.owner, cost);
      buildings := buildings[c.targetEntity := b.(queue := b.queue + [TrainItem(c.auxType, TRAIN_TIME)])];
      marks := marks.(siteDirty := marks.siteDirty + {c.targetEntity});
    }

    method ApplyCommand(e: Env, c: Command)
      requires WellFormed(State())
      modifies this`ledgers, this`nextId, this`units, this`buildings, this`fields, this`drops, this`scanTick,
               this`marks, this`pending, this`rejected, this`audit
      ensures State() == Apply(e, old(State()), c) && WellFormed(State())
    {
      hide WellFormed, Evolves, Selected, OwnedIds, Simulation.ApplyBuild, Simulation.ApplyTrain, Heading, Give;
      ZeroIsFree(State());
      GiveNone(e, State());
      match c.kind
      case MoveCmd => ApplyMove(e, c.owner, c.unitIds, c.target, c.path);
      case StopCmd => ApplyStop(e, c.owner, c.unitIds);
      case AttackCmd => ApplyAttack(e, c.owner, c.unitIds, c.targetEntity);
      case HarvestCmd =>
        if c.targetEntity in fields {
          ApplyWork(e, c.owner, c.unitIds, Harvesting(c.targetEntity, fields[c.targetEntity].pos));
        }
      case StoreCmd => ApplyWork(e, c.owner, c.unitIds, Storing(c.targetEntity));
      case PickupCmd =>
        if c.targetEntity in drops {
          ApplyWork(e, c.owner, c.unitIds, Fetching(c.targetEntity));
        }
      case BuildCmd => ApplyBuild(e, c);
      case ConstructCmd =>
        if c.targetEntity in buildings && buildings[c.targetEntity].underConstruction {
          AssignConstructors(e, c.owner, c.unitIds, c.targetEntity);
        }
      case TrainCmd => ApplyTrain(c);
    }

    method EnqueueCommand(c: Command)
      modifies this`pending
      ensures State() == old(State()).(pending := old(pending) + [c])
    {
      pending := pending + [c];
    }

    method ApplyPending(e: Env)
      requires WellFormed(State())
      modifies this`ledgers, this`nextId, this`units, this`buildings, this`fields, this`drops, this`scanTick,
               this`marks, this`pending, this`rejected, this`audit
      ensures State() == Simulation.ApplyPending(e, old(State())) && WellFormed(State())
    {
      hide WellFormed, Evolves, Apply;
      ghost var w := State();
      for i := 0 to |pending|
        invariant pending == w.pending
        invariant State() == ApplyAll(e, w, pending[..i]) && WellFormed(State())
      {
        assert pending[..i + 1][..i] == pending[..i];
        ApplyKeepsPending(e, State(), pending[i]);
        ApplyCommand(e, pending[i]);
      }
      assert pending[..|pending|] == pending;
      QueuesKeep(State(), State().(pending := []));
      pending := [];
    }

    // ---- the frame ----

    method TakeRejected() returns (out: seq<Rejected>)
      modifies this`rejected
      ensures out == old(rejected) && State() == old(State()).(rejected := [])
    {
      out, rejected := rejected, [];
    }

    method ClearFrameChanges()
      modifies this`marks
      ensures State() == ClearMarks(old(State()))
    {
      marks := NO_MARKS;
    }
  }

  /** The only team left, if at most one is. */
  method SoleTeam(teams: set<nat>, order: set<nat> -> seq<nat>) returns (won: bool, winner: nat)
    requires Enumerates(order)
    ensures Survivor(teams) == if won then Won(winner) else Undecided
  {
    if |teams| > 1 {
      return false, 0;
    }
    if teams == {} {
      return true, NO_WINNER;
    }
    var all := order(teams);
    assert IsEnumeration(all, teams);
    var some :| some in teams;
    assert some in all;
    won, winner := true, all[0];
    assert forall t | t in teams :: t == winner by {
      Sizes({winner}, teams);
    }
  }

  lemma ShedThenTouch(w: World, id: Id, u: Unit, v: Unit)
    requires id in w.units && w.units[id] == u
    requires v.id == id && v.carried == 0 && v.pos == u.pos
    ensures u.carried > 0 ==>
              Touch(SpawnDrop(w.(units := w.units[id := u.(carried := 0)]), u.carriedRaw, u.pos, u.carried), id, v)
              == Commit(w, Outcome(v, Shed(u.carriedRaw, u.carried)))
  {
    assert w.units[id := u.(carried := 0)][id := v] == w.units[id := v];
  }

  lemma FightingFacts(u: Unit, threat: Id)
    ensures Fighting(u, threat).id == u.id && Fighting(u, threat).pos == u.pos
    ensures Fighting(u.(carried := 0), threat) == Fighting(u, threat).(carried := 0)
  {}

  lemma EngagedId(u: Unit, target: Id)
    ensures Engaged(u, target).id == u.id
  {}

  lemma GiveNone(e: Env, w: World)
    ensures forall order :: Give(e, w, order, [], 0) == w
  {}

  lemma GivePending(e: Env, w: World, order: Order, ids: seq<Id>, n: nat)
    requires n <= |ids|
    ensures Give(e, w, order, ids, n).pending == w.pending
  {
    if n > 0 { GivePending(e, w, order, ids, n - 1); }
    hide Obey;
  }

  lemma ApplyKeepsPending(e: Env, w: World, c: Command)
    ensures Apply(e, w, c).pending == w.pending
  {
    hide Addressees, OrderOf;
    if c.kind == BuildCmd && JudgeBuild(w, c).Accepted? {
      var site := w.nextId;
      var w := Simulation.SpawnBuilding(Pay(w, c.owner, BuildingCost(c.auxType)),
                             NewBuilding(site, c.owner, TeamOf(w, c.owner), c.auxType, c.target, c.yaw, true));
      var ids := OwnedIds(w, c.owner, c.unitIds);
      GivePending(e, w, Raising(site), ids, |ids|);
    } else if c.kind != TrainCmd {
      var ids := Addressees(w, c);
      if ids != [] { GivePending(e, w, OrderOf(e, w, c), ids, |ids|); }
    }
  }

  lemma ZeroIsFree(w: World)
    requires WellFormed(w)
    ensures 0 !in w.units && 0 !in w.buildings && 0 !in w.fields && 0 !in w.drops
  {}

  lemma CreditAfter(w: World, id: Id, u: Unit, owner: Uid, raw: nat, amount: nat)
    ensures Touch(Credit(w, owner, raw, amount), id, u) == Credit(Touch(w, id, u), owner, raw, amount)
    ensures forall v :: Resume(Credit(w, owner, raw, amount), v) == Resume(w, v) && Resume(w, v).owner == v.owner
  {}

  lemma ReturnFeasible(e: Env, w: World, u: Unit, dt: real)
    requires u.id in w.units
    ensures Feasible(w, DecideReturn(e, w, u, dt)) && DecideReturn(e, w, u, dt).unit.id == u.id
  {
    hide MoveToward, ChosenDropoff;
  }

  lemma PickupFeasible(e: Env, w: World, u: Unit, dt: real)
    requires u.id in w.units
    ensures Feasible(w, DecidePickup(e, w, u, dt)) && DecidePickup(e, w, u, dt).unit.id == u.id
  {
    hide MoveToward, Sub32;
  }

  lemma ConstructFeasible(e: Env, w: World, u: Unit, dt: real)
    requires u.id in w.units
    ensures Feasible(w, DecideConstruct(e, w, u, dt)) && DecideConstruct(e, w, u, dt).unit.id == u.id
  {
    hide MoveToward;
  }

  lemma CombatFeasible(e: Env, w: World, u: Unit, dt: real)
    requires u.id in w.units
    ensures Feasible(w, DecideCombat(e, w, u, dt)) && DecideCombat(e, w, u, dt).unit.id == u.id
  {
    hide Chase, Gap;
  }

  lemma Overwrite(w: World, id: Id, u: Unit, v: Unit)
    ensures Touch(w.(units := w.units[id := u]), id, v) == Touch(w, id, v)
  {
    assert w.units[id := u][id := v] == w.units[id := v];
  }

  lemma GatherFeasible(e: Env, w: World, u: Unit, dt: real)
    requires u.id in w.units
    ensures Feasible(w, DecideGather(e, w, u, dt)) && DecideGather(e, w, u, dt).unit.id == u.id
  {
    hide Face, MoveToward, Yield;
  }
}
