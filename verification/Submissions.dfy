/**
 Whose commands reach a room (LogicShard.cc, HandlePlayerCommand): the sender owns every command, whatever
 its message says, and nothing else puts commands into a room; so over any run of a shard a unit is
 given orders by nobody but the player it belongs to.
 */
module Submissions {
  import opened Entities
  import opened Simulation
  import opened Laws
  import opened Evolution
  import opened Replication
  import opened Lobby
  import opened Shards
  import opened ShardLaws
  import Bystanders
  import Commands
  import Match

  /** c is what was sent, in the name of uid; a walk along a path ends where the path does. */
  predicate InNameOf(uid: Uid, sent: Command, c: Command) {
    && c.owner == uid && c.kind == sent.kind && c.unitIds == sent.unitIds && c.path == sent.path
    && c.targetEntity == sent.targetEntity && c.auxType == sent.auxType && c.yaw == sent.yaw
    && c.target == (if c.kind == MoveCmd && |c.path| > 0 then c.path[|c.path| - 1] else sent.target)
    && c.clientSeq == (if c.kind in {MoveCmd, StopCmd, AttackCmd} then 0 else sent.clientSeq)
  }

  /** The room a message without a room of its own is about: the one it hints at, else the sender's. */
  function About(s: Shard, uid: Uid, hint: RoomId): RoomId {
    if hint != 0 then hint else if uid in s.uidToRoom then s.uidToRoom[uid] else 0
  }

  /** The sender sits in the room and what it sent can be read. */
  predicate Admissible(s: Shard, uid: Uid, hint: RoomId, payload: Payload) {
    var r := About(s, uid, hint);
    r != 0 && r in s.rooms && uid in s.rooms[r].world.players && payload.Intent?
  }

  /** Room r has one command more than before; nothing else in the shard but the sender's route has changed. */
  ghost predicate OneMore(s: Shard, s': Shard, r: RoomId, c: Command)
    requires r in s.rooms
  {
    var w := s.rooms[r].world;
    s' == s.(rooms := s.rooms[r := s.rooms[r].(world := w.(pending := w.pending + [c]))], routes := s'.routes)
  }

  /** A command of a seated player is queued once, as it was sent but owned by the sender; any other is not queued. */
  lemma CommandQueued(s: Shard, task: Task, chance: Chance)
    requires task.event.PlayerCommand?
    ensures var s', hint, payload := Handle(s, task, chance), task.event.hint, task.event.payload;
            if Admissible(s, task.uid, hint, payload) then
              exists c :: InNameOf(task.uid, payload.command, c) && OneMore(s, s', About(s, task.uid, hint), c)
            else s' == s.(routes := s'.routes)
  {
    var payload := task.event.payload;
    var s1 := Registered(s, task);
    if Admissible(s, task.uid, task.event.hint, payload) {
      var c := Queued(payload.command, task.uid);
      assert InNameOf(task.uid, payload.command, c);
      hide Queued, InNameOf;
      assert s1.log + [] == s1.log;
      assert OneMore(s, Handle(s, task, chance), About(s, task.uid, task.event.hint), c);
    }
  }

  // ---- nothing else queues commands ----

  /** The commands that wait in a room. */
  function Waiting(s: Shard, r: RoomId): seq<Command> {
    if r in s.rooms then s.rooms[r].world.pending else []
  }

  lemma VacateWaiting(s: Shard, uid: Uid, q: RoomId, order: set<nat> -> seq<nat>, r: RoomId)
    requires q in s.rooms
    ensures Waiting(Vacate(s, uid, q, order), r) == if r in Vacate(s, uid, q, order).rooms then Waiting(s, r) else []
  {}

  lemma LeaveAnyWaiting(s: Shard, uid: Uid, order: set<nat> -> seq<nat>, r: RoomId)
    ensures Waiting(LeaveAny(s, uid, order), r) == if r in LeaveAny(s, uid, order).rooms then Waiting(s, r) else []
  {
    hide Vacate;
    if uid in s.uidToRoom && s.uidToRoom[uid] in s.rooms { VacateWaiting(s, uid, s.uidToRoom[uid], order, r); }
  }

  lemma EnterWaiting(room: Room, uid: Uid)
    ensures Enter(room, uid).world.pending == room.world.pending
  {}

  lemma CreateWaiting(s: Shard, uid: Uid, maxPlayers: nat, order: set<nat> -> seq<nat>, r: RoomId)
    ensures Waiting(Create(s, uid, maxPlayers, order), r)
            == if r in Create(s, uid, maxPlayers, order).rooms && r in LeaveAny(s, uid, order).rooms then Waiting(s, r)
               else []
  {
    hide LeaveAny, Enter;
    LeaveAnyWaiting(s, uid, order, r);
    var s1 := LeaveAny(s, uid, order);
    var n := NewRoomId(s1);
    EnterWaiting(if n in s1.rooms then s1.rooms[n] else FreshRoom(n, maxPlayers), uid);
  }

  lemma JoinWaiting(s: Shard, uid: Uid, q: RoomId, order: set<nat> -> seq<nat>, r: RoomId)
    ensures Waiting(Join(s, uid, q, order), r) == if r in Join(s, uid, q, order).rooms then Waiting(s, r) else []
  {
    hide LeaveAny, Enter;
    LeaveAnyWaiting(s, uid, order, r);
    var s1 := if uid in s.uidToRoom && s.uidToRoom[uid] != q then LeaveAny(s, uid, order) else s;
    if q in s1.rooms { EnterWaiting(s1.rooms[q], uid); }
  }

  lemma ReadyWaiting(s: Shard, uid: Uid, room: RoomId, hint: RoomId, ready: bool, chance: Chance, r: RoomId)
    requires ShardOk(s) && Enumerates(chance.order)
    ensures Waiting(Ready(s, uid, room, hint, ready, chance), r) == Waiting(s, r)
  {
    hide ReadyRoom, RoomOk, Annals, Seating, Enumerates;
    var q := Named(s, uid, room, hint);
    if q in s.rooms && uid in s.rooms[q].world.players {
      ShapeAt(s, q);
      ReadyRoomWaiting(s.rooms[q], uid, ready, chance);
    }
  }

  lemma ReadyRoomWaiting(room: Room, uid: Uid, ready: bool, chance: Chance)
    requires RoomOk(room) && uid in room.world.players && Enumerates(chance.order)
    ensures ReadyRoom(room, uid, ready, chance).0.world.pending == room.world.pending
  {
    hide Opening, WellFormed, Vacant, Enumerates;
    var v := SetReady(room.world, uid, ready);
    assert v.players.Keys == room.world.players.Keys;
    if MayStart(room.(world := v)) {
      PlayersWellFormed(room.world, v);
      var uids := chance.order(v.players.Keys);
      assert IsEnumeration(uids, v.players.Keys) by { Each(chance.order, v.players.Keys); }
      OpeningFacts(v, chance.layout, uids);
    }
  }

  lemma Each(enum: set<nat> -> seq<nat>, keys: set<nat>)
    requires Enumerates(enum)
    ensures IsEnumeration(enum(keys), keys)
  {}

  /** Only one room can be new, and no room that was there is. */
  lemma NewRoomIsNew(s: Shard, uid: Uid, maxPlayers: nat, order: set<nat> -> seq<nat>, r: RoomId)
    requires ShardOk(s)
    ensures var s' := Create(s, uid, maxPlayers, order);
            r in s.rooms && r in s'.rooms ==> r in LeaveAny(s, uid, order).rooms
    ensures r !in s.rooms ==> r !in LeaveAny(s, uid, order).rooms
  {
    hide Shape, Annals, Seating, Vacate, Enter;
    NewRoomFree(s);
    SameShard(s, uid, order);
    LeaveAnyRooms(s, uid, order, r);
    hide LeaveAny;
  }

  lemma LeaveAnyRooms(s: Shard, uid: Uid, order: set<nat> -> seq<nat>, r: RoomId)
    ensures r in LeaveAny(s, uid, order).rooms ==> r in s.rooms
  {
    hide RemovePlayer;
  }

  /** No other message adds a command to any room, nor takes one from a room that stays. */
  lemma OthersQueueNothing(s: Shard, task: Task, chance: Chance, r: RoomId)
    requires ShardOk(s) && Enumerates(chance.order) && !task.event.PlayerCommand?
    ensures var s' := Handle(s, task, chance);
            Waiting(s', r) == if r in s.rooms && r in s'.rooms then Waiting(s, r) else []
  {
    hide ShardOk, Create, Join, Vacate, LeaveAny, Ready, Enumerates;
    var s1 := Registered(s, task);
    RoutesOk(s, s1);
    match task.event
    case CreateRoom(n) =>
      CreateWaiting(s1, task.uid, n, chance.order, r);
      NewRoomIsNew(s1, task.uid, n, chance.order, r);
    case JoinRoom(q) => JoinWaiting(s1, task.uid, q, chance.order, r);
    case LeaveRoom(q, hint) =>
      var named := Named(s1, task.uid, q, hint);
      if named in s1.rooms { VacateWaiting(s1, task.uid, named, chance.order, r); }
    case PlayerReady(q, hint, ready) => ReadyWaiting(s1, task.uid, q, hint, ready, chance, r);
    case ClientDisconnected(client) =>
      LeaveAnyWaiting(s1.(routes := Remove(s1.routes, client)), client, chance.order, r);
    case EnterBattle(_, _) =>
    case Unreadable =>
  }

  /** A tick carries out all commands of a room, or leaves them. */
  lemma {:induction false} TicksQueueNothing(s: Shard, ids: seq<RoomId>, envs: RoomId -> Env, r: RoomId)
    ensures var s' := TickRooms(s, ids, envs); Waiting(s', r) == Waiting(s, r) || Waiting(s', r) == []
  {
    hide TickRoom;
    if ids != [] {
      var rest, q := ids[..|ids| - 1], ids[|ids| - 1];
      TicksQueueNothing(s, rest, envs, r);
      TickRoomWaiting(TickRooms(s, rest, envs), q, envs(q), r);
    }
  }

  lemma TickRoomWaiting(s: Shard, q: RoomId, env: Env, r: RoomId)
    ensures var s' := TickRoom(s, q, env); Waiting(s', r) == Waiting(s, r) || Waiting(s', r) == []
  {
    hide Advance, Match.Verdict, Broadcast;
    if q in s.rooms && s.rooms[q].Active() { AdvanceWaiting(s.rooms[q].world, Input(env, [])); }
  }

  lemma AdvanceWaiting(w: World, input: Input)
    ensures Advance(w, input).pending == []
  {
    hide ApplyAll;
    var e := input.env;
    var w1 := TakeRejected(ApplyPending(e, w.(pending := w.pending + input.commands)));
    StepWaiting(e, w1, TICK_SECONDS);
    hide Step;
  }

  lemma StepWaiting(e: Env, w: World, dt: real)
    ensures Step(e, w, dt).pending == w.pending
  {
    hide Turns, Trainings, SweepUnits, SweepBuildings;
    var w0 := NextScan(w);
    var w1 := Turns(e, w0, e.enum(w0.units.Keys), ScanDue(w0), dt);
    TurnsWaiting(e, w0, e.enum(w0.units.Keys), ScanDue(w0), dt);
    TrainingsWaiting(e, w1, e.enum(w1.buildings.Keys), dt);
    var w2 := Trainings(e, w1, e.enum(w1.buildings.Keys), dt);
    SweepsWaiting(w2, e.enum(w2.units.Keys));
    var w3 := SweepUnits(w2, e.enum(w2.units.Keys));
    SweepsWaiting(w3, e.enum(w3.buildings.Keys));
  }

  lemma CommitWaiting(w: World, o: Outcome)
    requires Feasible(w, o)
    ensures Commit(w, o).pending == w.pending
  {
    hide Wound, Raised, Remove, ResourceOf, Ledger.Add, Audit.Forfeit, HurtUnit, HurtBuilding, RaiseSite;
    if o.effect.HitUnit? || o.effect.HitBuilding? || o.effect.Raise? { BlowWaiting(w, o); }
  }

  lemma BlowWaiting(w: World, o: Outcome)
    requires Feasible(w, o)
    ensures forall v | v in w.units :: HurtUnit(Touch(w, o.unit.id, o.unit), v).pending == w.pending
    ensures forall v | v in w.buildings :: HurtBuilding(Touch(w, o.unit.id, o.unit), v).pending == w.pending
    ensures forall v, gain | v in w.buildings :: RaiseSite(Touch(w, o.unit.id, o.unit), v, gain).pending == w.pending
  {}

  lemma TurnWaiting(e: Env, w: World, id: Id, scan: bool, dt: real)
    ensures Turn(e, w, id, scan, dt).pending == w.pending
  {
    hide Commit, Alert, Decide, CoolDown;
    if id in w.units && w.units[id].hp > 0.0 {
      var w1 := Cool(w, id, dt);
      var a := Alert(e, w1, w1.units[id]);
      if a.React? && Feasible(w1, a.outcome) { CommitWaiting(w1, a.outcome); }
      var w2 := if scan then Settle(w1, a) else w1;
      if id in w2.units {
        var d := Decide(e, w2, w2.units[id], dt);
        if d.React? && Feasible(w2, d.outcome) { CommitWaiting(w2, d.outcome); }
      }
    }
  }

  lemma {:induction false} TurnsWaiting(e: Env, w: World, ids: seq<Id>, scan: bool, dt: real)
    ensures Turns(e, w, ids, scan, dt).pending == w.pending
  {
    hide Turn;
    if ids != [] {
      TurnsWaiting(e, w, ids[..|ids| - 1], scan, dt);
      TurnWaiting(e, Turns(e, w, ids[..|ids| - 1], scan, dt), ids[|ids| - 1], scan, dt);
    }
  }

  lemma {:induction false} TrainingsWaiting(e: Env, w: World, ids: seq<Id>, dt: real)
    ensures Trainings(e, w, ids, dt).pending == w.pending
  {
    hide Recruit;
    if ids != [] { TrainingsWaiting(e, w, ids[..|ids| - 1], dt); }
  }

  lemma {:induction false} SweepsWaiting(w: World, ids: seq<Id>)
    ensures SweepUnits(w, ids).pending == w.pending && SweepBuildings(w, ids).pending == w.pending
  {
    hide Remove;
    if ids != [] { SweepsWaiting(w, ids[..|ids| - 1]); }
  }

  // ---- whole runs ----

  /** The happening is the arrival of this command, sent by the player who owns it. */
  predicate Sends(h: Happening, c: Command) {
    && h.Arrives? && h.task.event.PlayerCommand? && h.task.event.payload.Intent?
    && h.task.uid == c.owner && InNameOf(h.task.uid, h.task.event.payload.command, c)
  }

  lemma HappeningQueues(s: Shard, h: Happening, r: RoomId, c: Command)
    requires ShardOk(s) && WalksOnce([h]) && c in Waiting(After(s, h), r)
    ensures c in Waiting(s, r) || Sends(h, c)
  {
    hide ShardOk, Handle, TickRooms, InNameOf, OneMore, Admissible, Enumerates;
    assert [h][0] == h;
    match h
    case Ticks(envs, order) => TicksQueueNothing(s, order(s.rooms.Keys), envs, r);
    case Arrives(task, chance) =>
      if task.event.PlayerCommand? {
        CommandQueued(s, task, chance);
        var hint, payload := task.event.hint, task.event.payload;
        if Admissible(s, task.uid, hint, payload) {
          AdmissibleRoom(s, task.uid, hint, payload);
          var d :| InNameOf(task.uid, payload.command, d)
                   && OneMore(s, Handle(s, task, chance), About(s, task.uid, hint), d);
          OneMoreWaiting(s, Handle(s, task, chance), About(s, task.uid, hint), d, r, c);
          if c == d { OwnerIs(task.uid, payload.command, d); }
        }
      } else {
        OthersQueueNothing(s, task, chance, r);
      }
  }

  lemma AdmissibleRoom(s: Shard, uid: Uid, hint: RoomId, payload: Payload)
    requires Admissible(s, uid, hint, payload)
    ensures About(s, uid, hint) in s.rooms && payload.Intent?
  {}

  lemma OwnerIs(uid: Uid, sent: Command, c: Command)
    requires InNameOf(uid, sent, c)
    ensures c.owner == uid
  {}

  lemma OneMoreWaiting(s: Shard, s': Shard, q: RoomId, d: Command, r: RoomId, c: Command)
    requires q in s.rooms && OneMore(s, s', q, d) && c in Waiting(s', r)
    ensures c in Waiting(s, r) || c == d
  {}

  /** Every command that waits in a room was sent by its owner in this run, or waited from the start. */
  lemma {:induction false} WaitingWasSent(s: Shard, hs: seq<Happening>, r: RoomId, c: Command)
    requires ShardOk(s) && WalksOnce(hs) && c in Waiting(AfterAll(s, hs), r)
    ensures c in Waiting(s, r) || exists i :: 0 <= i < |hs| && Sends(hs[i], c)
  {
    hide ShardOk, After, Sends, Enumerates, Waiting;
    if hs != [] {
      var rest, h := hs[..|hs| - 1], hs[|hs| - 1];
      assert forall i | 0 <= i < |rest| :: rest[i] == hs[i];
      ShardInvariant(s, rest);
      HappeningQueues(AfterAll(s, rest), h, r, c);
      if !Sends(h, c) { WaitingWasSent(s, rest, r, c); }
    }
    hide AfterAll;
  }

  /**
   Whatever happens on a shard, in any room and at any moment: if the commands about to be carried out
   change a unit in any way, then one of them names that unit, and the player whose unit it is has sent it
   during the run (or it was waiting when the run began).
   */
  lemma OrdersComeFromOwner(s: Shard, hs: seq<Happening>, r: RoomId, env: Env, id: Id) returns (c: Command)
    requires ShardOk(s) && WalksOnce(hs) && r in AfterAll(s, hs).rooms
    requires var w := AfterAll(s, hs).rooms[r].world;
             id in w.units && (id !in ApplyPending(env, w).units || ApplyPending(env, w).units[id] != w.units[id])
    ensures var u := AfterAll(s, hs).rooms[r].world.units[id];
            && c.owner == u.owner && id in c.unitIds
            && (c in Waiting(s, r) || exists i :: 0 <= i < |hs| && Sends(hs[i], c))
  {
    hide ShardOk, AfterAll, Sends, Enumerates, ApplyAll, WellFormed;
    ShardInvariant(s, hs);
    var w := AfterAll(s, hs).rooms[r].world;
    RoomIsWellFormed(AfterAll(s, hs), r);
    if forall d | d in w.pending :: !Commands.Addressed(w, d, id) { Commands.BatchLeaves(env, w, w.pending, id); }
    c :| c in w.pending && Commands.Addressed(w, c, id);
    WaitingWasSent(s, hs, r, c);
  }

  lemma RoomIsWellFormed(s: Shard, r: RoomId)
    requires ShardOk(s) && r in s.rooms
    ensures WellFormed(s.rooms[r].world)
  {
    hide Annals, Seating;
    ShapeAt(s, r);
    hide WellFormed;
  }

  // ---- where replies go ----

  /** A player's task makes its origin the player's route; a disconnect takes the client's away; all else stays. */
  lemma RouteRecorded(s: Shard, task: Task, chance: Chance)
    ensures var known := if task.uid == 0 then s.routes else s.routes[task.uid := task.origin];
            Handle(s, task, chance).routes
            == if task.event.ClientDisconnected? && task.event.client != 0 then known - {task.event.client} else known
  {
    hide LeaveAny, Vacate, Enter, ReadyRoom;
    var s1 := Registered(s, task);
    LeaveAnyRoutes(s1, task.uid, chance.order);
    match task.event
    case LeaveRoom(q, hint) =>
      var named := Named(s1, task.uid, q, hint);
      if named in s1.rooms { VacateRoutes(s1, task.uid, named, chance.order); }
    case ClientDisconnected(client) =>
      LeaveAnyRoutes(s1.(routes := Remove(s1.routes, client)), client, chance.order);
    case _ =>
  }

  lemma VacateRoutes(s: Shard, uid: Uid, r: RoomId, order: set<nat> -> seq<nat>)
    requires r in s.rooms
    ensures Vacate(s, uid, r, order).routes == s.routes
  {
    hide RemovePlayer;
  }
}
