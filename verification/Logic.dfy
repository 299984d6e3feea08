/**
 The logic shard itself (LogicShard.cc): one object that owns its rooms and updates its indexes in
 place. Each handler is proved to do exactly what module Shards specifies.
 */
module Logic {
  import opened Entities
  import opened Simulation
  import opened Laws
  import opened Evolution
  import opened Replication
  import opened Match
  import Lobby
  import opened Shards
  import opened ShardLaws
  import opened Rooms
  import opened Broadcasts

  class LogicShard {
    const shardId: nat
    const shardCount: nat
    var nextRoomId: nat
    var rooms: map<RoomId, DungeonRoom>
    var uidToRoom: map<Uid, RoomId>
    var routes: map<Uid, Route>
    ghost var log: seq<Entry>

    ghost function Records(): map<RoomId, Room>
      reads this`rooms, rooms.Values
    {
      map r | r in rooms :: rooms[r].Record()
    }

    ghost function State(): Shard
      reads this, rooms.Values
    {
      Shard(shardId, shardCount, nextRoomId, Records(), uidToRoom, routes, log)
    }

    /** No room object serves two ids. */
    ghost predicate Apart()
      reads this`rooms
    {
      forall r, q | r in rooms && q in rooms && r != q :: rooms[r] != rooms[q]
    }

    constructor (shardId: nat, shardCount: nat)
      ensures State() == EmptyShard(shardId, shardCount) && Apart() && rooms == map[]
    {
      this.shardId, this.shardCount := shardId, if shardCount == 0 then 1 else shardCount;
      nextRoomId, rooms, uidToRoom, routes, log := 1, map[], map[], map[], [];
    }

    // ---- one room at a time ----

    /** A change to the object of one room changes the record of that room only. */
    twostate lemma OnlyRoom(r: RoomId)
      requires r in rooms && rooms == old(rooms) && Apart()
      requires forall q | q in rooms && q != r :: unchanged(rooms[q])
      ensures Records() == old(Records())[r := rooms[r].Record()]
    {
      forall q | q in rooms && q != r ensures rooms[q].Record() == old(rooms[q].Record()) {}
    }

    method UnseatIn(r: RoomId, uid: Uid)
      requires Apart() && r in rooms
      modifies rooms[r]
      ensures var was := old(Records()[r]);
              Records() == old(Records())[r := was.(world := Lobby.RemovePlayer(was.world, uid))]
    {
      hide Lobby.RemovePlayer, Records;
      RecordOf(r);
      var gone := rooms[r].RemovePlayer(uid);
      OnlyRoom(r);
    }

    method EndGame(r: RoomId, winner: nat)
      requires Apart() && r in rooms && rooms[r].roomId == r
      modifies rooms[r], this`log
      ensures Records() == old(Records())[r := old(Records()[r]).(over := true)]
      ensures log == old(log) + [GameOver(r, old(Records()[r]).tick, winner)]
    {
      log := log + [GameOver(r, rooms[r].serverTick, winner)];
      rooms[r].over := true;
      OnlyRoom(r);
    }

    method EraseRoom(r: RoomId)
      requires Apart()
      modifies this`rooms
      ensures Records() == Remove(old(Records()), r) && Apart() && rooms.Values <= old(rooms.Values)
    {
      hide DungeonRoom.Record, DungeonRoom.State;
      rooms := Remove(rooms, r);
      assert forall q | q in rooms :: rooms[q].Record() == old(Records())[q];
    }

    lemma RecordOf(r: RoomId)
      requires r in rooms
      ensures r in Records() && Records()[r] == rooms[r].Record()
    {}

    lemma FieldsOf(r: RoomId)
      requires r in rooms
      ensures r in Records()
      ensures var room, record := rooms[r], Records()[r];
              && record.id == room.roomId && record.maxPlayers == room.maxPlayers && record.tick == room.serverTick
              && record.started == room.started && record.over == room.over
              && record.world == room.State() && record.world.players == room.players
    {}

    lemma NoRecord(r: RoomId)
      ensures r in Records() <==> r in rooms
    {}

    // ---- leaving ----

    /** The tail of LeaveRoomInternal and HandleLeaveRoom. */
    method VacateRoom(uid: Uid, r: RoomId, order: set<nat> -> seq<nat>)
      requires Apart() && r in rooms && rooms[r].roomId == r && Enumerates(order)
      modifies this`rooms, this`uidToRoom, this`log, rooms[r]
      ensures State() == Vacate(old(State()), uid, r, order)
      ensures Apart() && rooms.Values <= old(rooms.Values)
    {
      hide Lobby.RemovePlayer, LeaveWinner, Vacate, Enumerates, Records, DungeonRoom.Record, DungeonRoom.State, Apart;
      FieldsOf(r);
      ghost var s := State();
      var wasActive := rooms[r].started && !rooms[r].over;
      uidToRoom := Remove(uidToRoom, uid);
      UnseatIn(r, uid);
      FieldsOf(r);
      if rooms[r].players == map[] {
        VacateEmpties(s, uid, r, order);
        ghost var unseated := Records()[r];
        EraseRoom(r);
        assert Remove(s.rooms[r := unseated], r) == Remove(s.rooms, r);
        return;
      }
      VacateStays(s, uid, r, order);
      if wasActive {
        var winner := FirstTeam(rooms[r], order);
        UpdateTwice(s.rooms, r, Records()[r], Records()[r].(over := true));
        EndGame(r, winner);
      } else {
        assert log + [] == log;
      }
    }

    method FirstTeam(room: DungeonRoom, order: set<nat> -> seq<nat>) returns (team: nat)
      ensures team == LeaveWinner(room.State(), order)
    {
      var left := order(room.players.Keys);
      team := 0;
      if left != [] && left[0] in room.players {
        team := room.players[left[0]].team;
      }
    }

    method LeaveRoomInternal(uid: Uid, order: set<nat> -> seq<nat>)
      requires ShardOk(State()) && Apart() && Enumerates(order)
      modifies this`rooms, this`uidToRoom, this`log, rooms.Values
      ensures State() == LeaveAny(old(State()), uid, order)
      ensures Apart() && rooms.Values <= old(rooms.Values)
    {
      hide Vacate, Enumerates, Shape, Seating, Annals, RoomOk, Records;
      if uid !in uidToRoom {
        return;
      }
      var r := uidToRoom[uid];
      if r !in rooms {
        NoRecord(r);
        uidToRoom := Remove(uidToRoom, uid);
        return;
      }
      RecordOf(r);
      ShapeAt(State(), r);
      VacateRoom(uid, r, order);
    }

    // ---- creating and joining ----

    method OpenRoom(r: RoomId, maxPlayers: nat)
      requires Apart() && r !in rooms
      modifies this`rooms
      ensures Records() == old(Records())[r := FreshRoom(r, maxPlayers)]
      ensures Apart() && r in rooms && fresh(rooms[r]) && rooms.Values <= old(rooms.Values) + {rooms[r]}
    {
      hide DungeonRoom.Record, DungeonRoom.State;
      ghost var before := Records();
      var room := new DungeonRoom(r, Lobby.NormalizeMaxPlayers(maxPlayers));
      rooms := rooms[r := room];
      forall q | q in rooms ensures rooms[q].Record() == before[r := FreshRoom(r, maxPlayers)][q] {}
    }

    method SeatIn(r: RoomId, uid: Uid) returns (ok: bool, team: nat)
      requires Apart() && r in rooms
      modifies rooms[r]
      ensures Records() == old(Records())[r := Enter(old(Records())[r], uid)]
      ensures ok == old(Lobby.AddPlayer(Records()[r].world, uid, Records()[r].maxPlayers)).Seated?
    {
      hide Lobby.AddPlayer, Enter;
      RecordOf(r);
      ok, team := rooms[r].AddPlayer(uid);
      OnlyRoom(r);
    }

    /** A new room with its creator in it. */
    method OpenRoomFor(r: RoomId, maxPlayers: nat, uid: Uid)
      requires Apart() && r !in rooms
      modifies this`rooms
      ensures Records() == old(Records())[r := Enter(FreshRoom(r, maxPlayers), uid)]
      ensures Apart() && r in rooms && fresh(rooms[r]) && rooms.Values <= old(rooms.Values) + {rooms[r]}
    {
      hide Records, Enter, FreshRoom, DungeonRoom.Record, Apart;
      ghost var before := Records();
      OpenRoom(r, maxPlayers);
      var ok, team := SeatIn(r, uid);
      UpdateTwice(before, r, FreshRoom(r, maxPlayers), Enter(FreshRoom(r, maxPlayers), uid));
    }

    method HandleCreateRoom(uid: Uid, maxPlayers: nat, order: set<nat> -> seq<nat>)
      requires ShardOk(State()) && Apart() && Enumerates(order)
      modifies this, rooms.Values
      ensures State() == Create(old(State()), uid, maxPlayers, order)
      ensures Apart() && fresh(rooms.Values - old(rooms.Values))
    {
      hide Records, Enter, FreshRoom, LeaveAny, Create, ShardOk, Enumerates, Apart, DungeonRoom.Record;
      NewRoomUnused(State(), uid, order);
      CreateIs(State(), uid, maxPlayers, order);
      LeaveRoomInternal(uid, order);
      var r := shardId + shardCount * nextRoomId;
      NoRecord(r);
      nextRoomId := nextRoomId + 1;
      OpenRoomFor(r, maxPlayers, uid);
      uidToRoom := uidToRoom[uid := r];
    }

    method HandleJoinRoom(uid: Uid, r: RoomId, order: set<nat> -> seq<nat>)
      requires ShardOk(State()) && Apart() && Enumerates(order)
      modifies this, rooms.Values
      ensures State() == Join(old(State()), uid, r, order)
      ensures Apart() && rooms.Values <= old(rooms.Values)
    {
      hide Records, Enter, LeaveAny, ShardOk, Enumerates, Apart, DungeonRoom.Record, Lobby.AddPlayer;
      if uid in uidToRoom && uidToRoom[uid] != r {
        LeaveRoomInternal(uid, order);
      }
      NoRecord(r);
      if r !in rooms {
        return;
      }
      ghost var before := Records();
      var ok, team := SeatIn(r, uid);
      if !ok {
        EnterFull(before[r], uid);
        assert before[r := before[r]] == before;
        return;
      }
      uidToRoom := uidToRoom[uid := r];
      assert log + [] == log;
    }

    method HandleLeaveRoom(uid: Uid, room: RoomId, hint: RoomId, order: set<nat> -> seq<nat>)
      requires ShardOk(State()) && Apart() && Enumerates(order)
      modifies this, rooms.Values
      ensures State() == Leave(old(State()), uid, room, hint, order)
      ensures Apart() && rooms.Values <= old(rooms.Values)
    {
      hide Records, Vacate, Enumerates, Apart, DungeonRoom.Record, Shape, Seating, Annals, RoomOk;
      var r := ResolveRoom(uid, room, hint);
      NoRecord(r);
      if r !in rooms {
        return;
      }
      FieldsOf(r);
      ShapeAt(State(), r);
      if uid !in rooms[r].players {
        return;
      }
      VacateRoom(uid, r, order);
    }

    /** The room a request names, or the envelope, or else the one the player is in. */
    method ResolveRoom(uid: Uid, room: RoomId, hint: RoomId) returns (r: RoomId)
      ensures r == Named(State(), uid, room, hint)
    {
      r := room;
      if r == 0 {
        r := hint;
        if r == 0 && uid in uidToRoom {
          r := uidToRoom[uid];
        }
      }
    }

    method HandleClientDisconnected(client: Uid, order: set<nat> -> seq<nat>)
      requires ShardOk(State()) && Apart() && Enumerates(order)
      modifies this, rooms.Values
      ensures State() == Disconnect(old(State()), client, order)
      ensures Apart() && rooms.Values <= old(rooms.Values)
    {
      hide Records, LeaveAny, Enumerates, Apart, ShardOk;
      if client == 0 {
        return;
      }
      RoutesOk(State(), State().(routes := Remove(routes, client)));
      routes := Remove(routes, client);
      LeaveRoomInternal(client, order);
    }

    // ---- commands ----

    method EnqueueIn(r: RoomId, c: Command)
      requires Apart() && r in rooms
      modifies rooms[r]
      ensures Records() == old(Records())[r := Enqueued(old(Records())[r], c)]
    {
      hide Records;
      RecordOf(r);
      rooms[r].EnqueueCommand(c);
      OnlyRoom(r);
    }

    method HandlePlayerCommand(uid: Uid, hint: RoomId, payload: Payload)
      requires Apart()
      modifies this, rooms.Values
      ensures State() == Submit(old(State()), uid, hint, payload) && rooms == old(rooms)
    {
      hide Records, DungeonRoom.Record, Queued, Enqueued, Apart;
      var r := ResolveRoom(uid, 0, hint);
      NoRecord(r);
      if r == 0 || r !in rooms {
        return;
      }
      FieldsOf(r);
      if uid !in rooms[r].players {
        return;
      }
      match payload
      case Intent(command) =>
        EnqueueIn(r, Queued(command, uid));
        assert log + [] == log;
      case _ =>
    }

    // ---- starting a match ----

    method SetReadyIn(r: RoomId, uid: Uid, ready: bool)
      requires Apart() && r in rooms && uid in rooms[r].players
      modifies rooms[r]
      ensures var was := old(Records()[r]);
              uid in was.world.players
              && Records() == old(Records())[r := was.(world := Lobby.SetReady(was.world, uid, ready))]
    {
      hide Records;
      RecordOf(r);
      var ok := rooms[r].SetReady(uid, ready);
      OnlyRoom(r);
    }

    /** Initial map, starting resources, and the baseline snapshot everyone starts from. */
    method StartIn(r: RoomId, chance: Chance)
      requires Apart() && r in rooms && rooms[r].roomId == r && Enumerates(chance.order)
      modifies rooms[r], this`log
      ensures var was := old(Records()[r]);
              var w := Lobby.Opening(was.world, chance.layout, chance.order(was.world.players.Keys));
              && Records() == old(Records())[r := was.(started := true, world := ClearMarks(w))]
              && log == old(log) + [GameStart(r, was.tick), Frame(r, was.tick, [Snapshot(ViewOf(w))])]
    {
      hide Records, Enumerates, Lobby.Opening, ViewOf, ClearMarks;
      RecordOf(r);
      ghost var was := rooms[r].Record();
      ghost var w;
      var baseline;
      w, baseline := StartRoom(rooms[r], chance);
      log := log + [GameStart(r, was.tick), Frame(r, was.tick, [baseline])];
      OnlyRoom(r);
    }

    method HandlePlayerReady(uid: Uid, room: RoomId, hint: RoomId, ready: bool, chance: Chance)
      requires ShardOk(State()) && Apart() && Enumerates(chance.order)
      modifies this, rooms.Values
      ensures State() == Ready(old(State()), uid, room, hint, ready, chance) && rooms == old(rooms)
    {
      hide Records, Shape, Seating, Annals, RoomOk, Enumerates, Apart, DungeonRoom.Record, DungeonRoom.State,
           Lobby.Opening, Lobby.AllReady, Lobby.SetReady, ViewOf, Ready, ClearMarks;
      var r := ResolveRoom(uid, room, hint);
      NoRecord(r);
      ghost var s := State();
      if r !in rooms {
        ReadyNobody(s, uid, room, hint, ready, chance);
        return;
      }
      FieldsOf(r);
      ShapeAt(s, r);
      if uid !in rooms[r].players {
        ReadyNobody(s, uid, room, hint, ready, chance);
        return;
      }
      ReadyIs(s, uid, room, hint, ready, chance);
      SetReadyIn(r, uid, ready);
      FieldsOf(r);
      var all := rooms[r].AllReady(chance.order);
      if |rooms[r].players| >= rooms[r].maxPlayers && all && !rooms[r].started {
        StartIn(r, chance);
        UpdateTwice(s.rooms, r, s.rooms[r].(world := Lobby.SetReady(s.rooms[r].world, uid, ready)), Records()[r]);
      }
    }

    // ---- the tick ----

    /** One active room: commands, one step, a frame to everyone, and perhaps the end. */
    method TickIn(r: RoomId, env: Env, order: set<nat> -> seq<nat>)
      requires Apart() && r in rooms && rooms[r].roomId == r && WellFormed(rooms[r].State())
      requires Enumerates(env.enum) && Enumerates(order)
      modifies rooms[r], this`log
      ensures var (now, said) := Ticked(old(Records()[r]), env);
              Records() == old(Records())[r := now] && log == old(log) + said
    {
      hide Records, Enumerates, WellFormed, Ticked;
      RecordOf(r);
      ghost var said := TickRoomOnce(rooms[r], env, order);
      log := log + said;
      OnlyRoom(r);
    }

    method TickRooms(envs: RoomId -> Env, order: set<nat> -> seq<nat>)
      requires ShardOk(State()) && Apart() && Enumerates(order) && forall r :: Enumerates(envs(r).enum)
      modifies this`log, rooms.Values
      ensures State() == Shards.TickRooms(old(State()), order(old(State()).rooms.Keys), envs)
      ensures ShardOk(State())
    {
      hide Records, Enumerates, ShardOk, Apart, TickRoom, DungeonRoom.Record;
      ghost var s := State();
      SameKeys();
      var ids := order(rooms.Keys);
      for i := 0 to |ids|
        invariant State() == Shards.TickRooms(s, ids[..i], envs) && ShardOk(State())
      {
        assert ids[..i + 1][..i] == ids[..i];
        TickRoomOk(State(), ids[i], envs(ids[i]));
        TickIfActive(ids[i], envs(ids[i]), order);
      }
      assert ids[..|ids|] == ids;
    }

    lemma SameKeys()
      ensures Records().Keys == rooms.Keys
    {}

    method TickIfActive(r: RoomId, env: Env, order: set<nat> -> seq<nat>)
      requires ShardOk(State()) && Apart() && Enumerates(order) && Enumerates(env.enum)
      modifies this`log, rooms.Values
      ensures State() == TickRoom(old(State()), r, env)
    {
      hide Records, Enumerates, Seating, Annals, Shape, Apart, RoomOk, TickRoom, DungeonRoom.Record, DungeonRoom.State,
           WellFormed;
      ghost var s := State();
      NoRecord(r);
      if r !in rooms {
        TickIdle(s, r, env);
        return;
      }
      FieldsOf(r);
      if !rooms[r].started || rooms[r].over {
        TickIdle(s, r, env);
        return;
      }
      ShapeAt(s, r);
      RoomWellFormed(s.rooms[r]);
      TickActive(s, r, env);
      TickIn(r, env, order);
    }

    method HandleTask(task: Task, chance: Chance)
      requires ShardOk(State()) && Apart() && Enumerates(chance.order)
      modifies this, rooms.Values
      ensures State() == Handle(old(State()), task, chance)
      ensures ShardOk(State()) && Apart() && fresh(rooms.Values - old(rooms.Values))
    {
      hide Records, Enumerates, ShardOk, Apart, Create, Join, Leave, Ready, Submit, Disconnect;
      HandleOk(State(), task, chance);
      RoutesOk(State(), Registered(State(), task));
      if task.uid != 0 {
        routes := routes[task.uid := task.origin];
      }
      match task.event
      case CreateRoom(n) => HandleCreateRoom(task.uid, n, chance.order);
      case JoinRoom(r) => HandleJoinRoom(task.uid, r, chance.order);
      case LeaveRoom(r, hint) => HandleLeaveRoom(task.uid, r, hint, chance.order);
      case PlayerReady(r, hint, ready) => HandlePlayerReady(task.uid, r, hint, ready, chance);
      case PlayerCommand(hint, payload) => HandlePlayerCommand(task.uid, hint, payload);
      case ClientDisconnected(client) => HandleClientDisconnected(client, chance.order);
      case EnterBattle(_, _) =>
      case Unreadable =>
    }
  }

  lemma RoomWellFormed(room: Room)
    requires RoomOk(room)
    ensures WellFormed(room.world)
  {}

  lemma TickIdle(s: Shard, r: RoomId, env: Env)
    requires r !in s.rooms || !s.rooms[r].Active()
    ensures TickRoom(s, r, env) == s
  {
    hide Advance, Broadcast, Match.Verdict;
  }

  lemma TickActive(s: Shard, r: RoomId, env: Env)
    requires r in s.rooms && s.rooms[r].Active() && s.rooms[r].id == r
    ensures TickRoom(s, r, env) == PutRoom(s, r, Ticked(s.rooms[r], env).0, Ticked(s.rooms[r], env).1)
  {
    hide Advance, Broadcast, Match.Verdict;
  }

  /** Commands, one step, a frame to everyone, and perhaps the end; said is what was announced. */
  method TickRoomOnce(room: DungeonRoom, env: Env, order: set<nat> -> seq<nat>) returns (ghost said: seq<Entry>)
    requires WellFormed(room.State()) && Enumerates(env.enum) && Enumerates(order)
    modifies room
    ensures (room.Record(), said) == Ticked(old(room.Record()), env)
  {
    hide Enumerates, Broadcast, Match.Verdict, Advance, ClearMarks, ViewOf, DeltaMessages;
    AdvanceRoom(room, env);
    ghost var w := room.State();
    room.serverTick := room.serverTick + 1;
    assert room.State() == w;
    var messages := SendFrame(room, order);
    said := [Frame(room.roomId, room.serverTick, messages)];
    room.ClearFrameChanges();
    var won, winner := room.CheckGameOver(order);
    room.over := won;
    assert room.State() == ClearMarks(w);
    assert said + [] == said;
    if won {
      said := said + [GameOver(room.roomId, room.serverTick, winner)];
    }
  }

  /** A full snapshot every twentieth tick, a delta otherwise. */
  method SendFrame(room: DungeonRoom, order: set<nat> -> seq<nat>) returns (messages: seq<Message>)
    requires Enumerates(order)
    ensures messages == Broadcast(room.State(), room.serverTick)
  {
    hide Enumerates, ViewOf, DeltaMessages;
    if room.serverTick % SNAPSHOT_INTERVAL == 0 {
      var snapshot := SendFullSnapshot(room, order);
      messages := [snapshot];
    } else {
      messages := SendDelta(room, order);
    }
  }

  method AdvanceRoom(room: DungeonRoom, env: Env)
    requires WellFormed(room.State()) && Enumerates(env.enum)
    modifies room`ledgers, room`nextId, room`units, room`buildings, room`fields, room`drops, room`scanTick,
             room`marks, room`pending, room`rejected, room`audit
    ensures room.State() == Advance(old(room.State()), Input(env, []))
  {
    hide Enumerates, WellFormed, Simulation.ApplyPending, Simulation.Step;
    SamePending(room.State());
    room.ApplyPending(env);
    QueuesKeep(room.State(), Replication.TakeRejected(room.State()));
    var refused := room.TakeRejected();
    room.Step(env, TICK_SECONDS);
  }

  /** Start the match; baseline is the snapshot everyone gets first. */
  method StartRoom(room: DungeonRoom, chance: Chance) returns (ghost w: World, baseline: Message)
    requires Enumerates(chance.order)
    modifies room
    ensures baseline == Snapshot(ViewOf(w))
    ensures w == Lobby.Opening(old(room.State()), chance.layout, chance.order(old(room.players.Keys)))
    ensures room.Record() == old(room.Record()).(started := true, world := ClearMarks(w))
  {
    hide Enumerates, Lobby.Bases, Begin, ViewOf;
    room.started := true;
    SpawnInitialUnits(room, chance);
    room.BeginBattle(chance.order);
    w := room.State();
    baseline := SendFullSnapshot(room, chance.order);
    room.ClearFrameChanges();
  }

  /** The initial map of a room, base by base. */
  method SpawnInitialUnits(room: DungeonRoom, chance: Chance)
    requires Enumerates(chance.order)
    modifies room`nextId, room`units, room`buildings, room`fields, room`marks
    ensures room.State() == Lobby.Bases(old(room.State()), chance.layout, chance.order(old(room.players.Keys)))
  {
    hide Lobby.Base, Enumerates;
    ghost var w := room.State();
    var uids := chance.order(room.players.Keys);
    for i := 0 to |uids|
      invariant room.State() == Lobby.Bases(w, chance.layout, uids[..i])
    {
      assert uids[..i + 1][..i] == uids[..i];
      if uids[i] in room.players {
        SpawnBase(room, chance.layout, room.players[uids[i]]);
      }
    }
    assert uids[..|uids|] == uids;
  }

  method SpawnBase(room: DungeonRoom, l: Lobby.Layout, p: Player)
    modifies room`nextId, room`units, room`buildings, room`fields, room`marks
    ensures room.State() == Lobby.Base(old(room.State()), l, p)
  {
    hide NewBuilding, Lobby.Villagers, Lobby.Deposits;
    var crystal := room.SpawnBuilding(p.uid, p.team, CRYSTAL, l.crystal(p.team), l.yaw(p.team), false);
    SpawnVillagers(room, l, p);
    SpawnDeposits(room, l, p);
  }

  method SpawnVillagers(room: DungeonRoom, l: Lobby.Layout, p: Player)
    modifies room`nextId, room`units, room`marks
    ensures room.State() == Lobby.Villagers(old(room.State()), l, p, Lobby.START_UNITS)
  {
    hide NewUnit;
    ghost var w := room.State();
    for i := 0 to Lobby.START_UNITS
      invariant room.State() == Lobby.Villagers(w, l, p, i)
    {
      var id := room.SpawnUnit(p.uid, p.team, VILLAGER, l.villager(p.team, i), Lobby.UNIT_HP, MOVE_SPEED,
                               l.yaw(p.team));
    }
  }

  method SpawnDeposits(room: DungeonRoom, l: Lobby.Layout, p: Player)
    modifies room`nextId, room`fields, room`marks
    ensures room.State() == Lobby.Deposits(old(room.State()), l, p, |Lobby.START_FIELDS|)
  {
    ghost var w := room.State();
    for i := 0 to |Lobby.START_FIELDS|
      invariant room.State() == Lobby.Deposits(w, l, p, i)
    {
      var patch := Lobby.START_FIELDS[i];
      var id := room.SpawnResourceField(patch.raw, l.field(p.team, i), patch.amount);
    }
  }

  lemma SamePending(w: World)
    ensures w.(pending := w.pending + []) == w
  {}

  lemma ReadyNobody(s: Shard, uid: Uid, room: RoomId, hint: RoomId, ready: bool, chance: Chance)
    requires var r := Named(s, uid, room, hint); r !in s.rooms || uid !in s.rooms[r].world.players
    ensures Ready(s, uid, room, hint, ready, chance) == s
  {
    hide ReadyRoom;
  }

  lemma ReadyIs(s: Shard, uid: Uid, room: RoomId, hint: RoomId, ready: bool, chance: Chance)
    requires var r := Named(s, uid, room, hint); r in s.rooms && uid in s.rooms[r].world.players && s.rooms[r].id == r
    ensures var r := Named(s, uid, room, hint);
            var seated := s.rooms[r].(world := Lobby.SetReady(s.rooms[r].world, uid, ready));
            var w := Lobby.Opening(seated.world, chance.layout, chance.order(seated.world.players.Keys));
            Ready(s, uid, room, hint, ready, chance)
            == if !MayStart(seated) then s.(rooms := s.rooms[r := seated])
               else s.(rooms := s.rooms[r := seated.(started := true, world := ClearMarks(w))],
                       log := s.log + [GameStart(r, seated.tick), Frame(r, seated.tick, [Snapshot(ViewOf(w))])])
  {
    hide Lobby.Opening, ViewOf, Lobby.SetReady, Lobby.AllReady;
    assert s.log + [] == s.log;
  }

  lemma EnterFull(room: Room, uid: Uid)
    requires Lobby.AddPlayer(room.world, uid, room.maxPlayers).RoomFull?
    ensures Enter(room, uid) == room
  {}

  lemma NewRoomUnused(s: Shard, uid: Uid, order: set<nat> -> seq<nat>)
    requires ShardOk(s)
    ensures NewRoomId(LeaveAny(s, uid, order)) !in LeaveAny(s, uid, order).rooms
  {
    hide Shape, Seating, Annals, LeaveAny;
    LeaveAnyOk(s, uid, order);
    NewRoomFree(LeaveAny(s, uid, order));
  }

  lemma UpdateTwice<V>(m: map<nat, V>, k: nat, v: V, v': V)
    ensures m[k := v][k := v'] == m[k := v']
  {}

  lemma CreateIs(s: Shard, uid: Uid, maxPlayers: nat, order: set<nat> -> seq<nat>)
    requires NewRoomId(LeaveAny(s, uid, order)) !in LeaveAny(s, uid, order).rooms
    ensures var s' := LeaveAny(s, uid, order);
            var r := NewRoomId(s');
            Create(s, uid, maxPlayers, order)
            == s'.(rooms := s'.rooms[r := Enter(FreshRoom(r, maxPlayers), uid)], nextRoomId := s'.nextRoomId + 1,
                   uidToRoom := s'.uidToRoom[uid := r])
  {
    hide LeaveAny, Enter, FreshRoom;
    assert LeaveAny(s, uid, order).log + [] == LeaveAny(s, uid, order).log;
  }

  lemma VacateEmpties(s: Shard, uid: Uid, r: RoomId, order: set<nat> -> seq<nat>)
    requires r in s.rooms && Lobby.RemovePlayer(s.rooms[r].world, uid).players == map[]
    ensures Vacate(s, uid, r, order) == s.(uidToRoom := Remove(s.uidToRoom, uid), rooms := Remove(s.rooms, r))
  {}

  lemma VacateStays(s: Shard, uid: Uid, r: RoomId, order: set<nat> -> seq<nat>)
    requires r in s.rooms && Lobby.RemovePlayer(s.rooms[r].world, uid).players != map[]
    ensures var room, w := s.rooms[r], Lobby.RemovePlayer(s.rooms[r].world, uid);
            Vacate(s, uid, r, order)
            == s.(uidToRoom := Remove(s.uidToRoom, uid),
                  rooms := s.rooms[r := room.(world := w, over := room.over || room.Active())],
                  log := s.log + if room.Active() then [GameOver(r, room.tick, LeaveWinner(w, order))] else [])
  {}
}
