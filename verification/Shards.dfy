/**
 What a logic shard computes (LogicShard.cc): the rooms it holds, who sits in which, where replies
 go, and, as a history, what it announced about each room.
 */
module Shards {
  import opened Entities
  import opened Simulation
  import opened Replication
  import opened Match
  import opened Lobby
  import Links

  type RoomId = nat

  /** Where a player's packets come from, and so where replies to the player go. */
  type Route = Links.Route

  datatype Room = Room(id: RoomId, maxPlayers: nat, started: bool, over: bool, tick: nat, world: World) {
    predicate Active() { started && !over }
  }

  /** Announcements to the players of a room. */
  datatype Entry =
    | GameStart(room: RoomId, tick: nat)
    | Frame(room: RoomId, tick: nat, messages: seq<Message>)
    | GameOver(room: RoomId, tick: nat, winner: nat)

  datatype Shard = Shard(
    shardId: nat,
    shardCount: nat,
    nextRoomId: nat,
    rooms: map<RoomId, Room>,
    uidToRoom: map<Uid, RoomId>,
    routes: map<Uid, Route>,
    log: seq<Entry>)

  function EmptyShard(shardId: nat, shardCount: nat): Shard {
    Shard(shardId, if shardCount == 0 then 1 else shardCount, 1, map[], map[], map[], [])
  }

  /** What a command message carries, once its envelope has been read. */
  datatype Payload = Empty | Garbled | Unsimulated | Intent(command: Command)

  datatype Event =
    | CreateRoom(maxPlayers: nat)
    | JoinRoom(room: RoomId)
    | LeaveRoom(room: RoomId, hint: RoomId)
    | PlayerReady(room: RoomId, hint: RoomId, ready: bool)
    | EnterBattle(room: RoomId, hint: RoomId)
    | PlayerCommand(hint: RoomId, payload: Payload)
    | ClientDisconnected(client: Uid)
    | Unreadable

  datatype Task = Task(uid: Uid, origin: Route, event: Event)

  /** A task posted to a logic shard. */
  datatype Post = Post(shard: nat, task: Task)

  /** The notices that a client has disconnected: one for each shard, from nobody, so that no route is recorded. */
  function Notices(client: Uid, count: nat): seq<Post> {
    if client == 0 then []
    else seq(count, i requires 0 <= i < count => Post(i, Task(0, Links.Route(0, 0, 0), ClientDisconnected(client))))
  }

  /** The order in which a hash map of players or rooms is walked, and the map layout. */
  datatype Chance = Chance(order: set<nat> -> seq<nat>, layout: Layout)

  // ---- leaving ----

  function PutRoom(s: Shard, r: RoomId, room: Room, said: seq<Entry>): Shard {
    s.(rooms := s.rooms[r := room], log := s.log + said)
  }

  /** The winner when somebody leaves an active room: the team of the first player left. */
  function LeaveWinner(w: World, order: set<nat> -> seq<nat>): nat {
    var left := order(w.players.Keys);
    if left == [] then 0 else TeamOf(w, left[0])
  }

  /** Take uid out of room r; an empty room goes, an active one ends. */
  function Vacate(s: Shard, uid: Uid, r: RoomId, order: set<nat> -> seq<nat>): Shard
    requires r in s.rooms
  {
    var room := s.rooms[r];
    var w := RemovePlayer(room.world, uid);
    var s := s.(uidToRoom := Remove(s.uidToRoom, uid));
    if w.players == map[] then s.(rooms := Remove(s.rooms, r))
    else
      PutRoom(s, r, room.(world := w, over := room.over || room.Active()),
              if room.Active() then [GameOver(r, room.tick, LeaveWinner(w, order))] else [])
  }

  /** Leave whatever room this shard has uid in. */
  function LeaveAny(s: Shard, uid: Uid, order: set<nat> -> seq<nat>): Shard {
    if uid !in s.uidToRoom then s
    else if s.uidToRoom[uid] in s.rooms then Vacate(s, uid, s.uidToRoom[uid], order)
    else s.(uidToRoom := Remove(s.uidToRoom, uid))
  }

  function Resolve(s: Shard, uid: Uid, hint: RoomId): RoomId {
    if hint != 0 then hint else if uid in s.uidToRoom then s.uidToRoom[uid] else 0
  }

  function Named(s: Shard, uid: Uid, room: RoomId, hint: RoomId): RoomId {
    if room != 0 then room else Resolve(s, uid, hint)
  }

  function Leave(s: Shard, uid: Uid, room: RoomId, hint: RoomId, order: set<nat> -> seq<nat>): Shard {
    var r := Named(s, uid, room, hint);
    if r in s.rooms && uid in s.rooms[r].world.players then Vacate(s, uid, r, order) else s
  }

  // ---- creating and joining ----

  function NewRoomId(s: Shard): RoomId { s.shardId + s.shardCount * s.nextRoomId }

  function FreshRoom(r: RoomId, maxPlayers: nat): Room {
    Room(r, NormalizeMaxPlayers(maxPlayers), false, false, 0, EMPTY_WORLD)
  }

  /** Seat uid in the room, if there is a seat. */
  function Enter(room: Room, uid: Uid): Room {
    match AddPlayer(room.world, uid, room.maxPlayers)
    case Seated(w, _) => room.(world := w)
    case RoomFull => room
  }

  function Create(s: Shard, uid: Uid, maxPlayers: nat, order: set<nat> -> seq<nat>): Shard {
    var s := LeaveAny(s, uid, order);
    var r := NewRoomId(s);
    var room := if r in s.rooms then s.rooms[r] else FreshRoom(r, maxPlayers);
    PutRoom(s, r, Enter(room, uid), []).(nextRoomId := s.nextRoomId + 1, uidToRoom := s.uidToRoom[uid := r])
  }

  function Join(s: Shard, uid: Uid, r: RoomId, order: set<nat> -> seq<nat>): Shard {
    var s := if uid in s.uidToRoom && s.uidToRoom[uid] != r then LeaveAny(s, uid, order) else s;
    if r !in s.rooms || AddPlayer(s.rooms[r].world, uid, s.rooms[r].maxPlayers).RoomFull? then s
    else PutRoom(s, r, Enter(s.rooms[r], uid), []).(uidToRoom := s.uidToRoom[uid := r])
  }

  // ---- starting and commanding ----

  predicate MayStart(room: Room) {
    |room.world.players| >= room.maxPlayers && AllReady(room.world) && !room.started
  }

  /** Ready, and start the match once everyone is: initial map, starting resources, baseline snapshot. */
  function ReadyRoom(room: Room, uid: Uid, ready: bool, chance: Chance): (Room, seq<Entry>)
    requires uid in room.world.players
  {
    var room := room.(world := SetReady(room.world, uid, ready));
    if !MayStart(room) then (room, [])
    else
      var w := Opening(room.world, chance.layout, chance.order(room.world.players.Keys));
      (room.(started := true, world := ClearMarks(w)),
       [GameStart(room.id, room.tick), Frame(room.id, room.tick, [Snapshot(ViewOf(w))])])
  }

  function Ready(s: Shard, uid: Uid, room: RoomId, hint: RoomId, ready: bool, chance: Chance): Shard {
    var r := Named(s, uid, room, hint);
    if r !in s.rooms || uid !in s.rooms[r].world.players then s
    else
      var (room, said) := ReadyRoom(s.rooms[r], uid, ready, chance);
      PutRoom(s, r, room, said)
  }

  /** The command as it is queued: the sender owns it, and a path ends at its last waypoint. */
  function Queued(c: Command, uid: Uid): Command {
    c.(owner := uid,
       clientSeq := if c.kind == MoveCmd || c.kind == StopCmd || c.kind == AttackCmd then 0 else c.clientSeq,
       target := if c.kind == MoveCmd && c.path != [] then c.path[|c.path| - 1] else c.target)
  }

  function Enqueued(room: Room, c: Command): Room {
    room.(world := room.world.(pending := room.world.pending + [c]))
  }

  function Submit(s: Shard, uid: Uid, hint: RoomId, payload: Payload): Shard {
    var r := Resolve(s, uid, hint);
    if r == 0 || r !in s.rooms || uid !in s.rooms[r].world.players || !payload.Intent? then s
    else PutRoom(s, r, Enqueued(s.rooms[r], Queued(payload.command, uid)), [])
  }

  // ---- one task ----

  function Registered(s: Shard, task: Task): Shard {
    if task.uid == 0 then s else s.(routes := s.routes[task.uid := task.origin])
  }

  function Disconnect(s: Shard, client: Uid, order: set<nat> -> seq<nat>): Shard {
    if client == 0 then s else LeaveAny(s.(routes := Remove(s.routes, client)), client, order)
  }

  function Handle(s: Shard, task: Task, chance: Chance): Shard {
    var s := Registered(s, task);
    match task.event
    case CreateRoom(n) => Create(s, task.uid, n, chance.order)
    case JoinRoom(r) => Join(s, task.uid, r, chance.order)
    case LeaveRoom(r, hint) => Leave(s, task.uid, r, hint, chance.order)
    case PlayerReady(r, hint, ready) => Ready(s, task.uid, r, hint, ready, chance)
    case PlayerCommand(hint, payload) => Submit(s, task.uid, hint, payload)
    case ClientDisconnected(client) => Disconnect(s, client, chance.order)
    case EnterBattle(_, _) => s
    case Unreadable => s
  }

  // ---- the tick ----

  ghost function TickRoom(s: Shard, r: RoomId, env: Env): Shard {
    if r !in s.rooms || !s.rooms[r].Active() then s
    else
      var room := s.rooms[r];
      var w := Advance(room.world, Input(env, []));
      var tick := room.tick + 1;
      var verdict := Match.Verdict(ClearMarks(w));
      PutRoom(s, r, room.(tick := tick, world := ClearMarks(w), over := verdict.Won?),
              [Frame(r, tick, Broadcast(w, tick))] + if verdict.Won? then [GameOver(r, tick, verdict.team)] else [])
  }

  ghost function TickRooms(s: Shard, ids: seq<RoomId>, envs: RoomId -> Env): Shard {
    if ids == [] then s
    else TickRoom(TickRooms(s, ids[..|ids| - 1], envs), ids[|ids| - 1], envs(ids[|ids| - 1]))
  }

  /** One thing that happens on the shard's thread. */
  datatype Happening =
    | Arrives(task: Task, chance: Chance)
    | Ticks(envs: RoomId -> Env, order: set<RoomId> -> seq<RoomId>)

  ghost function After(s: Shard, h: Happening): Shard {
    match h
    case Arrives(task, chance) => Handle(s, task, chance)
    case Ticks(envs, order) => TickRooms(s, order(s.rooms.Keys), envs)
  }

  ghost function AfterAll(s: Shard, hs: seq<Happening>): Shard {
    if hs == [] then s else After(AfterAll(s, hs[..|hs| - 1]), hs[|hs| - 1])
  }
}
