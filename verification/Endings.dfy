/**
 How matches end on a shard: the winner that a tick announces is the one team with a live crystal; and
 a match that a leave and a join before its start have put into one team, which no tick ever ends.
 */
module Endings {
  import opened Entities
  import opened Simulation
  import opened Laws
  import opened Replication
  import opened Match
  import opened Lobby
  import opened Shards
  import opened ShardLaws
  import Economy
  import Links

  // ---- the announced winner ----

  /** The one team left, or nobody. */
  ghost predicate Names(winner: nat, live: set<nat>) {
    if live == {} then winner == NO_WINNER else live == {winner}
  }

  lemma SurvivorNames(live: set<nat>)
    ensures Survivor(live).Won? <==> |live| <= 1
    ensures Survivor(live).Won? ==> Names(Survivor(live).team, live)
  {
    if |live| == 1 {
      var t :| t in live;
      Sizes({t}, live);
    }
  }

  /** A tick of one room adds nothing to what is said about another, and leaves it as it is. */
  lemma TickRoomApart(s: Shard, q: RoomId, env: Env, r: RoomId)
    requires q != r
    ensures var v := TickRoom(s, q, env);
            && Chapter(v.log, r) == Chapter(s.log, r) && (r in v.rooms <==> r in s.rooms)
            && (r in s.rooms ==> v.rooms[r] == s.rooms[r])
  {
    hide Advance, Match.Verdict, Broadcast, Chapter;
    if q in s.rooms && s.rooms[q].Active() {
      var w := Advance(s.rooms[q].world, Input(env, []));
      var tick, verdict := s.rooms[q].tick + 1, Match.Verdict(ClearMarks(w));
      var said := [Frame(q, tick, Broadcast(w, tick))] + if verdict.Won? then [GameOver(q, tick, verdict.team)] else [];
      ChapterConcat(s.log, said, r);
      ChapterOwn(said, q, r);
      assert Chapter(s.log, r) + [] == Chapter(s.log, r);
    }
  }

  /** In a walk that meets r once, r is ticked once. */
  lemma {:induction false} TickRoomsOnce(s: Shard, ids: seq<RoomId>, envs: RoomId -> Env, r: RoomId)
    requires r in s.rooms && forall i, j :: 0 <= i < j < |ids| ==> ids[i] != ids[j]
    ensures var v, one := TickRooms(s, ids, envs), if r in ids then TickRoom(s, r, envs(r)) else s;
            r in v.rooms && r in one.rooms && v.rooms[r] == one.rooms[r] && Chapter(v.log, r) == Chapter(one.log, r)
  {
    hide TickRoom, Chapter;
    if ids != [] {
      var rest, q := ids[..|ids| - 1], ids[|ids| - 1];
      TickRoomsOnce(s, rest, envs, r);
      var mid := TickRooms(s, rest, envs);
      if q == r {
        assert r !in rest;
        SameTick(s, mid, r, envs(r));
      } else {
        TickRoomApart(mid, q, envs(q), r);
        assert ids == rest + [q];
      }
    }
  }

  /** What a tick does to a room depends on that room alone. */
  lemma SameTick(s: Shard, v: Shard, r: RoomId, env: Env)
    requires r in s.rooms && r in v.rooms && v.rooms[r] == s.rooms[r] && Chapter(v.log, r) == Chapter(s.log, r)
    ensures var a, b := TickRoom(s, r, env), TickRoom(v, r, env);
            r in a.rooms && r in b.rooms && a.rooms[r] == b.rooms[r] && Chapter(a.log, r) == Chapter(b.log, r)
  {
    hide Advance, Match.Verdict, Broadcast, Chapter;
    if s.rooms[r].Active() {
      var w := Advance(s.rooms[r].world, Input(env, []));
      var tick, verdict := s.rooms[r].tick + 1, Match.Verdict(ClearMarks(w));
      var said := [Frame(r, tick, Broadcast(w, tick))] + if verdict.Won? then [GameOver(r, tick, verdict.team)] else [];
      ChapterConcat(s.log, said, r);
      ChapterConcat(v.log, said, r);
    }
  }

  /** The room keeps the counts its battle began with. */
  lemma BattleKept(w: World, env: Env)
    requires WellFormed(w)
    ensures ClearMarks(Advance(w, Input(env, []))).battle == w.battle
  {
    hide WellFormed, Advance, Economy.Wealth;
    AdvanceKeeps(w, Input(env, []));
  }

  /** The teams that are still in the match: by crystals if at least two teams began with one, else by units. */
  ghost function Rivals(w: World): set<nat> {
    if w.battle.crystalTeams >= 2 then LiveCrystalTeams(w) else UnitTeams(w)
  }

  /** At least two teams began the match with a crystal, or at least with units. */
  predicate Contested(w: World) { w.battle.crystalTeams >= 2 || w.battle.teams >= 2 }

  lemma VerdictMeans(w: World)
    requires w.battle.begun
    ensures Match.Verdict(w).Won? <==> Contested(w) && |Rivals(w)| <= 1
    ensures Match.Verdict(w).Won? ==> Names(Match.Verdict(w).team, Rivals(w))
  {
    SurvivorNames(LiveCrystalTeams(w));
    SurvivorNames(UnitTeams(w));
    hide LiveCrystalTeams, UnitTeams, Survivor, Names;
  }

  /** What a tick announces, and what it leaves of the room. */
  ghost predicate Told(ch: seq<Entry>, ch': seq<Entry>, room: Room) {
    var rivals := Rivals(room.world);
    && ch < ch' && ch'[|ch|].Frame?
    && (room.over <==> Contested(room.world) && |rivals| <= 1)
    && (if room.over then |ch'| == |ch| + 2 && ch'[|ch| + 1].GameOver? && Names(ch'[|ch| + 1].winner, rivals)
        else |ch'| == |ch| + 1)
  }

  lemma TickTells(s: Shard, r: RoomId, env: Env)
    requires r in s.rooms && s.rooms[r].Active() && WellFormed(s.rooms[r].world)
    requires s.rooms[r].world.battle.begun
    ensures var v := TickRoom(s, r, env);
            r in v.rooms && Told(Chapter(s.log, r), Chapter(v.log, r), v.rooms[r])
  {
    hide Advance, Broadcast, Chapter, WellFormed, Names, Match.Verdict, Rivals;
    var room := s.rooms[r];
    BattleKept(room.world, env);
    var w := Advance(room.world, Input(env, []));
    VerdictMeans(ClearMarks(w));
    var tick, verdict := room.tick + 1, Match.Verdict(ClearMarks(w));
    var said := [Frame(r, tick, Broadcast(w, tick))] + if verdict.Won? then [GameOver(r, tick, verdict.team)] else [];
    ChapterConcat(s.log, said, r);
    ChapterOwn(said, r, r);
  }

  /**
   Whenever the clock ticks, in any active room: exactly one frame is announced, an end follows it if and
   only if at most one of at least two teams is left, and it names that team, or nobody if none is left.
   */
  lemma EndNamesWinner(s: Shard, r: RoomId, envs: RoomId -> Env, order: set<RoomId> -> seq<RoomId>)
    requires ShardOk(s) && Enumerates(order) && r in s.rooms && s.rooms[r].Active()
    ensures var s' := After(s, Ticks(envs, order));
            r in s'.rooms && Told(Chapter(s.log, r), Chapter(s'.log, r), s'.rooms[r])
  {
    hide Chapter, RoomOk, Annals, Seating, WellFormed, Told, TickRoom;
    ShapeAt(s, r);
    RoomWellFormed(s.rooms[r]);
    var ids := order(s.rooms.Keys);
    assert IsEnumeration(ids, s.rooms.Keys);
    TickRoomsOnce(s, ids, envs, r);
    TickTells(s, r, envs(r));
  }

  lemma RoomWellFormed(room: Room)
    requires RoomOk(room) && room.Active()
    ensures WellFormed(room.world) && room.world.battle.begun
  {}

  // ---- a player who leaves ----

  lemma FirstOfOthers(w: World, order: set<nat> -> seq<nat>)
    requires Enumerates(order) && w.players != map[]
    ensures exists u :: u in w.players && LeaveWinner(w, order) == w.players[u].team
  {
    assert IsEnumeration(order(w.players.Keys), w.players.Keys);
    var u :| u in w.players;
    assert u in order(w.players.Keys);
    assert order(w.players.Keys)[0] in w.players;
  }

  /** The room a message is about: the one it names, else the one it hints at, else the sender's. */
  function Meant(s: Shard, uid: Uid, room: RoomId, hint: RoomId): RoomId {
    if room != 0 then room
    else if hint != 0 then hint
    else if uid in s.uidToRoom then s.uidToRoom[uid]
    else 0
  }

  /** What is left of room r and of its announcements when uid has left it in the middle of a match. */
  ghost predicate LeftBehind(s: Shard, s': Shard, uid: Uid, r: RoomId)
    requires r in s.rooms
  {
    var left := s.rooms[r].world.players - {uid};
    if left == map[] then r !in s'.rooms && Chapter(s'.log, r) == Chapter(s.log, r)
    else
      && r in s'.rooms && s'.rooms[r].over && s'.rooms[r].world.players == left
      && exists u :: u in left && Chapter(s'.log, r)
                                  == Chapter(s.log, r) + [GameOver(r, s.rooms[r].tick, left[u].team)]
  }

  lemma VacatingEndsMatch(s: Shard, uid: Uid, r: RoomId, order: set<nat> -> seq<nat>)
    requires Enumerates(order) && Sits(s, uid, r) && s.rooms[r].Active()
    ensures LeftBehind(s, Vacate(s, uid, r, order), uid, r)
  {
    hide Chapter, LeaveWinner;
    var w := RemovePlayer(s.rooms[r].world, uid);
    assert w.players == s.rooms[r].world.players - {uid};
    if w.players != map[] {
      FirstOfOthers(w, order);
      var said := [GameOver(r, s.rooms[r].tick, LeaveWinner(w, order))];
      ChapterConcat(s.log, said, r);
      ChapterOwn(said, r, r);
    }
  }

  /**
   Whoever leaves an active room ends its match: the room is gone if nobody is left, and otherwise the end is
   announced at once in favour of a team of those who are left, which is the other one's if there is only one.
   Who is not in the room that the message is about leaves none.
   */
  lemma LeavingEndsMatch(s: Shard, uid: Uid, room: RoomId, hint: RoomId, origin: Route, chance: Chance)
    requires Enumerates(chance.order)
    ensures var s', r := Handle(s, Task(uid, origin, LeaveRoom(room, hint)), chance), Meant(s, uid, room, hint);
            && (Sits(s, uid, r) && s.rooms[r].Active() ==> LeftBehind(s, s', uid, r))
            && (!Sits(s, uid, r) ==> s' == s.(routes := s'.routes))
  {
    hide LeftBehind, Vacate;
    var r, s1 := Meant(s, uid, room, hint), Registered(s, Task(uid, origin, LeaveRoom(room, hint)));
    if Sits(s, uid, r) && s.rooms[r].Active() {
      VacatingEndsMatch(s1, uid, r, chance.order);
      SameLeft(s, s1, Vacate(s1, uid, r, chance.order), uid, r);
    }
  }

  lemma SameLeft(s: Shard, s1: Shard, s': Shard, uid: Uid, r: RoomId)
    requires r in s.rooms && s1.rooms == s.rooms && s1.log == s.log && LeftBehind(s1, s', uid, r)
    ensures LeftBehind(s, s', uid, r)
  {
    hide Chapter;
  }

  // ---- when a match starts ----

  /** Everyone is there, and everyone is ready once uid is, or is not. */
  predicate Complete(room: Room, uid: Uid, ready: bool) {
    |room.world.players| >= room.maxPlayers
    && forall u | u in room.world.players :: if u == uid then ready else room.world.players[u].ready
  }

  /** Only the readiness of uid has changed. */
  ghost predicate OnlyReady(room: Room, room': Room, uid: Uid, ready: bool)
    requires uid in room.world.players
  {
    var w := room.world;
    room' == room.(world := w.(players := w.players[uid := w.players[uid].(ready := ready)]))
  }

  lemma ReadyRoomStarts(room: Room, uid: Uid, ready: bool, chance: Chance)
    requires uid in room.world.players
    ensures var (room', said) := ReadyRoom(room, uid, ready, chance);
            && (room'.started <==> room.started || Complete(room, uid, ready))
            && (room.started || !room'.started ==> said == [] && OnlyReady(room, room', uid, ready))
  {
    hide Opening;
    var v := SetReady(room.world, uid, ready);
    assert v.players.Keys == room.world.players.Keys;
    assert |v.players| == |v.players.Keys| && |room.world.players| == |room.world.players.Keys|;
    assert AllReady(v) <==>
           forall u | u in room.world.players :: if u == uid then ready else room.world.players[u].ready;
  }

  /**
   A match starts exactly when everyone is there and, with this message, everyone is ready; no sooner. Who is
   not in the room that the message is about makes nobody ready.
   */
  lemma StartsWhenAllAreReady(s: Shard, uid: Uid, named: RoomId, hint: RoomId, ready: bool, origin: Route,
                              chance: Chance)
    ensures var s' := Handle(s, Task(uid, origin, PlayerReady(named, hint, ready)), chance);
            var r := Meant(s, uid, named, hint);
            if Sits(s, uid, r) then
              && r in s'.rooms
              && (s'.rooms[r].started <==> s.rooms[r].started || Complete(s.rooms[r], uid, ready))
              && (s.rooms[r].started || !s'.rooms[r].started ==>
                    s'.log == s.log && OnlyReady(s.rooms[r], s'.rooms[r], uid, ready))
            else s' == s.(routes := s'.routes)
  {
    hide ReadyRoom, Complete, OnlyReady;
    var r := Meant(s, uid, named, hint);
    if Sits(s, uid, r) { ReadyRoomStarts(s.rooms[r], uid, ready, chance); }
    assert s.log + [] == s.log;
  }

  // ---- a match within one team ----

  const ROOM: RoomId := 1

  /** A room in which these players wait. */
  function Waiting(ps: map<Uid, Player>): World {
    EMPTY_WORLD.(players := ps, ledgers := map u | u in ps :: Ledger(0, 0, 0))
  }

  /** The shard has one room, of two seats, which is in this state and has these people in it. */
  ghost predicate Hosts(s: Shard, ps: map<Uid, Player>) {
    && s.shardId == 0 && s.shardCount == 1 && s.rooms == map[ROOM := Room(ROOM, 2, false, false, 0, Waiting(ps))]
    && s.uidToRoom == map u | u in ps :: ROOM
  }

  lemma Creates(s: Shard, a: Uid, order: set<nat> -> seq<nat>)
    requires s == EmptyShard(0, 1).(routes := s.routes)
    ensures Hosts(Create(s, a, 2, order), map[a := Player(a, 0, false)])
  {
    assert NewRoomId(s) == ROOM;
    var w := AddPlayer(EMPTY_WORLD, a, 2).world;
    assert w.players == map[a := Player(a, 0, false)];
    assert w == Waiting(w.players);
  }

  lemma SeatTaken(ps: map<Uid, Player>, u: Uid)
    requires u !in ps && |ps| < 2
    ensures AddPlayer(Waiting(ps), u, 2) == Seated(Waiting(ps[u := Player(u, |ps|, false)]), |ps|)
  {
    assert Waiting(ps).ledgers[u := Ledger(0, 0, 0)] == Waiting(ps[u := Player(u, |ps|, false)]).ledgers;
  }

  lemma Joins(s: Shard, ps: map<Uid, Player>, u: Uid, order: set<nat> -> seq<nat>)
    requires Hosts(s, ps) && u !in ps && |ps| < 2
    ensures Hosts(Join(s, u, ROOM, order), ps[u := Player(u, |ps|, false)])
  {
    hide AddPlayer, LeaveAny, Waiting;
    SeatTaken(ps, u);
    var seated := Waiting(ps[u := Player(u, |ps|, false)]);
    var s' := Join(s, u, ROOM, order);
    assert s'.rooms == map[ROOM := Room(ROOM, 2, false, false, 0, seated)];
  }

  lemma Leaves(s: Shard, ps: map<Uid, Player>, u: Uid, order: set<nat> -> seq<nat>)
    requires Hosts(s, ps) && u in ps && ps - {u} != map[]
    ensures Hosts(Leave(s, u, ROOM, 0, order), ps - {u})
  {
    var left := RemovePlayer(Waiting(ps), u);
    assert left.players == ps - {u};
    assert left.ledgers == Waiting(ps - {u}).ledgers;
    var s' := Leave(s, u, ROOM, 0, order);
    assert s'.rooms == map[ROOM := Room(ROOM, 2, false, false, 0, left)];
  }

  lemma Readies(s: Shard, ps: map<Uid, Player>, u: Uid, chance: Chance)
    requires Hosts(s, ps) && u in ps
    ensures var ps', s' := ps[u := ps[u].(ready := true)], Ready(s, u, ROOM, 0, true, chance);
            if |ps| >= 2 && forall v | v in ps' :: ps'[v].ready then
              ROOM in s'.rooms && s'.rooms[ROOM].Active()
              && s'.rooms[ROOM].world == ClearMarks(Opening(Waiting(ps'), chance.layout, chance.order(ps'.Keys)))
            else Hosts(s', ps')
  {
    hide Opening;
    var ps' := ps[u := ps[u].(ready := true)];
    var v := SetReady(Waiting(ps), u, true);
    assert v.ledgers == Waiting(ps').ledgers;
    assert v == Waiting(ps');
    assert ps'.Keys == ps.Keys && |ps'| == |ps'.Keys| && |ps| == |ps.Keys|;
  }

  /** Two players sit down, the first leaves, a third takes the seat, and both get ready. */
  function LeaveAndJoin(a: Uid, b: Uid, c: Uid): seq<(Uid, Event)> {
    [(a, CreateRoom(2)), (b, JoinRoom(ROOM)), (a, LeaveRoom(ROOM, 0)), (c, JoinRoom(ROOM)),
     (b, PlayerReady(ROOM, 0, true)), (c, PlayerReady(ROOM, 0, true))]
  }

  function Sending(said: seq<(Uid, Event)>, origin: Route, chance: Chance): seq<Happening> {
    seq(|said|, i requires 0 <= i < |said| => Arrives(Task(said[i].0, origin, said[i].1), chance))
  }

  lemma OneMoreSaid(s: Shard, said: seq<(Uid, Event)>, n: nat, origin: Route, chance: Chance)
    requires n < |said|
    ensures AfterAll(s, Sending(said[..n + 1], origin, chance))
            == Handle(AfterAll(s, Sending(said[..n], origin, chance)), Task(said[n].0, origin, said[n].1), chance)
  {
    var hs := Sending(said[..n + 1], origin, chance);
    assert hs[..n] == Sending(said[..n], origin, chance);
    hide Handle;
  }

  lemma HostsRegistered(s: Shard, ps: map<Uid, Player>, task: Task)
    requires Hosts(s, ps)
    ensures Hosts(Registered(s, task), ps)
  {}

  /** After the first n of these messages. */
  function Stage(a: Uid, b: Uid, c: Uid, n: nat): map<Uid, Player> {
    if n <= 1 then map[a := Player(a, 0, false)]
    else if n == 2 then map[a := Player(a, 0, false), b := Player(b, 1, false)]
    else if n == 3 then map[b := Player(b, 1, false)]
    else if n == 4 then map[b := Player(b, 1, false), c := Player(c, 1, false)]
    else if n == 5 then map[b := Player(b, 1, true), c := Player(c, 1, false)]
    else map[b := Player(b, 1, true), c := Player(c, 1, true)]
  }

  lemma SeatsTaken(s: Shard, a: Uid, b: Uid, c: Uid, n: nat, task: Task, chance: Chance)
    requires a != b && b != c && a != c && 0 < n < 4 && n != 2 && Hosts(s, Stage(a, b, c, n))
    requires task.uid == (if n == 1 then b else c) && task.event == JoinRoom(ROOM)
    ensures Hosts(Handle(s, task, chance), Stage(a, b, c, n + 1))
  {
    hide Hosts, Join, Registered;
    var ps := Stage(a, b, c, n);
    HostsRegistered(s, ps, task);
    Joins(Registered(s, task), ps, task.uid, chance.order);
    assert ps[task.uid := Player(task.uid, 1, false)] == Stage(a, b, c, n + 1);
  }

  lemma FirstLeaves(s: Shard, a: Uid, b: Uid, c: Uid, task: Task, chance: Chance)
    requires a != b && Hosts(s, Stage(a, b, c, 2)) && task.uid == a && task.event == LeaveRoom(ROOM, 0)
    ensures Hosts(Handle(s, task, chance), Stage(a, b, c, 3))
  {
    hide Hosts, Leave, Registered;
    var ps := Stage(a, b, c, 2);
    HostsRegistered(s, ps, task);
    assert ps - {a} == Stage(a, b, c, 3) && b in ps - {a};
    Leaves(Registered(s, task), ps, a, chance.order);
  }

  lemma SecondReadies(s: Shard, a: Uid, b: Uid, c: Uid, task: Task, chance: Chance)
    requires b != c && Hosts(s, Stage(a, b, c, 4)) && task.uid == b && task.event == PlayerReady(ROOM, 0, true)
    ensures Hosts(Handle(s, task, chance), Stage(a, b, c, 5))
  {
    hide Hosts, Ready, Registered, Opening;
    var ps := Stage(a, b, c, 4);
    HostsRegistered(s, ps, task);
    Readies(Registered(s, task), ps, b, chance);
    var ps' := ps[b := ps[b].(ready := true)];
    assert c in ps' && !ps'[c].ready;
    assert ps' == Stage(a, b, c, 5);
  }

  /** One message of the six takes the shard from one stage to the next. */
  lemma NextStage(s: Shard, a: Uid, b: Uid, c: Uid, n: nat, origin: Route, chance: Chance)
    requires a != b && b != c && a != c && n < 5
    requires if n == 0 then s == EmptyShard(0, 1) else Hosts(s, Stage(a, b, c, n))
    ensures var (u, event) := LeaveAndJoin(a, b, c)[n];
            Hosts(Handle(s, Task(u, origin, event), chance), Stage(a, b, c, n + 1))
  {
    var (u, event) := LeaveAndJoin(a, b, c)[n];
    var task := Task(u, origin, event);
    if n == 0 {
      hide Hosts, Create;
      Creates(Registered(s, task), a, chance.order);
    } else {
      hide Hosts, Handle, Stage;
      if n == 2 { FirstLeaves(s, a, b, c, task, chance); }
      if n == 4 { SecondReadies(s, a, b, c, task, chance); }
      if n == 1 || n == 3 { SeatsTaken(s, a, b, c, n, task, chance); }
    }
  }

  lemma {:induction false} Stages(a: Uid, b: Uid, c: Uid, n: nat, origin: Route, chance: Chance)
    requires a != b && b != c && a != c && n <= 5
    ensures var s := AfterAll(EmptyShard(0, 1), Sending(LeaveAndJoin(a, b, c)[..n], origin, chance));
            if n == 0 then s == EmptyShard(0, 1) else Hosts(s, Stage(a, b, c, n))
  {
    hide Hosts, Stage, Handle;
    var said := LeaveAndJoin(a, b, c);
    if n == 0 {
      assert Sending(said[..0], origin, chance) == [];
    } else {
      Stages(a, b, c, n - 1, origin, chance);
      var s := AfterAll(EmptyShard(0, 1), Sending(said[..n - 1], origin, chance));
      OneMoreSaid(EmptyShard(0, 1), said, n - 1, origin, chance);
      NextStage(s, a, b, c, n - 1, origin, chance);
    }
    hide AfterAll;
  }

  /**
   A match that cannot be won: six messages to an empty shard start a match of two players of one team,
   and no play whatever, over any number of ticks with any commands, brings it to a verdict.
   */
  lemma OneTeamMatch(a: Uid, b: Uid, c: Uid, origin: Route, chance: Chance, inputs: seq<Input>)
    requires a != b && b != c && a != c && Enumerates(chance.order)
    ensures var s := AfterAll(EmptyShard(0, 1), Sending(LeaveAndJoin(a, b, c), origin, chance));
            && ROOM in s.rooms && s.rooms[ROOM].Active() && s.rooms[ROOM].world.players.Keys == {b, c}
            && s.rooms[ROOM].world.players[b].team == s.rooms[ROOM].world.players[c].team
            && Match.Verdict(Run(s.rooms[ROOM].world, inputs)) == Undecided
  {
    hide Hosts, Handle, Run, Opening, Match.Verdict, AfterAll, Enumerates;
    var said := LeaveAndJoin(a, b, c);
    Stages(a, b, c, 5, origin, chance);
    OneMoreSaid(EmptyShard(0, 1), said, 5, origin, chance);
    assert said[..6] == said;
    var s := AfterAll(EmptyShard(0, 1), Sending(said[..5], origin, chance));
    LastStage(s, a, b, c, origin, chance);
    WithinOneTeam(Stage(a, b, c, 6), chance, inputs);
  }

  lemma LastStage(s: Shard, a: Uid, b: Uid, c: Uid, origin: Route, chance: Chance)
    requires b != c && Hosts(s, Stage(a, b, c, 5))
    ensures var s', ps := Handle(s, Task(c, origin, PlayerReady(ROOM, 0, true)), chance), Stage(a, b, c, 6);
            && ROOM in s'.rooms && s'.rooms[ROOM].Active() && ps.Keys == {b, c}
            && s'.rooms[ROOM].world == ClearMarks(Opening(Waiting(ps), chance.layout, chance.order(ps.Keys)))
  {
    hide Hosts, Ready, Opening, Registered, Waiting;
    var task := Task(c, origin, PlayerReady(ROOM, 0, true));
    var ps := Stage(a, b, c, 5);
    HostsRegistered(s, ps, task);
    assert ps[c := ps[c].(ready := true)] == Stage(a, b, c, 6);
    assert ps.Keys == {b, c} && |ps| == |ps.Keys|;
    Readies(Registered(s, task), ps, c, chance);
  }

  lemma WithinOneTeam(ps: map<Uid, Player>, chance: Chance, inputs: seq<Input>)
    requires Enumerates(chance.order) && ps != map[] && forall u | u in ps :: ps[u].team == 1
    ensures var w := ClearMarks(Opening(Waiting(ps), chance.layout, chance.order(ps.Keys)));
            w.players == ps && Match.Verdict(Run(w, inputs)) == Undecided
  {
    hide Opening, Run, Match.Verdict, WellFormed, Waiting;
    WaitingFacts(ps);
    var w := Waiting(ps);
    var uids := chance.order(ps.Keys);
    assert IsEnumeration(uids, ps.Keys);
    OneTeam(w);
    OpeningFacts(w, chance.layout, uids);
    SameTeamNeverEnds(w, chance.layout, uids, inputs);
    hide Vacant, Economy.Wealth, LiveCrystalTeams, CrystalsBuilt;
  }

  lemma OneTeam(w: World)
    requires forall u | u in w.players :: w.players[u].team == 1
    ensures |PlayerTeams(w)| <= 1
  {
    Sizes(PlayerTeams(w), {1});
  }

  lemma WaitingFacts(ps: map<Uid, Player>)
    ensures var w := Waiting(ps); WellFormed(w) && Vacant(w) && w.ledgers.Keys == w.players.Keys && w.players == ps
  {}
}
