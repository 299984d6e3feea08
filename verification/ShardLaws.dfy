/**
 What every happening on a logic shard keeps: players and rooms agree, room ids stay in the shard's
 residue class and are never reused, each room's announcements tell one match from its start to its
 end, and whoever played them all holds the room's visible state.
 */
module ShardLaws {
  import opened Entities
  import opened Simulation
  import opened Laws
  import opened Tracking
  import opened Evolution
  import opened Replication
  import opened Match
  import opened Lobby
  import opened Shards
  import Economy
  import Formation

  // ---- the history of one room ----

  /** The announcements about room r. */
  function Chapter(log: seq<Entry>, r: RoomId): seq<Entry> {
    if log == [] then []
    else Chapter(log[..|log| - 1], r) + if log[|log| - 1].room == r then [log[|log| - 1]] else []
  }

  lemma {:induction false} ChapterConcat(log: seq<Entry>, said: seq<Entry>, r: RoomId)
    ensures Chapter(log + said, r) == Chapter(log, r) + Chapter(said, r)
  {
    if said == [] {
      assert log + said == log;
    } else {
      var all, rest := log + said, said[..|said| - 1];
      ChapterConcat(log, rest, r);
      assert all[..|all| - 1] == log + rest && all[|all| - 1] == said[|said| - 1];
    }
  }

  lemma {:induction false} ChapterOwn(said: seq<Entry>, r: RoomId, q: RoomId)
    requires forall i | 0 <= i < |said| :: said[i].room == r
    ensures Chapter(said, q) == if q == r then said else []
  {
    if said != [] { ChapterOwn(said[..|said| - 1], r, q); }
  }

  /** A match under way: a start, then one frame for each tick from 0, in order. */
  ghost predicate Playing(ch: seq<Entry>, r: RoomId, tick: nat) {
    && |ch| == tick + 2 && ch[0] == GameStart(r, 0)
    && forall i | 1 <= i < |ch| :: ch[i].Frame? && ch[i].room == r && ch[i].tick == i - 1
  }

  /** A finished match: one that was under way, and then a single end, with nothing after it. */
  ghost predicate Ended(ch: seq<Entry>, r: RoomId) {
    && |ch| >= 3 && ch[|ch| - 1].GameOver? && ch[|ch| - 1].room == r && ch[|ch| - 1].tick == |ch| - 3
    && Playing(ch[..|ch| - 1], r, |ch| - 3)
  }

  /** All messages of the frames. */
  function Heard(ch: seq<Entry>): seq<Message> {
    if ch == [] then []
    else Heard(ch[..|ch| - 1]) + if ch[|ch| - 1].Frame? then ch[|ch| - 1].messages else []
  }

  ghost predicate RoomStory(ch: seq<Entry>, room: Room) {
    && (!room.started ==> ch == [])
    && (room.Active() ==> Playing(ch, room.id, room.tick) && Agrees(Play(BLANK, Heard(ch)), room.world))
    && (room.over ==> Ended(ch, room.id))
  }

  /** What is left of a room that is gone. */
  ghost predicate ClosedStory(ch: seq<Entry>, r: RoomId) {
    ch == [] || (|ch| >= 2 && Playing(ch, r, |ch| - 2)) || Ended(ch, r)
  }

  // ---- one room ----

  ghost predicate RoomOk(room: Room) {
    && 0 < room.maxPlayers <= MAX_ROOM_PLAYERS
    && |room.world.players| <= room.maxPlayers
    && room.world.ledgers.Keys == room.world.players.Keys
    && WellFormed(room.world) && room.world.marks == NO_MARKS
    && (!room.started ==> Vacant(room.world) && room.tick == 0 && !room.over)
    && (room.started ==> room.world.battle.begun && CrystalsBuilt(room.world))
    && (room.over ==> room.started)
    && (room.Active() ==> |room.world.players| == room.maxPlayers
                          && Economy.Wealth(room.world) <= StartWealth(MAX_ROOM_PLAYERS))
  }

  // ---- a shard ----

  /** uid sits in room r. */
  ghost predicate Sits(s: Shard, uid: Uid, r: RoomId) {
    r in s.rooms && uid in s.rooms[r].world.players
  }

  /** The player index and the rooms are inverse to each other. */
  ghost predicate Seating(s: Shard) {
    forall uid: Uid, r: RoomId :: Sits(s, uid, r) <==> uid in s.uidToRoom && s.uidToRoom[uid] == r
  }

  /** Ids below the next new one in the shard's residue class. */
  ghost predicate Issued(s: Shard, r: RoomId) {
    s.shardCount != 0 && r % s.shardCount == s.shardId && 0 < r < NewRoomId(s)
  }

  ghost predicate Shape(s: Shard) {
    && s.shardId < s.shardCount && 0 < s.nextRoomId
    && forall r | r in s.rooms ::
         Issued(s, r) && s.rooms[r].id == r && RoomOk(s.rooms[r])
         && s.rooms[r].world.players != map[]
  }

  ghost predicate StoryAt(s: Shard, r: RoomId) {
    var ch := Chapter(s.log, r);
    if r in s.rooms then RoomStory(ch, s.rooms[r])
    else ClosedStory(ch, r) && (r >= NewRoomId(s) ==> ch == [])
  }

  ghost predicate Annals(s: Shard) { forall r: RoomId :: StoryAt(s, r) }

  ghost predicate ShardOk(s: Shard) { Shape(s) && Seating(s) && Annals(s) }

  // ---- what happens to one room ----

  lemma FreshRoomOk(r: RoomId, maxPlayers: nat)
    ensures RoomOk(FreshRoom(r, maxPlayers)) && !FreshRoom(r, maxPlayers).started
  {}

  lemma PlayersWellFormed(w: World, v: World)
    requires WellFormed(w) && v == w.(players := v.players, ledgers := v.ledgers, pending := v.pending)
    ensures WellFormed(v) && (Vacant(w) ==> Vacant(v)) && (CrystalsBuilt(w) ==> CrystalsBuilt(v))
  {}

  /** Nobody new can enter an active room, for it is full. */
  lemma EnterOk(room: Room, uid: Uid)
    requires RoomOk(room)
    ensures RoomOk(Enter(room, uid)) && Enter(room, uid).id == room.id
    ensures room.Active() ==> Enter(room, uid) == room
    ensures Enter(room, uid).started == room.started && Enter(room, uid).over == room.over
    ensures var seat := AddPlayer(room.world, uid, room.maxPlayers);
            Enter(room, uid).world.players.Keys
            == if seat.Seated? then room.world.players.Keys + {uid} else room.world.players.Keys
  {
    hide WellFormed, Vacant, CrystalsBuilt, Economy.Wealth;
    var w := room.world;
    var v := Enter(room, uid).world;
    PlayersWellFormed(w, v);
    if uid !in w.players && |w.players| < room.maxPlayers {
      GrowMap(w.players, uid, Player(uid, |w.players|, false));
    }
  }

  lemma ShrinkMap<V>(m: map<nat, V>, k: nat)
    ensures |Remove(m, k)| <= |m| && Remove(m, k).Keys == m.Keys - {k}
  {
    assert Remove(m, k).Keys == m.Keys - {k};
    Sizes(Remove(m, k).Keys, m.Keys);
    assert |Remove(m, k).Keys| == |Remove(m, k)| && |m.Keys| == |m|;
  }

  lemma LeaveOk(room: Room, uid: Uid)
    requires RoomOk(room)
    ensures RoomOk(room.(world := RemovePlayer(room.world, uid), over := room.over || room.Active()))
    ensures RemovePlayer(room.world, uid).players.Keys == room.world.players.Keys - {uid}
  {
    hide WellFormed, Vacant, CrystalsBuilt, Economy.Wealth;
    var w := room.world;
    ShrinkMap(w.players, uid);
    ShrinkMap(w.ledgers, uid);
    PlayersWellFormed(w, RemovePlayer(w, uid));
  }

  /** Replacing players' flags and queueing commands changes nothing a client sees and no wealth. */
  lemma QuietOk(room: Room, v: World)
    requires RoomOk(room) && v == room.world.(players := v.players, pending := v.pending)
    requires v.players.Keys == room.world.players.Keys
    ensures RoomOk(room.(world := v))
    ensures forall r :: Agrees(r, v) <==> Agrees(r, room.world)
  {
    hide WellFormed, Vacant, CrystalsBuilt;
    PlayersWellFormed(room.world, v);
    assert |v.players| == |v.players.Keys| && |room.world.players| == |room.world.players.Keys|;
    assert Economy.Wealth(v) == Economy.Wealth(room.world);
    assert UnitViews(v) == UnitViews(room.world) && SiteViews(v) == SiteViews(room.world);
  }

  lemma StoryKept(ch: seq<Entry>, room: Room, v: World)
    requires RoomStory(ch, room)
    requires room.Active() ==> forall r :: Agrees(r, v) <==> Agrees(r, room.world)
    ensures RoomStory(ch, room.(world := v))
  {
    hide Playing, Ended, Play, Heard;
  }

  lemma HeardOne(ch: seq<Entry>, f: Entry)
    requires f.Frame?
    ensures Heard(ch + [f]) == Heard(ch) + f.messages
  {
    assert (ch + [f])[..|ch|] == ch;
  }

  lemma PlayingNext(ch: seq<Entry>, r: RoomId, tick: nat, ms: seq<Message>)
    requires Playing(ch, r, tick)
    ensures Playing(ch + [Frame(r, tick + 1, ms)], r, tick + 1)
  {}

  lemma EndedNext(ch: seq<Entry>, r: RoomId, tick: nat, winner: nat)
    requires Playing(ch, r, tick)
    ensures Ended(ch + [GameOver(r, tick, winner)], r)
  {
    assert (ch + [GameOver(r, tick, winner)])[..|ch|] == ch;
  }

  /** The start of a match: the baseline snapshot puts everyone in agreement. */
  lemma ReadyOk(room: Room, uid: Uid, ready: bool, chance: Chance, ch: seq<Entry>)
    requires RoomOk(room) && uid in room.world.players && RoomStory(ch, room) && Enumerates(chance.order)
    ensures var (room', said) := ReadyRoom(room, uid, ready, chance);
            && RoomOk(room') && room'.id == room.id && room'.world.players.Keys == room.world.players.Keys
            && (forall i | 0 <= i < |said| :: said[i].room == room.id)
            && RoomStory(ch + said, room')
  {
    hide WellFormed, Vacant, CrystalsBuilt, Economy.Wealth, Enumerates, Opening, Agrees, Play;
    var v := SetReady(room.world, uid, ready);
    assert v.players.Keys == room.world.players.Keys;
    QuietOk(room, v);
    StoryKept(ch, room, v);
    var seated := room.(world := v);
    if MayStart(seated) {
      StartOk(seated, chance);
      var w := Opening(v, chance.layout, chance.order(v.players.Keys));
      var ms := [Snapshot(ViewOf(w))];
      assert ch + [GameStart(room.id, 0), Frame(room.id, 0, ms)] == [GameStart(room.id, 0), Frame(room.id, 0, ms)];
      HeardBaseline(room.id, ms);
      BaselineAgrees(w);
    } else {
      assert ch + [] == ch;
    }
  }

  lemma HeardBaseline(r: RoomId, ms: seq<Message>)
    ensures Heard([GameStart(r, 0), Frame(r, 0, ms)]) == ms
    ensures Playing([GameStart(r, 0), Frame(r, 0, ms)], r, 0)
  {
    var ch := [GameStart(r, 0)];
    HeardOne(ch, Frame(r, 0, ms));
    assert ch + [Frame(r, 0, ms)] == [GameStart(r, 0), Frame(r, 0, ms)];
    assert ch[..0] == [];
    assert Heard(ch) == [];
  }

  lemma BaselineAgrees(w: World)
    ensures Agrees(Play(BLANK, [Snapshot(ViewOf(w))]), ClearMarks(w))
  {
    PlayOne(BLANK, Snapshot(ViewOf(w)));
    SnapshotAgrees(w);
    AgreesCleared(ViewOf(w), w);
    hide Agrees, Play;
  }

  lemma StartOk(room: Room, chance: Chance)
    requires RoomOk(room) && MayStart(room) && Enumerates(chance.order)
    ensures var w := Opening(room.world, chance.layout, chance.order(room.world.players.Keys));
            && RoomOk(room.(started := true, world := ClearMarks(w)))
            && w.players == room.world.players
  {
    hide WellFormed, Vacant, CrystalsBuilt, Economy.Wealth, Opening;
    var w := Opening(room.world, chance.layout, chance.order(room.world.players.Keys));
    OpeningFacts(room.world, chance.layout, chance.order(room.world.players.Keys));
    ClearMarksWellFormed(w);
    ClearMarksWealth(w);
    ClearMarksBuilt(w);
  }

  lemma ClearMarksBuilt(w: World)
    ensures CrystalsBuilt(ClearMarks(w)) == CrystalsBuilt(w)
  {}

  // ---- a tick of one room ----

  ghost function Ticked(room: Room, env: Env): (Room, seq<Entry>) {
    var w := Advance(room.world, Input(env, []));
    var tick := room.tick + 1;
    var verdict := Match.Verdict(ClearMarks(w));
    (room.(tick := tick, world := ClearMarks(w), over := verdict.Won?),
     [Frame(room.id, tick, Broadcast(w, tick))] + if verdict.Won? then [GameOver(room.id, tick, verdict.team)] else [])
  }

  lemma TickedOk(room: Room, env: Env, ch: seq<Entry>)
    requires RoomOk(room) && room.Active() && RoomStory(ch, room)
    ensures var (room', said) := Ticked(room, env);
            && RoomOk(room') && room'.id == room.id && room'.world.players.Keys == room.world.players.Keys
            && (forall i | 0 <= i < |said| :: said[i].room == room.id)
            && RoomStory(ch + said, room')
  {
    hide WellFormed, Vacant, CrystalsBuilt, Economy.Wealth, Agrees, Play, Advance, Broadcast, Playing, Ended,
         Match.Verdict, Evolves;
    var w := Advance(room.world, Input(env, []));
    AdvanceOk(room.world, env);
    var (room', said) := Ticked(room, env);
    var tick := room.tick + 1;
    var frame := Frame(room.id, tick, Broadcast(w, tick));
    PlayingNext(ch, room.id, room.tick, Broadcast(w, tick));
    HeardOne(ch, frame);
    FramePlays(Play(BLANK, Heard(ch)), room.world, env, tick);
    PlayConcat(BLANK, Heard(ch), Broadcast(w, tick));
    if room'.over {
      EndedNext(ch + [frame], room.id, tick, said[1].winner);
      assert ch + said == ch + [frame] + [said[1]];
    } else {
      assert ch + said == ch + [frame];
    }
  }

  lemma AdvanceOk(w: World, env: Env)
    requires WellFormed(w) && CrystalsBuilt(w) && Economy.Wealth(w) <= StartWealth(MAX_ROOM_PLAYERS)
    ensures var v := ClearMarks(Advance(w, Input(env, [])));
            && WellFormed(v) && CrystalsBuilt(v) && v.players == w.players && v.ledgers.Keys == w.ledgers.Keys
            && v.battle == w.battle && Economy.Wealth(v) == Economy.Wealth(w)
  {
    hide WellFormed, Economy.Wealth, Advance, CrystalsBuilt, LiveCrystalTeams;
    var v := Advance(w, Input(env, []));
    AdvanceKeeps(w, Input(env, []));
    ClearMarksWellFormed(v);
    ClearMarksWealth(v);
    LastingFrame(w, v);
    CrystalsFade(w, ClearMarks(v));
    hide TrackedUnits, TrackedSites, TrackedFields, TrackedDrops;
  }

  /** One tick's broadcast keeps an agreeing client in agreement. */
  lemma FramePlays(r: Replica, w: World, env: Env, tick: nat)
    requires WellFormed(w) && w.marks == NO_MARKS && Agrees(r, w)
    ensures var v := Advance(w, Input(env, [])); Agrees(Play(r, Broadcast(v, tick)), ClearMarks(v))
  {
    hide WellFormed, Agrees, Play, Advance, ViewOf, DeltaMessages, Evolves;
    var v := Advance(w, Input(env, []));
    AdvanceKeeps(w, Input(env, []));
    EvolvesTracked(w, v);
    FrameAgrees(r, w, v);
    PlayOne(r, Snapshot(ViewOf(v)));
    SnapshotAgrees(v);
    AgreesCleared(Play(r, Broadcast(v, tick)), v);
  }

  // ---- changing one room of a shard ----

  lemma ShapeAt(s: Shard, r: RoomId)
    requires Shape(s) && r in s.rooms
    ensures RoomOk(s.rooms[r]) && s.rooms[r].id == r && Issued(s, r) && s.rooms[r].world.players != map[]
  {}

  lemma StoryOfRoom(s: Shard, r: RoomId)
    requires Annals(s) && r in s.rooms
    ensures RoomStory(Chapter(s.log, r), s.rooms[r])
  {
    assert StoryAt(s, r);
  }

  lemma PutAnnals(s: Shard, r: RoomId, room: Room, said: seq<Entry>)
    requires Annals(s) && forall i | 0 <= i < |said| :: said[i].room == r
    requires RoomStory(Chapter(s.log, r) + said, room)
    ensures Annals(PutRoom(s, r, room, said))
  {
    hide RoomStory, ClosedStory, Chapter;
    var s' := PutRoom(s, r, room, said);
    forall q: RoomId ensures StoryAt(s', q) {
      assert StoryAt(s, q);
      ChapterConcat(s.log, said, q);
      ChapterOwn(said, r, q);
      assert Chapter(s.log, q) + [] == Chapter(s.log, q);
    }
  }

  lemma PutShape(s: Shard, r: RoomId, room: Room, said: seq<Entry>)
    requires Shape(s) && r in s.rooms && RoomOk(room) && room.id == r && room.world.players != map[]
    ensures Shape(PutRoom(s, r, room, said))
  {
    hide RoomOk, Issued;
    IssuedSame(s, PutRoom(s, r, room, said));
  }

  lemma PutSeating(s: Shard, r: RoomId, room: Room, said: seq<Entry>)
    requires Seating(s) && r in s.rooms && room.world.players.Keys == s.rooms[r].world.players.Keys
    ensures Seating(PutRoom(s, r, room, said))
  {
    var s' := PutRoom(s, r, room, said);
    forall uid: Uid, q: RoomId ensures Sits(s', uid, q) <==> Sits(s, uid, q) {}
  }

  /** A room changes, but not its players. */
  lemma PutOk(s: Shard, r: RoomId, room: Room, said: seq<Entry>)
    requires ShardOk(s) && r in s.rooms && RoomOk(room) && room.id == r
    requires room.world.players.Keys == s.rooms[r].world.players.Keys
    requires forall i | 0 <= i < |said| :: said[i].room == r
    requires RoomStory(Chapter(s.log, r) + said, room)
    ensures ShardOk(PutRoom(s, r, room, said))
  {
    hide RoomOk, RoomStory, Annals, Shape, Seating;
    ShapeAt(s, r);
    assert room.world.players.Keys != {};
    PutAnnals(s, r, room, said);
    PutShape(s, r, room, said);
    PutSeating(s, r, room, said);
  }

  // ---- leaving ----

  lemma StoryCloses(ch: seq<Entry>, room: Room)
    requires RoomStory(ch, room)
    ensures ClosedStory(ch, room.id)
  {
    hide Agrees, Play, Heard, Ended;
  }

  lemma RemoveAnnals(s: Shard, r: RoomId)
    requires Annals(s) && Shape(s) && r in s.rooms
    ensures Annals(s.(rooms := Remove(s.rooms, r)))
  {
    hide RoomOk, Chapter, RoomStory, ClosedStory;
    var s' := s.(rooms := Remove(s.rooms, r));
    ShapeAt(s, r);
    StoryOfRoom(s, r);
    StoryCloses(Chapter(s.log, r), s.rooms[r]);
    forall q: RoomId ensures StoryAt(s', q) {
      assert StoryAt(s, q);
    }
  }

  lemma IndexAnnals(s: Shard, s': Shard)
    requires Annals(s) && s' == s.(uidToRoom := s'.uidToRoom, routes := s'.routes)
    ensures Annals(s')
  {
    hide RoomStory, ClosedStory, Chapter;
    forall q: RoomId ensures StoryAt(s', q) {
      assert StoryAt(s, q);
    }
  }

  /** Without uid everywhere: nobody else is affected. */
  ghost predicate Cleared(s: Shard, s': Shard, uid: Uid) {
    && (forall v: Uid, r: RoomId :: Sits(s', v, r) <==> Sits(s, v, r) && v != uid)
    && s'.uidToRoom == Remove(s.uidToRoom, uid)
  }

  lemma ClearedSeating(s: Shard, s': Shard, uid: Uid)
    requires Seating(s) && Cleared(s, s', uid)
    ensures Seating(s')
  {
    hide Sits;
  }

  lemma EraseShape(s: Shard, s': Shard, r: RoomId)
    requires Shape(s) && s' == s.(rooms := Remove(s.rooms, r), uidToRoom := s'.uidToRoom)
    ensures Shape(s')
  {
    hide RoomOk, Issued;
    IssuedSame(s, s');
  }

  lemma IndexShape(s: Shard, s': Shard)
    requires Shape(s) && s' == s.(uidToRoom := s'.uidToRoom)
    ensures Shape(s')
  {
    hide RoomOk, Issued;
    IssuedSame(s, s');
  }

  lemma IssuedSame(s: Shard, s': Shard)
    requires s'.shardId == s.shardId && s'.shardCount == s.shardCount && s'.nextRoomId == s.nextRoomId
    ensures forall q: RoomId :: Issued(s', q) <==> Issued(s, q)
  {}

  lemma VacateShape(s: Shard, uid: Uid, r: RoomId, order: set<nat> -> seq<nat>)
    requires Shape(s) && r in s.rooms
    ensures Shape(Vacate(s, uid, r, order))
  {
    hide RoomOk, RemovePlayer, Shape, LeaveWinner;
    ShapeAt(s, r);
    var room := s.rooms[r];
    LeaveOk(room, uid);
    var w := RemovePlayer(room.world, uid);
    if w.players == map[] {
      EraseShape(s, Vacate(s, uid, r, order), r);
    } else {
      var s1 := s.(uidToRoom := Remove(s.uidToRoom, uid));
      IndexShape(s, s1);
      PutShape(s1, r, room.(world := w, over := room.over || room.Active()),
               if room.Active() then [GameOver(r, room.tick, LeaveWinner(w, order))] else []);
    }
  }

  lemma SeatIsUnique(s: Shard, uid: Uid, r: RoomId, q: RoomId)
    requires Seating(s) && Sits(s, uid, r) && Sits(s, uid, q)
    ensures q == r
  {}

  /** Only room r changes, and there only uid goes. */
  lemma VacateOne(s: Shard, uid: Uid, r: RoomId, order: set<nat> -> seq<nat>, v: Uid, q: RoomId)
    requires r in s.rooms
    ensures var s' := Vacate(s, uid, r, order);
            Sits(s', v, q) <==> Sits(s, v, q) && (q != r || v != uid)
  {
    var rest := RemovePlayer(s.rooms[r].world, uid).players;
    assert forall u :: u in rest <==> u in s.rooms[r].world.players && u != uid;
    hide RemovePlayer, LeaveWinner;
  }

  lemma VacateSeats(s: Shard, uid: Uid, r: RoomId, order: set<nat> -> seq<nat>)
    requires Seating(s) && Sits(s, uid, r)
    ensures Cleared(s, Vacate(s, uid, r, order), uid)
  {
    var s' := Vacate(s, uid, r, order);
    VacateIndex(s, uid, r, order);
    hide Vacate, Seating, Sits;
    forall v: Uid, q: RoomId ensures Sits(s', v, q) <==> Sits(s, v, q) && v != uid {
      VacateOne(s, uid, r, order, v, q);
      if v == uid && Sits(s, uid, q) { SeatIsUnique(s, uid, r, q); }
    }
  }

  lemma VacateIndex(s: Shard, uid: Uid, r: RoomId, order: set<nat> -> seq<nat>)
    requires r in s.rooms
    ensures Vacate(s, uid, r, order).uidToRoom == Remove(s.uidToRoom, uid)
  {
    hide RemovePlayer, LeaveWinner;
  }

  lemma VacateOk(s: Shard, uid: Uid, r: RoomId, order: set<nat> -> seq<nat>)
    requires ShardOk(s) && Sits(s, uid, r)
    ensures var s' := Vacate(s, uid, r, order);
            ShardOk(s') && Cleared(s, s', uid) && s'.nextRoomId == s.nextRoomId
  {
    hide Annals, Shape, Seating, Cleared;
    VacateShape(s, uid, r, order);
    VacateSeats(s, uid, r, order);
    VacateAnnals(s, uid, r, order);
    ClearedSeating(s, Vacate(s, uid, r, order), uid);
  }

  lemma VacateAnnals(s: Shard, uid: Uid, r: RoomId, order: set<nat> -> seq<nat>)
    requires Annals(s) && Shape(s) && r in s.rooms
    ensures Annals(Vacate(s, uid, r, order))
  {
    hide RoomOk, Annals, RemovePlayer, Playing, Ended, Agrees, Play, Heard, Chapter;
    var room := s.rooms[r];
    var s1 := s.(uidToRoom := Remove(s.uidToRoom, uid));
    IndexAnnals(s, s1);
    StoryOfRoom(s, r);
    ShapeAt(s, r);
    var w := RemovePlayer(room.world, uid);
    if w.players == map[] {
      RemoveAnnals(s1, r);
    } else {
      var said := if room.Active() then [GameOver(r, room.tick, LeaveWinner(w, order))] else [];
      if room.Active() {
        EndedNext(Chapter(s.log, r), r, room.tick, said[0].winner);
      } else {
        assert Chapter(s.log, r) + said == Chapter(s.log, r);
        RoomOver(room);
      }
      PutAnnals(s1, r, room.(world := w, over := room.over || room.Active()), said);
    }
  }

  lemma RoomOver(room: Room)
    requires RoomOk(room)
    ensures room.over ==> room.started
  {}

  lemma SeatedIn(s: Shard, uid: Uid)
    requires Seating(s)
    ensures uid in s.uidToRoom ==> Sits(s, uid, s.uidToRoom[uid])
    ensures uid !in s.uidToRoom ==> forall r: RoomId :: !Sits(s, uid, r)
  {}

  lemma ClearedRefl(s: Shard, uid: Uid)
    requires Seating(s) && uid !in s.uidToRoom
    ensures Cleared(s, s, uid)
  {
    SeatedIn(s, uid);
    assert Remove(s.uidToRoom, uid) == s.uidToRoom;
  }

  lemma LeaveAnyOk(s: Shard, uid: Uid, order: set<nat> -> seq<nat>)
    requires ShardOk(s)
    ensures var s' := LeaveAny(s, uid, order);
            ShardOk(s') && Cleared(s, s', uid) && s'.nextRoomId == s.nextRoomId
  {
    hide Shape, Annals, Cleared;
    SeatedIn(s, uid);
    if uid in s.uidToRoom { VacateOk(s, uid, s.uidToRoom[uid], order); } else { ClearedRefl(s, uid); }
  }

  // ---- entering ----

  /** uid, who sat nowhere, or there already, now sits in room r. */
  lemma SeatOk(s: Shard, uid: Uid, r: RoomId, room: Room)
    requires Seating(s)
    requires room.world.players.Keys == (if r in s.rooms then s.rooms[r].world.players.Keys else {}) + {uid}
    requires uid in s.uidToRoom ==> s.uidToRoom[uid] == r
    ensures Seating(PutRoom(s, r, room, []).(uidToRoom := s.uidToRoom[uid := r]))
  {
    var s' := PutRoom(s, r, room, []).(uidToRoom := s.uidToRoom[uid := r]);
    forall v: Uid, q: RoomId ensures Sits(s', v, q) <==> Sits(s, v, q) || (v == uid && q == r) {}
    forall v: Uid, q: RoomId ensures Sits(s', v, q) <==> v in s'.uidToRoom && s'.uidToRoom[v] == q {
      assert Sits(s, v, q) <==> v in s.uidToRoom && s.uidToRoom[v] == q;
    }
  }

  /** Entering changes no active room, so no story. */
  lemma EnterStory(s: Shard, r: RoomId, uid: Uid)
    requires Annals(s) && Shape(s) && r in s.rooms
    ensures Annals(PutRoom(s, r, Enter(s.rooms[r], uid), []))
  {
    hide RoomOk, Annals, Playing, Ended, Agrees, Play, Heard, Chapter, Enter;
    ShapeAt(s, r);
    StoryOfRoom(s, r);
    EnterOk(s.rooms[r], uid);
    assert Chapter(s.log, r) + [] == Chapter(s.log, r);
    EnterSame(s.rooms[r], uid);
    PutAnnals(s, r, Enter(s.rooms[r], uid), []);
  }

  lemma EnterSame(room: Room, uid: Uid)
    ensures Enter(room, uid) == room.(world := Enter(room, uid).world)
  {}

  /** What joining room r does: any other room is left first, and an active room is not entered. */
  ghost predicate JoinsOnly(s: Shard, s': Shard, uid: Uid, r: RoomId) {
    && (forall q: RoomId | q != r :: !Sits(s', uid, q))
    && (Sits(s', uid, r) && !Sits(s, uid, r) ==> r in s.rooms && !s.rooms[r].Active())
    && (forall v: Uid, q: RoomId | v != uid :: Sits(s', v, q) <==> Sits(s, v, q))
  }

  /** After leaving any other room, uid sits in r or nowhere, and the others sit where they sat. */
  lemma LeftOther(s: Shard, uid: Uid, r: RoomId, order: set<nat> -> seq<nat>)
    requires ShardOk(s)
    ensures var s1 := if uid in s.uidToRoom && s.uidToRoom[uid] != r then LeaveAny(s, uid, order) else s;
            && (uid in s1.uidToRoom ==> s1.uidToRoom[uid] == r)
            && (forall q: RoomId | q != r :: !Sits(s1, uid, q)) && (Sits(s1, uid, r) <==> Sits(s, uid, r))
            && (forall v: Uid, q: RoomId | v != uid :: Sits(s1, v, q) <==> Sits(s, v, q))
  {
    hide Shape, Annals, Sits, LeaveAny;
    LeaveAnyOk(s, uid, order);
  }

  /** Leaving another room leaves the record of room r alone. */
  lemma OtherRoomKept(s: Shard, uid: Uid, r: RoomId, order: set<nat> -> seq<nat>)
    requires uid in s.uidToRoom && s.uidToRoom[uid] != r
    ensures var s1 := LeaveAny(s, uid, order);
            (r in s1.rooms <==> r in s.rooms) && (r in s.rooms ==> s1.rooms[r] == s.rooms[r])
  {
    hide RemovePlayer, LeaveWinner;
  }

  /** Taking a seat in r changes nobody else's seat. */
  lemma SeatSits(s: Shard, uid: Uid, r: RoomId, room: Room, s': Shard)
    requires r in s.rooms && s'.rooms == s.rooms[r := room]
    requires room.world.players.Keys == s.rooms[r].world.players.Keys + {uid}
    ensures forall v: Uid, q: RoomId :: Sits(s', v, q) <==> Sits(s, v, q) || (v == uid && q == r)
  {}

  lemma JoinOk(s: Shard, uid: Uid, r: RoomId, order: set<nat> -> seq<nat>)
    requires ShardOk(s)
    ensures ShardOk(Join(s, uid, r, order)) && JoinsOnly(s, Join(s, uid, r, order), uid, r)
  {
    hide Shape, Annals, Seating, Cleared, LeaveAny, RoomOk, AddPlayer, Sits;
    LeaveAnyOk(s, uid, order);
    LeftOther(s, uid, r, order);
    var s1 := if uid in s.uidToRoom && s.uidToRoom[uid] != r then LeaveAny(s, uid, order) else s;
    if uid in s.uidToRoom && s.uidToRoom[uid] != r { OtherRoomKept(s, uid, r, order); }
    if r in s1.rooms && AddPlayer(s1.rooms[r].world, uid, s1.rooms[r].maxPlayers).Seated? {
      var room := Enter(s1.rooms[r], uid);
      ShapeAt(s1, r);
      EnterOk(s1.rooms[r], uid);
      EnterStory(s1, r, uid);
      PutShape(s1, r, room, []);
      SitsIn(s1, uid, r);
      hide Enter;
      SeatOk(s1, uid, r, room);
      IndexOk(PutRoom(s1, r, room, []), Join(s, uid, r, order));
      SeatSits(s1, uid, r, room, Join(s, uid, r, order));
    }
  }

  lemma SitsIn(s: Shard, uid: Uid, r: RoomId)
    requires r in s.rooms
    ensures Sits(s, uid, r) <==> uid in s.rooms[r].world.players
  {}

  lemma ClearedIndex(s: Shard, s': Shard, uid: Uid)
    requires Cleared(s, s', uid)
    ensures s'.uidToRoom == Remove(s.uidToRoom, uid)
  {}

  /** Shape and annals do not depend on the player index or the routes. */
  lemma IndexOk(s: Shard, s': Shard)
    requires Shape(s) && Annals(s) && s' == s.(uidToRoom := s'.uidToRoom, routes := s'.routes)
    ensures Shape(s') && Annals(s')
  {
    hide RoomOk;
    IndexAnnals(s, s');
    assert forall q | q in s'.rooms :: Issued(s', q) <==> Issued(s, q);
  }

  // ---- creating ----

  lemma NextIssued(s: Shard)
    requires s.shardId < s.shardCount && 0 < s.nextRoomId
    ensures var s' := s.(nextRoomId := s.nextRoomId + 1);
            && Issued(s', NewRoomId(s)) && NewRoomId(s) < NewRoomId(s')
            && forall q: RoomId :: Issued(s, q) ==> Issued(s', q)
  {
    var r := NewRoomId(s);
    Formation.DivOf(s.nextRoomId, s.shardId, s.shardCount);
    assert s.shardCount * s.nextRoomId == s.nextRoomId * s.shardCount;
    assert s.shardCount * (s.nextRoomId + 1) == s.shardCount * s.nextRoomId + s.shardCount;
    assert s.shardCount * s.nextRoomId > 0;
  }

  lemma NewRoomFree(s: Shard)
    requires Shape(s)
    ensures NewRoomId(s) !in s.rooms
  {
    hide RoomOk;
    if NewRoomId(s) in s.rooms { ShapeAt(s, NewRoomId(s)); }
  }

  lemma CreateAnnals(s: Shard, room: Room)
    requires Annals(s) && NewRoomId(s) !in s.rooms && !room.started && !room.over
    requires NewRoomId(s) < NewRoomId(s.(nextRoomId := s.nextRoomId + 1))
    ensures Annals(PutRoom(s, NewRoomId(s), room, []).(nextRoomId := s.nextRoomId + 1))
  {
    hide Chapter, ClosedStory, Playing, Ended, Agrees, Play, Heard;
    var r := NewRoomId(s);
    var s' := PutRoom(s, r, room, []).(nextRoomId := s.nextRoomId + 1);
    assert s'.log == s.log;
    forall q: RoomId ensures StoryAt(s', q) {
      assert StoryAt(s, q);
    }
  }

  lemma CreateShape(s: Shard, room: Room)
    requires Shape(s) && RoomOk(room) && room.id == NewRoomId(s) && room.world.players != map[]
    ensures Shape(PutRoom(s, NewRoomId(s), room, []).(nextRoomId := s.nextRoomId + 1))
  {
    hide RoomOk;
    var r := NewRoomId(s);
    NextIssued(s);
    var s' := PutRoom(s, r, room, []).(nextRoomId := s.nextRoomId + 1);
    forall q | q in s'.rooms
      ensures Issued(s', q) && s'.rooms[q].id == q && RoomOk(s'.rooms[q]) && s'.rooms[q].world.players != map[]
    {
      assert Issued(s', q) <==> Issued(s.(nextRoomId := s.nextRoomId + 1), q);
    }
  }

  /** A new room takes in its creator. */
  lemma FreshEnter(r: RoomId, maxPlayers: nat, uid: Uid)
    ensures var room := Enter(FreshRoom(r, maxPlayers), uid);
            RoomOk(room) && room.id == r && !room.started && !room.over && room.world.players.Keys == {uid}
  {
    FreshRoomOk(r, maxPlayers);
    EnterOk(FreshRoom(r, maxPlayers), uid);
    hide RoomOk;
  }

  lemma CreateOk(s: Shard, uid: Uid, maxPlayers: nat, order: set<nat> -> seq<nat>)
    requires ShardOk(s)
    ensures ShardOk(Create(s, uid, maxPlayers, order))
    ensures NewRoomId(s) !in s.rooms && Sits(Create(s, uid, maxPlayers, order), uid, NewRoomId(s))
  {
    hide Shape, Annals, Seating, Cleared, LeaveAny, RoomOk, Enter, FreshRoom;
    LeaveAnyOk(s, uid, order);
    var s1 := LeaveAny(s, uid, order);
    ClearedIndex(s, s1, uid);
    NewRoomFree(s);
    NewRoomFree(s1);
    SameShard(s, uid, order);
    var r := NewRoomId(s1);
    var room := Enter(FreshRoom(r, maxPlayers), uid);
    FreshEnter(r, maxPlayers, uid);
    assert room.world.players.Keys == {} + {uid};
    ShapeIds(s1);
    NextIssued(s1);
    CreateAnnals(s1, room);
    CreateShape(s1, room);
    SeatOk(s1, uid, r, room);
    var s2 := PutRoom(s1, r, room, []).(nextRoomId := s1.nextRoomId + 1);
    var s3 := Create(s, uid, maxPlayers, order);
    IndexOk(s2, s3);
    CountSeating(PutRoom(s1, r, room, []).(uidToRoom := s1.uidToRoom[uid := r]), s3);
  }

  /** A new room has two seats unless more are asked for, and never more than four; its creator sits in it alone. */
  lemma CreatedRoom(s: Shard, uid: Uid, maxPlayers: nat, order: set<nat> -> seq<nat>)
    requires ShardOk(s)
    ensures var s' := Create(s, uid, maxPlayers, order);
            && NewRoomId(s) in s'.rooms
            && var room := s'.rooms[NewRoomId(s)];
               && room.maxPlayers == (if maxPlayers == 0 then 2 else if maxPlayers > 4 then 4 else maxPlayers)
               && !room.started && room.tick == 0 && room.world.players == map[uid := Player(uid, 0, false)]
  {
    hide Shape, Annals, Seating, LeaveAny;
    LeaveAnyOk(s, uid, order);
    NewRoomFree(LeaveAny(s, uid, order));
    SameShard(s, uid, order);
    assert AddPlayer(EMPTY_WORLD, uid, NormalizeMaxPlayers(maxPlayers)).world.players
           == map[uid := Player(uid, 0, false)];
  }

  lemma ShapeIds(s: Shard)
    requires Shape(s)
    ensures s.shardId < s.shardCount && 0 < s.nextRoomId
  {}

  lemma SameShard(s: Shard, uid: Uid, order: set<nat> -> seq<nat>)
    ensures NewRoomId(LeaveAny(s, uid, order)) == NewRoomId(s)
  {
    hide RemovePlayer;
  }

  lemma CountSeating(s: Shard, s': Shard)
    requires Seating(s) && s' == s.(nextRoomId := s'.nextRoomId)
    ensures Seating(s')
  {
    forall uid: Uid, r: RoomId ensures Sits(s', uid, r) <==> Sits(s, uid, r) {}
  }

  // ---- every happening ----

  lemma LeaveTaskOk(s: Shard, uid: Uid, room: RoomId, hint: RoomId, order: set<nat> -> seq<nat>)
    requires ShardOk(s)
    ensures ShardOk(Leave(s, uid, room, hint, order))
  {
    hide Shape, Annals, Seating, Cleared, Vacate;
    var r := Named(s, uid, room, hint);
    if Sits(s, uid, r) { VacateOk(s, uid, r, order); }
  }

  lemma ReadyTaskOk(s: Shard, uid: Uid, room: RoomId, hint: RoomId, ready: bool, chance: Chance)
    requires ShardOk(s) && Enumerates(chance.order)
    ensures ShardOk(Ready(s, uid, room, hint, ready, chance))
  {
    hide Shape, Annals, Seating, ReadyRoom, RoomOk, RoomStory, Enumerates;
    var r := Named(s, uid, room, hint);
    if Sits(s, uid, r) {
      ShapeAt(s, r);
      StoryOfRoom(s, r);
      ReadyOk(s.rooms[r], uid, ready, chance, Chapter(s.log, r));
      PutOk(s, r, ReadyRoom(s.rooms[r], uid, ready, chance).0, ReadyRoom(s.rooms[r], uid, ready, chance).1);
    }
  }

  lemma OrderTaskOk(s: Shard, uid: Uid, hint: RoomId, payload: Payload)
    requires ShardOk(s)
    ensures ShardOk(Submit(s, uid, hint, payload))
  {
    hide Shape, Annals, Seating, RoomOk, RoomStory, Queued;
    var r := Resolve(s, uid, hint);
    if Sits(s, uid, r) && payload.Intent? {
      var room := s.rooms[r];
      var c := Queued(payload.command, uid);
      var v := Enqueued(room, c).world;
      ShapeAt(s, r);
      StoryOfRoom(s, r);
      QuietOk(room, v);
      StoryKept(Chapter(s.log, r), room, v);
      assert Chapter(s.log, r) + [] == Chapter(s.log, r);
      PutOk(s, r, room.(world := v), []);
    }
  }

  lemma RoutesOk(s: Shard, s': Shard)
    requires ShardOk(s) && s' == s.(routes := s'.routes)
    ensures ShardOk(s')
  {
    hide Shape, Annals;
    IndexOk(s, s');
    forall uid: Uid, r: RoomId ensures Sits(s', uid, r) <==> Sits(s, uid, r) {}
  }

  lemma HandleOk(s: Shard, task: Task, chance: Chance)
    requires ShardOk(s) && Enumerates(chance.order)
    ensures ShardOk(Handle(s, task, chance))
  {
    hide ShardOk, Create, Join, Leave, Ready, Submit, LeaveAny, Enumerates;
    RoutesOk(s, Registered(s, task));
    var s1 := Registered(s, task);
    match task.event
    case CreateRoom(n) => CreateOk(s1, task.uid, n, chance.order);
    case JoinRoom(r) => JoinOk(s1, task.uid, r, chance.order);
    case LeaveRoom(r, hint) => LeaveTaskOk(s1, task.uid, r, hint, chance.order);
    case PlayerReady(r, hint, ready) => ReadyTaskOk(s1, task.uid, r, hint, ready, chance);
    case PlayerCommand(hint, payload) => OrderTaskOk(s1, task.uid, hint, payload);
    case ClientDisconnected(client) =>
      var s2 := s1.(routes := Remove(s1.routes, client));
      RoutesOk(s1, s2);
      LeaveAnyOk(s2, client, chance.order);
    case EnterBattle(_, _) =>
    case Unreadable =>
  }

  lemma TickRoomOk(s: Shard, r: RoomId, env: Env)
    requires ShardOk(s)
    ensures ShardOk(TickRoom(s, r, env))
  {
    hide Shape, Annals, Seating, RoomOk, RoomStory, Advance, Match.Verdict, Broadcast;
    if r in s.rooms && s.rooms[r].Active() {
      ShapeAt(s, r);
      StoryOfRoom(s, r);
      TickedOk(s.rooms[r], env, Chapter(s.log, r));
      PutOk(s, r, Ticked(s.rooms[r], env).0, Ticked(s.rooms[r], env).1);
    }
  }

  lemma {:induction false} TickRoomsOk(s: Shard, ids: seq<RoomId>, envs: RoomId -> Env)
    requires ShardOk(s)
    ensures ShardOk(TickRooms(s, ids, envs))
  {
    hide ShardOk, TickRoom;
    if ids != [] {
      var rest := ids[..|ids| - 1];
      TickRoomsOk(s, rest, envs);
      TickRoomOk(TickRooms(s, rest, envs), ids[|ids| - 1], envs(ids[|ids| - 1]));
    }
  }

  /** The orders in which players are walked list each of them once; nothing is asked of the rest. */
  ghost predicate WalksOnce(hs: seq<Happening>) {
    forall i | 0 <= i < |hs| :: hs[i].Arrives? ==> Enumerates(hs[i].chance.order)
  }

  lemma EmptyOk(shardId: nat, shardCount: nat)
    requires shardId < shardCount
    ensures ShardOk(EmptyShard(shardId, shardCount))
  {}

  /**
   Whatever arrives and however often the clock ticks, in every reachable state of a shard: a player
   is indexed to a room exactly if it sits there, no room is empty, ids are new and in the shard's
   residue class, active rooms are full, and every room's announcements are one match told in order.
   */
  lemma {:induction false} ShardInvariant(s: Shard, hs: seq<Happening>)
    requires ShardOk(s) && WalksOnce(hs)
    ensures ShardOk(AfterAll(s, hs))
  {
    hide ShardOk, Handle, TickRooms, Enumerates;
    if hs != [] {
      var rest, h := hs[..|hs| - 1], hs[|hs| - 1];
      assert forall i | 0 <= i < |rest| :: rest[i] == hs[i];
      ShardInvariant(s, rest);
      var v := AfterAll(s, rest);
      match h {
        case Arrives(task, chance) => HandleOk(v, task, chance);
        case Ticks(envs, order) => TickRoomsOk(v, order(v.rooms.Keys), envs);
      }
    }
  }

  // ---- what the invariant says about announcements ----

  /** In order, with one start and at most one end, which comes last. */
  ghost predicate InOrder(ch: seq<Entry>) {
    && (forall i, j | 0 <= i < j < |ch| && ch[i].Frame? && ch[j].Frame? :: ch[i].tick < ch[j].tick)
    && (forall i | 0 <= i < |ch| :: ch[i].GameStart? <==> i == 0)
    && (forall i | 0 <= i < |ch| && ch[i].GameOver? :: i == |ch| - 1)
  }

  /** For every room that ever was: server ticks strictly increase and nothing follows the end of the game. */
  lemma AnnouncementsInOrder(s: Shard, r: RoomId)
    requires ShardOk(s)
    ensures InOrder(Chapter(s.log, r))
  {
    hide Chapter, Agrees, Play, Heard, RoomOk;
    var ch := Chapter(s.log, r);
    assert StoryAt(s, r);
    if r in s.rooms {
      ShapeAt(s, r);
      StoryCloses(ch, s.rooms[r]);
    }
    hide StoryAt, RoomStory;
    if Ended(ch, r) {
      assert forall i | 0 <= i < |ch| - 1 :: ch[i] == ch[..|ch| - 1][i];
    }
  }

  /** Everyone who heard all announcements of an active room knows its visible state. */
  lemma ListenersAgree(s: Shard, r: RoomId)
    requires ShardOk(s) && r in s.rooms && s.rooms[r].Active()
    ensures Agrees(Play(BLANK, Heard(Chapter(s.log, r))), s.rooms[r].world)
    ensures |s.rooms[r].world.players| == s.rooms[r].maxPlayers
    ensures forall uid | uid in s.rooms[r].world.ledgers :: s.rooms[r].world.ledgers[uid].Sum() < U32
  {
    hide Chapter, Agrees, Play, Heard, Economy.Wealth;
    StoryOfRoom(s, r);
    ShapeAt(s, r);
    forall uid | uid in s.rooms[r].world.ledgers ensures s.rooms[r].world.ledgers[uid].Sum() < U32 {
      StockBounds(s.rooms[r].world, uid);
    }
  }

  // ---- the life of a room ----

  /**
   Rooms do not come back, started rooms stay started, finished ones stay finished, and as long as a
   room is active its set of players does not change.
   */
  ghost predicate Later(s: Shard, s': Shard, r: RoomId) {
    && NewRoomId(s) <= NewRoomId(s')
    && (r < NewRoomId(s) && r !in s.rooms ==> r !in s'.rooms)
    && (r in s.rooms && s.rooms[r].started && r in s'.rooms ==>
          && s'.rooms[r].started && (s.rooms[r].over ==> s'.rooms[r].over)
          && s.rooms[r].tick <= s'.rooms[r].tick
          && (s'.rooms[r].Active() ==> s'.rooms[r].world.players.Keys == s.rooms[r].world.players.Keys))
  }

  lemma LaterRefl(s: Shard, r: RoomId)
    ensures Later(s, s, r)
  {}

  lemma LaterTrans(a: Shard, b: Shard, c: Shard, r: RoomId)
    requires Shape(a) && Later(a, b, r) && Later(b, c, r)
    ensures Later(a, c, r)
  {
    hide RoomOk;
    if r in a.rooms { ShapeAt(a, r); }
  }

  /** A step that gives one room a new record. */
  lemma PutLater(s: Shard, s': Shard, q: RoomId, room: Room, r: RoomId)
    requires q in s.rooms && s'.rooms == s.rooms[q := room] && NewRoomId(s') == NewRoomId(s)
    requires (s.rooms[q].started ==> room.started) && (s.rooms[q].over ==> room.over) && s.rooms[q].tick <= room.tick
    requires s.rooms[q].started && room.Active() ==> room.world.players.Keys == s.rooms[q].world.players.Keys
    ensures Later(s, s', r)
  {}

  lemma VacateLater(s: Shard, uid: Uid, q: RoomId, order: set<nat> -> seq<nat>, r: RoomId)
    requires q in s.rooms
    ensures Later(s, Vacate(s, uid, q, order), r)
  {
    hide RemovePlayer;
  }

  lemma LeaveAnyLater(s: Shard, uid: Uid, order: set<nat> -> seq<nat>, r: RoomId)
    ensures Later(s, LeaveAny(s, uid, order), r)
  {
    hide Vacate;
    if uid in s.uidToRoom && s.uidToRoom[uid] in s.rooms { VacateLater(s, uid, s.uidToRoom[uid], order, r); }
  }

  lemma CreateLater(s: Shard, uid: Uid, maxPlayers: nat, order: set<nat> -> seq<nat>, r: RoomId)
    requires ShardOk(s)
    ensures Later(s, Create(s, uid, maxPlayers, order), r)
  {
    hide LeaveAny, Annals, Seating, RoomOk, Enter, FreshRoom;
    LeaveAnyLater(s, uid, order, r);
    LeaveAnyOk(s, uid, order);
    var s1 := LeaveAny(s, uid, order);
    NewRoomFree(s1);
    NextIssued(s1);
    SameShard(s, uid, order);
    NewRoomFree(s);
  }

  lemma JoinLater(s: Shard, uid: Uid, q: RoomId, order: set<nat> -> seq<nat>, r: RoomId)
    requires ShardOk(s)
    ensures Later(s, Join(s, uid, q, order), r)
  {
    hide LeaveAny, Annals, Seating, RoomOk, Enter, AddPlayer, Later;
    LeaveAnyLater(s, uid, order, r);
    LeaveAnyOk(s, uid, order);
    LaterRefl(s, r);
    var s1 := if uid in s.uidToRoom && s.uidToRoom[uid] != q then LeaveAny(s, uid, order) else s;
    LaterRefl(s1, r);
    if q in s1.rooms && AddPlayer(s1.rooms[q].world, uid, s1.rooms[q].maxPlayers).Seated? {
      ShapeAt(s1, q);
      EnterOk(s1.rooms[q], uid);
      EnterSame(s1.rooms[q], uid);
      PutLater(s1, Join(s, uid, q, order), q, Enter(s1.rooms[q], uid), r);
      LaterTrans(s, s1, Join(s, uid, q, order), r);
    }
  }

  lemma ReadyLater(s: Shard, uid: Uid, room: RoomId, hint: RoomId, ready: bool, chance: Chance, r: RoomId)
    requires ShardOk(s) && Enumerates(chance.order)
    ensures Later(s, Ready(s, uid, room, hint, ready, chance), r)
  {
    hide Annals, Seating, RoomOk, RoomStory, Enumerates, Later, ReadyRoom;
    var q := Named(s, uid, room, hint);
    LaterRefl(s, r);
    if Sits(s, uid, q) {
      ShapeAt(s, q);
      StoryOfRoom(s, q);
      ReadyOk(s.rooms[q], uid, ready, chance, Chapter(s.log, q));
      ReadyPhase(s.rooms[q], uid, ready, chance);
      PutLater(s, Ready(s, uid, room, hint, ready, chance), q, ReadyRoom(s.rooms[q], uid, ready, chance).0, r);
    }
  }

  lemma ReadyPhase(room: Room, uid: Uid, ready: bool, chance: Chance)
    requires uid in room.world.players
    ensures var room' := ReadyRoom(room, uid, ready, chance).0;
            (room.started ==> room'.started) && room'.over == room.over && room'.tick == room.tick
  {
    hide Opening;
  }

  lemma TickRoomLater(s: Shard, q: RoomId, env: Env, r: RoomId)
    requires ShardOk(s)
    ensures Later(s, TickRoom(s, q, env), r)
  {
    hide Annals, Seating, RoomOk, RoomStory, Advance, Match.Verdict, Broadcast, Later;
    LaterRefl(s, r);
    if q in s.rooms && s.rooms[q].Active() {
      ShapeAt(s, q);
      StoryOfRoom(s, q);
      TickedOk(s.rooms[q], env, Chapter(s.log, q));
      PutLater(s, TickRoom(s, q, env), q, Ticked(s.rooms[q], env).0, r);
    }
  }

  lemma {:induction false} TickRoomsLater(s: Shard, ids: seq<RoomId>, envs: RoomId -> Env, r: RoomId)
    requires ShardOk(s)
    ensures Later(s, TickRooms(s, ids, envs), r)
  {
    hide Shape, Annals, Seating, TickRoom, Later;
    if ids == [] {
      LaterRefl(s, r);
    } else {
      var rest := ids[..|ids| - 1];
      var mid := TickRooms(s, rest, envs);
      TickRoomsLater(s, rest, envs, r);
      TickRoomsOk(s, rest, envs);
      TickRoomLater(mid, ids[|ids| - 1], envs(ids[|ids| - 1]), r);
      LaterTrans(s, mid, TickRooms(s, ids, envs), r);
    }
  }

  lemma RoutesLater(s: Shard, s': Shard, r: RoomId)
    requires s' == s.(routes := s'.routes)
    ensures Later(s, s', r) && forall x :: Later(s', x, r) ==> Later(s, x, r)
  {}

  lemma HandleLater(s: Shard, task: Task, chance: Chance, r: RoomId)
    requires ShardOk(s) && Enumerates(chance.order)
    ensures Later(s, Handle(s, task, chance), r)
  {
    hide ShardOk, Create, Join, Vacate, Ready, Enqueued, Queued, LeaveAny, Enumerates, Later;
    RoutesOk(s, Registered(s, task));
    RoutesLater(s, Registered(s, task), r);
    var s1 := Registered(s, task);
    LaterRefl(s1, r);
    match task.event
    case CreateRoom(n) => CreateLater(s1, task.uid, n, chance.order, r);
    case JoinRoom(q) => JoinLater(s1, task.uid, q, chance.order, r);
    case LeaveRoom(q, hint) =>
      if Named(s1, task.uid, q, hint) in s1.rooms {
        VacateLater(s1, task.uid, Named(s1, task.uid, q, hint), chance.order, r);
      }
    case PlayerReady(q, hint, ready) => ReadyLater(s1, task.uid, q, hint, ready, chance, r);
    case PlayerCommand(hint, payload) => OrderLater(s1, task.uid, hint, payload, r);
    case ClientDisconnected(client) =>
      var s2 := s1.(routes := Remove(s1.routes, client));
      RoutesLater(s1, s2, r);
      LeaveAnyLater(s2, client, chance.order, r);
    case EnterBattle(_, _) =>
    case Unreadable =>
  }

  lemma OrderLater(s: Shard, uid: Uid, hint: RoomId, payload: Payload, r: RoomId)
    ensures Later(s, Submit(s, uid, hint, payload), r)
  {
    hide Queued;
  }

  lemma {:induction false} RoomLife(s: Shard, hs: seq<Happening>, r: RoomId)
    requires ShardOk(s) && WalksOnce(hs)
    ensures Later(s, AfterAll(s, hs), r)
  {
    hide Shape, Annals, Seating, Handle, TickRooms, Enumerates, Later;
    if hs == [] {
      LaterRefl(s, r);
    } else {
      var rest, h := hs[..|hs| - 1], hs[|hs| - 1];
      assert forall i | 0 <= i < |rest| :: rest[i] == hs[i];
      RoomLife(s, rest, r);
      ShardInvariant(s, rest);
      var v := AfterAll(s, rest);
      match h {
        case Arrives(task, chance) => HandleLater(v, task, chance, r);
        case Ticks(envs, order) => TickRoomsLater(v, order(v.rooms.Keys), envs, r);
      }
      LaterTrans(s, v, AfterAll(s, hs), r);
    }
  }

  // ---- disconnecting ----

  /** The shard knows nothing of uid: no seat, no index entry, no way to reply. */
  ghost predicate Unknown(s: Shard, uid: Uid) {
    uid !in s.routes && uid !in s.uidToRoom && forall r: RoomId :: !Sits(s, uid, r)
  }

  lemma DisconnectForgets(s: Shard, uid: Uid, task: Task, chance: Chance)
    requires ShardOk(s) && uid != 0 && task.uid == 0 && task.event == ClientDisconnected(uid)
    ensures Unknown(Handle(s, task, chance), uid)
  {
    hide Shape, Annals, LeaveAny;
    var s1 := s.(routes := Remove(s.routes, uid));
    RoutesOk(s, s1);
    LeaveAnyOk(s1, uid, chance.order);
    LeaveAnyRoutes(s1, uid, chance.order);
  }

  lemma LeaveAnyRoutes(s: Shard, uid: Uid, order: set<nat> -> seq<nat>)
    ensures LeaveAny(s, uid, order).routes == s.routes
  {
    hide RemovePlayer;
  }

  /** Nothing in the batch comes from uid. */
  ghost predicate Silent(hs: seq<Happening>, uid: Uid) {
    forall i | 0 <= i < |hs| :: hs[i].Arrives? ==> hs[i].task.uid != uid
  }

  /** Only the sender of a task can be added to the index or the routes. */
  ghost predicate Adds(s: Shard, s': Shard, uid: Uid) {
    && (forall v | v in s'.uidToRoom :: v in s.uidToRoom || v == uid)
    && (forall v | v in s'.routes :: v in s.routes || v == uid)
  }

  lemma LeaveAnyAdds(s: Shard, who: Uid, order: set<nat> -> seq<nat>, uid: Uid)
    ensures Adds(s, LeaveAny(s, who, order), uid)
  {
    hide RemovePlayer;
  }

  lemma HandleAdds(s: Shard, task: Task, chance: Chance)
    ensures Adds(s, Handle(s, task, chance), task.uid)
  {
    hide LeaveAny, Vacate, Enter, FreshRoom, ReadyRoom, Queued, Enqueued, AddPlayer;
    var s1 := Registered(s, task);
    match task.event
    case CreateRoom(n) => LeaveAnyAdds(s1, task.uid, chance.order, task.uid);
    case JoinRoom(r) => LeaveAnyAdds(s1, task.uid, chance.order, task.uid);
    case LeaveRoom(r, hint) =>
      var q := Named(s1, task.uid, r, hint);
      if q in s1.rooms { VacateAdds(s1, task.uid, q, chance.order); }
    case ClientDisconnected(client) =>
      LeaveAnyAdds(s1.(routes := Remove(s1.routes, client)), client, chance.order, task.uid);
    case _ =>
  }

  lemma VacateAdds(s: Shard, uid: Uid, r: RoomId, order: set<nat> -> seq<nat>)
    requires r in s.rooms
    ensures Adds(s, Vacate(s, uid, r, order), uid)
  {
    hide RemovePlayer;
  }

  lemma {:induction false} TickRoomsAdds(s: Shard, ids: seq<RoomId>, envs: RoomId -> Env)
    ensures TickRooms(s, ids, envs).uidToRoom == s.uidToRoom && TickRooms(s, ids, envs).routes == s.routes
  {
    hide Advance, Broadcast, Match.Verdict;
    if ids != [] { TickRoomsAdds(s, ids[..|ids| - 1], envs); }
  }

  lemma {:induction false} SilentAdds(s: Shard, hs: seq<Happening>, uid: Uid)
    requires Silent(hs, uid) && uid !in s.uidToRoom && uid !in s.routes
    ensures uid !in AfterAll(s, hs).uidToRoom && uid !in AfterAll(s, hs).routes
  {
    hide Handle, TickRooms;
    if hs != [] {
      var rest, h := hs[..|hs| - 1], hs[|hs| - 1];
      assert forall i | 0 <= i < |rest| :: rest[i] == hs[i];
      SilentAdds(s, rest, uid);
      var v := AfterAll(s, rest);
      match h {
        case Arrives(task, chance) => HandleAdds(v, task, chance);
        case Ticks(envs, order) => TickRoomsAdds(v, order(v.rooms.Keys), envs);
      }
    }
  }

  /**
   Once a shard has processed the notice that uid disconnected, it knows nothing of uid, and that
   lasts until a task from uid itself arrives. Every shard gets the notice, so this holds on all.
   */
  lemma DisconnectLasts(s: Shard, notice: Task, chance: Chance, hs: seq<Happening>, uid: Uid)
    requires ShardOk(s) && Enumerates(chance.order) && WalksOnce(hs) && Silent(hs, uid)
    requires uid != 0 && notice.uid == 0 && notice.event == ClientDisconnected(uid)
    ensures Unknown(AfterAll(Handle(s, notice, chance), hs), uid)
  {
    hide Shape, Annals, Handle, Enumerates, AfterAll;
    DisconnectForgets(s, uid, notice, chance);
    HandleOk(s, notice, chance);
    SilentAdds(Handle(s, notice, chance), hs, uid);
    ShardInvariant(Handle(s, notice, chance), hs);
    SeatedIn(AfterAll(Handle(s, notice, chance), hs), uid);
  }
}
