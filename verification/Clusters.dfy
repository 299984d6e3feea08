/**
 Several logic shards side by side: which of them a message reaches (NetworkShard.cc, ResolveLogicShard
 and HandleClientDisconnected), and when a player has one seat in all of them together.
 */
module Clusters {
  import opened Entities
  import opened Simulation
  import opened Lobby
  import opened Shards
  import opened ShardLaws
  import Links

  /** n shards, numbered from zero. */
  ghost predicate Cluster(shards: seq<Shard>) {
    forall i | 0 <= i < |shards| :: ShardOk(shards[i]) && shards[i].shardId == i && shards[i].shardCount == |shards|
  }

  /** A message that names an existing room reaches the one shard that holds it. */
  lemma RoutingFindsRoom(shards: seq<Shard>, i: nat, r: RoomId, hint: RoomId)
    requires Cluster(shards) && i < |shards| && r in shards[i].rooms
    ensures Links.ShardOf(r, hint, |shards|) == i && Links.ShardOf(0, r, |shards|) == i
    ensures forall j | 0 <= j < |shards| && j != i :: r !in shards[j].rooms
  {
    hide RoomOk, Annals, Seating;
    forall j | 0 <= j < |shards| ensures r in shards[j].rooms ==> r % |shards| == j && r > 0 {
      if r in shards[j].rooms { ShapeAt(shards[j], r); }
    }
  }

  // ---- one seat in all ----

  /** At most one shard has a seat for uid. */
  ghost predicate OneSeat(shards: seq<Shard>, uid: Uid) {
    forall i, j | 0 <= i < |shards| && 0 <= j < |shards|
                  && uid in shards[i].uidToRoom && uid in shards[j].uidToRoom :: i == j
  }

  /** No shard but number i has one. */
  ghost predicate NowhereElse(shards: seq<Shard>, i: nat, uid: Uid) {
    forall j | 0 <= j < |shards| && j != i :: uid !in shards[j].uidToRoom
  }

  /** Room r is there and has a seat for uid. */
  predicate Admits(s: Shard, uid: Uid, r: RoomId) {
    r in s.rooms && (uid in s.rooms[r].world.players || |s.rooms[r].world.players| < s.rooms[r].maxPlayers)
  }

  /** The happening gives uid a seat on the shard: it creates a room, or joins one that admits it. */
  predicate Takes(s: Shard, h: Happening, uid: Uid) {
    h.Arrives? && h.task.uid == uid
    && match h.task.event
       case CreateRoom(_) => true
       case JoinRoom(r) => Admits(s, uid, r)
       case _ => false
  }

  lemma JoinSeats(s: Shard, uid: Uid, r: RoomId, order: set<nat> -> seq<nat>)
    ensures Admits(s, uid, r) ==> uid in Join(s, uid, r, order).uidToRoom
    ensures !Admits(s, uid, r) ==> forall v | v in Join(s, uid, r, order).uidToRoom :: v in s.uidToRoom
  {
    hide LeaveAny, Enter;
    LeaveAnyRemoves(s, uid, order);
    if uid in s.uidToRoom && s.uidToRoom[uid] != r { OtherRoomKept(s, uid, r, order); }
  }

  lemma VacateRemoves(s: Shard, uid: Uid, r: RoomId, order: set<nat> -> seq<nat>)
    requires r in s.rooms
    ensures Vacate(s, uid, r, order).uidToRoom == Remove(s.uidToRoom, uid)
  {
    hide RemovePlayer, LeaveWinner;
  }

  lemma LeaveAnyRemoves(s: Shard, uid: Uid, order: set<nat> -> seq<nat>)
    ensures forall v | v in LeaveAny(s, uid, order).uidToRoom :: v in s.uidToRoom
  {
    hide Vacate;
    if uid in s.uidToRoom && s.uidToRoom[uid] in s.rooms { VacateRemoves(s, uid, s.uidToRoom[uid], order); }
  }

  /** A task of uid's own gives it a seat exactly if it takes one; whoever else has a seat had it before. */
  lemma OwnTaskSeats(s: Shard, task: Task, chance: Chance)
    ensures Takes(s, Arrives(task, chance), task.uid) ==> task.uid in Handle(s, task, chance).uidToRoom
    ensures !Takes(s, Arrives(task, chance), task.uid) ==>
              forall v | v in Handle(s, task, chance).uidToRoom :: v in s.uidToRoom
  {
    hide LeaveAny, Vacate, Enter, FreshRoom, ReadyRoom, Queued, Enqueued, AddPlayer, Join, Admits;
    var s1 := Registered(s, task);
    match task.event
    case CreateRoom(n) => LeaveAnyRemoves(s1, task.uid, chance.order);
    case JoinRoom(r) =>
      JoinSeats(s1, task.uid, r, chance.order);
      assert Admits(s1, task.uid, r) == Admits(s, task.uid, r) by { AdmitsRoutes(s, s1, task.uid, r); }
    case LeaveRoom(r, hint) =>
      var q := Named(s1, task.uid, r, hint);
      if q in s1.rooms { VacateRemoves(s1, task.uid, q, chance.order); }
    case ClientDisconnected(client) =>
      LeaveAnyRemoves(s1.(routes := Remove(s1.routes, client)), client, chance.order);
    case _ =>
  }

  lemma AdmitsRoutes(s: Shard, s': Shard, uid: Uid, r: RoomId)
    requires s'.rooms == s.rooms
    ensures Admits(s', uid, r) == Admits(s, uid, r)
  {}

  /** Whether uid has a seat on the shard after a happening. */
  lemma SeatAfter(s: Shard, h: Happening, uid: Uid)
    ensures Takes(s, h, uid) ==> uid in After(s, h).uidToRoom
    ensures !Takes(s, h, uid) && uid in After(s, h).uidToRoom ==> uid in s.uidToRoom
  {
    hide Handle, TickRooms, Admits;
    match h
    case Arrives(task, chance) =>
      OwnTaskSeats(s, task, chance);
      HandleAdds(s, task, chance);
    case Ticks(envs, order) => TickRoomsAdds(s, order(s.rooms.Keys), envs);
  }

  /**
   A player who has at most one seat keeps at most one exactly if the happening does not seat it on one
   shard while another has a seat for it. Creating and joining are the only happenings that can break it.
   */
  lemma HappeningKeepsOneSeat(shards: seq<Shard>, i: nat, h: Happening, uid: Uid)
    requires Cluster(shards) && i < |shards| && OneSeat(shards, uid)
    ensures OneSeat(shards[i := After(shards[i], h)], uid)
            <==> (Takes(shards[i], h, uid) ==> NowhereElse(shards, i, uid))
  {
    hide After, Takes, Cluster;
    SeatAfter(shards[i], h, uid);
    var next := shards[i := After(shards[i], h)];
    assert next[i] == After(shards[i], h);
    if Takes(shards[i], h, uid) && OneSeat(next, uid) {
      forall j | 0 <= j < |shards| && j != i ensures uid !in shards[j].uidToRoom {
        assert next[j] == shards[j];
      }
    }
    if Takes(shards[i], h, uid) ==> NowhereElse(shards, i, uid) {
      forall j, k | 0 <= j < |next| && 0 <= k < |next| && uid in next[j].uidToRoom && uid in next[k].uidToRoom
        ensures j == k
      {
        assert j != i ==> next[j] == shards[j];
        assert k != i ==> next[k] == shards[k];
      }
    }
  }

  // ---- runs of a cluster ----

  /** Something happens on one of the shards. */
  datatype Step = Step(shard: nat, happening: Happening)

  ghost function ClusterAfter(shards: seq<Shard>, steps: seq<Step>): (after: seq<Shard>)
    ensures |after| == |shards|
  {
    if steps == [] then shards
    else
      var before, step := ClusterAfter(shards, steps[..|steps| - 1]), steps[|steps| - 1];
      if step.shard < |shards| then before[step.shard := After(before[step.shard], step.happening)] else before
  }

  ghost predicate StepsWalkOnce(steps: seq<Step>) {
    forall n | 0 <= n < |steps| :: WalksOnce([steps[n].happening])
  }

  lemma AfterSameShard(s: Shard, h: Happening)
    requires ShardOk(s) && WalksOnce([h])
    ensures ShardOk(After(s, h)) && After(s, h).shardId == s.shardId && After(s, h).shardCount == s.shardCount
  {
    hide ShardOk, Handle, TickRooms, Enumerates;
    assert [h][0] == h;
    match h
    case Arrives(task, chance) =>
      HandleOk(s, task, chance);
      HandleSameShard(s, task, chance);
    case Ticks(envs, order) =>
      TickRoomsOk(s, order(s.rooms.Keys), envs);
      TickRoomsSameShard(s, order(s.rooms.Keys), envs);
  }

  lemma LeaveAnySameShard(s: Shard, uid: Uid, order: set<nat> -> seq<nat>)
    ensures LeaveAny(s, uid, order).shardId == s.shardId && LeaveAny(s, uid, order).shardCount == s.shardCount
  {
    hide RemovePlayer, LeaveWinner;
  }

  lemma HandleSameShard(s: Shard, task: Task, chance: Chance)
    ensures Handle(s, task, chance).shardId == s.shardId && Handle(s, task, chance).shardCount == s.shardCount
  {
    hide LeaveAny, Enter, FreshRoom, ReadyRoom, Queued, Enqueued, AddPlayer, RemovePlayer, LeaveWinner;
    var s1 := Registered(s, task);
    LeaveAnySameShard(s1, task.uid, chance.order);
    match task.event
    case ClientDisconnected(client) =>
      LeaveAnySameShard(s1.(routes := Remove(s1.routes, client)), client, chance.order);
    case _ =>
  }

  lemma {:induction false} TickRoomsSameShard(s: Shard, ids: seq<RoomId>, envs: RoomId -> Env)
    ensures TickRooms(s, ids, envs).shardId == s.shardId && TickRooms(s, ids, envs).shardCount == s.shardCount
  {
    hide TickRoom;
    if ids != [] {
      var rest := ids[..|ids| - 1];
      TickRoomsSameShard(s, rest, envs);
      TickRoomSameShard(TickRooms(s, rest, envs), ids[|ids| - 1], envs(ids[|ids| - 1]));
    }
  }

  lemma TickRoomSameShard(s: Shard, r: RoomId, env: Env)
    ensures TickRoom(s, r, env).shardId == s.shardId && TickRoom(s, r, env).shardCount == s.shardCount
  {}

  lemma {:induction false} ClusterKept(shards: seq<Shard>, steps: seq<Step>)
    requires Cluster(shards) && StepsWalkOnce(steps)
    ensures Cluster(ClusterAfter(shards, steps))
  {
    hide ShardOk, After, WalksOnce;
    if steps != [] {
      var rest, step := steps[..|steps| - 1], steps[|steps| - 1];
      assert forall n | 0 <= n < |rest| :: rest[n] == steps[n];
      ClusterKept(shards, rest);
      var before := ClusterAfter(shards, rest);
      if step.shard < |shards| { AfterSameShard(before[step.shard], step.happening); }
    }
  }

  /** The step seats uid on a shard only if no other shard has a seat for it. */
  ghost predicate Careful(shards: seq<Shard>, step: Step, uid: Uid) {
    step.shard < |shards| && Takes(shards[step.shard], step.happening, uid) ==> NowhereElse(shards, step.shard, uid)
  }

  lemma ClusterNext(shards: seq<Shard>, steps: seq<Step>, n: nat)
    requires n < |steps|
    ensures var before, step := ClusterAfter(shards, steps[..n]), steps[n];
            ClusterAfter(shards, steps[..n + 1])
            == if step.shard < |shards| then before[step.shard := After(before[step.shard], step.happening)] else before
  {
    hide After;
    assert steps[..n + 1][..n] == steps[..n];
  }

  lemma StepKeepsOneSeat(shards: seq<Shard>, steps: seq<Step>, n: nat, uid: Uid)
    requires Cluster(shards) && StepsWalkOnce(steps) && n < |steps| && OneSeat(ClusterAfter(shards, steps[..n]), uid)
    ensures OneSeat(ClusterAfter(shards, steps[..n + 1]), uid)
            <==> Careful(ClusterAfter(shards, steps[..n]), steps[n], uid)
  {
    hide Cluster, After, OneSeat, Takes, NowhereElse, WalksOnce;
    assert forall k | 0 <= k < n :: steps[..n][k] == steps[k];
    ClusterKept(shards, steps[..n]);
    ClusterNext(shards, steps, n);
    var before, step := ClusterAfter(shards, steps[..n]), steps[n];
    if step.shard < |shards| { HappeningKeepsOneSeat(before, step.shard, step.happening, uid); }
  }

  /**
   Over any run of a cluster: a player has at most one seat in all at every moment exactly if it has at
   the start and no step seats it on a shard while another shard has a seat for it.
   */
  lemma OneSeatThroughout(shards: seq<Shard>, steps: seq<Step>, uid: Uid)
    requires Cluster(shards) && StepsWalkOnce(steps)
    ensures (forall n | 0 <= n <= |steps| :: OneSeat(ClusterAfter(shards, steps[..n]), uid))
            <==> OneSeat(shards, uid)
                 && forall n | 0 <= n < |steps| :: Careful(ClusterAfter(shards, steps[..n]), steps[n], uid)
  {
    hide Cluster, OneSeat, Careful, StepsWalkOnce;
    assert ClusterAfter(shards, steps[..0]) == shards;
    hide ClusterAfter;
    if forall n | 0 <= n <= |steps| :: OneSeat(ClusterAfter(shards, steps[..n]), uid) {
      forall n | 0 <= n < |steps| ensures Careful(ClusterAfter(shards, steps[..n]), steps[n], uid) {
        StepKeepsOneSeat(shards, steps, n, uid);
      }
    }
    if OneSeat(shards, uid) && forall n | 0 <= n < |steps| :: Careful(ClusterAfter(shards, steps[..n]), steps[n], uid) {
      forall n | 0 <= n <= |steps| ensures OneSeat(ClusterAfter(shards, steps[..n]), uid) {
        CarefulSoFar(shards, steps, n, uid);
      }
    }
  }

  lemma {:induction false} CarefulSoFar(shards: seq<Shard>, steps: seq<Step>, n: nat, uid: Uid)
    requires Cluster(shards) && StepsWalkOnce(steps) && n <= |steps| && OneSeat(shards, uid)
    requires forall k | 0 <= k < n :: Careful(ClusterAfter(shards, steps[..k]), steps[k], uid)
    ensures OneSeat(ClusterAfter(shards, steps[..n]), uid)
  {
    hide Cluster, OneSeat, Careful, StepsWalkOnce;
    if n == 0 {
      assert ClusterAfter(shards, steps[..0]) == shards;
    } else {
      CarefulSoFar(shards, steps, n - 1, uid);
      StepKeepsOneSeat(shards, steps, n - 1, uid);
    }
    hide ClusterAfter;
  }

  /** The case where it fails: on two shards without rooms, a player creates a room on each. */
  lemma TwoShardsTwoRooms(uid: Uid, origin: Links.Route, maxPlayers: nat, chance: Chance)
    requires Enumerates(chance.order)
    ensures var h := Arrives(Task(uid, origin, CreateRoom(maxPlayers)), chance);
            var end := ClusterAfter([EmptyShard(0, 2), EmptyShard(1, 2)], [Step(0, h), Step(1, h)]);
            && Cluster(end) && Sits(end[0], uid, 2) && Sits(end[1], uid, 3) && !OneSeat(end, uid)
  {
    hide ShardOk, Create, Enumerates;
    EmptyOk(0, 2);
    EmptyOk(1, 2);
    var task := Task(uid, origin, CreateRoom(maxPlayers));
    var h := Arrives(task, chance);
    var start, steps := [EmptyShard(0, 2), EmptyShard(1, 2)], [Step(0, h), Step(1, h)];
    ClusterKept(start, steps);
    ClusterNext(start, steps, 0);
    ClusterNext(start, steps, 1);
    assert steps[..0] == [] && steps[..2] == steps;
    var a, b := Registered(EmptyShard(0, 2), task), Registered(EmptyShard(1, 2), task);
    RoutesOk(EmptyShard(0, 2), a);
    RoutesOk(EmptyShard(1, 2), b);
    CreateOk(a, uid, maxPlayers, chance.order);
    CreateOk(b, uid, maxPlayers, chance.order);
    SeatAfter(EmptyShard(0, 2), h, uid);
    SeatAfter(EmptyShard(1, 2), h, uid);
  }

  // ---- disconnecting ----

  /** The fan-out posts one notice to every shard; once each has processed its own, none of them knows uid. */
  lemma DisconnectEverywhere(shards: seq<Shard>, chance: Chance, after: seq<seq<Happening>>, uid: Uid)
    requires Cluster(shards) && |after| == |shards| && Enumerates(chance.order) && uid != 0
    requires forall i | 0 <= i < |after| :: WalksOnce(after[i]) && Silent(after[i], uid)
    ensures var posts := Notices(uid, |shards|);
            && |posts| == |shards|
            && forall i | 0 <= i < |shards| ::
                 posts[i].shard == i && Unknown(AfterAll(Handle(shards[i], posts[i].task, chance), after[i]), uid)
  {
    hide ShardOk, Handle, Enumerates, AfterAll, Unknown;
    var posts := Notices(uid, |shards|);
    forall i | 0 <= i < |shards| ensures Unknown(AfterAll(Handle(shards[i], posts[i].task, chance), after[i]), uid) {
      DisconnectLasts(shards[i], posts[i].task, chance, after[i], uid);
    }
  }
}
