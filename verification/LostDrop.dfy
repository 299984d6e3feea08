/**
 A loss that a snapshot in flight does not repair, with messages a room really sends: while the
 snapshot of the last tick is still being written a worker is stopped and puts its load down; the link
 is busy with other traffic, and its full queue drops the message that announces the load. The snapshot
 arrives after the loss, and the client never hears of the load.
 */
module LostDrop {
  import opened Entities
  import opened Simulation
  import opened Laws
  import opened Tracking
  import opened Replication
  import opened SendQueue

  // ---- the room ----

  const PLAYER: Uid := 7
  const ROOM: nat := 1
  const WORKER: Id := 1
  const LOAD: Id := 2

  /** A worker that stands still with one berry. */
  const LOADED: Unit := NewUnit(WORKER, PLAYER, 0, VILLAGER, ORIGIN, 100.0, MOVE_SPEED, 0.0).(carried := 1)

  const RESTED: Unit := Stopped(LOADED).(carried := 0)

  const CAMP: World :=
    EMPTY_WORLD.(players := map[PLAYER := Player(PLAYER, 0, true)], ledgers := map[PLAYER := START_LEDGER],
                 nextId := LOAD, units := map[WORKER := LOADED])

  const STOP: Command := Command(StopCmd, PLAYER, 0, [WORKER], ORIGIN, [], 0, 0, 0.0)

  /** The camp after the worker has put its load down. */
  const RESTING: World :=
    CAMP.(nextId := LOAD + 1, units := map[WORKER := RESTED], drops := map[LOAD := Drop(LOAD, 0, ORIGIN, 1)],
          marks := NO_MARKS.(dirty := {WORKER}, dropSpawned := [LOAD]))

  lemma CampWellFormed()
    ensures WellFormed(CAMP) && CAMP.marks == NO_MARKS
  {}

  // ---- one tick ----

  lemma StopSheds(e: Env)
    ensures Obey(e, Halt, 0, 1, LOADED) == Outcome(RESTED, Shed(0, 1))
    ensures RESTED.id == WORKER && RESTED.pos == ORIGIN && RESTED.task == NoTask && RESTED.attackTarget == 0
    ensures !RESTED.hasTarget && CoolDown(RESTED.attackCd, TICK_SECONDS) == RESTED.attackCd && RESTED.hp > 0.0
  {}

  lemma WorkerIsOwned(w: World)
    requires w.units == CAMP.units
    ensures Addressees(w, STOP) == [WORKER]
  {
    var ids := [WORKER];
    assert ids[..0] == [];
    assert Owns(w, PLAYER, WORKER);
    assert OwnedIds(w, PLAYER, ids) == OwnedIds(w, PLAYER, ids[..0]) + [WORKER];
    assert OwnedIds(w, PLAYER, ids[..0]) == [];
    hide Owns, CAMP;
  }

  lemma CommitShed(w: World)
    requires w == CAMP.(pending := w.pending)
    ensures Feasible(w, Outcome(RESTED, Shed(0, 1)))
    ensures Commit(w, Outcome(RESTED, Shed(0, 1))) == RESTING.(pending := w.pending)
  {
    hide RESTED;
    StopSheds(Env(_ => 0.0, _ => 0.0, _ => 0.0, _ => 0.0, (_, _) => ORIGIN, _ => []));
    assert w.units[WORKER := RESTED] == map[WORKER := RESTED];
  }

  lemma ApplyStop(e: Env, w: World)
    requires w == CAMP.(pending := [STOP])
    ensures ApplyPending(e, w) == RESTING
  {
    assert [STOP][..0] == [];
    assert ApplyAll(e, w, [STOP]) == Apply(e, w, STOP);
    WorkerIsOwned(w);
    var o := Outcome(RESTED, Shed(0, 1));
    StopSheds(e);
    CommitShed(w);
    hide Commit, Addressees, Obey, RESTED, LOADED;
    assert OrderOf(e, w, STOP) == Halt;
    assert Give(e, w, Halt, [WORKER], 0) == w;
    assert Give(e, w, Halt, [WORKER], 1) == Settle(w, React(o));
  }

  /** A worker at rest does nothing in a frame without a scan. */
  lemma RestingTurn(e: Env, w: World, id: Id)
    requires w.units == RESTING.units
    ensures Turn(e, w, id, false, TICK_SECONDS) == w
  {
    StopSheds(e);
    hide RESTED;
    if id == WORKER {
      assert w.units[WORKER := RESTED.(attackCd := RESTED.attackCd)] == w.units;
      assert Cool(w, id, TICK_SECONDS) == w;
      assert Decide(e, w, RESTED, TICK_SECONDS) == Ignore;
    }
  }

  lemma {:induction false} RestingTurns(e: Env, w: World, ids: seq<Id>)
    requires w.units == RESTING.units
    ensures Turns(e, w, ids, false, TICK_SECONDS) == w
  {
    hide Turn;
    if ids != [] {
      RestingTurns(e, w, ids[..|ids| - 1]);
      RestingTurn(e, w, ids[|ids| - 1]);
    }
  }

  lemma {:induction false} NoTrainings(e: Env, w: World, ids: seq<Id>)
    requires w.buildings == map[]
    ensures Trainings(e, w, ids, TICK_SECONDS) == w && SweepBuildings(w, ids) == w
  {
    if ids != [] { NoTrainings(e, w, ids[..|ids| - 1]); }
  }

  lemma {:induction false} NobodySwept(w: World, ids: seq<Id>)
    requires forall k | k in w.units :: w.units[k].hp > 0.0
    ensures SweepUnits(w, ids) == w
  {
    if ids != [] { NobodySwept(w, ids[..|ids| - 1]); }
  }

  lemma RestingStep(e: Env, w: World)
    requires w == RESTING
    ensures Step(e, w, TICK_SECONDS) == RESTING.(scanTick := 1)
  {
    var w0 := NextScan(w);
    StopSheds(e);
    hide RESTED, Turns, Trainings, SweepUnits, SweepBuildings;
    RestingTurns(e, w0, e.enum(w0.units.Keys));
    NoTrainings(e, w0, e.enum(w0.buildings.Keys));
    NobodySwept(w0, e.enum(w0.units.Keys));
  }

  lemma StopTick(e: Env)
    ensures Advance(CAMP, Input(e, [STOP])) == RESTING.(scanTick := 1)
  {
    hide ApplyPending, Step;
    var w0 := CAMP.(pending := CAMP.pending + [STOP]);
    assert CAMP.pending + [STOP] == [STOP];
    ApplyStop(e, w0);
    assert TakeRejected(RESTING) == RESTING;
    RestingStep(e, RESTING);
  }

  // ---- what the tick sends ----

  const ANNOUNCED: Message := DropSpawned(Drop(LOAD, 0, ORIGIN, 1))

  const CHANGED: Message := Delta(map[WORKER := ViewUnit(RESTED)], map[], map[])

  lemma RestingMessages(w: World)
    requires w == RESTING.(scanTick := 1)
    ensures DeltaMessages(w) == [ANNOUNCED, CHANGED]
  {
    hide ViewUnit, RESTED;
    assert [LOAD][..0] == [];
    assert DropSpawns(w.drops, [LOAD]) == [ANNOUNCED];
    assert SpawnMessages(w) == [ANNOUNCED];
    assert DespawnMessages(w.marks) == [];
    var changes := Changes(w);
    assert changes.units == map[WORKER := ViewUnit(RESTED)];
    assert changes.sites == map[] && changes.ledgers == map[];
    assert WORKER in changes.units;
    assert changes != Delta(map[], map[], map[]);
  }

  /** The tick after a snapshot tick, in which the worker is stopped. */
  lemma StopSent(e: Env)
    ensures Sent(CAMP, SNAPSHOT_INTERVAL, [Input(e, [STOP])]) == [ANNOUNCED, CHANGED]
    ensures Run(CAMP, [Input(e, [STOP])]) == ClearMarks(RESTING.(scanTick := 1))
  {
    var inputs := [Input(e, [STOP])];
    hide Advance, DeltaMessages;
    assert inputs[..0] == [];
    StopTick(e);
    RestingMessages(RESTING.(scanTick := 1));
  }

  // ---- the link ----

  function PostEach<P>(ps: seq<P>): seq<Event<P>> { seq(|ps|, i requires 0 <= i < |ps| => Posts(ps[i])) }

  lemma {:induction false} AfterConcat<P>(l: Link<P>, es: seq<Event<P>>, fs: seq<Event<P>>)
    ensures AfterAll(l, es + fs) == AfterAll(AfterAll(l, es), fs)
  {
    hide After;
    if fs == [] {
      assert es + fs == es;
    } else {
      var all, rest := es + fs, fs[..|fs| - 1];
      AfterConcat(l, es, rest);
      assert all[..|all| - 1] == es + rest && all[|all| - 1] == fs[|fs| - 1];
    }
  }

  /** Posting behind a writer that does not get on fills the queue. */
  lemma {:induction false} PostsFill<P>(l: Link<P>, ps: seq<P>)
    requires l.open && l.isWriting && |l.queue| + |ps| <= MAX_DEPTH
    ensures AfterAll(l, PostEach(ps)) == l.(queue := l.queue + ps, posted := l.posted + ps)
  {
    if ps == [] {
      assert l.queue + ps == l.queue && l.posted + ps == l.posted;
    } else {
      var rest, p := ps[..|ps| - 1], ps[|ps| - 1];
      PostsFill(l, rest);
      var es := PostEach(ps);
      assert es[..|es| - 1] == PostEach(rest);
      assert ps == rest + [p];
      assert l.queue + rest + [p] == l.queue + ps && l.posted + rest + [p] == l.posted + ps;
    }
  }

  /** Everything the room says, as it is posted, followed by as much other traffic as the queue holds. */
  function Queued(said: seq<Message>): seq<Parcel>
    requires |said| <= MAX_DEPTH
  {
    seq(|said|, i requires 0 <= i < |said| => ForRoom(ROOM, said[i])) + seq(MAX_DEPTH - |said|, _ => OtherTraffic)
  }

  /** The writer takes the snapshot; behind it the queue runs full. */
  function Busy(snapshot: Message, said: seq<Message>): seq<Event<Parcel>>
    requires |said| <= MAX_DEPTH
  {
    [Posts(ForRoom(ROOM, snapshot)), WriterStarts] + PostEach(Queued(said))
  }

  /** The link after its writer has taken the first packet posted. */
  function Started(p: Parcel): Link<Parcel> { Link(true, [], true, Writing, [p], [0], 0, 0) }

  lemma StartedLink(p: Parcel)
    ensures LinkOk(NewLink<Parcel>())
    ensures AfterAll(NewLink(), [Posts(p), WriterStarts]) == Started(p)
  {
    var l: Link<Parcel> := NewLink();
    assert l.posted[0..] == [];
    var es: seq<Event<Parcel>> := [Posts(p), WriterStarts];
    assert es[..1] == [Posts(p)] && es[..1][..0] == [];
    assert AfterAll(l, es[..1]) == Link(true, [p], true, Spawned, [p], [], 0, 0);
    hide LinkOk;
  }

  lemma BusyLink(snapshot: Message, said: seq<Message>)
    requires |said| <= MAX_DEPTH
    ensures var k := AfterAll(NewLink(), Busy(snapshot, said));
            && LinkOk(k) && k == Started(ForRoom(ROOM, snapshot)).(queue := Queued(said), posted := k.posted)
            && k.posted == [ForRoom(ROOM, snapshot)] + Queued(said)
  {
    hide AfterAll, LinkOk, Queued;
    var l: Link<Parcel>, k := NewLink(), Started(ForRoom(ROOM, snapshot));
    StartedLink(ForRoom(ROOM, snapshot));
    RunOk(l, Busy(snapshot, said));
    AfterConcat(l, [Posts(ForRoom(ROOM, snapshot)), WriterStarts], PostEach(Queued(said)));
    QueuedLength(said);
    PostsFill(k, Queued(said));
    assert [] + Queued(said) == Queued(said);
  }

  /** One more packet; then the writer catches up. */
  function Overrun(snapshot: Message, said: seq<Message>): seq<Event<Parcel>>
    requires |said| <= MAX_DEPTH
  {
    Busy(snapshot, said) + [Posts(OtherTraffic)] + Completions(MAX_DEPTH + 1)
  }

  /** The snapshot is delivered, after the loss; the first message said behind it is not. */
  lemma OverrunDelivers(snapshot: Message, said: seq<Message>)
    requires 0 < |said| <= MAX_DEPTH
    ensures var k, m := AfterAll(NewLink(), Busy(snapshot, said)), AfterAll(NewLink(), Overrun(snapshot, said));
            && k.written == 0 && Post(k, OtherTraffic).dropped == 1
            && LinkOk(m) && m.open && m.queue == [] && m.writer == Absent && m.dropped == 1
            && m.posted == [ForRoom(ROOM, snapshot)] + Queued(said) + [OtherTraffic]
            && Delivered(m) == [ForRoom(ROOM, snapshot)] + Queued(said)[1..] + [OtherTraffic]
  {
    hide AfterAll, Queued, LinkOk;
    var start: Link<Parcel> := NewLink();
    var k := AfterAll(start, Busy(snapshot, said));
    BusyLink(snapshot, said);
    assert |Queued(said)| == MAX_DEPTH by { QueuedLength(said); }
    var l := Post(k, OtherTraffic);
    PostOk(k, OtherTraffic);
    PostIs(k);
    var es: seq<Event<Parcel>> := Completions(MAX_DEPTH + 1);
    Drain(l, MAX_DEPTH + 1);
    var m := AfterAll(l, es);
    assert m == AfterAll(start, Overrun(snapshot, said)) by {
      AfterConcat(start, Busy(snapshot, said) + [Posts(OtherTraffic)], es);
      AfterConcat(start, Busy(snapshot, said), [Posts(OtherTraffic)]);
      OneMore(k);
    }
    FullyDelivered(l, es);
    assert m.posted[2..] == Queued(said)[1..] + [OtherTraffic];
  }

  lemma QueuedLength(said: seq<Message>)
    requires |said| <= MAX_DEPTH
    ensures |Queued(said)| == MAX_DEPTH
  {}

  lemma PostIs(k: Link<Parcel>)
    requires k.open && k.isWriting && |k.queue| == MAX_DEPTH
    ensures Post(k, OtherTraffic) == k.(queue := k.queue[1..] + [OtherTraffic], dropped := k.dropped + 1,
                                        posted := k.posted + [OtherTraffic])
  {}

  lemma OneMore(k: Link<Parcel>)
    ensures AfterAll(k, [Posts(OtherTraffic)]) == Post(k, OtherTraffic)
  {
    assert [Posts(OtherTraffic)][..0] == [];
  }

  /** With packet 0 taken and packet 1 dropped, everything but packet 1 is delivered in the end. */
  lemma FullyDelivered(l: Link<Parcel>, es: seq<Event<Parcel>>)
    requires LinkOk(l) && l.taken == [0] && Past(l) == 2
    requires var m := AfterAll(l, es);
             && m.open && m.dropped == l.dropped && m.queue == [] && m.writer == Absent && |m.posted| > 2
    ensures var m := AfterAll(l, es);
            LinkOk(m) && Delivered(m) == [m.posted[0]] + m.posted[2..]
  {
    hide AfterAll;
    RunOk(l, es);
    RunSmooth(l, es);
    var m := AfterAll(l, es);
    var d := [m.posted[0]] + m.posted[2..];
    assert m.written == |m.taken| == |d|;
    assert m.taken[0] == 0;
    forall i | 0 < i < |d| ensures Delivered(m)[i] == d[i] {
      assert m.taken[i] == i + 1;
    }
  }

  // ---- the client ----

  lemma {:induction false} OfOther(n: nat, room: nat)
    ensures Of(seq(n, _ => OtherTraffic), room) == []
  {
    if n > 0 {
      OfOther(n - 1, room);
      var ps := seq(n, _ => OtherTraffic);
      assert ps[..|ps| - 1] == seq(n - 1, _ => OtherTraffic);
    }
  }

  lemma HeardOf(snapshot: Message, said: Message, lost: Message)
    ensures var d := [ForRoom(ROOM, snapshot)] + Queued([lost, said])[1..] + [OtherTraffic];
            Of(d, ROOM) == [snapshot, said]
    ensures Of([ForRoom(ROOM, snapshot)] + Queued([lost, said]) + [OtherTraffic], ROOM) == [snapshot, lost, said]
  {
    hide Of;
    var others := seq(MAX_DEPTH - 2, _ => OtherTraffic) + [OtherTraffic];
    assert others == seq(MAX_DEPTH - 1, _ => OtherTraffic);
    OfOther(MAX_DEPTH - 1, ROOM);
    var a, b, c := [ForRoom(ROOM, snapshot)], [ForRoom(ROOM, lost)], [ForRoom(ROOM, said)];
    OfOne(ROOM, snapshot);
    OfOne(ROOM, lost);
    OfOne(ROOM, said);
    OfConcat(a, c, ROOM);
    OfConcat(a + c, others, ROOM);
    OfConcat(a, b, ROOM);
    OfConcat(a + b, c, ROOM);
    OfConcat(a + b + c, others, ROOM);
    assert a + Queued([lost, said])[1..] + [OtherTraffic] == a + c + others;
    assert a + Queued([lost, said]) + [OtherTraffic] == a + b + c + others;
  }

  /** The client is told that the worker is empty-handed, not where its load is. */
  lemma Misled(r: Replica, w: World)
    requires w == ClearMarks(RESTING.(scanTick := 1))
    ensures !Agrees(Play(r, [Snapshot(ViewOf(CAMP)), CHANGED]), w)
  {
    var ms := [Snapshot(ViewOf(CAMP)), CHANGED];
    assert ms[..1] == [Snapshot(ViewOf(CAMP))] && ms[..1][..0] == [];
    assert Play(r, ms).drops == map[];
    assert LOAD in w.drops;
  }

  /**
   k is the link when its queue is full and m the same link when all is written: one packet was dropped,
   the snapshot was written after that, everything said was posted, and the receiver is out of step.
   */
  ghost predicate Missed(k: Link<Parcel>, m: Link<Parcel>, snapshot: Message, said: seq<Message>, r: Replica, w: World)
  {
    && LinkOk(k) && k.open && |k.queue| == MAX_DEPTH && k.written == 0 && k.dropped == 0
    && LinkOk(m) && m.open && m.queue == [] && m.writer == Absent && m.dropped == 1 && m.written > 0
    && Of(m.posted, ROOM) == [snapshot] + said && Delivered(m)[0] == ForRoom(ROOM, snapshot)
    && !Agrees(Play(r, Of(Delivered(m), ROOM)), w)
  }

  /**
   The other half of resynchronisation fails for messages a room sends: the snapshot is the first thing
   delivered, all of it after the drop, but it was taken for writing before; whatever the client knew,
   it is out of step with the room in the end.
   */
  lemma InFlightSnapshotMisses(e: Env, r: Replica)
    ensures var snapshot, sent := Snapshot(ViewOf(CAMP)), Sent(CAMP, SNAPSHOT_INTERVAL, [Input(e, [STOP])]);
            && |sent| <= MAX_DEPTH
            && Missed(AfterAll(NewLink(), Busy(snapshot, sent)), AfterAll(NewLink(), Overrun(snapshot, sent)),
                      snapshot, sent, r, Run(CAMP, [Input(e, [STOP])]))
  {
    hide AfterAll, Sent, Run, Play, Queued, Of, Agrees, LinkOk, Post, CAMP, RESTING, ANNOUNCED, CHANGED;
    StopSent(e);
    var snapshot, said := Snapshot(ViewOf(CAMP)), [ANNOUNCED, CHANGED];
    BusyLink(snapshot, said);
    QueuedLength(said);
    OverrunDelivers(snapshot, said);
    HeardOf(snapshot, CHANGED, ANNOUNCED);
    Misled(r, ClearMarks(RESTING.(scanTick := 1)));
    assert [snapshot] + said == [snapshot, ANNOUNCED, CHANGED];
  }
}
