/**
 The bounded send queue of a link (GatewayLinkSession.cc, PostSend, start_write_loop and Close): one
 writer takes packets from the front while new ones are posted at the back, and when the queue is
 full the oldest packet goes. Full snapshots make up for the loss.
 */
module SendQueue {
  import opened Entities
  import opened Laws
  import opened Replication

  const MAX_DEPTH: nat := 2048

  /** The write loop: not running, about to run, or waiting for a write to complete. */
  datatype Writer = Absent | Spawned | Writing

  /**
   A link with its history: all packets ever posted, the positions of those taken for writing, and how
   many of these have been written.
   */
  datatype Link<P> = Link(open: bool, queue: seq<P>, isWriting: bool, writer: Writer,
                          posted: seq<P>, taken: seq<nat>, written: nat, dropped: nat)

  function NewLink<P>(): Link<P> { Link(true, [], false, Absent, [], [], 0, 0) }

  // ---- what each step does ----

  function Post<P>(l: Link<P>, p: P): Link<P> {
    if !l.open then l
    else
      var full := |l.queue| >= MAX_DEPTH;
      l.(queue := (if full then l.queue[1..] else l.queue) + [p],
         dropped := l.dropped + if full then 1 else 0,
         posted := l.posted + [p],
         isWriting := true,
         writer := if l.isWriting then l.writer else Spawned)
  }

  /** The head of the write loop: take the next packet, or stop. */
  function Next<P>(l: Link<P>): Link<P> {
    if l.queue == [] || !l.open || |l.queue| > |l.posted| then l.(isWriting := false, writer := Absent)
    else l.(queue := l.queue[1..], taken := l.taken + [|l.posted| - |l.queue|], writer := Writing)
  }

  function Close<P>(l: Link<P>): Link<P> {
    if !l.open then l else l.(open := false, queue := [], isWriting := false)
  }

  function WriteDone<P>(l: Link<P>, ok: bool): Link<P> {
    if ok then Next(l.(written := l.written + 1)) else Close(l.(isWriting := false, writer := Absent))
  }

  datatype Event<P> = Posts(packet: P) | WriterStarts | WriteCompletes(ok: bool) | Closes

  function After<P>(l: Link<P>, e: Event<P>): Link<P> {
    match e
    case Posts(p) => Post(l, p)
    case WriterStarts => if l.writer == Spawned then Next(l) else l
    case WriteCompletes(ok) => if l.writer == Writing then WriteDone(l, ok) else l
    case Closes => Close(l)
  }

  function AfterAll<P>(l: Link<P>, es: seq<Event<P>>): Link<P> {
    if es == [] then l else After(AfterAll(l, es[..|es| - 1]), es[|es| - 1])
  }

  // ---- the invariant ----

  predicate Increasing(s: seq<nat>) { forall i, j :: 0 <= i < j < |s| ==> s[i] < s[j] }

  function InFlight<P>(l: Link<P>): nat { if l.writer == Writing then 1 else 0 }

  /** Packets that have left the queue at the front, taken or dropped. */
  function Past<P>(l: Link<P>): int { |l.posted| - |l.queue| }

  ghost predicate LinkOk<P>(l: Link<P>) {
    && |l.queue| <= 2048 && |l.queue| <= |l.posted|
    && l.queue == l.posted[Past(l)..]
    && Increasing(l.taken) && (forall i | 0 <= i < |l.taken| :: l.taken[i] < Past(l))
    && l.written <= |l.taken|
    && (l.writer == Writing ==> l.written < |l.taken|)
    && (if l.open then
          && |l.posted| == l.written + InFlight(l) + |l.queue| + l.dropped
          && |l.taken| == l.written + InFlight(l)
          && (l.isWriting <==> l.writer != Absent)
        else l.queue == [] && !l.isWriting)
  }

  /** What has reached the other side. */
  function Delivered<P>(l: Link<P>): seq<P>
    requires l.written <= |l.taken| && forall i | 0 <= i < |l.taken| :: l.taken[i] < |l.posted|
  {
    seq(l.written, i requires 0 <= i < l.written => l.posted[l.taken[i]])
  }

  lemma PostOk<P>(l: Link<P>, p: P)
    requires LinkOk(l)
    ensures LinkOk(Post(l, p))
  {
    if l.open {
      var l' := Post(l, p);
      assert l'.queue == l'.posted[Past(l')..];
    }
  }

  lemma NextOk<P>(l: Link<P>)
    requires LinkOk(l.(writer := Absent, isWriting := false)) && l.writer != Absent
    requires l.open ==> l.isWriting
    ensures LinkOk(Next(l))
  {
    var l' := Next(l);
    if l'.writer == Writing {
      assert l'.queue == l'.posted[Past(l')..];
    }
  }

  lemma CloseOk<P>(l: Link<P>)
    requires LinkOk(l)
    ensures LinkOk(Close(l))
  {
    var l' := Close(l);
    assert l'.open == false;
    if l.open { assert [] == l'.posted[|l'.posted|..]; }
  }

  lemma StartedOk<P>(l: Link<P>)
    requires LinkOk(l)
    ensures l.writer == Spawned ==> LinkOk(Next(l))
  {
    hide Next;
    if l.writer == Spawned { NextOk(l); }
  }

  /** At every moment: the queue is bounded and holds the newest packets, nothing is lost uncounted. */
  lemma AfterOk<P>(l: Link<P>, e: Event<P>)
    requires LinkOk(l)
    ensures LinkOk(After(l, e))
  {
    hide LinkOk, Post, Next, Close, WriteDone;
    StartedOk(l);
    match e
    case Posts(p) => PostOk(l, p);
    case WriterStarts =>
    case WriteCompletes(ok) =>
      if l.writer == Writing {
        if ok { WrittenOk(l); } else { FailOk(l); }
      }
    case Closes => CloseOk(l);
  }

  lemma WrittenOk<P>(l: Link<P>)
    requires LinkOk(l) && l.writer == Writing
    ensures LinkOk(WriteDone(l, true))
  {
    hide Next;
    var l' := l.(written := l.written + 1);
    assert LinkOk(l'.(writer := Absent, isWriting := false));
    NextOk(l');
  }

  lemma FailOk<P>(l: Link<P>)
    requires LinkOk(l) && l.writer == Writing
    ensures LinkOk(WriteDone(l, false))
  {
    var l' := WriteDone(l, false);
    assert l'.posted[|l'.posted|..] == [];
  }

  lemma {:induction false} RunOk<P>(l: Link<P>, es: seq<Event<P>>)
    requires LinkOk(l)
    ensures LinkOk(AfterAll(l, es))
  {
    hide LinkOk, After;
    if es != [] {
      RunOk(l, es[..|es| - 1]);
      AfterOk(AfterAll(l, es[..|es| - 1]), es[|es| - 1]);
    }
  }

  /** A second writer is never started: one is spawned only when none is running. */
  lemma OneWriter<P>(l: Link<P>, p: P)
    requires LinkOk(l) && l.writer != Absent
    ensures Post(l, p).writer == l.writer
  {}

  // ---- stretches without drops ----

  /** How much of what was posted has been written or dropped. */
  function Watermark<P>(l: Link<P>): int { Past(l) - InFlight(l) }

  /** From l to m nothing was dropped: packets were taken one after the other, and more were posted behind. */
  ghost predicate Smooth<P>(l: Link<P>, m: Link<P>) {
    && l.posted <= m.posted && l.taken <= m.taken && Past(l) <= Past(m)
    && |m.taken| - |l.taken| == Past(m) - Past(l)
    && forall i | |l.taken| <= i < |m.taken| :: m.taken[i] == Past(l) + (i - |l.taken|)
  }

  lemma SmoothRefl<P>(l: Link<P>)
    ensures Smooth(l, l)
  {}

  lemma SmoothTrans<P>(l: Link<P>, m: Link<P>, n: Link<P>)
    requires Smooth(l, m) && Smooth(m, n)
    ensures Smooth(l, n)
  {
    forall i | |l.taken| <= i < |n.taken| ensures n.taken[i] == Past(l) + (i - |l.taken|) {
      if i < |m.taken| { assert n.taken[i] == m.taken[i]; }
    }
  }

  lemma AfterSmooth<P>(l: Link<P>, e: Event<P>)
    requires LinkOk(l) && After(l, e).open && After(l, e).dropped == l.dropped
    ensures Smooth(l, After(l, e))
  {}

  lemma DroppedOnlyGrows<P>(l: Link<P>, e: Event<P>)
    ensures l.dropped <= After(l, e).dropped && (After(l, e).open ==> l.open)
  {}

  lemma {:induction false} RunGrows<P>(l: Link<P>, es: seq<Event<P>>)
    ensures l.dropped <= AfterAll(l, es).dropped && (AfterAll(l, es).open ==> l.open)
  {
    hide After;
    if es != [] {
      RunGrows(l, es[..|es| - 1]);
      DroppedOnlyGrows(AfterAll(l, es[..|es| - 1]), es[|es| - 1]);
    }
  }

  lemma {:induction false} RunSmooth<P>(l: Link<P>, es: seq<Event<P>>)
    requires LinkOk(l) && AfterAll(l, es).open && AfterAll(l, es).dropped == l.dropped
    ensures Smooth(l, AfterAll(l, es))
  {
    hide LinkOk, After, Smooth;
    if es == [] {
      SmoothRefl(l);
    } else {
      var mid := AfterAll(l, es[..|es| - 1]);
      RunGrows(l, es[..|es| - 1]);
      DroppedOnlyGrows(mid, es[|es| - 1]);
      RunSmooth(l, es[..|es| - 1]);
      RunOk(l, es[..|es| - 1]);
      AfterSmooth(mid, es[|es| - 1]);
      SmoothTrans(l, mid, AfterAll(l, es));
    }
  }

  /**
   After the last drop, everything from the front of the queue on is delivered without a gap: the
   delivered packets end with exactly the posted ones from there up to the watermark.
   */
  lemma DeliveredTail<P>(l: Link<P>, es: seq<Event<P>>, j: nat)
    requires LinkOk(l) && AfterAll(l, es).open && AfterAll(l, es).dropped == l.dropped
    requires Past(l) <= j <= Watermark(AfterAll(l, es))
    ensures var m := AfterAll(l, es);
            && LinkOk(m) && Watermark(m) <= |m.posted|
            && |Delivered(m)| >= Watermark(m) - j
            && Delivered(m)[|Delivered(m)| - (Watermark(m) - j)..] == m.posted[j..Watermark(m)]
  {
    hide AfterAll;
    RunSmooth(l, es);
    RunOk(l, es);
    var m := AfterAll(l, es);
    var n := Watermark(m) - j;
    assert m.written == |l.taken| + Watermark(m) - Past(l);
    var end, expected := Delivered(m)[|Delivered(m)| - n..], m.posted[j..Watermark(m)];
    forall i | 0 <= i < n ensures end[i] == expected[i] {
      var t := m.written - n + i;
      assert m.taken[t] == Past(l) + (t - |l.taken|) == j + i;
    }
  }

  // ---- emptying the queue ----

  function Completions<P>(k: nat): seq<Event<P>> { seq(k, _ => WriteCompletes(true)) }

  /** l has written n more packets, one after the other. */
  ghost predicate Written<P>(l: Link<P>, m: Link<P>, n: nat)
    requires n <= |l.queue| + 1
  {
    && LinkOk(m) && m.open && m.posted == l.posted && m.dropped == l.dropped && m.written == l.written + n
    && (if n <= |l.queue| then m.writer == Writing && m.queue == l.queue[n..] else m.writer == Absent && m.queue == [])
  }

  lemma OneMoreWritten<P>(l: Link<P>, m: Link<P>, n: nat)
    requires n <= |l.queue| && Written(l, m, n)
    ensures Written(l, After(m, WriteCompletes(true)), n + 1)
  {
    AfterOk(m, WriteCompletes(true));
    hide LinkOk;
  }

  /** Writes that complete one after the other empty the queue. */
  lemma {:induction false} Drain<P>(l: Link<P>, k: nat)
    requires LinkOk(l) && l.open && l.writer == Writing && k <= |l.queue| + 1
    ensures Written(l, AfterAll(l, Completions(k)), k)
  {
    if k > 0 {
      hide LinkOk, After, Written;
      Drain(l, k - 1);
      var es: seq<Event<P>> := Completions(k);
      assert es[..|es| - 1] == Completions(k - 1);
      OneMoreWritten(l, AfterAll(l, Completions(k - 1)), k - 1);
    }
  }

  /** No packet waits without a writer that is about to run or writing. */
  ghost predicate Attended<P>(l: Link<P>) { l.open && l.queue != [] ==> l.writer != Absent }

  lemma AfterAttended<P>(l: Link<P>, e: Event<P>)
    requires LinkOk(l) && Attended(l)
    ensures Attended(After(l, e))
  {}

  lemma {:induction false} RunAttended<P>(l: Link<P>, es: seq<Event<P>>)
    requires LinkOk(l) && Attended(l)
    ensures Attended(AfterAll(l, es))
  {
    hide LinkOk, After, Attended;
    if es != [] {
      RunAttended(l, es[..|es| - 1]);
      RunOk(l, es[..|es| - 1]);
      AfterAttended(AfterAll(l, es[..|es| - 1]), es[|es| - 1]);
    }
  }

  /**
   Everything queued gets written: after any events on a new link, if it is open and packets wait, a writer is at
   them, and when its writes complete one after the other, all that was posted and not dropped is written.
   */
  lemma QueueIsWritten<P>(es: seq<Event<P>>)
    requires AfterAll(NewLink(), es).open && AfterAll(NewLink(), es).queue != []
    ensures var l := AfterAll(NewLink(), es);
            var n := if l.writer == Spawned then |l.queue| else |l.queue| + 1;
            var m := AfterAll(After(l, WriterStarts), Completions(n));
            && l.writer != Absent && m.open && m.queue == [] && m.writer == Absent && m.posted == l.posted
            && m.dropped == l.dropped && m.written + m.dropped == |m.posted|
  {
    hide AfterAll, LinkOk, After;
    var start: Link<P> := NewLink();
    NewLinkOk<P>();
    RunOk(start, es);
    RunAttended(start, es);
    var l := AfterAll(start, es);
    WriterAtWork(l);
    Drain(After(l, WriterStarts), if l.writer == Spawned then |l.queue| else |l.queue| + 1);
    var n := if l.writer == Spawned then |l.queue| else |l.queue| + 1;
    AllAccounted(AfterAll(After(l, WriterStarts), Completions(n)));
  }

  lemma NewLinkOk<P>()
    ensures LinkOk(NewLink<P>()) && Attended(NewLink<P>())
  {
    var l: Link<P> := NewLink();
    assert l.posted[0..] == [];
  }

  lemma WriterAtWork<P>(l: Link<P>)
    requires LinkOk(l) && l.open && l.queue != [] && l.writer != Absent
    ensures var l' := After(l, WriterStarts);
            && LinkOk(l') && l'.open && l'.writer == Writing && l'.posted == l.posted && l'.dropped == l.dropped
            && |l'.queue| == if l.writer == Spawned then |l.queue| - 1 else |l.queue|
  {
    AfterOk(l, WriterStarts);
  }

  lemma AllAccounted<P>(l: Link<P>)
    requires LinkOk(l) && l.open && l.queue == [] && l.writer == Absent
    ensures l.written + l.dropped == |l.posted|
  {}

  // ---- what a drop costs ----

  lemma {:induction false} IncreasingApart(t: seq<nat>, x: nat, y: nat)
    requires Increasing(t) && x <= y < |t|
    ensures t[y] - t[x] >= y - x
  {
    if x < y { IncreasingApart(t, x, y - 1); }
  }

  /**
   The exact extent of the loss. A full queue drops its oldest packet, nothing more is dropped, and in
   the end everything is written. From a delivered packet on, delivery is free of gaps exactly if that
   packet was still queued, or not yet posted, when the drop happened.
   */
  lemma DropGap<P>(k: Link<P>, p: P, es: seq<Event<P>>, x: nat)
    requires LinkOk(k) && k.open && |k.queue| == MAX_DEPTH
    requires var l, m := Post(k, p), AfterAll(Post(k, p), es);
             m.open && m.dropped == l.dropped && m.queue == [] && m.writer == Absent && x < |m.taken|
    ensures var l, m := Post(k, p), AfterAll(Post(k, p), es);
            && LinkOk(m) && m.written == |m.taken|
            && (Delivered(m)[x..] == m.posted[m.taken[x]..] <==> Past(l) <= m.taken[x])
            && (Past(l) <= m.taken[x] <==> |k.taken| <= x)
  {
    hide AfterAll;
    var l, m := Post(k, p), AfterAll(Post(k, p), es);
    PostOk(k, p);
    RunOk(l, es);
    RunSmooth(l, es);
    assert l.taken == k.taken && Past(l) == Past(k) + 1;
    assert m.written == |m.taken| && Watermark(m) == |m.posted|;
    if x < |k.taken| {
      TakenBefore(k, l, m, x);
    } else {
      assert m.taken[x] == Past(l) + (x - |l.taken|);
      DeliveredTail(l, es, m.taken[x]);
    }
    hide LinkOk, Smooth;
  }

  /** A packet taken before the drop lies before the dropped one, which is missing behind it. */
  lemma TakenBefore<P>(k: Link<P>, l: Link<P>, m: Link<P>, x: nat)
    requires LinkOk(k) && Smooth(l, m) && l.taken == k.taken && Past(l) == Past(k) + 1 && x < |k.taken|
    requires Past(m) == |m.posted|
    ensures x < |m.taken| && m.taken[x] < Past(l) && |m.taken| - x < |m.posted| - m.taken[x]
  {
    var last := |k.taken| - 1;
    IncreasingApart(k.taken, x, last);
    assert k.taken[last] < Past(k);
    assert m.taken[x] == k.taken[x];
  }

  // ---- snapshots repair ----

  /** What travels on a link: the messages of several rooms, and everything else. */
  datatype Parcel = ForRoom(room: nat, message: Message) | OtherTraffic

  /** The messages of one room. */
  function Of(ps: seq<Parcel>, room: nat): seq<Message> {
    if ps == [] then []
    else
      var p := ps[|ps| - 1];
      Of(ps[..|ps| - 1], room) + if p.ForRoom? && p.room == room then [p.message] else []
  }

  lemma {:induction false} OfConcat(a: seq<Parcel>, b: seq<Parcel>, room: nat)
    ensures Of(a + b, room) == Of(a, room) + Of(b, room)
  {
    if b == [] {
      assert a + b == a;
    } else {
      var all, rest, last := a + b, b[..|b| - 1], b[|b| - 1];
      OfConcat(a, rest, room);
      assert all[..|all| - 1] == a + rest && all[|all| - 1] == last;
      OfLast(all, room);
      OfLast(b, room);
      hide Of;
    }
  }

  lemma OfLast(ps: seq<Parcel>, room: nat)
    requires ps != []
    ensures var p := ps[|ps| - 1];
            Of(ps, room) == Of(ps[..|ps| - 1], room) + if p.ForRoom? && p.room == room then [p.message] else []
  {}

  lemma OfOne(room: nat, m: Message)
    ensures Of([ForRoom(room, m)], room) == [m]
  {
    assert [ForRoom(room, m)][..0] == [];
  }

  /** From a snapshot on, it does not matter what was heard before. */
  lemma SnapshotResets(r: Replica, r': Replica, before: seq<Message>, before': seq<Message>, state: Replica,
                       rest: seq<Message>)
    ensures Play(r, before + ([Snapshot(state)] + rest)) == Play(r', before' + ([Snapshot(state)] + rest))
  {
    PlayConcat(r, before, [Snapshot(state)] + rest);
    PlayConcat(r', before', [Snapshot(state)] + rest);
    PlayConcat(Play(r, before), [Snapshot(state)], rest);
    PlayConcat(Play(r', before'), [Snapshot(state)], rest);
    PlayOne(Play(r, before), Snapshot(state));
    PlayOne(Play(r', before'), Snapshot(state));
    hide Play;
  }

  /**
   Resynchronisation: once a snapshot of a room that was still queued (or posted later) when the last
   packet was dropped has been delivered, the receiver is, for that room, where it would be had nothing
   been dropped at all. DropGap says that no other snapshot is followed by everything posted after it.
   */
  lemma Resync(l: Link<Parcel>, es: seq<Event<Parcel>>, j: nat, room: nat, r: Replica, r': Replica)
    requires LinkOk(l) && AfterAll(l, es).open && AfterAll(l, es).dropped == l.dropped
    requires Past(l) <= j < Watermark(AfterAll(l, es)) <= |AfterAll(l, es).posted|
    requires var p := AfterAll(l, es).posted[j]; p.ForRoom? && p.room == room && p.message.Snapshot?
    ensures var m := AfterAll(l, es);
            LinkOk(m) && Play(r, Of(Delivered(m), room)) == Play(r', Of(m.posted[..Watermark(m)], room))
  {
    hide Play, AfterAll, Of, LinkOk;
    DeliveredTail(l, es, j);
    var m := AfterAll(l, es);
    var state := m.posted[j].message.state;
    DeliveredBounds(m);
    var d, n := Delivered(m), Watermark(m) - j;
    var tail := m.posted[j..Watermark(m)];
    var rest := tail[1..];
    assert tail == [ForRoom(room, Snapshot(state))] + rest;
    assert d == d[..|d| - n] + tail;
    assert m.posted[..Watermark(m)] == m.posted[..j] + tail;
    OfConcat(d[..|d| - n], tail, room);
    OfConcat(m.posted[..j], tail, room);
    OfConcat([ForRoom(room, Snapshot(state))], rest, room);
    OfOne(room, Snapshot(state));
    SnapshotResets(r, r', Of(d[..|d| - n], room), Of(m.posted[..j], room), state, Of(rest, room));
  }

  lemma DeliveredBounds<P>(l: Link<P>)
    requires LinkOk(l)
    ensures l.written <= |l.taken| && forall i | 0 <= i < |l.taken| :: l.taken[i] < |l.posted|
  {}

  /** From the server's side: what was posted for the room is what a run sends, so the receiver agrees with it. */
  lemma ResyncAgrees(l: Link<Parcel>, es: seq<Event<Parcel>>, j: nat, room: nat, r: Replica,
                     w: World, tick: nat, inputs: seq<Input>)
    requires WellFormed(w) && w.marks == NO_MARKS
    requires LinkOk(l) && AfterAll(l, es).open && AfterAll(l, es).dropped == l.dropped
    requires var m := AfterAll(l, es);
             && m.queue == [] && m.writer == Absent && Past(l) <= j < |m.posted|
             && m.posted[j].ForRoom? && m.posted[j].room == room && m.posted[j].message.Snapshot?
             && Of(m.posted, room) == [Snapshot(ViewOf(w))] + Sent(w, tick, inputs)
    ensures var m := AfterAll(l, es); LinkOk(m) && Agrees(Play(r, Of(Delivered(m), room)), Run(w, inputs))
  {
    hide Play, Agrees, Run, Sent, ViewOf, WellFormed, AfterAll, Of, LinkOk;
    var m := AfterAll(l, es);
    Resync(l, es, j, room, r, ViewOf(w));
    assert m.posted[..Watermark(m)] == m.posted;
    PlayConcat(ViewOf(w), [Snapshot(ViewOf(w))], Sent(w, tick, inputs));
    PlayOne(ViewOf(w), Snapshot(ViewOf(w)));
    SnapshotAgrees(w);
    ReplicaAgreement(ViewOf(w), w, tick, inputs);
  }
}
