/**
 Gateway links of a network shard (NetworkShard.cc): slots are reused for one session after another.
 A route is a slot number and the slot's generation when the route is made; whatever happens later, it
 leads to the session that held the slot at that generation or to nobody.
 */
module Links {
  import PacketCodec

  type SessionId = nat
  type Bytes = seq<PacketCodec.Byte>

  datatype SlotState = Empty | Accepting | Connected | Closed

  datatype Option<T> = None | Some(value: T)

  datatype Slot = Slot(state: SlotState, generation: nat, session: Option<SessionId>)

  datatype SessionState = Starting | Open | Shut

  datatype Envelope = Envelope(uids: seq<nat>, msgId: nat, seqId: nat, body: Bytes)

  /** A session, bound for life to a slot and a generation, with all that was handed to it for sending. */
  datatype Session = Session(slot: nat, generation: nat, state: SessionState, handed: seq<Envelope>)

  datatype Route = Route(netShard: nat, link: nat, generation: nat)

  datatype Target = Target(link: nat, generation: nat, uids: seq<nat>)

  datatype NetworkTask = NetworkTask(msgId: nat, seqId: nat, targets: seq<Target>, body: Bytes)

  /** The asynchronous call whose completion the acceptor is waiting for. */
  datatype Pending = Nothing | Retry | Accept(slot: nat, generation: nat, session: SessionId)

  /** Every session ever made is kept, as a history; the slots say which ones are in use. */
  datatype Net = Net(slots: seq<Slot>, sessions: seq<Session>, pending: Pending, stopping: bool)

  function NewNet(maxLinks: nat): Net {
    Net(seq(maxLinks, _ => Slot(Empty, 0, None)), [], Nothing, false)
  }

  // ---- what each handler does ----

  predicate Available(slot: Slot) { slot.state == Empty || slot.state == Closed }

  /** The first available slot from number i on, or the number of slots. */
  function FirstAvailable(slots: seq<Slot>, i: nat): (k: nat)
    requires i <= |slots|
    ensures i <= k <= |slots| && (k < |slots| ==> Available(slots[k]))
    decreases |slots| - i
  {
    if i == |slots| || Available(slots[i]) then i else FirstAvailable(slots, i + 1)
  }

  function DoAccept(n: Net): Net {
    if n.stopping then n.(pending := Nothing)
    else
      var k := FirstAvailable(n.slots, 0);
      if k == |n.slots| then n.(pending := Retry)
      else
        var g := n.slots[k].generation + 1;
        var x := |n.sessions|;
        n.(slots := n.slots[k := Slot(Accepting, g, Some(x))],
           sessions := n.sessions + [Session(k, g, Starting, [])],
           pending := Accept(k, g, x))
  }

  function SetSession(n: Net, x: SessionId, state: SessionState): Net
    requires x < |n.sessions|
  {
    n.(sessions := n.sessions[x := n.sessions[x].(state := state)])
  }

  function OnSessionClosed(n: Net, k: nat, generation: nat): Net {
    if k >= |n.slots| || n.slots[k].generation != generation then n
    else n.(slots := n.slots[k := Slot(Closed, generation, None)])
  }

  /** A session closes, once, and tells its slot. */
  function CloseSession(n: Net, x: SessionId): Net {
    if x >= |n.sessions| || n.sessions[x].state == Shut then n
    else OnSessionClosed(SetSession(n, x, Shut), n.sessions[x].slot, n.sessions[x].generation)
  }

  /** Close whatever session the slot holds and leave the slot closed. */
  function CloseSlot(n: Net, k: nat): Net
    requires k < |n.slots|
  {
    var n' := match n.slots[k].session
              case Some(x) => CloseSession(n, x)
              case None => n;
    if k < |n'.slots| then n'.(slots := n'.slots[k := Slot(Closed, n'.slots[k].generation, None)]) else n'
  }

  datatype Outcome = Accepted | Failed | Aborted

  /** The completion handler of an accept. */
  function AcceptDone(n: Net, outcome: Outcome): Net {
    match n.pending
    case Accept(k, g, _) =>
      if k >= |n.slots| then n
      else
        var slot := n.slots[k];
        if outcome == Accepted then
          var n' := if slot.generation == g && slot.state == Accepting && slot.session.Some?
                       && slot.session.value < |n.sessions|
                    then SetSession(n.(slots := n.slots[k := slot.(state := Connected)]), slot.session.value, Open)
                    else n;
          DoAccept(n')
        else
          var n' := if slot.generation == g then CloseSlot(n, k) else n;
          if outcome == Failed then DoAccept(n') else n'.(pending := Nothing)
    case _ => n
  }

  function RetryDone(n: Net): Net { if n.pending == Retry then DoAccept(n) else n }

  function MakeRoute(n: Net, netShard: nat, link: nat): Route {
    Route(netShard, link, if link < |n.slots| then n.slots[link].generation else 0)
  }

  /** The logic shard of a message, other than a creation: by the room it names, or else the first. */
  function ShardOf(room: nat, hint: nat, count: nat): nat {
    var named := if room != 0 then room else hint;
    if count == 0 || named == 0 then 0 else named % count
  }

  /** The target's slot is in use by an open session of the target's generation. */
  predicate Reaches(n: Net, t: Target) {
    && t.link < |n.slots| && n.slots[t.link].generation == t.generation && n.slots[t.link].state == Connected
    && n.slots[t.link].session.Some? && n.slots[t.link].session.value < |n.sessions|
    && n.sessions[n.slots[t.link].session.value].state == Open
  }

  /** The envelope carries the body of the packet the logic shard built. */
  function Wrap(task: NetworkTask, t: Target): Envelope {
    Envelope(t.uids, task.msgId, task.seqId, PacketCodec.Payload(task.body))
  }

  function Hand(n: Net, x: SessionId, e: Envelope): Net
    requires x < |n.sessions|
  {
    n.(sessions := n.sessions[x := n.sessions[x].(handed := n.sessions[x].handed + [e])])
  }

  /** Hand the task to the first i targets. */
  function SendTo(n: Net, task: NetworkTask, i: nat): Net
    requires i <= |task.targets|
  {
    if i == 0 then n
    else
      var n' := SendTo(n, task, i - 1);
      var t := task.targets[i - 1];
      if Reaches(n', t) then Hand(n', n'.slots[t.link].session.value, Wrap(task, t)) else n'
  }

  function HandleNetworkTask(n: Net, task: NetworkTask): Net {
    if n.stopping then n else SendTo(n, task, |task.targets|)
  }

  /** Close the first i slots. */
  function CloseSlots(n: Net, i: nat): Net
    requires i <= |n.slots|
  {
    if i == 0 then n
    else
      var n' := CloseSlots(n, i - 1);
      if i - 1 < |n'.slots| then CloseSlot(n', i - 1) else n'
  }

  datatype Event =
    | Start
    | AcceptCompletes(outcome: Outcome)
    | RetryFires
    | SessionCloses(session: SessionId)
    | TaskArrives(task: NetworkTask)
    | StopRequested
    | StopRuns

  function After(n: Net, e: Event): Net {
    match e
    case Start => if n.pending == Nothing then DoAccept(n) else n
    case AcceptCompletes(outcome) => AcceptDone(n, outcome)
    case RetryFires => RetryDone(n)
    case SessionCloses(x) => CloseSession(n, x)
    case TaskArrives(task) => HandleNetworkTask(n, task)
    case StopRequested => n.(stopping := true)
    case StopRuns => if n.stopping then CloseSlots(n, |n.slots|) else n
  }

  ghost function AfterAll(n: Net, es: seq<Event>): Net {
    if es == [] then n else After(AfterAll(n, es[..|es| - 1]), es[|es| - 1])
  }

  // ---- the invariant ----

  /** A session knows its slot; no two sessions ever share a slot and a generation. */
  ghost predicate SessionsOk(n: Net) {
    && (forall x | 0 <= x < |n.sessions| ::
          n.sessions[x].slot < |n.slots| && 0 < n.sessions[x].generation <= n.slots[n.sessions[x].slot].generation)
    && (forall x, y | 0 <= x < |n.sessions| && 0 <= y < |n.sessions| && x != y ::
          n.sessions[x].slot != n.sessions[y].slot || n.sessions[x].generation != n.sessions[y].generation)
  }

  /** The slot is in use by session x. */
  ghost predicate Holds(n: Net, k: nat, x: SessionId)
    requires k < |n.slots| && x < |n.sessions|
  {
    && n.slots[k].session == Some(x) && n.sessions[x].slot == k && n.sessions[x].generation == n.slots[k].generation
    && match n.slots[k].state
       case Accepting => n.sessions[x].state == Starting && n.pending == Accept(k, n.slots[k].generation, x)
       case Connected => n.sessions[x].state == Open
       case _ => false
  }

  ghost predicate SlotOk(n: Net, k: nat)
    requires k < |n.slots|
  {
    match n.slots[k].session
    case None => Available(n.slots[k])
    case Some(x) => x < |n.sessions| && Holds(n, k, x)
  }

  /** A session that has not closed holds its slot. */
  ghost predicate LiveOk(n: Net, x: SessionId)
    requires x < |n.sessions|
  {
    n.sessions[x].state != Shut ==> n.sessions[x].slot < |n.slots| && Holds(n, n.sessions[x].slot, x)
  }

  ghost predicate NetOk(n: Net) {
    && SessionsOk(n)
    && (forall k | 0 <= k < |n.slots| :: SlotOk(n, k))
    && (forall x | 0 <= x < |n.sessions| :: LiveOk(n, x))
    && (n.pending.Accept? ==> n.pending.slot < |n.slots|)
  }

  lemma NewNetOk(maxLinks: nat)
    ensures NetOk(NewNet(maxLinks))
  {}

  lemma StoppingOk(n: Net)
    requires NetOk(n)
    ensures NetOk(n.(stopping := true))
  {
    forall k | 0 <= k < |n.slots| ensures SlotOk(n.(stopping := true), k) { assert SlotOk(n, k); }
    forall x | 0 <= x < |n.sessions| ensures LiveOk(n.(stopping := true), x) { assert LiveOk(n, x); }
  }

  /** No slot is being accepted on unless the acceptor is waiting for it. */
  ghost predicate NoneAccepting(n: Net) { forall k | 0 <= k < |n.slots| :: n.slots[k].state != Accepting }

  /** The acceptor may go on to anything while no slot is being accepted on. */
  lemma PendingOk(n: Net, p: Pending)
    requires NetOk(n) && NoneAccepting(n) && !p.Accept?
    ensures NetOk(n.(pending := p))
  {
    forall k | 0 <= k < |n.slots| ensures SlotOk(n.(pending := p), k) { assert SlotOk(n, k); }
    forall x | 0 <= x < |n.sessions| ensures LiveOk(n.(pending := p), x) { assert LiveOk(n, x); }
  }

  lemma DoAcceptOk(n: Net)
    requires NetOk(n) && NoneAccepting(n)
    ensures NetOk(DoAccept(n))
  {
    var k := FirstAvailable(n.slots, 0);
    var n' := DoAccept(n);
    if n.stopping || k == |n.slots| {
      PendingOk(n, n'.pending);
    } else {
      assert SlotOk(n, k);
      forall j | 0 <= j < |n'.slots| ensures SlotOk(n', j) { assert SlotOk(n, j); }
      forall x | 0 <= x < |n'.sessions| ensures LiveOk(n', x) {
        if x < |n.sessions| { assert LiveOk(n, x); }
      }
    }
  }

  /** Closing an open or starting session frees exactly its slot. */
  lemma CloseSessionOk(n: Net, x: SessionId)
    requires NetOk(n)
    ensures var n' := CloseSession(n, x);
            && NetOk(n') && n'.pending == n.pending && n'.stopping == n.stopping && |n'.slots| == |n.slots|
            && |n'.sessions| == |n.sessions|
            && (NoneAccepting(n) ==> NoneAccepting(n'))
            && (forall k | 0 <= k < |n.slots| ::
                  n'.slots[k] == if x < |n.sessions| && n.slots[k].session == Some(x)
                                 then Slot(Closed, n.slots[k].generation, None) else n.slots[k])
  {
    var n' := CloseSession(n, x);
    if x < |n.sessions| && n.sessions[x].state != Shut {
      assert LiveOk(n, x);
      var k := n.sessions[x].slot;
      forall j | 0 <= j < |n'.slots| ensures SlotOk(n', j) {
        assert SlotOk(n, j);
      }
      forall y | 0 <= y < |n'.sessions| ensures LiveOk(n', y) {
        assert LiveOk(n, y);
      }
      forall j | 0 <= j < |n.slots| && j != k ensures n.slots[j].session != Some(x) {
        assert SlotOk(n, j);
      }
    } else if x < |n.sessions| {
      forall j | 0 <= j < |n.slots| ensures n.slots[j].session != Some(x) {
        assert SlotOk(n, j);
      }
    }
  }

  lemma CloseSlotOk(n: Net, k: nat)
    requires NetOk(n) && k < |n.slots|
    ensures var n' := CloseSlot(n, k);
            && NetOk(n') && n'.pending == n.pending && n'.stopping == n.stopping
            && n'.slots == n.slots[k := Slot(Closed, n.slots[k].generation, None)]
  {
    assert SlotOk(n, k);
    match n.slots[k].session
    case Some(x) =>
      CloseSessionOk(n, x);
      forall j | 0 <= j < |n.slots| && j != k ensures n.slots[j].session != Some(x) {
        assert SlotOk(n, j);
      }
      var n1 := CloseSession(n, x);
      assert n1.slots == n.slots[k := Slot(Closed, n.slots[k].generation, None)];
      assert CloseSlot(n, k) == n1;
    case None =>
      var n' := CloseSlot(n, k);
      forall j | 0 <= j < |n'.slots| ensures SlotOk(n', j) { assert SlotOk(n, j); }
      forall y | 0 <= y < |n'.sessions| ensures LiveOk(n', y) {
        assert LiveOk(n, y);
      }
  }

  /** If the accepted slot is no longer waiting, none is. */
  lemma AcceptedElsewhere(n: Net, k: nat, g: nat, x: SessionId)
    requires NetOk(n) && n.pending == Accept(k, g, x)
    requires k < |n.slots| && (n.slots[k].generation != g || n.slots[k].state != Accepting)
    ensures NoneAccepting(n)
  {
    forall j | 0 <= j < |n.slots| ensures n.slots[j].state != Accepting {
      assert SlotOk(n, j);
    }
  }

  /** The accepted session opens: it, and no other slot, is connected. */
  lemma ConnectOk(n: Net, k: nat, x: SessionId)
    requires NetOk(n) && k < |n.slots| && n.slots[k].state == Accepting && n.slots[k].session == Some(x)
    ensures x < |n.sessions|
    ensures var n' := SetSession(n.(slots := n.slots[k := n.slots[k].(state := Connected)]), x, Open);
            NetOk(n') && NoneAccepting(n')
  {
    assert SlotOk(n, k);
    var n' := SetSession(n.(slots := n.slots[k := n.slots[k].(state := Connected)]), x, Open);
    forall j | 0 <= j < |n'.slots| ensures SlotOk(n', j) && n'.slots[j].state != Accepting {
      assert SlotOk(n, j);
    }
    forall y | 0 <= y < |n'.sessions| ensures LiveOk(n', y) { assert LiveOk(n, y); }
  }

  lemma AcceptDoneOk(n: Net, outcome: Outcome)
    requires NetOk(n)
    ensures NetOk(AcceptDone(n, outcome))
  {
    hide NetOk, SlotOk, LiveOk, NoneAccepting, DoAccept, CloseSlot, SetSession;
    match n.pending
    case Accept(k, g, x) =>
      PendingSlot(n);
      var slot := n.slots[k];
      if slot.generation != g || slot.state != Accepting { AcceptedElsewhere(n, k, g, x); }
      if outcome == Accepted {
        if slot.generation == g && slot.state == Accepting {
          AcceptingHasSession(n, k);
          ConnectOk(n, k, slot.session.value);
          DoAcceptOk(SetSession(n.(slots := n.slots[k := slot.(state := Connected)]), slot.session.value, Open));
        } else {
          DoAcceptOk(n);
        }
      } else {
        CloseSlotOk(n, k);
        ClosedNoneAccepting(n, k);
        var n' := if slot.generation == g then CloseSlot(n, k) else n;
        DoAcceptOk(n');
        PendingOk(n', Nothing);
      }
    case _ =>
  }

  lemma PendingSlot(n: Net)
    requires NetOk(n) && n.pending.Accept?
    ensures n.pending.slot < |n.slots|
  {}

  lemma AcceptingHasSession(n: Net, k: nat)
    requires NetOk(n) && k < |n.slots| && n.slots[k].state == Accepting
    ensures n.slots[k].session.Some? && n.slots[k].session.value < |n.sessions|
  {
    assert SlotOk(n, k);
  }

  lemma ClosedNoneAccepting(n: Net, k: nat)
    requires NetOk(n) && n.pending.Accept? && n.pending.slot == k && k < |n.slots|
    requires CloseSlot(n, k).slots == n.slots[k := Slot(Closed, n.slots[k].generation, None)]
    ensures NoneAccepting(CloseSlot(n, k))
  {
    var n' := CloseSlot(n, k);
    forall j | 0 <= j < |n'.slots| ensures n'.slots[j].state != Accepting {
      assert SlotOk(n, j);
    }
  }

  // ---- sending ----

  /** A task only adds to what sessions were handed. */
  ghost predicate SameLinks(n: Net, n': Net) {
    && n' == n.(sessions := n'.sessions) && |n'.sessions| == |n.sessions|
    && forall x | 0 <= x < |n.sessions| :: n'.sessions[x] == n.sessions[x].(handed := n'.sessions[x].handed)
  }

  lemma SameLinksOk(n: Net, n': Net)
    requires NetOk(n) && SameLinks(n, n')
    ensures NetOk(n')
  {
    forall k | 0 <= k < |n'.slots| ensures SlotOk(n', k) { assert SlotOk(n, k); }
    forall x | 0 <= x < |n'.sessions| ensures LiveOk(n', x) { assert LiveOk(n, x); }
  }

  predicate For(s: Session, t: Target) { t.link == s.slot && t.generation == s.generation }

  /** What the first i targets of a task have for an open session: those that name its slot and generation. */
  function Addressed(s: Session, task: NetworkTask, i: nat): seq<Envelope>
    requires i <= |task.targets|
  {
    if i == 0 then []
    else
      Addressed(s, task, i - 1)
      + if s.state == Open && For(s, task.targets[i - 1]) then [Wrap(task, task.targets[i - 1])] else []
  }

  lemma ReachesOnly(n: Net, t: Target, x: SessionId)
    requires NetOk(n) && x < |n.sessions|
    ensures Reaches(n, t) && n.slots[t.link].session.value == x
            <==> n.sessions[x].state == Open && For(n.sessions[x], t)
  {
    assert LiveOk(n, x);
    if t.link < |n.slots| { assert SlotOk(n, t.link); }
  }

  /** Each session is handed exactly what is addressed to its own slot and generation, if it is open. */
  lemma {:induction false} SendToExact(n: Net, task: NetworkTask, i: nat)
    requires NetOk(n) && i <= |task.targets|
    ensures var n' := SendTo(n, task, i);
            && NetOk(n') && SameLinks(n, n')
            && forall x | 0 <= x < |n.sessions| ::
                 n'.sessions[x].handed == n.sessions[x].handed + Addressed(n.sessions[x], task, i)
  {
    if i > 0 {
      var mid, t := SendTo(n, task, i - 1), task.targets[i - 1];
      SendToExact(n, task, i - 1);
      var n' := SendTo(n, task, i);
      assert SameLinks(n, n');
      SameLinksOk(n, n');
      hide NetOk;
      forall x | 0 <= x < |n.sessions|
        ensures n'.sessions[x].handed == n.sessions[x].handed + Addressed(n.sessions[x], task, i)
      {
        ReachesOnly(mid, t, x);
        assert mid.sessions[x] == n.sessions[x].(handed := mid.sessions[x].handed);
      }
    }
  }

  // ---- every event ----

  lemma {:induction false} CloseSlotsOk(n: Net, i: nat)
    requires NetOk(n) && i <= |n.slots|
    ensures var n' := CloseSlots(n, i);
            NetOk(n') && |n'.slots| == |n.slots| && n'.pending == n.pending && n'.stopping == n.stopping
  {
    hide NetOk, CloseSlot;
    if i > 0 {
      CloseSlotsOk(n, i - 1);
      CloseSlotOk(CloseSlots(n, i - 1), i - 1);
    }
  }

  lemma RestOk(n: Net)
    requires NetOk(n) && !n.pending.Accept?
    ensures NoneAccepting(n)
  {
    forall k | 0 <= k < |n.slots| ensures n.slots[k].state != Accepting { assert SlotOk(n, k); }
  }

  lemma AfterOk(n: Net, e: Event)
    requires NetOk(n)
    ensures NetOk(After(n, e))
  {
    hide NetOk, DoAccept, AcceptDone, CloseSession, CloseSlots, SendTo, NoneAccepting;
    match e
    case Start => if n.pending == Nothing { RestOk(n); DoAcceptOk(n); }
    case AcceptCompletes(outcome) => AcceptDoneOk(n, outcome);
    case RetryFires => if n.pending == Retry { RestOk(n); DoAcceptOk(n); }
    case SessionCloses(x) => CloseSessionOk(n, x);
    case TaskArrives(task) => SendToExact(n, task, |task.targets|);
    case StopRequested => StoppingOk(n);
    case StopRuns => CloseSlotsOk(n, |n.slots|);
  }

  lemma {:induction false} RunOk(n: Net, es: seq<Event>)
    requires NetOk(n)
    ensures NetOk(AfterAll(n, es))
  {
    hide NetOk, After;
    if es != [] {
      RunOk(n, es[..|es| - 1]);
      AfterOk(AfterAll(n, es[..|es| - 1]), es[|es| - 1]);
    }
  }

  // ---- generations and bindings over time ----

  /** Generations never go down, and sessions keep the slot and generation they were made for. */
  ghost predicate Onward(n: Net, n': Net) {
    && |n'.slots| == |n.slots| && |n.sessions| <= |n'.sessions|
    && (forall k | 0 <= k < |n.slots| :: n.slots[k].generation <= n'.slots[k].generation)
    && (forall x | 0 <= x < |n.sessions| ::
          n'.sessions[x].slot == n.sessions[x].slot && n'.sessions[x].generation == n.sessions[x].generation)
  }

  /** Every reuse of a slot raises its generation: a new session has a generation the slot never had. */
  lemma AcceptRaises(n: Net)
    requires NetOk(n) && DoAccept(n).pending.Accept?
    ensures var n' := DoAccept(n);
            var k := n'.pending.slot;
            && k < |n.slots| && n'.slots[k].generation == n.slots[k].generation + 1
            && (forall j | 0 <= j < |n.slots| && j != k :: n'.slots[j] == n.slots[j])
            && (forall x | 0 <= x < |n.sessions| && n.sessions[x].slot == k ::
                  n.sessions[x].generation < n'.slots[k].generation)
            && (forall i | 0 <= i < k :: !Available(n.slots[i]))
  {
    FirstIsFirst(n.slots, 0);
  }

  lemma {:induction false} FirstIsFirst(slots: seq<Slot>, i: nat)
    requires i <= |slots|
    ensures forall j | i <= j < FirstAvailable(slots, i) :: !Available(slots[j])
    decreases |slots| - i
  {
    if i < |slots| && !Available(slots[i]) { FirstIsFirst(slots, i + 1); }
  }

  lemma CloseSessionOnward(n: Net, x: SessionId)
    ensures Onward(n, CloseSession(n, x))
  {}

  lemma CloseSlotOnward(n: Net, k: nat)
    requires k < |n.slots|
    ensures Onward(n, CloseSlot(n, k))
  {}

  lemma {:induction false} CloseSlotsOnward(n: Net, i: nat)
    requires i <= |n.slots|
    ensures Onward(n, CloseSlots(n, i))
  {
    hide CloseSlot;
    if i > 0 {
      CloseSlotsOnward(n, i - 1);
      CloseSlotOnward(CloseSlots(n, i - 1), i - 1);
    }
  }

  lemma DoAcceptOnward(n: Net)
    ensures Onward(n, DoAccept(n))
  {}

  lemma AcceptDoneOnward(n: Net, outcome: Outcome)
    ensures Onward(n, AcceptDone(n, outcome))
  {
    hide DoAccept, CloseSlot;
    match n.pending
    case Accept(k, g, x) =>
      if k < |n.slots| {
        var slot := n.slots[k];
        CloseSlotOnward(n, k);
        DoAcceptOnward(n);
        DoAcceptOnward(CloseSlot(n, k));
        if slot.session.Some? && slot.session.value < |n.sessions| {
          DoAcceptOnward(SetSession(n.(slots := n.slots[k := slot.(state := Connected)]), slot.session.value, Open));
        }
      }
    case _ =>
  }

  lemma AfterOnward(n: Net, e: Event)
    requires NetOk(n)
    ensures Onward(n, After(n, e))
  {
    hide NetOk, DoAccept, AcceptDone, CloseSession, CloseSlots, SendTo;
    match e
    case Start => DoAcceptOnward(n);
    case AcceptCompletes(outcome) => AcceptDoneOnward(n, outcome);
    case RetryFires => DoAcceptOnward(n);
    case SessionCloses(x) => CloseSessionOnward(n, x);
    case TaskArrives(task) => SendToExact(n, task, |task.targets|);
    case StopRequested =>
    case StopRuns => CloseSlotsOnward(n, |n.slots|);
  }

  lemma {:induction false} RunOnward(n: Net, es: seq<Event>)
    requires NetOk(n)
    ensures Onward(n, AfterAll(n, es))
  {
    hide NetOk, After;
    if es != [] {
      var rest := es[..|es| - 1];
      RunOnward(n, rest);
      RunOk(n, rest);
      AfterOnward(AfterAll(n, rest), es[|es| - 1]);
    }
  }

  // ---- the safety of routes ----

  /** A session that has not closed still has its slot at its own generation. */
  lemma LiveKeepsGeneration(n: Net, x: SessionId)
    requires NetOk(n) && x < |n.sessions| && n.sessions[x].state != Shut
    ensures n.sessions[x].slot < |n.slots| && n.slots[n.sessions[x].slot].generation == n.sessions[x].generation
  {
    assert LiveOk(n, x);
  }

  /** The route names session x: no other session was ever bound to its slot and generation. */
  ghost predicate Names(n: Net, r: Route, x: SessionId)
    requires x < |n.sessions|
  {
    r.link == n.sessions[x].slot && r.generation == n.sessions[x].generation
  }

  /**
   A packet is passed on after its body has been read, whether or not its session has closed by then.
   The route it is given names its session if and only if the slot has not been taken into use again.
   */
  lemma RouteNamesSender(n: Net, netShard: nat, x: SessionId)
    requires NetOk(n) && x < |n.sessions|
    ensures var s := n.sessions[x];
            && s.slot < |n.slots|
            && (Names(n, MakeRoute(n, netShard, s.slot), x) <==> n.slots[s.slot].generation == s.generation)
            && (s.state != Shut ==> Names(n, MakeRoute(n, netShard, s.slot), x))
  {
    if n.sessions[x].state != Shut { LiveKeepsGeneration(n, x); }
  }

  /**
   Stale routes are safe: let a packet of session x be given a route before its slot is taken into use
   again, let anything happen, and let a task then be handed out. Whatever it addresses to that route
   reaches session x, if that is still open, or nobody.
   */
  lemma StaleRoute(n: Net, netShard: nat, x: SessionId, es: seq<Event>, task: NetworkTask, i: nat)
    requires NetOk(n) && x < |n.sessions| && n.slots[n.sessions[x].slot].generation == n.sessions[x].generation
    requires i < |task.targets|
    requires var r := MakeRoute(n, netShard, n.sessions[x].slot);
             task.targets[i].link == r.link && task.targets[i].generation == r.generation
    ensures var now := AfterAll(n, es);
            && x < |now.sessions|
            && (Reaches(now, task.targets[i]) <==> now.sessions[x].state == Open)
            && (Reaches(now, task.targets[i]) ==> now.slots[task.targets[i].link].session == Some(x))
            && forall y | 0 <= y < |now.sessions| && For(now.sessions[y], task.targets[i]) :: y == x
  {
    hide After;
    RunOk(n, es);
    RunOnward(n, es);
    var now := AfterAll(n, es);
    ReachesOnly(now, task.targets[i], x);
    if now.sessions[x].state == Open { assert LiveOk(now, x); }
    if Reaches(now, task.targets[i]) {
      assert SlotOk(now, task.targets[i].link);
      ReachesOnly(now, task.targets[i], now.slots[task.targets[i].link].session.value);
    }
  }

  /** A link is accepted, closes, and its slot is accepted on again. */
  const REUSE := [Start, AcceptCompletes(Accepted), SessionCloses(0), RetryFires, AcceptCompletes(Accepted)]

  lemma Steps5(n: Net, es: seq<Event>)
    requires |es| == 5
    ensures AfterAll(n, es) == After(After(After(After(After(n, es[0]), es[1]), es[2]), es[3]), es[4])
  {
    hide After;
    assert es[..4][..3] == es[..3] && es[..3][..2] == es[..2] && es[..2][..1] == es[..1] && es[..1][..0] == [];
    assert AfterAll(n, es[..1]) == After(n, es[0]);
    assert AfterAll(n, es[..2]) == After(After(n, es[0]), es[1]);
    assert AfterAll(n, es[..3]) == After(After(After(n, es[0]), es[1]), es[2]);
  }

  lemma OneSlot(slot: Slot)
    ensures FirstAvailable([slot], 0) == if Available(slot) then 0 else 1
  {
    assert FirstAvailable([slot], 1) == 1;
  }

  /** Taking a free single slot into use, and opening the session. */
  lemma OneSlotAccept(slot: Slot, sessions: seq<Session>)
    requires Available(slot)
    ensures var g, x := slot.generation + 1, |sessions|;
            DoAccept(Net([slot], sessions, Retry, false))
            == Net([Slot(Accepting, g, Some(x))], sessions + [Session(0, g, Starting, [])], Accept(0, g, x), false)
  {
    OneSlot(slot);
    hide FirstAvailable;
  }

  lemma OneSlotOpens(g: nat, earlier: seq<Session>)
    ensures var x := |earlier|;
            AcceptDone(Net([Slot(Accepting, g, Some(x))], earlier + [Session(0, g, Starting, [])], Accept(0, g, x),
                           false), Accepted)
            == Net([Slot(Connected, g, Some(x))], earlier + [Session(0, g, Open, [])], Retry, false)
  {
    OneSlot(Slot(Connected, g, Some(|earlier|)));
    hide FirstAvailable;
  }

  lemma OneSlotCloses()
    ensures CloseSession(Net([Slot(Connected, 1, Some(0))], [Session(0, 1, Open, [])], Retry, false), 0)
            == Net([Slot(Closed, 1, None)], [Session(0, 1, Shut, [])], Retry, false)
  {}

  lemma Reused()
    ensures AfterAll(NewNet(1), REUSE)
            == Net([Slot(Connected, 2, Some(1))], [Session(0, 1, Shut, []), Session(0, 2, Open, [])], Retry, false)
  {
    Steps5(NewNet(1), REUSE);
    var free := Slot(Empty, 0, None);
    assert NewNet(1) == Net([free], [], Nothing, false);
    OneSlotAccept(free, []);
    assert DoAccept(NewNet(1)) == DoAccept(NewNet(1).(pending := Retry));
    var first := Session(0, 1, Starting, []);
    assert [] + [first] == [first] && [] + [Session(0, 1, Open, [])] == [Session(0, 1, Open, [])];
    hide AfterAll, DoAccept, AcceptDone, CloseSession;
    OneSlotOpens(1, []);
    OneSlotCloses();
    OneSlotAccept(Slot(Closed, 1, None), [Session(0, 1, Shut, [])]);
    OneSlotOpens(2, [Session(0, 1, Shut, [])]);
    assert [Session(0, 1, Shut, [])] + [Session(0, 2, Open, [])] == [Session(0, 1, Shut, []), Session(0, 2, Open, [])];
  }

  /**
   Otherwise the route names somebody else: session 0 has closed after reading a packet, its slot is in
   use by session 1, and what is answered to that packet is handed to session 1.
   */
  lemma LatePacketMisrouted(netShard: nat, task: NetworkTask)
    requires |task.targets| == 1 && task.targets[0].link == 0 && task.targets[0].generation == 2
    ensures var n := AfterAll(NewNet(1), REUSE);
            && NetOk(n) && |n.sessions| == 2 && n.sessions[0].state == Shut
            && MakeRoute(n, netShard, n.sessions[0].slot) == Route(netShard, 0, 2)
            && !Names(n, MakeRoute(n, netShard, n.sessions[0].slot), 0)
            && Names(n, MakeRoute(n, netShard, n.sessions[0].slot), 1)
            && Reaches(n, task.targets[0]) && n.slots[0].session == Some(1)
  {
    NewNetOk(1);
    RunOk(NewNet(1), REUSE);
    Reused();
    hide NetOk, AfterAll;
  }

  /** A late notice, of a generation the slot no longer has, changes nothing. */
  lemma LateCloseIgnored(n: Net, x: SessionId)
    requires NetOk(n) && x < |n.sessions| && n.sessions[x].generation < n.slots[n.sessions[x].slot].generation
    ensures CloseSession(n, x) == n && n.sessions[x].state == Shut
  {
    assert LiveOk(n, x);
  }

  /** At most one slot is being accepted on. */
  lemma OneAccepting(n: Net, j: nat, k: nat)
    requires NetOk(n) && j < |n.slots| && k < |n.slots|
    requires n.slots[j].state == Accepting && n.slots[k].state == Accepting
    ensures j == k
  {
    assert SlotOk(n, j) && SlotOk(n, k);
  }

  // ---- accepting and stopping ----

  /** Unless it is stopping, the acceptor waits for a link if a slot is free and otherwise tries again later. */
  lemma AcceptsIfThereIsRoom(n: Net)
    requires !n.stopping
    ensures var n' := DoAccept(n);
            if exists k :: 0 <= k < |n.slots| && Available(n.slots[k]) then
              && n'.pending.Accept? && n'.pending.slot < |n.slots| && n'.pending.session == |n.sessions|
              && n'.sessions == n.sessions + [Session(n'.pending.slot, n'.pending.generation, Starting, [])]
              && n'.slots[n'.pending.slot].state == Accepting
            else n' == n.(pending := Retry)
  {
    FirstIsFirst(n.slots, 0);
  }

  /** The server is stopping, every slot is closed and empty, and no session is open any more. */
  ghost predicate Over(n: Net) {
    && n.stopping && (forall k | 0 <= k < |n.slots| :: n.slots[k].state == Closed && n.slots[k].session == None)
    && forall x | 0 <= x < |n.sessions| :: n.sessions[x].state == Shut
  }

  /** Closing a slot leaves it closed and empty, and opens no other. */
  lemma CloseSlotShuts(n: Net, k: nat)
    requires NetOk(n) && k < |n.slots|
    ensures var n' := CloseSlot(n, k);
            && |n'.slots| == |n.slots| && n'.slots[k].state == Closed && n'.slots[k].session == None
            && forall j | 0 <= j < |n.slots| && j != k :: n'.slots[j] == n.slots[j]
  {
    assert SlotOk(n, k);
  }

  lemma {:induction false} CloseSlotsShut(n: Net, i: nat)
    requires NetOk(n) && i <= |n.slots|
    ensures var n' := CloseSlots(n, i);
            |n'.slots| == |n.slots|
            && forall k | 0 <= k < i :: n'.slots[k].state == Closed && n'.slots[k].session == None
  {
    hide NetOk, CloseSlot;
    if i > 0 {
      CloseSlotsShut(n, i - 1);
      CloseSlotsOk(n, i - 1);
      CloseSlotShuts(CloseSlots(n, i - 1), i - 1);
    }
  }

  lemma NobodyLeft(n: Net)
    requires NetOk(n) && n.stopping
    requires forall k | 0 <= k < |n.slots| :: n.slots[k].state == Closed && n.slots[k].session == None
    ensures Over(n)
  {
    forall x | 0 <= x < |n.sessions| ensures n.sessions[x].state == Shut {
      assert LiveOk(n, x);
    }
  }

  lemma OverStays(n: Net, e: Event)
    requires Over(n)
    ensures Over(After(n, e))
  {
    hide SendTo, CloseSlots;
    if e == StopRuns { OverCloses(n, |n.slots|); }
  }

  lemma {:induction false} OverCloses(n: Net, i: nat)
    requires Over(n) && i <= |n.slots|
    ensures Over(CloseSlots(n, i)) && |CloseSlots(n, i).slots| == |n.slots|
  {
    if i > 0 { OverCloses(n, i - 1); }
  }

  /** Stopping closes every session, and whatever is still to complete opens none again. */
  lemma {:induction false} StoppedForGood(n: Net, es: seq<Event>)
    requires NetOk(n) && n.stopping
    ensures Over(AfterAll(After(n, StopRuns), es))
  {
    hide NetOk, Over, CloseSlots, DoAccept, AcceptDone, CloseSession, SendTo;
    if es == [] {
      CloseSlotsShut(n, |n.slots|);
      CloseSlotsOk(n, |n.slots|);
      NobodyLeft(CloseSlots(n, |n.slots|));
    } else {
      StoppedForGood(n, es[..|es| - 1]);
      OverStays(AfterAll(After(n, StopRuns), es[..|es| - 1]), es[|es| - 1]);
    }
  }
}
