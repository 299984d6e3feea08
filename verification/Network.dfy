/**
 The network shard itself (NetworkShard.cc): one object that updates its slots in place. Each handler
 is proved to do exactly what module Links specifies.
 */
module Network {
  import opened Links
  import Shards

  class NetworkShard {
    const shardId: nat
    var slots: seq<Slot>
    var sessions: seq<Session>
    var pending: Pending
    var stopping: bool
    var nextLogicShard: nat

    ghost function State(): Net
      reads this
    {
      Net(slots, sessions, pending, stopping)
    }

    constructor (shardId: nat, maxLinks: nat)
      ensures State() == NewNet(maxLinks) && this.shardId == shardId
    {
      this.shardId := shardId;
      slots := seq(maxLinks, _ => Slot(Empty, 0, None));
      sessions, pending, stopping, nextLogicShard := [], Nothing, false, 0;
    }

    method FindAvailableSlot() returns (found: Option<nat>)
      ensures match found
              case Some(k) => k == FirstAvailable(slots, 0) && k < |slots|
              case None => FirstAvailable(slots, 0) == |slots|
    {
      for i := 0 to |slots|
        invariant FirstAvailable(slots, 0) == FirstAvailable(slots, i)
      {
        if slots[i].state == Empty || slots[i].state == Closed {
          return Some(i);
        }
      }
      found := None;
    }

    method DoAccept()
      modifies this`slots, this`sessions, this`pending
      ensures State() == Links.DoAccept(old(State()))
    {
      if stopping {
        pending := Nothing;
        return;
      }
      var found := FindAvailableSlot();
      if found.None? {
        pending := Retry;
        return;
      }
      var k := found.value;
      var generation := slots[k].generation + 1;
      var session := |sessions|;
      sessions := sessions + [Session(k, generation, Starting, [])];
      slots := slots[k := Slot(Accepting, generation, Some(session))];
      pending := Accept(k, generation, session);
    }

    method OnSessionClosed(k: nat, generation: nat)
      modifies this`slots
      ensures State() == Links.OnSessionClosed(old(State()), k, generation)
    {
      if k >= |slots| || slots[k].generation != generation {
        return;
      }
      slots := slots[k := slots[k].(state := Closed, session := None)];
    }

    /** A session closes (GatewayLinkSession.cc, Close) and notifies its slot. */
    method CloseSession(x: SessionId)
      modifies this`slots, this`sessions
      ensures State() == Links.CloseSession(old(State()), x)
    {
      if x >= |sessions| || sessions[x].state == Shut {
        return;
      }
      sessions := sessions[x := sessions[x].(state := Shut)];
      OnSessionClosed(sessions[x].slot, sessions[x].generation);
    }

    method CloseSlot(k: nat)
      requires k < |slots|
      modifies this`slots, this`sessions
      ensures State() == Links.CloseSlot(old(State()), k)
    {
      if slots[k].session.Some? {
        CloseSession(slots[k].session.value);
      }
      if k < |slots| {
        slots := slots[k := slots[k].(state := Closed, session := None)];
      }
    }

    /** The completion handler of an accept. */
    method AcceptDone(outcome: Outcome)
      modifies this`slots, this`sessions, this`pending
      ensures State() == Links.AcceptDone(old(State()), outcome)
    {
      hide Links.DoAccept, Links.CloseSlot;
      if !pending.Accept? || pending.slot >= |slots| {
        return;
      }
      var k, generation := pending.slot, pending.generation;
      var slot := slots[k];
      if outcome != Accepted {
        if slot.generation == generation {
          CloseSlot(k);
        }
        if outcome == Failed {
          DoAccept();
        } else {
          pending := Nothing;
        }
        return;
      }
      if slot.generation == generation && slot.state == Accepting && slot.session.Some?
         && slot.session.value < |sessions| {
        slots := slots[k := slot.(state := Connected)];
        sessions := sessions[slot.session.value := sessions[slot.session.value].(state := Open)];
      }
      DoAccept();
    }

    method RetryDone()
      modifies this`slots, this`sessions, this`pending
      ensures State() == Links.RetryDone(old(State()))
    {
      if pending == Retry {
        DoAccept();
      }
    }

    method MakeRoute(link: nat) returns (route: Route)
      ensures route == Links.MakeRoute(State(), shardId, link)
    {
      route := Route(shardId, link, 0);
      if link < |slots| {
        route := route.(generation := slots[link].generation);
      }
    }

    method PickLogicShard(count: nat) returns (shard: nat)
      modifies this`nextLogicShard
      ensures if count == 0 then shard == 0 && nextLogicShard == old(nextLogicShard)
              else shard == old(nextLogicShard) % count && nextLogicShard == old(nextLogicShard) + 1
    {
      if count == 0 {
        return 0;
      }
      shard := nextLogicShard % count;
      nextLogicShard := nextLogicShard + 1;
    }

    /** Creations go round the shards; everything else goes by the room in the envelope or the payload. */
    method ResolveLogicShard(creation: bool, room: nat, hint: nat, count: nat) returns (shard: nat)
      modifies this`nextLogicShard
      ensures count > 0 ==> shard < count
      ensures creation && count > 0 ==>
                shard == old(nextLogicShard) % count && nextLogicShard == old(nextLogicShard) + 1
      ensures creation && count == 0 ==> shard == 0 && nextLogicShard == old(nextLogicShard)
      ensures !creation ==> shard == ShardOf(room, hint, count) && nextLogicShard == old(nextLogicShard)
    {
      if count == 0 {
        return 0;
      }
      if creation {
        shard := PickLogicShard(count);
        return;
      }
      var named := room;
      if named == 0 {
        named := hint;
      }
      shard := if named != 0 then named % count else 0;
    }

    method HandleNetworkTask(task: NetworkTask)
      modifies this`sessions
      ensures State() == Links.HandleNetworkTask(old(State()), task)
    {
      if stopping {
        return;
      }
      ghost var n := State();
      for i := 0 to |task.targets|
        invariant State() == SendTo(n, task, i)
      {
        var t := task.targets[i];
        if t.link >= |slots| {
          continue;
        }
        var slot := slots[t.link];
        if slot.generation != t.generation || slot.state != Connected || slot.session.None?
           || slot.session.value >= |sessions| || sessions[slot.session.value].state != Open {
          continue;
        }
        var x := slot.session.value;
        sessions := sessions[x := sessions[x].(handed := sessions[x].handed + [Wrap(task, t)])];
      }
    }

    /** Post a notice to every logic shard: none of the network shards knows where the player's room is. */
    method HandleClientDisconnected(client: nat, count: nat) returns (posts: seq<Shards.Post>)
      ensures posts == Shards.Notices(client, count)
    {
      posts := [];
      if client == 0 {
        return;
      }
      for i := 0 to count
        invariant posts == Shards.Notices(client, i)
      {
        posts := posts + [Shards.Post(i, Shards.Task(0, Route(0, 0, 0), Shards.ClientDisconnected(client)))];
      }
    }

    /** Raise the flag; the first caller posts the closing of the slots. */
    method Stop() returns (posts: bool)
      modifies this`stopping
      ensures State() == old(State()).(stopping := true) && posts == !old(stopping)
    {
      posts := !stopping;
      stopping := true;
    }

    /** The posted part of stopping. */
    method CloseAllSlots()
      modifies this`slots, this`sessions
      ensures State() == CloseSlots(old(State()), |old(slots)|)
    {
      hide Links.CloseSlot;
      ghost var n := State();
      for i := 0 to |slots|
        invariant State() == CloseSlots(n, i)
        invariant |slots| == |n.slots|
      {
        CloseSlotLength(State(), i);
        CloseSlot(i);
      }
    }
  }

  lemma CloseSlotLength(n: Net, k: nat)
    requires k < |n.slots|
    ensures |Links.CloseSlot(n, k).slots| == |n.slots|
  {}
}
