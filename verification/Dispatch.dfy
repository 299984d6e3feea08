/**
 From players to links (LogicShard.cc, SendToPlayers): the recipients of a message are grouped by the
 link their last packet came from, and each group becomes one target of a network task.
 */
module Dispatch {
  import opened Links
  import Entities

  type Uid = Entities.Uid

  /** A link of a network shard. */
  datatype LinkKey = LinkKey(netShard: nat, link: nat)

  function KeyOf(r: Route): LinkKey { LinkKey(r.netShard, r.link) }

  /** One target a link; a uid without a route gets none, and the last uid of a link sets the generation. */
  function Grouped(routes: map<Uid, Route>, uids: seq<Uid>): map<LinkKey, Target> {
    if uids == [] then map[]
    else
      var g, u := Grouped(routes, uids[..|uids| - 1]), uids[|uids| - 1];
      if u !in routes then g
      else
        var r := routes[u];
        var before := if KeyOf(r) in g then g[KeyOf(r)].uids else [];
        g[KeyOf(r) := Target(r.link, r.generation, before + [u])]
  }

  /** The recipients that are on the link, in order. */
  function On(routes: map<Uid, Route>, uids: seq<Uid>, key: LinkKey): seq<Uid> {
    if uids == [] then []
    else
      var u := uids[|uids| - 1];
      On(routes, uids[..|uids| - 1], key) + if u in routes && KeyOf(routes[u]) == key then [u] else []
  }

  method SendToPlayers(routes: map<Uid, Route>, uids: seq<Uid>) returns (grouped: map<LinkKey, Target>)
    ensures grouped == Grouped(routes, uids)
  {
    grouped := map[];
    for i := 0 to |uids|
      invariant grouped == Grouped(routes, uids[..i])
    {
      assert uids[..i + 1][..i] == uids[..i];
      var u := uids[i];
      if u !in routes {
        continue;
      }
      var key := KeyOf(routes[u]);
      if key !in grouped {
        grouped := grouped[key := Target(0, 0, [])];
      }
      var t := grouped[key];
      grouped := grouped[key := Target(routes[u].link, routes[u].generation, t.uids + [u])];
    }
    assert uids[..|uids|] == uids;
  }

  // ---- every recipient with a route is in one target ----

  lemma {:induction false} OnAreRouted(routes: map<Uid, Route>, uids: seq<Uid>, key: LinkKey)
    ensures forall u :: u in On(routes, uids, key) <==> u in uids && u in routes && KeyOf(routes[u]) == key
  {
    if uids != [] {
      OnAreRouted(routes, uids[..|uids| - 1], key);
      assert uids == uids[..|uids| - 1] + [uids[|uids| - 1]];
    }
  }

  /** A link's target lists exactly the recipients on that link, and has the generation of the last of them. */
  lemma {:induction false} GroupedExact(routes: map<Uid, Route>, uids: seq<Uid>, key: LinkKey)
    ensures var g, on := Grouped(routes, uids), On(routes, uids, key);
            && (key in g <==> on != [])
            && (key in g ==> on[|on| - 1] in routes
                             && g[key] == Target(key.link, routes[on[|on| - 1]].generation, on))
  {
    if uids != [] { GroupedExact(routes, uids[..|uids| - 1], key); }
  }

  // ---- whose generation a target has ----

  /** Recipients on the same link were last heard from in the same generation. */
  predicate Consistent(routes: map<Uid, Route>, uids: seq<Uid>) {
    forall i, j | 0 <= i < |uids| && 0 <= j < |uids| && uids[i] in routes && uids[j] in routes
                  && KeyOf(routes[uids[i]]) == KeyOf(routes[uids[j]]) ::
      routes[uids[i]].generation == routes[uids[j]].generation
  }

  /** Each recipient is sent to along its own route. */
  ghost predicate Faithful(routes: map<Uid, Route>, uids: seq<Uid>) {
    var g := Grouped(routes, uids);
    forall u | u in uids && u in routes ::
      KeyOf(routes[u]) in g && u in g[KeyOf(routes[u])].uids && g[KeyOf(routes[u])].generation == routes[u].generation
  }

  /** Grouping respects all routes exactly if no link has recipients of different generations. */
  lemma GroupingFaithful(routes: map<Uid, Route>, uids: seq<Uid>)
    ensures Faithful(routes, uids) <==> Consistent(routes, uids)
  {
    var g := Grouped(routes, uids);
    if Consistent(routes, uids) {
      forall u | u in uids && u in routes
        ensures KeyOf(routes[u]) in g && u in g[KeyOf(routes[u])].uids
                && g[KeyOf(routes[u])].generation == routes[u].generation
      {
        var key := KeyOf(routes[u]);
        GroupedExact(routes, uids, key);
        OnAreRouted(routes, uids, key);
        var on := On(routes, uids, key);
        assert u in on;
        assert on[|on| - 1] in on;
      }
    }
  }

  /**
   Otherwise a recipient can be listed under a generation that is not its own, or be left out because
   of another's: of two players on one link the later decides for both.
   */
  lemma MixedGenerations(netShard: nat, link: nat, u: Uid, v: Uid, older: nat, newer: nat)
    requires u != v && older < newer
    ensures var routes := map[u := Route(netShard, link, older), v := Route(netShard, link, newer)];
            && Grouped(routes, [u, v]) == map[LinkKey(netShard, link) := Target(link, newer, [u, v])]
            && Grouped(routes, [v, u]) == map[LinkKey(netShard, link) := Target(link, older, [v, u])]
  {
    var routes := map[u := Route(netShard, link, older), v := Route(netShard, link, newer)];
    GroupTwo(routes, u, v);
    GroupTwo(routes, v, u);
  }

  lemma GroupTwo(routes: map<Uid, Route>, u: Uid, v: Uid)
    requires u in routes && v in routes && KeyOf(routes[u]) == KeyOf(routes[v])
    ensures Grouped(routes, [u, v]) == map[KeyOf(routes[v]) := Target(routes[v].link, routes[v].generation, [u, v])]
  {
    var one, two := [u], [u, v];
    assert one[..|one| - 1] == [] && two[..|two| - 1] == one;
    assert [] + [u] == one && [u] + [v] == two;
    var first := Target(routes[u].link, routes[u].generation, one);
    assert Grouped(routes, one) == map[KeyOf(routes[u]) := first];
    assert Grouped(routes, two)
           == Grouped(routes, one)[KeyOf(routes[v]) := Target(routes[v].link, routes[v].generation, two)];
  }

  /**
   End to end: if u's route was made for a packet of session x before x's slot was taken into use again,
   and no other recipient on that link has a different generation, then whatever happened since, u's
   copy goes to session x or to nobody.
   */
  lemma SentToSender(n: Net, netShard: nat, x: SessionId, es: seq<Event>, routes: map<Uid, Route>, uids: seq<Uid>,
                     u: Uid, task: NetworkTask, i: nat)
    requires NetOk(n) && x < |n.sessions| && n.slots[n.sessions[x].slot].generation == n.sessions[x].generation
    requires u in uids && u in routes && routes[u] == MakeRoute(n, netShard, n.sessions[x].slot)
    requires Consistent(routes, uids) && i < |task.targets|
    requires KeyOf(routes[u]) in Grouped(routes, uids) ==> task.targets[i] == Grouped(routes, uids)[KeyOf(routes[u])]
    ensures u in task.targets[i].uids
    ensures var now := AfterAll(n, es);
            && x < |now.sessions| && (Reaches(now, task.targets[i]) <==> now.sessions[x].state == Open)
            && forall y | 0 <= y < |now.sessions| && For(now.sessions[y], task.targets[i]) :: y == x
  {
    hide AfterAll, Reaches;
    GroupingFaithful(routes, uids);
    var key := KeyOf(routes[u]);
    assert key in Grouped(routes, uids);
    GroupedExact(routes, uids, key);
    StaleRoute(n, netShard, x, es, task, i);
  }
}
