/**
 State synchronisation (LogicShard.cc, SendFullSnapshot, SendDelta and the body of TickRooms):
 a client that only ever sees a baseline snapshot and the messages of each tick holds the
 server's visible state.
 */
module Replication {
  import opened Entities
  import opened Simulation
  import opened Laws
  import opened Tracking
  import opened Evolution

  /** What a client knows, and also what a full snapshot carries. */
  datatype Replica = Replica(
    units: map<Id, UnitView>,
    sites: map<Id, SiteView>,
    fields: map<Id, Field>,
    drops: map<Id, Drop>,
    ledgers: map<Uid, Ledger>)

  /** A client that has heard nothing yet. */
  const BLANK := Replica(map[], map[], map[], map[], map[])

  datatype Kind = UnitKind | BuildingKind | FieldKind | DropKind

  datatype Message =
    | Snapshot(state: Replica)
    | UnitSpawned(unit: UnitView)
    | SiteSpawned(site: SiteView)
    | FieldSpawned(field: Field)
    | DropSpawned(drop: Drop)
    | Despawned(kind: Kind, id: Id)
    | Delta(units: map<Id, UnitView>, sites: map<Id, SiteView>, ledgers: map<Uid, Ledger>)

  // ---- server side ----

  function UnitViews(w: World): map<Id, UnitView> { map k | k in w.units :: ViewUnit(w.units[k]) }

  function SiteViews(w: World): map<Id, SiteView> { map k | k in w.buildings :: ViewSite(w.buildings[k]) }

  function ViewOf(w: World): Replica { Replica(UnitViews(w), SiteViews(w), w.fields, w.drops, w.ledgers) }

  // Spawned entities are described as they are at the end of the tick; those already gone are skipped.

  function UnitSpawns(now: map<Id, UnitView>, ids: seq<Id>): seq<Message> {
    if ids == [] then []
    else
      var k := ids[|ids| - 1];
      UnitSpawns(now, ids[..|ids| - 1]) + if k in now then [UnitSpawned(now[k])] else []
  }

  function SiteSpawns(now: map<Id, SiteView>, ids: seq<Id>): seq<Message> {
    if ids == [] then []
    else
      var k := ids[|ids| - 1];
      SiteSpawns(now, ids[..|ids| - 1]) + if k in now then [SiteSpawned(now[k])] else []
  }

  function FieldSpawns(now: map<Id, Field>, ids: seq<Id>): seq<Message> {
    if ids == [] then []
    else
      var k := ids[|ids| - 1];
      FieldSpawns(now, ids[..|ids| - 1]) + if k in now then [FieldSpawned(now[k])] else []
  }

  function DropSpawns(now: map<Id, Drop>, ids: seq<Id>): seq<Message> {
    if ids == [] then []
    else
      var k := ids[|ids| - 1];
      DropSpawns(now, ids[..|ids| - 1]) + if k in now then [DropSpawned(now[k])] else []
  }

  function Despawns(kind: Kind, ids: seq<Id>): seq<Message> {
    if ids == [] then [] else Despawns(kind, ids[..|ids| - 1]) + [Despawned(kind, ids[|ids| - 1])]
  }

  /** The changed entities, without those a spawn message has just described. */
  function Changes(w: World): Message {
    Delta(map k | k in w.marks.dirty && k !in w.marks.spawned && k in w.units :: ViewUnit(w.units[k]),
          map k | k in w.marks.siteDirty && k !in w.marks.siteSpawned && k in w.buildings :: ViewSite(w.buildings[k]),
          map k | k in w.marks.ledgerDirty && k in w.ledgers :: w.ledgers[k])
  }

  function SpawnMessages(w: World): seq<Message> {
    UnitSpawns(UnitViews(w), w.marks.spawned) + SiteSpawns(SiteViews(w), w.marks.siteSpawned)
    + FieldSpawns(w.fields, w.marks.fieldSpawned) + DropSpawns(w.drops, w.marks.dropSpawned)
  }

  function DespawnMessages(m: Marks): seq<Message> {
    Despawns(UnitKind, m.despawned) + Despawns(BuildingKind, m.siteDespawned)
    + Despawns(FieldKind, m.fieldDespawned) + Despawns(DropKind, m.dropDespawned)
  }

  function DeltaMessages(w: World): seq<Message> {
    SpawnMessages(w) + DespawnMessages(w.marks)
    + if Changes(w) == Delta(map[], map[], map[]) then [] else [Changes(w)]
  }

  /** Input of one tick: the commands that arrived, and how this tick iterates and computes. */
  datatype Input = Input(env: Env, commands: seq<Command>)

  function TakeRejected(w: World): World { w.(rejected := []) }

  /** The simulated part of a tick. */
  function Advance(w: World, input: Input): World {
    var w1 := ApplyPending(input.env, w.(pending := w.pending + input.commands));
    Step(input.env, TakeRejected(w1), TICK_SECONDS)
  }

  /** What tick number `tick` sends after the simulation has reached w. */
  function Broadcast(w: World, tick: nat): seq<Message> {
    if tick % SNAPSHOT_INTERVAL == 0 then [Snapshot(ViewOf(w))] else DeltaMessages(w)
  }

  /** The room after the given inputs; the tick counter stands at `tick` before the first of them. */
  function Run(w: World, inputs: seq<Input>): World {
    if inputs == [] then w
    else ClearMarks(Advance(Run(w, inputs[..|inputs| - 1]), inputs[|inputs| - 1]))
  }

  /** Everything the room sends during the given inputs. */
  function Sent(w: World, tick: nat, inputs: seq<Input>): seq<Message> {
    if inputs == [] then []
    else
      var before := inputs[..|inputs| - 1];
      Sent(w, tick, before) + Broadcast(Advance(Run(w, before), inputs[|inputs| - 1]), tick + |inputs|)
  }

  // ---- client side ----

  function Receive(r: Replica, m: Message): Replica {
    match m
    case Snapshot(state) => state
    case UnitSpawned(u) => r.(units := r.units[u.id := u])
    case SiteSpawned(b) => r.(sites := r.sites[b.id := b])
    case FieldSpawned(f) => r.(fields := r.fields[f.id := f])
    case DropSpawned(d) => r.(drops := r.drops[d.id := d])
    case Despawned(UnitKind, id) => r.(units := r.units - {id})
    case Despawned(BuildingKind, id) => r.(sites := r.sites - {id})
    case Despawned(FieldKind, id) => r.(fields := r.fields - {id})
    case Despawned(DropKind, id) => r.(drops := r.drops - {id})
    case Delta(us, bs, ls) => Replica(r.units + us, r.sites + bs, r.fields, r.drops, r.ledgers + ls)
  }

  function Play(r: Replica, ms: seq<Message>): Replica {
    if ms == [] then r else Receive(Play(r, ms[..|ms| - 1]), ms[|ms| - 1])
  }

  lemma {:induction false} PlayConcat(r: Replica, ms: seq<Message>, ms': seq<Message>)
    ensures Play(r, ms + ms') == Play(Play(r, ms), ms')
  {
    if ms' == [] {
      assert ms + ms' == ms;
    } else {
      var all, rest := ms + ms', ms'[..|ms'| - 1];
      PlayConcat(r, ms, rest);
      assert all[..|all| - 1] == ms + rest && all[|all| - 1] == ms'[|ms'| - 1];
    }
  }

  // ---- agreement ----

  ghost predicate FieldsAgree(fields: map<Id, Field>, w: World) {
    fields.Keys == w.fields.Keys
    && forall k | k in w.fields :: w.fields[k] == fields[k].(amount := w.fields[k].amount)
                                   && w.fields[k].amount <= fields[k].amount
  }

  ghost predicate DropsAgree(drops: map<Id, Drop>, w: World) {
    drops.Keys == w.drops.Keys
    && forall k | k in w.drops :: w.drops[k] == drops[k].(amount := w.drops[k].amount)
                                  && w.drops[k].amount <= drops[k].amount
  }

  /** Units, buildings and ledgers are exact; fields and drops are the right ones, with amounts never too low. */
  ghost predicate Agrees(r: Replica, w: World) {
    && r.units == UnitViews(w) && r.sites == SiteViews(w) && r.ledgers == w.ledgers
    && FieldsAgree(r.fields, w) && DropsAgree(r.drops, w)
  }

  lemma SnapshotAgrees(w: World)
    ensures Agrees(ViewOf(w), w)
  {}

  // ---- playing one frame ----

  function Restrict<V>(m: map<Id, V>, ids: seq<Id>): map<Id, V> { map k | k in ids && k in m :: m[k] }

  lemma RestrictStep<V>(base: map<Id, V>, m: map<Id, V>, rest: seq<Id>, k: Id)
    ensures k in m ==> base + Restrict(m, rest + [k]) == (base + Restrict(m, rest))[k := m[k]]
    ensures k !in m ==> Restrict(m, rest + [k]) == Restrict(m, rest)
  {}

  lemma RestrictNone<V>(base: map<Id, V>, m: map<Id, V>)
    ensures base + Restrict(m, []) == base
  {}

  lemma {:induction false} PlayUnitSpawns(r: Replica, now: map<Id, UnitView>, ids: seq<Id>)
    requires forall k | k in now :: now[k].id == k
    ensures Play(r, UnitSpawns(now, ids)) == r.(units := r.units + Restrict(now, ids))
  {
    hide Restrict;
    if ids == [] {
      RestrictNone(r.units, now);
    } else {
      var rest, k := ids[..|ids| - 1], ids[|ids| - 1];
      PlayUnitSpawns(r, now, rest);
      RestrictStep(r.units, now, rest, k);
      assert ids == rest + [k];
      if k in now {
        PlayConcat(r, UnitSpawns(now, rest), [UnitSpawned(now[k])]);
        PlayOne(Play(r, UnitSpawns(now, rest)), UnitSpawned(now[k]));
      } else {
        assert UnitSpawns(now, ids) == UnitSpawns(now, rest);
      }
      hide Play;
    }
  }

  lemma {:induction false} PlaySiteSpawns(r: Replica, now: map<Id, SiteView>, ids: seq<Id>)
    requires forall k | k in now :: now[k].id == k
    ensures Play(r, SiteSpawns(now, ids)) == r.(sites := r.sites + Restrict(now, ids))
  {
    hide Restrict;
    if ids == [] {
      RestrictNone(r.sites, now);
    } else {
      var rest, k := ids[..|ids| - 1], ids[|ids| - 1];
      PlaySiteSpawns(r, now, rest);
      RestrictStep(r.sites, now, rest, k);
      assert ids == rest + [k];
      if k in now {
        PlayConcat(r, SiteSpawns(now, rest), [SiteSpawned(now[k])]);
        PlayOne(Play(r, SiteSpawns(now, rest)), SiteSpawned(now[k]));
      } else {
        assert SiteSpawns(now, ids) == SiteSpawns(now, rest);
      }
      hide Play;
    }
  }

  lemma {:induction false} PlayFieldSpawns(r: Replica, now: map<Id, Field>, ids: seq<Id>)
    requires forall k | k in now :: now[k].id == k
    ensures Play(r, FieldSpawns(now, ids)) == r.(fields := r.fields + Restrict(now, ids))
  {
    hide Restrict;
    if ids == [] {
      RestrictNone(r.fields, now);
    } else {
      var rest, k := ids[..|ids| - 1], ids[|ids| - 1];
      PlayFieldSpawns(r, now, rest);
      RestrictStep(r.fields, now, rest, k);
      assert ids == rest + [k];
      if k in now {
        PlayConcat(r, FieldSpawns(now, rest), [FieldSpawned(now[k])]);
        PlayOne(Play(r, FieldSpawns(now, rest)), FieldSpawned(now[k]));
      } else {
        assert FieldSpawns(now, ids) == FieldSpawns(now, rest);
      }
      hide Play;
    }
  }

  lemma {:induction false} PlayDropSpawns(r: Replica, now: map<Id, Drop>, ids: seq<Id>)
    requires forall k | k in now :: now[k].id == k
    ensures Play(r, DropSpawns(now, ids)) == r.(drops := r.drops + Restrict(now, ids))
  {
    hide Restrict;
    if ids == [] {
      RestrictNone(r.drops, now);
    } else {
      var rest, k := ids[..|ids| - 1], ids[|ids| - 1];
      PlayDropSpawns(r, now, rest);
      RestrictStep(r.drops, now, rest, k);
      assert ids == rest + [k];
      if k in now {
        PlayConcat(r, DropSpawns(now, rest), [DropSpawned(now[k])]);
        PlayOne(Play(r, DropSpawns(now, rest)), DropSpawned(now[k]));
      } else {
        assert DropSpawns(now, ids) == DropSpawns(now, rest);
      }
      hide Play;
    }
  }

  lemma PlayOne(r: Replica, m: Message)
    ensures Play(r, [m]) == Receive(r, m)
  {}

  function IdSet(ids: seq<Id>): set<Id> { set k | k in ids }

  function Forget(r: Replica, kind: Kind, ids: set<Id>): Replica {
    match kind
    case UnitKind => r.(units := r.units - ids)
    case BuildingKind => r.(sites := r.sites - ids)
    case FieldKind => r.(fields := r.fields - ids)
    case DropKind => r.(drops := r.drops - ids)
  }

  lemma ForgetStep(r: Replica, kind: Kind, ids: set<Id>, k: Id)
    ensures Receive(Forget(r, kind, ids), Despawned(kind, k)) == Forget(r, kind, ids + {k})
  {
    match kind
    case UnitKind => assert r.units - ids - {k} == r.units - (ids + {k});
    case BuildingKind => assert r.sites - ids - {k} == r.sites - (ids + {k});
    case FieldKind => assert r.fields - ids - {k} == r.fields - (ids + {k});
    case DropKind => assert r.drops - ids - {k} == r.drops - (ids + {k});
  }

  lemma ForgetNone(r: Replica, kind: Kind)
    ensures Forget(r, kind, {}) == r
  {
    assert r.units - {} == r.units && r.sites - {} == r.sites && r.fields - {} == r.fields && r.drops - {} == r.drops;
  }

  lemma {:induction false} PlayDespawns(r: Replica, kind: Kind, ids: seq<Id>)
    ensures Play(r, Despawns(kind, ids)) == Forget(r, kind, IdSet(ids))
  {
    hide Forget, Receive;
    if ids == [] {
      ForgetNone(r, kind);
      assert IdSet(ids) == {};
    } else {
      var rest, k := ids[..|ids| - 1], ids[|ids| - 1];
      PlayDespawns(r, kind, rest);
      ForgetStep(r, kind, IdSet(rest), k);
      PlayConcat(r, Despawns(kind, rest), [Despawned(kind, k)]);
      PlayOne(Play(r, Despawns(kind, rest)), Despawned(kind, k));
      assert IdSet(ids) == IdSet(rest) + {k} by { assert ids == rest + [k]; }
      hide Play;
    }
  }

  lemma PlayChain(r: Replica, a: seq<Message>, b: seq<Message>, c: seq<Message>, d: seq<Message>)
    ensures Play(r, a + b + c + d) == Play(Play(Play(Play(r, a), b), c), d)
  {
    PlayConcat(r, a, b);
    PlayConcat(r, a + b, c);
    PlayConcat(r, a + b + c, d);
  }

  function WithSpawns(r: Replica, w: World): Replica {
    Replica(r.units + Restrict(UnitViews(w), w.marks.spawned), r.sites + Restrict(SiteViews(w), w.marks.siteSpawned),
            r.fields + Restrict(w.fields, w.marks.fieldSpawned), r.drops + Restrict(w.drops, w.marks.dropSpawned),
            r.ledgers)
  }

  function WithoutGone(r: Replica, m: Marks): Replica {
    Replica(r.units - IdSet(m.despawned), r.sites - IdSet(m.siteDespawned),
            r.fields - IdSet(m.fieldDespawned), r.drops - IdSet(m.dropDespawned), r.ledgers)
  }

  function WithChanges(r: Replica, d: Message): Replica
    requires d.Delta?
  {
    Replica(r.units + d.units, r.sites + d.sites, r.fields, r.drops, r.ledgers + d.ledgers)
  }

  lemma PlaySpawns(r: Replica, w: World)
    requires WellFormed(w)
    ensures Play(r, SpawnMessages(w)) == WithSpawns(r, w)
  {
    ViewKeys(w);
    hide WellFormed, UnitViews, SiteViews, Restrict, Play, UnitSpawns, SiteSpawns, FieldSpawns, DropSpawns;
    var m := w.marks;
    var r1 := r.(units := r.units + Restrict(UnitViews(w), m.spawned));
    PlayUnitSpawns(r, UnitViews(w), m.spawned);
    var r2 := r1.(sites := r1.sites + Restrict(SiteViews(w), m.siteSpawned));
    PlaySiteSpawns(r1, SiteViews(w), m.siteSpawned);
    var r3 := r2.(fields := r2.fields + Restrict(w.fields, m.fieldSpawned));
    PlayFieldSpawns(r2, w.fields, m.fieldSpawned);
    PlayDropSpawns(r3, w.drops, m.dropSpawned);
    PlayChain(r, UnitSpawns(UnitViews(w), m.spawned), SiteSpawns(SiteViews(w), m.siteSpawned),
              FieldSpawns(w.fields, m.fieldSpawned), DropSpawns(w.drops, m.dropSpawned));
  }

  lemma PlayGone(r: Replica, m: Marks)
    ensures Play(r, DespawnMessages(m)) == WithoutGone(r, m)
  {
    hide Play, Despawns, IdSet;
    var r1 := Forget(r, UnitKind, IdSet(m.despawned));
    PlayDespawns(r, UnitKind, m.despawned);
    var r2 := Forget(r1, BuildingKind, IdSet(m.siteDespawned));
    PlayDespawns(r1, BuildingKind, m.siteDespawned);
    var r3 := Forget(r2, FieldKind, IdSet(m.fieldDespawned));
    PlayDespawns(r2, FieldKind, m.fieldDespawned);
    PlayDespawns(r3, DropKind, m.dropDespawned);
    PlayChain(r, Despawns(UnitKind, m.despawned), Despawns(BuildingKind, m.siteDespawned),
              Despawns(FieldKind, m.fieldDespawned), Despawns(DropKind, m.dropDespawned));
  }

  /** What a delta frame leaves the client with. */
  lemma PlayDelta(r: Replica, w: World)
    requires WellFormed(w)
    ensures Play(r, DeltaMessages(w)) == WithChanges(WithoutGone(WithSpawns(r, w), w.marks), Changes(w))
  {
    hide WellFormed, Play, Changes, SpawnMessages, DespawnMessages, WithSpawns, WithoutGone;
    PlaySpawns(r, w);
    PlayGone(WithSpawns(r, w), w.marks);
    PlayConcat(r, SpawnMessages(w), DespawnMessages(w.marks));
    ChangesIsDelta(w);
    var last := if Changes(w) == Delta(map[], map[], map[]) then [] else [Changes(w)];
    PlayConcat(r, SpawnMessages(w) + DespawnMessages(w.marks), last);
    PlayLast(WithoutGone(WithSpawns(r, w), w.marks), Changes(w));
  }

  lemma ChangesIsDelta(w: World)
    ensures Changes(w).Delta?
  {}

  lemma ViewKeys(w: World)
    requires WellFormed(w)
    ensures forall k | k in UnitViews(w) :: UnitViews(w)[k].id == k
    ensures forall k | k in SiteViews(w) :: SiteViews(w)[k].id == k
    ensures forall k | k in w.fields :: w.fields[k].id == k
    ensures forall k | k in w.drops :: w.drops[k].id == k
  {}

  /** Leaving out an empty delta makes no difference. */
  lemma PlayLast(r: Replica, d: Message)
    requires d.Delta?
    ensures Play(r, if d == Delta(map[], map[], map[]) then [] else [d])
            == WithChanges(r, d)
  {
    PlayOne(r, d);
    if d == Delta(map[], map[], map[]) {
      assert r.units + map[] == r.units && r.sites + map[] == r.sites && r.ledgers + map[] == r.ledgers;
    }
  }

  // ---- one frame ----

  lemma PatchAgrees<V>(was: map<Id, V>, now: map<Id, V>, spawned: seq<Id>, despawned: seq<Id>, changed: map<Id, V>)
    requires forall k | k in now && k !in was :: k in spawned
    requires forall k | k in was && k !in now :: k in despawned
    requires forall k | k in despawned :: k !in now
    requires forall k | k in changed :: k in now && changed[k] == now[k]
    requires forall k | k in now && k in was :: now[k] == was[k] || k in spawned || k in changed
    ensures was + Restrict(now, spawned) - IdSet(despawned) + changed == now
  {}

  lemma PatchKeys<V>(was: map<Id, V>, now: map<Id, V>, spawned: seq<Id>, despawned: seq<Id>)
    requires forall k | k in now && k !in was :: k in spawned
    requires forall k | k in was && k !in now :: k in despawned
    requires forall k | k in despawned :: k !in now
    ensures var r := was + Restrict(now, spawned) - IdSet(despawned);
            r.Keys == now.Keys && forall k | k in now :: r[k] == now[k] || (k in was && r[k] == was[k])
  {}

  lemma UnitsAgree(r: Replica, a: World, b: World)
    requires a.marks == NO_MARKS && TrackedUnits(a, b) && r.units == UnitViews(a)
    ensures r.units + Restrict(UnitViews(b), b.marks.spawned) - IdSet(b.marks.despawned) + Changes(b).units
            == UnitViews(b)
  {
    hide ViewUnit, Restrict, IdSet;
    PatchAgrees(r.units, UnitViews(b), b.marks.spawned, b.marks.despawned, Changes(b).units);
  }

  lemma SitesAgree(r: Replica, a: World, b: World)
    requires a.marks == NO_MARKS && TrackedSites(a, b) && r.sites == SiteViews(a)
    ensures r.sites + Restrict(SiteViews(b), b.marks.siteSpawned) - IdSet(b.marks.siteDespawned) + Changes(b).sites
            == SiteViews(b)
  {
    hide ViewSite, Restrict, IdSet;
    PatchAgrees(r.sites, SiteViews(b), b.marks.siteSpawned, b.marks.siteDespawned, Changes(b).sites);
  }

  lemma LedgersAgree(a: World, b: World)
    requires TrackedLedgers(a, b)
    ensures a.ledgers + Changes(b).ledgers == b.ledgers
  {}

  lemma FieldsFollow(r: Replica, a: World, b: World)
    requires a.marks == NO_MARKS && TrackedFields(a, b) && FieldsAgree(r.fields, a)
    ensures FieldsAgree(r.fields + Restrict(b.fields, b.marks.fieldSpawned) - IdSet(b.marks.fieldDespawned), b)
  {
    PatchKeys(r.fields, b.fields, b.marks.fieldSpawned, b.marks.fieldDespawned);
    hide Restrict, IdSet;
  }

  lemma DropsFollow(r: Replica, a: World, b: World)
    requires a.marks == NO_MARKS && TrackedDrops(a, b) && DropsAgree(r.drops, a)
    ensures DropsAgree(r.drops + Restrict(b.drops, b.marks.dropSpawned) - IdSet(b.marks.dropDespawned), b)
  {
    PatchKeys(r.drops, b.drops, b.marks.dropSpawned, b.marks.dropDespawned);
    hide Restrict, IdSet;
  }

  /** A frame that starts without marks and is tracked brings an agreeing client to agree again. */
  lemma FrameAgrees(r: Replica, a: World, b: World)
    requires a.marks == NO_MARKS && WellFormed(b) && Tracked(a, b) && Agrees(r, a)
    ensures Agrees(Play(r, DeltaMessages(b)), b)
  {
    hide WellFormed, Play, DeltaMessages, UnitViews, SiteViews, Changes, Restrict, IdSet, FieldsAgree, DropsAgree;
    PlayDelta(r, b);
    UnitsAgree(r, a, b);
    SitesAgree(r, a, b);
    LedgersAgree(a, b);
    FieldsFollow(r, a, b);
    DropsFollow(r, a, b);
    hide TrackedUnits, TrackedSites, TrackedFields, TrackedDrops, TrackedLedgers;
  }

  // ---- whole runs ----

  lemma AdvanceKeeps(w: World, input: Input)
    requires WellFormed(w)
    ensures Keeps(w, Advance(w, input))
  {
    hide Evolves, WellFormed, ApplyPending, Step;
    var e := input.env;
    var w0 := w.(pending := w.pending + input.commands);
    QueuesKeep(w, w0);
    var w1 := ApplyPending(e, w0);
    PendingKeeps(e, w0);
    KeepsTrans(w, w0, w1);
    QueuesKeep(w1, TakeRejected(w1));
    KeepsTrans(w, w1, TakeRejected(w1));
    StepKeeps(e, TakeRejected(w1), TICK_SECONDS);
    KeepsTrans(w, TakeRejected(w1), Advance(w, input));
  }

  lemma ClearMarksWellFormed(w: World)
    requires WellFormed(w)
    ensures WellFormed(ClearMarks(w))
  {}

  lemma {:induction false} RunWellFormed(w: World, inputs: seq<Input>)
    requires WellFormed(w)
    ensures WellFormed(Run(w, inputs))
  {
    hide WellFormed, Evolves, Advance;
    if inputs != [] {
      var before := Run(w, inputs[..|inputs| - 1]);
      RunWellFormed(w, inputs[..|inputs| - 1]);
      AdvanceKeeps(before, inputs[|inputs| - 1]);
      ClearMarksWellFormed(Advance(before, inputs[|inputs| - 1]));
    }
  }

  /**
   Replica agreement: whatever is commanded, in whatever order entities are processed, a client
   that agreed at the start and plays everything sent since agrees after every tick, and is exact
   after every tick whose number is a multiple of the snapshot interval.
   */
  lemma {:induction false} ReplicaAgreement(r: Replica, w: World, tick: nat, inputs: seq<Input>)
    requires WellFormed(w) && w.marks == NO_MARKS && Agrees(r, w)
    ensures Agrees(Play(r, Sent(w, tick, inputs)), Run(w, inputs))
    ensures inputs != [] && (tick + |inputs|) % 20 == 0
            ==> Play(r, Sent(w, tick, inputs)) == ViewOf(Run(w, inputs))
  {
    hide WellFormed, Evolves, Advance, Agrees, ViewOf, DeltaMessages;
    if inputs != [] {
      var rest, input := inputs[..|inputs| - 1], inputs[|inputs| - 1];
      var a := Run(w, rest);
      var b := Advance(a, input);
      ReplicaAgreement(r, w, tick, rest);
      RunWellFormed(w, rest);
      AdvanceKeeps(a, input);
      RunMarks(w, rest);
      EvolvesTracked(a, b);
      PlayConcat(r, Sent(w, tick, rest), Broadcast(b, tick + |inputs|));
      FrameAgrees(Play(r, Sent(w, tick, rest)), a, b);
      SnapshotAgrees(b);
      PlayOne(Play(r, Sent(w, tick, rest)), Snapshot(ViewOf(b)));
      ClearMarksAgrees(b);
      AgreesCleared(Play(r, Sent(w, tick, inputs)), b);
    }
  }

  lemma RunMarks(w: World, inputs: seq<Input>)
    requires w.marks == NO_MARKS
    ensures Run(w, inputs).marks == NO_MARKS
  {}

  lemma EvolvesTracked(a: World, b: World)
    requires Evolves(a, b)
    ensures Tracked(a, b)
  {}

  lemma ClearMarksAgrees(w: World)
    ensures ViewOf(ClearMarks(w)) == ViewOf(w)
  {}

  lemma AgreesCleared(r: Replica, w: World)
    requires Agrees(r, w)
    ensures Agrees(r, ClearMarks(w))
  {
    ClearMarksAgrees(w);
  }
}
