# A verified model of the game server

The game server runs rooms in which players command units, gather, build, train and fight. Everything is
decided by the server in fixed steps of 0.05 seconds; clients see snapshots and deltas. This project models
that simulation and the machinery around it, and proves what it promises:

- **Simulation and synchronisation.** `Rooms.dfy` is the room as one object whose methods update its
  maps and change marks in place; each method is proved to leave exactly the state that `Simulation.dfy`
  specifies. On that specification: a client fed with deltas holds the server's visible state
  (`Tracking.dfy`, `Evolution.dfy`, `Replication.dfy`), units stay in one mode (`Laws.dfy`), resources are
  conserved (`Sums.dfy`, `Economy.dfy`) kind by kind (`Kinds.dfy`), verdicts stand (`Match.dfy`).
- **What a unit's turn comes to**, told from the unit and its surroundings alone: what it sees (`Sight.dfy`), a
  blow (`Strikes.dfy`), a worker's errands (`Labour.dfy`), building (`Sites.dfy`, `Construction.dfy`), and what a
  command makes of it (`Obedience.dfy`).
- **What single units can count on over time.** Walking (`Movement.dfy`), the worker cycle
  (`WorkerLiveness.dfy`), commands of other players (`Commands.dfy`, `Formation.dfy`), combat (`Combat.dfy`),
  sieges (`Sieges.dfy`), training (`Training.dfy`). `Bystanders.dfy` and `Moments.dfy` connect one unit's turn to
  a whole tick.
- **Rooms on a shard.** `Logic.dfy` is the shard as an object that owns its rooms, proved against
  `Shards.dfy`; `Lobby.dfy` and `Openings.dfy` have seats, teams and the initial map, `Submissions.dfy` whose
  commands reach a room; `ShardLaws.dfy` proves what every sequence of messages and ticks keeps, `Endings.dfy`
  how matches begin and end, and `Clusters.dfy` what several shards keep together. `Broadcasts.dfy` writes the
  messages of a frame, `Dispatch.dfy` groups their recipients by link.
- **Links.** `Network.dfy` (against `Links.dfy`) reuses slots for sessions, `Sessions.dfy` (against
  `SendQueue.dfy`) has the bounded send queue, `LostDrop.dfy` a loss that it does not repair,
  `PacketCodec.dfy` the packet stream.

`Entities.dfy` holds the records, constants and price tables.

What the model leaves open is a parameter, and every claim holds for all values of it: the length of a
displacement (any norm), yaw and offsets computed with trigonometry, the initial layout, and the order in
which a hash map is walked, which may differ from tick to tick (`Simulation.Env`, `Shards.Chance`).
`Environment.dfy` shows that such parameters exist. History that the server does not keep (resources that
left play, announcements, written packets) is recorded in ghost fields or in record fields nothing reads.

Some expectations turn out not to hold of the code. The code is kept as it is; each has the exact condition
under which it does meet the expectation, and a concrete case in which it does not:

- Straight movement arrives from everywhere exactly when a step is at most twice the arrival radius; the
  values in use are exactly at that limit (`Movement.ArrivalCondition`, `Movement.LongStepsOscillate`).
- A join keeps teams distinct exactly when the player count is nobody's team; after a leave it may be
  (`Lobby.JoinKeepsTeams`, `Lobby.LeaveThenJoinCollides`), and two players of one team can then start a
  match that play cannot end (`Endings.OneTeamMatch`).
- A network task names one generation for all recipients on a link, which is right for each of them exactly
  when they were all last heard from in the same generation (`Dispatch.GroupingFaithful`,
  `Dispatch.MixedGenerations`).
- A route names the session whose packet it was made for exactly when the session's slot has not been taken
  into use again; a packet can be passed on after its session has closed, and then it may have been
  (`Links.RouteNamesSender`, `Links.LatePacketMisrouted`).
- Delivery from a packet on makes up for a full queue's losses exactly when the packet had not been taken for
  writing at the last drop; a snapshot that is merely written after it may not repair (`SendQueue.DropGap`,
  `LostDrop.InFlightSnapshotMisses`).
- Every fifth step is a scan, and no other, exactly until the 32-bit counter of steps wraps; then two steps in a
  row are scans (`Sight.EveryFifthStep`, `Sight.ScanBeatBreaks`).
- Resources are conserved in total. Each kind is conserved through every turn exactly when nobody takes
  something up on top of a load of another kind (`Kinds.CommitKeepsKinds`, `Kinds.PureExactly`,
  `Kinds.RunKinds`, `Kinds.WoodTurnsToGold`).
- A player keeps one seat in all exactly when it is never seated on one shard while another has a seat for it
  (`Clusters.HappeningKeepsOneSeat`, `Clusters.OneSeatThroughout`, `Clusters.TwoShardsTwoRooms`).

## Model

| member | source | states |
|---|---|---|
| `Replication.ReplicaAgreement` | GameServer/source/LogicShard.cc:311-341 | Over any run, for all commands and iteration orders: a client that agreed at the start and plays everything sent has exactly the server's visible units, buildings and ledgers and the right fields and drops after every tick, and is exact in everything after each 20th tick |
| `Replication.FrameAgrees` | GameServer/source/LogicShard.cc:434-545 | One delta made from the change marks alone turns agreement before the frame into agreement after it |
| `Replication.SnapshotAgrees` | GameServer/source/LogicShard.cc:409-432 | A full snapshot alone puts a client in agreement |
| `Replication.PlayDelta` | GameServer/source/LogicShard.cc:459-545 | What the spawn, despawn and delta messages of a frame do to any client, message by message |
| `Evolution.StepKeeps` | GameServer/include/DungeonRoom.h:545-595 | A step, in any iteration order, marks everything a client could see change, keeps ids and modes well formed, and neither creates nor destroys resources |
| `Evolution.PendingKeeps` | GameServer/include/DungeonRoom.h:509-542 | The same for any batch of the nine kinds of commands |
| `Evolution.CommitTracked` | GameServer/include/DungeonRoom.h:586-592 | Every effect of a decision is marked: no visible change escapes the change sets |
| `Evolution.CommitPersistent` | GameServer/include/DungeonRoom.h:1202-1253 | An effect never changes an owner, a team or a kind, never heals a unit, and raises hit points only of a building under construction |
| `Laws.DecideLawful` | GameServer/include/DungeonRoom.h:575-590 | Whatever a unit decides leaves at most one of attacking, working and walking, a path only with a walk and its index in range, PreparingReturn only with a load, each task with its target, and a load of at most ten; and the effect is one the room can carry out |
| `Laws.ObeyLawful` | GameServer/include/DungeonRoom.h:808-1013 | The same for every order a command can give |
| `Laws.AlertLawful` | GameServer/include/DungeonRoom.h:561-573 | The same for the automatic reactions of a scan tick |
| `Laws.CombatLawful` | GameServer/include/DungeonRoom.h:1202-1253 | A combat decision hits only a living member of another team, never the attacker |
| `Laws.GatherLawful` | GameServer/include/DungeonRoom.h:1255-1321 | What a harvest adds to the load is what it takes from the field, and no more than the field has or the load can take |
| `Laws.ReturnLawful` | GameServer/include/DungeonRoom.h:1351-1414 | A deposit hands over exactly the load |
| `Laws.PickupLawful` | GameServer/include/DungeonRoom.h:1416-1455 | A pickup takes from the drop exactly what the load gains; the unsigned space never wraps in a well-formed unit |
| `Match.RunConserves` | GameServer/include/DungeonRoom.h:235-250 | Over any run that starts below 2^32: fields, drops, loads and ledgers plus what was spent, buried and forfeited stay constant, so no 32-bit ledger wraps |
| `Economy.CommitBalanced` | GameServer/include/DungeonRoom.h:1294-1314 | Every single effect conserves the total |
| `Match.RunLasts` | GameServer/include/DungeonRoom.h:423-502 | Over any run entities keep owner, team and kind, ids are never reused, units never gain hit points and no crystal appears |
| `Kinds.CommitKeepsKinds` | GameServer/include/DungeonRoom.h:1281-1455 | An effect conserves every kind of resource, over fields, drops, loads, ledgers and what left play, if and only if it does not put something on top of a load of another kind |
| `Kinds.CommitKinds` | GameServer/include/DungeonRoom.h:1281-1455 | Otherwise exactly the old load is turned: its kind loses it and the new kind gains it |
| `Kinds.TurnKeepsKinds` | GameServer/include/DungeonRoom.h:547-591 | The same if and only if for a unit's whole turn |
| `Kinds.RunKinds` | GameServer/include/DungeonRoom.h:509-595 | Over any run below 2^32 each kind changes by the loads turned and by nothing else: commands, deposits, sheds, payments, training and deaths keep every kind; if no turn relabels a load, every kind is conserved |
| `Kinds.PureExactly` | GameServer/include/DungeonRoom.h:547-591 | Over any run: every kind is conserved through every turn if and only if no unit ever takes something up on top of a load of another kind |
| `Kinds.HarvestKeepsKinds` | GameServer/include/DungeonRoom.h:1255-1321 | Gathering turns a load if and only if the worker has arrived at a field that is not empty and of another kind, with a load that is neither empty nor full |
| `Kinds.PickupKeepsKinds` | GameServer/include/DungeonRoom.h:1416-1455 | Picking up turns a load if and only if the worker has arrived at a drop of another kind with a load |
| `Kinds.WoodTurnsToGold` | GameServer/include/DungeonRoom.h:1292 | The case where it fails: a worker with five wood, ordered to a gold field, makes them gold in one tick; the room has five wood less and five gold more |
| `Movement.ArrivalCondition` | GameServer/include/DungeonRoom.h:1065-1079 | Straight movement arrives from everywhere exactly when a step is at most twice the arrival radius; 0.3 is exactly twice 0.15 |
| `Movement.StepsArrive` | GameServer/include/DungeonRoom.h:1065-1079 | How many steps arrival takes at most |
| `Movement.LongStepsOscillate` | GameServer/include/DungeonRoom.h:1065-1079 | With longer steps there is a distance from which a unit jumps over its target for ever |
| `Movement.WalkProgress` | GameServer/include/DungeonRoom.h:1090-1130 | A frame of path following ends idle at the last waypoint or shortens the remaining way by the step, up to the two tolerances, visiting waypoints in order |
| `Movement.WalkEnds` | GameServer/include/DungeonRoom.h:1090-1130 | A walk ends at its last waypoint within a number of frames known beforehand |
| `WorkerLiveness.WorkerDelivers` | GameServer/include/DungeonRoom.h:1255-1414 | A worker that is not commanded, not threatened, with a field and standing camps deposits its load into the ledger within a number of ticks computed beforehand |
| `WorkerLiveness.TurnRanks` | GameServer/include/DungeonRoom.h:1255-1414 | Every turn of such a worker delivers or brings it strictly nearer to delivering |
| `WorkerLiveness.GatherRanks` | GameServer/include/DungeonRoom.h:1255-1321 | Walking to the field and working there strictly reduces the turns left |
| `WorkerLiveness.PreparingRanks` | GameServer/include/DungeonRoom.h:1333-1349 | Lifting the load does |
| `WorkerLiveness.ReturnRanks` | GameServer/include/DungeonRoom.h:1351-1414 | So does returning, until the deposit |
| `Bystanders.TickIsTurn` | GameServer/include/DungeonRoom.h:545-595 | Apart from its own turn, all a tick can do to an uncommanded unit that survives is take hit points |
| `Commands.BatchIsolation` | GameServer/include/DungeonRoom.h:509-542 | A batch leaves every unit unchanged whose owner gave no command in it |
| `Commands.BatchLeaves` | GameServer/include/DungeonRoom.h:750-764 | More sharply: every unit that no command both owns and names |
| `Commands.OrdersCommute` | GameServer/include/DungeonRoom.h:808-1013 | Move, Attack, Harvest, Store, Pickup and Construct commands of different owners can be applied in either order |
| `Commands.ListingOrderIrrelevant` | GameServer/include/DungeonRoom.h:750-764 | A group order depends on the multiset of unit ids only |
| `Commands.SelectedCanonical` | GameServer/include/DungeonRoom.h:761-763 | Sorting makes the selection canonical |
| `Formation.MoveSpacing` | GameServer/include/DungeonRoom.h:839-847 | Distinct units named in a Move, even repeatedly, get targets and waypoints at least 2.8 apart |
| `Formation.SlotsApart` | GameServer/include/DungeonRoom.h:766-791 | Distinct formation slots are at least 2.8 apart for every group size and facing |
| `Formation.RowFacts` | GameServer/include/DungeonRoom.h:776-779 | No row is empty, so the unsigned row count never wraps |
| `Formation.RowCentred` | GameServer/include/DungeonRoom.h:781-784 | Each row is symmetric about the middle |
| `Formation.BlockCentred` | GameServer/include/DungeonRoom.h:783-784 | The block is centred front to back |
| `Formation.ColumnsIsRoot` | GameServer/include/DungeonRoom.h:774-775 | The column count c satisfies (c-1)^2 < n <= c^2 |
| `Obedience.CommandObeyed` | GameServer/include/DungeonRoom.h:808-1013 | What each of the seven unit commands makes of a unit its owner names: it drops its old assignment and takes up the new one, target, task and place included, keeps its load unless stopped, and is marked |
| `Obedience.AddresseesExactly` | GameServer/include/DungeonRoom.h:750-764 | A command addresses exactly the named units of the commander, if there is something to do |
| `Obedience.NothingToDo` | GameServer/include/DungeonRoom.h:899-1004 | A command whose field, drop or site is not there does nothing |
| `Obedience.StopLaysDown` | GameServer/include/DungeonRoom.h:861-876 | The load of a stopped worker lies, whole and as what it was, where the worker stands |
| `Obedience.TrainOutcome` | GameServer/include/DungeonRoom.h:1015-1051 | A Train order, case by case, with the reason of each refusal: villagers only in inns and crystals, everything else only in barracks; an accepted one pays exactly 50 food and queues two seconds of training |
| `Formation.PlacesInOrder` | GameServer/include/DungeonRoom.h:776-784 | Places are filled row by row from the front, 2.8 apart in a row and rows at least 3.0 apart |
| `Formation.HeadingMeans` | GameServer/include/DungeonRoom.h:817-837 | The group faces from the mean of its places to the target |
| `Combat.HitsBounded` | GameServer/include/DungeonRoom.h:552-557 | In T seconds a surviving unit lands at most 1 + T hits, whatever it is commanded |
| `Combat.TickHarm` | GameServer/include/DungeonRoom.h:1226-1232 | All damage of a tick is done by hits of other teams, twenty points each; a unit that takes none keeps its hit points and lives |
| `Combat.TurnHarm` | GameServer/include/DungeonRoom.h:1221-1232 | A turn costs another unit hit points only by a hit from another team |
| `Combat.RunLeashed` | GameServer/include/DungeonRoom.h:1186-1216 | At every tick an unprompted attacker is at most 14.0 plus one step from where it engaged, although a Move leaves its flag stale |
| `Strikes.BlowLands` | GameServer/include/DungeonRoom.h:1218-1251 | A living attacker in range (2.0, or 4.0 for a building) of a living target of another team, with its cooldown run out and not strayed: after its turn the target has lost 20 hit points, or all it had, and is marked, the attacker stands still with a cooldown of 1.0, and nothing else has changed |
| `Strikes.AttackerWaits` | GameServer/include/DungeonRoom.h:1226-1232 | Until its cooldown has run out an attacker in range waits and harms nobody |
| `Strikes.AttackerClosesIn` | GameServer/include/DungeonRoom.h:1132-1157 | Out of range it closes in by one stride and harms nobody |
| `Strikes.AttackEnds` | GameServer/include/DungeonRoom.h:1219-1253 | An attack on a target that is gone, dead or of the own team ends, and harms nobody |
| `Strikes.AttackerTurnsBack` | GameServer/include/DungeonRoom.h:1203-1216 | An unprompted attacker more than 14.0 from where it engaged gives up and walks back |
| `Sieges.Siege` | GameServer/include/DungeonRoom.h:1235-1249 | A finished building attacked from within range is gone after as many ticks as its hit points and the attacker's cooldown say, whatever else happens, if the attacker survives and is not commanded |
| `Sieges.CrystalFalls` | GameServer/include/DungeonRoom.h:1235-1249 | For a crystal of 300 hit points and a rested attacker this is 281 ticks |
| `Sight.NearestEnemyIsNearest` | GameServer/include/DungeonRoom.h:1159-1175 | The answer is a living unit of another team strictly within range, no living enemy is nearer and none met earlier is as near; it is 0 if and only if no living enemy is within range |
| `Sight.NearestDropoffIsNearest` | GameServer/include/DungeonRoom.h:1547-1567 | The answer is a finished camp or crystal of the team, none is nearer and none met earlier is as near; it is 0 if and only if there is none |
| `Sight.ScanReaction` | GameServer/include/DungeonRoom.h:559-573 | On a scan a unit that neither fights nor walks attacks the nearest living enemy within 8, a worker one within 3, leaving its work and putting its load down where it stands; otherwise nothing happens |
| `Sight.EveryFifthStep` | GameServer/include/DungeonRoom.h:546 | A step is a scan if and only if it is a fifth one, save for the one in which the 32-bit counter wraps |
| `Sight.ScanBeatBreaks` | GameServer/include/DungeonRoom.h:546 | When the 32-bit counter wraps, two steps in a row are scans |
| `Moments.OnlyTheDeadGo` | GameServer/include/DungeonRoom.h:1528-1545 | A tick ends without exactly the units and buildings that have no hit points left, and leaves the others as they are |
| `Construction.BuilderWorks` | GameServer/include/DungeonRoom.h:1471-1487 | A builder in range adds exactly 25 percent a second; at 100 percent the site is no longer under construction, has full hit points, and the worker is idle and free; before that the hit points are at least in proportion; nothing else changes |
| `Construction.BuilderApproaches` | GameServer/include/DungeonRoom.h:1465-1470 | Out of range it comes nearer by one stride |
| `Construction.BuilderDone` | GameServer/include/DungeonRoom.h:1458-1464 | When the site is finished or gone the worker is idle and free |
| `Construction.SiteIsFinished` | GameServer/include/DungeonRoom.h:1457-1488 | A site is finished, or destroyed, after as many ticks as the worker's way to it and the work left say, whatever else happens, if the worker is left alone |
| `Construction.FourSeconds` | GameServer/include/DungeonRoom.h:1474 | From nothing this is eighty ticks of work |
| `Sites.BuildOutcome` | GameServer/include/DungeonRoom.h:958-984 | A Build order, case by case: without a ledger or for a crystal it is an invalid request, without the wood a lack of resources, and a refusal changes nothing else; otherwise exactly 50, 100 or 150 wood are paid, one site appears under a new id as ordered for the commander and its team, and exactly its named units go to build it |
| `Labour.WorkerHarvests` | GameServer/include/DungeonRoom.h:1289-1320 | A frame at the field takes one for each full second worked, up to ten in the load and what is left; the field has that much less and is gone when empty; a full load, or the last of a field, is lifted next |
| `Labour.YieldIs` | GameServer/include/DungeonRoom.h:1294-1303 | The harvest loop runs as often as full seconds of work, room in the load and the field allow, whichever is least |
| `Labour.WorkerGoesToField` | GameServer/include/DungeonRoom.h:1278-1287 | On the way to the field a worker comes nearer by one stride |
| `Labour.WorkerStopsGathering` | GameServer/include/DungeonRoom.h:1256-1275 | With a full load, or a load and no field, it begins to lift; with neither it is idle and free |
| `Labour.WorkerLifts` | GameServer/include/DungeonRoom.h:1333-1349 | Lifting goes on until its time is up; then the worker returns |
| `Labour.LiftCounts` | GameServer/include/DungeonRoom.h:1323-1342 | A load is lifted for exactly forty-four ticks |
| `Labour.WorkerReturns` | GameServer/include/DungeonRoom.h:1360-1391 | A loaded worker goes to the building it is bound to while that is usable, else to the nearest dropoff |
| `Labour.WorkerPaysIn` | GameServer/include/DungeonRoom.h:1393-1413 | There it pays in the whole load, berries and crops as food, gold as gold, wood as wood, and goes back to its field if that still exists, else is idle and free |
| `Labour.NowhereToPayIn` | GameServer/include/DungeonRoom.h:1376-1381 | With nowhere to pay in it stands idle and keeps its load |
| `Labour.EmptyHanded` | GameServer/include/DungeonRoom.h:1352-1363 | Without a load it goes back to its field, or is idle and free |
| `Labour.WorkerPicksUp` | GameServer/include/DungeonRoom.h:1440-1454 | At a drop a worker takes all of it, or what makes ten, as what it is, and returns; an empty drop is gone |
| `Labour.WorkerGoesToDrop` | GameServer/include/DungeonRoom.h:1430-1438 | On the way to the drop it comes nearer by one stride |
| `Labour.DropIsGone` | GameServer/include/DungeonRoom.h:1417-1427 | If the drop is gone a loaded worker returns and an empty one is idle and free |
| `Labour.WalkerWalks` | GameServer/include/DungeonRoom.h:586-590 | A unit on its way is not distracted and gets on by its stride |
| `Labour.IdleRests` | GameServer/include/DungeonRoom.h:574-591 | A unit with nothing to do and no enemy near does nothing |
| `Match.VictoryStands` | GameServer/include/DungeonRoom.h:628-664 | With two crystal teams at the start, teams with a live crystal only become fewer, a declared winner is the only one left, and no further play turns the verdict in another team's favour |
| `Match.CrystalsFade` | GameServer/include/DungeonRoom.h:965-968 | No play adds a team with a live crystal |
| `Training.TickRecruits` | GameServer/include/DungeonRoom.h:1490-1526 | The units that are new after a tick are exactly one for each building that completes an item in it, of the item's kind, unhurt, for the building's owner and team, in front of it and on its way out |
| `Training.OrdersComeOut` | GameServer/include/DungeonRoom.h:1015-1051 | While a building stands, what was queued plus what was accepted is the kinds of the units on the map that came out of it plus what is queued, in the same order |
| `Training.FortyTicksApart` | GameServer/include/DungeonRoom.h:1490-1526 | While the queue is busy, forty times the units that came out plus the progress on the next grows by one a tick |
| `Training.AcceptedPays` | GameServer/include/DungeonRoom.h:1037-1044 | An accepted order pays one unit cost, without wrapping |
| `Training.TrainSpawns` | GameServer/include/DungeonRoom.h:1497-1522 | A completed item becomes one unit of its kind, for the building's owner and team |
| `Openings.OpeningMap` | GameServer/source/LogicShard.cc:357-407 | The initial map: for each player one crystal of 300 hit points, six unhurt villagers and eight fields of the given kinds and amounts at the places of its team, 200 food, 200 wood and 100 gold, and nothing else |
| `Openings.TeamsCounted` | GameServer/include/DungeonRoom.h:598-622 | The battle begins with as many teams with units, and with crystals, as the players have teams |
| `Lobby.OpeningFacts` | GameServer/source/LogicShard.cc:357-407 | The initial map is well formed, has one finished crystal for each player's team and 4450 resources a player, so four players stay far below 2^32 |
| `Lobby.JoinKeepsTeams` | GameServer/include/DungeonRoom.h:336-341 | A join keeps teams distinct if and only if the player count is nobody's team yet |
| `Lobby.LeaveThenJoinCollides` | GameServer/include/DungeonRoom.h:338 | After a leave it need not be: a concrete join that gives two players the same team |
| `Lobby.JoinsKeepTeams` | GameServer/include/DungeonRoom.h:323-348 | While nobody leaves, teams stay distinct |
| `Lobby.FairStart` | GameServer/include/DungeonRoom.h:598-644 | A match between at least two teams is undecided when it begins |
| `Endings.OneTeamMatch` | GameServer/source/LogicShard.cc:757-894 | Six messages to an empty shard (create, join, leave, join, ready, ready) start a match of two players of one team, which no run of play brings to a verdict |
| `Endings.EndNamesWinner` | GameServer/source/LogicShard.cc:343-348 | When the clock ticks, in any active room: one frame is announced, an end follows if and only if the match began with two teams and at most one is left, by crystals if two teams began with one and else by units, and it names that team, or nobody if none is left |
| `Endings.LeavingEndsMatch` | GameServer/source/LogicShard.cc:670-695 | Whoever leaves an active room ends its match: the room is gone if nobody is left, else the end is announced for a team of those left; who is not in the room leaves none |
| `Endings.StartsWhenAllAreReady` | GameServer/source/LogicShard.cc:857-894 | A match starts if and only if, with this message, everyone is there and ready; before, only the flag changes |
| `Lobby.SameTeamNeverEnds` | GameServer/include/DungeonRoom.h:633-649 | If all players got the same team, no course of play decides the match |
| `ShardLaws.ShardInvariant` | GameServer/source/LogicShard.cc:658-894 | In every reachable state: uid_to_room_ names room r for u exactly if u sits in r, no room is empty, ids are in the residue class and new, active rooms are full, and each room's announcements are one match told in order |
| `ShardLaws.EmptyOk` | GameServer/source/LogicShard.cc:212-217 | A new shard satisfies that invariant |
| `ShardLaws.HandleOk` | GameServer/source/LogicShard.cc:268-279 | Every task, readable or not, keeps that invariant |
| `ShardLaws.TickRoomOk` | GameServer/source/LogicShard.cc:316-348 | So does ticking any room |
| `ShardLaws.VacateOk` | GameServer/source/LogicShard.cc:658-699 | Leaving takes exactly one player out of index and room, erases an empty room and ends an active one |
| `ShardLaws.CreateOk` | GameServer/source/LogicShard.cc:714-755 | A new room id was never in use, and the creator sits in the room |
| `ShardLaws.CreatedRoom` | GameServer/source/LogicShard.cc:728-746 | A new room has two seats unless more are asked for, at most four, has not started, and holds its creator alone |
| `Submissions.CommandQueued` | GameServer/source/LogicShard.cc:936-1167 | A readable command of a seated player is appended once to the room it is about, owned by the sender and otherwise as sent, with a walk ending at its last waypoint; any other changes nothing |
| `Submissions.OthersQueueNothing` | GameServer/source/LogicShard.cc:268-279 | No other message adds a command to any room or takes one away |
| `Submissions.WaitingWasSent` | GameServer/source/LogicShard.cc:936-1167 | Over any run, every command that waits in a room was sent by its owner, or waited from the start |
| `Submissions.OrdersComeFromOwner` | GameServer/source/LogicShard.cc:998 | Over any run of a shard, the commands carried out change a unit only if its own player has sent one that names it |
| `Submissions.RouteRecorded` | GameServer/source/LogicShard.cc:268-279 | A player's task makes its origin the route of replies to that player; a disconnect takes the client's route away |
| `ShardLaws.JoinOk` | GameServer/source/LogicShard.cc:757-803 | Joining leaves any other room first, never enters an active one, and leaves everyone else's seat alone |
| `ShardLaws.ReadyOk` | GameServer/source/LogicShard.cc:857-894 | A match starts once, full, with a baseline snapshot that puts everyone in agreement |
| `ShardLaws.AnnouncementsInOrder` | GameServer/source/LogicShard.cc:635-656 | For every room that ever was: one start, strictly increasing ticks, at most one end and nothing after it |
| `ShardLaws.ListenersAgree` | GameServer/source/LogicShard.cc:333-341 | Whoever played all frames of an active room agrees with it, the room is full, and no ledger has wrapped |
| `ShardLaws.RoomLife` | GameServer/source/LogicShard.cc:672-695 | Erased rooms never return, started rooms stay started, finished ones finished, and an active room keeps its player set |
| `Clusters.RoutingFindsRoom` | GameServer/source/NetworkShard.cc:403-428 | A message that names an existing room reaches the one shard that holds it |
| `Clusters.HappeningKeepsOneSeat` | GameServer/source/LogicShard.cc:714-803 | A player with at most one seat in all shards keeps at most one if and only if the happening does not seat it on one shard while another has a seat for it; only a creation or a join that finds a seat can |
| `Clusters.OneSeatThroughout` | GameServer/source/LogicShard.cc:268-279 | Over any run of a cluster: at most one seat at every moment if and only if there is at most one at the start and no step seats the player while another shard has a seat for it |
| `Clusters.TwoShardsTwoRooms` | GameServer/source/LogicShard.cc:726-746 | The case where it fails: a player creates a room on each of two shards and sits in both |
| `ShardLaws.DisconnectLasts` | GameServer/source/LogicShard.cc:701-712 | After the disconnect notice a shard has no seat, index entry or route for the uid until a task from the uid arrives |
| `Clusters.DisconnectEverywhere` | GameServer/source/NetworkShard.cc:332-351 | Once every shard has processed its notice of the fan-out, no shard knows the uid, as long as nothing from it arrives |
| `Links.RunOk` | GameServer/source/NetworkShard.cc:136-214 | After any interleaving: sessions have distinct (slot, generation) pairs, live sessions hold their slots, an accepting slot is the one the acceptor waits for |
| `Links.NewNetOk` | GameServer/source/NetworkShard.cc:75-81 | The invariant holds at the start |
| `Links.RouteNamesSender` | GameServer/source/NetworkShard.cc:430-438 | The route made for a packet of a session, closed or not, names that session if and only if its slot has not been taken into use again; while the session lives it always does |
| `Links.LatePacketMisrouted` | GameServer/source/GatewayLinkSession.cc:144-163 | The case where it fails: a session closes after its packet was read, its slot is used again, and the answer is handed to the new session |
| `Links.StaleRoute` | GameServer/source/NetworkShard.cc:371-393 | A task built from a route made before the slot was used again reaches that session if it is still open, or nobody, whatever happened in between |
| `Links.SendToExact` | GameServer/source/NetworkShard.cc:376-392 | A task hands each session exactly the envelopes addressed to its slot and generation, if it is open |
| `Links.AcceptRaises` | GameServer/source/NetworkShard.cc:152-159 | Reuse raises the slot's generation above that of every earlier session of the slot |
| `Links.AcceptsIfThereIsRoom` | GameServer/source/NetworkShard.cc:136-162 | The acceptor waits for a link if and only if a slot is free, and otherwise tries again later |
| `Links.StoppedForGood` | GameServer/source/NetworkShard.cc:109-128 | Stopping closes every slot and session, and whatever completes later opens none again |
| `Links.RunOnward` | GameServer/source/NetworkShard.cc:136-214 | Generations never go down and sessions keep their binding |
| `Links.LateCloseIgnored` | GameServer/source/NetworkShard.cc:193-204 | A close of an old generation changes nothing |
| `Links.OneAccepting` | GameServer/source/NetworkShard.cc:152-157 | At most one slot is accepting |
| `Links.CloseSessionOk` | GameServer/source/NetworkShard.cc:193-204 | Closing a session frees its slot and no other |
| `SendQueue.RunOk` | GameServer/source/GatewayLinkSession.cc:100-131 | The queue holds at most 2048 packets and always the newest posted ones; written packets are an ordered subsequence; posted = written + in flight + queued + dropped while open; one writer at most |
| `SendQueue.OneWriter` | GameServer/source/GatewayLinkSession.cc:117-130 | Posting never starts a second writer |
| `SendQueue.QueueIsWritten` | GameServer/source/GatewayLinkSession.cc:117-130 | After any events, if packets wait on an open link a writer is at them, and once its writes complete all that was posted and not dropped is written |
| `SendQueue.DeliveredTail` | GameServer/source/GatewayLinkSession.cc:264-288 | After the last drop everything from the front of the queue on is delivered without a gap |
| `SendQueue.DropGap` | GameServer/source/GatewayLinkSession.cc:105-113 | After a full queue has dropped a packet and nothing more is dropped: delivery from a written packet on has no gap up to the end if and only if that packet was still queued, or not yet posted, at the drop, that is, not yet taken for writing |
| `SendQueue.Resync` | GameServer/source/GatewayLinkSession.cc:105-113 | Once a snapshot of a room that was still queued at the last drop, or posted later, is delivered, the receiver is for that room where it would be had nothing been dropped, whatever else travels on the link |
| `SendQueue.ResyncAgrees` | common/Protocol.h:30-31 | Then it agrees with the room again |
| `LostDrop.InFlightSnapshotMisses` | GameServer/source/GatewayLinkSession.cc:268-276 | The case where it fails, with messages a room sends: a snapshot is delivered after the drop but was taken before it, and the client never hears of a load that was put down |
| `LostDrop.CampWellFormed` | GameServer/include/DungeonRoom.h:423-446 | The room of that case satisfies the invariant that all the other results start from |
| `LostDrop.StopTick` | GameServer/include/DungeonRoom.h:861-876 | The tick behind it: a stopped worker's load lies where the worker stands, and nothing else happens |
| `LostDrop.StopSent` | GameServer/source/LogicShard.cc:434-545 | What that tick sends: the new drop, then the changed worker |
| `Dispatch.SendToPlayers` | GameServer/source/LogicShard.cc:556-602 | The grouping loop builds the specified targets, one a link |
| `Dispatch.GroupedExact` | GameServer/source/LogicShard.cc:580-590 | A link's target lists exactly the recipients on it, in order, with the generation of the last of them |
| `Dispatch.GroupingFaithful` | GameServer/source/LogicShard.cc:586-589 | Every recipient is sent to along its own route if and only if no link has recipients of different generations |
| `Dispatch.MixedGenerations` | GameServer/source/LogicShard.cc:586-589 | Otherwise not: a concrete pair of players on one link, listed under the generation of the later one |
| `Dispatch.SentToSender` | GameServer/source/LogicShard.cc:578-602 | End to end: if the route was made before the slot was used again, a recipient's copy goes to the session it was made for, or to nobody, whatever happened in between |
| `PacketCodec.StreamRoundTrip` | GameServer/source/GatewayLinkSession.cc:174-262 | Decoding any prefix of an encoded list of packets gives exactly the complete ones, and the whole stream gives the list |
| `PacketCodec.EncodeDecode` | GameServer/source/GatewayLinkSession.cc:192-228 | Whatever is read was written by the encoder: nothing else decodes to that packet |
| `PacketCodec.DecodeTruncated` | GameServer/source/GatewayLinkSession.cc:175-184 | A packet with a byte missing is neither read nor refused |
| `PacketCodec.PayloadOfEncoded` | GameServer/source/NetworkShard.cc:58-71 | Extracting the payload of a built packet returns the body |
| `PacketCodec.SendNode.constructor` | GameServer/source/MsgNode.cc:11-37 | The buffer, written field by field at its offsets, is the encoding of the packet |
| `PacketCodec.SendNode.ExtractPayload` | GameServer/source/NetworkShard.cc:58-71 | Reads the body back out of the buffer |
| `PacketCodec.PacketReader.ReadHead` | GameServer/source/GatewayLinkSession.cc:174-229 | Reads a header through the buffer; a wrong magic number, id zero or an oversized body closes the link |
| `PacketCodec.PacketReader.ReadData` | GameServer/source/GatewayLinkSession.cc:231-262 | Reads exactly the body through the buffer |
| `PacketCodec.PacketReader.HandleRead` | GameServer/source/GatewayLinkSession.cc:133-166 | The read loop passes on exactly the packets the stream decodes to, and closes exactly on a bad header or when the stream ends or fails |
| `Broadcasts.SendFullSnapshot` | GameServer/source/LogicShard.cc:409-432 | Describes every entity and ledger, in any walking order |
| `Broadcasts.SendDelta` | GameServer/source/LogicShard.cc:434-545 | The loops over the change sets produce the specified messages in the specified order, leaving out an empty delta |
| `Broadcasts.DescribeChanges` | GameServer/source/LogicShard.cc:511-540 | The changed entities that still exist and were not just spawned |
| `Rooms.DungeonRoom.constructor` | GameServer/include/DungeonRoom.h:296-301 | A new room is empty, not started and has at least one seat |
| `Rooms.DungeonRoom.AddPlayer` | GameServer/include/DungeonRoom.h:323-348 | Seats a newcomer with the player count as team, unless the room is full; a seated player is left as is |
| `Rooms.DungeonRoom.SetReady` | GameServer/include/DungeonRoom.h:350-358 | Sets the flag of a seated player only |
| `Rooms.DungeonRoom.RemovePlayer` | GameServer/include/DungeonRoom.h:360-363 | Removes player and ledger, and reports whether the player was there |
| `Rooms.DungeonRoom.AllReady` | GameServer/include/DungeonRoom.h:369-381 | True exactly if there are players and all are ready |
| `Rooms.DungeonRoom.BeginBattle` | GameServer/include/DungeonRoom.h:598-622 | Counts unit teams and crystal teams and gives every ledger the starting resources |
| `Rooms.DungeonRoom.CheckGameOver` | GameServer/include/DungeonRoom.h:628-664 | Decides as the specified verdict does, for any order of walking the maps |
| `Rooms.DungeonRoom.SpawnUnit` | GameServer/include/DungeonRoom.h:423-446 | Adds one unit under a fresh id and marks it spawned |
| `Rooms.DungeonRoom.SpawnBuilding` | GameServer/include/DungeonRoom.h:448-474 | Adds one building under a fresh id, a site with a little health, and marks it spawned |
| `Rooms.DungeonRoom.SpawnResourceField` | GameServer/include/DungeonRoom.h:476-488 | Adds one field under a fresh id and marks it |
| `Rooms.DungeonRoom.SpawnResourceDrop` | GameServer/include/DungeonRoom.h:490-502 | Adds one drop under a fresh id and marks it |
| `Rooms.DungeonRoom.FindNearestEnemy` | GameServer/include/DungeonRoom.h:1159-1175 | The nearest living enemy strictly within range, the first one met of several, or none |
| `Rooms.DungeonRoom.FindNearestDropoff` | GameServer/include/DungeonRoom.h:1547-1567 | The nearest finished camp or crystal of the team, or none |
| `Rooms.DungeonRoom.StepMove` | GameServer/include/DungeonRoom.h:1090-1130 | The loop over waypoints leaves the unit where the specified walk does |
| `Rooms.DungeonRoom.Gather` | GameServer/include/DungeonRoom.h:1293-1303 | The harvest loop takes what the accumulated work time yields |
| `Rooms.DungeonRoom.WorkField` | GameServer/include/DungeonRoom.h:1289-1320 | A frame of work: load, field and work time together; an empty field disappears; a full load is lifted next |
| `Rooms.DungeonRoom.StepGather` | GameServer/include/DungeonRoom.h:1255-1321 | All branches of gathering leave exactly the specified state |
| `Rooms.DungeonRoom.StepPreparingReturn` | GameServer/include/DungeonRoom.h:1333-1342 | Lifting leaves exactly the specified state |
| `Rooms.DungeonRoom.StepReturn` | GameServer/include/DungeonRoom.h:1351-1414 | All branches of returning and depositing leave exactly the specified state |
| `Rooms.DungeonRoom.StepPickup` | GameServer/include/DungeonRoom.h:1416-1455 | All branches of picking up leave exactly the specified state |
| `Rooms.DungeonRoom.StepConstruct` | GameServer/include/DungeonRoom.h:1457-1488 | All branches of construction leave exactly the specified state |
| `Rooms.DungeonRoom.StepCombat` | GameServer/include/DungeonRoom.h:1202-1253 | All branches of combat leave exactly the specified state |
| `Rooms.DungeonRoom.DropCarried` | GameServer/include/DungeonRoom.h:1178-1183 | A load becomes a drop where the unit stands |
| `Rooms.DungeonRoom.EngageAuto` | GameServer/include/DungeonRoom.h:1186-1192 | Records target and origin of an automatic attack |
| `Rooms.DungeonRoom.ReactToEnemies` | GameServer/include/DungeonRoom.h:561-573 | The scan reaction leaves exactly the specified state |
| `Rooms.DungeonRoom.StepUnit` | GameServer/include/DungeonRoom.h:547-591 | One unit's part of a step is the specified turn |
| `Rooms.DungeonRoom.StepUnits` | GameServer/include/DungeonRoom.h:547-591 | All units take their turns in the order the map yields |
| `Rooms.DungeonRoom.StepBuilding` | GameServer/include/DungeonRoom.h:1490-1525 | One building's queue advances as specified |
| `Rooms.DungeonRoom.StepBuildings` | GameServer/include/DungeonRoom.h:1490-1526 | All queues advance once |
| `Rooms.DungeonRoom.RemoveDeadUnits` | GameServer/include/DungeonRoom.h:1528-1536 | Exactly the dead units go, each marked |
| `Rooms.DungeonRoom.RemoveDestroyedBuildings` | GameServer/include/DungeonRoom.h:1537-1545 | Exactly the destroyed buildings go, each marked |
| `Rooms.DungeonRoom.Step` | GameServer/include/DungeonRoom.h:545-595 | The whole step leaves exactly the specified state |
| `Rooms.DungeonRoom.CollectOwnedUnits` | GameServer/include/DungeonRoom.h:750-764 | The commander's own units among the named ones, in ascending order |
| `Rooms.DungeonRoom.Instruct` | GameServer/include/DungeonRoom.h:839-858 | One unit is given an order, and nothing else changes but what that order marks |
| `Rooms.DungeonRoom.InstructAll` | GameServer/include/DungeonRoom.h:839-859 | The selected units are given the order one after another |
| `Rooms.DungeonRoom.ApplyMove` | GameServer/include/DungeonRoom.h:808-859 | Moves exactly the owner's named units, each to its own place |
| `Rooms.DungeonRoom.GroupHeading` | GameServer/include/DungeonRoom.h:817-837 | The direction from the group's centre to the target |
| `Rooms.DungeonRoom.ApplyStop` | GameServer/include/DungeonRoom.h:861-876 | Stops exactly the owner's named units, dropping their loads |
| `Rooms.DungeonRoom.ApplyAttack` | GameServer/include/DungeonRoom.h:878-897 | Sends exactly the owner's named units, except the victim itself |
| `Rooms.DungeonRoom.ApplyWork` | GameServer/include/DungeonRoom.h:899-956 | Harvest, Store and Pickup assign exactly the owner's named units |
| `Rooms.DungeonRoom.AssignConstructors` | GameServer/include/DungeonRoom.h:996-1013 | Sends the owner's named units to the site |
| `Rooms.DungeonRoom.ApplyBuild` | GameServer/include/DungeonRoom.h:958-984 | Refuses or pays and places a site, with the specified reasons and order of checks |
| `Rooms.DungeonRoom.ApplyTrain` | GameServer/include/DungeonRoom.h:1015-1051 | Refuses or pays and queues, with the specified reasons and order of checks |
| `Rooms.DungeonRoom.ApplyPending` | GameServer/include/DungeonRoom.h:509-542 | The whole queue of commands is applied in order and emptied |
| `Rooms.DungeonRoom.TakeRejected` | GameServer/include/DungeonRoom.h:714-718 | Hands over the refusals and forgets them |
| `Rooms.DungeonRoom.ClearFrameChanges` | GameServer/include/DungeonRoom.h:720-733 | Clears all marks and nothing else |
| `Logic.LogicShard.LeaveRoomInternal` | GameServer/source/LogicShard.cc:658-699 | Leaves index, rooms and announcements as specified for a player who is in a room, or in none |
| `Logic.LogicShard.VacateRoom` | GameServer/source/LogicShard.cc:670-698 | The common tail of leaving: erase an empty room, end an active one, otherwise go on |
| `Logic.LogicShard.HandleCreateRoom` | GameServer/source/LogicShard.cc:714-755 | Leaves any old room, then opens a room under the next id with the creator in it |
| `Logic.LogicShard.HandleJoinRoom` | GameServer/source/LogicShard.cc:757-803 | Leaves another room first, then takes a seat if room and seat exist |
| `Logic.LogicShard.HandleLeaveRoom` | GameServer/source/LogicShard.cc:805-855 | Takes the player out of the named room, or the indexed one |
| `Logic.LogicShard.HandlePlayerReady` | GameServer/source/LogicShard.cc:857-894 | Sets the flag and starts the match exactly when everyone is there and ready |
| `Logic.LogicShard.StartIn` | GameServer/source/LogicShard.cc:884-892 | Start, initial map, starting resources, baseline snapshot, marks cleared, in this order |
| `Logic.LogicShard.HandleClientDisconnected` | GameServer/source/LogicShard.cc:701-712 | Forgets the route and leaves any room |
| `Logic.LogicShard.HandlePlayerCommand` | GameServer/source/LogicShard.cc:936-1167 | Queues a readable command of a seated player, owned by the sender, and nothing else |
| `Logic.LogicShard.TickRooms` | GameServer/source/LogicShard.cc:311-355 | Ticks each active room once, in any order |
| `Logic.LogicShard.TickIfActive` | GameServer/source/LogicShard.cc:316-348 | One active room: commands, step, frame, and perhaps the end |
| `Logic.LogicShard.HandleTask` | GameServer/source/LogicShard.cc:268-279 | Records the route, then dispatches; the shard's invariant holds afterwards |
| `Logic.SpawnInitialUnits` | GameServer/source/LogicShard.cc:357-407 | The nested loops place every player's crystal, six villagers and eight fields |
| `Network.NetworkShard.FindAvailableSlot` | GameServer/source/NetworkShard.cc:206-214 | The first empty or closed slot, if there is one |
| `Network.NetworkShard.DoAccept` | GameServer/source/NetworkShard.cc:136-191 | Takes the first available slot under the next generation, or waits to retry |
| `Network.NetworkShard.AcceptDone` | GameServer/source/NetworkShard.cc:164-190 | The completion handler connects, closes or goes on as specified |
| `Network.NetworkShard.OnSessionClosed` | GameServer/source/NetworkShard.cc:193-204 | Frees the slot only at the same generation |
| `Network.NetworkShard.MakeRoute` | GameServer/source/NetworkShard.cc:430-438 | The slot's current generation, zero for a slot that does not exist |
| `Network.NetworkShard.PickLogicShard` | GameServer/source/NetworkShard.cc:395-401 | Creations go round the shards in turn |
| `Network.NetworkShard.ResolveLogicShard` | GameServer/source/NetworkShard.cc:403-428 | A creation goes to the next shard in turn; anything else to the shard of the named room, of a hint in the payload, or the first |
| `Network.NetworkShard.HandleNetworkTask` | GameServer/source/NetworkShard.cc:371-393 | Hands a copy to each reachable target in order |
| `Network.NetworkShard.Stop` | GameServer/source/NetworkShard.cc:109-112 | Raises the flag; only the first call posts the closing |
| `Network.NetworkShard.CloseAllSlots` | GameServer/source/NetworkShard.cc:114-127 | The posted part closes every slot |
| `Network.NetworkShard.HandleClientDisconnected` | GameServer/source/NetworkShard.cc:332-351 | Posts one notice to each logic shard, from nobody, or none for uid zero |
| `Sessions.GatewayLinkSession.PostSend` | GameServer/source/GatewayLinkSession.cc:100-131 | Drops the oldest packet of a full queue, appends the new one, and starts a writer if none runs |
| `Sessions.GatewayLinkSession.WriteLoop` | GameServer/source/GatewayLinkSession.cc:264-276 | Takes the next packet, or stops |
| `Sessions.GatewayLinkSession.WriteCompleted` | GameServer/source/GatewayLinkSession.cc:273-287 | Goes on after a write, closes after an error |
| `Sessions.GatewayLinkSession.CloseLink` | GameServer/source/GatewayLinkSession.cc:63-98 | Closes once and empties the queue |

## Left out

- Floating point rounding: positions, times and hit points are exact reals, and the column count is the exact rounded up root.
- Trigonometry: yaw, interaction slots and spawn directions are arbitrary values of a parameter; nothing proved depends on them.
- 64-bit counters (entity ids, room ids, ticks, generations) are unbounded; the 32-bit ledgers and the scan counter wrap explicitly.
- Units, buildings, fields and drops are records stored back into the maps of the room object, not references into them, so aliasing between two pointers to one unit is not captured.
- The change marks are one record of sets and sequences instead of twelve members, and the loops that end ApplyMove, ApplyStop, ApplyAttack and the worker commands are one method.
- Rooms.DungeonRoom.ApplyWork: stands for ApplyHarvest, ApplyStore and ApplyPickup together, which differ only in the order given.
- WorkerLiveness.WorkerDelivers: starts with a worker in the gathering cycle that carries something once it is lifting or returning; a returning worker without a load only turns back to its field.
- Links.StaleRoute: sessions are numbered records in a history rather than shared pointers; serialisation failures of an envelope are not modelled.
- SendQueue.Resync: the packets of a link are the messages of its rooms and other traffic, whose content is not modelled.
- Victory by counting units, used when fewer than two teams have a crystal, is modelled but is not monotone, since trained units can bring a team back.
- Replies to requests and room state notices are not recorded in a shard's announcements; game starts, frames and game ends are.
- A message without a room id goes to shard 0 even if the player's room is elsewhere; only messages that name a room are covered.
- Protocol buffer encoding, the field copies of snapshots and the room name: messages are records.
- Sockets, coroutines, timers and threads: each completion handler is one atomic step on its shard.
- Heartbeats, metrics, configuration, logging, start-up, the gate server, and the load test tools.
- Initial map coordinates: positions are parameters; amounts, counts and hit points are the real ones.
