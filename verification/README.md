# Verified model of the StarRaid server's replication pipeline

The server keeps one mutable world. A tick goroutine moves its objects; any number of connections
spawn, steer, stop and despawn them. Each connection samples what its object perceives, works out
the difference from what it last sent, and writes it as enter, update and leave events in
length-prefixed frames. No single function makes the client's picture right. This project models
the whole path, from database rows to the bytes a client reads, and proves what holds end to end.

## How it is built

| module | file | what it is |
|---|---|---|
| `Frame` | Frame.dfy | the frame format as pure functions, and the buffer-filling reader and two-step writer proved against them |
| `Attributes` | Attributes.dfy | the derivation of mass, power, speed, sensors from a fitting |
| `Motion` | Motion.dfy | one object's movement in exact arithmetic, and rounding |
| `Universe` | Universe.dfy | the world as a value, one function per operation |
| `Game` | World.dfy | the world and its objects as mutable classes, whose methods compute those functions |
| `Protocol` | Protocol.dfy | the messages, the client that folds them, the event grammar, the order of messages |
| `Perception`, `SyncEvents` | Perception.dfy, SyncEvents.dfy | the perception diff, and what its events mean to a client |
| `Machine` | Machine.dfy | the server as a state machine: the world, the ticks, and N sessions with a live loop and a reader each, in any interleaving |
| `Invariants`, `Theorems` | Invariants.dfy, Theorems.dfy | the invariant of that machine, kept by every step, and what follows in every reachable state |
| `Introductions` | Introductions.dfy | what a client is told before the stream, traced to the steps that decided it |
| `Readers` | Readers.dfy | when a session's reader runs |
| `Runs` | Runs.dfy | runs of the machine put together |
| `Accounts` | Accounts.dfy | what the hypothesis on account ids buys, exactly |
| `Ahead` | Ahead.dfy | where a session's memory runs ahead of its client |
| `Course` | Course.dfy | movement, and the stream of positions a client is sent, in the running server |
| `Delivery` | Delivery.dfy | from the bytes on a connection to what its client believes |
| `Stats` | Stats.dfy | the session gauge |
| `Steps` | Steps.dfy | the sequences of steps that a sync, a turn of the live loop and a visit consist of |
| `Sessions` | Session.dfy | the session code itself, imperative, every world call and every message a step of the machine |
| `Loader` | Loader.dfy | the three-way join that loads a sector |

`dafny verify dfyconfig.toml` checks everything.

**Atomic steps.** The world's methods hold one mutex, so each is one step. `Machine.Action` lists
the steps; a step is at most one world operation and what its goroutine does locally with the
result. `Get` and `Perceived` of one live tick are separate steps. Message contents, write outcomes,
tick durations, map orders and cancellation are in the action, so they are arbitrary.

**Code and machine.** `Sessions.Host` keeps a ghost log of steps, and its invariant is that a run of
this log from boot leads to a machine state whose world and gauge are the real ones. A method that
calls the world or writes a message appends the matching step, which has to be enabled and to lead
to the state the code is in; its contract says which steps it appended, so a method that skipped a
look, a message or a deferred call would not meet it. Between two steps of its own a session calls
`Meanwhile`, unless the second is `Settle` or `Quit`, which touch nothing shared. There the rest of
the server may do anything except disturb this session: the body of `Others` is empty and its
contract says only that. `OthersLeaveAlone` and `StepKeepsSafe` prove of the machine that no step of
anybody else does more. So what is proved of every run of the machine holds of every run of this
code, and `Sessions.Peer.Conveys` says it in bytes.

**Square roots.** `math.Hypot` is a parameter `h`. Theorems about movement ask that it be a length
(`h(x,y) >= 0` and `h(x,y)^2 == x^2 + y^2`); `Motion.HypotUnique` shows that fixes it.

**History.** Machine sessions and systems have fields the code does not: the ids ever issued, who
spawned each, and what the last two syncs sampled. Nothing else depends on them.

## What is assumed of the environment

* A login is granted an object id that is not above the loaded ones, or that was reached and whose
  object is gone. `World.Load` raises the id counter only past the ids of one sector
  (internal/game/world.go:130), but an account's object is looked up in all of them
  (internal/db/queries.go:68-72). `Accounts.LoginIsSafeIff` proves this necessary and sufficient for
  every 64-bit id: granted any other, the session takes over an object that another one spawned, or
  can spawn before it is looked up, and some run then leaves it without that object.
* The 64-bit id counter does not reach its end. `Theorems.SpawnIdIsNewIff` says when a spawned id is
  new without this. `Sessions.Host.Room` carries it through the code.
* `World.Load` runs once, on an empty world, before connections are accepted
  (cmd/server/main.go:53-79, cmd/server/main.go:126).
* Decoding inverts encoding of a message.

## Where the code and its documentation differ

* internal/game/attributes.go:37-38 and 66-67 say consumers are cut until the draw fits the
  production. With negative ratings nothing makes it fit: `Attributes.NegativeGeneratorOverdraws` is
  an input, and `Attributes.DrawFitsIff` says exactly when it does fit.
* internal/session/session.go:139-140 and 187-188 say `seen` is what the connection was last told
  about. It is advanced before sending. `Ahead.SeenRunsAhead` is a run in which the client was not
  told, and `Theorems.SeenIsHeldIff` says exactly when `seen` is what the client holds: when no
  event of the latest sync is unsent or was the one that failed.
* internal/session/session.go:211-214 says `seen` is made to match the new set. The events do not
  always take a client there: an update carries no type key. `Perception.RenamedIsMissed` is an
  input, `Perception.DiffCorrectIff` says exactly when they do, and `Theorems.EndToEndReplication`
  that in this server they always do.

## Model

| member | source | states |
|---|---|---|
| Theorems.EndToEndReplication | internal/session/session.go:142-182 | in every reachable state of N interleaved sessions and ticks, a client that folded all messages of a session back in its select loop holds exactly the id to position and type key map that `Perceived` returned at that session's latest sync |
| Theorems.SampleOrigin | internal/session/session.go:191-192 | in every phase of a session, a failed one included, what it sampled last is `Perceived` of its own object in the world at the step of its latest sync, and what it sampled before is that of the sync before |
| Theorems.LastSyncIs | internal/session/session.go:191-192 | the latest sync of a session is a sync of it, and none is later |
| Delivery.BytesTellTheTruth | internal/session/session.go:191-209 | the same from bytes: a client that reads, decodes and folds what its connection carries holds exactly what `Perceived` returned when a sync is complete, and at any moment, after a write failed part-way too, of each id what it returned at the latest sync or at the one before |
| Delivery.ReadsBack | internal/wire/frame.go:49-60 | the frames read off a connection are the messages attempted, in order: all of them, or all but the last if that write failed |
| Theorems.ClientHoldsOldOrNew | internal/session/session.go:191-209 | although `seen` is advanced before sending, a client cut off anywhere in a sync holds of each id what `Perceived` returned at the latest sync or at the one before it |
| Theorems.SeenIsHeldIff | internal/session/session.go:139-146 | in every reachable state `seen` is what the client holds if and only if no event of the latest sync is still unsent or was the write that failed |
| Ahead.SeenRunsAhead | internal/session/session.go:193-197 | a run, from boot, in which a newcomer's enter event fails and the client does not hold what `seen` says |
| Ahead.NewcomerIsMissed | internal/session/session.go:193-197 | from any state about to sync in which an unseen object is perceived, such a run continues |
| Ahead.FailedEventIsMissed | internal/session/session.go:193-207 | whichever event of a sync fails to be written, the client is left behind `seen` |
| Theorems.BrokenIsFinal | internal/session/session.go:130-146 | after a failed write a session never sends again, whatever anybody does |
| Theorems.EventGrammar | internal/session/session.go:215-234 | over the whole life of a session the events of each id are a prefix of (Enter Update* Leave)* |
| Theorems.Ownership | internal/session/session.go:116-124 | every object that was not loaded is controlled by the session that spawned it, which has not left, and by no other; and the object of a session that has not left exists |
| Theorems.OnlyOwnerDespawns | internal/session/session.go:119-124 | an object leaves the world only by the deferred call of the session that spawned it |
| Accounts.LoginIsSafeIff | internal/game/world.go:117-134 | for every 64-bit id: a session granted it keeps the object it controls for as long as it lasts, in every continuation, if and only if the id is not above the loaded ones, or was reached by the counter and its object is gone |
| Accounts.TakenIsUnsafe | internal/session/session.go:116-124 | granted an id that another session spawned, whatever that session was doing, some continuation leaves the session holding an object that is gone |
| Accounts.ComingIsUnsafe | internal/session/session.go:116-124 | so it does granted an id the counter has not reached, which others can spawn up to before the object is looked up |
| Runs.SpawnsUpTo | internal/game/world.go:84-93 | new clients can spawn up to any id the 64-bit counter has not reached |
| Accounts.CanLeave | internal/session/session.go:129-185 | a session that has its object can reach its deferred calls from wherever it is, without any other session or the world changing |
| Theorems.ReaderIsConfined | internal/session/session.go:239-259 | a command changes at most the target of the object its session was given, and nothing at all once that object was despawned |
| Theorems.DeadStaysDead | internal/game/world.go:84-101 | an id that was issued and is gone is never issued again, so late commands stay without effect for ever |
| Theorems.SpawnIdIsNewIff | internal/game/world.go:87-87 | a spawned id was never issued before if and only if the 64-bit counter does not wrap, or wraps where 0 was never issued |
| Theorems.TraceSafety | internal/session/session.go:264-313 | every session's messages are a prefix of a refusal, or of VersionResult, LoginResult, SelfAssign, SelfUpdate and then only its own SelfUpdates and events |
| Theorems.WorldAfterLogin | internal/session/session.go:93-101 | no session touches the world before its version was accepted and its login granted |
| Introductions.HandshakeIsTrue | internal/session/session.go:264-313 | in every reachable state the first two messages of a session answer what it read: the version accepted exactly when not below the oldest supported, which is else named; the login granted exactly when the authenticator granted it, with its object id as identity, and else refused with its reason |
| Introductions.IntroductionIsTrue | internal/session/session.go:116-137 | in every reachable state the third message of a session is SelfAssign of the object it controls, with the rounded position this had in the world right after the step that looked it up or spawned it and the type key its id was issued with, and the fourth repeats that position |
| Readers.ReaderRuns | internal/session/session.go:142-153 | in every reachable state a session's reader has started if and only if its first sync is complete, and has ended if and only if a read failed; so in the select loop it has started |
| Readers.ClientIsHeard | internal/session/session.go:148-167 | in the select loop, unless a read failed, the client can be heard at any moment, and its object is there |
| Theorems.Conservation | internal/session/session.go:112-124 | the object count is the loaded ids plus the sessions between SpawnFor and Despawn, the gauge is the sessions between SessionStart and SessionEnd, the former never exceed the latter, and both return to zero when all sessions have closed |
| Theorems.TopIsHighest | internal/game/world.go:130-132 | the bound that accounts are held to is the highest loaded id |
| Theorems.ClientKnowsItself | internal/session/session.go:168-178 | a client's own position is the one its session last looked at, however many unchanged updates were left out |
| Theorems.SelfIsFaithful | internal/session/session.go:168-178 | after a look the client's own position is the rounded true one, within half a unit on each axis, whether or not a message was sent |
| Course.SelfStreamApproaches | internal/session/session.go:160-178 | over any two looks of a session between which nobody directs its object, whatever else the server did and however many unchanged updates were left out, the client's later own position is between the earlier one and the integer target in each coordinate, and is the target once the object has arrived |
| Course.ObjectFollowsTicks | internal/game/world.go:229-256 | over any run in which nobody directs it, an object does exactly what the ticks of the run alone make of it |
| Course.RunsAgree | internal/game/world.go:229-256 | two runs of equal elapsed time, whatever their ticks and the other sessions' steps, leave an undirected object in the same state |
| Course.MoveIsCarriedOut | internal/session/session.go:249-252 | a client in the select loop whose connection still reads can send a Move at any moment; its object has arrived if and only if speed times elapsed time covers the distance, and is then seen at exactly the commanded point, whatever the other sessions do |
| Course.MoveIsObeyed | internal/session/session.go:249-252 | the same for any Move that is read, in whatever state its session is |
| Course.StopIsCarriedOut | internal/session/session.go:253-254 | so can it send a Stop, which holds until someone directs the object again |
| Course.StopIsObeyed | internal/session/session.go:253-254 | the same for any Stop that is read |
| Course.LoadedStaysPut | internal/game/world.go:120-134 | in every reachable state a loaded object that nobody directed is seen at exactly the coordinates of its seed, under the seed's type key |
| Invariants.StepKeeps | internal/session/session.go:111-185 | every enabled step of any session, reader or tick keeps the invariant of the whole server |
| Invariants.RunKeeps | internal/session/session.go:111-185 | and so does every run |
| Invariants.BootOk | cmd/server/main.go:53-79 | the server just booted from any rows satisfies it |
| Invariants.SpawnKeeps | internal/game/world.go:84-93 | spawning keeps it: the new id is unused, and object count and holders grow together |
| Invariants.ReleaseKeeps | internal/session/session.go:119-124 | the deferred despawn keeps it, for every other session too |
| Invariants.SampleKeeps | internal/session/session.go:191-192 | sampling keeps it: the events to be sent will bring the client from the old to the new picture |
| Sessions.Peer.PerceptionDelta | internal/session/session.go:215-234 | for arbitrary lists the loops return the newcomers, the movers and, in any order and once each, the departed ids, and leave `seen` the last-wins map of the perceived list |
| Sessions.Peer.DropDeparted | internal/session/session.go:227-232 | the second loop lists and deletes exactly the ids that are not live, whatever order the map yields them |
| Sessions.Peer.SyncPerception | internal/session/session.go:191-209 | one sample, its events, and when all were written the client holds exactly the set perceived when it began, whatever the rest of the server did while sending, and the reader has been started; the first failed write ends the session |
| Sessions.Peer.SendAll | internal/session/session.go:193-208 | the events go out in order, newcomers, movers, departed, up to the first write error |
| Sessions.Peer.SampleDelta | internal/session/session.go:192-192 | the events to be sent are the newcomers, then the movers, then the departed |
| Sessions.Peer.SendEnters | internal/session/session.go:193-197 | sends exactly the enter events, in order, up to the first write error, that one included |
| Sessions.Peer.SendUpdates | internal/session/session.go:198-202 | sends exactly the update events, in order, up to the first write error, that one included |
| Sessions.Peer.SendLeaves | internal/session/session.go:203-207 | sends exactly the leave events, in order, up to the first write error, that one included |
| Sessions.Peer.SendServer | internal/session/session.go:333-354 | one message is one frame: what is on the connection stays the frames of the messages attempted, cut where a write failed |
| Sessions.Peer.WhereAmI | internal/session/session.go:168-171 | the controlled object is always found, so the exit for a missing one is never taken |
| Sessions.Peer.LookAround | internal/session/session.go:168-178 | one look sends the new position if and only if a rounded coordinate changed, nothing otherwise, and remembers it |
| Sessions.Peer.Introduce | internal/session/session.go:129-137 | SelfAssign, then SelfUpdate, of the object and place found |
| Sessions.Peer.Open | internal/session/session.go:129-153 | introduction and first sync; once that is complete the reader has been started |
| Sessions.Peer.Turn | internal/session/session.go:167-183 | one turn of the live loop takes exactly one look and, unless that failed, one complete sync or one cut at its failed write, with the world free to change between look and sync |
| Sessions.Peer.Live | internal/session/session.go:158-185 | the live loop takes one turn each time the ticker fires and then ends, or ends with the first turn that fails |
| Sessions.Peer.Possess | internal/session/session.go:116-124 | a fresh object is spawned exactly when the identity names none or the named one is not in the world; what it returns is the world's own snapshot of the object at that moment |
| Sessions.Peer.FindAssigned | internal/session/session.go:116-119 | the assigned object is found if and only if the identity names one that is in the world, and the snapshot returned is the world's |
| Sessions.Peer.SpawnNew | internal/session/session.go:119-123 | the spawned object is this session's, at the origin, and the snapshot returned is the world's |
| Sessions.Peer.Depart | internal/session/session.go:112-124 | the deferred calls: the object is given back, then the count |
| Sessions.Peer.GiveBack | internal/session/session.go:119-124 | the object is despawned if and only if it was spawned for this session |
| Sessions.Peer.LiveSession | internal/session/session.go:111-185 | counts the session, finds or spawns its object, introduces it, syncs, loops, gives object and count back: these steps, in this order, whichever way it ends |
| Sessions.Peer.AwaitVersion | internal/session/session.go:264-284 | a Hello of a supported version is accepted and one of an older version refused, each with its answer, anything else gets none; it goes on if and only if it accepted and could say so |
| Sessions.Peer.AwaitGrant | internal/session/session.go:286-312 | a LoginRequest is answered as the authenticator says, with the reason when refused, anything else gets no answer; it goes on, with the identity granted, if and only if it was granted and that could be said |
| Sessions.Peer.Handshake | internal/session/session.go:264-313 | reads the hello given, then if that went on the login given; succeeds if and only if both went on |
| Sessions.Peer.Handle | internal/session/session.go:78-102 | a connection takes exactly the steps of a handshake with the messages given and, if that succeeds, of a live session with the wakes given, and ends closed |
| Sessions.Accept | cmd/server/main.go:134-149 | a connection is accepted under an id no other has, ready for its handshake, with nothing sent |
| Sessions.Visit | cmd/server/main.go:134-149 | a connection from the accept to its end |
| Sessions.StartServer | cmd/server/main.go:53-75 | the server boots: a world loaded with the seeds, nobody connected, the state every run starts from |
| Sessions.Peer.Conveys | internal/session/session.go:191-209 | at every point of the code, the bytes on the connection decode to a safe trace and to a picture that is, of each id, what `Perceived` returned at the latest sync or the one before, and exactly the latest between syncs |
| Sessions.Host.ReadCommands | internal/session/session.go:239-259 | the reader takes exactly one step for each message, in order, and one for the read that fails, and then has ended |
| Sessions.Host.Obey | internal/session/session.go:248-257 | one command: Move with a target steers, Stop halts, anything else is ignored |
| Sessions.OthersLeaveAlone | internal/session/session.go:155-183 | no step of another session, of the ticks or of its own reader changes what a live loop holds or is one of its steps |
| Sessions.StepKeepsSafe | internal/game/world.go:84-101 | an id that is safe to be granted stays so through any step |
| Sessions.OthersLeaveReaderAlone | internal/session/session.go:148-153 | no step, its own live loop's included, changes which object a running reader commands |
| Perception.DiffMeaning | internal/session/session.go:215-234 | for any `seen` and any perceived list, ids repeating, the events take a client that held `seen` to the last-wins map with, for each id, the first type key it was given |
| Perception.DiffCorrectIff | internal/session/session.go:215-234 | so the client's picture is right if and only if the last type key each id came under is the first the client was given |
| Perception.RenamedIsMissed | internal/session/session.go:215-234 | an id seen under one type key and perceived under another is such an input: the client keeps the old key |
| Perception.EventsAt | internal/session/session.go:193-207 | what each message of a sync says and where it stands |
| SyncEvents.SyncGrammar | internal/session/session.go:215-234 | one sync's events keep every id's grammar and take its presence from seen to perceived |
| SyncEvents.SyncEventsFor | internal/session/session.go:215-234 | with distinct ids a sync holds for each id exactly one event if its presence or position changed, and none otherwise |
| SyncEvents.RepeatedSyncIsSilent | internal/session/session.go:215-234 | syncing the same set again emits nothing |
| SyncEvents.CutShort | internal/session/session.go:193-207 | cut after any number of its messages, a sync leaves each id old or new |
| SyncEvents.CutMisses | internal/session/session.go:193-207 | and cut before any of them, it leaves some id not new: no event is idle |
| SyncEvents.LookupByEvents | internal/session/session.go:193-207 | what a client holds of an id depends on the events of that id alone |
| Protocol.StagesAreSafe | internal/session/session.go:71-77 | the stages of the handshake accept exactly the message sequences spelled out in `SafeTrace` |
| Protocol.ClientView | internal/session/session.go:193-207 | a client's neighbours are the fold of its events |
| Game.World.SpawnFor | internal/game/world.go:84-93 | adds one object at the origin under the next id and returns its snapshot |
| Game.World.Despawn | internal/game/world.go:97-101 | removes that object and no other |
| Game.World.Load | internal/game/world.go:120-134 | inserts every seed in order, attributes derived, and raises the counter to the highest id |
| Game.World.Perceived | internal/game/world.go:142-168 | lists each perceived object once, in any order; nothing for an unknown observer |
| Game.World.Scan | internal/game/world.go:150-167 | the scan of the map, in any order, lists exactly the objects in range and not out-jammed |
| Game.World.Get | internal/game/world.go:184-192 | the snapshot of an object, or that there is none |
| Game.World.SetTarget | internal/game/world.go:196-203 | steers that object; no effect without it |
| Game.World.Stop | internal/game/world.go:207-213 | halts that object; no effect without it |
| Game.World.Count | internal/game/world.go:216-220 | the number of objects |
| Game.World.Tick | internal/game/world.go:229-256 | advances every object once, whatever order the map yields them, and not at all for a clock that did not advance |
| Game.World.AdvanceAll | internal/game/world.go:236-253 | each object is advanced exactly once |
| Game.Object.Advance | internal/game/world.go:237-252 | one object's share of a tick |
| Game.Object.Recompute | internal/game/attributes.go:41-93 | the accumulator loops and the cutoff compute `Derive`, and touch the attributes alone |
| Game.Object.SumFitting | internal/game/attributes.go:42-64 | the loops over modules and cargo compute the totals of the fitting |
| Universe.LoadFromEmpty | internal/game/world.go:120-134 | after boot the world holds exactly the loaded ids, each with its last seed, and the counter stands at the highest |
| Universe.LoadedIs | internal/game/world.go:123-133 | a loaded object is seen at exactly its seed's coordinates under its seed's type key, has no target, and carries the seed's base mass, modules and cargo and the attributes derived from them |
| Universe.LastSeedIs | internal/game/world.go:129-129 | of several seeds with one id the last counts |
| Universe.SpawnedIs | internal/game/world.go:84-93 | a spawned object is at the origin without a target, moves at 200 units a second, neither senses nor jams, and changes no other object |
| Universe.UntargetedStays | internal/game/world.go:237-239 | an object without a target stays where it is |
| Universe.OverdrawnStays | internal/game/world.go:240-243 | an object whose thruster and shield draw more than is produced is seen in one place for any time, wherever it was told to go |
| Universe.ArrivalTime | internal/game/world.go:229-252 | told to move, an object has arrived after n nanoseconds if and only if its speed times n is at least the Euclidean distance times 10^9 |
| Universe.TicksAreOneTick | internal/game/world.go:229-256 | any sequence of ticks of a world is one tick of the elapsed time |
| Universe.TickRateIndependent | internal/game/world.go:229-256 | two tick sequences of equal total time leave every object of the world in the same state, arrivals inside a tick included |
| Universe.PerceivedIff | internal/game/world.go:142-180 | an observer is told of exactly the other objects within 10000 units by true distance, save those whose jammer strictly exceeds its scanner, and of each its rounded position and type key |
| Universe.UnjammedIsMutual | internal/game/world.go:170-180 | where nothing jams the gate is pure distance, and perception is mutual |
| Universe.SnapshotsApproach | internal/game/world.go:55-59 | under ticks alone, a rounded position is always between an earlier one and the integer target, and equals it on arrival |
| Universe.MoveArrives | internal/game/world.go:196-256 | an object told to move is on the commanded point if and only if speed times elapsed time reaches the distance, exactly so far along before, and is then seen at exactly the commanded coordinates |
| Universe.StopHolds | internal/game/world.go:205-213 | an object told to stop is seen in one place for any time |
| Universe.LadenNeverAhead | internal/game/attributes.go:85-90 | of two ships on one course the one with extra cargo is never ahead, at any time |
| Motion.HypotUnique | internal/game/world.go:245-245 | the length a tick computes is unique |
| Motion.DistanceLeft | internal/game/world.go:251-252 | part-way along, the distance left is exactly what was not gone |
| Motion.DistanceIs | internal/game/world.go:244-245 | the distance is the Euclidean one from object to target |
| Motion.AlongIs | internal/game/world.go:251-252 | part-way along is on the straight line from start to target, in that proportion |
| Motion.TwoTicks | internal/game/world.go:236-252 | Tick(a) then Tick(b) is Tick(a+b), arrival in either included |
| Motion.RateIndependent | internal/game/world.go:229-256 | only the total time matters |
| Motion.ExactArrival | internal/game/world.go:240-252 | after any ticks an object has arrived if and only if speed times elapsed time reaches the initial distance; it is exactly on its target then, and exactly that far along the segment before |
| Motion.ArrivalTick | internal/game/world.go:240-252 | at a fixed rate it arrives on precisely the tick computed from distance and step |
| Motion.SlowerNeverAhead | internal/game/world.go:240-252 | a slower object on the same course is never ahead |
| Motion.RoundNearest | internal/game/world.go:59-59 | rounding errs by at most a half, halves away from zero |
| Motion.RoundedStream | internal/game/world.go:246-252 | each tick moves each rounded coordinate toward the integer target, never past it, and onto it on arrival |
| Attributes.DeriveIgnoresOrder | internal/game/attributes.go:41-93 | the attributes depend on the multisets of modules and cargo only |
| Attributes.DeriveIgnoresSplit | internal/game/attributes.go:62-64 | splitting a cargo stack changes nothing |
| Attributes.CutoffKeepsLargest | internal/game/attributes.go:66-93 | with non-negative ratings the active consumers are the largest of {thruster, shield}, {shield}, {} whose draw fits, and the final draw is theirs and fits |
| Attributes.DerivedSums | internal/game/attributes.go:42-64 | mass, production, scanner and jammer are the plain sums of the ratings |
| Attributes.DerivedSpeed | internal/game/attributes.go:66-88 | an overdrawn ship has speed 0; one that is not has the speed whose product with the whole mass is the summed thrust |
| Attributes.DerivedPower | internal/game/attributes.go:66-93 | for arbitrary ratings: the thruster is cut exactly when the summed draws exceed the summed output, the shield exactly when its own do too, and what is cut neither draws nor counts |
| Attributes.DrawFitsIff | internal/game/attributes.go:66-93 | for arbitrary ratings the final draw fits the production if and only if one of those sets does |
| Attributes.NegativeGeneratorOverdraws | internal/game/attributes.go:66-93 | a lone generator of negative rating overdraws with everything cut |
| Attributes.LoadSlows | internal/game/attributes.go:85-90 | more cargo makes a powered ship strictly slower and changes nothing but mass and speed |
| Frame.ReadFull | internal/wire/frame.go:30-38 | filling a buffer from chunks of any size consumes exactly its length, or all there is with the right end-of-input error |
| Frame.ReadFrame | internal/wire/frame.go:28-45 | the outcome and the bytes consumed are those of the pure parser, whatever the chunks |
| Frame.WriteFrame | internal/wire/frame.go:49-60 | all of one frame, or a prefix of it and an error; an over-size payload is an error that writes nothing |
| Frame.BigEndianRoundTrip | internal/wire/frame.go:33-33 | the length in a header is read back for every width |
| Frame.HeaderBytes | internal/wire/frame.go:53-54 | a header is the length in four bytes, the most significant first |
| Frame.FrameBytes | internal/wire/frame.go:49-59 | a frame is that header and then the payload |
| Frame.ReadIsBounded | internal/wire/frame.go:33-37 | nothing longer than 1048576 bytes is ever read back as a payload |
| Frame.OverSizeIsRefused | internal/wire/frame.go:33-36 | a header declaring more is refused with the length it declares, whatever follows, having consumed exactly its four bytes |
| Frame.UpToLimitIsRead | internal/wire/frame.go:33-44 | a frame of up to 1048576 bytes is read back, whatever follows |
| Frame.EndOfStream | internal/wire/frame.go:26-43 | a stream cut on a frame boundary ends in io.EOF, inside a frame in io.ErrUnexpectedEOF, and a broken connection in its own error |
| Frame.ParseEncoded | internal/wire/frame.go:28-60 | a frame in front of anything is read back whole and the rest is left |
| Frame.ParsePartial | internal/wire/frame.go:30-43 | a proper prefix of a frame is never a frame: clean end if empty, unexpected end otherwise |
| Frame.TruncatedStream | internal/wire/frame.go:28-60 | a stream of frames cut at any byte reads back as exactly the wholly contained payloads, then a clean end if the cut is on a frame boundary and an unexpected one otherwise |
| Frame.WholeStream | internal/wire/frame.go:28-60 | an uncut stream reads back as all its payloads |
| Frame.StreamInjective | internal/wire/frame.go:49-60 | distinct payload lists have distinct streams |
| Stats.Registry.SessionStart | internal/stats/stats.go:31-31 | one more session |
| Stats.Registry.SessionEnd | internal/stats/stats.go:32-32 | one fewer |
| Loader.LoadSectorObjects | internal/db/queries.go:134-168 | returns the join of the three result sets if all of them can be read, and an error if and only if one cannot |
| Loader.LoadObjects | internal/db/queries.go:144-157 | the object rows, in order, as a slice |
| Loader.IndexObjects | internal/db/queries.go:158-160 | every id points into the backing array the slice ends up with, at its last bearer |
| Loader.LoadModules | internal/db/queries.go:183-196 | each module row is appended, through its pointer, to the element of the slice that is returned, in row order |
| Loader.LoadCargo | internal/db/queries.go:213-222 | each cargo row likewise |
| Loader.Slice.Append | internal/db/queries.go:153-153 | appending may move the slice to another array |
| Loader.JoinAt | internal/db/queries.go:128-133 | what each object carries, modules and cargo independently of each other |
| Loader.JoinOfDistinct | internal/db/queries.go:144-167 | with distinct ids every object carries exactly the items of its rows |
| Loader.JoinConservesRows | internal/db/queries.go:144-167 | every row of a loaded id is carried exactly once over all objects, and rows of other ids by none, whatever the ids |
| Loader.RowIsPlaced | internal/db/queries.go:183-196 | each row's item has its own place among its object's, in row order |
| Loader.ItemHasRow | internal/db/queries.go:183-196 | and every item has a row |
| Loader.LoadIgnoresRowOrder | internal/db/queries.go:173-178 | whatever order the module and cargo rows come in, the loaded world has the same objects with the same derived attributes |

## Left out

- Protobuf marshalling and the generated types: a message is an abstract value with an encoding that decoding inverts (internal/wire/codec.go, internal/session/session.go:333-374).
- PostgreSQL, SQL text, JSON decoding of module parameters, migrations: queries answer with given rows, any of which may fail to scan.
- Authentication: an oracle that grants an object id, refuses, or is unavailable.
- Real time: deadlines, tickers, cancellation and read errors are steps that may happen at any moment; the live loop of `Sessions.Peer.Live` is given its wakes as a finite list.
- float64 rounding, int64 overflow of masses and the limits of float-to-int conversion: reals and unbounded integers.
- The mutex: each world method is one atomic step, and races on a map outside it are not modelled.
- A nil `Metrics`: the gauge is always there.
- Logging, configuration, the catalog, HTTP telemetry and `main`, but for the order of boot.
- Copying loaded objects into seeds (cmd/server/main.go:63-73): the loader's objects and the world's seeds are one type.
- Sessions.Host.Others: its contract includes that the id counter does not reach its end, which is an assumption, not a consequence.
- Sessions.Visit: one connection at a time runs as code; all the others are the arbitrary steps between its own.
- Sessions.Peer.Handle: the messages read in the handshake are parameters, and the reader goroutine is the separate method `Sessions.Host.ReadCommands`; `seen`, the object id and whether it was spawned are fields, not locals.
