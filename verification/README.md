# U-Bus: a verified model

U-Bus is a message bus: a master process keeps a directory of participants, of the topics they
publish and of the methods they provide; participants then talk to each other directly. This project
models the protocol code of the master and of the runtime in Dafny and proves what it keeps, what it
delivers, and where it breaks.

## Layout

Master, one fact stored several times, three threads:

- `Directory.dfy`: the service without bookkeeping. `Registry.dfy`: the shared state as a value, one
  function per locked region. `MasterServer.dfy`: the same regions in the source's own form, as methods
  of a class over shared participant objects and a poll array, each proved equal to its function.
- `Machine.dfy`: the accept loop, the watchdog and the control loop as one step machine. A locked region
  is one step; the phase of the control loop says which steps can fall in between. A missing key, a null
  participant and an uncaught JSON exception are explicit ways for a step to halt.
- `Consistency.dfy`, `Refinement.dfy`, `Ownership.dfy`: the copies agree; every run refines the
  directory, replies included; the first owner wins.
- `DeadQueue.dfy`, `Slots.dfy`, `Watchdog.dfy`, `Timely.dfy`, `Shortfalls.dfy`: the queues, the poll
  table and the counters over runs, and three runs in which they fail. `Serving.dfy`: whoever joins gets
  a slot, what poll reports is read, and what the other frames are answered.
- `Locks.dfy`: the five mutexes, their order, and what is touched under which.

Wire: `SocketIO.dfy` (readn and writen under interrupts and partial transfers), `Framing.dfy`,
`Payload.dfy` (strncpy), `Messages.dfy` (integers as decimal text).

Runtime, end to end: `Runtime.dfy` and `Calls.dfy` are the object and what it reacts with.
`EventSystem.dfy` is the step machine of publishers, subscribers, master and byte streams, with the
event thread and poll table of every runtime; `EventInvariant.dfy` has what each step keeps,
`EventMembership.dfy` what the answers of the master mean for publications, `Delivery.dfy` what
subscribers receive over whole runs, `EventThread.dfy` and `EventProgress.dfy` what poll sees and how the
next event is reached, `EventArrival.dfy` that a new subscription gets there too, `EventRequests.dfy` that
no requester is stuck. `EventRuns.dfy`, `Resubscription.dfy` and `Strays.dfy` are concrete runs. `Rpc.dfy`
is the step machine of providers, callers and master. The master takes part in these two as the directory
it refines; `Composition.dfy` shows that its steps are theirs. `PollTable.dfy` is the table that master
and runtime hand to poll.

## What the code does not do

Properties that fail for the code as it is, each with a run or the exact condition:

- A second watchdog tick before the dead queue is drained queues a silent participant twice, and the
  `.at` in the drain then throws out of the thread and ends the process (`Shortfalls.SlowDrainEndsTheMaster`,
  `DeadQueue.TickKeepsDeadQueueExact`). One turn of the control loop can take longer than a tick.
- A participant removed while it still waits for its poll slot makes the new drain throw, or leaves a
  waiting name behind (`Shortfalls.LateSlotEndsTheMaster`, `Slots.BuryKeepsSlotsExact`, `Slots.DrainNewExact`).
- The master gives `poll` the number of participants as its window, but slots are filled lowest first and
  freed anywhere. A live participant in a slot outside the window is never read again and is removed at its
  third silent tick (`Shortfalls.CoverageCanFail`, `Slots.CoverageExact`, `Slots.RemovalKeepsCoverageExact`,
  `Watchdog.UncoveredParticipantIsQueued`).
- A runtime gives `poll` the number of its topics. Subscribing again to a topic while the older connection
  still has its slot puts the new one outside the window, and no event of it is ever read
  (`Resubscription.ResubscriptionGoesDeaf`, `EventThread.CoverageExact`, `EventThread.FreshHasRoom`,
  `EventProgress.PollReachesExact`, `EventProgress.OutsideStaysUnread`). Doing so before the event thread has
  looked gives one connection two slots, and the thread then waits at the second one for bytes that nobody
  has sent (`Resubscription.SecondSlotBlocks`, `EventProgress.VisitBlocksExact`).
- A short body is only logged, so a publisher that dies in the middle of an event makes the callback run once
  on bytes that are no event (`Delivery.StraysExact`, `Strays.CallbackSeesStray`, `Framing.ReceiveAll`).
- A register, subscribe, provide or query frame whose body is not JSON, or does not name its topic or method
  by a string, ends the master, and so does a new registration whose type ids are not numbers; in a run that
  keeps up nothing else does (`Timely.KeepingUpNeverHalts`, `Registry.Throws`).
- A body of 2^32 bytes or more does not survive the header, and a string with a byte after a NUL does
  not survive `strncpy` (`Framing.FrameRoundTripExact`, `Payload.PayloadRoundTripExact`).

## Model

| member | source | states |
|---|---|---|
| Refinement.RunRefines | src/ubus_master.cpp:60-364 | main: after every run from the start, the directory obtained by asking it the requests of the run in order is the abstraction of the master's state |
| Refinement.StepRefines | src/ubus_master.cpp:60-364 | every step that does not halt takes the abstraction to the one the directory moves to for the request behind the step, and sends exactly the directory's answers to the socket the request came from |
| Refinement.HandleRefines | src/ubus_master.cpp:152-364 | each control frame, whatever its type, moves the abstraction and answers as the directory does |
| Refinement.AdmitRefines | src/ubus_master.cpp:408-437 | a join is OK, DUPLICATE, VERSION_MISMATCH or INVALID as the directory says, and changes it only on OK |
| Refinement.BuryRefines | src/ubus_master.cpp:62-94 | one dead-drain iteration is the departure of that participant with everything it owns, and nothing else |
| Refinement.LocatedIsLiveOwner | src/ubus_master.cpp:216-223 | in every run, an OK to a subscribe or query carries the listening address of a participant that is present and holds the item in its own list |
| Refinement.NthReplyAnswersNthRequest | src/ubus_master.cpp:152-364 | main: on every control socket, after every run, there are as many replies as requests and the nth reply is the directory's answer to the nth request when it was read; keep-alives get none |
| Consistency.RunSound | src/ubus_master.cpp:53-370 | in every reachable state name map, descriptor map, both indexes and the lists of each participant agree, and every descriptor in use was accepted once |
| Consistency.StepSound | src/ubus_master.cpp:53-370 | every step of the three threads keeps that agreement |
| Consistency.IndexIsDisjointUnion | src/ubus_master.cpp:171-180 | main: the topic index is exactly the union of the topic lists of present participants with the same types, no topic in two lists; the same for methods |
| Consistency.BuryConsistent | src/ubus_master.cpp:72-92 | removing a participant erases its entries in every index, so no entry names an absent participant |
| Consistency.HandleConsistent | src/ubus_master.cpp:152-364 | every frame handler keeps the copies in agreement |
| Composition.StepIsMasterStep | src/ubus_master.cpp:60-364 | main: every step of the master is a step of the event system and of the call system, from any state of theirs with the same directory |
| Composition.StepIsAnswer | src/ubus_master.cpp:182-200 | when the step serves the request a runtime waits with, present or removed, its replies are what the runtime finds in its inbox |
| Composition.StepIsEntry | src/ubus_master.cpp:408-437 | a join is the entry of the runtime that asks for it, which is present afterwards exactly if it is told OK |
| Composition.GoneChangesNothing | src/ubus_master.cpp:161-181 | a frame from a descriptor whose participant has been removed registers nothing |
| Composition.RunIsMasterSteps | src/ubus_master.cpp:60-364 | each step of a run of the master, from a sound state, is a step of the event system between the two directories |
| Ownership.FirstOwnerWins | src/ubus_master.cpp:171-180 | main: from the moment a topic or method has an owner until that owner is removed, over arbitrary steps, its entry is unchanged and every further registration is told DUPLICATE and changes nothing |
| Ownership.AcceptedClaimOwns | src/ubus_master.cpp:260-271 | a claim is told OK exactly if the item is free, and then the sender owns it under the type ids of its frame |
| Ownership.RemovedOwnerIsForgotten | src/ubus_master.cpp:74-83 | main: after the removal of its owner, every lookup of the item is told NOT_PUBLISHED until the next registration, across arbitrary steps |
| Ownership.AcceptedAtMostOnce | src/ubus_master.cpp:171-180 | main: on one control socket a topic or method is answered OK at most once, in any run |
| Ownership.LookupAnswer | src/ubus_master.cpp:307-314 | a lookup is told NOT_PUBLISHED exactly if nobody owns the item |
| DeadQueue.DrainDeadExact | src/ubus_master.cpp:60-95 | main: the drain throws exactly if the queue holds a name twice or an absent one; otherwise it empties the queue and removes the queued participants, their descriptors, topics and methods, and nothing else |
| DeadQueue.BurySoundness | src/ubus_master.cpp:64-71 | one iteration throws exactly if the front is absent, and otherwise leaves a sound queue exactly if it was sound |
| DeadQueue.OverdueExact | src/ubus_master.cpp:467-472 | a tick queues exactly the participants whose counter reaches three, each once, in any iteration order |
| DeadQueue.TickKeepsDeadQueueExact | src/ubus_master.cpp:462-476 | a tick keeps the queue free of duplicates exactly if nobody already queued is still overdue |
| DeadQueue.SecondTickBeforeDrainIsFatal | src/ubus_master.cpp:462-476 | a participant overdue at two ticks with no drain in between makes the next drain throw |
| DeadQueue.DrainedRunSound | src/ubus_master.cpp:60-95 | main: in every run in which the queue is empty at each tick, it never holds a duplicate or absent name |
| DeadQueue.DrainedRunNeverThrows | src/ubus_master.cpp:66 | in such a run the unchecked lookup of the dead drain never throws |
| Slots.RunKeepsSlots | src/ubus_master.cpp:65-109 | main: in every run in which nobody is removed while waiting for a slot, occupied slots hold distinct descriptors of present participants |
| Slots.BuryKeepsSlotsExact | src/ubus_master.cpp:62-94 | a removal keeps slots and queue consistent exactly if the removed participant is not still waiting for its slot |
| Slots.LookupsSucceedExact | src/ubus_master.cpp:159-177 | with consistent slots the unchecked lookups of the new drain and of the handlers never fail; only what the JSON library throws at ends the process |
| Slots.DrainNewExact | src/ubus_master.cpp:97-112 | main: the new drain throws exactly if a name that still finds a free slot is absent; otherwise exactly the descriptors of those names enter the table, and names that find it full are dropped |
| Slots.SlotsStayBelowPeak | src/ubus_master.cpp:102-109 | main: in every run every occupied index is below the largest number of slots ever occupied at once |
| Slots.StepFillsLowest | src/ubus_master.cpp:102-109 | a slot that becomes occupied is the lowest free one |
| Slots.WindowCoversAtPeak | src/ubus_master.cpp:116 | poll sees every occupied slot whenever the participant count is at least that peak |
| Slots.RemovalKeepsCoverageExact | src/ubus_master.cpp:65-116 | in every state in which poll sees all occupied slots, a removal keeps that exactly if the last slot of the window is free or is that of the removed participant, waiting participants and slots freed by closed peers included |
| Slots.CoverageExact | src/ubus_master.cpp:60-132 | main: in every run with consistent slots poll sees all occupied slots in all states exactly if each removal meets that condition |
| Slots.PlaceKeepsCoverage | src/ubus_master.cpp:99-116 | whoever waits for a slot gets one that poll sees, if all others have one |
| Shortfalls.CoverageCanFail | src/ubus_master.cpp:116 | a concrete run, in time by the measure of KeepsUp, after which the only live participant sits in a slot poll does not look at |
| Shortfalls.LateSlotEndsTheMaster | src/ubus_master.cpp:104 | a concrete run of one join and three ticks after which the new drain throws |
| Shortfalls.SlowDrainEndsTheMaster | src/ubus_master.cpp:66 | a concrete run of one join and four ticks after which the dead drain throws |
| Watchdog.CounterCountsSilence | src/ubus_master.cpp:156-160 | main: in every run the counter of a present participant is the number of ticks since it joined or its last processed keep-alive, modulo 256 |
| Watchdog.TickQueuesExact | src/ubus_master.cpp:467-472 | main: a tick queues a participant exactly if it is the third or later in silence, modulo 256 |
| Watchdog.PromptParticipantStays | src/ubus_master.cpp:156-160 | main: a participant that never lets a third tick in a row pass in silence is never queued and never removed, in any run |
| Watchdog.JoinStartsAtZero | src/ubus_master.cpp:416-424 | a join that is told OK makes the participant present on that socket, with a counter of zero, the address of the peer and the listening address of its frame |
| Watchdog.UncoveredParticipantIsQueued | src/ubus_master.cpp:116-124 | main: a participant in a slot outside the poll window, not already readable, is queued at the third tick since its last processed keep-alive, whatever it sends |
| Timely.KeepingUpNeverHalts | src/ubus_master.cpp:60-112 | main: if the dead queue is empty at each tick and at most two ticks fall between a new drain and the next dead drain, then queues and slots are in order in every state and a step halts exactly on a body the JSON library throws at |
| Timely.KeepingUpIsHealthy | src/ubus_master.cpp:60-112 | in such a run everybody waiting for a slot is too young to be queued for removal |
| Serving.PollExact | src/ubus_master.cpp:113-125 | main: poll marks exactly the occupied slots below 1024 and below the participant count that are ready, the other slots keep their bits, and a pass over the table follows exactly if it has marked one |
| Serving.VisitExact | src/ubus_master.cpp:123-151 | main: a turn of the pass reads exactly if its slot is marked, frees that slot exactly if the peer has closed, touches no other, and goes on to the next slot or to sleep |
| Serving.MarkedIsRead | src/ubus_master.cpp:123-151 | main: whatever joins and ticks fall in between, a slot that is marked when a pass begins is read in that pass, exactly once, on the descriptor it then holds |
| Serving.PresentIsPlaced | src/ubus_master.cpp:97-112 | main: in every reachable state every present participant waits in the queue or has its descriptor in the table, unless its peer has closed or its turn came at a full table |
| Serving.JoinedHasSlot | src/ubus_master.cpp:422-429 | main: from the OK to its join on, at the end of every new drain the participant has a slot, with the same exceptions, whoever else is waiting |
| Serving.ControlNeverStuck | src/ubus_master.cpp:59-151 | main: in every reachable state the control loop has a next step; poll may report anything, and a marked slot may hold any frame |
| Serving.VersionExact | src/ubus_master.cpp:408-437 | a join with version "1.1" is told OK or DUPLICATE, any other version VERSION_MISMATCH, a body that lacks a member INVALID, and a frame that is no join nothing |
| Serving.OddFramesExact | src/ubus_master.cpp:152-364 | a lacking body is told INVALID, an unknown type is passed over, a keep-alive gets no answer, and a body the parser rejects ends the process |
| Serving.ListingsExact | src/ubus_master.cpp:478-546 | main: a debug listing holds exactly the topics, participants or methods there are, each with its type ids and its owner or its addresses |
| Locks.DeadlockFree | src/ubus_master.cpp:61-115 | main: in every reachable lock state in which a thread is blocked, some other thread can run |
| Locks.RunIsOrdered | src/ubus_master.cpp:61-115 | in every reachable lock state each thread waits only for a lock ranking above all it holds, holds at most one of each rank, and exclusive holders are alone |
| Locks.WaiterLeadsToRunner | include/shared_lock_guard.hpp:11-27 | with shared and exclusive modes and readers queueing behind writers, following who is in the way leads to a thread that can run |
| Locks.NoDataRace | src/ubus_master.cpp:60-539 | main: in every reachable lock state, what one thread changes in the region it is in no other thread touches in the region it is in |
| Locks.RegionReached | src/ubus_master.cpp:60-539 | every one of the seventeen locked regions can be entered |
| Locks.RegionsKeepOut | src/ubus_master.cpp:61-115 | during a pass of the watchdog the control thread is not in its dead drain, and during a join neither in its new drain nor at the participants |
| MasterServer.UBusMaster.DrainDeadParticipants | src/ubus_master.cpp:60-95 | the loop over shared objects ends as the complete drain of the value does, with pointers still matching |
| MasterServer.UBusMaster.BuryOne | src/ubus_master.cpp:62-94 | one iteration in place: slot freed, topics and methods erased, both maps updated, or the exception |
| MasterServer.UBusMaster.PlaceNewParticipants | src/ubus_master.cpp:97-112 | the loop in place ends as the complete new drain of the value does |
| MasterServer.UBusMaster.PlaceOne | src/ubus_master.cpp:99-111 | one iteration in place: first free slot filled, or the name dropped, or the exception |
| MasterServer.UBusMaster.VisitSlot | src/ubus_master.cpp:123-151 | one turn of the poll-table loop in place |
| MasterServer.UBusMaster.HandleFrame | src/ubus_master.cpp:152-364 | the frame handlers on shared objects do to the whole structure what the registry functions do to its value |
| MasterServer.UBusMaster.AcceptConnection | src/ubus_master.cpp:408-437 | the join region in place, with a new participant object shared by both maps |
| MasterServer.UBusMaster.WatchdogTick | src/ubus_master.cpp:462-473 | the pass in place, in some order that visits everybody once: all counters bumped, the overdue pushed |
| MasterServer.UBusMaster.HandleRegister | src/ubus_master.cpp:161-181 | registration through the object the descriptor map points to updates index and list together |
| MasterServer.UBusMaster.HandleProvide | src/ubus_master.cpp:251-272 | the same for a method |
| MasterServer.UBusMaster.HandleKeepAlive | src/ubus_master.cpp:156-160 | the counter of the sender is zero afterwards; a missing entry ends the process |
| MasterServer.UBusMaster.HandleSubscribe | src/ubus_master.cpp:202-224 | the address comes from the object the index points to |
| MasterServer.UBusMaster.HandleQuery | src/ubus_master.cpp:292-315 | the same for a method |
| MasterServer.UBusMaster.HandleDebug | src/ubus_master.cpp:478-546 | the listing is the set of current entries |
| MasterServer.OverdueAppend | src/ubus_master.cpp:467-472 | visiting one more participant adds its name to the queue exactly if it is overdue |
| PollTable.FirstSlot | src/ubus_master.cpp:65-70 | the first slot with the descriptor, or the table size if there is none |
| PollTable.InstalledNext | src/ubus_runtime.cpp:338-345 | on a table filled from the front a new descriptor gets the next slot |
| Registry.Handle | src/ubus_master.cpp:152-364 | no frame changes who is present, the descriptor map, the queues or the poll table |
| SocketIO.Descriptor.ReadN | include/helpers.hpp:15-36 | main: returns the next min(n, bytes before end of file) bytes in order, or -1 exactly if a hard error comes first; terminates under any finite pattern of interrupts and short reads |
| SocketIO.Descriptor.WriteN | include/helpers.hpp:39-58 | main: appends exactly the buffer, or returns -1 exactly if a hard error or a zero write comes first, having appended a proper prefix |
| SocketIO.Splice | include/helpers.hpp:23-35 | bytes read later land after those read before |
| Framing.Transmit | include/helpers.hpp:15-58 | main: any list of frames sent with writen and read with readn, under any finite pattern of interrupts, short reads and short writes, arrives as the same list |
| Framing.StreamRoundTrip | include/frame.hpp:23-31 | a stream of encoded frames followed by anything decodes to those frames and then whatever that decodes to |
| Framing.FrameRoundTripExact | src/ubus_runtime.cpp:179-191 | a frame decodes to itself, leaving what follows, exactly if its length is below 2^32 |
| Framing.LengthRoundTrip | src/ubus_runtime.cpp:219 | the big-endian length field holds the length modulo 2^32 |
| Framing.LengthIsBigEndian | include/frame.hpp:23-26 | main: the first byte of the length counts 2^24s and the last one counts ones |
| Framing.FrameBytes | include/ubus_runtime.hpp:222-234 | byte for byte, a frame is its type, three bytes of padding, the big-endian length and the body |
| Framing.EncodeAllAppend | include/ubus_runtime.hpp:228-237 | sending one more frame appends its encoding |
| Framing.SendFrame | src/ubus_runtime.cpp:223-229 | header then body: the whole frame is appended, or on -1 a proper prefix of it; nothing fails without a hard error |
| Framing.ReceiveFrame | src/ubus_runtime.cpp:174-187 | a frame exactly if a whole header is there: the first frame of the stream if its body is whole too, and otherwise one that starts with the bytes that are there and goes on with what the buffer held |
| Framing.ReceiveAll | src/ubus_runtime.cpp:174-187 | the frames the stream decodes to, and one more that was never sent exactly if at least a header is left over |
| Framing.CutShortIsIncomplete | include/ubus_runtime.hpp:231-237 | a proper prefix of a frame is not a frame, and has its type if it has a byte |
| Payload.PayloadRoundTripExact | include/ubus_runtime.hpp:222-227 | main: strncpy, framing and decoding give the string back exactly if no other byte follows a NUL and the length fits |
| Payload.CopiedShape | include/ubus_runtime.hpp:222-227 | otherwise the receiver gets the part before the first NUL padded with NULs to the same length |
| Payload.CopiedExact | include/ubus_runtime.hpp:222-227 | the copy equals the string exactly if no other byte follows a NUL |
| Payload.ZeroEnds | include/ubus_runtime.hpp:222-227 | the copy ends at the first zero byte and goes on with zeros |
| Messages.IntegerCrossesTheWire | include/message.hpp:40-50 | main: for every 64-bit value, the minimum included, print, copy, frame, decode and parse give the value back |
| Messages.DecimalRoundTrip | include/message.hpp:45-46 | parsing the decimal text of any integer gives it back |
| Messages.DecimalTextIsPlain | include/message.hpp:45 | the text has at most twenty characters and no NUL |
| Messages.PrintedText | include/message.hpp:45 | main: an integer is printed as its decimal digits, none of them a leading zero, after a minus sign (45) exactly if it is negative |
| Messages.ReadText | include/message.hpp:46 | main: digits are read as their decimal value up to the first other byte; 45 in front negates, 43 does nothing, and white space before is skipped |
| Messages.Copy32 | include/message.hpp:28-38 | serialize on one Int32Msg, the wire, deserialize on another: the same data |
| Messages.Copy64 | include/message.hpp:40-50 | the same for Int64Msg |
| Messages.CopyString | include/message.hpp:76-86 | for StringMsg the data arrives as copied, and unchanged exactly if no other byte follows a NUL |
| Runtime.UBusRuntime.PublishEvent | include/ubus_runtime.hpp:206-247 | main: true exactly if the topic is advertised with that type, and otherwise nothing changes; then a subscriber stays exactly if its write did not end with EPIPE, every fully written stream has grown by exactly one copy of the same frame, and no other stream has changed |
| Runtime.FanOutExact | include/ubus_runtime.hpp:228-245 | the same facts of the fan-out of one frame over given streams |
| Runtime.UBusRuntime.SendToAll | include/ubus_runtime.hpp:228-242 | the send loop, in any order of the map, is one fan-out, and collects exactly the subscribers found closed |
| Runtime.UBusRuntime.Erase | include/ubus_runtime.hpp:243-245 | the erase loop removes exactly the collected names |
| Runtime.UBusRuntime.HandleSubscribe | src/ubus_runtime.cpp:193-223 | main: OK exactly for a complete body, an advertised topic, its type and a name that is not a client, which is then added and nothing else changes; DUPLICATE exactly if the name is one; INVALID for everything else |
| Runtime.UBusRuntime.HandleCall | src/ubus_runtime.cpp:248-298 | the output of the callback exactly if a method of that name has both types, no reply exactly if handling the body throws, a refusal otherwise |
| Runtime.UBusRuntime.Dispatch | src/ubus_runtime.cpp:380-390 | finds a subscription with the socket of the event if there is one |
| Calls.TypedReplyExact | src/ubus_runtime.cpp:248-298 | the caller of a method provided with a typed callback gets an outcome exactly if both type ids agree, and then what the callback gives for the request, both carried through their text; with types that can be read back, the callback's own response |
| Delivery.DeliveredInOrder | include/ubus_runtime.hpp:206-247 | main: in every run of publishers, subscribers and master over byte streams with only EPIPE failures, what a subscription's callback was given is a prefix, in order and without duplicates, of what was published on the topic since its acceptance, all of it of the type subscribed to |
| Delivery.ValuesInOrder | include/ubus_runtime.hpp:73-85 | with message types: if the published values are serialized to text in which no other byte follows a NUL and that can be read back, the nth call of the callback is for the nth value published since the acceptance |
| Delivery.NothingLost | src/ubus_runtime.cpp:353-392 | main: while a subscription is current and both processes run, every event published since its acceptance has been delivered or is waiting in the stream, in order, with no bytes left over |
| Delivery.UnacceptedGetsNothing | src/ubus_runtime.cpp:193-216 | a connection that has not been accepted has received no bytes and delivered nothing, in every run |
| Delivery.StraysExact | src/ubus_runtime.cpp:364-390 | main: a callback is given bytes that are no published event exactly when the event thread reads on after all the events of a publisher that died in the middle of the next frame; at most once, with the announced length and the bytes that were written, if the header was |
| Delivery.StraysComeFromDeath | src/ubus_runtime.cpp:366-376 | no other run leaves a frame cut short in a stream or makes a callback see one |
| Delivery.UnservedGetsNothing | include/ubus_runtime.hpp:228-245 | a connection that the publisher has judged and does not keep as a client is sent nothing and never becomes one, in every run |
| EventMembership.AdvertisedTopicIsNew | include/ubus_runtime.hpp:183-188 | main: in every run, when a runtime reads that its advertisement is accepted it has not advertised the topic before, so an entry for a topic is written once |
| EventMembership.AdvertisedAtMostOnce | include/ubus_runtime.hpp:183-188 | a running runtime reads an accepted advertisement of a topic at most once |
| EventMembership.AcceptedStaysServed | include/ubus_runtime.hpp:228-245 | main: in every run a publisher goes on sending to every subscriber it has accepted, as long as both processes run |
| EventMembership.AcceptsExact | src/ubus_runtime.cpp:200-216 | main: in every run a publisher answers OK exactly for an advertised topic with its type under a name it does not serve there, whoever else it serves; DUPLICATE exactly if it serves the name; INVALID otherwise |
| EventMembership.AcceptedJoinsOthers | src/ubus_runtime.cpp:207-216 | main: an accepted subscriber and whoever was served before are both served |
| EventMembership.RunEnrolled | src/ubus_master.cpp:171-180 | in every reachable state a runtime that the master has not removed owns there what it has advertised, and its control socket carries one request or its answer |
| Delivery.RunLogs | include/ubus_runtime.hpp:206-247 | the events recorded for a topic between two states are those the run published on it |
| EventSystem.SentIsFanOut | include/ubus_runtime.hpp:228-242 | a publication in the system does to all streams what the send loop of the object does |
| EventSystem.FrameTypes | include/frame.hpp:9-21 | events travel in frames of type 4 and the answers to subscribers in frames of type 2 |
| EventSystem.VisitExact | src/ubus_runtime.cpp:353-376 | main: a turn of the event thread passes over an unmarked slot, and frees a marked one exactly at the end of the stream of a publisher that is gone |
| EventInvariant.RunSound | include/ubus_runtime.hpp:206-391 | in every reachable state each stream is the encoding of the reply and of the events sent and not yet read, and each registered subscriber has been sent everything since its acceptance |
| EventInvariant.PublishSound | include/ubus_runtime.hpp:206-247 | a publication keeps that, with any set of closed subscribers, and when the publisher dies in the middle |
| EventInvariant.VisitSound | src/ubus_runtime.cpp:353-392 | one turn of the loop over the poll table keeps that |
| EventInvariant.FinishAnswers | include/ubus_runtime.hpp:335-360 | the subscriber takes the reply of the publisher for OK exactly if it was, and what is left in the stream are the events |
| EventInvariant.AcceptSound | src/ubus_runtime.cpp:193-245 | accepting or refusing a subscriber, with the reply, keeps the invariant |
| EventMembership.RunOwned | src/ubus_master.cpp:216-223 | in every run of the whole system every entry of the directory names a present participant |
| EventThread.LookupNeverThrows | src/ubus_runtime.cpp:335-345 | in every run the event thread finds each new subscription it takes from the queue |
| EventThread.CoverageExact | src/ubus_runtime.cpp:335-347 | main: poll sees every occupied slot of a runtime in all states of a run exactly if each new subscription finds the lowest free slot below the number of topics |
| EventThread.FreshHasRoom | src/ubus_runtime.cpp:335-347 | main: that is so whenever every slot is that of a current subscription, once, and not of one that waits: only a new subscription to a topic whose older connection still has a slot breaks it |
| EventThread.NoResubscriptionCovers | src/ubus_runtime.cpp:335-347 | main: in every run in which a runtime does not subscribe to a topic again, poll sees every occupied slot in all states |
| EventThread.SubscribedIsPlaced | src/ubus_runtime.cpp:335-345 | main: in every run every current subscription waits for its slot or has one, unless the event thread has come to the end of its stream or its turn came at a full table |
| EventProgress.NextIsDelivered | src/ubus_runtime.cpp:335-392 | main: whenever an event is owed to a current subscription whose connection has a slot in the window, no connection has or will get two slots, and what the last poll has marked can still be read, a continuation of the run in which only the event thread moves and poll reports everything there is delivers it as the next one |
| EventProgress.FreshIsDelivered | src/ubus_runtime.cpp:335-392 | main: so it is in every run in which the runtime does not subscribe to a topic again, once the connection is in the table |
| EventArrival.OwedIsDelivered | src/ubus_runtime.cpp:335-392 | main: in every run in which a runtime with at most 1024 topics never subscribes to a topic again, whatever else happens and wherever its threads stand, the next event that is owed to a subscription is delivered by some continuation in which only its event thread moves |
| EventArrival.ReachesTable | src/ubus_runtime.cpp:335-376 | from a subscription on, the event thread has a way to give the connection its slot, past whatever pass it is in and whoever waits before |
| EventProgress.PollReachesExact | src/ubus_runtime.cpp:347-354 | main: in every run the next poll can mark a connection exactly if it has input and a slot in the window |
| EventProgress.OutsideStaysUnread | src/ubus_runtime.cpp:347-354 | main: as long as a connection has no slot in the window nothing is read over it, in every run |
| EventProgress.VisitBlocksExact | src/ubus_runtime.cpp:353-376 | a turn of the loop blocks exactly if its slot is marked and the connection has nothing to read |
| EventRequests.RequesterReturns | include/ubus_runtime.hpp:142-391 | main: in every run the requester of a runtime that has not been removed can come back to its caller, whatever it waits for |
| EventRuns.Advertises | include/ubus_runtime.hpp:142-203 | from every reachable state in which it is at rest and present, a runtime can advertise any topic that nobody owns, whatever it has advertised already |
| EventRuns.Subscribes | include/ubus_runtime.hpp:249-391 | from every reachable state, a runtime at rest can subscribe at the present owner of a topic that accepts it, and then the publisher serves the connection and the topic waits for the event thread |
| Strays.CallbackSeesStray | src/ubus_runtime.cpp:366-390 | a concrete run in which a publisher dies in the middle of an event and the callback is given bytes that nobody has published |
| Resubscription.SecondSlotBlocks | src/ubus_runtime.cpp:338-376 | a concrete run in which a connection has two slots in the window and the event thread blocks at the second after reading the only event |
| Resubscription.ResubscriptionGoesDeaf | src/ubus_runtime.cpp:347 | a concrete run after which the only subscription of a runtime is attached, has an event waiting, and sits in a slot poll does not look at |
| Rpc.CallIsCorrect | include/ubus_runtime.hpp:545-605 | main: in every run, if call_method returns true then since it was entered exactly one handler took its request, at a provider whose last accepted provide of that method has both its type ids, and the response data is what that callback returned for the request data |
| Rpc.TypedCallIsCorrect | include/ubus_runtime.hpp:104-122 | main: for any provides and calls, if the method that took the call is a typed callback, the response object holds what it gave for the request, both carried through their text; with one codec on both sides that can be read back it is the callback's own response |
| Rpc.CallbackRunsExactly | src/ubus_runtime.cpp:257-270 | main: in every run a handler runs a callback exactly if the provider has last had accepted a method of that name with both type ids of the request, and then that one |
| Rpc.HandledOnce | src/ubus_runtime.cpp:248-298 | a call that has been handled was handled by exactly one step |
| Rpc.ProvideWasGranted | include/ubus_runtime.hpp:409-430 | an accepted provide was granted by the master when nobody had the method, under the provider's name and types |
| Rpc.ProvidedMethodIsNew | include/ubus_runtime.hpp:436-443 | in every run, when a runtime reads that its provide is accepted it has not provided the method before |
| Rpc.ProvidedAtMostOnce | include/ubus_runtime.hpp:436-443 | a runtime reads an accepted provide of a method at most once |
| Rpc.DialedProviderWasOwner | include/ubus_runtime.hpp:492-532 | the connection of a call goes to the address of the present owner the master answered with |
| Rpc.AnswerIsOwn | include/ubus_runtime.hpp:409-420 | what a runtime reads from its control socket is the master's answer to its own outstanding request |
| Rpc.TableIsProvisions | include/ubus_runtime.hpp:425-431 | the method table of a runtime holds exactly what it has last had accepted |
| Rpc.HandledHasReply | src/ubus_runtime.cpp:257-298 | main: a call that was handled and not lost has a reply: the output of the callback exactly if the provider has that method with both types, a refusal otherwise |
| Rpc.CallCanReturn | include/ubus_runtime.hpp:461-605 | main: after every run, a present and idle runtime can call a method whose owner is present: some continuation returns true with the output of the callback exactly if the types agree |
| Calls.IntegerCodecRoundTrips | include/message.hpp:40-50 | Int64Msg is a message type that can be read back |

## Left out

- Sockets, `bind`, `listen`, `connect`, address conversion, signals, sleeps, threads and logging: steps that may happen at any time, and byte streams.
- JSON text: bodies are datatypes with a case for missing members and one for what the library rejects. A topic, method or name of the wrong JSON type is the latter; type ids that are not numbers are a case of their own. A first frame with such a member is one that gets no reply. Reply words on event connections are short stand-ins for the JSON of the reply.
- Header padding: any three bytes, the same for every frame of a stream; on event connections zero.
- Sending a frame, and on the publisher inserting a subscriber and replying, are one step each; the code takes no lock there. Keep-alives fall between frames. A publisher can die in the middle of an event, not of a reply.
- The event loops of master and runtime read the header with one `read`; the model has it arrive whole unless the publisher has died. `SocketIO.dfy` covers readn.
- `poll`: only the POLLIN bit, and slots beyond the table are not modelled when more than 1024 participants or topics are there. The bits of slots that were never used start clear; the code leaves them uninitialised.
- A slot of a runtime that is free but still marked: the code reads from descriptor -1, which fails and calls nothing; the model passes over it.
- Object lifetime, leaks, memory ordering, descriptor reuse: no descriptor of the master is ever closed, so none comes back; in the event system connections and processes keep their numbers.
- A `std::string` of 2^31 bytes or more makes the `int32_t` result of writen negative in its callers; not modelled.
- Locks: the guards are acquire and release actions; that the step machine may take a locked region as one step is argued from Locks.NoDataRace and Locks.RegionsKeepOut, not proved as a refinement. The runtime's own mutexes are not modelled.
- `process_control_message`, `process_event_message` and `start_listening_socket` as single methods: their loops never end, so their regions are methods or steps and their order is the phases of `Machine.dfy` and `EventSystem.dfy`.
- `advertise_event`, `subscribe_event`, `provide_method` and `call_method` as single methods: they wait for replies, so each is a sequence of steps in `EventSystem.dfy` and `Rpc.dfy`; the parts that change the object are methods of `Runtime.UBusRuntime`.
- `unprocessed_dead_sub_events_`: nothing ever enters it.
- Callbacks are functions of the request and of one number that stands for everything else they read; that one throws or does not return is not modelled.
- Delivery.NothingLost: needs the subscription to be current; a connection that a later subscription to the same topic has replaced gets no callback, and one outside the window no read (EventProgress.OutsideStaysUnread).
- Control connections on the event side and all connections in `Rpc.dfy` carry whole messages; that frames arrive whole and in order is proved in `Framing.dfy`, and event streams are bytes.
- `keep_alive_sender` and `echo_event`: keep-alives are control frames that may arrive at any time; `echo_event` repeats `subscribe_event`.
- Fairness: EventProgress.NextIsDelivered shows a way to the next event, not that the scheduler takes it.
- Float32Msg, Float64Msg, NullMsg; `subscribed_topic_list`, `EventInfo::subscribers`, `DataChannel`, `include/socket.hpp`; the command line tools and the sample programs.
- Int32Msg and Int64Msg on text outside their range: undefined in C, excluded by a precondition.
