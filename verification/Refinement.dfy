// The master refines the directory: whatever the interleaving, its state abstracts to the
// directory's state and its replies are the directory's answers.
module Refinement {
  import opened Common
  import opened Directory
  import opened PollTable
  import opened Registry
  import opened Machine
  import opened Consistency

  ghost function LiveOf(ps: map<string, Participant>): map<string, Contact> {
    map n | n in ps :: ps[n].contact
  }

  ghost function TopicsOf(events: map<string, EventInfo>): map<string, TopicEntry> {
    map t | t in events :: TopicEntry(events[t].publisher, events[t].typeId)
  }

  ghost function MethodsOf(methods: map<string, MethodInfo>): map<string, MethodEntry> {
    map m | m in methods :: MethodEntry(methods[m].provider, methods[m].types)
  }

  ghost function Abs(r: Registry): Directory {
    Directory(LiveOf(r.participants), TopicsOf(r.events), MethodsOf(r.methods))
  }

  // On whose behalf a frame read from fd is handled.
  ghost function SenderName(r: Registry, fd: nat): string {
    if fd in r.sockets then r.sockets[fd] else ""
  }

  ghost function AskedByListing(listing: Listing): Query {
    match listing
    case Topics => ListTopics
    case Participants => ListParticipants
    case Methods => ListMethods
    case Other => UnknownListing
  }

  ghost function AskedByFrame(r: Registry, fd: nat, frame: ControlFrame): Query {
    match frame
    case KeepAlive => Nothing
    case EventRegister(topic, typeId) => Register(SenderName(r, fd), topic, typeId.GetOr(0))
    case EventSubscribe(topic) => FindTopic(topic)
    case MethodProvide(name, types) => Provide(SenderName(r, fd), name, types.GetOr(MethodTypes(0, 0)))
    case MethodQuery(name) => FindMethod(name)
    case Partial => Incomplete
    case Malformed => Nothing
    case Debug(listing) => AskedByListing(listing)
    case Unhandled => Nothing
  }

  // What a step of the master asks of the directory.
  ghost function Asked(m: Machine, l: Label): Query {
    match l
    case Connect(_, peer, Hello(name, listening, version)) => Join(version, name, Contact(peer, listening))
    case Connect(_, _, MissingMembers) => Incomplete
    case Bury => if m.registry.deadQueue == [] then Nothing else Leave(m.registry.deadQueue[0])
    case VisitSlot(Received(frame)) => AskedByFrame(m.registry, Visited(m), frame)
    case _ => Nothing
  }

  // Whether a step has read a frame that calls for a reply, and from which descriptor.
  predicate NeedsReply(l: Label) {
    match l
    case Connect(_, _, hello) => !hello.Discarded?
    case VisitSlot(Received(frame)) => !frame.KeepAlive? && !frame.Unhandled? && !frame.Malformed?
    case _ => false
  }

  ghost function Source(m: Machine, l: Label): nat {
    match l
    case Connect(fd, _, _) => fd
    case VisitSlot(_) => Visited(m)
    case _ => 0
  }

  lemma AbsOwned(r: Registry)
    requires Consistent(r)
    ensures Owned(Abs(r))
  {
  }

  lemma LiveUpdate(ps: map<string, Participant>, n: string, p: Participant)
    ensures LiveOf(ps[n := p]) == LiveOf(ps)[n := p.contact]
    ensures n in ps && p.contact == ps[n].contact ==> LiveOf(ps[n := p]) == LiveOf(ps)
  {
  }

  lemma AdmitRefines(r: Registry, fd: nat, peer: Address, hello: Hello)
    requires Consistent(r) && hello.Hello?
    ensures Owned(Abs(r))
    ensures var q := Join(hello.version, hello.name, Contact(peer, hello.listening));
      && Abs(Admit(r, fd, peer, hello).registry) == Update(Abs(r), q)
      && Admit(r, fd, peer, hello).verdicts == Answer(Abs(r), q)
  {
    var contact := Contact(peer, hello.listening);
    LiveUpdate(r.participants, hello.name, Participant(hello.name, contact, fd, map[], map[], 0));
    AbsOwned(r);
  }

  lemma TopicsWithout(ps: map<string, Participant>, events: map<string, EventInfo>, name: string)
    requires TopicsAgree(ps, events) && name in ps
    ensures TopicsOf(events - ps[name].topics.Keys)
            == TopicsOf(events) - (set t | t in TopicsOf(events) && TopicsOf(events)[t].owner == name)
  {
    TopicsErased(ps, events, name);
    hide TopicsAgree;
  }

  lemma MethodsWithout(ps: map<string, Participant>, methods: map<string, MethodInfo>, name: string)
    requires MethodsAgree(ps, methods) && name in ps
    ensures MethodsOf(methods - ps[name].methods.Keys)
            == MethodsOf(methods) - (set m | m in MethodsOf(methods) && MethodsOf(methods)[m].owner == name)
  {
    MethodsErased(ps, methods, name);
    hide MethodsAgree;
  }

  lemma BuryRefines(r: Registry)
    requires Consistent(r) && r.deadQueue != [] && BuryFront(r).Done?
    ensures Abs(BuryFront(r).registry) == Without(Abs(r), r.deadQueue[0])
  {
    var name := r.deadQueue[0];
    TopicsWithout(r.participants, r.events, name);
    MethodsWithout(r.participants, r.methods, name);
    assert LiveOf(r.participants - {name}) == LiveOf(r.participants) - {name};
  }

  lemma TopicTableRefines(r: Registry)
    requires Consistent(r) && Owned(Abs(r))
    ensures [List(r, Topics)] == Answer(Abs(r), ListTopics)
  {
    var d := Abs(r);
    var listed := set t | t in r.events :: (r.events[t].name, r.events[t].typeId, r.events[t].publisher);
    var known := set t | t in d.topics :: (t, d.topics[t].typeId, d.topics[t].owner);
    forall x | x in listed ensures x in known { assert x.0 in d.topics; }
    forall x | x in known ensures x in listed { assert x.0 in r.events; }
    assert listed == known;
  }

  lemma ParticipantTableRefines(r: Registry)
    requires Consistent(r) && Owned(Abs(r))
    ensures [List(r, Participants)] == Answer(Abs(r), ListParticipants)
  {
    var d := Abs(r);
    var listed := set n | n in r.participants :: (r.participants[n].name, r.participants[n].contact);
    var known := set n | n in d.live :: (n, d.live[n]);
    forall x | x in listed ensures x in known { assert x.0 in d.live; }
    forall x | x in known ensures x in listed { assert x.0 in r.participants; }
    assert listed == known;
  }

  lemma MethodTableRefines(r: Registry)
    requires Consistent(r) && Owned(Abs(r))
    ensures [List(r, Methods)] == Answer(Abs(r), ListMethods)
  {
    var d := Abs(r);
    var listed := set m | m in r.methods :: (r.methods[m].name, r.methods[m].types, r.methods[m].provider);
    var known := set m | m in d.methods :: (m, d.methods[m].types, d.methods[m].owner);
    forall x | x in listed ensures x in known { assert x.0 in d.methods; }
    forall x | x in known ensures x in listed { assert x.0 in r.methods; }
    assert listed == known;
  }

  // An outcome that is what the directory does with the query.
  ghost predicate Implements(o: Outcome, d: Directory, q: Query)
    requires Owned(d)
  {
    o.Done? && Abs(o.registry) == Update(d, q) && o.verdicts == Answer(d, q)
  }

  ghost predicate KnowsSender(r: Registry, fd: nat) {
    Sender(r, fd).Some? ==> Sender(r, fd).value.name == r.sockets[fd]
  }

  lemma SenderKnown(r: Registry, fd: nat)
    requires Consistent(r)
    ensures KnowsSender(r, fd)
  {
  }

  lemma RegisterRefines(r: Registry, fd: nat, topic: string, typeId: Option<uint32>)
    requires KnowsSender(r, fd) && Owned(Abs(r)) && RegisterTopic(r, fd, topic, typeId).Done?
    ensures Implements(RegisterTopic(r, fd, topic, typeId), Abs(r), Register(SenderName(r, fd), topic, typeId.GetOr(0)))
  {
    if topic !in r.events {
      var n, p := r.sockets[fd], Sender(r, fd).value;
      LiveUpdate(r.participants, n, p.(topics := p.topics[topic := typeId.value]));
      assert TopicsOf(r.events[topic := EventInfo(topic, typeId.value, n)])
          == TopicsOf(r.events)[topic := TopicEntry(n, typeId.value)];
    }
  }

  lemma ProvideRefines(r: Registry, fd: nat, name: string, types: Option<MethodTypes>)
    requires KnowsSender(r, fd) && Owned(Abs(r)) && ProvideMethod(r, fd, name, types).Done?
    ensures Implements(ProvideMethod(r, fd, name, types), Abs(r),
                       Provide(SenderName(r, fd), name, types.GetOr(MethodTypes(0, 0))))
  {
    if name !in r.methods {
      var n, p := r.sockets[fd], Sender(r, fd).value;
      LiveUpdate(r.participants, n, p.(methods := p.methods[name := types.value]));
      assert MethodsOf(r.methods[name := MethodInfo(name, types.value, n)])
          == MethodsOf(r.methods)[name := MethodEntry(n, types.value)];
    }
  }

  lemma FindTopicRefines(r: Registry, topic: string)
    requires NamesAgree(r.participants, r.sockets) && Owned(Abs(r))
    ensures Implements(FindPublisher(r, topic), Abs(r), FindTopic(topic))
  {
    if topic in r.events {
      var publisher := r.events[topic].publisher;
      assert Abs(r).topics[topic].owner == publisher && publisher in Abs(r).live;
    }
  }

  lemma FindMethodRefines(r: Registry, name: string)
    requires NamesAgree(r.participants, r.sockets) && Owned(Abs(r))
    ensures Implements(FindProvider(r, name), Abs(r), FindMethod(name))
  {
    if name in r.methods {
      var provider := r.methods[name].provider;
      assert Abs(r).methods[name].owner == provider && provider in Abs(r).live;
    }
  }

  lemma ResetRefines(r: Registry, fd: nat)
    requires Consistent(r) && Owned(Abs(r)) && ResetWatchdog(r, fd).Done?
    ensures Implements(ResetWatchdog(r, fd), Abs(r), Nothing)
  {
    LiveUpdate(r.participants, r.sockets[fd], Sender(r, fd).value.(watchdog := 0));
  }

  lemma ListedRefines(r: Registry, listing: Listing)
    requires Owned(Abs(r)) && [List(r, listing)] == Answer(Abs(r), AskedByListing(listing))
    ensures Implements(Done(r, [List(r, listing)]), Abs(r), AskedByListing(listing))
  {
    hide Abs, Owned, List, Answer;
  }

  lemma OtherRefines(r: Registry)
    requires Owned(Abs(r))
    ensures [List(r, Other)] == Answer(Abs(r), UnknownListing)
  {
  }

  lemma ListRefines(r: Registry, listing: Listing)
    requires Consistent(r) && Owned(Abs(r))
    ensures Implements(Done(r, [List(r, listing)]), Abs(r), AskedByListing(listing))
  {
    hide Consistent, Abs, Owned, List, Answer, Update, Implements;
    match listing {
      case Topics => TopicTableRefines(r);
      case Participants => ParticipantTableRefines(r);
      case Methods => MethodTableRefines(r);
      case Other => OtherRefines(r);
    }
    ListedRefines(r, listing);
  }

  // Nothing changes, and the answer does not depend on what there is.
  lemma UnreadRefines(r: Registry)
    requires Owned(Abs(r))
    ensures Implements(Done(r, [Invalid]), Abs(r), Incomplete)
    ensures Implements(Done(r, []), Abs(r), Nothing)
  {
  }

  lemma HandleRefines(r: Registry, fd: nat, frame: ControlFrame)
    requires Consistent(r) && Handle(r, fd, frame).Done?
    ensures Owned(Abs(r)) && Implements(Handle(r, fd, frame), Abs(r), AskedByFrame(r, fd, frame))
  {
    AbsOwned(r);
    SenderKnown(r, fd);
    hide NamesAgree, TopicsAgree, MethodsAgree, KnowsSender, Owned, Abs, Implements, Update, Answer, AskedByListing;
    hide RegisterTopic, ProvideMethod, FindPublisher, FindProvider, ResetWatchdog, List;
    match frame
    case KeepAlive => ResetRefines(r, fd);
    case Debug(listing) => ListRefines(r, listing);
    case EventRegister(topic, typeId) => RegisterRefines(r, fd, topic, typeId);
    case MethodProvide(name, types) => ProvideRefines(r, fd, name, types);
    case EventSubscribe(topic) => FindTopicRefines(r, topic);
    case MethodQuery(name) => FindMethodRefines(r, name);
    case _ => UnreadRefines(r);
  }

  ghost predicate StepIsRefined(m: Machine, l: Label)
    requires Enabled(m, l) && Step(m, l).Next?
  {
    && Owned(Abs(m.registry))
    && Abs(Step(m, l).machine.registry) == Update(Abs(m.registry), Asked(m, l))
    && Step(m, l).replies == Addressed(Source(m, l), Answer(Abs(m.registry), Asked(m, l)))
    && |Answer(Abs(m.registry), Asked(m, l))| == if NeedsReply(l) then 1 else 0
  }

  lemma ConnectRefines(m: Machine, fd: nat, peer: Address, hello: Hello)
    requires Sound(m) && Enabled(m, Connect(fd, peer, hello))
    ensures Step(m, Connect(fd, peer, hello)).Next? && StepIsRefined(m, Connect(fd, peer, hello))
  {
    hide Consistent, Owned;
    AbsOwned(m.registry);
    if hello.Hello? { AdmitRefines(m.registry, fd, peer, hello); }
  }

  lemma FrameRefines(m: Machine, frame: ControlFrame)
    requires Sound(m) && Enabled(m, VisitSlot(Received(frame))) && Step(m, VisitSlot(Received(frame))).Next?
    ensures StepIsRefined(m, VisitSlot(Received(frame)))
  {
    hide Consistent, Handle, Abs;
    HandleRefines(m.registry, Visited(m), frame);
  }

  lemma VisitRefines(m: Machine, input: Input)
    requires Sound(m) && Enabled(m, VisitSlot(input)) && Step(m, VisitSlot(input)).Next?
    ensures StepIsRefined(m, VisitSlot(input))
  {
    hide Consistent, Handle;
    AbsOwned(m.registry);
    if input.Received? { FrameRefines(m, input.frame); }
  }

  lemma BuryStepRefines(m: Machine)
    requires Sound(m) && Enabled(m, Bury) && Step(m, Bury).Next?
    ensures StepIsRefined(m, Bury)
  {
    AbsOwned(m.registry);
    BuryRefines(m.registry);
  }

  lemma TickRefines(m: Machine, order: seq<string>)
    requires Sound(m) && Enabled(m, Label.Tick(order))
    ensures StepIsRefined(m, Label.Tick(order))
  {
    hide Consistent, Owned;
    AbsOwned(m.registry);
    assert LiveOf(Age(m.registry, order).participants) == LiveOf(m.registry.participants);
  }

  // The other steps nobody outside the master can observe.
  lemma SilentStepRefines(m: Machine, l: Label)
    requires Sound(m) && Enabled(m, l) && Step(m, l).Next?
    requires !l.Connect? && !l.VisitSlot? && !l.Bury? && !l.Tick?
    ensures StepIsRefined(m, l)
  {
    hide Consistent, Owned;
    AbsOwned(m.registry);
  }

  // Main result, one step.
  lemma StepRefines(m: Machine, l: Label)
    requires Sound(m) && Enabled(m, l) && Step(m, l).Next?
    ensures StepIsRefined(m, l)
  {
    match l
    case Connect(fd, peer, hello) => ConnectRefines(m, fd, peer, hello);
    case VisitSlot(input) => VisitRefines(m, input);
    case Bury => BuryStepRefines(m);
    case Tick(order) => TickRefines(m, order);
    case _ => SilentStepRefines(m, l);
  }

  /* ---- Whole runs ---- */

  // The directory after the queries of the first k steps.
  ghost function Replay(ms: seq<Machine>, ls: seq<Label>, k: nat): Directory
    requires IsRun(ms, ls) && k <= |ls|
  {
    if k == 0 then EMPTY
    else Update(Replay(ms, ls, k - 1), Asked(ms[k - 1], ls[k - 1]))
  }

  // What a step that goes on does to the directory, and says.
  lemma LeadsRefines(m: Machine, l: Label, m': Machine)
    requires Sound(m) && Leads(m, l, m')
    ensures Owned(Abs(m.registry)) && Abs(m'.registry) == Update(Abs(m.registry), Asked(m, l))
    ensures Step(m, l).replies == Addressed(Source(m, l), Answer(Abs(m.registry), Asked(m, l)))
    ensures |Answer(Abs(m.registry), Asked(m, l))| == if NeedsReply(l) then 1 else 0
  {
    hide Sound, Abs, Update, Asked, Step, Answer, Source;
    StepRefines(m, l);
  }

  lemma NobodyLive()
    ensures LiveOf(map[]) == map[]
  {
  }

  lemma NoTopics()
    ensures TopicsOf(map[]) == map[]
  {
  }

  lemma NoMethods()
    ensures MethodsOf(map[]) == map[]
  {
  }

  lemma StartIsEmpty()
    ensures Abs(START.registry) == EMPTY
  {
    hide LiveOf, TopicsOf, MethodsOf;
    NobodyLive();
    NoTopics();
    NoMethods();
  }

  lemma {:induction false} RunAbstracts(ms: seq<Machine>, ls: seq<Label>, k: nat)
    requires IsRun(ms, ls) && ms[0] == START && k <= |ls|
    ensures Abs(ms[k].registry) == Replay(ms, ls, k)
  {
    hide Leads, Sound, Abs, Update, Asked;
    if k == 0 {
      StartIsEmpty();
    } else {
      RunAbstracts(ms, ls, k - 1);
      RunSound(ms, ls, k - 1);
      LeadsRefines(ms[k - 1], ls[k - 1], ms[k]);
    }
  }

  // Main result, every run: a directory that is fed the queries in the order in which the master
  // met them, and nothing else, goes through the same states and gives the same replies.
  lemma RunRefines(ms: seq<Machine>, ls: seq<Label>, k: nat)
    requires IsRun(ms, ls) && ms[0] == START && k <= |ls|
    ensures Abs(ms[k].registry) == Replay(ms, ls, k)
    ensures k < |ls| ==>
      && Leads(ms[k], ls[k], ms[k + 1])
      && Owned(Replay(ms, ls, k))
      && Step(ms[k], ls[k]).replies
         == Addressed(Source(ms[k], ls[k]), Answer(Replay(ms, ls, k), Asked(ms[k], ls[k])))
  {
    hide Leads, Sound, Abs, Replay, Asked, Step, Answer, Owned, Source;
    RunAbstracts(ms, ls, k);
    RunSound(ms, ls, k);
    if k < |ls| {
      LeadsRefines(ms[k], ls[k], ms[k + 1]);
    }
  }

  // A reply that names an owner names a participant that is present and holds what was asked
  // for, and carries the address on which that participant listens.
  lemma LocatedIsLiveOwner(ms: seq<Machine>, ls: seq<Label>, k: nat, owner: string, at: Address)
    requires IsRun(ms, ls) && ms[0] == START && k < |ls|
    requires Leads(ms[k], ls[k], ms[k + 1])
    requires exists fd :: Reply(fd, Located(owner, at)) in Step(ms[k], ls[k]).replies
    ensures var r := ms[k].registry;
      && owner in r.participants
      && r.participants[owner].contact.listening == at
      && match Asked(ms[k], ls[k])
         case FindTopic(topic) => topic in r.participants[owner].topics
         case FindMethod(name) => name in r.participants[owner].methods
         case _ => false
  {
    RunSound(ms, ls, k);
    StepRefines(ms[k], ls[k]);
    var answers := Answer(Abs(ms[k].registry), Asked(ms[k], ls[k]));
    assert Located(owner, at) in answers;
  }

  /* ---- Replies on one control socket ---- */

  ghost function SentTo(replies: seq<Reply>, fd: nat): seq<Verdict> {
    if replies == [] then []
    else (if replies[0].fd == fd then [replies[0].verdict] else []) + SentTo(replies[1..], fd)
  }

  // Everything the master has written to fd in the first k steps.
  ghost function Written(ms: seq<Machine>, ls: seq<Label>, fd: nat, k: nat): seq<Verdict>
    requires IsRun(ms, ls) && k <= |ls|
  {
    if k == 0 then []
    else
      assert Leads(ms[k - 1], ls[k - 1], ms[k]);
      Written(ms, ls, fd, k - 1) + SentTo(Step(ms[k - 1], ls[k - 1]).replies, fd)
  }

  // The steps, in order, at which a frame that calls for a reply was read from fd.
  ghost function Questions(ms: seq<Machine>, ls: seq<Label>, fd: nat, k: nat): (qs: seq<nat>)
    requires IsRun(ms, ls) && k <= |ls|
    ensures forall n :: 0 <= n < |qs| ==> qs[n] < k
    ensures forall n, n' :: 0 <= n < n' < |qs| ==> qs[n] < qs[n']
  {
    if k == 0 then []
    else
      var qs := Questions(ms, ls, fd, k - 1);
      if NeedsReply(ls[k - 1]) && Source(ms[k - 1], ls[k - 1]) == fd then qs + [k - 1] else qs
  }

  lemma SentToSource(source: nat, answers: seq<Verdict>, fd: nat)
    requires |answers| <= 1
    ensures SentTo(Addressed(source, answers), fd) == if source == fd then answers else []
  {
    if answers != [] {
      var replies := Addressed(source, answers);
      assert replies[1..] == [] && answers == [answers[0]];
    }
  }

  // The verdict is what the directory answers to the request read at step q.
  ghost predicate Answers(ms: seq<Machine>, ls: seq<Label>, q: nat, verdict: Verdict)
    requires IsRun(ms, ls) && q < |ls|
  {
    && Leads(ms[q], ls[q], ms[q + 1])
    && Owned(Replay(ms, ls, q))
    && Answer(Replay(ms, ls, q), Asked(ms[q], ls[q])) == [verdict]
  }

  // As many verdicts as questions, the nth verdict answering the nth question.
  ghost predicate AnswersInOrder(ms: seq<Machine>, ls: seq<Label>, qs: seq<nat>, verdicts: seq<Verdict>)
    requires IsRun(ms, ls)
  {
    && |qs| == |verdicts|
    && forall n :: 0 <= n < |qs| ==> qs[n] < |ls| && Answers(ms, ls, qs[n], verdicts[n])
  }

  lemma StepAnswers(ms: seq<Machine>, ls: seq<Label>, k: nat)
    requires IsRun(ms, ls) && ms[0] == START && k < |ls|
    ensures Leads(ms[k], ls[k], ms[k + 1]) && Owned(Replay(ms, ls, k))
    ensures var answers := Answer(Replay(ms, ls, k), Asked(ms[k], ls[k]));
      && Step(ms[k], ls[k]).replies == Addressed(Source(ms[k], ls[k]), answers)
      && |answers| == if NeedsReply(ls[k]) then 1 else 0
  {
    hide Leads, Step, Enabled, Answer;
    RunSound(ms, ls, k);
    RunRefines(ms, ls, k);
    LeadsRefines(ms[k], ls[k], ms[k + 1]);
  }

  lemma AnsweredNext(ms: seq<Machine>, ls: seq<Label>, fd: nat, k: nat)
    requires IsRun(ms, ls) && ms[0] == START && k < |ls|
    requires AnswersInOrder(ms, ls, Questions(ms, ls, fd, k), Written(ms, ls, fd, k))
    ensures AnswersInOrder(ms, ls, Questions(ms, ls, fd, k + 1), Written(ms, ls, fd, k + 1))
  {
    hide Step, Enabled, Answer;
    StepAnswers(ms, ls, k);
    var answers := Answer(Replay(ms, ls, k), Asked(ms[k], ls[k]));
    SentToSource(Source(ms[k], ls[k]), answers, fd);
    assert |answers| == 1 ==> answers == [answers[0]] && Answers(ms, ls, k, answers[0]);
  }

  lemma NothingAsked(ms: seq<Machine>, ls: seq<Label>, fd: nat)
    requires IsRun(ms, ls)
    ensures AnswersInOrder(ms, ls, Questions(ms, ls, fd, 0), Written(ms, ls, fd, 0))
  {
  }

  // Main result: on every control socket there are as many replies as requests, and the nth
  // reply is the directory's answer to the nth request, asked when that request was read.
  lemma {:induction false} NthReplyAnswersNthRequest(ms: seq<Machine>, ls: seq<Label>, fd: nat, k: nat)
    requires IsRun(ms, ls) && ms[0] == START && k <= |ls|
    ensures AnswersInOrder(ms, ls, Questions(ms, ls, fd, k), Written(ms, ls, fd, k))
  {
    hide *;
    if k == 0 {
      NothingAsked(ms, ls, fd);
    } else {
      NthReplyAnswersNthRequest(ms, ls, fd, k - 1);
      AnsweredNext(ms, ls, fd, k - 1);
    }
  }
}
