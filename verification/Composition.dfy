// The master as the other systems see it: every run of its step machine is a sequence of the
// directory steps they allow.
module Composition {
  import opened Common
  import opened Directory
  import opened Registry
  import opened Machine
  import opened Consistency
  import opened Refinement
  import EventSystem
  import Rpc

  lemma SenderIsLive(r: Registry, fd: nat)
    requires NamesAgree(r.participants, r.sockets) && Sender(r, fd).Some?
    ensures SenderName(r, fd) in Abs(r).live
  {
  }

  lemma RegisterIsAdmissible(r: Registry, fd: nat, topic: string, typeId: Option<uint32>)
    requires NamesAgree(r.participants, r.sockets) && RegisterTopic(r, fd, topic, typeId).Done?
    ensures Admissible(Abs(r), Register(SenderName(r, fd), topic, typeId.GetOr(0)))
  {
    if topic !in r.events {
      SenderIsLive(r, fd);
    }
  }

  lemma ProvideIsAdmissible(r: Registry, fd: nat, name: string, types: Option<MethodTypes>)
    requires NamesAgree(r.participants, r.sockets) && ProvideMethod(r, fd, name, types).Done?
    ensures Admissible(Abs(r), Provide(SenderName(r, fd), name, types.GetOr(MethodTypes(0, 0))))
  {
    if name !in r.methods {
      SenderIsLive(r, fd);
    }
  }

  lemma FrameIsAdmissible(r: Registry, fd: nat, frame: ControlFrame)
    requires Consistent(r) && Handle(r, fd, frame).Done?
    ensures Admissible(Abs(r), AskedByFrame(r, fd, frame))
  {
    hide NamesAgree, TopicsAgree, MethodsAgree, Abs, Update, RegisterTopic, ProvideMethod, SenderName;
    match frame
    case EventRegister(topic, typeId) => RegisterIsAdmissible(r, fd, topic, typeId);
    case MethodProvide(name, types) => ProvideIsAdmissible(r, fd, name, types);
    case _ =>
  }

  // A register or provide is read from a participant, or changes nothing: a sender that is gone is
  // told DUPLICATE, or ends the process.
  lemma StepIsAdmissible(m: Machine, l: Label)
    requires Sound(m) && Enabled(m, l) && Step(m, l).Next?
    ensures Admissible(Abs(m.registry), Asked(m, l))
  {
    hide Abs, AskedByFrame, Handle, Consistent;
    match l
    case VisitSlot(Received(frame)) => FrameIsAdmissible(m.registry, Visited(m), frame);
    case _ =>
  }

  // Main result: a step of the master is a step of each of the two systems, from any state of
  // theirs in which the directory is what the master holds.
  lemma StepIsMasterStep(m: Machine, l: Label, m': Machine, es: EventSystem.System, rs: Rpc.System)
    requires Sound(m) && Leads(m, l, m')
    requires es.directory == Abs(m.registry) && rs.directory == Abs(m.registry)
    ensures EventSystem.Enabled(es, EventSystem.MasterStep(Asked(m, l)))
    ensures EventSystem.Step(es, EventSystem.MasterStep(Asked(m, l))).directory == Abs(m'.registry)
    ensures Rpc.Enabled(rs, Rpc.MasterStep(Asked(m, l)))
    ensures Rpc.Step(rs, Rpc.MasterStep(Asked(m, l))).directory == Abs(m'.registry)
  {
    StepIsAdmissible(m, l);
    hide Leads, Sound, Abs, Update, Asked, Admissible;
    LeadsRefines(m, l, m');
  }

  // A frame from a descriptor whose participant has been removed registers nothing.
  lemma GoneChangesNothing(m: Machine, l: Label)
    requires Sound(m) && Enabled(m, l) && Step(m, l).Next? && l.VisitSlot? && Visited(m) !in m.registry.sockets
    ensures Update(Abs(m.registry), Asked(m, l)) == Abs(m.registry)
  {
    hide Sound, LiveOf;
  }

  // How a runtime behind a control socket stands.
  ghost predicate StandsAs(m: Machine, fd: nat, standing: Standing) {
    standing == if fd in m.registry.sockets then Member else Removed
  }

  lemma InboxAfter(es: EventSystem.System, node: nat)
    requires EventSystem.Enabled(es, EventSystem.MasterAnswers(node))
    ensures var es' := EventSystem.Step(es, EventSystem.MasterAnswers(node));
      && node in es'.nodes
      && es'.directory == Update(es.directory, es.nodes[node].outbox[0])
      && es'.nodes[node].inbox == es.nodes[node].inbox + Answer(es.directory, es.nodes[node].outbox[0])
  {
    hide Update, Answer, MayAsk;
  }

  // If the request is the one that the runtime behind the socket waits with, what it then finds in
  // its inbox are the replies of the step.
  lemma StepIsAnswer(m: Machine, l: Label, m': Machine, es: EventSystem.System, node: nat)
    requires Sound(m) && Leads(m, l, m') && l.VisitSlot? && es.directory == Abs(m.registry)
    requires node in es.nodes && es.nodes[node].outbox != [] && es.nodes[node].outbox[0] == Asked(m, l)
    requires StandsAs(m, Visited(m), es.nodes[node].standing)
    ensures EventSystem.Enabled(es, EventSystem.MasterAnswers(node))
    ensures var es' := EventSystem.Step(es, EventSystem.MasterAnswers(node));
      && node in es'.nodes && es'.directory == Abs(m'.registry)
      && exists verdicts ::
           && es'.nodes[node].inbox == es.nodes[node].inbox + verdicts
           && Step(m, l).replies == Addressed(Source(m, l), verdicts)
  {
    if Visited(m) !in m.registry.sockets {
      GoneChangesNothing(m, l);
    }
    hide Leads, Sound, Abs, Update, Asked, Step, Source, Answer, Addressed, EventSystem.Step, Owned;
    LeadsRefines(m, l, m');
    assert EventSystem.Enabled(es, EventSystem.MasterAnswers(node));
    InboxAfter(es, node);
  }

  // A join is the entry of the runtime that asks for it.
  lemma StepIsEntry(m: Machine, l: Label, m': Machine, es: EventSystem.System, node: nat, peer: Address)
    requires Sound(m) && Leads(m, l, m') && es.directory == Abs(m.registry)
    requires node in es.nodes && es.nodes[node].standing.Outside?
    requires Asked(m, l) == EventSystem.Entry(es.nodes[node], peer)
    ensures EventSystem.Enabled(es, EventSystem.Enter(node, peer))
    ensures var es' := EventSystem.Step(es, EventSystem.Enter(node, peer));
      && es'.directory == Abs(m'.registry) && node in es'.nodes
      && (es'.nodes[node].standing.Member? <==> Step(m, l).replies == [Reply(Source(m, l), Accepted)])
  {
    hide Leads, Sound, Abs, Asked, Step, Source, Owned;
    LeadsRefines(m, l, m');
    assert Addressed(Source(m, l), [Accepted]) == [Reply(Source(m, l), Accepted)];
    assert Addressed(Source(m, l), [Duplicate])[0] == Reply(Source(m, l), Duplicate);
  }

  ghost function DirectorySystem(m: Machine): EventSystem.System {
    EventSystem.EMPTY_SYSTEM.(directory := Abs(m.registry))
  }

  lemma NobodyStands(q: Query)
    ensures EventSystem.Standings(map[], q) == map[]
  {
  }

  // Along a run of the master, request by request.
  lemma RunIsMasterSteps(ms: seq<Machine>, ls: seq<Label>, k: nat)
    requires IsRun(ms, ls) && k < |ls| && Sound(ms[k])
    ensures EventSystem.Leads(
      DirectorySystem(ms[k]), EventSystem.MasterStep(Asked(ms[k], ls[k])), DirectorySystem(ms[k + 1]))
  {
    hide Leads, Sound, Abs, Asked, Update, Admissible, EventSystem.Standings, Rpc.Step, Rpc.Enabled;
    NobodyStands(Asked(ms[k], ls[k]));
    StepIsMasterStep(ms[k], ls[k], ms[k + 1], DirectorySystem(ms[k]),
                     Rpc.EMPTY_SYSTEM.(directory := Abs(ms[k].registry)));
  }
}
