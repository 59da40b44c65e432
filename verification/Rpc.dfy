// Method providers and callers end to end: provides and queries through the master, which takes
// part as the directory, and calls over connections of their own.
module Rpc {
  import opened Common
  import opened Directory
  import opened Calls

  // One run of a callback.
  datatype Invocation = Invocation(info: Method, now: nat)

  // A connection made for one call.  `ran` is history.
  datatype Conn = Conn(
    caller: nat, provider: nat, request: Request,
    handled: bool, ran: Option<Invocation>, reply: Option<Reply>)

  // What the requester thread of a runtime is waiting for.
  datatype Pending =
    | Idle
    | Providing(fn: string, info: Method)
    | Locating(request: Request)
    | Calling(request: Request, conn: nat)

  // A runtime, with its one control socket to the master, a queue each way.
  datatype Node = Node(
    name: string, listening: Address, methods: map<string, Method>, standing: Standing,
    pending: Pending, outbox: seq<Query>, inbox: seq<Verdict>)

  datatype System = System(directory: Directory, nodes: map<nat, Node>, conns: map<nat, Conn>)

  const EMPTY_SYSTEM := System(EMPTY, map[], map[])

  datatype Label =
    | MasterStep(query: Query)                  // anything else the master does
    | Boot(node: nat, name: string, listening: Address)
    | Enter(node: nat, peer: Address)           // a runtime joins at the master
    | Provide(node: nat, fn: string, info: Method)
    | Call(node: nat, request: Request)         // call_method is entered
    | MasterAnswers(node: nat)
    | FinishProvide(node: nat)
    | Dial(node: nat, host: nat, conn: nat)
    | HandleCall(conn: nat, now: nat, lost: bool)
    | FinishCall(node: nat)                     // the reply is read
    | GiveUp(node: nat)                         // call_method returns false, for any reason

  ghost predicate Enabled(s: System, l: Label) {
    match l
    case MasterStep(query) => Admissible(s.directory, query)
    case Boot(node, _, _) => node !in s.nodes
    case Enter(node, _) => node in s.nodes && s.nodes[node].standing.Outside?
    case Provide(node, _, _) => node in s.nodes && !s.nodes[node].standing.Outside? && s.nodes[node].pending.Idle?
    case Call(node, _) => node in s.nodes && !s.nodes[node].standing.Outside? && s.nodes[node].pending.Idle?
    case MasterAnswers(node) =>
      && node in s.nodes && s.nodes[node].outbox != []
      && MayAsk(s.directory, s.nodes[node].standing, s.nodes[node].outbox[0]) && Owned(s.directory)
    case FinishProvide(node) => node in s.nodes && s.nodes[node].pending.Providing? && s.nodes[node].inbox != []
    case Dial(node, host, conn) =>
      && node in s.nodes && host in s.nodes && conn !in s.conns
      && s.nodes[node].pending.Locating? && s.nodes[node].inbox != []
      && s.nodes[node].inbox[0].Located? && s.nodes[node].inbox[0].at == s.nodes[host].listening
    case HandleCall(conn, _, _) =>
      conn in s.conns && !s.conns[conn].handled && s.conns[conn].provider in s.nodes
    case FinishCall(node) =>
      && node in s.nodes && s.nodes[node].pending.Calling?
      && s.nodes[node].pending.conn in s.conns && s.conns[s.nodes[node].pending.conn].reply.Some?
    case GiveUp(node) =>
      && node in s.nodes
      && (s.nodes[node].pending.Calling? || (s.nodes[node].pending.Locating? && s.nodes[node].inbox != []))
  }

  function WithNode(s: System, node: nat, n: Node): System {
    s.(nodes := s.nodes[node := n])
  }

  // The master's removal of a participant ends the standing of the runtime behind it.
  function Standings(nodes: map<nat, Node>, q: Query): map<nat, Node> {
    if q.Leave? then map r | r in nodes :: nodes[r].(standing := StandingAfter(nodes[r].standing, nodes[r].name, q))
    else nodes
  }

  function Entry(n: Node, peer: Address): Query {
    Join(API_VERSION, n.name, Contact(peer, n.listening))
  }

  ghost function Step(s: System, l: Label): System
    requires Enabled(s, l)
  {
    match l
    case MasterStep(query) => s.(directory := Update(s.directory, query), nodes := Standings(s.nodes, query))
    case Boot(node, name, listening) =>
      s.(nodes := s.nodes[node := Node(name, listening, map[], Outside, Idle, [], [])])
    case Enter(node, peer) =>
      var n := s.nodes[node];
      WithNode(s.(directory := Update(s.directory, Entry(n, peer))), node,
               n.(standing := if n.name in s.directory.live then Outside else Member))
    case Provide(node, fn, info) =>
      var n := s.nodes[node];
      WithNode(s, node, n.(pending := Providing(fn, info),
                           outbox := n.outbox + [Query.Provide(n.name, fn, info.types)]))
    case Call(node, request) =>
      var n := s.nodes[node];
      WithNode(s, node, n.(pending := Locating(request), outbox := n.outbox + [FindMethod(request.fn)]))
    case MasterAnswers(node) =>
      var n := s.nodes[node];
      WithNode(s.(directory := Update(s.directory, n.outbox[0])), node,
               n.(outbox := n.outbox[1..], inbox := n.inbox + Answer(s.directory, n.outbox[0])))
    case FinishProvide(node) =>
      var n := s.nodes[node];
      var methods := if n.inbox[0] == Accepted then n.methods[n.pending.fn := n.pending.info] else n.methods;
      WithNode(s, node, n.(pending := Idle, inbox := n.inbox[1..], methods := methods))
    case Dial(node, host, conn) =>
      var n := s.nodes[node];
      WithNode(s.(conns := s.conns[conn := Conn(node, host, n.pending.request, false, None, None)]), node,
               n.(pending := Calling(n.pending.request, conn), inbox := n.inbox[1..]))
    case HandleCall(conn, now, lost) =>
      var c := s.conns[conn];
      var methods := s.nodes[c.provider].methods;
      s.(conns := s.conns[conn := c.(
        handled := true,
        ran := if Matching(methods, c.request) then Some(Invocation(methods[c.request.fn], now)) else None,
        reply := if lost then None else React(methods, Complete(c.request), now))])
    case FinishCall(node) => WithNode(s, node, s.nodes[node].(pending := Idle))
    case GiveUp(node) =>
      var n := s.nodes[node];
      WithNode(s, node, n.(pending := Idle, inbox := if n.pending.Locating? then n.inbox[1..] else n.inbox))
  }

  ghost predicate Leads(s: System, l: Label, s': System) {
    Enabled(s, l) && Step(s, l) == s'
  }

  ghost predicate IsRun(ss: seq<System>, ls: seq<Label>) {
    && |ss| == |ls| + 1
    && ss[0] == EMPTY_SYSTEM
    && forall k :: 0 <= k < |ls| ==> Leads(ss[k], ls[k], ss[k + 1])
  }

  /* ---- What holds in every reachable state ---- */

  ghost predicate Awaits(n: Node, q: Query) {
    (n.outbox == [q] && n.inbox == []) || (n.outbox == [] && |n.inbox| == 1)
  }

  // The control connection of a node carries one request, or its answer, while the requester
  // waits for the master, and nothing otherwise.
  ghost predicate OneOutstanding(n: Node) {
    match n.pending
    case Idle => n.outbox == [] && n.inbox == []
    case Calling(_, _) => n.outbox == [] && n.inbox == []
    case Providing(fn, info) => Awaits(n, Query.Provide(n.name, fn, info.types))
    case Locating(request) => Awaits(n, FindMethod(request.fn))
  }

  ghost predicate OwnsMethod(d: Directory, name: string, fn: string) {
    fn in d.methods && d.methods[fn].owner == name
  }

  // A present runtime owns at the master what it has provided; and an OK it has not read yet is for
  // a method it has not provided before.
  ghost predicate Enrolled(d: Directory, n: Node) {
    && OneOutstanding(n)
    && (n.standing.Outside? ==> n.pending.Idle? && n.methods == map[])
    && (n.standing.Member? ==> n.name in d.live && forall fn :: fn in n.methods ==> OwnsMethod(d, n.name, fn))
    && (n.pending.Providing? && n.inbox == [Accepted] ==>
          n.pending.fn !in n.methods && (n.standing.Member? ==> OwnsMethod(d, n.name, n.pending.fn)))
  }

  ghost predicate NodesSound(s: System) {
    Owned(s.directory) && forall r :: r in s.nodes ==> Enrolled(s.directory, s.nodes[r])
  }

  // The callback has run if and only if the request was found to match; and the reply is what it
  // returned.
  ghost predicate ConnSound(c: Conn) {
    && (!c.handled ==> c.ran.None? && c.reply.None?)
    && (c.ran.Some? ==> c.ran.value.info.types == c.request.types)
    && (c.reply.Some? ==>
          c.reply.value == match c.ran
                           case Some(run) => Returned(run.info.callback(run.now, c.request.data))
                           case None => Refused)
  }

  ghost predicate ConnsSound(s: System) {
    forall i :: i in s.conns ==> ConnSound(s.conns[i])
  }

  // A caller waits on a connection that carries its own request.
  ghost predicate CallsSound(s: System) {
    forall r :: r in s.nodes && s.nodes[r].pending.Calling? ==>
      var i := s.nodes[r].pending.conn;
      i in s.conns && s.conns[i].caller == r && s.conns[i].request == s.nodes[r].pending.request
  }

  ghost predicate Sound(s: System) {
    NodesSound(s) && ConnsSound(s) && CallsSound(s)
  }

  lemma UpdateKeepsOwner(d: Directory, q: Query, name: string)
    requires q != Leave(name)
    ensures name in d.live ==> name in Update(d, q).live
    ensures forall fn :: OwnsMethod(d, name, fn) ==> OwnsMethod(Update(d, q), name, fn)
  {
  }

  // What the master does for others.
  lemma OthersQuery(d: Directory, q: Query, n: Node)
    requires Enrolled(d, n)
    ensures Enrolled(Update(d, q), n.(standing := StandingAfter(n.standing, n.name, q)))
  {
    hide Update, OwnsMethod;
    if q != Leave(n.name) {
      UpdateKeepsOwner(d, q, n.name);
    }
  }

  // What it does for the runtime itself.
  lemma OwnQuery(d: Directory, n: Node)
    requires Enrolled(d, n) && Owned(d) && n.outbox != [] && MayAsk(d, n.standing, n.outbox[0])
    ensures Admissible(d, n.outbox[0]) && !n.outbox[0].Leave?
    ensures Enrolled(Update(d, n.outbox[0]),
                     n.(outbox := n.outbox[1..], inbox := n.inbox + Answer(d, n.outbox[0])))
  {
    var q := n.outbox[0];
    UpdateKeepsOwner(d, q, n.name);
    assert n.inbox + Answer(d, q) == Answer(d, q) && n.outbox[1..] == [];
    if n.pending.Providing? {
      assert q == Query.Provide(n.name, n.pending.fn, n.pending.info.types);
      assert n.pending.fn in Update(d, q).methods;
    }
  }

  lemma Entering(d: Directory, n: Node, peer: Address)
    requires Enrolled(d, n) && n.standing.Outside?
    ensures Admissible(d, Entry(n, peer))
    ensures Enrolled(Update(d, Entry(n, peer)), n.(standing := if n.name in d.live then Outside else Member))
  {
  }

  predicate AsksMaster(l: Label) {
    l.MasterStep? || l.MasterAnswers? || l.Enter?
  }

  lemma MasterNode(s: System, l: Label, s': System, r: nat)
    requires NodesSound(s) && Leads(s, l, s') && AsksMaster(l) && r in s'.nodes
    ensures r in s.nodes && Enrolled(s'.directory, s'.nodes[r])
  {
    hide Enrolled, Owned, Answer, Update, MayAsk, Admissible;
    var d, n := s.directory, s.nodes[r];
    match l
    case MasterStep(query) => OthersQuery(d, query, n);
    case Enter(node, peer) =>
      Entering(d, s.nodes[node], peer);
      OthersQuery(d, Entry(s.nodes[node], peer), n);
    case MasterAnswers(node) =>
      OwnQuery(d, s.nodes[node]);
      OthersQuery(d, s.nodes[node].outbox[0], n);
  }

  lemma MasterOwned(s: System, l: Label, s': System)
    requires NodesSound(s) && Leads(s, l, s') && AsksMaster(l)
    ensures Owned(s'.directory)
  {
    hide Enrolled, Owned, Answer, Update, MayAsk;
    match l
    case MasterStep(query) => UpdateOwned(s.directory, query);
    case Enter(node, peer) =>
      Entering(s.directory, s.nodes[node], peer);
      UpdateOwned(s.directory, Entry(s.nodes[node], peer));
    case MasterAnswers(node) =>
      OwnQuery(s.directory, s.nodes[node]);
      UpdateOwned(s.directory, s.nodes[node].outbox[0]);
  }

  lemma OtherNodes(s: System, l: Label, s': System)
    requires NodesSound(s) && Leads(s, l, s') && !AsksMaster(l)
    ensures NodesSound(s')
  {
    hide OwnsMethod, Owned, React, Matching;
  }

  lemma StepNodes(s: System, l: Label, s': System)
    requires NodesSound(s) && Leads(s, l, s')
    ensures NodesSound(s')
  {
    hide Leads, Owned, Enrolled;
    if AsksMaster(l) {
      MasterOwned(s, l, s');
      forall r | r in s'.nodes
        ensures Enrolled(s'.directory, s'.nodes[r])
      {
        MasterNode(s, l, s', r);
      }
    } else {
      OtherNodes(s, l, s');
    }
  }

  lemma StepConns(s: System, l: Label, s': System)
    requires ConnsSound(s) && Leads(s, l, s')
    ensures ConnsSound(s')
  {
    hide Update, Answer;
  }

  lemma StepCalls(s: System, l: Label, s': System)
    requires CallsSound(s) && Leads(s, l, s')
    ensures CallsSound(s')
  {
    hide Update, Answer, React, Matching;
  }

  lemma StepSound(s: System, l: Label, s': System)
    requires Sound(s) && Leads(s, l, s')
    ensures Sound(s')
  {
    hide NodesSound, ConnsSound, CallsSound, Leads;
    StepNodes(s, l, s');
    StepConns(s, l, s');
    StepCalls(s, l, s');
  }

  lemma {:induction false} RunSound(ss: seq<System>, ls: seq<Label>, k: nat)
    requires IsRun(ss, ls) && k <= |ls|
    ensures Sound(ss[k])
  {
    if k > 0 {
      RunSound(ss, ls, k - 1);
      hide Sound, Leads;
      StepSound(ss[k - 1], ls[k - 1], ss[k]);
    }
  }

  /* ---- Provides ---- */

  // The query the control connection of a waiting node carries.
  function Outstanding(n: Node): Query {
    match n.pending
    case Providing(fn, info) => Query.Provide(n.name, fn, info.types)
    case Locating(request) => FindMethod(request.fn)
    case _ => Nothing
  }

  // Step a is the master's answer to what node is waiting for at step k.
  ghost predicate AnsweredAt(ss: seq<System>, ls: seq<Label>, a: nat, k: nat, node: nat)
    requires |ss| == |ls| + 1 && a < k <= |ls|
  {
    && ls[a] == MasterAnswers(node) && node in ss[a].nodes && node in ss[k].nodes
    && ss[a].nodes[node].pending == ss[k].nodes[node].pending
    && ss[a].nodes[node].outbox == [Outstanding(ss[k].nodes[node])]
    && Owned(ss[a].directory)
    && ss[a + 1].directory == Update(ss[a].directory, Outstanding(ss[k].nodes[node]))
    && ss[k].nodes[node].inbox == Answer(ss[a].directory, Outstanding(ss[k].nodes[node]))
  }

  lemma InboxFilled(s: System, node: nat, s': System)
    requires Leads(s, MasterAnswers(node), s') && NodesSound(s)
    ensures node in s.nodes && node in s'.nodes && Owned(s.directory)
    ensures s.nodes[node].pending == s'.nodes[node].pending
    ensures s.nodes[node].outbox == [Outstanding(s'.nodes[node])]
    ensures s'.directory == Update(s.directory, Outstanding(s'.nodes[node]))
    ensures s'.nodes[node].inbox == Answer(s.directory, Outstanding(s'.nodes[node]))
  {
    hide Update, Answer, Owned, OwnsMethod;
    assert Enrolled(s.directory, s.nodes[node]);
  }

  lemma InboxKept(s: System, l: Label, s': System, node: nat)
    requires Leads(s, l, s') && NodesSound(s) && l != MasterAnswers(node)
    requires node in s'.nodes && s'.nodes[node].inbox != []
    ensures node in s.nodes && s.nodes[node].inbox == s'.nodes[node].inbox
    ensures s.nodes[node].pending == s'.nodes[node].pending && s.nodes[node].name == s'.nodes[node].name
  {
    hide Update, Answer, Owned, React, Matching, OwnsMethod;
    if node in s.nodes {
      assert Enrolled(s.directory, s.nodes[node]);
    }
  }

  // What a node reads from its control connection is the master's answer to its own request.
  lemma {:induction false} AnswerIsOwn(ss: seq<System>, ls: seq<Label>, k: nat, node: nat) returns (a: nat)
    requires IsRun(ss, ls) && k <= |ls| && node in ss[k].nodes && ss[k].nodes[node].inbox != []
    ensures a < k && AnsweredAt(ss, ls, a, k, node)
  {
    hide Leads, Update, Answer, NodesSound, Owned, ConnsSound, CallsSound;
    RunSound(ss, ls, k - 1);
    if ls[k - 1] == MasterAnswers(node) {
      a := k - 1;
      InboxFilled(ss[a], node, ss[k]);
    } else {
      InboxKept(ss[k - 1], ls[k - 1], ss[k], node);
      a := AnswerIsOwn(ss, ls, k - 1, node);
    }
  }

  // Step j is the end of a provide of fn by p that the master has accepted.
  ghost predicate ProvidedAt(ss: seq<System>, ls: seq<Label>, j: nat, p: nat, fn: string)
    requires |ss| == |ls| + 1 && j < |ls|
  {
    && ls[j] == FinishProvide(p) && p in ss[j].nodes
    && ss[j].nodes[p].pending.Providing? && ss[j].nodes[p].pending.fn == fn
    && ss[j].nodes[p].inbox != [] && ss[j].nodes[p].inbox[0] == Accepted
  }

  // The method that p has last had accepted as fn before step k.
  ghost function Provision(ss: seq<System>, ls: seq<Label>, k: nat, p: nat, fn: string): Option<Method>
    requires |ss| == |ls| + 1 && k <= |ls|
  {
    if k == 0 then None
    else if ProvidedAt(ss, ls, k - 1, p, fn) then Some(ss[k - 1].nodes[p].pending.info)
    else Provision(ss, ls, k - 1, p, fn)
  }

  // Main result: an accepted provide was granted by the master when no one had the method, under
  // the name of the provider and with the types of its callback.
  lemma ProvideWasGranted(ss: seq<System>, ls: seq<Label>, j: nat, p: nat, fn: string) returns (a: nat)
    requires IsRun(ss, ls) && j < |ls| && ProvidedAt(ss, ls, j, p, fn)
    ensures a < j && ls[a] == MasterAnswers(p) && fn !in ss[a].directory.methods
    ensures ss[a + 1].directory.methods
      == ss[a].directory.methods[fn := MethodEntry(ss[j].nodes[p].name, ss[j].nodes[p].pending.info.types)]
  {
    hide Leads;
    a := AnswerIsOwn(ss, ls, j, p);
  }

  // Main result: the connection of a call goes to the address of the participant that owned the
  // method when the master answered, and that participant was present.
  lemma DialedProviderWasOwner(ss: seq<System>, ls: seq<Label>, k: nat, node: nat, host: nat, conn: nat)
    returns (a: nat)
    requires IsRun(ss, ls) && k < |ls| && ls[k] == Dial(node, host, conn)
    ensures a < k && ls[a] == MasterAnswers(node) && conn in ss[k + 1].conns && host in ss[k].nodes
    ensures var fn := ss[k + 1].conns[conn].request.fn;
      var d := ss[a].directory;
      && fn in d.methods && d.methods[fn].owner in d.live
      && d.live[d.methods[fn].owner].listening == ss[k].nodes[host].listening
  {
    assert Leads(ss[k], ls[k], ss[k + 1]);
    a := AnswerIsOwn(ss, ls, k, node);
  }

  // Main result: in every run, when a runtime reads that its provide is accepted, it has not provided
  // the method before: an entry for a method is written once.
  lemma ProvidedMethodIsNew(ss: seq<System>, ls: seq<Label>, j: nat, p: nat, fn: string)
    requires IsRun(ss, ls) && j < |ls| && ProvidedAt(ss, ls, j, p, fn)
    ensures fn !in ss[j].nodes[p].methods
  {
    hide Leads, Owned, OwnsMethod, ConnsSound, CallsSound;
    RunSound(ss, ls, j);
    assert Enrolled(ss[j].directory, ss[j].nodes[p]);
    assert ss[j].nodes[p].inbox == [Accepted];
  }

  ghost function TableEntry(s: System, p: nat, fn: string): Option<Method> {
    if p in s.nodes && fn in s.nodes[p].methods then Some(s.nodes[p].methods[fn]) else None
  }

  lemma StepTable(s: System, l: Label, s': System, p: nat, fn: string)
    requires Leads(s, l, s')
    ensures TableEntry(s', p, fn) ==
      if l == FinishProvide(p) && s.nodes[p].pending.fn == fn && s.nodes[p].inbox[0] == Accepted
      then Some(s.nodes[p].pending.info)
      else TableEntry(s, p, fn)
  {
    hide Update, Answer, React, Matching;
  }

  // The table of a provider holds what it has last had accepted.
  lemma {:induction false} TableIsProvisions(ss: seq<System>, ls: seq<Label>, k: nat, p: nat, fn: string)
    requires IsRun(ss, ls) && k <= |ls|
    ensures Provision(ss, ls, k, p, fn) == TableEntry(ss[k], p, fn)
  {
    if k > 0 {
      TableIsProvisions(ss, ls, k - 1, p, fn);
      StepTable(ss[k - 1], ls[k - 1], ss[k], p, fn);
      assert Enabled(ss[k - 1], ls[k - 1]);
      hide Leads, TableEntry;
    }
  }

  lemma {:induction false} ProvisionLasts(ss: seq<System>, ls: seq<Label>, j: nat, k: nat, p: nat, fn: string)
    requires |ss| == |ls| + 1 && j < k <= |ls| && ProvidedAt(ss, ls, j, p, fn)
    ensures Provision(ss, ls, k, p, fn).Some?
  {
    if k > j + 1 {
      ProvisionLasts(ss, ls, j, k - 1, p, fn);
    }
  }

  lemma ProvidedAtMostOnce(ss: seq<System>, ls: seq<Label>, j: nat, k: nat, p: nat, fn: string)
    requires IsRun(ss, ls) && j < k < |ls| && ProvidedAt(ss, ls, j, p, fn)
    ensures !ProvidedAt(ss, ls, k, p, fn)
  {
    hide Leads, Provision;
    ProvisionLasts(ss, ls, j, k, p, fn);
    TableIsProvisions(ss, ls, k, p, fn);
    if ProvidedAt(ss, ls, k, p, fn) {
      ProvidedMethodIsNew(ss, ls, k, p, fn);
    }
  }

  /* ---- Calls ---- */

  // The step at which node has last entered call_method before step k.
  ghost function LastCall(ls: seq<Label>, k: nat, node: nat): (b: Option<nat>)
    requires k <= |ls|
    ensures b.Some? ==> b.value < k && ls[b.value].Call? && ls[b.value].node == node
  {
    if k == 0 then None
    else if ls[k - 1].Call? && ls[k - 1].node == node then Some(k - 1)
    else LastCall(ls, k - 1, node)
  }

  predicate Busy(n: Node) {
    n.pending.Locating? || n.pending.Calling?
  }

  lemma StepCaller(s: System, l: Label, s': System, node: nat)
    requires Leads(s, l, s') && node in s'.nodes && Busy(s'.nodes[node])
    ensures l.Call? && l.node == node ==> s'.nodes[node].pending == Locating(l.request)
    ensures !(l.Call? && l.node == node) ==>
      && node in s.nodes && Busy(s.nodes[node]) && s'.nodes[node].pending.request == s.nodes[node].pending.request
      && (s'.nodes[node].pending.Calling? ==>
            s'.nodes[node].pending == s.nodes[node].pending || s'.nodes[node].pending.conn !in s.conns)
  {
    hide Update, Answer, React, Matching;
  }

  lemma StepKeepsConns(s: System, l: Label, s': System, i: nat)
    requires Leads(s, l, s') && i in s.conns
    ensures i in s'.conns
    ensures s'.conns[i] == s.conns[i] || (l.HandleCall? && l.conn == i)
  {
    hide Update, Answer, React, Matching;
  }

  lemma {:induction false} ConnsStay(ss: seq<System>, ls: seq<Label>, j: nat, k: nat, i: nat)
    requires IsRun(ss, ls) && j <= k <= |ls| && i in ss[j].conns
    ensures i in ss[k].conns
  {
    hide Leads;
    if j < k {
      ConnsStay(ss, ls, j, k - 1, i);
      StepKeepsConns(ss[k - 1], ls[k - 1], ss[k], i);
    }
  }

  // A caller is waiting for what it last called, on a connection made since.
  lemma {:induction false} WaitsForLastCall(ss: seq<System>, ls: seq<Label>, k: nat, node: nat)
    requires IsRun(ss, ls) && k <= |ls| && node in ss[k].nodes && Busy(ss[k].nodes[node])
    ensures var b := LastCall(ls, k, node);
      && b.Some? && ls[b.value].request == ss[k].nodes[node].pending.request
      && (ss[k].nodes[node].pending.Calling? ==> ss[k].nodes[node].pending.conn !in ss[b.value].conns)
  {
    hide Leads;
    StepCaller(ss[k - 1], ls[k - 1], ss[k], node);
    if !(ls[k - 1].Call? && ls[k - 1].node == node) {
      WaitsForLastCall(ss, ls, k - 1, node);
      var b, n := LastCall(ls, k, node).value, ss[k].nodes[node];
      if n.pending.Calling? && n.pending.conn in ss[b].conns {
        ConnsStay(ss, ls, b, k - 1, n.pending.conn);
      }
    }
  }

  ghost predicate Handles(l: Label, i: nat) {
    l.HandleCall? && l.conn == i
  }

  lemma StepHandles(s: System, l: Label, s': System)
    requires Leads(s, l, s') && l.HandleCall?
    ensures l.conn in s.conns && !s.conns[l.conn].handled && l.conn in s'.conns
    ensures var c := s'.conns[l.conn];
      && c.handled && c.provider in s.nodes
      && c.ran == if Matching(s.nodes[c.provider].methods, c.request)
                  then Some(Invocation(s.nodes[c.provider].methods[c.request.fn], l.now)) else None
  {
    hide React, Matching;
  }

  lemma StepConnHistory(s: System, l: Label, s': System, i: nat)
    requires Leads(s, l, s') && i in s'.conns && s'.conns[i].handled && !Handles(l, i)
    ensures i in s.conns && s.conns[i] == s'.conns[i]
  {
    hide Update, Answer, React, Matching;
  }

  lemma {:induction false} UnhandledBefore(ss: seq<System>, ls: seq<Label>, k: nat, i: nat)
    requires IsRun(ss, ls) && k <= |ls| && (i in ss[k].conns ==> !ss[k].conns[i].handled)
    ensures forall h :: 0 <= h < k ==> !Handles(ls[h], i)
  {
    hide Leads;
    if k > 0 {
      if Handles(ls[k - 1], i) {
        StepHandles(ss[k - 1], ls[k - 1], ss[k]);
      } else {
        if i in ss[k - 1].conns {
          StepKeepsConns(ss[k - 1], ls[k - 1], ss[k], i);
        }
        UnhandledBefore(ss, ls, k - 1, i);
      }
    }
  }

  // A call that has been handled was handled once.
  lemma {:induction false} HandledOnce(ss: seq<System>, ls: seq<Label>, k: nat, i: nat) returns (j: nat)
    requires IsRun(ss, ls) && k <= |ls| && i in ss[k].conns && ss[k].conns[i].handled
    ensures j < k && Handles(ls[j], i) && i in ss[j].conns && !ss[j].conns[i].handled
    ensures ss[j + 1].conns.Keys >= {i} && ss[j + 1].conns[i] == ss[k].conns[i]
    ensures forall h :: 0 <= h < k && Handles(ls[h], i) ==> h == j
  {
    hide Leads;
    if Handles(ls[k - 1], i) {
      j := k - 1;
      StepHandles(ss[j], ls[j], ss[k]);
      UnhandledBefore(ss, ls, j, i);
    } else {
      StepConnHistory(ss[k - 1], ls[k - 1], ss[k], i);
      j := HandledOnce(ss, ls, k - 1, i);
    }
  }

  // Main result: a callback runs exactly when the provider has last had accepted a method of that
  // name with both types of the request.
  lemma CallbackRunsExactly(ss: seq<System>, ls: seq<Label>, j: nat)
    requires IsRun(ss, ls) && j < |ls| && ls[j].HandleCall?
    ensures ls[j].conn in ss[j + 1].conns
    ensures var c := ss[j + 1].conns[ls[j].conn];
      var held := Provision(ss, ls, j, c.provider, c.request.fn);
      && (c.ran.Some? <==> held.Some? && held.value.types == c.request.types)
      && (c.ran.Some? ==> c.ran.value == Invocation(held.value, ls[j].now))
  {
    assert Leads(ss[j], ls[j], ss[j + 1]);
    hide Leads, IsRun;
    StepHandles(ss[j], ls[j], ss[j + 1]);
    var c := ss[j + 1].conns[ls[j].conn];
    TableIsProvisions(ss, ls, j, c.provider, c.request.fn);
  }

  // What call_method of node returns at step k: the data to deserialize, or None for false.
  ghost function Returns(s: System, node: nat): Option<Bytes>
    requires Enabled(s, FinishCall(node))
  {
    Outcome(s.conns[s.nodes[node].pending.conn].reply)
  }

  // Main result: over every run, if call_method returns true, then since it was entered exactly
  // one handler has taken its request, at a provider that had last had accepted a method of that
  // name with both its types; and the response is what that method's callback returned for it.
  lemma CallIsCorrect(ss: seq<System>, ls: seq<Label>, k: nat, node: nat) returns (j: nat)
    requires IsRun(ss, ls) && k < |ls| && ls[k] == FinishCall(node)
    requires Enabled(ss[k], ls[k]) && Returns(ss[k], node).Some?
    ensures var i := ss[k].nodes[node].pending.conn;
      var c := ss[k].conns[i];
      var b := LastCall(ls, k, node);
      && b.Some? && ls[b.value].request == c.request
      && b.value < j < k && Handles(ls[j], i)
      && (forall h :: 0 <= h < k && Handles(ls[h], i) ==> h == j)
      && var held := Provision(ss, ls, j, c.provider, c.request.fn);
         && held.Some? && held.value.types == c.request.types
         && Returns(ss[k], node) == Some(held.value.callback(ls[j].now, c.request.data))
  {
    hide Leads, NodesSound, Owned;
    var i := ss[k].nodes[node].pending.conn;
    var c := ss[k].conns[i];
    RunSound(ss, ls, k);
    assert ConnSound(c);
    hide ConnsSound;
    WaitsForLastCall(ss, ls, k, node);
    j := HandledOnce(ss, ls, k, i);
    CallbackRunsExactly(ss, ls, j);
    var b := LastCall(ls, k, node).value;
    if j <= b {
      ConnsStay(ss, ls, j, b, i);
    }
  }

  // Main result, with types: whatever has been provided and called before, if the method that
  // took the call is a typed callback, the response object of a call that returns true holds what
  // the callback gave for the request, both carried through their text; if caller and provider
  // mean the same message types and these can be read back, the callback's own response.
  lemma TypedCallIsCorrect<Q(!new), R(!new)>(
    ss: seq<System>, ls: seq<Label>, k: nat, node: nat,
    fn: string, sent: Codec<Q>, expected: Codec<R>, value: Q,
    taken: Codec<Q>, given: Codec<R>, callback: (nat, Q) -> R) returns (j: nat)
    requires IsRun(ss, ls) && k < |ls| && ls[k] == FinishCall(node)
    requires Enabled(ss[k], ls[k]) && Returns(ss[k], node).Some?
    requires LastCall(ls, k, node).Some? ==>
      ls[LastCall(ls, k, node).value].request == TypedRequest(fn, sent, expected, value)
    ensures j < k && Handles(ls[j], ss[k].nodes[node].pending.conn)
    ensures var c := ss[k].conns[ss[k].nodes[node].pending.conn];
      var response := expected.deserialize(Returns(ss[k], node).value);
      Provision(ss, ls, j, c.provider, fn) == Some(Holder(taken, given, callback)) ==>
        && sent.id == taken.id && expected.id == given.id
        && response == expected.deserialize(
             given.serialize(callback(ls[j].now, taken.deserialize(sent.serialize(value)))))
        && (sent == taken && expected == given && RoundTrips(sent) && RoundTrips(expected) ==>
              response == callback(ls[j].now, value))
  {
    j := CallIsCorrect(ss, ls, k, node);
    var c := ss[k].conns[ss[k].nodes[node].pending.conn];
    hide Leads, Provision, Step, Outcome;
    assert c.request == TypedRequest(fn, sent, expected, value);
  }

  /* ---- Calls come to an end ---- */

  // Main result: a call that has been handled has a reply, unless it was lost on the way: what the
  // callback returned, exactly if the provider has a method of that name with both types, and a
  // refusal otherwise.
  lemma HandledHasReply(s: System, conn: nat, now: nat, lost: bool, s': System)
    requires Leads(s, HandleCall(conn, now, lost), s')
    ensures conn in s'.conns && s'.conns[conn].handled && s'.conns[conn].provider in s.nodes
    ensures lost <==> s'.conns[conn].reply == None
    ensures var c := s'.conns[conn];
      var methods := s.nodes[c.provider].methods;
      !lost ==>
        if c.request.fn in methods && methods[c.request.fn].types == c.request.types
        then c.reply == Some(Returned(methods[c.request.fn].callback(now, c.request.data)))
        else c.reply == Some(Refused)
  {
  }

  lemma GivingUpReturns(s: System, r: nat)
    requires r in s.nodes
    requires s.nodes[r].pending.Calling? || (s.nodes[r].pending.Locating? && s.nodes[r].inbox != [])
    ensures Enabled(s, GiveUp(r)) && r in Step(s, GiveUp(r)).nodes && Step(s, GiveUp(r)).nodes[r].pending.Idle?
  {
  }

  /* ---- Calls can succeed ---- */

  // The stations of a call: asked, answered, dialed, handled.
  function Asked(s: System, r: nat, request: Request): System
    requires r in s.nodes
  {
    WithNode(s, r, s.nodes[r].(pending := Locating(request), outbox := [FindMethod(request.fn)]))
  }

  function Found(s: System, r: nat, request: Request, owner: string, at: Address): System
    requires r in s.nodes
  {
    WithNode(s, r, s.nodes[r].(pending := Locating(request), inbox := [Located(owner, at)]))
  }

  function Dialed(s: System, r: nat, request: Request, host: nat, conn: nat): System
    requires r in s.nodes
  {
    WithNode(s.(conns := s.conns[conn := Conn(r, host, request, false, None, None)]), r,
             s.nodes[r].(pending := Calling(request, conn)))
  }

  // The caller is present and idle, and the method is that of a present participant at host.
  ghost predicate CanCall(s: System, r: nat, request: Request, host: nat) {
    && r in s.nodes && s.nodes[r].standing.Member? && s.nodes[r].pending.Idle?
    && s.nodes[r].outbox == [] && s.nodes[r].inbox == [] && host in s.nodes && Owned(s.directory)
    && request.fn in s.directory.methods && s.directory.methods[request.fn].owner in s.directory.live
    && s.directory.live[s.directory.methods[request.fn].owner].listening == s.nodes[host].listening
  }

  lemma CallLeads(s: System, r: nat, request: Request, host: nat)
    requires CanCall(s, r, request, host)
    ensures Leads(s, Call(r, request), Asked(s, r, request))
  {
    hide Owned;
    assert s.nodes[r].outbox + [FindMethod(request.fn)] == [FindMethod(request.fn)];
  }

  lemma AnswerLeads(s: System, r: nat, request: Request, host: nat)
    requires CanCall(s, r, request, host)
    ensures var owner := s.directory.methods[request.fn].owner;
      Leads(Asked(s, r, request), MasterAnswers(r), Found(s, r, request, owner, s.nodes[host].listening))
  {
    hide Owned;
    var owner := s.directory.methods[request.fn].owner;
    var verdict := Located(owner, s.nodes[host].listening);
    var before, after := Asked(s, r, request), Found(s, r, request, owner, s.nodes[host].listening);
    assert before.nodes[r].outbox[1..] == [] && before.nodes[r].inbox + [verdict] == [verdict];
    assert before.nodes[r := after.nodes[r]] == after.nodes;
  }

  lemma DialLeads(s: System, r: nat, request: Request, host: nat, conn: nat)
    requires CanCall(s, r, request, host) && conn !in s.conns
    ensures var owner := s.directory.methods[request.fn].owner;
      Leads(Found(s, r, request, owner, s.nodes[host].listening),
            Dial(r, host, conn), Dialed(s, r, request, host, conn))
  {
    hide Owned;
    var owner := s.directory.methods[request.fn].owner;
    var before, after := Found(s, r, request, owner, s.nodes[host].listening), Dialed(s, r, request, host, conn);
    assert before.nodes[r].inbox[1..] == [];
    assert before.nodes[r := after.nodes[r]] == after.nodes;
  }

  lemma OneMore(ss: seq<System>, ls: seq<Label>, l: Label, s': System)
    requires IsRun(ss, ls) && Leads(ss[|ls|], l, s')
    ensures IsRun(ss + [s'], ls + [l]) && (ss + [s'])[|ls + [l]|] == s'
  {
    hide Leads;
  }

  lemma Joined(ss: seq<System>, ls: seq<Label>, more: seq<Label>, states: seq<System>)
    requires IsRun(ss, ls) && |more| == |states| == 4
    requires Leads(ss[|ls|], more[0], states[0]) && Leads(states[0], more[1], states[1])
    requires Leads(states[1], more[2], states[2]) && Leads(states[2], more[3], states[3])
    ensures IsRun(ss + states, ls + more) && (ss + states)[|ls + more|] == states[3]
  {
    hide Leads;
    OneMore(ss, ls, more[0], states[0]);
    OneMore(ss + [states[0]], ls + [more[0]], more[1], states[1]);
    OneMore(ss + [states[0]] + [states[1]], ls + [more[0]] + [more[1]], more[2], states[2]);
    OneMore(ss + [states[0]] + [states[1]] + [states[2]], ls + [more[0]] + [more[1]] + [more[2]], more[3], states[3]);
    assert ss + [states[0]] + [states[1]] + [states[2]] + [states[3]] == ss + states;
    assert ls + [more[0]] + [more[1]] + [more[2]] + [more[3]] == ls + more;
  }

  // Main result: after every run, a present and idle runtime can call a method whose owner is present:
  // some continuation returns the output of the callback on its data, if the provider has that method
  // with both types, and false otherwise.
  lemma CallCanReturn(ss: seq<System>, ls: seq<Label>, r: nat, request: Request, host: nat, conn: nat, now: nat)
    returns (more: seq<Label>, states: seq<System>)
    requires IsRun(ss, ls) && CanCall(ss[|ls|], r, request, host) && conn !in ss[|ls|].conns
    ensures IsRun(ss + states, ls + more) && Enabled((ss + states)[|ls + more|], FinishCall(r))
    ensures var methods := ss[|ls|].nodes[host].methods;
      Returns((ss + states)[|ls + more|], r) ==
        if request.fn in methods && methods[request.fn].types == request.types
        then Some(methods[request.fn].callback(now, request.data)) else None
    ensures var end := Step((ss + states)[|ls + more|], FinishCall(r));
      r in end.nodes && end.nodes[r].pending.Idle?
  {
    var s := ss[|ls|];
    var owner := s.directory.methods[request.fn].owner;
    var s1, s2 := Asked(s, r, request), Found(s, r, request, owner, s.nodes[host].listening);
    var s3 := Dialed(s, r, request, host, conn);
    var s4 := Step(s3, HandleCall(conn, now, false));
    CallLeads(s, r, request, host);
    AnswerLeads(s, r, request, host);
    DialLeads(s, r, request, host, conn);
    assert Leads(s3, HandleCall(conn, now, false), s4);
    HandledHasReply(s3, conn, now, false, s4);
    states := [s1, s2, s3, s4];
    more := [Call(r, request), MasterAnswers(r), Dial(r, host, conn), HandleCall(conn, now, false)];
    Joined(ss, ls, more, states);
  }
}
