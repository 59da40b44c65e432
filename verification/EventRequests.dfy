// The requester thread of a runtime: whatever it waits for, the system can let it go on.
module EventRequests {
  import opened Common
  import opened Directory
  import opened PollTable
  import opened Framing
  import opened Payload
  import opened Runtime
  import opened EventSystem
  import opened EventInvariant
  import opened EventMembership

  // A continuation of a run.
  ghost predicate Continues(ss: seq<System>, ls: seq<Label>, more: seq<Label>, states: seq<System>) {
    IsRun(ss, ls) && IsRun(ss + states, ls + more) && |states| == |more|
  }

  lemma OneMore(ss: seq<System>, ls: seq<Label>, l: Label) returns (states: seq<System>)
    requires IsRun(ss, ls) && Enabled(ss[|ls|], l)
    ensures Continues(ss, ls, [l], states) && states == [Step(ss[|ls|], l)]
  {
    states := [Step(ss[|ls|], l)];
    assert Leads(ss[|ls|], l, states[0]);
    hide Leads, Step, Enabled;
  }

  lemma AndMore(ss: seq<System>, ls: seq<Label>, more: seq<Label>, states: seq<System>,
                more': seq<Label>, states': seq<System>)
    requires Continues(ss, ls, more, states) && Continues(ss + states, ls + more, more', states')
    ensures Continues(ss, ls, more + more', states + states')
  {
    hide Leads;
    assert ss + states + states' == ss + (states + states') && ls + more + more' == ls + (more + more');
  }

  ghost predicate Idles(ss: seq<System>, states: seq<System>, r: nat)
    requires |ss + states| > 0
  {
    var s := (ss + states)[|ss + states| - 1];
    r in s.nodes && s.nodes[r].pending.Idle?
  }

  // The answer is there, or will never come.
  predicate Concluding(s: System, r: nat)
    requires r in s.nodes
  {
    match s.nodes[r].pending
    case Idle => false
    case Contacting(i, _) =>
      && i in s.conns
      && (s.conns[i].stage.Answered? || (s.conns[i].stage.Requested? && s.conns[i].publisher !in s.nodes))
    case _ => s.nodes[r].inbox != []
  }

  // The step brings the requester back to its caller.
  ghost predicate BringsBack(s: System, l: Label, r: nat) {
    Enabled(s, l) && r in Step(s, l).nodes && Step(s, l).nodes[r].pending.Idle?
  }

  lemma AnsweredReturns(s: System, r: nat)
    requires r in s.nodes && s.nodes[r].inbox != []
    ensures s.nodes[r].pending.Advertising? ==> BringsBack(s, FinishAdvertise(r), r)
    ensures s.nodes[r].pending.Locating? ==> BringsBack(s, GiveUp(r), r)
  {
    hide Decode;
  }

  lemma AnswerIsThere(s: System, i: nat)
    requires Sound(s) && i in s.conns && s.conns[i].subscriber in s.nodes
    ensures s.conns[i].stage.Answered? ==> Decode(s.conns[i].stream).Some?
    ensures s.conns[i].stage.Requested? ==> Decode(s.conns[i].stream).None?
  {
    ConnOf(s, i);
    hide Sound, Decode, ReplyBody;
    var c := s.conns[i];
    if c.stage.Answered? {
      FinishedConn(c, LogOf(s, c));
    } else if c.stage.Requested? {
      RequestedIsUnsent(c, LogOf(s, c), true);
      NothingDecodes();
    }
  }

  lemma FinishReturns(s: System, r: nat)
    requires Enabled(s, FinishSubscribe(r))
    ensures BringsBack(s, FinishSubscribe(r), r)
  {
    hide Decode, ReplyBody;
  }

  lemma GivingUpReturns(s: System, r: nat)
    requires Enabled(s, GiveUp(r))
    ensures BringsBack(s, GiveUp(r), r)
  {
    hide Decode;
  }

  lemma ContactReturns(s: System, r: nat) returns (l: Label)
    requires Sound(s) && r in s.nodes && s.nodes[r].pending.Contacting? && Concluding(s, r)
    ensures BringsBack(s, l, r)
  {
    hide BringsBack, Step, Decode, ConnsSound, ClientsSound, SubscriptionsSound, TornSound;
    ThreadsOf(s, r, s.nodes[r].pending.conn);
    hide Sound;
    AnswerIsThere(s, s.nodes[r].pending.conn);
    if s.conns[s.nodes[r].pending.conn].stage.Answered? {
      l := FinishSubscribe(r);
      FinishReturns(s, r);
    } else {
      l := GiveUp(r);
      GivingUpReturns(s, r);
    }
  }

  lemma Concludes(ss: seq<System>, ls: seq<Label>, r: nat) returns (more: seq<Label>, states: seq<System>)
    requires IsRun(ss, ls) && r in ss[|ls|].nodes && Concluding(ss[|ls|], r)
    ensures Continues(ss, ls, more, states) && Idles(ss, states, r)
  {
    hide Leads, Sound, Step, Enabled;
    var s := ss[|ls|];
    RunSound(ss, ls, |ls|);
    var l;
    if s.nodes[r].pending.Contacting? {
      l := ContactReturns(s, r);
    } else {
      AnsweredReturns(s, r);
      l := if s.nodes[r].pending.Advertising? then FinishAdvertise(r) else GiveUp(r);
    }
    more := [l];
    states := OneMore(ss, ls, l);
  }

  lemma MasterCanAnswer(s: System, r: nat)
    requires Owned(s.directory) && r in s.nodes && Enrolled(s.directory, s.nodes[r])
    requires s.nodes[r].standing.Member? && s.nodes[r].inbox == []
    requires s.nodes[r].pending.Advertising? || s.nodes[r].pending.Locating?
    ensures Enabled(s, MasterAnswers(r))
    ensures r in Step(s, MasterAnswers(r)).nodes && Concluding(Step(s, MasterAnswers(r)), r)
  {
    hide Owned, OwnsTopic, Update;
  }

  lemma PublisherCanAnswer(s: System, r: nat, i: nat)
    requires r in s.nodes && s.nodes[r].pending.Contacting? && s.nodes[r].pending.conn == i
    requires i in s.conns && s.conns[i].stage.Requested? && s.conns[i].publisher in s.nodes
    ensures Enabled(s, AcceptSubscriber(i))
    ensures r in Step(s, AcceptSubscriber(i)).nodes && Concluding(Step(s, AcceptSubscriber(i)), r)
  {
    hide Encode, Judge, Published;
  }

  lemma ContactAwaits(s: System, r: nat)
    requires Sound(s) && r in s.nodes && s.nodes[r].pending.Contacting?
    ensures s.nodes[r].pending.conn in s.conns && Awaited(s.conns[s.nodes[r].pending.conn].stage)
  {
    hide ConnsSound, ClientsSound, SubscriptionsSound, TornSound;
    ThreadsOf(s, r, s.nodes[r].pending.conn);
  }

  // What somebody else has to do first: the master, or the publisher.
  lemma WaitsFor(ss: seq<System>, ls: seq<Label>, r: nat) returns (l: Option<Label>)
    requires IsRun(ss, ls) && r in ss[|ls|].nodes
    requires ss[|ls|].nodes[r].standing.Member? && !ss[|ls|].nodes[r].pending.Idle?
    ensures l.None? ==> Concluding(ss[|ls|], r)
    ensures l.Some? ==>
      && Enabled(ss[|ls|], l.value)
      && r in Step(ss[|ls|], l.value).nodes && Concluding(Step(ss[|ls|], l.value), r)
  {
    hide Leads, Sound, Enrolled, Owned, Enabled, Step;
    var s := ss[|ls|];
    RunSound(ss, ls, |ls|);
    RunEnrolled(ss, ls, |ls|);
    var n := s.nodes[r];
    l := None;
    if n.pending.Contacting? {
      ContactAwaits(s, r);
      if s.conns[n.pending.conn].stage.Requested? && s.conns[n.pending.conn].publisher in s.nodes {
        PublisherCanAnswer(s, r, n.pending.conn);
        l := Some(AcceptSubscriber(n.pending.conn));
      }
    } else if n.inbox == [] {
      MasterCanAnswer(s, r);
      l := Some(MasterAnswers(r));
    }
  }

  // Main result: in every run, the requester thread of a runtime that the master has not removed can
  // come back to its caller: the master can answer, the publisher can answer, and what comes back
  // can be read.
  lemma RequesterReturns(ss: seq<System>, ls: seq<Label>, r: nat) returns (more: seq<Label>, states: seq<System>)
    requires IsRun(ss, ls) && r in ss[|ls|].nodes && ss[|ls|].nodes[r].standing.Member?
    ensures Continues(ss, ls, more, states) && Idles(ss, states, r)
  {
    hide Leads, Step, Enabled;
    var s := ss[|ls|];
    var n := s.nodes[r];
    if n.pending.Idle? {
      more, states := [], [];
      assert ss + [] == ss && ls + [] == ls;
    } else {
      var l := WaitsFor(ss, ls, r);
      if l.None? {
        more, states := Concludes(ss, ls, r);
      } else {
        var first := OneMore(ss, ls, l.value);
        assert (ss + first)[|ls + [l.value]|] == first[0];
        var last, end := Concludes(ss + first, ls + [l.value], r);
        AndMore(ss, ls, [l.value], first, last, end);
        more, states := [l.value] + last, first + end;
        assert ss + first + end == ss + (first + end);
      }
    }
  }
}
