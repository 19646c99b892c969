/**
  The messages a member passes on, over every run: what comes from the group goes to the component, what the component
  publishes goes to the group, requests and ballots go to the leader, and every command of the component is answered,
  each once and in order.
 */
module GroupTraffic {
  import opened Wrappers
  import opened OrderedDict
  import opened GroupModel
  import opened GroupNode
  import opened GroupSystem

  // ---------------------------------------------------------------- the traffic in histories

  /** What the component is told besides changes of the group: messages of the group and answers to its commands. */
  ghost function Business(notes: seq<Note>): seq<Note> {
    if notes == [] then []
    else
      var x := notes[|notes| - 1];
      Business(notes[..|notes| - 1]) + if x.Forwarded? || x.Ack? || x.NoLeader? then [x] else []
  }

  /** What the group is sent on behalf of components: published messages and requests for votes. */
  ghost function Errands(pub: seq<Msg>): seq<Msg> {
    if pub == [] then []
    else
      var x := pub[|pub| - 1];
      Errands(pub[..|pub| - 1]) + if x.Data? || x.Rcm? then [x] else []
  }

  lemma BusinessMore(notes: seq<Note>, x: Note)
    ensures Business(notes + [x]) == Business(notes) + if x.Forwarded? || x.Ack? || x.NoLeader? then [x] else []
  {
    assert (notes + [x])[..|notes|] == notes;
  }

  lemma ErrandsMore(pub: seq<Msg>, x: Msg)
    ensures Errands(pub + [x]) == Errands(pub) + if x.Data? || x.Rcm? then [x] else []
  {
    assert (pub + [x])[..|pub|] == pub;
  }

  // ---------------------------------------------------------------- what a turn should add

  /** A request allows the time it names, or the consensus timeout in seconds if it names none. */
  ghost predicate InTime(p: Params, r: Request, at: Time) {
    at - r.started <= if r.timeout != 0 then r.timeout else p.consensusTimeout * 1_000_000
  }

  ghost function Answered(n: Node, c: Command): seq<Note> {
    match c
    case Publish => [Ack]
    case AskVote(_, _) => if n.leader.None? then [NoLeader] else [Ack]
    case CastVote(_, _, _) => if n.leader.None? then [NoLeader] else [Ack]
    case LeaveGroup => []
  }

  ghost function Passed(m: Msg): seq<Note> {
    if m.Data? || m.Rcm? || m.Ann? then [Forwarded(m)] else []
  }

  ghost function BusinessOf(n: Node, ev: Event): seq<Note> {
    if ev.Timeout? then []
    else (if ev.command.Some? then Answered(n, ev.command.value) else []) + if ev.net.Some? then Passed(ev.net.value) else []
  }

  ghost function Requested(p: Params, r: Request, at: Time): seq<Msg> {
    if InTime(p, r, at) then [Rcm(r.id)] else []
  }

  ghost function ErrandsOf(p: Params, n: Node, ev: Event): seq<Msg> {
    if ev.Timeout? then []
    else
      (match ev.command
       case Some(Publish) => [Data]
       case Some(AskVote(r, at)) => if n.leader == Some(p.ownId) then Requested(p, r, at) else []
       case _ => [])
      + match ev.ask
        case Some(AskPoll(r, at)) => Requested(p, r, at)
        case _ => []
  }

  /** Requests and ballots go to the leader if it is another member and its answer port is known. */
  ghost function AsksOf(p: Params, n: Node, ev: Event): seq<Ask> {
    if ev.Timeout? || n.leader.None? || n.leader == Some(p.ownId) || n.link.host.None? || n.link.port.None? then []
    else
      match ev.command
      case Some(AskVote(r, at)) => [AskPoll(r, at)]
      case Some(CastVote(id, yes, at)) => [AskBallot(id, yes, at)]
      case _ => []
  }

  // ---------------------------------------------------------------- one handler at a time

  ghost predicate Adds(a: Node, b: Node, notes: seq<Note>, pub: seq<Msg>, asks: seq<Ask>) {
    Business(b.notes) == Business(a.notes) + notes && Errands(b.pub) == Errands(a.pub) + pub && b.asked == a.asked + asks
  }

  lemma AddsNothingTwice(a: Node, b: Node, c: Node)
    requires Adds(a, b, [], [], []) && Adds(b, c, [], [], [])
    ensures Adds(a, c, [], [], [])
  {
    hide Business, Errands;
  }

  lemma {:induction false} LeavingIsNoBusiness(notes: seq<Note>, ids: seq<Id>)
    ensures Business(notes + LeftNotes(ids)) == Business(notes)
    decreases |ids|
  {
    hide Business;
    if ids == [] {
      assert notes + LeftNotes(ids) == notes;
    } else {
      BusinessMore(notes, Left(ids[0]));
      LeavingIsNoBusiness(notes + [Left(ids[0])], ids[1..]);
      assert notes + LeftNotes(ids) == notes + [Left(ids[0])] + LeftNotes(ids[1..]);
    }
  }

  lemma {:induction false} AnnouncingIsNoErrand(pub: seq<Msg>, more: seq<Msg>)
    requires forall i :: 0 <= i < |more| ==> more[i].Ann?
    ensures Errands(pub + more) == Errands(pub)
    decreases |more|
  {
    hide Errands;
    if more == [] {
      assert pub + more == pub;
    } else {
      ErrandsMore(pub, more[0]);
      AnnouncingIsNoErrand(pub + [more[0]], more[1..]);
      assert pub + more == pub + [more[0]] + more[1..];
    }
  }

  lemma PrologueAdds(p: Params, n: Node, now: Time)
    ensures Adds(n, Beat(p, n, now), [], [], []) && Adds(n, UpdatePeers(p, n, now), [], [], [])
    ensures Adds(n, CheckAllPolls(n, now), [], [], [])
  {
    hide Business, Errands, StaleIds, Fresh, Announcements, Open;
    ErrandsMore(n.pub, Heartbeat(p.ownId));
    LeavingIsNoBusiness(n.notes, StaleIds(p, n.peers, now));
    AnnouncementsAreQuiet(n.polls, now);
    var more := Announcements(n.polls, now);
    assert forall i :: 0 <= i < |more| ==> more[i] in more;
    AnnouncingIsNoErrand(n.pub, more);
  }

  lemma ExitIsNoBusiness(leader: Option<Id>, notes: seq<Note>)
    ensures Business(WithExit(leader, notes)) == Business(notes)
  {
    hide Business;
    if leader.Some? { BusinessMore(notes, Exited(leader.value)); }
  }

  /** Election messages are nobody's errands, and news of an election is no answer. */
  lemma ElectionAdds(p: Params, n: Node, m: Msg, e: Env)
    ensures Adds(n, ElectionHears(p, n, m, e), [], [], [])
  {
    hide Business, Errands, UpdateLink, WithExit;
    ExitIsNoBusiness(n.leader, n.notes);
    BusinessMore(n.notes, Elected(p.ownId));
    if m.Authority? { BusinessMore(n.notes, Elected(m.node)); }
    if m.ReqVote? {
      ErrandsMore(n.pub, RspVote(m.term, m.node, Grants(n, m.term, m.node), p.ownId));
      ErrandsMore(n.pub, RspVote(m.term, m.node, true, p.ownId));
      ErrandsMore(n.pub, RspVote(m.term, m.node, false, p.ownId));
    }
    ErrandsMore(n.pub, Authority(n.term, p.ownId, p.host, e.freshPort));
  }

  lemma TimeoutAdds(p: Params, n: Node, e: Env)
    requires n.role.Leader? ==> n.ldrPort.Some?
    ensures Adds(n, OnTimeout(p, n, e), [], [], [])
  {
    hide Business, Errands, UpdateLink, WithExit;
    ExitIsNoBusiness(n.leader, n.notes);
    ErrandsMore(n.pub, ReqVote(n.term + 1, p.ownId));
    if n.role.Leader? { ErrandsMore(n.pub, Authority(n.term, p.ownId, p.host, n.ldrPort.value)); }
  }

  lemma NetAdds(p: Params, n: Node, m: Msg, e: Env)
    ensures Adds(n, HandleNet(p, n, m, e), Passed(m), [], [])
  {
    hide Business, Errands, ElectionHears, Put, Remove, Keys;
    BusinessMore(n.notes, Forwarded(m));
    ElectionAdds(p, n, m, e);
    match m
    case Leave(who) =>
      BusinessMore(n.notes, Left(who));
      ElectionAdds(p, Forget(n, who), m, e);
    case Heartbeat(who) => BusinessMore(n.notes, Joined(who));
    case _ =>
  }

  lemma PollAdds(p: Params, n: Node, r: Request, at: Time)
    ensures Adds(n, OpenPoll(p, n, r, at), [], Requested(p, r, at), [])
  {
    hide Business, Errands, Put;
    ErrandsMore(n.pub, Rcm(r.id));
    ErrandsMore(n.pub, Ann(r.id, TimedOut));
  }

  lemma BallotAdds(n: Node, id: RequestId, yes: bool, at: Time)
    ensures Adds(n, UpdatePoll(n, id, yes, at), [], [], [])
  {
    hide Business, Errands, Remove, Judge, Count;
    forall x: RequestId, v: Verdict ensures Errands(n.pub + [Ann(x, v)]) == Errands(n.pub) { ErrandsMore(n.pub, Ann(x, v)); }
  }

  lemma AskAdds(p: Params, n: Node, a: Ask)
    ensures Adds(n, HandleAsk(p, n, a), [], if a.AskPoll? then Requested(p, a.request, a.at) else [], [])
  {
    hide OpenPoll, UpdatePoll, Adds;
    match a
    case AskPoll(r, at) => PollAdds(p, n, r, at);
    case AskBallot(id, yes, at) => BallotAdds(n, id, yes, at);
  }

  lemma AckAdds(n: Node)
    ensures Adds(n, Acked(n), [Ack], [], [])
  {
    hide Business, Errands;
    BusinessMore(n.notes, Ack);
  }

  lemma CommandAdds(p: Params, n: Node, c: Command)
    ensures var ev := Ready(Some(c), None, None);
            Adds(n, HandleCommand(p, n, c), Answered(n, c), ErrandsOf(p, n, ev), AsksOf(p, n, ev))
  {
    hide Business, Errands, OpenPoll, UpdatePoll, Requested;
    AckAdds(n);
    BusinessMore(n.notes, NoLeader);
    BusinessMore(n.notes, Ack);
    ErrandsMore(n.pub, Data);
    ErrandsMore(n.pub, Leave(p.ownId));
    match c
    case AskVote(r, at) =>
      PollAdds(p, Acked(n), r, at);
    case CastVote(id, yes, at) =>
      BallotAdds(n, id, yes, at);
      AckAdds(UpdatePoll(n, id, yes, at));
    case _ =>
  }

  // ---------------------------------------------------------------- turns and runs

  lemma SameAdds(p: Params, n: Node, m: Node, ev: Event)
    requires SameElection(n, m)
    ensures BusinessOf(n, ev) == BusinessOf(m, ev) && ErrandsOf(p, n, ev) == ErrandsOf(p, m, ev) && AsksOf(p, n, ev) == AsksOf(p, m, ev)
  {
  }

  lemma NothingAdded(n: Node)
    ensures Adds(n, n, [], [], [])
  {
    hide Business, Errands;
  }

  /** A turn passes on exactly what it should, in order. */
  lemma TurnAdds(p: Params, n: Node, ev: Event, e: Env)
    requires n.role.Leader? ==> n.ldrPort.Some?
    ensures Adds(n, Turn(p, n, ev, e), BusinessOf(n, ev), ErrandsOf(p, n, ev), AsksOf(p, n, ev))
  {
    var b := Beat(p, n, e.now);
    var m := UpdatePeers(p, b, e.now);
    PrologueAdds(p, n, e.now);
    PrologueAdds(p, b, e.now);
    UpdatePeersSkipsElection(p, b, e.now);
    SameAdds(p, n, m, ev);
    assert Adds(n, m, [], [], []) by { AddsNothingTwice(n, b, m); }
    hide Adds, UpdatePeers, Beat, CheckAllPolls, OnTimeout, HandleCommand, HandleNet, HandleAsk;
    match ev
    case Timeout =>
      UpdatePeersSkipsElection(p, m, e.now);
      var m1 := UpdatePeers(p, m, e.now);
      TimeoutTurnAdds(p, n, m, e);
    case Ready(c, net, a) => ReadyTurnAdds(p, n, m, c, net, a, e);
  }

  lemma TimeoutTurnAdds(p: Params, n: Node, m: Node, e: Env)
    requires Adds(n, m, [], [], []) && (m.role.Leader? ==> m.ldrPort.Some?)
    ensures Adds(n, HandleTimeout(p, m, e), [], [], [])
  {
    var m1 := UpdatePeers(p, m, e.now);
    var m2 := CheckAllPolls(m1, e.now);
    UpdatePeersSkipsElection(p, m, e.now);
    PrologueAdds(p, m, e.now);
    PrologueAdds(p, m1, e.now);
    TimeoutAdds(p, m2, e);
    hide Adds, UpdatePeers, OnTimeout;
    AddsNothingTwice(n, m, m1);
    AddsNothingTwice(n, m1, m2);
    AddsNothingTwice(n, m2, OnTimeout(p, m2, e));
  }

  lemma CommandPart(p: Params, n: Node, c: Option<Command>)
    ensures var ev := Ready(c, None, None);
            Adds(n, AfterCommand(p, n, c), BusinessOf(n, ev), ErrandsOf(p, n, ev), AsksOf(p, n, ev))
  {
    NothingAdded(n);
    if c.Some? { CommandAdds(p, n, c.value); }
    hide Adds, HandleCommand;
  }

  lemma NetPart(p: Params, n: Node, m: Node, net: Option<Msg>, e: Env)
    ensures Adds(n, AfterNet(p, n, net, e), BusinessOf(m, Ready(None, net, None)), [], [])
  {
    NothingAdded(n);
    if net.Some? { NetAdds(p, n, net.value, e); }
    hide Adds, HandleNet, Passed;
  }

  lemma AskPart(p: Params, n: Node, m: Node, a: Option<Ask>)
    ensures Adds(n, AfterAsk(p, n, a), [], ErrandsOf(p, m, Ready(None, None, a)), [])
  {
    NothingAdded(n);
    if a.Some? { AskAdds(p, n, a.value); }
    hide Adds, HandleAsk, Requested;
  }

  lemma ReadyParts(p: Params, n: Node, c: Option<Command>, net: Option<Msg>, a: Option<Ask>)
    ensures var ev, ev1 := Ready(c, net, a), Ready(c, None, None);
            && BusinessOf(n, ev) == BusinessOf(n, ev1) + BusinessOf(n, Ready(None, net, None))
            && ErrandsOf(p, n, ev) == ErrandsOf(p, n, ev1) + ErrandsOf(p, n, Ready(None, None, a))
            && AsksOf(p, n, ev) == AsksOf(p, n, ev1)
  {
    hide Answered, Passed, Requested;
  }

  lemma AddsAll(
      n: Node, m: Node, m1: Node, m2: Node, m3: Node,
      n1: seq<Note>, p1: seq<Msg>, a1: seq<Ask>, n2: seq<Note>, p2: seq<Msg>)
    requires Adds(n, m, [], [], []) && Adds(m, m1, n1, p1, a1) && Adds(m1, m2, n2, [], []) && Adds(m2, m3, [], p2, [])
    ensures Adds(n, m3, n1 + n2, p1 + p2, a1)
  {
    hide Business, Errands;
  }

  lemma ReadyTurnAdds(p: Params, n: Node, m: Node, c: Option<Command>, net: Option<Msg>, a: Option<Ask>, e: Env)
    requires Adds(n, m, [], [], [])
    ensures var ev := Ready(c, net, a);
            Adds(n, AfterAsk(p, AfterNet(p, AfterCommand(p, m, c), net, e), a), BusinessOf(m, ev), ErrandsOf(p, m, ev), AsksOf(p, m, ev))
  {
    hide *;
    var ev1 := Ready(c, None, None);
    var m1 := AfterCommand(p, m, c);
    var m2 := AfterNet(p, m1, net, e);
    CommandPart(p, m, c);
    NetPart(p, m1, m, net, e);
    AskPart(p, m2, m, a);
    ReadyParts(p, m, c, net, a);
    AddsAll(n, m, m1, m2, AfterAsk(p, m2, a), BusinessOf(m, ev1), ErrandsOf(p, m, ev1), AsksOf(p, m, ev1),
            BusinessOf(m, Ready(None, net, None)), ErrandsOf(p, m, Ready(None, None, a)));
  }

  ghost function AllBusiness(p: Params, e0: Env, run: seq<Input>): seq<Note>
    requires Possible(p, e0, run)
    decreases |run|
  {
    if run == [] then []
    else
      var front := run[..|run| - 1];
      AllBusiness(p, e0, front) + BusinessOf(Run(p, e0, front), run[|run| - 1].ev)
  }

  ghost function AllErrands(p: Params, e0: Env, run: seq<Input>): seq<Msg>
    requires Possible(p, e0, run)
    decreases |run|
  {
    if run == [] then []
    else
      var front := run[..|run| - 1];
      AllErrands(p, e0, front) + ErrandsOf(p, Run(p, e0, front), run[|run| - 1].ev)
  }

  ghost function AllAsks(p: Params, e0: Env, run: seq<Input>): seq<Ask>
    requires Possible(p, e0, run)
    decreases |run|
  {
    if run == [] then []
    else
      var front := run[..|run| - 1];
      AllAsks(p, e0, front) + AsksOf(p, Run(p, e0, front), run[|run| - 1].ev)
  }

  /** Over every run the component got exactly the messages of the group that were handled and one answer to each of
      its commands, the group got exactly what was published and the requests that were accepted, and the leaders got
      exactly the requests and ballots of a connected follower; each once and in order. */
  lemma {:induction false} TrafficIsPassedOn(p: Params, e0: Env, run: seq<Input>)
    requires Possible(p, e0, run)
    ensures Business(Run(p, e0, run).notes) == AllBusiness(p, e0, run)
    ensures Errands(Run(p, e0, run).pub) == AllErrands(p, e0, run)
    ensures Run(p, e0, run).asked == AllAsks(p, e0, run)
    decreases |run|
  {
    if run == [] {
      ErrandsMore([], Heartbeat(p.ownId));
      assert [] + [Heartbeat(p.ownId)] == [Heartbeat(p.ownId)];
    } else {
      hide Business, Errands, Turn, BusinessOf, ErrandsOf, AsksOf;
      var front, x := run[..|run| - 1], run[|run| - 1];
      TrafficIsPassedOn(p, e0, front);
      TurnAdds(p, Run(p, e0, front), x.ev, x.env);
    }
  }
}
