/**
  What each event does to a member's part in an election, and what the member says to the group about it: one law
  for each role and each kind of event, over whole turns of the loop.
 */
module GroupSteps {
  import opened Wrappers
  import opened OrderedDict
  import opened GroupModel
  import opened GroupNode
  import opened GroupSystem

  /** The turn delivers this message of the group. */
  ghost predicate Delivered(ev: Event, x: Msg) {
    ev.Ready? && ev.net == Some(x)
  }

  ghost predicate SameWait(a: Node, b: Node) {
    a.timeout == b.timeout && a.lastWait == b.lastWait
  }

  lemma CommandKeepsWait(p: Params, n: Node, c: Command)
    ensures SameWait(n, HandleCommand(p, n, c))
  {
    hide PollDeadline, Judge, Put, Remove, Position, Count;
  }

  lemma AskKeepsWait(p: Params, n: Node, a: Ask)
    ensures SameWait(n, HandleAsk(p, n, a))
  {
    hide PollDeadline, Judge, Put, Remove, Position, Count;
  }

  lemma PrologueKeepsWait(p: Params, n: Node, now: Time)
    ensures SameWait(n, UpdatePeers(p, n, now)) && SameWait(n, Beat(p, n, now)) && SameWait(n, CheckAllPolls(n, now))
  {
    hide StaleIds, Fresh, Open, Announcements;
  }

  /** Only the election code and the messages of the group touch the timeout. */
  lemma TurnWaits(p: Params, n: Node, ev: Event, e: Env)
    requires n.role.Leader? ==> n.ldrPort.Some?
    ensures SameWait(n, AtElection(p, n, ev, e))
    ensures AtElection(p, n, ev, e).role.Leader? ==> AtElection(p, n, ev, e).ldrPort.Some?
    ensures SameWait(Elect(p, AtElection(p, n, ev, e), ev, e), Turn(p, n, ev, e))
  {
    TurnIsElection(p, n, ev, e);
    hide OnTimeout, HandleNet, HandleCommand, HandleAsk, UpdatePeers, Beat, CheckAllPolls;
    var b := Beat(p, n, e.now);
    var m := UpdatePeers(p, b, e.now);
    PrologueKeepsWait(p, n, e.now);
    PrologueKeepsWait(p, b, e.now);
    match ev
    case Timeout =>
      PrologueKeepsWait(p, m, e.now);
      PrologueKeepsWait(p, UpdatePeers(p, m, e.now), e.now);
    case Ready(c, net, a) =>
      if c.Some? { CommandKeepsWait(p, m, c.value); }
      if a.Some? { AskKeepsWait(p, AfterNet(p, AfterCommand(p, m, c), net, e), a.value); }
  }

  /** The member waits anew, for this long. */
  ghost predicate WaitsFor(m: Node, timeout: int, now: Time) {
    m.timeout == timeout && m.lastWait == now
  }

  ghost predicate Disconnected(m: Node) {
    m.link.host.None? && m.link.port.None?
  }

  // ---------------------------------------------------------------- candidates

  /** AUTHORITY of any member ends a candidacy: the candidate follows the sender in the sender's term, without a vote,
      with a new leader deadline, and connects to it. */
  lemma CandidateYields(p: Params, n: Node, ev: Event, e: Env, a: Msg)
    requires Good(p, n) && n.role.Candidate? && a.Authority? && Delivered(ev, a)
    ensures var m := Turn(p, n, ev, e);
            && m.role.Follower? && m.term == a.term && m.leader == Some(a.node) && m.votedFor.None?
            && m.leaderDeadline == Some(e.clock + e.leaderWait * 1000)
            && m.link.host == Some(a.host) && m.link.port == Some(a.port) && WaitsFor(m, e.electionWait, e.now)
  {
    hide Turn, AtElection, Keys, Replay, Distinct, Informed, Target, Put, Remove, Position, WithExit, Fresh, StaleIds;
    TurnIsElection(p, n, ev, e);
    TurnWaits(p, n, ev, e);
  }

  /** A candidacy that runs out of time ends without leader, vote and deadline. */
  lemma CandidateGivesUp(p: Params, n: Node, e: Env)
    requires Good(p, n) && n.role.Candidate?
    ensures var m := Turn(p, n, Timeout, e);
            && m.role.Follower? && m.term == n.term && m.leader.None? && m.votedFor.None? && m.leaderDeadline.None?
            && m.link == n.link && WaitsFor(m, p.heartbeat, e.now)
  {
    hide Turn, AtElection, Keys, Replay, Distinct, Informed, Target, Put, Remove, Position, WithExit, Fresh, StaleIds;
    TurnIsElection(p, n, Timeout, e);
    TurnWaits(p, n, Timeout, e);
  }

  /** A candidate votes for one that asks in a later term, and stays what it is otherwise. */
  lemma CandidateIsAsked(p: Params, n: Node, ev: Event, e: Env, a: Msg)
    requires Good(p, n) && n.role.Candidate? && a.ReqVote? && Delivered(ev, a)
    ensures var m := Turn(p, n, ev, e);
            && m.leader.None? && m.leaderDeadline == n.leaderDeadline && WaitsFor(m, e.electionWait, e.now)
            && if n.term < a.term then m.role.Follower? && m.term == a.term && m.votedFor == Some(a.node) && Disconnected(m)
               else m.role.Candidate? && m.term == n.term && m.votedFor == n.votedFor && m.votes == n.votes && m.link == n.link
  {
    hide Turn, AtElection, Keys, Replay, Distinct, Informed, Target, Put, Remove, Position, WithExit, Fresh, StaleIds;
    TurnIsElection(p, n, ev, e);
    TurnWaits(p, n, ev, e);
  }

  /** A yes vote for the candidate is counted; with a majority of the members it knows it leads, at a new answer port.
      Any other vote changes nothing. */
  lemma CandidateHearsVote(p: Params, n: Node, ev: Event, e: Env, a: Msg)
    requires Good(p, n) && n.role.Candidate? && a.RspVote? && Delivered(ev, a)
    ensures var m := Turn(p, n, ev, e);
            && m.term == n.term && m.votedFor == n.votedFor && m.leaderDeadline == n.leaderDeadline && m.link == n.link
            && m.votes == (if a.yes && a.node == p.ownId then n.votes + 1 else n.votes)
            && if a.yes && a.node == p.ownId && m.numPeers / 2 + 1 <= n.votes + 1
               then m.role.Leader? && m.leader == Some(p.ownId) && m.ldrPort == Some(e.freshPort) && WaitsFor(m, p.heartbeat, e.now)
               else m.role.Candidate? && m.leader.None? && m.ldrPort == n.ldrPort && WaitsFor(m, n.timeout, n.lastWait)
  {
    hide Turn, AtElection, Keys, Replay, Distinct, Informed, Target, Put, Remove, Position, WithExit, Fresh, StaleIds;
    TurnIsElection(p, n, ev, e);
    TurnWaits(p, n, ev, e);
  }

  // ---------------------------------------------------------------- followers

  /** AUTHORITY makes a follower follow the sender; port zero means there is nothing to connect to. */
  lemma FollowerFollows(p: Params, n: Node, ev: Event, e: Env, a: Msg)
    requires Good(p, n) && n.role.Follower? && a.Authority? && Delivered(ev, a)
    ensures var m := Turn(p, n, ev, e);
            && m.role.Follower? && m.term == a.term && m.leader == Some(a.node) && m.votedFor.None?
            && m.leaderDeadline == Some(e.clock + e.leaderWait * 1000) && WaitsFor(m, e.electionWait, e.now)
            && if a.port == 0 then Disconnected(m) else m.link.host == Some(a.host) && m.link.port == Some(a.port)
  {
    hide Turn, AtElection, Keys, Replay, Distinct, Informed, Target, Put, Remove, Position, WithExit, Fresh, StaleIds;
    TurnIsElection(p, n, ev, e);
    TurnWaits(p, n, ev, e);
  }

  /** A follower that is asked for its vote takes over the term and gives up leader and deadline, whether or not it
      votes yes: it does if it has no vote out, if the term is new, or if it voted for the same member. */
  lemma FollowerIsAsked(p: Params, n: Node, ev: Event, e: Env, a: Msg)
    requires Good(p, n) && n.role.Follower? && a.ReqVote? && Delivered(ev, a)
    ensures var m := Turn(p, n, ev, e);
            && m.role.Follower? && m.term == a.term && m.leader.None? && m.leaderDeadline.None? && Disconnected(m)
            && WaitsFor(m, e.electionWait, e.now)
            && m.votedFor == if n.votedFor.None? || n.term < a.term then Some(a.node) else n.votedFor
  {
    hide Turn, AtElection, Keys, Replay, Distinct, Informed, Target, Put, Remove, Position, WithExit, Fresh, StaleIds;
    TurnIsElection(p, n, ev, e);
    TurnWaits(p, n, ev, e);
  }

  /** A follower past its deadline stands for election if it knows enough members, and otherwise gives the leader
      another deadline; without a passed deadline it goes on waiting. */
  lemma FollowerTimesOut(p: Params, n: Node, e: Env)
    requires Good(p, n) && n.role.Follower?
    ensures var m := Turn(p, n, Timeout, e);
            if n.leaderDeadline.Some? && n.leaderDeadline.value < e.now then
              if p.groupSize / 2 + 1 < m.numPeers then
                && m.role.Candidate? && m.term == n.term + 1 && m.votes == 1 && m.votedFor == Some(p.ownId)
                && m.leader.None? && m.leaderDeadline.None? && Disconnected(m) && WaitsFor(m, e.electionWait, e.now)
              else SameElection(n.(leaderDeadline := Some(e.clock + e.leaderWait * 1000)), m) && WaitsFor(m, p.heartbeat, e.now)
            else SameElection(n, m) && WaitsFor(m, p.heartbeat, e.now)
  {
    hide Turn, AtElection, Keys, Replay, Distinct, Informed, Target, Put, Remove, Position, WithExit, Fresh, StaleIds;
    TurnIsElection(p, n, Timeout, e);
    TurnWaits(p, n, Timeout, e);
  }

  // ---------------------------------------------------------------- leaders

  /** A leader that times out asserts its authority and waits for the next heartbeat. */
  lemma LeaderTimesOut(p: Params, n: Node, e: Env)
    requires Good(p, n) && n.role.Leader?
    ensures var m := Turn(p, n, Timeout, e);
            SameElection(n.(leaderDeadline := None), m) && WaitsFor(m, p.heartbeat, e.now)
  {
    hide Turn, AtElection, Keys, Replay, Distinct, Informed, Target, UpdateLink, Put, Remove, Position, WithExit, Fresh, StaleIds;
    TurnIsElection(p, n, Timeout, e);
    TurnWaits(p, n, Timeout, e);
  }

  /** A leader gives way to a rival of its own term and connects to it; no other election message changes it. */
  lemma LeaderHearsElection(p: Params, n: Node, ev: Event, e: Env, a: Msg)
    requires Good(p, n) && n.role.Leader? && Electoral(a) && Delivered(ev, a)
    ensures var m := Turn(p, n, ev, e);
            if a.Authority? && a.term == n.term && a.node != p.ownId then
              && m.role.Follower? && m.term == n.term && m.leader == Some(a.node) && m.votedFor.None?
              && m.leaderDeadline == Some(e.clock + e.leaderWait * 1000)
              && m.link.host == Some(a.host) && m.link.port == Some(a.port) && WaitsFor(m, e.electionWait, e.now)
            else SameElection(n, m) && WaitsFor(m, p.heartbeat, e.now)
  {
    hide Turn, AtElection, Keys, Replay, Distinct, Informed, Target, Put, Remove, Position, WithExit, Fresh, StaleIds;
    TurnIsElection(p, n, ev, e);
    TurnWaits(p, n, ev, e);
  }

  // ---------------------------------------------------------------- everything else

  /** Messages that are not about an election leave it alone, except that requests and announcements of the leader move
      the leader deadline of every member, and a vote among others makes a follower wait anew. */
  lemma OtherMessages(p: Params, n: Node, ev: Event, e: Env)
    requires Good(p, n) && ev.Ready? && (ev.net.None? || !Electoral(ev.net.value))
    ensures var m := Turn(p, n, ev, e);
            if ev.net.Some? && (ev.net.value.Rcm? || ev.net.value.Ann?)
            then SameElection(n.(leaderDeadline := Some(e.clock + e.leaderWait * 1000)), m)
            else SameElection(n, m)
  {
    hide Turn, AtElection, Keys, Replay, Distinct, Informed, Target, UpdateLink, Put, Remove, Position, WithExit, Fresh, StaleIds;
    TurnIsElection(p, n, ev, e);
    if ev.net.Some? { NetSkipsElection(p, AtElection(p, n, ev, e), ev.net.value, e); }
    hide Hear, UpdateTimeout;
  }

  lemma FollowerHearsVote(p: Params, n: Node, ev: Event, e: Env, a: Msg)
    requires Good(p, n) && n.role.Follower? && a.RspVote? && Delivered(ev, a)
    ensures SameElection(n, Turn(p, n, ev, e)) && WaitsFor(Turn(p, n, ev, e), e.electionWait, e.now)
  {
    hide Turn, AtElection, Keys, Replay, Distinct, Informed, Target, UpdateLink, Put, Remove, Position, WithExit, Fresh, StaleIds;
    TurnIsElection(p, n, ev, e);
    TurnWaits(p, n, ev, e);
  }

  /** A member starts as a follower of nobody in term zero, with a deadline for a leader to show up. */
  lemma StartsAsFollower(p: Params, e: Env)
    ensures var n := Start(p, e);
            && n.role.Follower? && n.term == 0 && n.leader.None? && n.votedFor.None? && n.peers == [] && n.polls == []
            && n.leaderDeadline == Some(e.clock + e.leaderWait * 1000) && WaitsFor(n, p.heartbeat, e.now)
            && Unlinked(n.link) && !n.stopped && n.notes == [] && n.asked == []
            && n.pub == if p.heartbeat * 1000 < e.now then [Heartbeat(p.ownId)] else []
  {
  }

  // ---------------------------------------------------------------- leaving

  lemma HandlersKeepStopped(p: Params, n: Node, e: Env)
    ensures forall m :: HandleNet(p, n, m, e).stopped == n.stopped
    ensures forall a :: HandleAsk(p, n, a).stopped == n.stopped
    ensures forall c :: HandleCommand(p, n, c).stopped == (n.stopped || c.LeaveGroup?)
    ensures (n.role.Leader? ==> n.ldrPort.Some?) ==> OnTimeout(p, n, e).stopped == n.stopped
  {
    hide UpdateLink, WithExit, Put, Remove, Keys, Position, PollDeadline, Judge, Count;
  }

  lemma PrologueKeepsStopped(p: Params, n: Node, now: Time)
    ensures UpdatePeers(p, n, now).stopped == Beat(p, n, now).stopped == CheckAllPolls(n, now).stopped == n.stopped
  {
    hide StaleIds, Fresh, Open, Announcements;
  }

  /** A member stops exactly when its component leaves the group, and says farewell then. */
  lemma StopsOnLeaving(p: Params, n: Node, ev: Event, e: Env)
    requires Good(p, n)
    ensures Turn(p, n, ev, e).stopped <==> n.stopped || (ev.Ready? && ev.command == Some(LeaveGroup))
    ensures ev.Ready? && ev.command == Some(LeaveGroup) ==> Leave(p.ownId) in Sent(n, Turn(p, n, ev, e))
  {
    GoodLeaderHasPort(p, n);
    StopsOnLeave(p, n, ev, e);
    if ev.Ready? && ev.command == Some(LeaveGroup) { SaysFarewell(p, n, ev, e); }
  }

  lemma StopsOnLeave(p: Params, n: Node, ev: Event, e: Env)
    requires n.role.Leader? ==> n.ldrPort.Some?
    ensures Turn(p, n, ev, e).stopped <==> n.stopped || (ev.Ready? && ev.command == Some(LeaveGroup))
  {
    var b := Beat(p, n, e.now);
    var m := UpdatePeers(p, b, e.now);
    PrologueKeepsStopped(p, n, e.now);
    PrologueKeepsStopped(p, b, e.now);
    UpdatePeersSkipsElection(p, b, e.now);
    hide Beat, UpdatePeers, CheckAllPolls, OnTimeout, HandleCommand, HandleNet, HandleAsk;
    match ev
    case Timeout =>
      var m1 := UpdatePeers(p, m, e.now);
      UpdatePeersSkipsElection(p, m, e.now);
      PrologueKeepsStopped(p, m, e.now);
      PrologueKeepsStopped(p, m1, e.now);
      HandlersKeepStopped(p, CheckAllPolls(m1, e.now), e);
      TurnIsElection(p, n, ev, e);
    case Ready(c, net, _) =>
      HandlersKeepStopped(p, m, e);
      HandlersKeepStopped(p, AfterCommand(p, m, c), e);
      HandlersKeepStopped(p, AfterNet(p, AfterCommand(p, m, c), net, e), e);
  }

  lemma SaysFarewell(p: Params, n: Node, ev: Event, e: Env)
    requires Good(p, n) && ev.Ready? && ev.command == Some(LeaveGroup)
    ensures Leave(p.ownId) in Sent(n, Turn(p, n, ev, e))
  {
    GoodLeaderHasPort(p, n);
    TurnBroadcasts(p, n, ev, e);
    TurnSpeaks(p, n, ev, e);
    ElectExtends(p, AtElection(p, n, ev, e), ev, e);
    hide Turn, AtElection, Elect, Good, Speaks, Electoral;
    var b, a, m := Beat(p, n, e.now), AtElection(p, n, ev, e), Turn(p, n, ev, e);
    var c := Elect(p, a, ev, e);
    var i := |b.pub|;
    assert a.pub[i] == Leave(p.ownId);
    assert c.pub[i] == c.pub[..|a.pub|][i] && m.pub[i] == m.pub[..|c.pub|][i];
    assert Sent(n, m)[i - |n.pub|] == m.pub[i];
  }

  lemma ElectExtends(p: Params, a: Node, ev: Event, e: Env)
    requires a.role.Leader? ==> a.ldrPort.Some?
    ensures Extends(a, Elect(p, a, ev, e))
  {
    hide UpdateLink, WithExit, Put, Remove, Keys;
  }

  // ---------------------------------------------------------------- what is said

  /** The election messages among some messages. */
  ghost function Electorals(msgs: seq<Msg>): seq<Msg> {
    if msgs == [] then []
    else Electorals(msgs[..|msgs| - 1]) + if Electoral(msgs[|msgs| - 1]) then [msgs[|msgs| - 1]] else []
  }

  lemma {:induction false} ElectoralsOf(a: seq<Msg>, b: seq<Msg>)
    ensures Electorals(a + b) == Electorals(a) + Electorals(b)
  {
    if b == [] {
      assert a + b == a;
    } else {
      assert (a + b)[..|a + b| - 1] == a + b[..|b| - 1];
      ElectoralsOf(a, b[..|b| - 1]);
    }
  }

  lemma {:induction false} NoElectorals(msgs: seq<Msg>)
    requires forall i :: 0 <= i < |msgs| ==> !Electoral(msgs[i])
    ensures Electorals(msgs) == []
  {
    if msgs != [] { NoElectorals(msgs[..|msgs| - 1]); }
  }

  lemma QuietSaysNothing(a: Node, b: Node)
    requires Quiet(a, b)
    ensures Electorals(b.pub) == Electorals(a.pub)
  {
    var more := b.pub[|a.pub|..];
    assert b.pub == a.pub + more;
    assert forall i :: 0 <= i < |more| ==> more[i] == b.pub[|a.pub| + i];
    ElectoralsOf(a.pub, more);
    NoElectorals(more);
  }

  lemma OneMoreSaid(msgs: seq<Msg>, x: Msg)
    ensures Electorals(msgs + [x]) == Electorals(msgs) + if Electoral(x) then [x] else []
  {
    assert (msgs + [x])[..|msgs|] == msgs;
  }

  /** What a member with these fields owes the group on an event. `m` is the member after the turn. */
  ghost function Owed(p: Params, n: Node, ev: Event, e: Env, m: Node): seq<Msg> {
    match n.role
    case Leader => if ev.Timeout? && n.ldrPort.Some? then [Authority(n.term, p.ownId, p.host, n.ldrPort.value)] else []
    case Follower =>
      if ev.Timeout? then
        if n.leaderDeadline.Some? && n.leaderDeadline.value < e.now && p.groupSize / 2 + 1 < m.numPeers
        then [ReqVote(n.term + 1, p.ownId)] else []
      else if ev.net.Some? && ev.net.value.ReqVote? then
        var a := ev.net.value;
        [RspVote(a.term, a.node, n.votedFor.None? || n.term < a.term || n.votedFor == Some(a.node), p.ownId)]
      else []
    case Candidate =>
      if ev.Timeout? || ev.net.None? then []
      else
        match ev.net.value
        case ReqVote(term, node) =>
          if n.term < term then [RspVote(term, node, true, p.ownId)]
          else if n.term == term && node != p.ownId then [RspVote(term, node, false, p.ownId)]
          else []
        case RspVote(_, node, yes, _) =>
          if yes && node == p.ownId && m.numPeers / 2 + 1 <= n.votes + 1
          then [Authority(n.term, p.ownId, p.host, e.freshPort)] else []
        case _ => []
  }

  lemma FollowerSays(p: Params, a: Node, ev: Event, e: Env)
    requires a.role.Follower?
    ensures Electorals(Elect(p, a, ev, e).pub) == Electorals(a.pub) + Owed(p, a, ev, e, Elect(p, a, ev, e))
  {
    hide CandidateHears, LeaderHears, UpdateLink, WithExit, Put, Remove, Keys, Electorals;
    OneMoreSaid(a.pub, ReqVote(a.term + 1, p.ownId));
    if ev.Ready? && ev.net.Some? && ev.net.value.ReqVote? {
      var x := ev.net.value;
      OneMoreSaid(a.pub, RspVote(x.term, x.node, Grants(a, x.term, x.node), p.ownId));
    }
  }

  lemma CandidateSays(p: Params, a: Node, ev: Event, e: Env)
    requires a.role.Candidate?
    ensures Electorals(Elect(p, a, ev, e).pub) == Electorals(a.pub) + Owed(p, a, ev, e, Elect(p, a, ev, e))
  {
    hide FollowerHears, LeaderHears, UpdateLink, WithExit, Put, Remove, Keys, Electorals;
    OneMoreSaid(a.pub, Authority(a.term, p.ownId, p.host, e.freshPort));
    if ev.Ready? && ev.net.Some? && ev.net.value.ReqVote? {
      OneMoreSaid(a.pub, RspVote(ev.net.value.term, ev.net.value.node, true, p.ownId));
      OneMoreSaid(a.pub, RspVote(ev.net.value.term, ev.net.value.node, false, p.ownId));
    }
  }

  lemma LeaderSays(p: Params, a: Node, ev: Event, e: Env)
    requires a.role.Leader? && a.ldrPort.Some?
    ensures Electorals(Elect(p, a, ev, e).pub) == Electorals(a.pub) + Owed(p, a, ev, e, Elect(p, a, ev, e))
  {
    hide FollowerHears, CandidateHears, UpdateLink, WithExit, Put, Remove, Keys, Electorals;
    OneMoreSaid(a.pub, Authority(a.term, p.ownId, p.host, a.ldrPort.value));
  }

  lemma ElectionSays(p: Params, a: Node, ev: Event, e: Env)
    requires a.role.Leader? ==> a.ldrPort.Some?
    ensures Electorals(Elect(p, a, ev, e).pub) == Electorals(a.pub) + Owed(p, a, ev, e, Elect(p, a, ev, e))
  {
    hide *;
    match a.role
    case Follower => FollowerSays(p, a, ev, e);
    case Candidate => CandidateSays(p, a, ev, e);
    case Leader => LeaderSays(p, a, ev, e);
  }

  lemma SameOwed(p: Params, n: Node, a: Node, ev: Event, e: Env, c: Node, m: Node)
    requires SameElection(n, a) && c.numPeers == m.numPeers
    ensures Owed(p, n, ev, e, m) == Owed(p, a, ev, e, c)
  {
  }

  /** A turn says exactly what the member owes the group: a leader asserts its authority on every timeout, a new
      candidate asks for votes, every request is answered, and a winner announces itself. */
  lemma TurnSaysWhatItOwes(p: Params, n: Node, ev: Event, e: Env)
    requires Good(p, n)
    ensures Electorals(Turn(p, n, ev, e).pub) == Electorals(n.pub) + Owed(p, n, ev, e, Turn(p, n, ev, e))
  {
    GoodLeaderHasPort(p, n);
    var a := AtElection(p, n, ev, e);
    TurnIsElection(p, n, ev, e);
    BeforeElection(p, n, ev, e);
    TurnBroadcasts(p, n, ev, e);
    hide *;
    var c, m := Elect(p, a, ev, e), Turn(p, n, ev, e);
    ElectionSays(p, a, ev, e);
    QuietSaysNothing(c, m);
    SameOwed(p, n, a, ev, e, c, m);
  }

  /** Nothing electoral is said before a turn reaches the election code. */
  lemma BeforeElection(p: Params, n: Node, ev: Event, e: Env)
    requires n.role.Leader? ==> n.ldrPort.Some?
    ensures Electorals(AtElection(p, n, ev, e).pub) == Electorals(n.pub)
  {
    BeatSaysNothing(p, n, e.now);
    TurnBroadcasts(p, n, ev, e);
    hide *;
    if ev.Ready? && ev.command == Some(LeaveGroup) {
      LeaveSaysNothing(p, Beat(p, n, e.now).pub);
    } else {
      QuietSaysNothing(Beat(p, n, e.now), AtElection(p, n, ev, e));
    }
  }

  lemma BeatSaysNothing(p: Params, n: Node, now: Time)
    ensures Electorals(Beat(p, n, now).pub) == Electorals(n.pub)
  {
    hide Electorals;
    OneMoreSaid(n.pub, Heartbeat(p.ownId));
  }

  lemma LeaveSaysNothing(p: Params, msgs: seq<Msg>)
    ensures Electorals(msgs + [Leave(p.ownId)]) == Electorals(msgs)
  {
    hide Electorals;
    OneMoreSaid(msgs, Leave(p.ownId));
  }
}
