/**
  The coordinated group member as the source has it: an object whose handlers update its fields
  (GroupThread, Poll in src/riaps/run/dc.py, GroupQryPort in src/riaps/run/dcPorts.py).
  Every method is tied to the function of GroupModel.dfy that says what it does.
  Sockets are logs: what was sent to the component, to the group and to the leader.
 */
module GroupThreads {
  import opened Wrappers
  import opened OrderedDict
  import opened GroupModel

  class Poll {
    const id: RequestId
    const kind: Kind
    const deadline: Time
    const numPeers: int
    const threshold: int
    var voteCnt: int
    var yesCnt: int

    function State(): PollState
      reads this
    {
      PollState(id, kind, deadline, numPeers, threshold, voteCnt, yesCnt)
    }

    constructor (r: Request, deadline: Time, numPeers: int)
      ensures State() == NewPoll(r, deadline, numPeers)
    {
      this.id, this.kind, this.deadline, this.numPeers := r.id, r.kind, deadline, numPeers;
      this.threshold := numPeers / 2 + 1;
      this.voteCnt, this.yesCnt := 0, 0;
    }

    method Vote(vote: bool)
      modifies this
      ensures State() == Count(old(State()), vote)
    {
      voteCnt := voteCnt + 1;
      if vote { yesCnt := yesCnt + 1; }
    }

    method Expired(now: Time) returns (r: bool)
      ensures r <==> Judge(State(), now) == Some(TimedOut)
    {
      r := deadline < now;
    }

    method AllVoted() returns (r: bool)
      ensures r <==> voteCnt == numPeers
    {
      r := voteCnt == numPeers;
    }

    method Result() returns (r: bool)
      ensures r == Carried(State())
    {
      match kind
      case Majority => r := threshold <= yesCnt;
      case Consensus => r := yesCnt == numPeers;
    }
  }

  class GroupQryPort {
    var serverHost: Option<Host>
    var serverPort: Option<int>
    var conns: multiset<(Host, int)>

    function View(): Link
      reads this
    {
      Link(serverHost, serverPort, conns)
    }

    constructor ()
      ensures View() == Link(None, None, multiset{})
    {
      serverHost, serverPort, conns := None, None, multiset{};
    }

    method Update(host: Option<Host>, port: Option<int>)
      modifies this
      ensures View() == UpdateLink(old(View()), host, port)
    {
      if serverHost == host && serverPort == port { return; }
      if serverHost.Some? && serverPort.Some? {
        conns := conns - multiset{(serverHost.value, serverPort.value)};
      }
      serverHost, serverPort := host, port;
      if serverHost.Some? && serverPort.Some? {
        conns := conns + multiset{(serverHost.value, serverPort.value)};
      }
    }
  }

  // ---------------------------------------------------------------- deleting while iterating

  function RemoveAll<V>(d: Dict<nat, V>, ids: seq<nat>): Dict<nat, V> {
    if ids == [] then d else RemoveAll(Remove(d, ids[0]), ids[1..])
  }

  lemma {:induction false} RemoveAllKeepsHead<V>(d: Dict<nat, V>, ids: seq<nat>)
    requires d != [] && d[0].0 !in ids
    ensures RemoveAll(d, ids) == [d[0]] + RemoveAll(d[1..], ids)
  {
    if ids == [] {
      assert d == [d[0]] + d[1..];
    } else {
      var r := Remove(d, ids[0]);
      assert r == [d[0]] + Remove(d[1..], ids[0]);
      assert r[1..] == Remove(d[1..], ids[0]);
      RemoveAllKeepsHead(r, ids[1..]);
    }
  }

  lemma RemoveNone<V>(d: Dict<nat, V>)
    ensures RemoveAll(d, []) == d
  {
  }

  lemma RemoveHead<V>(d: Dict<nat, V>, ids: seq<nat>)
    requires d != []
    ensures RemoveAll(d, [d[0].0] + ids) == RemoveAll(d[1..], ids)
  {
    assert Remove(d, d[0].0) == d[1..];
    assert ([d[0].0] + ids)[1..] == ids;
  }

  lemma {:induction false} StaleIdsAreKeys(p: Params, d: Dict<Id, Time>, now: Time, x: Id)
    requires x in StaleIds(p, d, now)
    ensures exists i :: 0 <= i < |d| && d[i].0 == x
  {
    if x != d[0].0 {
      StaleIdsAreKeys(p, d[1..], now, x);
      var i :| 0 <= i < |d[1..]| && d[1..][i].0 == x;
      assert d[i + 1].0 == x;
    }
  }

  lemma {:induction false} RemoveStaleLeavesFresh(p: Params, d: Dict<Id, Time>, now: Time)
    requires Distinct(d)
    ensures RemoveAll(d, StaleIds(p, d, now)) == Fresh(p, d, now)
  {
    hide Stale, RemoveAll, Remove;
    if d == [] {
      RemoveNone<Time>([]);
    } else {
      var t := d[1..];
      RemoveStaleLeavesFresh(p, t, now);
      if Stale(p, d[0].1, now) {
        RemoveHead(d, StaleIds(p, t, now));
      } else {
        if d[0].0 in StaleIds(p, t, now) { StaleIdsAreKeys(p, t, now, d[0].0); }
        assert StaleIds(p, d, now) == StaleIds(p, t, now);
        RemoveAllKeepsHead(d, StaleIds(p, t, now));
      }
    }
  }

  function DoneIds(ps: Dict<RequestId, PollState>, now: Time): seq<RequestId> {
    if ps == [] then []
    else (if Judge(ps[0].1, now).Some? then [ps[0].0] else []) + DoneIds(ps[1..], now)
  }

  lemma {:induction false} DoneIdsAreKeys(d: Dict<RequestId, PollState>, now: Time, x: RequestId)
    requires x in DoneIds(d, now)
    ensures exists i :: 0 <= i < |d| && d[i].0 == x
  {
    hide Judge;
    if x != d[0].0 {
      DoneIdsAreKeys(d[1..], now, x);
      var i :| 0 <= i < |d[1..]| && d[1..][i].0 == x;
      assert d[i + 1].0 == x;
    }
  }

  lemma {:induction false} RemoveDoneLeavesOpen(d: Dict<RequestId, PollState>, now: Time)
    requires Distinct(d)
    ensures RemoveAll(d, DoneIds(d, now)) == Open(d, now)
  {
    hide Judge, RemoveAll, Remove;
    if d == [] {
      RemoveNone<PollState>([]);
    } else {
      var t := d[1..];
      RemoveDoneLeavesOpen(t, now);
      if Judge(d[0].1, now).Some? {
        RemoveHead(d, DoneIds(t, now));
      } else {
        if d[0].0 in DoneIds(t, now) { DoneIdsAreKeys(t, now, d[0].0); }
        assert DoneIds(d, now) == DoneIds(t, now);
        RemoveAllKeepsHead(d, DoneIds(t, now));
      }
    }
  }

  /** Removing a key does not depend on the value stored under it. */
  lemma RemoveAfterUpdate<V>(d: Dict<nat, V>, k: nat, v: V)
    requires 0 <= Position(d, k)
    ensures Remove(d[Position(d, k) := (k, v)], k) == Remove(d, k)
  {
    SamePositions(d, d[Position(d, k) := (k, v)], k);
  }

  lemma {:induction false} RemoveAllDistinct<V>(d: Dict<nat, V>, ids: seq<nat>)
    requires Distinct(d)
    ensures Distinct(RemoveAll(d, ids))
  {
    if ids != [] {
      RemoveKeys(d, ids[0]);
      RemoveAllDistinct(Remove(d, ids[0]), ids[1..]);
    }
  }

  class GroupThread {
    const p: Params
    const qryPort: GroupQryPort
    var role: Role
    var term: int
    var votes: int
    var votedFor: Option<Id>
    var leader: Option<Id>
    var leaderDeadline: Option<Time>
    var timeout: int
    var lastWait: Time
    var lastHeartbeat: Time
    var peers: Dict<Id, Time>
    var numPeers: int
    var polls: Dict<RequestId, Poll>
    var ldrPort: Option<int>
    var stopped: bool
    var notes: seq<Note>
    var pub: seq<Msg>
    var asked: seq<Ask>

    ghost var pollStates: Dict<RequestId, PollState>  // what the objects in polls hold

    ghost function PollSet(): set<Poll>
      reads this`polls
    {
      set i | 0 <= i < |polls| :: polls[i].1
    }

    ghost predicate PollsValid()
      reads this`polls, this`pollStates, PollSet()
    {
      && Distinct(polls) && |pollStates| == |polls|
      && (forall i, j :: 0 <= i < j < |polls| ==> polls[i].1 != polls[j].1)
      && (forall i :: 0 <= i < |polls| ==> pollStates[i] == (polls[i].0, polls[i].1.State()))
    }

    ghost predicate Valid()
      reads this, PollSet()
    {
      Distinct(peers) && PollsValid() && RoleValid()
    }

    /** A leader knows itself as leader and has an answer port. */
    ghost predicate RoleValid()
      reads this`role, this`leader, this`ldrPort
    {
      role.Leader? ==> leader == Some(p.ownId) && ldrPort.Some?
    }

    /** The member's data as a value. */
    ghost function View(): Node
      reads this, qryPort
    {
      Node(role, term, votes, votedFor, leader, leaderDeadline, timeout, lastWait, lastHeartbeat,
           peers, numPeers, pollStates, ldrPort, qryPort.View(), stopped, notes, pub, asked)
    }

    /** setup() and the part of run() before the loop. */
    constructor (p: Params, e: Env)
      ensures Valid() && fresh(qryPort) && PollSet() == {}
      ensures this.p == p && View() == Start(p, e)
    {
      this.p := p;
      qryPort := new GroupQryPort();
      role, term, votes, votedFor, leader := Follower, 0, 0, None, None;
      timeout, lastWait, lastHeartbeat := p.heartbeat, e.now, 0;
      peers, numPeers, polls, ldrPort, stopped := [], 0, [], None, false;
      notes, pub, asked, leaderDeadline, pollStates := [], [], [], None, [];
      new;
      SendHeartbeat(e.now);
      SetLeaderDeadline(e);
    }

    method SetTimeout(value: int, now: Time)
      modifies this`timeout, this`lastWait
      ensures timeout == value && lastWait == now
    {
      timeout := value;
      lastWait := now;
    }

    method SetLeaderDeadline(e: Env)
      modifies this`leaderDeadline
      ensures leaderDeadline == Some(e.clock + e.leaderWait * 1000)
    {
      leaderDeadline := Some(e.clock + e.leaderWait * 1000);
    }

    method SendHeartbeat(now: Time)
      modifies this`pub, this`lastHeartbeat
      ensures View() == Beat(p, old(View()), now)
    {
      if lastHeartbeat + p.heartbeat * 1000 < now {
        pub := pub + [Heartbeat(p.ownId)];
        lastHeartbeat := now;
      }
    }

    method UpdateTimeout(now: Time)
      modifies this`timeout, this`lastWait
      ensures View() == GroupModel.UpdateTimeout(old(View()), now)
    {
      var elapsed := now - lastWait;
      var remains := Max(timeout - Millis(elapsed), 1);
      lastWait := now;
      timeout := remains;
    }

    /** The members not heard from for too long. */
    method Leavers(now: Time) returns (leavers: seq<Id>)
      ensures leavers == StaleIds(p, peers, now)
    {
      leavers := [];
      for i := 0 to |peers|
        invariant leavers + StaleIds(p, peers[i..], now) == StaleIds(p, peers, now)
      {
        assert peers[i..][1..] == peers[i + 1..];
        if p.peerTimeout < Millis(now - peers[i].1) {
          leavers := leavers + [peers[i].0];
        }
      }
    }

    method DropPeers(leavers: seq<Id>)
      modifies this`peers, this`notes
      ensures peers == RemoveAll(old(peers), leavers)
      ensures notes == old(notes) + LeftNotes(leavers)
    {
      for j := 0 to |leavers|
        invariant RemoveAll(peers, leavers[j..]) == RemoveAll(old(peers), leavers)
        invariant notes + LeftNotes(leavers[j..]) == old(notes) + LeftNotes(leavers)
      {
        assert leavers[j..][1..] == leavers[j + 1..];
        notes := notes + [Left(leavers[j])];
        peers := Remove(peers, leavers[j]);
      }
    }

    method UpdatePeers(now: Time)
      requires Distinct(peers)
      modifies this`peers, this`numPeers, this`notes
      ensures Distinct(peers)
      ensures View() == GroupModel.UpdatePeers(p, old(View()), now)
    {
      var leavers := Leavers(now);
      RemoveStaleLeavesFresh(p, peers, now);
      if 0 < |leavers| {
        RemoveAllDistinct(peers, leavers);
        DropPeers(leavers);
        numPeers := |peers|;
      }
    }

    // ------------------------------------------------------------ polls

    method AnnounceConsensus(id: RequestId, v: Verdict)
      modifies this`pub
      ensures pub == old(pub) + [Ann(id, v)]
    {
      pub := pub + [Ann(id, v)];
    }

    method CheckPoll(poll: Poll, now: Time) returns (done: bool)
      modifies this`pub
      ensures done == Judge(poll.State(), now).Some?
      ensures pub == old(pub) + match Judge(poll.State(), now) { case None => [] case Some(v) => [Ann(poll.id, v)] }
    {
      done := false;
      var expired := poll.Expired(now);
      var all := poll.AllVoted();
      if expired {
        AnnounceConsensus(poll.id, TimedOut);
        done := true;
      } else if all {
        var carried := poll.Result();
        AnnounceConsensus(poll.id, if carried then Yes else No);
        done := true;
      }
    }

    /** Announces every poll that is done, and lists them. */
    method CheckEachPoll(now: Time) returns (toRemove: seq<RequestId>)
      requires PollsValid()
      modifies this`pub
      ensures toRemove == DoneIds(pollStates, now)
      ensures pub == old(pub) + Announcements(pollStates, now)
    {
      hide Judge;
      toRemove := [];
      for i := 0 to |polls|
        invariant pub + Announcements(pollStates[i..], now) == old(pub) + Announcements(pollStates, now)
        invariant toRemove + DoneIds(pollStates[i..], now) == DoneIds(pollStates, now)
      {
        assert pollStates[i..][1..] == pollStates[i + 1..];
        var poll := polls[i].1;
        assert pollStates[i].1 == poll.State();
        var done := CheckPoll(poll, now);
        assert done == Judge(pollStates[i].1, now).Some?;
        if done { toRemove := toRemove + [polls[i].0]; }
      }
    }

    method DeletePolls(ids: seq<RequestId>)
      requires PollsValid()
      modifies this`polls, this`pollStates
      ensures PollsValid() && PollSet() <= old(PollSet())
      ensures pollStates == RemoveAll(old(pollStates), ids)
    {
      hide Remove, Position;
      for j := 0 to |ids|
        invariant PollsValid() && PollSet() <= old(PollSet())
        invariant RemoveAll(pollStates, ids[j..]) == RemoveAll(old(pollStates), ids)
      {
        assert ids[j..][1..] == ids[j + 1..];
        DeletePoll(ids[j]);
      }
    }

    method CheckAllPolls(now: Time)
      requires PollsValid()
      modifies this`polls, this`pollStates, this`pub
      ensures PollsValid() && PollSet() <= old(PollSet())
      ensures View() == GroupModel.CheckAllPolls(old(View()), now)
    {
      hide RemoveAll, Announcements, DoneIds, Open;
      RemoveDoneLeavesOpen(pollStates, now);
      var toRemove := CheckEachPoll(now);
      DeletePolls(toRemove);
    }

    /** del self.polls[id] */
    method DeletePoll(id: RequestId)
      requires PollsValid()
      modifies this`polls, this`pollStates
      ensures PollsValid() && PollSet() <= old(PollSet())
      ensures pollStates == Remove(old(pollStates), id)
    {
      SamePositions(polls, pollStates, id);
      var at := Position(polls, id);
      if 0 <= at {
        polls := polls[..at] + polls[at + 1..];
        pollStates := pollStates[..at] + pollStates[at + 1..];
        assert forall i :: 0 <= i < |polls| ==> var j := if i < at then i else i + 1;
                                                polls[i] == old(polls)[j] && pollStates[i] == old(pollStates)[j];
      }
    }

    /** self.polls[id] = poll */
    method AddPoll(id: RequestId, poll: Poll)
      requires PollsValid() && poll !in PollSet()
      modifies this`polls, this`pollStates
      ensures PollsValid() && PollSet() <= old(PollSet()) + {poll}
      ensures pollStates == Put(old(pollStates), id, poll.State())
    {
      SamePositions(polls, pollStates, id);
      PositionFinds(polls, id);
      polls := Put(polls, id, poll);
      pollStates := Put(pollStates, id, poll.State());
    }

    method StartPoll(r: Request, at: Time) returns (ok: bool)
      requires PollsValid()
      modifies this`polls, this`pollStates
      ensures PollsValid() && fresh(PollSet() - old(PollSet()))
      ensures ok == PollDeadline(p, r, at).Some?
      ensures pollStates ==
              if ok then Put(old(pollStates), r.id, NewPoll(r, PollDeadline(p, r, at).value, numPeers))
              else old(pollStates)
    {
      hide Put;
      var delay := if r.timeout == 0 then p.consensusTimeout * 1_000_000 else r.timeout;
      var delta := at - r.started;
      if delay < delta { return false; }
      var deadline := r.started + delay - delta;
      var poll := new Poll(r, deadline, numPeers);
      AddPoll(r.id, poll);
      ok := true;
    }

    method OpenOrRefusePoll(r: Request, at: Time)
      requires PollsValid()
      modifies this`polls, this`pollStates, this`pub
      ensures PollsValid() && fresh(PollSet() - old(PollSet()))
      ensures View() == OpenPoll(p, old(View()), r, at)
    {
      var ok := StartPoll(r, at);
      if ok {
        pub := pub + [Rcm(r.id)];
      } else {
        AnnounceConsensus(r.id, TimedOut);
      }
    }

    /** Count a vote in the poll stored at position i. */
    method CountVote(i: nat, yes: bool)
      requires PollsValid() && i < |polls|
      modifies this`pollStates, polls[i].1
      ensures PollsValid()
      ensures pollStates == old(pollStates)[i := (old(pollStates)[i].0, Count(old(pollStates)[i].1, yes))]
    {
      polls[i].1.Vote(yes);
      pollStates := pollStates[i := (pollStates[i].0, polls[i].1.State())];
    }

    /** Announce and delete the poll stored at position i if it is done. */
    method SettlePoll(i: nat, at: Time)
      requires PollsValid() && i < |polls| && Position(pollStates, polls[i].0) == i
      modifies this`polls, this`pollStates, this`pub
      ensures PollsValid() && PollSet() <= old(PollSet())
      ensures var s := old(pollStates)[i];
              match Judge(s.1, at)
              case None => pollStates == old(pollStates) && pub == old(pub)
              case Some(v) => pollStates == Remove(old(pollStates), s.0) && pub == old(pub) + [Ann(s.1.id, v)]
    {
      hide Remove, Judge;
      assert pollStates[i] == (polls[i].0, polls[i].1.State());
      var done := CheckPoll(polls[i].1, at);
      if done {
        DeletePoll(polls[i].0);
      }
    }

    method UpdatePoll(id: RequestId, yes: bool, at: Time)
      requires PollsValid()
      modifies this`polls, this`pollStates, this`pub, PollSet()
      ensures PollsValid() && PollSet() <= old(PollSet())
      ensures View() == GroupModel.UpdatePoll(old(View()), id, yes, at)
    {
      hide Remove, Count, Judge, Position;
      SamePositions(polls, pollStates, id);
      var i := Position(polls, id);
      if 0 <= i {
        ghost var counted := Count(pollStates[i].1, yes);
        RemoveAfterUpdate(pollStates, id, counted);
        SamePositions(pollStates, pollStates[i := (id, counted)], id);
        CountVote(i, yes);
        SettlePoll(i, at);
      }
    }

    // ------------------------------------------------------------ timeouts

    /** The leader, if there was one, is gone: tell the component. */
    method LoseLeader()
      modifies this`notes, this`leader
      ensures View() == old(View()).(notes := WithExit(old(leader), old(notes)), leader := None)
    {
      if leader.Some? {
        notes := notes + [Exited(leader.value)];
      }
      leader := None;
    }

    method BecomeCandidate()
      modifies this`role, this`term, this`votes, this`votedFor, this`leaderDeadline
      ensures View() == old(View()).(role := Candidate, term := old(term) + 1, votes := 1,
                                     votedFor := Some(p.ownId), leaderDeadline := None)
    {
      term := term + 1;
      role := Candidate;
      votes := 1;
      votedFor := Some(p.ownId);
      leaderDeadline := None;
    }

    method RequestVotes(e: Env)
      modifies this`pub, this`timeout, this`lastWait
      ensures View() == old(View()).(pub := old(pub) + [ReqVote(term, p.ownId)],
                                     timeout := e.electionWait, lastWait := e.now)
    {
      pub := pub + [ReqVote(term, p.ownId)];
      SetTimeout(e.electionWait, e.now);
    }

    method StartElection(e: Env)
      modifies this`role, this`term, this`votes, this`votedFor, this`leader, this`leaderDeadline,
               this`timeout, this`lastWait, this`notes, this`pub, qryPort
      ensures RoleValid()
      ensures View() == StandForElection(p, old(View()), e)
    {
      hide UpdateLink, WithExit;
      LoseLeader();
      BecomeCandidate();
      qryPort.Update(None, None);
      RequestVotes(e);
    }

    method FollowerTimeout(e: Env)
      requires role.Follower?
      modifies this`role, this`term, this`votes, this`votedFor, this`leader, this`leaderDeadline,
               this`timeout, this`lastWait, this`notes, this`pub, qryPort
      ensures RoleValid()
      ensures View() == OnTimeout(p, old(View()), e)
    {
      hide UpdateLink;
      if leaderDeadline.Some? && leaderDeadline.value < e.now {
        if p.groupSize / 2 + 1 < numPeers {
          StartElection(e);
        } else {
          SetLeaderDeadline(e);
          SetTimeout(p.heartbeat, e.now);
        }
      } else {
        SetTimeout(p.heartbeat, e.now);
      }
    }

    /** An election ran out of time. */
    method StepBack()
      modifies this`role, this`votedFor, this`leaderDeadline
      ensures View() == old(View()).(role := Follower, votedFor := None, leaderDeadline := None)
    {
      role := Follower;
      votedFor := None;
      leaderDeadline := None;
    }

    method CandidateTimeout(e: Env)
      requires role.Candidate?
      modifies this`role, this`term, this`votes, this`votedFor, this`leader, this`leaderDeadline,
               this`timeout, this`lastWait, this`notes, this`pub, qryPort
      ensures RoleValid()
      ensures View() == OnTimeout(p, old(View()), e)
    {
      hide UpdateLink, WithExit;
      StepBack();
      LoseLeader();
      SetTimeout(p.heartbeat, e.now);
    }

    method LeaderTimeout(e: Env)
      requires role.Leader? && RoleValid()
      modifies this`role, this`term, this`votes, this`votedFor, this`leader, this`leaderDeadline,
               this`timeout, this`lastWait, this`notes, this`pub, qryPort
      ensures RoleValid()
      ensures View() == OnTimeout(p, old(View()), e)
    {
      hide UpdateLink;
      assert leader == Some(p.ownId);  // the source asserts this
      pub := pub + [Authority(term, p.ownId, p.host, ldrPort.value)];
      SetTimeout(p.heartbeat, e.now);
      leaderDeadline := None;
    }

    method HandleTimeout(e: Env)
      requires Valid()
      modifies this, qryPort
      ensures Valid() && PollSet() <= old(PollSet())
      ensures View() == GroupModel.HandleTimeout(p, old(View()), e)
    {
      hide OnTimeout, GroupModel.UpdatePeers, GroupModel.CheckAllPolls;
      UpdatePeers(e.now);
      CheckAllPolls(e.now);
      match role
      case Follower => FollowerTimeout(e);
      case Candidate => CandidateTimeout(e);
      case Leader => LeaderTimeout(e);
    }

    // ------------------------------------------------------------ messages from the group

    /** The election fields of a follower of the sender of an AUTHORITY message. */
    method AdoptLeader(newTerm: int, sender: Id)
      modifies this`role, this`term, this`votedFor, this`leader, this`notes
      ensures View() == Follow(old(View()), newTerm, sender, None, None).(link := qryPort.View())
    {
      hide UpdateLink;
      var prevLeader := leader;
      role := Follower;
      term := newTerm;
      leader := Some(sender);
      if prevLeader != leader {
        notes := notes + [Elected(sender)];
      }
      votedFor := None;
    }

    method AwaitLeader(e: Env)
      modifies this`timeout, this`lastWait, this`leaderDeadline
      ensures View() == GroupModel.SetLeaderDeadline(GroupModel.SetTimeout(old(View()), e.electionWait, e.now), e)
    {
      SetTimeout(e.electionWait, e.now);
      SetLeaderDeadline(e);
    }

    method FollowerAuthority(newTerm: int, sender: Id, host: Host, port: int, e: Env)
      requires role.Follower?
      modifies this`role, this`term, this`votes, this`votedFor, this`leader, this`leaderDeadline,
               this`timeout, this`lastWait, this`ldrPort, this`notes, this`pub, qryPort
      ensures RoleValid()
      ensures View() == FollowerHears(p, old(View()), Authority(newTerm, sender, host, port), e)
    {
      hide UpdateLink;
      AdoptLeader(newTerm, sender);
      AwaitLeader(e);
      if port == 0 {
        qryPort.Update(None, None);
      } else {
        qryPort.Update(Some(host), Some(port));
      }
    }

    /** A follower answers the node that asks for its vote. */
    method AnswerRequest(newTerm: int, node: Id) returns (vote: bool)
      modifies this`pub
      ensures vote == Grants(old(View()), newTerm, node)
      ensures View() == old(View()).(pub := old(pub) + [RspVote(newTerm, node, vote, p.ownId)])
    {
      if votedFor.None? {
        vote := true;
      } else if term < newTerm {
        vote := true;
      } else if node != votedFor.value {
        vote := false;
      } else {
        vote := true;
      }
      pub := pub + [RspVote(newTerm, node, vote, p.ownId)];
    }

    method EnterTerm(newTerm: int, choice: Option<Id>, e: Env)
      modifies this`term, this`leaderDeadline, this`votedFor, this`timeout, this`lastWait
      ensures View() == old(View()).(term := newTerm, leaderDeadline := None,
                                     votedFor := if choice.Some? then choice else old(votedFor),
                                     timeout := e.electionWait, lastWait := e.now)
    {
      term := newTerm;
      leaderDeadline := None;
      if choice.Some? { votedFor := choice; }
      SetTimeout(e.electionWait, e.now);
    }

    method FollowerReqVote(newTerm: int, node: Id, e: Env)
      requires role.Follower?
      modifies this`role, this`term, this`votes, this`votedFor, this`leader, this`leaderDeadline,
               this`timeout, this`lastWait, this`ldrPort, this`notes, this`pub, qryPort
      ensures RoleValid()
      ensures View() == FollowerHears(p, old(View()), ReqVote(newTerm, node), e)
    {
      hide UpdateLink, WithExit, Grants;
      var vote := AnswerRequest(newTerm, node);
      LoseLeader();
      qryPort.Update(None, None);
      EnterTerm(newTerm, if vote then Some(node) else None, e);
    }

    method FollowerMessage(m: Msg, e: Env)
      requires role.Follower?
      modifies this`role, this`term, this`votes, this`votedFor, this`leader, this`leaderDeadline,
               this`timeout, this`lastWait, this`ldrPort, this`notes, this`pub, qryPort
      ensures RoleValid()
      ensures View() == FollowerHears(p, old(View()), m, e)
    {
      hide UpdateLink;
      match m
      case Authority(newTerm, sender, host, port) => FollowerAuthority(newTerm, sender, host, port, e);
      case ReqVote(newTerm, node) => FollowerReqVote(newTerm, node, e);
      case RspVote(_, _, _, _) => SetTimeout(e.electionWait, e.now);
      case _ =>
    }

    /** A candidate gives up for a candidate of a later term. */
    method YieldTo(newTerm: int, node: Id)
      requires role.Candidate?
      modifies this`role, this`term, this`votedFor, this`leader, this`notes, this`pub, qryPort
      ensures View() == old(View()).(
                role := Follower, term := newTerm, leader := None, votedFor := Some(node), notes := WithExit(old(leader), old(notes)),
                link := UpdateLink(old(View()).link, None, None), pub := old(pub) + [RspVote(newTerm, node, true, p.ownId)])
    {
      hide UpdateLink, WithExit;
      role := Follower;
      pub := pub + [RspVote(newTerm, node, true, p.ownId)];
      term := newTerm;
      LoseLeader();
      qryPort.Update(None, None);
      votedFor := Some(node);
    }

    method CandidateReqVote(newTerm: int, node: Id, e: Env)
      requires role.Candidate?
      modifies this`role, this`term, this`votes, this`votedFor, this`leader, this`leaderDeadline,
               this`timeout, this`lastWait, this`ldrPort, this`notes, this`pub, qryPort
      ensures RoleValid()
      ensures View() == CandidateHears(p, old(View()), ReqVote(newTerm, node), e)
    {
      hide UpdateLink, WithExit;
      if newTerm == term {
        if node != p.ownId {
          pub := pub + [RspVote(newTerm, node, false, p.ownId)];
        }
      } else if term < newTerm {
        YieldTo(newTerm, node);
      }
      SetTimeout(e.electionWait, e.now);
    }

    method CandidateRspVote(newTerm: int, node: Id, granted: bool, voter: Id, e: Env)
      requires role.Candidate?
      modifies this`role, this`term, this`votes, this`votedFor, this`leader, this`leaderDeadline,
               this`timeout, this`lastWait, this`ldrPort, this`notes, this`pub, qryPort
      ensures RoleValid()
      ensures View() == CandidateHears(p, old(View()), RspVote(newTerm, node, granted, voter), e)
    {
      if granted && node == p.ownId {
        votes := votes + 1;
        if Threshold(numPeers) <= votes {
          role, leader, ldrPort := Leader, Some(p.ownId), Some(e.freshPort);
          notes := notes + [Elected(p.ownId)];
          pub := pub + [Authority(term, p.ownId, p.host, e.freshPort)];
          SetTimeout(p.heartbeat, e.now);
        }
      }
    }

    /** A candidate or a leader steps back for the sender of an AUTHORITY message. */
    method AcceptLeader(newTerm: int, sender: Id, host: Host, port: int, e: Env)
      requires !role.Follower?
      modifies this`role, this`term, this`votes, this`votedFor, this`leader, this`leaderDeadline,
               this`timeout, this`lastWait, this`ldrPort, this`notes, this`pub, qryPort
      ensures RoleValid()
      ensures View() == GroupModel.SetLeaderDeadline(GroupModel.SetTimeout(
                Follow(old(View()), newTerm, sender, Some(host), Some(port)), e.electionWait, e.now), e)
    {
      hide UpdateLink;
      AdoptLeader(newTerm, sender);
      qryPort.Update(Some(host), Some(port));
      AwaitLeader(e);
    }

    method CandidateMessage(m: Msg, e: Env)
      requires role.Candidate?
      modifies this`role, this`term, this`votes, this`votedFor, this`leader, this`leaderDeadline,
               this`timeout, this`lastWait, this`ldrPort, this`notes, this`pub, qryPort
      ensures RoleValid()
      ensures View() == CandidateHears(p, old(View()), m, e)
    {
      hide UpdateLink;
      match m
      case ReqVote(newTerm, node) => CandidateReqVote(newTerm, node, e);
      case RspVote(newTerm, node, granted, voter) => CandidateRspVote(newTerm, node, granted, voter, e);
      case Authority(newTerm, sender, host, port) => AcceptLeader(newTerm, sender, host, port, e);
      case _ =>
    }

    method LeaderMessage(m: Msg, e: Env)
      requires RoleValid() && role.Leader?
      modifies this`role, this`term, this`votes, this`votedFor, this`leader, this`leaderDeadline,
               this`timeout, this`lastWait, this`ldrPort, this`notes, this`pub, qryPort
      ensures RoleValid()
      ensures View() == LeaderHears(p, old(View()), m, e)
    {
      hide UpdateLink;
      if m.Authority? && term == m.term && p.ownId != m.node {
        AcceptLeader(m.term, m.node, m.host, m.port, e);
      } else {
        SetTimeout(p.heartbeat, e.now);
      }
    }

    method ElectionMessage(m: Msg, e: Env)
      requires RoleValid()
      modifies this`role, this`term, this`votes, this`votedFor, this`leader, this`leaderDeadline,
               this`timeout, this`lastWait, this`ldrPort, this`notes, this`pub, qryPort
      ensures RoleValid()
      ensures View() == ElectionHears(p, old(View()), m, e)
    {
      hide UpdateLink;
      match role
      case Follower => FollowerMessage(m, e);
      case Candidate => CandidateMessage(m, e);
      case Leader => LeaderMessage(m, e);
    }

    method PeerLeft(leaver: Id)
      requires Distinct(peers)
      modifies this`peers, this`numPeers, this`notes
      ensures Distinct(peers)
      ensures View() == Forget(old(View()), leaver)
    {
      RemoveKeys(peers, leaver);
      if leaver in Keys(peers) {
        notes := notes + [Left(leaver)];
        peers := Remove(peers, leaver);
      }
      numPeers := |peers|;
    }

    method PeerHeard(peer: Id, now: Time)
      requires Distinct(peers)
      modifies this`peers, this`numPeers, this`notes, this`timeout, this`lastWait
      ensures Distinct(peers)
      ensures View() == Hear(old(View()), peer, now)
    {
      PutKeys(peers, peer, now);
      if peer !in Keys(peers) {
        notes := notes + [Joined(peer)];
      }
      peers := Put(peers, peer, now);
      numPeers := |peers|;
      UpdateTimeout(now);
    }

    /** Hand a message over to the component. */
    method Forward(m: Msg, now: Time)
      modifies this`notes, this`timeout, this`lastWait
      ensures View() == GroupModel.UpdateTimeout(old(View()).(notes := old(notes) + [Forwarded(m)]), now)
    {
      notes := notes + [Forwarded(m)];
      UpdateTimeout(now);
    }

    /** A message only a leader sends also counts as a sign of life of the leader. */
    method ForwardFromLeader(m: Msg, e: Env)
      modifies this`notes, this`timeout, this`lastWait, this`leaderDeadline
      ensures View() == GroupModel.SetLeaderDeadline(
                          GroupModel.UpdateTimeout(old(View()).(notes := old(notes) + [Forwarded(m)]), e.now), e)
    {
      Forward(m, e.now);
      SetLeaderDeadline(e);
    }

    method HandleNetMessage(m: Msg, e: Env)
      requires Distinct(peers) && RoleValid()
      modifies this`role, this`term, this`votes, this`votedFor, this`leader, this`leaderDeadline,
               this`timeout, this`lastWait, this`ldrPort, this`peers, this`numPeers, this`notes, this`pub, qryPort
      ensures Distinct(peers) && RoleValid()
      ensures View() == HandleNet(p, old(View()), m, e)
    {
      hide UpdateLink;
      match m
      case Data =>
        Forward(m, e.now);
      case Leave(leaver) =>
        PeerLeft(leaver);
        ElectionMessage(m, e);
      case Heartbeat(peer) =>
        PeerHeard(peer, e.now);
      case BadHeartbeat =>
      case Rcm(_) =>
        ForwardFromLeader(m, e);
      case Ann(_, _) =>
        ForwardFromLeader(m, e);
      case _ =>
        ElectionMessage(m, e);
    }

    // ------------------------------------------------------------ messages from component and members

    method SendToLeader(a: Ask)
      modifies this`asked
      ensures View() == GroupModel.SendToLeader(old(View()), a)
    {
      if qryPort.serverHost.Some? && qryPort.serverPort.Some? {
        asked := asked + [a];
      }
    }

    /** The component asks for a vote. */
    method AskForVote(r: Request, at: Time)
      requires PollsValid()
      modifies this`polls, this`pollStates, this`notes, this`pub, this`asked
      ensures PollsValid() && fresh(PollSet() - old(PollSet()))
      ensures View() == HandleCommand(p, old(View()), AskVote(r, at))
    {
      hide OpenPoll, GroupModel.UpdatePoll, GroupModel.SendToLeader;
      if leader.None? {
        notes := notes + [NoLeader];
      } else if leader == Some(p.ownId) {
        notes := notes + [Ack];
        OpenOrRefusePoll(r, at);
      } else {
        SendToLeader(AskPoll(r, at));
        notes := notes + [Ack];
      }
    }

    /** The component votes. */
    method PassOnVote(id: RequestId, yes: bool, at: Time)
      requires PollsValid()
      modifies this`polls, this`pollStates, this`notes, this`pub, this`asked, PollSet()
      ensures PollsValid() && PollSet() <= old(PollSet())
      ensures View() == HandleCommand(p, old(View()), CastVote(id, yes, at))
    {
      hide OpenPoll, GroupModel.UpdatePoll, GroupModel.SendToLeader;
      if leader.None? {
        notes := notes + [NoLeader];
      } else if leader == Some(p.ownId) {
        UpdatePoll(id, yes, at);
        notes := notes + [Ack];
      } else {
        SendToLeader(AskBallot(id, yes, at));
        notes := notes + [Ack];
      }
    }

    method HandleCompMessage(c: Command) returns (toStop: bool)
      requires Valid()
      modifies this, PollSet()
      ensures Valid() && fresh(PollSet() - old(PollSet()))
      ensures toStop == c.LeaveGroup?
      ensures View() == HandleCommand(p, old(View()), c)
    {
      hide OpenPoll, GroupModel.UpdatePoll, GroupModel.SendToLeader;
      toStop := false;
      match c
      case Publish =>
        pub := pub + [Data];
        notes := notes + [Ack];
      case AskVote(r, at) =>
        AskForVote(r, at);
      case CastVote(id, yes, at) =>
        PassOnVote(id, yes, at);
      case LeaveGroup =>
        pub := pub + [Leave(p.ownId)];
        stopped := true;
        toStop := true;
    }

    method HandleMessageForLeader(a: Ask)
      requires Valid()
      modifies this, PollSet()
      ensures Valid() && fresh(PollSet() - old(PollSet()))
      ensures View() == HandleAsk(p, old(View()), a)
    {
      match a
      case AskPoll(r, at) => OpenOrRefusePoll(r, at);
      case AskBallot(id, yes, at) => UpdatePoll(id, yes, at);
    }

    /** What a turn does when the poller reported messages. */
    method HandleReady(command: Option<Command>, net: Option<Msg>, ask: Option<Ask>, e: Env) returns (toStop: bool)
      requires Valid()
      modifies this, qryPort, PollSet()
      ensures Valid() && fresh(PollSet() - old(PollSet()))
      ensures toStop <==> command == Some(LeaveGroup)
      ensures View() == AfterAsk(p, AfterNet(p, AfterCommand(p, old(View()), command), net, e), ask)
    {
      hide HandleCommand, HandleNet, HandleAsk;
      toStop := false;
      if command.Some? {
        toStop := HandleCompMessage(command.value);
      }
      if net.Some? {
        HandleNetMessage(net.value, e);
      }
      if ask.Some? {
        HandleMessageForLeader(ask.value);
      }
    }

    /** One iteration of run()'s loop. */
    method Turn(ev: Event, e: Env) returns (toStop: bool)
      requires Valid()
      modifies this, qryPort, PollSet()
      ensures Valid() && fresh(PollSet() - old(PollSet()))
      ensures toStop <==> ev.Ready? && ev.command == Some(LeaveGroup)
      ensures View() == GroupModel.Turn(p, old(View()), ev, e)
    {
      toStop := false;
      SendHeartbeat(e.now);
      UpdatePeers(e.now);
      match ev
      case Timeout => HandleTimeout(e);
      case Ready(command, net, ask) => toStop := HandleReady(command, net, ask, e);
    }
  }
}
