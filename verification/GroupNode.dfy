/**
  What one coordinated member keeps over every run of its loop, whatever the group, its component
  and the clock do: the role invariants, the notifications it owes its component, its votes,
  its timeouts.
 */
module GroupNode {
  import opened Wrappers
  import opened OrderedDict
  import opened GroupModel

  // ---------------------------------------------------------------- the invariants

  /** The connections a query port should have: one to its server, none without a server. */
  ghost function Target(l: Link): multiset<(Host, int)> {
    if l.host.Some? && l.port.Some? then multiset{(l.host.value, l.port.value)} else multiset{}
  }

  ghost predicate Unlinked(l: Link) {
    l == Link(None, None, multiset{})
  }

  ghost predicate RoleInv(p: Params, n: Node) {
    match n.role
    case Leader => n.leader == Some(p.ownId) && n.ldrPort.Some? && Unlinked(n.link)
    case Candidate => n.leader.None? && n.votedFor == Some(p.ownId) && 1 <= n.votes
    case Follower => true
  }

  ghost predicate NodeInv(p: Params, n: Node) {
    && Distinct(n.peers) && n.numPeers == |n.peers|
    && n.link.conns == Target(n.link)
    && (n.leader.None? ==> Unlinked(n.link))
    && RoleInv(p, n)
    && 1 <= n.timeout < p.electionMax
  }

  /** What the component can work out from its notifications. `proper` says that joins and leaves
      of a member alternated, every exit named the current leader, and every election a new one. */
  datatype Picture = Picture(members: set<Id>, leader: Option<Id>, proper: bool)

  ghost function Draw(c: Picture, note: Note): Picture {
    match note
    case Joined(x) => Picture(c.members + {x}, c.leader, c.proper && x !in c.members)
    case Left(x) => Picture(c.members - {x}, c.leader, c.proper && x in c.members)
    case Elected(x) => Picture(c.members, Some(x), c.proper && c.leader != Some(x))
    case Exited(x) => Picture(c.members, None, c.proper && c.leader == Some(x))
    case _ => c
  }

  ghost function Replay(notes: seq<Note>): Picture {
    if notes == [] then Picture({}, None, true)
    else Draw(Replay(notes[..|notes| - 1]), notes[|notes| - 1])
  }

  ghost predicate Informed(n: Node) {
    Replay(n.notes) == Picture(Keys(n.peers), n.leader, true)
  }

  ghost predicate Good(p: Params, n: Node) {
    NodeInv(p, n) && Informed(n)
  }

  // ---------------------------------------------------------------- replaying notifications

  lemma ReplayMore(notes: seq<Note>, x: Note)
    ensures Replay(notes + [x]) == Draw(Replay(notes), x)
  {
    assert (notes + [x])[..|notes|] == notes;
  }

  lemma {:induction false} ReplayLeaving(notes: seq<Note>, ids: seq<Id>)
    requires forall i :: 0 <= i < |ids| ==> ids[i] in Replay(notes).members
    requires forall i, j :: 0 <= i < j < |ids| ==> ids[i] != ids[j]
    ensures var c := Replay(notes);
            Replay(notes + LeftNotes(ids)) ==
            Picture(c.members - (set i | 0 <= i < |ids| :: ids[i]), c.leader, c.proper)
    decreases |ids|
  {
    hide Replay;
    var c, gone := Replay(notes), set i | 0 <= i < |ids| :: ids[i];
    if ids == [] {
      assert notes + LeftNotes(ids) == notes;
      assert c.members - gone == c.members;
    } else {
      ReplayMore(notes, Left(ids[0]));
      ReplayLeaving(notes + [Left(ids[0])], ids[1..]);
      assert notes + LeftNotes(ids) == notes + [Left(ids[0])] + LeftNotes(ids[1..]);
      assert gone == {ids[0]} + set i | 0 <= i < |ids[1..]| :: ids[1..][i];
    }
  }

  /** The scan keeps exactly the members heard from in time. */
  lemma {:induction false} ScanKeeps(p: Params, d: Dict<Id, Time>, now: Time)
    requires Distinct(d)
    ensures Distinct(Fresh(p, d, now))
    ensures forall x :: x in Fresh(p, d, now) <==> x in d && !Stale(p, x.1, now)
  {
    hide Stale;
    if d != [] {
      assert d == [d[0]] + d[1..];
      ScanKeeps(p, d[1..], now);
    }
  }

  /** The scan reports exactly the others, each once. */
  lemma {:induction false} ScanReports(p: Params, d: Dict<Id, Time>, now: Time)
    requires Distinct(d)
    ensures forall x :: x in StaleIds(p, d, now) <==> exists t :: (x, t) in d && Stale(p, t, now)
    ensures forall i, j :: 0 <= i < j < |StaleIds(p, d, now)| ==> StaleIds(p, d, now)[i] != StaleIds(p, d, now)[j]
  {
    hide Stale;
    if d != [] {
      assert d == [d[0]] + d[1..];
      ScanReports(p, d[1..], now);
      assert d[0].0 in StaleIds(p, d[1..], now) ==> exists t :: (d[0].0, t) in d[1..];
      assert forall t :: (d[0].0, t) !in d[1..] by { assert forall i :: 0 < i < |d| ==> d[i].0 != d[0].0; }
      forall x | x in StaleIds(p, d, now) ensures exists t :: (x, t) in d && Stale(p, t, now) {
        if x in StaleIds(p, d[1..], now) {
          var t :| (x, t) in d[1..] && Stale(p, t, now);
          assert (x, t) in d;
        } else {
          assert (x, d[0].1) in d;
        }
      }
    }
  }

  lemma KeysAreMembers<V>(d: Dict<Id, V>, x: Id)
    ensures x in Keys(d) <==> exists v :: (x, v) in d
  {
  }

  lemma SameKeySameValue<V>(d: Dict<Id, V>, x: Id, a: V, b: V)
    requires Distinct(d) && (x, a) in d && (x, b) in d
    ensures a == b
  {
  }

  /** Who is gone after the scan is who was reported. */
  lemma ScanSplitsKeys(p: Params, d: Dict<Id, Time>, now: Time)
    requires Distinct(d)
    ensures Keys(Fresh(p, d, now)) == Keys(d) - (set x | x in StaleIds(p, d, now))
    ensures forall x :: x in StaleIds(p, d, now) ==> x in Keys(d)
  {
    hide Stale;
    ScanKeeps(p, d, now);
    ScanReports(p, d, now);
    forall x ensures x in StaleIds(p, d, now) ==> x in Keys(d)
      ensures x in Keys(Fresh(p, d, now)) <==> x in Keys(d) && x !in StaleIds(p, d, now)
    {
      KeysAreMembers(d, x);
      KeysAreMembers(Fresh(p, d, now), x);
      if x in Keys(d) {
        var v :| (x, v) in d;
        if t :| (x, t) in d && Stale(p, t, now) { SameKeySameValue(d, x, t, v); }
        if t :| (x, t) in Fresh(p, d, now) { SameKeySameValue(d, x, t, v); }
        assert (x, v) in Fresh(p, d, now) <==> !Stale(p, v, now);
      }
    }
  }

  // ---------------------------------------------------------------- every handler keeps them

  lemma BeatKeepsGood(p: Params, n: Node, now: Time)
    requires Good(p, n)
    ensures Good(p, Beat(p, n, now))
  {
  }

  lemma CheckAllPollsKeepsGood(p: Params, n: Node, now: Time)
    requires Good(p, n)
    ensures Good(p, CheckAllPolls(n, now))
  {
  }

  lemma UpdatePeersKeepsGood(p: Params, n: Node, now: Time)
    requires Good(p, n)
    ensures Good(p, UpdatePeers(p, n, now)) && UpdatePeers(p, n, now).lastWait == n.lastWait
  {
    hide Replay, UpdateLink, Target, Stale;
    var ids := StaleIds(p, n.peers, now);
    if ids != [] {
      ScanKeeps(p, n.peers, now);
      ScanReports(p, n.peers, now);
      ScanSplitsKeys(p, n.peers, now);
      ReplayLeaving(n.notes, ids);
      assert (set x | x in ids) == set i | 0 <= i < |ids| :: ids[i];
    }
  }

  /** Telling a query port about a server leaves exactly the connection to that server. */
  lemma UpdateLinkMovesTheConnection(l: Link, host: Option<Host>, port: Option<int>)
    requires l.conns == Target(l)
    ensures var r := UpdateLink(l, host, port);
            r.host == host && r.port == port && r.conns == Target(r) && |r.conns| <= 1
            && (host.None? && port.None? ==> Unlinked(r))
  {
  }

  lemma OnTimeoutKeepsGood(p: Params, n: Node, e: Env)
    requires p.Ordered() && e.For(p) && Good(p, n)
    ensures Good(p, OnTimeout(p, n, e)) && OnTimeout(p, n, e).lastWait == e.now
  {
    hide Distinct, Keys, Replay, UpdateLink, Target;
    UpdateLinkMovesTheConnection(n.link, None, None);
    if n.leader.Some? { ReplayMore(n.notes, Exited(n.leader.value)); }
  }

  lemma FollowKeepsGood(p: Params, n: Node, term: int, node: Id, host: Option<Host>, port: Option<int>)
    requires Good(p, n)
    ensures Good(p, Follow(n, term, node, host, port))
  {
  }

  lemma ElectionHearsKeepsGood(p: Params, n: Node, m: Msg, e: Env)
    requires p.Ordered() && e.For(p) && Good(p, n)
    ensures Good(p, ElectionHears(p, n, m, e)) && ElectionHears(p, n, m, e).lastWait in {n.lastWait, e.now}
  {
    hide Distinct, Keys, Replay, UpdateLink, Target, Follow;
    match m
    case Authority(term, node, host, port) =>
      FollowKeepsGood(p, n, term, node, None, None);
      FollowKeepsGood(p, n, term, node, Some(host), Some(port));
    case ReqVote(_, _) =>
      UpdateLinkMovesTheConnection(n.link, None, None);
      if n.leader.Some? { ReplayMore(n.notes, Exited(n.leader.value)); }
    case RspVote(_, _, _, _) =>
      ReplayMore(n.notes, Elected(p.ownId));
    case _ =>
  }

  lemma ForgetKeepsGood(p: Params, n: Node, who: Id)
    requires Good(p, n)
    ensures Good(p, Forget(n, who)) && Forget(n, who).lastWait == n.lastWait
  {
    hide Replay, UpdateLink, Target;
    RemoveKeys(n.peers, who);
    ReplayMore(n.notes, Left(who));
  }

  lemma HearKeepsGood(p: Params, n: Node, who: Id, now: Time)
    requires Good(p, n) && n.lastWait <= now
    ensures Good(p, Hear(n, who, now)) && Hear(n, who, now).lastWait == now
  {
    hide Replay, UpdateLink, Target;
    PutKeys(n.peers, who, now);
    ReplayMore(n.notes, Joined(who));
    assert Keys(n.peers) + {who} == if who in Keys(n.peers) then Keys(n.peers) else Keys(n.peers) + {who};
  }

  lemma ForwardKeepsGood(p: Params, n: Node, m: Msg, e: Env)
    requires p.Ordered() && e.For(p) && Good(p, n) && n.lastWait <= e.now
    requires m.Data? || m.Rcm? || m.Ann?
    ensures Good(p, HandleNet(p, n, m, e)) && HandleNet(p, n, m, e).lastWait == e.now
  {
  }

  lemma HandleNetKeepsGood(p: Params, n: Node, m: Msg, e: Env)
    requires p.Ordered() && e.For(p) && Good(p, n) && n.lastWait <= e.now
    ensures Good(p, HandleNet(p, n, m, e)) && HandleNet(p, n, m, e).lastWait <= e.now
  {
    hide Good, ElectionHears, Hear, Forget;
    if m.Data? || m.Rcm? || m.Ann? {
      ForwardKeepsGood(p, n, m, e);
    } else if m.Heartbeat? {
      HearKeepsGood(p, n, m.who, e.now);
    } else if m.Leave? {
      ForgetKeepsGood(p, n, m.who);
      ElectionHearsKeepsGood(p, Forget(n, m.who), m, e);
    } else if !m.BadHeartbeat? {
      ElectionHearsKeepsGood(p, n, m, e);
    }
  }

  /** Component commands and poll traffic touch neither role, leader, peers nor connections. */
  lemma CommandsKeepGood(p: Params, n: Node, c: Command)
    requires Good(p, n)
    ensures Good(p, HandleCommand(p, n, c)) && HandleCommand(p, n, c).lastWait == n.lastWait
  {
    hide Distinct, Keys, Replay, UpdateLink, Target, PollDeadline, Judge, Put, Remove, Count;
    ReplayMore(n.notes, Ack);
    ReplayMore(n.notes, NoLeader);
  }

  lemma AsksKeepGood(p: Params, n: Node, a: Ask)
    requires Good(p, n)
    ensures Good(p, HandleAsk(p, n, a)) && HandleAsk(p, n, a).lastWait == n.lastWait
  {
    hide Distinct, Keys, Replay, UpdateLink, Target, PollDeadline, Judge, Put, Remove, Count;
  }

  /** Every turn of the loop keeps the invariants and keeps the component informed. */
  lemma TurnKeepsGood(p: Params, n: Node, ev: Event, e: Env)
    requires p.Ordered() && e.For(p) && Good(p, n) && n.lastWait <= e.now
    ensures Good(p, Turn(p, n, ev, e))
    ensures Turn(p, n, ev, e).lastWait <= e.now
  {
    hide Good, Keys, UpdatePeers, CheckAllPolls, OnTimeout, HandleCommand, HandleNet, HandleAsk;
    var b := Beat(p, n, e.now);
    BeatKeepsGood(p, n, e.now);
    UpdatePeersKeepsGood(p, b, e.now);
    var m := UpdatePeers(p, b, e.now);
    match ev
    case Timeout =>
      UpdatePeersKeepsGood(p, m, e.now);
      var c := CheckAllPolls(UpdatePeers(p, m, e.now), e.now);
      CheckAllPollsKeepsGood(p, UpdatePeers(p, m, e.now), e.now);
      OnTimeoutKeepsGood(p, c, e);
    case Ready(command, net, ask) =>
      if command.Some? { CommandsKeepGood(p, m, command.value); }
      var m1 := AfterCommand(p, m, command);
      assert m1.lastWait == n.lastWait;
      if net.Some? { HandleNetKeepsGood(p, m1, net.value, e); }
      var m2 := AfterNet(p, m1, net, e);
      if ask.Some? { AsksKeepGood(p, m2, ask.value); }
  }

  // ---------------------------------------------------------------- runs

  datatype Input = Input(ev: Event, env: Env)

  ghost function ClockAfter(e0: Env, run: seq<Input>): Time {
    if run == [] then e0.clock else run[|run| - 1].env.clock
  }

  /** A run of the loop: the parameters are ordered, the draws are in range, the clock never steps back. */
  ghost predicate Possible(p: Params, e0: Env, run: seq<Input>) {
    if run == [] then p.Ordered() && e0.For(p)
    else
      var front, last := run[..|run| - 1], run[|run| - 1];
      p.Ordered() && Possible(p, e0, front) && last.env.For(p) && ClockAfter(e0, front) <= last.env.now
  }

  lemma StartIsGood(p: Params, e: Env)
    requires p.Ordered() && e.For(p)
    ensures Good(p, Start(p, e)) && Start(p, e).lastWait <= e.clock
  {
    assert Keys<Id, Time>([]) == {};
  }

  /** The member after a run. Over every run the role invariants hold, the source's assertion that a
      leader knows itself as leader never fails, at most one connection to a leader exists and none
      without a leader, and replaying the notifications gives exactly the members and the leader. */
  ghost function Run(p: Params, e0: Env, run: seq<Input>): (n: Node)
    requires Possible(p, e0, run)
    ensures Good(p, n) && n.lastWait <= ClockAfter(e0, run)
    ensures n.role.Leader? ==> n.leader == Some(p.ownId) && n.ldrPort.Some?
    ensures n.role.Leader? || n.leader.None? ==> |n.link.conns| == 0
    ensures n.role.Candidate? ==> n.leader.None? && n.votedFor == Some(p.ownId)
    ensures |n.link.conns| <= 1
    ensures Replay(n.notes) == Picture(Keys(n.peers), n.leader, true) && n.numPeers == |n.peers| == |Keys(n.peers)|
    decreases |run|
  {
    hide Turn, Start, Keys, Replay;
    if run == [] then
      StartIsGood(p, e0);
      SizeIsKeys(Start(p, e0).peers);
      Start(p, e0)
    else
      var before := Run(p, e0, run[..|run| - 1]);
      var x := run[|run| - 1];
      TurnKeepsGood(p, before, x.ev, x.env);
      SizeIsKeys(Turn(p, before, x.ev, x.env).peers);
      Turn(p, before, x.ev, x.env)
  }

  // ---------------------------------------------------------------- roles, terms and votes

  ghost predicate YesForMe(p: Params, ev: Event) {
    ev.Ready? && ev.net.Some? && ev.net.value.RspVote? && ev.net.value.yes && ev.net.value.node == p.ownId
  }

  ghost predicate RivalAuthority(p: Params, n: Node, ev: Event) {
    && ev.Ready? && ev.net.Some? && ev.net.value.Authority?
    && ev.net.value.term == n.term && ev.net.value.node != p.ownId
  }

  /** The fields the election code works on. */
  ghost predicate SameElection(a: Node, b: Node) {
    && a.role == b.role && a.term == b.term && a.votes == b.votes && a.votedFor == b.votedFor
    && a.leader == b.leader && a.leaderDeadline == b.leaderDeadline && a.ldrPort == b.ldrPort
    && a.link == b.link
  }

  /** The member when a turn reaches the election code. */
  ghost function AtElection(p: Params, n: Node, ev: Event, e: Env): Node {
    var m := UpdatePeers(p, Beat(p, n, e.now), e.now);
    match ev
    case Timeout => CheckAllPolls(UpdatePeers(p, m, e.now), e.now)
    case Ready(command, _, _) => AfterCommand(p, m, command)
  }

  /** What the election code makes of it. */
  ghost function Elect(p: Params, n: Node, ev: Event, e: Env): Node
    requires n.role.Leader? ==> n.ldrPort.Some?
  {
    match ev
    case Timeout => OnTimeout(p, n, e)
    case Ready(_, net, _) => AfterNet(p, n, net, e)
  }

  lemma UpdatePeersSkipsElection(p: Params, n: Node, now: Time)
    ensures SameElection(n, UpdatePeers(p, n, now))
  {
  }

  lemma PollsSkipElection(p: Params, n: Node, r: Request, id: RequestId, yes: bool, at: Time)
    ensures SameElection(n, OpenPoll(p, n, r, at)) && SameElection(n, UpdatePoll(n, id, yes, at))
    ensures OpenPoll(p, n, r, at).peers == n.peers && OpenPoll(p, n, r, at).numPeers == n.numPeers
    ensures UpdatePoll(n, id, yes, at).peers == n.peers && UpdatePoll(n, id, yes, at).numPeers == n.numPeers
  {
    hide Judge, Put, Remove, Position, PollDeadline;
  }

  lemma CommandSkipsElection(p: Params, n: Node, c: Command)
    ensures SameElection(n, HandleCommand(p, n, c)) && HandleCommand(p, n, c).peers == n.peers
    ensures HandleCommand(p, n, c).numPeers == n.numPeers
  {
    hide OpenPoll, UpdatePoll;
    match c
    case AskVote(r, at) => PollsSkipElection(p, Acked(n), r, 0, false, at);
    case CastVote(id, yes, at) => PollsSkipElection(p, n, Request(id, Majority, 0, 0), id, yes, at);
    case _ =>
  }

  lemma AskSkipsElection(p: Params, n: Node, a: Ask)
    ensures SameElection(n, HandleAsk(p, n, a)) && HandleAsk(p, n, a).peers == n.peers
    ensures HandleAsk(p, n, a).numPeers == n.numPeers
  {
  }

  /** Which messages reach the election code. */
  lemma NetSkipsElection(p: Params, n: Node, m: Msg, e: Env)
    ensures m.Data? || m.Heartbeat? || m.BadHeartbeat? ==> SameElection(n, HandleNet(p, n, m, e))
    ensures m.Rcm? || m.Ann? ==>
              SameElection(n.(leaderDeadline := Some(e.clock + e.leaderWait * 1000)), HandleNet(p, n, m, e))
    ensures m.Leave? ==>
              SameElection(n, Forget(n, m.who)) && HandleNet(p, n, m, e) == ElectionHears(p, Forget(n, m.who), m, e)
  {
    hide ElectionHears, Put, Remove, Keys;
  }

  /** Only the election code changes election fields. */
  lemma TurnIsElection(p: Params, n: Node, ev: Event, e: Env)
    requires n.role.Leader? ==> n.ldrPort.Some?
    ensures SameElection(n, AtElection(p, n, ev, e))
    ensures SameElection(Elect(p, AtElection(p, n, ev, e), ev, e), Turn(p, n, ev, e))
    ensures Turn(p, n, ev, e).numPeers == Elect(p, AtElection(p, n, ev, e), ev, e).numPeers
    ensures Turn(p, n, ev, e).peers == Elect(p, AtElection(p, n, ev, e), ev, e).peers
  {
    hide UpdatePeers, HandleCommand, HandleAsk, HandleNet, OnTimeout;
    var b := Beat(p, n, e.now);
    UpdatePeersSkipsElection(p, b, e.now);
    var m := UpdatePeers(p, b, e.now);
    match ev
    case Timeout => UpdatePeersSkipsElection(p, m, e.now);
    case Ready(c, net, a) =>
      if c.Some? { CommandSkipsElection(p, m, c.value); }
      if a.Some? { AskSkipsElection(p, AfterNet(p, AfterCommand(p, m, c), net, e), a.value); }
  }

  /** A leader's term never moves, and it stays leader unless a rival of its term shows up. */
  lemma LeaderSteps(p: Params, n: Node, ev: Event, e: Env)
    requires Good(p, n) && n.role.Leader?
    ensures var m := Turn(p, n, ev, e);
            && m.term == n.term
            && (m.role.Leader? <==> !RivalAuthority(p, n, ev))
            && !m.role.Candidate?
  {
    hide FollowerHears, CandidateHears;
    hide Turn, AtElection, Keys, Replay, Distinct, Informed, Target, UpdateLink, Put, Remove, Position, WithExit, Fresh, StaleIds;
    if ev.Ready? && ev.net.Some? { NetSkipsElection(p, AtElection(p, n, ev, e), ev.net.value, e); }
    hide Hear, Forget, UpdateTimeout;
    TurnIsElection(p, n, ev, e);
  }

  ghost predicate LaterRequest(n: Node, ev: Event) {
    ev.Ready? && ev.net.Some? && ev.net.value.ReqVote? && n.term < ev.net.value.term
  }

  ghost predicate AnyAuthority(ev: Event) {
    ev.Ready? && ev.net.Some? && ev.net.value.Authority?
  }

  /** A candidate wins exactly on the vote that completes its majority of the known members, and gives up its candidacy
      exactly on a timeout, a request for votes in a later term, or AUTHORITY of any member. */
  lemma CandidateSteps(p: Params, n: Node, ev: Event, e: Env)
    requires Good(p, n) && n.role.Candidate?
    ensures var m := Turn(p, n, ev, e);
            && (m.role.Leader? <==> YesForMe(p, ev) && m.numPeers / 2 + 1 <= n.votes + 1)
            && (m.role.Follower? <==> ev.Timeout? || LaterRequest(n, ev) || AnyAuthority(ev))
            && (m.role.Leader? ==> m.term == n.term && m.votes == n.votes + 1)
            && (m.role.Candidate? ==> m.term == n.term && m.votes == if YesForMe(p, ev) then n.votes + 1 else n.votes)
  {
    hide FollowerHears, LeaderHears;
    hide Turn, AtElection, Keys, Replay, Distinct, Informed, Target, UpdateLink, Put, Remove, Position, WithExit, Fresh, StaleIds;
    if ev.Ready? && ev.net.Some? { NetSkipsElection(p, AtElection(p, n, ev, e), ev.net.value, e); }
    hide Hear, Forget, UpdateTimeout;
    TurnIsElection(p, n, ev, e);
  }

  /** A follower only becomes a candidate, on a timeout past its deadline with enough members around. */
  lemma FollowerSteps(p: Params, n: Node, ev: Event, e: Env)
    requires Good(p, n) && n.role.Follower?
    ensures var m := Turn(p, n, ev, e);
            && !m.role.Leader?
            && (m.role.Candidate? <==>
                ev.Timeout? && n.leaderDeadline.Some? && n.leaderDeadline.value < e.now
                && p.groupSize / 2 + 1 < m.numPeers)
            && (m.role.Candidate? ==> m.term == n.term + 1 && m.votes == 1)
  {
    hide CandidateHears, LeaderHears;
    hide Turn, AtElection, Keys, Replay, Distinct, Informed, Target, UpdateLink, Put, Remove, Position, WithExit, Fresh, StaleIds;
    if ev.Ready? && ev.net.Some? { NetSkipsElection(p, AtElection(p, n, ev, e), ev.net.value, e); }
    hide Hear, Forget, UpdateTimeout;
    TurnIsElection(p, n, ev, e);
  }

  /** The yes votes for the member that it consumed in its current candidacy. */
  ghost function Tally(p: Params, e0: Env, run: seq<Input>): nat
    requires Possible(p, e0, run)
    decreases |run|
  {
    if run == [] then 0
    else
      var front := run[..|run| - 1];
      if Run(p, e0, front).role.Candidate?
      then Tally(p, e0, front) + if YesForMe(p, run[|run| - 1].ev) then 1 else 0
      else 0
  }

  /** A candidate's votes are its own and the yes votes for it consumed in this candidacy. */
  lemma {:induction false} VotesAreCounted(p: Params, e0: Env, run: seq<Input>)
    requires Possible(p, e0, run)
    ensures Run(p, e0, run).role.Candidate? ==> Run(p, e0, run).votes == 1 + Tally(p, e0, run)
    decreases |run|
  {
    if run != [] {
      var front, x := run[..|run| - 1], run[|run| - 1];
      VotesAreCounted(p, e0, front);
      var before := Run(p, e0, front);
      match before.role
      case Leader => LeaderSteps(p, before, x.ev, x.env);
      case Candidate => CandidateSteps(p, before, x.ev, x.env);
      case Follower => FollowerSteps(p, before, x.ev, x.env);
    }
  }

  /** isLeader() of the source compares ids, it does not look at the role. It keeps meaning "has the
      role of leader" exactly as long as a member that is not the leader does not take up an
      AUTHORITY message of its own. */
  ghost predicate SelfBelief(p: Params, n: Node) {
    n.leader == Some(p.ownId) <==> n.role.Leader?
  }

  ghost predicate OwnAuthority(p: Params, ev: Event) {
    ev.Ready? && ev.net.Some? && ev.net.value.Authority? && ev.net.value.node == p.ownId
  }

  lemma LeaderBelief(p: Params, n: Node, ev: Event, e: Env)
    requires Good(p, n) && n.role.Leader?
    ensures SelfBelief(p, Turn(p, n, ev, e))
  {
    hide FollowerHears, CandidateHears;
    hide Turn, AtElection, Keys, Replay, Distinct, Informed, Target, UpdateLink, Put, Remove, Position, WithExit, Fresh, StaleIds;
    if ev.Ready? && ev.net.Some? { NetSkipsElection(p, AtElection(p, n, ev, e), ev.net.value, e); }
    hide Hear, Forget, UpdateTimeout;
    TurnIsElection(p, n, ev, e);
  }

  lemma FollowerBelief(p: Params, n: Node, ev: Event, e: Env)
    requires Good(p, n) && n.role.Follower? && SelfBelief(p, n)
    ensures SelfBelief(p, Turn(p, n, ev, e)) <==> !OwnAuthority(p, ev)
  {
    hide CandidateHears, LeaderHears;
    hide Turn, AtElection, Keys, Replay, Distinct, Informed, Target, UpdateLink, Put, Remove, Position, WithExit, Fresh, StaleIds;
    if ev.Ready? && ev.net.Some? { NetSkipsElection(p, AtElection(p, n, ev, e), ev.net.value, e); }
    hide Hear, Forget, UpdateTimeout;
    TurnIsElection(p, n, ev, e);
  }

  lemma CandidateBelief(p: Params, n: Node, ev: Event, e: Env)
    requires Good(p, n) && n.role.Candidate?
    ensures SelfBelief(p, Turn(p, n, ev, e)) <==> !OwnAuthority(p, ev)
  {
    hide FollowerHears, LeaderHears;
    hide Turn, AtElection, Keys, Replay, Distinct, Informed, Target, UpdateLink, Put, Remove, Position, WithExit, Fresh, StaleIds;
    if ev.Ready? && ev.net.Some? { NetSkipsElection(p, AtElection(p, n, ev, e), ev.net.value, e); }
    hide Hear, Forget, UpdateTimeout;
    TurnIsElection(p, n, ev, e);
  }

  lemma SelfBeliefLastsUnlessOwnAuthorityReturns(p: Params, n: Node, ev: Event, e: Env)
    requires Good(p, n) && SelfBelief(p, n)
    ensures SelfBelief(p, Turn(p, n, ev, e)) <==> n.role.Leader? || !OwnAuthority(p, ev)
  {
    hide Turn, Good;
    match n.role
    case Leader => LeaderBelief(p, n, ev, e);
    case Candidate => CandidateBelief(p, n, ev, e);
    case Follower => FollowerBelief(p, n, ev, e);
  }

  /** How that happens: a leader asserts its authority, a rival of the same term deposes it, then the
      message the leader sent comes in. It is a follower, takes itself for the leader, and its query
      port is connected to its own answer port. */
  lemma DeposedLeaderFollowsItself(p: Params, n: Node, rival: Id, host: Host, port: int, e0: Env, e1: Env, e2: Env)
    requires Good(p, n) && n.role.Leader? && rival != p.ownId && n.ldrPort != Some(0)
    ensures n.ldrPort.Some?
    ensures var asserts := Turn(p, n, Timeout, e0);
            var own := Authority(n.term, p.ownId, p.host, n.ldrPort.value);
            && asserts.role.Leader? && asserts.ldrPort == n.ldrPort && own in asserts.pub
            && var lost := Turn(p, asserts, Ready(None, Some(Authority(n.term, rival, host, port)), None), e1);
               var back := Turn(p, lost, Ready(None, Some(own), None), e2);
               && lost.role.Follower? && lost.leader == Some(rival)
               && back.role.Follower? && back.leader == Some(p.ownId)
               && back.link.host == Some(p.host) && back.link.port == n.ldrPort
  {
    AssertsAuthority(p, n, e0);
    hide Turn, AtElection, Keys, Replay, Distinct, Informed, Target, Put, Remove, Position, WithExit, Fresh, StaleIds, Good;
    var own := Authority(n.term, p.ownId, p.host, n.ldrPort.value);
    var asserts := Turn(p, n, Timeout, e0);
    var ev1, ev2 := Ready(None, Some(Authority(n.term, rival, host, port)), None), Ready(None, Some(own), None);
    TurnIsElection(p, asserts, ev1, e1);
    TurnIsElection(p, Turn(p, asserts, ev1, e1), ev2, e2);
  }

  lemma AssertsAuthority(p: Params, n: Node, e: Env)
    requires Good(p, n) && n.role.Leader?
    ensures n.ldrPort.Some?
    ensures var u := Turn(p, n, Timeout, e);
            && u.role.Leader? && u.term == n.term && u.ldrPort == n.ldrPort
            && Authority(n.term, p.ownId, p.host, n.ldrPort.value) in u.pub
  {
    hide Keys, Replay, Distinct, Informed, Fresh, StaleIds, Announcements, Open;
    var m := CheckAllPolls(UpdatePeers(p, UpdatePeers(p, Beat(p, n, e.now), e.now), e.now), e.now);
    assert Turn(p, n, Timeout, e) == OnTimeout(p, m, e);
    assert m.role == n.role && m.term == n.term && m.ldrPort == n.ldrPort;
    var own := Authority(n.term, p.ownId, p.host, n.ldrPort.value);
    assert (m.pub + [own])[|m.pub|] == own;
  }

  // ---------------------------------------------------------------- how far a timeout drifts

  /** Messages that only shorten the timeout. */
  ghost predicate Traffic(m: Msg) {
    m.Data? || m.Heartbeat? || m.Rcm? || m.Ann?
  }

  ghost predicate InOrder(p: Params, last: Time, msgs: seq<(Msg, Env)>)
    decreases |msgs|
  {
    msgs == [] ||
    (Traffic(msgs[0].0) && msgs[0].1.For(p) && last <= msgs[0].1.now && InOrder(p, msgs[0].1.now, msgs[1..]))
  }

  lemma BusyTurn(p: Params, n: Node, m: Msg, e: Env)
    requires Good(p, n) && Traffic(m) && n.lastWait <= e.now
    ensures var r := Turn(p, n, Ready(None, Some(m), None), e);
            r.lastWait == e.now && r.timeout == Max(n.timeout - (e.now - n.lastWait) / 1000, 1)
  {
  }

  /** Turns that each deliver one such message. */
  ghost function Busy(p: Params, n: Node, msgs: seq<(Msg, Env)>): (r: Node)
    requires p.Ordered() && Good(p, n) && InOrder(p, n.lastWait, msgs)
    decreases |msgs|
  {
    hide Turn;
    if msgs == [] then n
    else
      var ev := Ready(None, Some(msgs[0].0), None);
      TurnKeepsGood(p, n, ev, msgs[0].1);
      BusyTurn(p, n, msgs[0].0, msgs[0].1);
      Busy(p, Turn(p, n, ev, msgs[0].1), msgs[1..])
  }

  /** After k messages spread over E microseconds the timeout has lost at most E, at least E less
      one millisecond a message, and never drops below one millisecond or grows. */
  lemma {:induction false} TimeoutDrift(p: Params, n: Node, msgs: seq<(Msg, Env)>)
    requires p.Ordered() && Good(p, n) && InOrder(p, n.lastWait, msgs)
    ensures var r := Busy(p, n, msgs);
            var spent := (if msgs == [] then n.lastWait else msgs[|msgs| - 1].1.now) - n.lastWait;
            && 1 <= r.timeout <= n.timeout
            && 1000 * n.timeout - spent <= 1000 * r.timeout
            && 1000 * r.timeout <= Max(1000, 1000 * n.timeout - spent + 999 * |msgs|)
    decreases |msgs|
  {
    hide Turn, Keys, Distinct, Replay;
    if msgs != [] {
      var ev := Ready(None, Some(msgs[0].0), None);
      TurnKeepsGood(p, n, ev, msgs[0].1);
      BusyTurn(p, n, msgs[0].0, msgs[0].1);
      TimeoutDrift(p, Turn(p, n, ev, msgs[0].1), msgs[1..]);
    }
  }
}
