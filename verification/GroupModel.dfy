/**
  Group coordination (src/riaps/run/dc.py): the data one coordinated group member keeps, the
  messages it exchanges, and what each handler does to that data, as functions on values.
  GroupThread.dfy proves the member's methods against these functions; the other Group*.dfy
  files prove what the coordination code is for.

  Time is an integer number of microseconds. The source computes in float seconds and truncates
  to whole milliseconds with int(); Millis is that truncation.
 */
module GroupModel {
  import opened Wrappers
  import opened OrderedDict

  type Id = nat         // a member identity (16 bytes in the source)
  type Time = int       // microseconds
  type Host = nat       // an IPv4 address as a number
  type RequestId = nat  // the random id of a request for vote

  datatype Params = Params(
    ownId: Id, host: Host, groupSize: nat,
    heartbeat: int, electionMin: int, electionMax: int, peerTimeout: int, consensusTimeout: int)
  {
    /** What Group.setupParams asserts before the thread is created. All values are milliseconds. */
    predicate Ordered() {
      && 0 < heartbeat < electionMin < electionMax < peerTimeout
      && 0 < consensusTimeout < electionMax
    }
  }

  /** Everything one loop turn reads from outside: the clock and the random draws.
      A turn uses each draw at most once. */
  datatype Env = Env(now: Time, clock: Time, leaderWait: int, electionWait: int, freshPort: int)
  {
    predicate For(p: Params) {
      && now <= clock
      && p.electionMax <= leaderWait < p.peerTimeout
      && p.electionMin <= electionWait < p.electionMax
    }
  }

  datatype Kind = Majority | Consensus
  datatype Verdict = Yes | No | TimedOut
  datatype Request = Request(id: RequestId, kind: Kind, started: Time, timeout: Time)

  /** Messages broadcast to the whole group. */
  datatype Msg =
    | Data
    | Leave(who: Id)
    | Heartbeat(who: Id)
    | BadHeartbeat
    | Rcm(request: RequestId)
    | Ann(request: RequestId, verdict: Verdict)
    | ReqVote(term: int, node: Id)
    | RspVote(term: int, node: Id, yes: bool, voter: Id)
    | Authority(term: int, node: Id, host: Host, port: int)

  /** Messages from the thread to its component. */
  datatype Note =
    | Joined(who: Id)
    | Left(who: Id)
    | Elected(who: Id)
    | Exited(who: Id)
    | Forwarded(msg: Msg)
    | Ack
    | NoLeader

  /** Messages from the component to the thread. `at` is the clock reading of the poll code. */
  datatype Command =
    | Publish
    | AskVote(request: Request, at: Time)
    | CastVote(id: RequestId, yes: bool, at: Time)
    | LeaveGroup

  /** Messages a member sends to the leader over its query port. */
  datatype Ask =
    | AskPoll(request: Request, at: Time)
    | AskBallot(id: RequestId, yes: bool, at: Time)

  datatype Event = Timeout | Ready(command: Option<Command>, net: Option<Msg>, ask: Option<Ask>)

  /** The query port: the server it was told about, and the endpoints its socket is connected to. */
  datatype Link = Link(host: Option<Host>, port: Option<int>, conns: multiset<(Host, int)>)

  datatype PollState = PollState(
    id: RequestId, kind: Kind, deadline: Time, numPeers: int, threshold: int, voteCnt: int, yesCnt: int)

  datatype Role = Follower | Candidate | Leader

  datatype Node = Node(
    role: Role, term: int, votes: int, votedFor: Option<Id>, leader: Option<Id>,
    leaderDeadline: Option<Time>, timeout: int, lastWait: Time, lastHeartbeat: Time,
    peers: Dict<Id, Time>, numPeers: int, polls: Dict<RequestId, PollState>,
    ldrPort: Option<int>, link: Link, stopped: bool,
    notes: seq<Note>, pub: seq<Msg>, asked: seq<Ask>)

  // ---------------------------------------------------------------- time and timeouts

  /** int(x * 1000) of the source: whole milliseconds, truncated towards zero. */
  function Millis(t: Time): int {
    if 0 <= t then t / 1000 else -((-t) / 1000)
  }

  function Max(a: int, b: int): int { if a < b then b else a }

  function Threshold(numPeers: int): int
  {
    numPeers / 2 + 1
  }

  function SetTimeout(n: Node, value: int, now: Time): Node {
    n.(timeout := value, lastWait := now)
  }

  function UpdateTimeout(n: Node, now: Time): Node {
    n.(timeout := Max(n.timeout - Millis(now - n.lastWait), 1), lastWait := now)
  }

  function SetLeaderDeadline(n: Node, e: Env): Node {
    n.(leaderDeadline := Some(e.clock + e.leaderWait * 1000))
  }

  function Beat(p: Params, n: Node, now: Time): Node {
    if n.lastHeartbeat + p.heartbeat * 1000 < now
    then n.(pub := n.pub + [Heartbeat(p.ownId)], lastHeartbeat := now)
    else n
  }

  // ---------------------------------------------------------------- peers

  predicate Stale(p: Params, heard: Time, now: Time) {
    p.peerTimeout < Millis(now - heard)
  }

  function StaleIds(p: Params, peers: Dict<Id, Time>, now: Time): seq<Id> {
    if peers == [] then []
    else (if Stale(p, peers[0].1, now) then [peers[0].0] else []) + StaleIds(p, peers[1..], now)
  }

  function Fresh(p: Params, peers: Dict<Id, Time>, now: Time): Dict<Id, Time> {
    if peers == [] then []
    else (if Stale(p, peers[0].1, now) then [] else [peers[0]]) + Fresh(p, peers[1..], now)
  }

  function LeftNotes(ids: seq<Id>): seq<Note> {
    if ids == [] then [] else [Left(ids[0])] + LeftNotes(ids[1..])
  }

  function UpdatePeers(p: Params, n: Node, now: Time): Node {
    var gone := StaleIds(p, n.peers, now);
    if gone == [] then n
    else
      var stay := Fresh(p, n.peers, now);
      n.(peers := stay, numPeers := |stay|, notes := n.notes + LeftNotes(gone))
  }

  // ---------------------------------------------------------------- the link to the leader

  function UpdateLink(l: Link, host: Option<Host>, port: Option<int>): Link {
    if l.host == host && l.port == port then l
    else
      var kept := if l.host.Some? && l.port.Some?
                  then l.conns - multiset{(l.host.value, l.port.value)} else l.conns;
      Link(host, port,
           if host.Some? && port.Some? then kept + multiset{(host.value, port.value)} else kept)
  }

  // ---------------------------------------------------------------- polls

  /** The timeout of a request. Zero stands for the group's consensus timeout, which the source gives in
      milliseconds and then reads as seconds. */
  function Allowed(p: Params, r: Request): Time {
    if r.timeout == 0 then p.consensusTimeout * 1_000_000 else r.timeout
  }

  /** The deadline of an accepted request, or None when the request is already too late. The time the
      request took is taken off the deadline. */
  function PollDeadline(p: Params, r: Request, at: Time): Option<Time> {
    var delta := at - r.started;
    if Allowed(p, r) < delta then None else Some(r.started + Allowed(p, r) - delta)
  }

  function NewPoll(r: Request, deadline: Time, numPeers: int): PollState
  {
    PollState(r.id, r.kind, deadline, numPeers, Threshold(numPeers), 0, 0)
  }

  function Count(s: PollState, yes: bool): PollState {
    s.(voteCnt := s.voteCnt + 1, yesCnt := if yes then s.yesCnt + 1 else s.yesCnt)
  }

  function Carried(s: PollState): bool {
    match s.kind
    case Majority => s.threshold <= s.yesCnt
    case Consensus => s.yesCnt == s.numPeers
  }

  /** The verdict the leader announces when it looks at the poll, None while it stays open. */
  function Judge(s: PollState, now: Time): Option<Verdict> {
    if s.deadline < now then Some(TimedOut)
    else if s.voteCnt == s.numPeers then Some(if Carried(s) then Yes else No)
    else None
  }

  function Announce(n: Node, id: RequestId, v: Verdict): Node {
    n.(pub := n.pub + [Ann(id, v)])
  }

  /** Start a poll and ask the members, or announce at once that it is too late. */
  function OpenPoll(p: Params, n: Node, r: Request, at: Time): Node
  {
    match PollDeadline(p, r, at)
    case None => Announce(n, r.id, TimedOut)
    case Some(deadline) =>
      n.(polls := Put(n.polls, r.id, NewPoll(r, deadline, n.numPeers)), pub := n.pub + [Rcm(r.id)])
  }

  function UpdatePoll(n: Node, id: RequestId, yes: bool, at: Time): Node {
    var i := Position(n.polls, id);
    if i < 0 then n
    else
      var counted := Count(n.polls[i].1, yes);
      match Judge(counted, at)
      case None => n.(polls := n.polls[i := (n.polls[i].0, counted)])
      case Some(v) => Announce(n, counted.id, v).(polls := Remove(n.polls, id))
  }

  function Open(polls: Dict<RequestId, PollState>, now: Time): Dict<RequestId, PollState> {
    if polls == [] then []
    else (if Judge(polls[0].1, now).None? then [polls[0]] else []) + Open(polls[1..], now)
  }

  function Announcements(polls: Dict<RequestId, PollState>, now: Time): seq<Msg> {
    if polls == [] then []
    else
      (match Judge(polls[0].1, now)
       case None => []
       case Some(v) => [Ann(polls[0].1.id, v)]) + Announcements(polls[1..], now)
  }

  function CheckAllPolls(n: Node, now: Time): Node {
    n.(polls := Open(n.polls, now), pub := n.pub + Announcements(n.polls, now))
  }

  // ---------------------------------------------------------------- timeouts

  function WithExit(leader: Option<Id>, notes: seq<Note>): seq<Note> {
    if leader.Some? then notes + [Exited(leader.value)] else notes
  }

  function StandForElection(p: Params, n: Node, e: Env): Node {
    n.(role := Candidate, term := n.term + 1, votes := 1, votedFor := Some(p.ownId),
    leader := None, leaderDeadline := None, notes := WithExit(n.leader, n.notes),
    link := UpdateLink(n.link, None, None), pub := n.pub + [ReqVote(n.term + 1, p.ownId)],
    timeout := e.electionWait, lastWait := e.now)
  }

  function HandleTimeout(p: Params, n: Node, e: Env): Node
    requires n.role.Leader? ==> n.ldrPort.Some?
  {
    OnTimeout(p, CheckAllPolls(UpdatePeers(p, n, e.now), e.now), e)
  }

  function OnTimeout(p: Params, n: Node, e: Env): Node
    requires n.role.Leader? ==> n.ldrPort.Some?
  {
    match n.role
    case Follower =>
      if n.leaderDeadline.Some? && n.leaderDeadline.value < e.now then
        if p.groupSize / 2 + 1 < n.numPeers then StandForElection(p, n, e)
        else SetTimeout(SetLeaderDeadline(n, e), p.heartbeat, e.now)
      else SetTimeout(n, p.heartbeat, e.now)
    case Candidate =>
      SetTimeout(n.(role := Follower, votedFor := None, leader := None, leaderDeadline := None,
                 notes := WithExit(n.leader, n.notes)), p.heartbeat, e.now)
    case Leader =>
      SetTimeout(n.(pub := n.pub + [Authority(n.term, p.ownId, p.host, n.ldrPort.value)],
                 leaderDeadline := None), p.heartbeat, e.now)
  }

  // ---------------------------------------------------------------- messages from the group

  /** Accept the sender of an AUTHORITY message as leader (follower, candidate and leader agree
      on this part of what they do). */
  function Follow(n: Node, term: int, node: Id, host: Option<Host>, port: Option<int>): Node {
    n.(role := Follower, term := term, leader := Some(node), votedFor := None,
    notes := if n.leader == Some(node) then n.notes else n.notes + [Elected(node)],
    link := UpdateLink(n.link, host, port))
  }

  /** Whether a follower says yes to a request for vote. */
  function Grants(n: Node, term: int, node: Id): bool {
    n.votedFor.None? || n.term < term || n.votedFor.value == node
  }

  function FollowerHears(p: Params, n: Node, m: Msg, e: Env): Node {
    match m
    case Authority(term, node, host, port) =>
      var link := if port == 0 then (None, None) else (Some(host), Some(port));
      SetLeaderDeadline(SetTimeout(Follow(n, term, node, link.0, link.1), e.electionWait, e.now), e)
    case ReqVote(term, node) =>
      var vote := Grants(n, term, node);
      SetTimeout(n.(term := term, leaderDeadline := None, leader := None, notes := WithExit(n.leader, n.notes),
                 votedFor := if vote then Some(node) else n.votedFor,
                 link := UpdateLink(n.link, None, None),
                 pub := n.pub + [RspVote(term, node, vote, p.ownId)]), e.electionWait, e.now)
    case RspVote(_, _, _, _) => SetTimeout(n, e.electionWait, e.now)
    case _ => n
  }

  function Win(p: Params, n: Node, e: Env): Node {
    SetTimeout(n.(role := Leader, leader := Some(p.ownId), notes := n.notes + [Elected(p.ownId)],
               ldrPort := Some(e.freshPort),
               pub := n.pub + [Authority(n.term, p.ownId, p.host, e.freshPort)]), p.heartbeat, e.now)
  }

  function CandidateHears(p: Params, n: Node, m: Msg, e: Env): Node
  {
    match m
    case ReqVote(term, node) =>
      var heard :=
        if term == n.term then
          if node != p.ownId then n.(pub := n.pub + [RspVote(term, node, false, p.ownId)]) else n
        else if n.term < term then
          n.(role := Follower, term := term, leader := None, votedFor := Some(node), notes := WithExit(n.leader, n.notes),
          link := UpdateLink(n.link, None, None), pub := n.pub + [RspVote(term, node, true, p.ownId)])
        else n;
      SetTimeout(heard, e.electionWait, e.now)
    case RspVote(_, node, yes, _) =>
      if yes && node == p.ownId then
        var counted := n.(votes := n.votes + 1);
        if Threshold(n.numPeers) <= counted.votes then Win(p, counted, e) else counted
      else n
    case Authority(term, node, host, port) =>
      SetLeaderDeadline(SetTimeout(Follow(n, term, node, Some(host), Some(port)), e.electionWait, e.now), e)
    case _ => n
  }

  function LeaderHears(p: Params, n: Node, m: Msg, e: Env): Node {
    match m
    case Authority(term, node, host, port) =>
      if n.term == term && p.ownId != node then
        SetTimeout(SetLeaderDeadline(Follow(n, term, node, Some(host), Some(port)), e), e.electionWait, e.now)
      else SetTimeout(n, p.heartbeat, e.now)
    case _ => SetTimeout(n, p.heartbeat, e.now)
  }

  function ElectionHears(p: Params, n: Node, m: Msg, e: Env): Node
  {
    match n.role
    case Follower => FollowerHears(p, n, m, e)
    case Candidate => CandidateHears(p, n, m, e)
    case Leader => LeaderHears(p, n, m, e)
  }

  function Forget(n: Node, who: Id): Node {
    var m := if who in Keys(n.peers)
             then n.(notes := n.notes + [Left(who)], peers := Remove(n.peers, who)) else n;
    m.(numPeers := |m.peers|)
  }

  function Hear(n: Node, who: Id, now: Time): Node {
    var told := if who in Keys(n.peers) then n else n.(notes := n.notes + [Joined(who)]);
    var peers := Put(n.peers, who, now);
    UpdateTimeout(told.(peers := peers, numPeers := |peers|), now)
  }

  function HandleNet(p: Params, n: Node, m: Msg, e: Env): Node
  {
    match m
    case Data => UpdateTimeout(n.(notes := n.notes + [Forwarded(m)]), e.now)
    case Leave(who) => ElectionHears(p, Forget(n, who), m, e)
    case Heartbeat(who) => Hear(n, who, e.now)
    case BadHeartbeat => n
    case Rcm(_) => SetLeaderDeadline(UpdateTimeout(n.(notes := n.notes + [Forwarded(m)]), e.now), e)
    case Ann(_, _) => SetLeaderDeadline(UpdateTimeout(n.(notes := n.notes + [Forwarded(m)]), e.now), e)
    case _ => ElectionHears(p, n, m, e)
  }

  // ---------------------------------------------------------------- messages from component and members

  /** sendToLeader: silently nothing when the query port has no server. */
  function SendToLeader(n: Node, a: Ask): Node {
    if n.link.host.Some? && n.link.port.Some? then n.(asked := n.asked + [a]) else n
  }

  function Acked(n: Node): Node { n.(notes := n.notes + [Ack]) }

  function HandleCommand(p: Params, n: Node, c: Command): Node
  {
    match c
    case Publish => Acked(n.(pub := n.pub + [Data]))
    case AskVote(r, at) =>
      if n.leader.None? then n.(notes := n.notes + [NoLeader])
      else if n.leader == Some(p.ownId) then OpenPoll(p, Acked(n), r, at)
      else Acked(SendToLeader(n, AskPoll(r, at)))
    case CastVote(id, yes, at) =>
      if n.leader.None? then n.(notes := n.notes + [NoLeader])
      else if n.leader == Some(p.ownId) then Acked(UpdatePoll(n, id, yes, at))
      else Acked(SendToLeader(n, AskBallot(id, yes, at)))
    case LeaveGroup => n.(pub := n.pub + [Leave(p.ownId)], stopped := true)
  }

  function HandleAsk(p: Params, n: Node, a: Ask): Node
  {
    match a
    case AskPoll(r, at) => OpenPoll(p, n, r, at)
    case AskBallot(id, yes, at) => UpdatePoll(n, id, yes, at)
  }

  // ---------------------------------------------------------------- the loop

  /** The state a member starts its loop in. */
  function Start(p: Params, e: Env): Node {
    var n := Node(Follower, 0, 0, None, None, None, p.heartbeat, e.now, 0, [], 0, [], None,
                  Link(None, None, multiset{}), false, [], [], []);
    SetLeaderDeadline(Beat(p, n, e.now), e)
  }

  function AfterCommand(p: Params, n: Node, c: Option<Command>): Node
  {
    if c.Some? then HandleCommand(p, n, c.value) else n
  }

  function AfterNet(p: Params, n: Node, m: Option<Msg>, e: Env): Node
  {
    if m.Some? then HandleNet(p, n, m.value, e) else n
  }

  function AfterAsk(p: Params, n: Node, a: Option<Ask>): Node
  {
    if a.Some? then HandleAsk(p, n, a.value) else n
  }

  /** One turn of the main loop, after the poller returned. */
  function Turn(p: Params, n: Node, ev: Event, e: Env): Node
    requires n.role.Leader? ==> n.ldrPort.Some?
  {
    var m := UpdatePeers(p, Beat(p, n, e.now), e.now);
    match ev
    case Timeout => HandleTimeout(p, m, e)
    case Ready(c, net, ask) => AfterAsk(p, AfterNet(p, AfterCommand(p, m, c), net, e), ask)
  }
}
