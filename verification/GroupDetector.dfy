/**
  The failure detector. A member that keeps taking turns broadcasts a heartbeat at least every
  heartbeat + longest wait + handling time; if that and the message delay fit into a peer's timeout,
  the peer never drops it. A member not heard from is dropped by the first turn after the timeout.
 */
module GroupDetector {
  import opened Wrappers
  import opened OrderedDict
  import opened GroupModel
  import opened GroupNode
  import opened GroupSystem

  // ---------------------------------------------------------------- who a turn drops

  /** How often the component was told that x left. */
  ghost function Lefts(notes: seq<Note>, x: Id): nat {
    multiset(notes)[Left(x)]
  }

  /** More than the peer timeout has passed, in whole milliseconds. */
  ghost predicate Silent(p: Params, heard: Time, now: Time) {
    if 0 <= p.peerTimeout then heard + (p.peerTimeout + 1) * 1000 <= now else heard + p.peerTimeout * 1000 < now
  }

  ghost predicate Overdue(p: Params, peers: Dict<Id, Time>, x: Id, now: Time) {
    exists t :: (x, t) in peers && Silent(p, t, now)
  }

  lemma StaleIsSilent(p: Params, now: Time)
    ensures forall t :: Stale(p, t, now) <==> Silent(p, t, now)
  {
  }

  lemma {:induction false} LeftOnce(ids: seq<Id>, x: Id)
    requires forall i, j :: 0 <= i < j < |ids| ==> ids[i] != ids[j]
    ensures multiset(LeftNotes(ids))[Left(x)] == if x in ids then 1 else 0
  {
    if ids != [] { LeftOnce(ids[1..], x); }
  }

  /** The scan drops the overdue members, reports each once, and keeps the others. */
  lemma ScanIsExact(p: Params, n: Node, now: Time, x: Id)
    requires Distinct(n.peers)
    ensures var m := UpdatePeers(p, n, now);
            && Distinct(m.peers)
            && (forall t :: (x, t) in m.peers <==> (x, t) in n.peers && !Stale(p, t, now))
            && Lefts(m.notes, x) == Lefts(n.notes, x) + (if Overdue(p, n.peers, x, now) then 1 else 0)
  {
    StaleIsSilent(p, now);
    hide Stale, Silent;
    ScanKeeps(p, n.peers, now);
    ScanReports(p, n.peers, now);
    LeftOnce(StaleIds(p, n.peers, now), x);
    assert x in StaleIds(p, n.peers, now) <==> Overdue(p, n.peers, x, now);
    if StaleIds(p, n.peers, now) == [] {
      forall t | (x, t) in n.peers ensures !Stale(p, t, now) {
        assert x !in StaleIds(p, n.peers, now);
      }
    }
  }

  /** Heartbeat and component commands before the election code, timeouts included. */
  lemma PrologueIsExact(p: Params, n: Node, ev: Event, e: Env, x: Id)
    requires Distinct(n.peers)
    ensures var a := AtElection(p, n, ev, e);
            && Distinct(a.peers)
            && (forall t :: (x, t) in a.peers <==> (x, t) in n.peers && !Stale(p, t, e.now))
            && Lefts(a.notes, x) == Lefts(n.notes, x) + (if Overdue(p, n.peers, x, e.now) then 1 else 0)
  {
    StaleIsSilent(p, e.now);
    hide UpdatePeers, CheckAllPolls, HandleCommand, Stale, Silent;
    var b := Beat(p, n, e.now);
    ScanIsExact(p, b, e.now, x);
    var m := UpdatePeers(p, b, e.now);
    match ev
    case Timeout =>
      ScanIsExact(p, m, e.now, x);
      ReviewKeepsNotes(UpdatePeers(p, m, e.now), e.now);
    case Ready(c, _, _) =>
      if c.Some? { CommandKeepsPeers(p, m, c.value, x); }
  }

  lemma ReviewKeepsNotes(n: Node, now: Time)
    ensures CheckAllPolls(n, now).notes == n.notes && CheckAllPolls(n, now).peers == n.peers
  {
  }

  lemma PollsKeepNotes(p: Params, n: Node, r: Request, id: RequestId, yes: bool, at: Time)
    ensures OpenPoll(p, n, r, at).notes == n.notes && UpdatePoll(n, id, yes, at).notes == n.notes
  {
    hide Judge, Put, Remove, Position, PollDeadline;
  }

  lemma CommandKeepsPeers(p: Params, n: Node, c: Command, x: Id)
    ensures HandleCommand(p, n, c).peers == n.peers && Lefts(HandleCommand(p, n, c).notes, x) == Lefts(n.notes, x)
  {
    CommandSkipsElection(p, n, c);
    hide OpenPoll, UpdatePoll;
    match c
    case AskVote(r, at) => PollsKeepNotes(p, Acked(n), r, 0, false, at);
    case CastVote(id, yes, at) => PollsKeepNotes(p, n, Request(id, Majority, 0, 0), id, yes, at);
    case _ =>
  }

  ghost predicate Hears(ev: Event, m: Msg) {
    Delivers(ev) && ev.net.value == m
  }

  lemma PutKeeps(d: Dict<Id, Time>, y: Id, v: Time, x: Id)
    requires Distinct(d)
    ensures Distinct(Put(d, y, v))
    ensures x == y ==> (x, v) in Put(d, y, v)
    ensures x != y ==> forall t :: (x, t) in Put(d, y, v) <==> (x, t) in d
  {
    PutKeys(d, y, v);
    PositionFinds(d, y);
    var r, at := Put(d, y, v), Position(d, y);
    assert r[if at < 0 then |d| else at] == (y, v);
    forall t | x != y ensures (x, t) in r <==> (x, t) in d {
      if (x, t) in d {
        var i :| 0 <= i < |d| && d[i] == (x, t);
        assert r[i] == (x, t);
      }
    }
  }

  lemma RemoveKeeps(d: Dict<Id, Time>, y: Id, x: Id)
    requires Distinct(d)
    ensures Distinct(Remove(d, y))
    ensures x == y ==> x !in Keys(Remove(d, y))
    ensures x != y ==> forall t :: (x, t) in Remove(d, y) <==> (x, t) in d
  {
    RemoveKeys(d, y);
    PositionFinds(d, y);
    var r, at := Remove(d, y), Position(d, y);
    forall t | x != y ensures (x, t) in r <==> (x, t) in d {
      if (x, t) in d {
        var i :| 0 <= i < |d| && d[i] == (x, t);
        assert r[if at < 0 || i < at then i else i - 1] == (x, t);
      }
    }
  }

  /** The election code reports on leaders, not on members. */
  lemma ElectionKeepsPeers(p: Params, a: Node, m: Msg, e: Env, x: Id)
    ensures var b := ElectionHears(p, a, m, e); b.peers == a.peers && Lefts(b.notes, x) == Lefts(a.notes, x)
  {
    hide UpdateLink;
    match a.role {
      case Follower => assert ElectionHears(p, a, m, e) == FollowerHears(p, a, m, e);
      case Candidate => assert ElectionHears(p, a, m, e) == CandidateHears(p, a, m, e);
      case Leader => assert ElectionHears(p, a, m, e) == LeaderHears(p, a, m, e);
    }
  }

  lemma TimeoutKeepsPeers(p: Params, a: Node, e: Env, x: Id)
    requires a.role.Leader? ==> a.ldrPort.Some?
    ensures var b := OnTimeout(p, a, e); b.peers == a.peers && Lefts(b.notes, x) == Lefts(a.notes, x)
  {
    hide UpdateLink;
  }

  lemma HearKeepsPeers(n: Node, y: Id, now: Time, x: Id)
    requires Distinct(n.peers)
    ensures var b := Hear(n, y, now);
            && Distinct(b.peers) && Lefts(b.notes, x) == Lefts(n.notes, x)
            && (x == y ==> (x, now) in b.peers)
            && (x != y ==> forall t :: (x, t) in b.peers <==> (x, t) in n.peers)
  {
    PutKeeps(n.peers, y, now, x);
    hide Put, Keys, Distinct;
  }

  lemma ForgetKeepsPeers(n: Node, y: Id, x: Id)
    requires Distinct(n.peers)
    ensures var b := Forget(n, y);
            && Distinct(b.peers)
            && Lefts(b.notes, x) == Lefts(n.notes, x) + (if x == y && x in Keys(n.peers) then 1 else 0)
            && (x == y ==> x !in Keys(b.peers))
            && (x != y ==> forall t :: (x, t) in b.peers <==> (x, t) in n.peers)
  {
    RemoveKeeps(n.peers, y, x);
    hide Remove, Keys, Distinct;
  }

  lemma ElectKeepsPeers(p: Params, a: Node, ev: Event, e: Env, x: Id)
    requires a.role.Leader? ==> a.ldrPort.Some?
    requires Distinct(a.peers)
    ensures var b := Elect(p, a, ev, e);
            && Distinct(b.peers)
            && (Hears(ev, Heartbeat(x)) ==> (x, e.now) in b.peers)
            && (Hears(ev, Leave(x)) ==> x !in Keys(b.peers))
            && (!Hears(ev, Heartbeat(x)) && !Hears(ev, Leave(x)) ==> forall t :: (x, t) in b.peers <==> (x, t) in a.peers)
            && Lefts(b.notes, x) == Lefts(a.notes, x) + if Hears(ev, Leave(x)) && x in Keys(a.peers) then 1 else 0
  {
    hide Keys, Distinct, ElectionHears, OnTimeout, Hear, Forget;
    if ev.Timeout? {
      TimeoutKeepsPeers(p, a, e, x);
    } else if ev.net.Some? {
      var m := ev.net.value;
      match m
      case Heartbeat(y) => HearKeepsPeers(a, y, e.now, x);
      case Leave(y) =>
        ForgetKeepsPeers(a, y, x);
        ElectionKeepsPeers(p, Forget(a, y), m, e, x);
      case _ => ElectionKeepsPeers(p, a, m, e, x);
    }
  }

  /** A turn drops x exactly if it was not heard from in time or its farewell came in, reports that once,
      and a heartbeat of x brings it (back) in. */
  lemma TurnDropsTheOverdue(p: Params, n: Node, ev: Event, e: Env, x: Id)
    requires Good(p, n)
    ensures n.role.Leader? ==> n.ldrPort.Some?
    ensures var m := Turn(p, n, ev, e);
            var known := x in Keys(n.peers) && !Overdue(p, n.peers, x, e.now);
            && (x in Keys(m.peers) <==> Hears(ev, Heartbeat(x)) || (known && !Hears(ev, Leave(x))))
            && Lefts(m.notes, x) == Lefts(n.notes, x) + (if Overdue(p, n.peers, x, e.now) then 1 else 0)
                                    + (if known && Hears(ev, Leave(x)) then 1 else 0)
  {
    StaleIsSilent(p, e.now);
    hide Turn, AtElection, Elect, Keys, Stale, Silent, Good;
    GoodLeaderHasPort(p, n);
    TurnKeepsPeerTimes(p, n, ev, e, x);
    GoodIsDistinct(p, n);
    var a, m := AtElection(p, n, ev, e), Turn(p, n, ev, e);
    IsKey(n.peers, x);
    IsKey(a.peers, x);
    IsKey(m.peers, x);
    if t :| (x, t) in n.peers {
      forall u | (x, u) in n.peers ensures u == t { SameKeySameValue(n.peers, x, t, u); }
      assert Overdue(p, n.peers, x, e.now) <==> Stale(p, t, e.now);
      assert IsIn(a.peers, x) <==> (x, t) in a.peers;
    }
  }

  ghost predicate IsIn(peers: Dict<Id, Time>, x: Id) {
    exists t :: (x, t) in peers
  }

  lemma IsKey(peers: Dict<Id, Time>, x: Id)
    ensures x in Keys(peers) <==> IsIn(peers, x)
  {
    if x in Keys(peers) {
      var i :| 0 <= i < |peers| && peers[i].0 == x;
      var t := peers[i].1;
      assert peers[i] == (x, t);
      assert IsIn(peers, x);
    }
    if IsIn(peers, x) {
      var t :| (x, t) in peers;
      var i :| 0 <= i < |peers| && peers[i] == (x, t);
      assert peers[i].0 in Keys(peers);
    }
  }

  lemma GoodIsDistinct(p: Params, n: Node)
    requires Good(p, n)
    ensures Distinct(n.peers)
  {
  }

  lemma TurnKeepsPeerTimes(p: Params, n: Node, ev: Event, e: Env, x: Id)
    requires Good(p, n)
    ensures var a, m := AtElection(p, n, ev, e), Turn(p, n, ev, e);
            && Distinct(m.peers)
            && (forall t :: (x, t) in a.peers <==> (x, t) in n.peers && !Stale(p, t, e.now))
            && (Hears(ev, Heartbeat(x)) ==> (x, e.now) in m.peers)
            && (Hears(ev, Leave(x)) ==> x !in Keys(m.peers))
            && (!Hears(ev, Heartbeat(x)) && !Hears(ev, Leave(x)) ==> forall t :: (x, t) in m.peers <==> (x, t) in a.peers)
            && Lefts(m.notes, x) == Lefts(n.notes, x) + (if Overdue(p, n.peers, x, e.now) then 1 else 0)
                                    + (if Hears(ev, Leave(x)) && x in Keys(a.peers) then 1 else 0)
  {
    hide Turn, AtElection, Elect, Keys, Stale, Good, Distinct;
    GoodIsDistinct(p, n);
    GoodLeaderHasPort(p, n);
    TurnIsElection(p, n, ev, e);
    PrologueIsExact(p, n, ev, e, x);
    var a := AtElection(p, n, ev, e);
    TurnKeepsNotes(p, n, ev, e);
    ElectKeepsPeers(p, a, ev, e, x);
  }

  lemma TurnKeepsNotes(p: Params, n: Node, ev: Event, e: Env)
    requires n.role.Leader? ==> n.ldrPort.Some?
    ensures SameElection(n, AtElection(p, n, ev, e))
    ensures Turn(p, n, ev, e).notes == Elect(p, AtElection(p, n, ev, e), ev, e).notes
  {
    TurnIsElection(p, n, ev, e);
    hide UpdatePeers, HandleCommand, HandleAsk, HandleNet, OnTimeout;
    if ev.Ready? && ev.ask.Some? {
      AskKeepsNotes(p, AfterNet(p, AfterCommand(p, UpdatePeers(p, Beat(p, n, e.now), e.now), ev.command), ev.net, e), ev.ask.value);
    }
  }

  // ---------------------------------------------------------------- heartbeats of a live member

  lemma CommandKeepsHeartbeat(p: Params, n: Node, c: Command)
    ensures HandleCommand(p, n, c).lastHeartbeat == n.lastHeartbeat
  {
  }

  lemma AskKeepsHeartbeat(p: Params, n: Node, a: Ask)
    ensures HandleAsk(p, n, a).lastHeartbeat == n.lastHeartbeat
  {
  }

  lemma NetKeepsHeartbeat(p: Params, n: Node, m: Msg, e: Env)
    ensures HandleNet(p, n, m, e).lastHeartbeat == n.lastHeartbeat
  {
    hide UpdateLink, Put, Remove, Keys;
  }

  lemma TimeoutKeepsHeartbeat(p: Params, n: Node, e: Env)
    requires n.role.Leader? ==> n.ldrPort.Some?
    ensures UpdatePeers(p, n, e.now).lastHeartbeat == n.lastHeartbeat
    ensures UpdatePeers(p, n, e.now).role == n.role && UpdatePeers(p, n, e.now).ldrPort == n.ldrPort
    ensures OnTimeout(p, n, e).lastHeartbeat == n.lastHeartbeat
  {
    hide UpdateLink, StaleIds, Fresh, LeftNotes;
  }

  lemma TurnKeepsHeartbeat(p: Params, n: Node, ev: Event, e: Env)
    requires n.role.Leader? ==> n.ldrPort.Some?
    ensures Turn(p, n, ev, e).lastHeartbeat == Beat(p, n, e.now).lastHeartbeat
  {
    hide UpdatePeers, OnTimeout, HandleCommand, HandleAsk, HandleNet;
    var b := Beat(p, n, e.now);
    TimeoutKeepsHeartbeat(p, b, e);
    var m := UpdatePeers(p, b, e.now);
    TimeoutKeepsHeartbeat(p, m, e);
    match ev
    case Timeout => TimeoutKeepsHeartbeat(p, CheckAllPolls(UpdatePeers(p, m, e.now), e.now), e);
    case Ready(c, net, ask) =>
      if c.Some? { CommandKeepsHeartbeat(p, m, c.value); }
      var m1 := AfterCommand(p, m, c);
      if net.Some? { NetKeepsHeartbeat(p, m1, net.value, e); }
      if ask.Some? { AskKeepsHeartbeat(p, AfterNet(p, m1, net, e), ask.value); }
  }

  // ---------------------------------------------------------------- a live member x and a member q that listens

  /** A group and the time of the last turn of the live member. */
  datatype Tracked = Tracked(s: Sys, turned: Time)

  /** The longest time, in microseconds, between two heartbeats of a member with parameters p whose
      turns come at most h late. */
  function Gap(p: Params, h: nat): int {
    (p.heartbeat + p.electionMax - 1) * 1000 + h
  }

  ghost predicate IsBeat(s: Sys, k: nat, x: Id) {
    k < |s.net| && s.net[k].msg == Heartbeat(x)
  }

  /** The heartbeat is the last one of x so far, or another one followed in time. */
  ghost predicate Followed(s: Sys, k: nat, x: Id, gap: int)
    requires IsBeat(s, k, x) && x in s.nodes
  {
    || s.net[k].sentAt == s.nodes[x].lastHeartbeat
    || exists l: nat :: IsBeat(s, l, x) && s.net[k].sentAt < s.net[l].sentAt <= s.net[k].sentAt + gap
  }

  ghost predicate Beating(g: Members, w: Tracked, x: Id, h: nat) {
    && x in g && x in w.s.nodes
    && w.s.nodes[x].lastHeartbeat <= w.s.now
    && w.turned <= w.s.nodes[x].lastHeartbeat + g[x].heartbeat * 1000
    && (forall k :: 0 <= k < |w.s.net| ==> w.s.net[k].msg != Leave(x))
    && (forall k: nat :: IsBeat(w.s, k, x) ==> w.s.net[k].sentAt <= w.s.now && Followed(w.s, k, x, Gap(g[x], h)))
  }

  /** q heard from x at a time no earlier than the heartbeat. */
  ghost predicate HeardSince(s: Sys, q: Id, x: Id, k: nat)
    requires k < |s.net| && q in s.nodes
  {
    exists t :: (x, t) in s.nodes[q].peers && s.net[k].sentAt <= t
  }

  /** q has a time for x because it handled a heartbeat by then. */
  ghost predicate HeardBy(s: Sys, q: Id, x: Id, t: Time) {
    exists k: nat :: IsBeat(s, k, x) && (q, k) in s.seen && s.net[k].sentAt <= t
  }

  ghost predicate Listening(s: Sys, q: Id, x: Id) {
    && q in s.nodes
    && (forall k: nat :: IsBeat(s, k, x) && (q, k) in s.seen ==> HeardSince(s, q, x, k))
    && (forall t :: (x, t) in s.nodes[q].peers ==> HeardBy(s, q, x, t))
  }

  ghost predicate Tracking(g: Members, w: Tracked, x: Id, q: Id, h: nat) {
    WellFormed(g, w.s) && Beating(g, w, x, h) && Listening(w.s, q, x) && q in g
  }

  ghost function NextTracked(g: Members, w: Tracked, a: Action, x: Id): Tracked
    requires WellFormed(g, w.s) && Enabled(g, w.s, a)
  {
    Tracked(Next(g, w.s, a), if a.who == x then a.env.now else w.turned)
  }

  ghost predicate Quits(ev: Event) {
    ev.Ready? && ev.command == Some(LeaveGroup)
  }

  /** x does not leave and gets its next turn at most h after its wait is over; q has handled every
      heartbeat of x older than d. */
  ghost predicate Punctual(g: Members, w: Tracked, a: Action, x: Id, q: Id, h: nat, d: nat) {
    && Enabled(g, w.s, a)
    && x in w.s.nodes && a.env.now <= w.turned + w.s.nodes[x].timeout * 1000 + h
    && (a.who == x ==> !Quits(a.ev))
    && (a.who == q ==> forall k: nat :: IsBeat(w.s, k, x) && w.s.net[k].sentAt + d < a.env.now ==> (q, k) in w.s.seen)
  }

  /** The next turn of anybody finds the last heartbeat of x no older than the gap. */
  lemma LastBeatIsRecent(g: Members, w: Tracked, a: Action, x: Id, q: Id, h: nat, d: nat)
    requires Tracking(g, w, x, q, h) && Punctual(g, w, a, x, q, h, d)
    ensures a.env.now <= w.s.nodes[x].lastHeartbeat + Gap(g[x], h)
  {
  }

  /** A heartbeat that q handled long ago was followed by one that it handled too. */
  lemma HandledNext(g: Members, w: Tracked, a: Action, x: Id, q: Id, h: nat, d: nat, k: nat) returns (l: nat)
    requires Tracking(g, w, x, q, h) && Punctual(g, w, a, x, q, h, d) && a.who == q
    requires IsBeat(w.s, k, x) && w.s.net[k].sentAt + Gap(g[x], h) + d < a.env.now
    ensures IsBeat(w.s, l, x) && (q, l) in w.s.seen && w.s.net[k].sentAt < w.s.net[l].sentAt
  {
    hide WellFormed, Gap, Listening;
    LastBeatIsRecent(g, w, a, x, q, h, d);
    assert Followed(w.s, k, x, Gap(g[x], h));
    l :| IsBeat(w.s, l, x) && w.s.net[k].sentAt < w.s.net[l].sentAt <= w.s.net[k].sentAt + Gap(g[x], h);
  }

  lemma HeardIsKnown(g: Members, w: Tracked, x: Id, q: Id, h: nat, k: nat, t: Time)
    requires Tracking(g, w, x, q, h) && q in w.s.nodes
    requires (x, t) in w.s.nodes[q].peers
    requires IsBeat(w.s, k, x) && (q, k) in w.s.seen
    ensures w.s.net[k].sentAt <= t
  {
  }

  /** Following heartbeats from one that q handled: what q knows is recent. */
  lemma {:induction false} KnowsRecentBeat(g: Members, w: Tracked, a: Action, x: Id, q: Id, h: nat, d: nat, k: nat, t: Time)
    requires Tracking(g, w, x, q, h) && Punctual(g, w, a, x, q, h, d) && a.who == q && q in w.s.nodes
    requires (x, t) in w.s.nodes[q].peers
    requires IsBeat(w.s, k, x) && (q, k) in w.s.seen
    ensures x in g && a.env.now - t <= Gap(g[x], h) + d
    decreases a.env.now - w.s.net[k].sentAt
  {
    HeardIsKnown(g, w, x, q, h, k, t);
    assert x in g;
    hide WellFormed, Gap, Beating, Listening, Punctual;
    if w.s.net[k].sentAt + Gap(g[x], h) + d < a.env.now {
      var l := HandledNext(g, w, a, x, q, h, d, k);
      KnowsRecentBeat(g, w, a, x, q, h, d, l, t);
    }
  }

  lemma KnownWasHeard(g: Members, w: Tracked, x: Id, q: Id, h: nat, t: Time) returns (k: nat)
    requires Tracking(g, w, x, q, h) && q in w.s.nodes && (x, t) in w.s.nodes[q].peers
    ensures IsBeat(w.s, k, x) && (q, k) in w.s.seen
  {
    hide WellFormed, Beating;
    assert HeardBy(w.s, q, x, t);
    k :| IsBeat(w.s, k, x) && (q, k) in w.s.seen && w.s.net[k].sentAt <= t;
  }

  /** If the gap and the delay fit into q's peer timeout, x is never overdue at q. */
  lemma NeverOverdue(g: Members, w: Tracked, a: Action, x: Id, q: Id, h: nat, d: nat)
    requires Tracking(g, w, x, q, h) && Punctual(g, w, a, x, q, h, d) && a.who == q
    requires x in g && q in g && Gap(g[x], h) + d < (g[q].peerTimeout + 1) * 1000
    ensures q in w.s.nodes && !Overdue(g[q], w.s.nodes[q].peers, x, a.env.now)
  {
    assert g[q].Ordered();
    hide WellFormed, Gap, Beating, Punctual;
    StaleIsSilent(g[q], a.env.now);
    forall t | (x, t) in w.s.nodes[q].peers ensures !Stale(g[q], t, a.env.now) {
      var k := KnownWasHeard(g, w, x, q, h, t);
      KnowsRecentBeat(g, w, a, x, q, h, d, k, t);
    }
  }

  // ---------------------------------------------------------------- one step

  /** The heartbeats and farewells of x in the next state. */
  lemma NewBeats(g: Members, w: Tracked, a: Action, x: Id, q: Id, h: nat, d: nat)
    requires Tracking(g, w, x, q, h) && Punctual(g, w, a, x, q, h, d)
    ensures WellFormed(g, w.s) && Enabled(g, w.s, a)
    ensures var s, u := w.s, NextTracked(g, w, a, x).s;
            && |s.net| <= |u.net| && (forall k :: 0 <= k < |s.net| ==> u.net[k] == s.net[k])
            && (forall k :: |s.net| <= k < |u.net| ==> u.net[k].msg != Leave(x))
            && (forall k: nat :: |s.net| <= k && IsBeat(u, k, x) ==>
                  a.who == x && k == |s.net| && u.net[k].sentAt == a.env.now
                  && s.nodes[x].lastHeartbeat + g[x].heartbeat * 1000 < a.env.now)
            && (a.who == x && s.nodes[x].lastHeartbeat + g[x].heartbeat * 1000 < a.env.now ==> IsBeat(u, |s.net|, x))
            && x in u.nodes && u.nodes[x].lastHeartbeat ==
                               (if a.who == x then Beat(g[x], s.nodes[x], a.env.now).lastHeartbeat else s.nodes[x].lastHeartbeat)
  {
    var s := w.s;
    var n := s.nodes[a.who];
    NextParts(g, s, a);
    GoodLeaderHasPort(g[a.who], n);
    TurnSpeaks(g[a.who], n, a.ev, a.env);
    TurnKeepsHeartbeat(g[a.who], n, a.ev, a.env);
    hide Next, Good, Turn, Sent, Speaks, Electoral, Extends, Followed, Listening;
  }

  lemma BeatStays(g: Members, w: Tracked, a: Action, x: Id, k: nat)
    requires WellFormed(g, w.s) && Enabled(g, w.s, a) && k < |w.s.net|
    ensures var u := NextTracked(g, w, a, x).s;
            k < |u.net| && u.net[k].sentAt == w.s.net[k].sentAt && (IsBeat(u, k, x) <==> IsBeat(w.s, k, x))
  {
  }

  lemma StepKeepsFollowed(g: Members, w: Tracked, a: Action, x: Id, q: Id, h: nat, d: nat, k: nat)
    requires Tracking(g, w, x, q, h) && Punctual(g, w, a, x, q, h, d)
    requires WellFormed(g, w.s) && Enabled(g, w.s, a) && IsBeat(NextTracked(g, w, a, x).s, k, x)
    ensures var u := NextTracked(g, w, a, x).s;
            x in g && x in u.nodes && u.net[k].sentAt <= u.now && Followed(u, k, x, Gap(g[x], h))
  {
    var s, u := w.s, NextTracked(g, w, a, x).s;
    LastBeatIsRecent(g, w, a, x, q, h, d);
    NewBeats(g, w, a, x, q, h, d);
    OthersRest(g, s, a, x);
    assert g[x].Ordered();
    if k < |s.net| { BeatStays(g, w, a, x, k); }
    hide NextTracked, WellFormed, Gap, Listening, Punctual, Followed;
    if k < |s.net| {
      assert Followed(s, k, x, Gap(g[x], h));
      FollowedStays(g, w, a, x, k, Gap(g[x], h));
    } else {
      assert u.nodes[x].lastHeartbeat == a.env.now;
      LastIsFollowed(u, k, x, Gap(g[x], h));
    }
  }

  lemma LastIsFollowed(s: Sys, k: nat, x: Id, gap: int)
    requires IsBeat(s, k, x) && x in s.nodes && s.net[k].sentAt == s.nodes[x].lastHeartbeat
    ensures Followed(s, k, x, gap)
  {
  }

  lemma FollowedStays(g: Members, w: Tracked, a: Action, x: Id, k: nat, gap: int)
    requires WellFormed(g, w.s) && Enabled(g, w.s, a) && x in w.s.nodes
    requires IsBeat(w.s, k, x) && Followed(w.s, k, x, gap)
    requires var u := NextTracked(g, w, a, x).s;
             x in u.nodes
             && (u.nodes[x].lastHeartbeat == w.s.nodes[x].lastHeartbeat
                 || (IsBeat(u, |w.s.net|, x) && w.s.nodes[x].lastHeartbeat < u.net[|w.s.net|].sentAt <= w.s.nodes[x].lastHeartbeat + gap))
    ensures var u := NextTracked(g, w, a, x).s; IsBeat(u, k, x) && Followed(u, k, x, gap)
  {
    hide NextTracked, WellFormed, Enabled;
    BeatStays(g, w, a, x, k);
    var u := NextTracked(g, w, a, x).s;
    if s: nat :| IsBeat(w.s, s, x) && w.s.net[k].sentAt < w.s.net[s].sentAt <= w.s.net[k].sentAt + gap {
      BeatStays(g, w, a, x, s);
      assert IsBeat(u, s, x);
    } else if u.nodes[x].lastHeartbeat != w.s.nodes[x].lastHeartbeat {
      assert IsBeat(u, |w.s.net|, x);
    }
  }

  lemma BeatTimes(g: Members, w: Tracked, a: Action, x: Id, q: Id, h: nat, d: nat)
    requires Tracking(g, w, x, q, h) && Punctual(g, w, a, x, q, h, d)
    ensures WellFormed(g, w.s) && Enabled(g, w.s, a)
    ensures var u := NextTracked(g, w, a, x);
            && x in g && x in u.s.nodes && u.s.nodes[x].lastHeartbeat <= u.s.now
            && u.turned <= u.s.nodes[x].lastHeartbeat + g[x].heartbeat * 1000
            && forall k :: 0 <= k < |u.s.net| ==> u.s.net[k].msg != Leave(x)
  {
    NewBeats(g, w, a, x, q, h, d);
    OthersRest(g, w.s, a, x);
    assert g[x].Ordered();
    hide Next, WellFormed, Gap, Listening, Followed, Punctual, IsBeat;
  }

  lemma StepKeepsBeating(g: Members, w: Tracked, a: Action, x: Id, q: Id, h: nat, d: nat)
    requires Tracking(g, w, x, q, h) && Punctual(g, w, a, x, q, h, d)
    ensures WellFormed(g, w.s) && Enabled(g, w.s, a)
    ensures Beating(g, NextTracked(g, w, a, x), x, h)
  {
    var u := NextTracked(g, w, a, x).s;
    BeatTimes(g, w, a, x, q, h, d);
    hide NextTracked, WellFormed, Tracking, Gap, Listening, Followed, Punctual, IsBeat;
    forall k: nat | IsBeat(u, k, x) ensures k < |u.net| && u.net[k].sentAt <= u.now && Followed(u, k, x, Gap(g[x], h)) {
      BeatIsPacket(u, k, x);
      StepKeepsFollowed(g, w, a, x, q, h, d, k);
    }
  }

  lemma BeatIsPacket(s: Sys, k: nat, x: Id)
    requires IsBeat(s, k, x)
    ensures k < |s.net|
  {
  }

  lemma HeardOnTurn(g: Members, w: Tracked, a: Action, x: Id, q: Id, h: nat, d: nat)
    requires Tracking(g, w, x, q, h) && Punctual(g, w, a, x, q, h, d) && a.who == q
    requires x in g && q in g && Gap(g[x], h) + d < (g[q].peerTimeout + 1) * 1000
    ensures WellFormed(g, w.s) && Enabled(g, w.s, a)
    ensures var n, m := w.s.nodes[q], NextTracked(g, w, a, x).s.nodes[q];
            && Lefts(m.notes, x) == Lefts(n.notes, x) && Distinct(m.peers)
            && (x in Keys(n.peers) ==> x in Keys(m.peers))
            && (Hears(a.ev, Heartbeat(x)) ==> (x, a.env.now) in m.peers)
            && (!Hears(a.ev, Heartbeat(x)) ==> forall t :: (x, t) in m.peers <==> (x, t) in n.peers)
  {
    NextParts(g, w.s, a);
    NeverOverdue(g, w, a, x, q, h, d);
    hide Next, Good, Turn, Keys, Stale, Gap, Followed, Distinct, AtElection;
    TurnDropsTheOverdue(g[q], w.s.nodes[q], a.ev, a.env, x);
    TurnKeepsPeerTimes(g[q], w.s.nodes[q], a.ev, a.env, x);
  }

  lemma HeardByStays(g: Members, w: Tracked, a: Action, x: Id, q: Id, t: Time)
    requires WellFormed(g, w.s) && Enabled(g, w.s, a) && HeardBy(w.s, q, x, t)
    ensures HeardBy(NextTracked(g, w, a, x).s, q, x, t)
  {
  }

  lemma HeardSinceStays(g: Members, w: Tracked, a: Action, x: Id, q: Id, k: nat)
    requires WellFormed(g, w.s) && Enabled(g, w.s, a) && Listening(w.s, q, x) && (q, k) in w.s.seen
    requires IsBeat(NextTracked(g, w, a, x).s, k, x) && q in NextTracked(g, w, a, x).s.nodes
    requires forall t :: (x, t) in w.s.nodes[q].peers ==> (x, t) in NextTracked(g, w, a, x).s.nodes[q].peers
    ensures HeardSince(NextTracked(g, w, a, x).s, q, x, k)
  {
    assert k < |w.s.net|;
    BeatStays(g, w, a, x, k);
    hide NextTracked, WellFormed, Enabled;
    assert HeardSince(w.s, q, x, k);
    var t :| (x, t) in w.s.nodes[q].peers && w.s.net[k].sentAt <= t;
    assert (x, t) in NextTracked(g, w, a, x).s.nodes[q].peers;
  }

  /** A listener that does not take the turn, or does not hear x in it, keeps what it knows. */
  lemma ListenerRests(g: Members, w: Tracked, a: Action, x: Id, q: Id)
    requires WellFormed(g, w.s) && Enabled(g, w.s, a) && Listening(w.s, q, x) && q in g
    requires a.who == q ==> !Hears(a.ev, Heartbeat(x))
    requires q in Next(g, w.s, a).nodes
    requires forall t :: (x, t) in Next(g, w.s, a).nodes[q].peers <==> (x, t) in w.s.nodes[q].peers
    ensures Listening(NextTracked(g, w, a, x).s, q, x)
  {
    ListenerHeardAll(g, w, a, x, q);
    hide Next, WellFormed, Enabled, IsBeat, HeardSince, HeardBy, Good, Turn, Hears;
    var u := NextTracked(g, w, a, x).s;
    forall t | (x, t) in u.nodes[q].peers ensures HeardBy(u, q, x, t) {
      HeardByStays(g, w, a, x, q, t);
    }
  }

  lemma ListenerHeardAll(g: Members, w: Tracked, a: Action, x: Id, q: Id)
    requires WellFormed(g, w.s) && Enabled(g, w.s, a) && Listening(w.s, q, x) && q in g
    requires a.who == q ==> !Hears(a.ev, Heartbeat(x))
    requires q in Next(g, w.s, a).nodes
    requires forall t :: (x, t) in Next(g, w.s, a).nodes[q].peers <==> (x, t) in w.s.nodes[q].peers
    ensures var u := NextTracked(g, w, a, x).s;
            && q in u.nodes
            && forall k: nat :: IsBeat(u, k, x) && (q, k) in u.seen ==> k < |u.net| && HeardSince(u, q, x, k)
  {
    SeenOf(g, w, a, x, q);
    hide Next, WellFormed, Enabled, IsBeat, HeardSince, HeardBy, Good, Turn, Hears;
    var u := NextTracked(g, w, a, x).s;
    forall k: nat | IsBeat(u, k, x) && (q, k) in u.seen ensures k < |u.net| && HeardSince(u, q, x, k) {
      BeatIsPacket(u, k, x);
      HeardSinceStays(g, w, a, x, q, k);
    }
  }

  /** The heartbeats of x that q handled after a step: the old ones and the delivered one. */
  lemma SeenOf(g: Members, w: Tracked, a: Action, x: Id, q: Id)
    requires WellFormed(g, w.s) && Enabled(g, w.s, a)
    ensures var u := NextTracked(g, w, a, x).s;
            forall k: nat :: IsBeat(u, k, x) && (q, k) in u.seen ==>
              (q, k) in w.s.seen || (a.who == q && Hears(a.ev, Heartbeat(x)) && k == a.packet)
  {
  }

  lemma ListenerHears(g: Members, w: Tracked, a: Action, x: Id, q: Id)
    requires WellFormed(g, w.s) && Enabled(g, w.s, a) && q in g
    requires a.who == q && Hears(a.ev, Heartbeat(x)) && q in Next(g, w.s, a).nodes
    requires Distinct(Next(g, w.s, a).nodes[q].peers) && (x, a.env.now) in Next(g, w.s, a).nodes[q].peers
    requires forall k: nat :: IsBeat(w.s, k, x) ==> w.s.net[k].sentAt <= w.s.now
    ensures Listening(NextTracked(g, w, a, x).s, q, x)
  {
    var s, u := w.s, NextTracked(g, w, a, x).s;
    SeenOf(g, w, a, x, q);
    forall k: nat | IsBeat(u, k, x) && (q, k) in u.seen ensures k < |u.net| && HeardSince(u, q, x, k) {
      BeatIsPacket(u, k, x);
      BeatStays(g, w, a, x, k);
    }
    BeatStays(g, w, a, x, a.packet);
    forall t | (x, t) in u.nodes[q].peers ensures HeardBy(u, q, x, t) {
      SameKeySameValue(u.nodes[q].peers, x, t, a.env.now);
      assert IsBeat(u, a.packet, x) && (q, a.packet) in u.seen;
    }
  }

  lemma BeatsArePast(g: Members, w: Tracked, x: Id, h: nat)
    requires Beating(g, w, x, h)
    ensures forall k: nat :: IsBeat(w.s, k, x) ==> w.s.net[k].sentAt <= w.s.now
  {
    hide Followed;
  }

  /** One step: x keeps beating, q keeps listening and does not drop x. */
  lemma StepKeepsTracking(g: Members, w: Tracked, a: Action, x: Id, q: Id, h: nat, d: nat)
    requires Tracking(g, w, x, q, h) && Punctual(g, w, a, x, q, h, d)
    requires x in g && q in g && Gap(g[x], h) + d < (g[q].peerTimeout + 1) * 1000
    ensures WellFormed(g, w.s) && Enabled(g, w.s, a)
    ensures Tracking(g, NextTracked(g, w, a, x), x, q, h)
    ensures var n, m := w.s.nodes[q], NextTracked(g, w, a, x).s.nodes[q];
            Lefts(m.notes, x) == Lefts(n.notes, x) && (x in Keys(n.peers) ==> x in Keys(m.peers))
  {
    StepKeepsBeating(g, w, a, x, q, h, d);
    NextIsWellFormed(g, w.s, a);
    OthersRest(g, w.s, a, q);
    hide Next, WellFormed, Beating, Listening, Gap, Keys, Lefts;
    if a.who == q { HeardOnTurn(g, w, a, x, q, h, d); }
    if a.who == q && Hears(a.ev, Heartbeat(x)) {
      BeatsArePast(g, w, x, h);
      ListenerHears(g, w, a, x, q);
    } else {
      ListenerRests(g, w, a, x, q);
    }
  }

  // ---------------------------------------------------------------- whole runs

  ghost predicate PunctualStep(g: Members, w: Tracked, a: Action, u: Tracked, x: Id, q: Id, h: nat, d: nat) {
    WellFormed(g, w.s) && Punctual(g, w, a, x, q, h, d) && u == NextTracked(g, w, a, x)
  }

  ghost predicate PunctualRun(g: Members, x: Id, q: Id, h: nat, d: nat, states: seq<Tracked>, acts: seq<Action>) {
    && |states| == |acts| + 1
    && Tracking(g, states[0], x, q, h)
    && forall i :: 0 <= i < |acts| ==> PunctualStep(g, states[i], acts[i], states[i + 1], x, q, h, d)
  }

  lemma {:induction false} TrackingHolds(
      g: Members, x: Id, q: Id, h: nat, d: nat, states: seq<Tracked>, acts: seq<Action>, i: nat, j: nat)
    requires x in g && q in g && Gap(g[x], h) + d < (g[q].peerTimeout + 1) * 1000
    requires PunctualRun(g, x, q, h, d, states, acts) && i <= j < |states|
    ensures Tracking(g, states[j], x, q, h)
    ensures q in states[i].s.nodes && q in states[j].s.nodes
    ensures Lefts(states[j].s.nodes[q].notes, x) == Lefts(states[i].s.nodes[q].notes, x)
    ensures x in Keys(states[i].s.nodes[q].peers) ==> x in Keys(states[j].s.nodes[q].peers)
    decreases i, j
  {
    hide Tracking, PunctualStep, Gap, Keys, Lefts;
    if i < j {
      TrackingHolds(g, x, q, h, d, states, acts, i, j - 1);
      TrackingStep(g, states[j - 1], acts[j - 1], states[j], x, q, h, d);
    } else if 0 < i {
      TrackingHolds(g, x, q, h, d, states, acts, i - 1, i);
    } else {
      TrackedHasNode(g, states[0], x, q, h);
    }
  }

  /** A live member is never dropped: q is never told that x left, and once it knows x it always does. */
  lemma LivePeerIsNeverDropped(
      g: Members, x: Id, q: Id, h: nat, d: nat, states: seq<Tracked>, acts: seq<Action>, i: nat, j: nat)
    requires x in g && q in g && Gap(g[x], h) + d < (g[q].peerTimeout + 1) * 1000
    requires PunctualRun(g, x, q, h, d, states, acts) && i <= j < |states|
    ensures q in states[i].s.nodes && q in states[j].s.nodes
    ensures Lefts(states[j].s.nodes[q].notes, x) == Lefts(states[i].s.nodes[q].notes, x)
    ensures x in Keys(states[i].s.nodes[q].peers) ==> x in Keys(states[j].s.nodes[q].peers)
  {
    hide PunctualRun, Gap, Keys, Lefts;
    TrackingHolds(g, x, q, h, d, states, acts, i, j);
  }

  lemma TrackedHasNode(g: Members, w: Tracked, x: Id, q: Id, h: nat)
    requires Tracking(g, w, x, q, h)
    ensures q in w.s.nodes
  {
    hide WellFormed, Beating;
  }

  lemma TrackingStep(g: Members, w: Tracked, a: Action, u: Tracked, x: Id, q: Id, h: nat, d: nat)
    requires Tracking(g, w, x, q, h) && PunctualStep(g, w, a, u, x, q, h, d)
    requires x in g && q in g && Gap(g[x], h) + d < (g[q].peerTimeout + 1) * 1000
    ensures Tracking(g, u, x, q, h) && q in w.s.nodes && q in u.s.nodes
    ensures Lefts(u.s.nodes[q].notes, x) == Lefts(w.s.nodes[q].notes, x)
    ensures x in Keys(w.s.nodes[q].peers) ==> x in Keys(u.s.nodes[q].peers)
  {
    hide Tracking, WellFormed, Punctual, NextTracked, Gap, Keys, Lefts;
    StepKeepsTracking(g, w, a, x, q, h, d);
    TrackedHasNode(g, w, x, q, h);
    TrackedHasNode(g, u, x, q, h);
  }

  // ---------------------------------------------------------------- where runs start

  /** Members that just started, in any order, with their first heartbeats under way. */
  ghost predicate NewSystem(g: Members, envs: map<Id, Env>, s: Sys) {
    && s.nodes.Keys == g.Keys == envs.Keys && s.seen == {}
    && (forall x :: x in g ==>
          && g[x].ownId == x && g[x].Ordered() && envs[x].For(g[x]) && envs[x].clock <= s.now
          && 0 <= envs[x].now && s.nodes[x] == Start(g[x], envs[x]))
    && (forall k :: 0 <= k < |s.net| ==>
          exists x :: x in g && s.net[k].msg in Start(g[x], envs[x]).pub && s.net[k].sentAt == envs[x].now)
  }

  lemma StartBeatsOnce(p: Params, e: Env)
    ensures Start(p, e).pub == (if p.heartbeat * 1000 < e.now then [Heartbeat(p.ownId)] else [])
    ensures Start(p, e).lastHeartbeat == (if p.heartbeat * 1000 < e.now then e.now else 0)
    ensures Start(p, e).peers == [] && Start(p, e).notes == []
  {
  }

  lemma FirstPackets(g: Members, envs: map<Id, Env>, s: Sys, x: Id, k: nat)
    requires NewSystem(g, envs, s) && x in g && k < |s.net|
    ensures s.net[k].msg != Leave(x) && s.net[k].sentAt <= s.now
    ensures s.net[k].msg == Heartbeat(x) ==> s.net[k].sentAt == s.nodes[x].lastHeartbeat
  {
  }

  lemma NewSystemIsTracked(g: Members, envs: map<Id, Env>, s: Sys, x: Id, q: Id, h: nat)
    requires NewSystem(g, envs, s) && x in g && q in g
    ensures Tracking(g, Tracked(s, envs[x].now), x, q, h)
    ensures Lefts(s.nodes[q].notes, x) == 0
  {
    hide Good, Gap, Start, Followed;
    forall y | y in g ensures Good(g[y], s.nodes[y]) && s.nodes[y].lastWait <= s.now {
      StartIsGood(g[y], envs[y]);
    }
    StartBeatsOnce(g[x], envs[x]);
    StartBeatsOnce(g[q], envs[q]);
    forall k: nat | IsBeat(s, k, x) ensures s.net[k].sentAt <= s.now && Followed(s, k, x, Gap(g[x], h)) {
      FirstPackets(g, envs, s, x, k);
      LastIsFollowed(s, k, x, Gap(g[x], h));
    }
    forall k | 0 <= k < |s.net| ensures s.net[k].msg != Leave(x) {
      FirstPackets(g, envs, s, x, k);
    }
  }
}
