/**
  A group: members that take loop turns in any order, and the packets they broadcast. Every packet
  ever sent stays in `net`; `seen` says which member has handled which packet, so a packet reaches
  a member at most once, in any order, or never.
 */
module GroupSystem {
  import opened Wrappers
  import opened OrderedDict
  import opened GroupModel
  import opened GroupNode

  datatype Packet = Packet(msg: Msg, sentAt: Time)

  datatype Sys = Sys(nodes: map<Id, Node>, net: seq<Packet>, seen: set<(Id, nat)>, now: Time)

  type Members = map<Id, Params>

  /** Member `who` takes a turn; if the turn delivers a group message it is packet number `packet`. */
  datatype Action = Action(who: Id, ev: Event, env: Env, packet: nat)

  ghost predicate Delivers(ev: Event) {
    ev.Ready? && ev.net.Some?
  }

  ghost function Sent(n: Node, m: Node): seq<Msg> {
    if |n.pub| <= |m.pub| then m.pub[|n.pub|..] else []
  }

  ghost function Packed(msgs: seq<Msg>, now: Time): (r: seq<Packet>)
    ensures |r| == |msgs| && forall i :: 0 <= i < |r| ==> r[i] == Packet(msgs[i], now)
  {
    seq(|msgs|, i requires 0 <= i < |msgs| => Packet(msgs[i], now))
  }

  ghost predicate WellFormed(g: Members, s: Sys) {
    && s.nodes.Keys == g.Keys
    && (forall x :: x in g ==>
          && g[x].ownId == x && g[x].Ordered()
          && Good(g[x], s.nodes[x]) && s.nodes[x].lastWait <= s.now)
    && (forall x, k :: (x, k) in s.seen ==> k < |s.net|)
  }

  ghost predicate Enabled(g: Members, s: Sys, a: Action) {
    && a.who in g && a.who in s.nodes
    && a.env.For(g[a.who]) && s.now <= a.env.now
    && (Delivers(a.ev) ==>
          a.packet < |s.net| && s.net[a.packet].msg == a.ev.net.value && (a.who, a.packet) !in s.seen)
  }

  ghost function Next(g: Members, s: Sys, a: Action): Sys
    requires WellFormed(g, s) && Enabled(g, s, a)
  {
    var n := s.nodes[a.who];
    var m := Turn(g[a.who], n, a.ev, a.env);
    Sys(s.nodes[a.who := m],
        s.net + Packed(Sent(n, m), a.env.now),
        if Delivers(a.ev) then s.seen + {(a.who, a.packet)} else s.seen,
        a.env.clock)
  }

  lemma NextIsWellFormed(g: Members, s: Sys, a: Action)
    requires WellFormed(g, s) && Enabled(g, s, a)
    ensures WellFormed(g, Next(g, s, a))
  {
    hide Turn, Good, Packed, Sent;
    TurnKeepsGood(g[a.who], s.nodes[a.who], a.ev, a.env);
  }

  /** The parts of the next state, one by one. */
  lemma NextParts(g: Members, s: Sys, a: Action)
    requires WellFormed(g, s) && Enabled(g, s, a)
    ensures var u, m := Next(g, s, a), Turn(g[a.who], s.nodes[a.who], a.ev, a.env);
            && u.nodes.Keys == g.Keys && u.nodes[a.who] == m && u.now == a.env.clock
            && (forall x :: x in g && x != a.who ==> u.nodes[x] == s.nodes[x])
            && |u.net| == |s.net| + |Sent(s.nodes[a.who], m)|
            && (forall k :: 0 <= k < |s.net| ==> u.net[k] == s.net[k])
            && (forall k :: |s.net| <= k < |u.net| ==>
                  u.net[k] == Packet(Sent(s.nodes[a.who], m)[k - |s.net|], a.env.now))
            && u.seen == (if Delivers(a.ev) then s.seen + {(a.who, a.packet)} else s.seen)
  {
    hide Good, Turn, Sent;
  }

  lemma OthersRest(g: Members, s: Sys, a: Action, x: Id)
    requires WellFormed(g, s) && Enabled(g, s, a) && x in g
    ensures x in s.nodes && Next(g, s, a).nodes.Keys == g.Keys && s.now <= Next(g, s, a).now && a.env.now <= Next(g, s, a).now
    ensures x != a.who ==> Next(g, s, a).nodes[x] == s.nodes[x]
  {
    hide Good, Turn, Sent, Packed;
  }

  // ---------------------------------------------------------------- what a turn broadcasts

  ghost predicate Electoral(m: Msg) {
    m.ReqVote? || m.RspVote? || m.Authority?
  }

  ghost predicate Extends(a: Node, b: Node) {
    |a.pub| <= |b.pub| && b.pub[..|a.pub|] == a.pub
  }

  /** Nothing electoral, no heartbeat and no farewell was broadcast. */
  ghost predicate Quiet(a: Node, b: Node) {
    Extends(a, b) && forall i :: |a.pub| <= i < |b.pub| ==>
                       !Electoral(b.pub[i]) && !b.pub[i].Heartbeat? && !b.pub[i].Leave?
  }

  lemma PeersAreQuiet(p: Params, n: Node, now: Time)
    ensures UpdatePeers(p, n, now).pub == n.pub
  {
  }

  lemma {:induction false} AnnouncementsAreQuiet(polls: Dict<RequestId, PollState>, now: Time)
    ensures forall x :: x in Announcements(polls, now) ==> x.Ann?
  {
    hide Judge;
    if polls != [] { AnnouncementsAreQuiet(polls[1..], now); }
  }

  lemma CheckAllPollsIsQuiet(n: Node, now: Time)
    ensures Quiet(n, CheckAllPolls(n, now))
  {
    AnnouncementsAreQuiet(n.polls, now);
    var more := Announcements(n.polls, now);
    assert forall i :: 0 <= i < |more| ==> more[i] in more;
  }

  lemma PollsAreQuiet(p: Params, n: Node, r: Request, id: RequestId, yes: bool, at: Time)
    ensures Quiet(n, OpenPoll(p, n, r, at)) && Quiet(n, UpdatePoll(n, id, yes, at))
  {
    hide Judge, Put, Remove, Position, PollDeadline;
  }

  lemma CommandIsQuiet(p: Params, n: Node, c: Command)
    ensures Extends(n, HandleCommand(p, n, c))
    ensures !c.LeaveGroup? ==> Quiet(n, HandleCommand(p, n, c))
    ensures c.LeaveGroup? ==> HandleCommand(p, n, c).pub == n.pub + [Leave(p.ownId)]
  {
    hide OpenPoll, UpdatePoll;
    match c
    case AskVote(r, at) => PollsAreQuiet(p, Acked(n), r, 0, false, at);
    case CastVote(id, yes, at) => PollsAreQuiet(p, n, Request(id, Majority, 0, 0), id, yes, at);
    case _ =>
  }

  lemma AskIsQuiet(p: Params, n: Node, a: Ask)
    ensures Quiet(n, HandleAsk(p, n, a))
  {
  }

  lemma AskKeepsNotes(p: Params, n: Node, a: Ask)
    ensures HandleAsk(p, n, a).notes == n.notes
  {
    hide PollDeadline, Judge, Put, Remove, Position;
  }

  /** The heartbeat comes first, and it is the only one; the election code adds at most one message;
      everything else a turn broadcasts is poll and component traffic. */
  lemma TurnBroadcasts(p: Params, n: Node, ev: Event, e: Env)
    requires n.role.Leader? ==> n.ldrPort.Some?
    ensures var b, a := Beat(p, n, e.now), AtElection(p, n, ev, e);
            Extends(b, a) && (!(ev.Ready? && ev.command == Some(LeaveGroup)) ==> Quiet(b, a))
    ensures ev.Ready? && ev.command == Some(LeaveGroup) ==>
              AtElection(p, n, ev, e).pub == Beat(p, n, e.now).pub + [Leave(p.ownId)]
    ensures AtElection(p, n, ev, e).role.Leader? ==> AtElection(p, n, ev, e).ldrPort.Some?
    ensures Quiet(Elect(p, AtElection(p, n, ev, e), ev, e), Turn(p, n, ev, e))
  {
    hide UpdatePeers, CheckAllPolls, HandleCommand, HandleAsk, HandleNet, OnTimeout, Quiet;
    TurnIsElection(p, n, ev, e);
    var b := Beat(p, n, e.now);
    PeersAreQuiet(p, b, e.now);
    var m := UpdatePeers(p, b, e.now);
    match ev
    case Timeout =>
      PeersAreQuiet(p, m, e.now);
      var m1 := UpdatePeers(p, m, e.now);
      CheckAllPollsIsQuiet(m1, e.now);
      SamePubQuiet(b, m1, CheckAllPolls(m1, e.now));
      SelfQuiet(Turn(p, n, ev, e));
    case Ready(c, net, a) =>
      if c.Some? {
        CommandIsQuiet(p, m, c.value);
        if !c.value.LeaveGroup? { SamePubQuiet(b, m, HandleCommand(p, m, c.value)); }
      } else {
        SelfQuiet(m);
        SamePubQuiet(b, m, m);
      }
      var m2 := AfterNet(p, AfterCommand(p, m, c), net, e);
      if a.Some? { AskIsQuiet(p, m2, a.value); } else { SelfQuiet(m2); }
  }

  lemma SelfQuiet(n: Node)
    ensures Quiet(n, n)
  {
  }

  lemma SamePubQuiet(a: Node, b: Node, c: Node)
    requires a.pub == b.pub && Quiet(b, c)
    ensures Quiet(a, c) && Extends(a, c)
  {
  }

  // ---------------------------------------------------------------- election traffic

  /** What an election message says about the turn from n to m that broadcast it. */
  ghost predicate Speaks(p: Params, n: Node, ev: Event, m: Node, x: Msg) {
    match x
    case ReqVote(term, node) =>
      node == p.ownId && term == m.term && n.role.Follower? && m.role.Candidate?
    case RspVote(term, node, yes, voter) =>
      && voter == p.ownId && Delivers(ev) && ev.net.value == ReqVote(term, node)
      && !n.role.Leader?
      && (yes ==> m.role.Follower? && m.votedFor == Some(node) && m.term == term)
      && (yes && n.role.Follower? ==> Grants(n, term, node))
      && (yes && n.role.Candidate? ==> n.term < term)
    case Authority(term, node, _, _) =>
      node == p.ownId && term == m.term && m.role.Leader?
    case _ => false
  }

  lemma FollowerSpeaks(p: Params, a: Node, ev: Event, e: Env)
    requires a.role.Follower?
    ensures var b := Elect(p, a, ev, e);
            b.pub == a.pub ||
            (|b.pub| == |a.pub| + 1 && b.pub == a.pub + [b.pub[|a.pub|]] && Speaks(p, a, ev, b, b.pub[|a.pub|]))
  {
    hide CandidateHears, LeaderHears, UpdateLink, WithExit, Put, Remove, Keys;
  }

  lemma CandidateSpeaks(p: Params, a: Node, ev: Event, e: Env)
    requires a.role.Candidate?
    ensures var b := Elect(p, a, ev, e);
            b.pub == a.pub ||
            (|b.pub| == |a.pub| + 1 && b.pub == a.pub + [b.pub[|a.pub|]] && Speaks(p, a, ev, b, b.pub[|a.pub|]))
  {
    hide FollowerHears, LeaderHears, UpdateLink, WithExit, Put, Remove, Keys;
  }

  lemma LeaderSpeaks(p: Params, a: Node, ev: Event, e: Env)
    requires a.role.Leader? && a.ldrPort.Some?
    ensures var b := Elect(p, a, ev, e);
            b.pub == a.pub ||
            (|b.pub| == |a.pub| + 1 && b.pub == a.pub + [b.pub[|a.pub|]] && Speaks(p, a, ev, b, b.pub[|a.pub|]))
  {
    hide FollowerHears, CandidateHears, UpdateLink, WithExit, Put, Remove, Keys;
  }

  /** A turn broadcasts at most one election message, at one place, and what it says holds. */
  lemma TurnSpeaks(p: Params, n: Node, ev: Event, e: Env)
    requires Good(p, n)
    ensures var s := Sent(n, Turn(p, n, ev, e));
            && Extends(n, Turn(p, n, ev, e))
            && (forall i :: 0 <= i < |s| && Electoral(s[i]) ==> Speaks(p, n, ev, Turn(p, n, ev, e), s[i]))
            && (forall i, j :: 0 <= i < j < |s| ==> !(Electoral(s[i]) && Electoral(s[j])))
            && (forall i :: 0 <= i < |s| && s[i].Leave? ==> s[i].who == p.ownId && ev.Ready? && ev.command == Some(LeaveGroup))
            && (forall i :: 0 <= i < |s| && s[i].Heartbeat? ==>
                  i == 0 && s[i].who == p.ownId && n.lastHeartbeat + p.heartbeat * 1000 < e.now)
            && (n.lastHeartbeat + p.heartbeat * 1000 < e.now ==> 0 < |s| && s[0] == Heartbeat(p.ownId))
  {
    hide Good, Turn, AtElection, Elect, Speaks, Electoral;
    GoodLeaderHasPort(p, n);
    var b, a := Beat(p, n, e.now), AtElection(p, n, ev, e);
    TurnBroadcasts(p, n, ev, e);
    TurnIsElection(p, n, ev, e);
    var c, m := Elect(p, a, ev, e), Turn(p, n, ev, e);
    match a.role {
      case Follower => FollowerSpeaks(p, a, ev, e);
      case Candidate => CandidateSpeaks(p, a, ev, e);
      case Leader => LeaderSpeaks(p, a, ev, e);
    }
    Assemble(p, n, b, a, c, m, ev, e);
  }

  lemma GoodLeaderHasPort(p: Params, n: Node)
    requires Good(p, n)
    ensures n.role.Leader? ==> n.ldrPort.Some?
  {
  }

  lemma SpeaksFor(p: Params, a: Node, n: Node, ev: Event, c: Node, m: Node, x: Msg)
    requires Speaks(p, a, ev, c, x) && SameElection(n, a) && SameElection(c, m)
    ensures Speaks(p, n, ev, m, x) && Electoral(x)
  {
  }

  /** Where the messages of a turn come from: the heartbeat, the prologue, the election code, the rest. */
  ghost predicate Parts(p: Params, n: Node, b: Node, a: Node, c: Node, m: Node, ev: Event, e: Env) {
    && b == Beat(p, n, e.now) && Extends(b, a) && Quiet(c, m)
    && (if ev.Ready? && ev.command == Some(LeaveGroup) then a.pub == b.pub + [Leave(p.ownId)] else Quiet(b, a))
    && (c.pub == a.pub || (|c.pub| == |a.pub| + 1 && c.pub == a.pub + [c.pub[|a.pub|]]))
  }

  lemma Origin(p: Params, n: Node, b: Node, a: Node, c: Node, m: Node, ev: Event, e: Env, i: nat)
    requires Parts(p, n, b, a, c, m, ev, e) && i < |m.pub|
    ensures |n.pub| <= |b.pub| <= |a.pub| <= |c.pub| <= |m.pub|
    ensures i < |n.pub| ==> m.pub[i] == n.pub[i]
    ensures |n.pub| <= i < |b.pub| ==>
              i == |n.pub| && m.pub[i] == Heartbeat(p.ownId) && n.lastHeartbeat + p.heartbeat * 1000 < e.now
    ensures |b.pub| <= i && m.pub[i].Leave? ==>
              || (i == |a.pub| && |a.pub| < |c.pub| && m.pub[i] == c.pub[|a.pub|])
              || (m.pub[i].who == p.ownId && ev.Ready? && ev.command == Some(LeaveGroup))
    ensures |b.pub| <= i && m.pub[i].Heartbeat? ==> i == |a.pub| && |a.pub| < |c.pub| && m.pub[i] == c.pub[|a.pub|]
    ensures Electoral(m.pub[i]) && |n.pub| <= i ==> i == |a.pub| && |a.pub| < |c.pub| && m.pub[i] == c.pub[|a.pub|]
  {
    if i < |c.pub| {
      assert m.pub[i] == m.pub[..|c.pub|][i];
      if i < |a.pub| {
        assert c.pub[i] == a.pub[i];
        if i < |b.pub| { assert a.pub[i] == a.pub[..|b.pub|][i]; }
      }
    }
  }

  lemma SpeaksElectoral(p: Params, n: Node, ev: Event, m: Node, x: Msg)
    requires Speaks(p, n, ev, m, x)
    ensures Electoral(x) && !x.Heartbeat? && !x.Leave?
  {
  }

  lemma Assemble(p: Params, n: Node, b: Node, a: Node, c: Node, m: Node, ev: Event, e: Env)
    requires Parts(p, n, b, a, c, m, ev, e) && SameElection(n, a) && SameElection(c, m)
    requires |a.pub| < |c.pub| ==> Speaks(p, a, ev, c, c.pub[|a.pub|])
    ensures var s := Sent(n, m);
            && Extends(n, m)
            && (forall i :: 0 <= i < |s| && Electoral(s[i]) ==> Speaks(p, n, ev, m, s[i]))
            && (forall i, j :: 0 <= i < j < |s| ==> !(Electoral(s[i]) && Electoral(s[j])))
            && (forall i :: 0 <= i < |s| && s[i].Leave? ==> s[i].who == p.ownId && ev.Ready? && ev.command == Some(LeaveGroup))
            && (forall i :: 0 <= i < |s| && s[i].Heartbeat? ==>
                  i == 0 && s[i].who == p.ownId && n.lastHeartbeat + p.heartbeat * 1000 < e.now)
            && (n.lastHeartbeat + p.heartbeat * 1000 < e.now ==> 0 < |s| && s[0] == Heartbeat(p.ownId))
  {
    if |a.pub| < |c.pub| {
      SpeaksFor(p, a, n, ev, c, m, c.pub[|a.pub|]);
      SpeaksElectoral(p, n, ev, m, c.pub[|a.pub|]);
    }
    hide Speaks, SameElection, Electoral, Quiet;
    var s := Sent(n, m);
    assert |n.pub| <= |m.pub|;
    forall i | 0 <= i < |n.pub| ensures m.pub[i] == n.pub[i] {
      Origin(p, n, b, a, c, m, ev, e, i);
    }
    forall i | 0 <= i < |s|
      ensures Electoral(s[i]) ==> i == |a.pub| - |n.pub| && Speaks(p, n, ev, m, s[i])
      ensures s[i].Leave? ==> s[i].who == p.ownId && ev.Ready? && ev.command == Some(LeaveGroup)
      ensures s[i].Heartbeat? ==> i == 0 && s[i].who == p.ownId && n.lastHeartbeat + p.heartbeat * 1000 < e.now
    {
      Origin(p, n, b, a, c, m, ev, e, |n.pub| + i);
    }
    if |n.pub| < |b.pub| { Origin(p, n, b, a, c, m, ev, e, |n.pub|); }
  }
}
