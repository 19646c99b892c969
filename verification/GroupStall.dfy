/**
  Elections that nobody wins. A member that stood for election or was asked for its vote has no leader deadline any
  more, and only a leader's messages give it another one: when an election ends without a leader after all members
  took part, no member ever stands again.
 */
module GroupStall {
  import opened Wrappers
  import opened OrderedDict
  import opened GroupModel
  import opened GroupNode
  import opened GroupSystem
  import opened GroupSteps
  import opened GroupDetector

  /** The messages that set a member's leader deadline. */
  ghost predicate Awakens(x: Msg) {
    x.Authority? || x.Rcm? || x.Ann?
  }

  ghost predicate Awakened(ev: Event) {
    ev.Ready? && ev.net.Some? && Awakens(ev.net.value)
  }

  /** The member neither leads nor knows a leader, and has no poll open. */
  ghost predicate Leaderless(n: Node) {
    !n.role.Leader? && n.leader.None? && n.polls == [] && (n.role.Candidate? ==> n.leaderDeadline.None?)
  }

  /** A follower that waits for no leader. */
  ghost predicate Resigned(n: Node) {
    Leaderless(n) && n.role.Follower? && n.leaderDeadline.None?
  }

  ghost predicate NoAsk(ev: Event) {
    ev.Ready? ==> ev.ask.None?
  }

  /** A candidate counts no yes vote. */
  ghost predicate NoVote(p: Params, n: Node, ev: Event) {
    n.role.Candidate? ==> !YesForMe(p, ev)
  }

  // ---------------------------------------------------------------- one turn

  /** No poll is open, nothing was sent to a leader, and nothing was broadcast about polls. */
  ghost predicate Closed(a: Node, b: Node) {
    && b.polls == [] && b.asked == a.asked && Extends(a, b)
    && forall i :: |a.pub| <= i < |b.pub| ==> !b.pub[i].Rcm? && !b.pub[i].Ann?
  }

  lemma ClosedTwice(a: Node, b: Node, c: Node)
    requires Closed(a, b) && Closed(b, c)
    ensures Closed(a, c)
  {
    assert c.pub[..|a.pub|] == c.pub[..|b.pub|][..|a.pub|];
    forall i | |a.pub| <= i < |c.pub| ensures !c.pub[i].Rcm? && !c.pub[i].Ann? {
      if i < |b.pub| { assert c.pub[i] == c.pub[..|b.pub|][i]; }
    }
  }

  lemma PrologueKeepsClosed(p: Params, n: Node, now: Time)
    requires n.polls == []
    ensures Closed(n, Beat(p, n, now)) && Closed(n, UpdatePeers(p, n, now)) && Closed(n, CheckAllPolls(n, now))
    ensures SameElection(n, Beat(p, n, now)) && SameElection(n, UpdatePeers(p, n, now)) && SameElection(n, CheckAllPolls(n, now))
  {
    hide StaleIds, Fresh;
  }

  lemma CommandKeepsClosed(p: Params, n: Node, c: Command)
    requires n.polls == [] && n.leader.None?
    ensures Closed(n, HandleCommand(p, n, c))
  {
    hide OpenPoll, UpdatePoll;
  }

  lemma TimeoutKeepsClosed(p: Params, n: Node, e: Env)
    requires n.polls == [] && (n.role.Leader? ==> n.ldrPort.Some?)
    ensures Closed(n, OnTimeout(p, n, e))
  {
    hide UpdateLink, WithExit;
  }

  lemma ElectionKeepsClosed(p: Params, n: Node, m: Msg, e: Env)
    requires n.polls == []
    ensures Closed(n, ElectionHears(p, n, m, e))
  {
    hide UpdateLink, WithExit;
  }

  lemma NetKeepsClosed(p: Params, n: Node, m: Msg, e: Env)
    requires n.polls == []
    ensures Closed(n, HandleNet(p, n, m, e))
  {
    hide ElectionHears, Put, Remove, Keys;
    if m.Leave? { ElectionKeepsClosed(p, Forget(n, m.who), m, e); } else { ElectionKeepsClosed(p, n, m, e); }
  }

  lemma SelfClosed(n: Node)
    requires n.polls == []
    ensures Closed(n, n)
  {
  }

  lemma PollsStayClosed(p: Params, n: Node, ev: Event, e: Env)
    requires n.polls == [] && n.leader.None? && NoAsk(ev) && (n.role.Leader? ==> n.ldrPort.Some?)
    ensures Closed(n, Turn(p, n, ev, e))
  {
    var b := Beat(p, n, e.now);
    PrologueKeepsClosed(p, n, e.now);
    ClosedPolls(n, b);
    PrologueKeepsClosed(p, b, e.now);
    var m := UpdatePeers(p, b, e.now);
    hide Beat, UpdatePeers, CheckAllPolls, OnTimeout, HandleCommand, HandleNet, Closed;
    ClosedTwice(n, b, m);
    ClosedPolls(b, m);
    match ev
    case Timeout =>
      PrologueKeepsClosed(p, m, e.now);
      var m1 := UpdatePeers(p, m, e.now);
      ClosedPolls(m, m1);
      PrologueKeepsClosed(p, m1, e.now);
      var m2 := CheckAllPolls(m1, e.now);
      ClosedPolls(m1, m2);
      TimeoutKeepsClosed(p, m2, e);
      ClosedTwice(n, m, m1);
      ClosedTwice(n, m1, m2);
      ClosedTwice(n, m2, OnTimeout(p, m2, e));
    case Ready(c, net, _) =>
      SelfClosed(m);
      if c.Some? { CommandKeepsClosed(p, m, c.value); }
      var m1 := AfterCommand(p, m, c);
      ClosedPolls(m, m1);
      SelfClosed(m1);
      if net.Some? { NetKeepsClosed(p, m1, net.value, e); }
      ClosedTwice(n, m, m1);
      ClosedTwice(n, m1, AfterNet(p, m1, net, e));
  }

  lemma ClosedPolls(a: Node, b: Node)
    requires Closed(a, b)
    ensures b.polls == []
  {
  }

  /** A member without leader and polls stays so while it hears nothing of a leader and no vote for itself, and it says
      nothing of a leader either. Once it stood or was asked it has no deadline. */
  lemma LeaderlessTurn(p: Params, n: Node, ev: Event, e: Env)
    requires Good(p, n) && Leaderless(n) && !Awakened(ev) && NoAsk(ev) && NoVote(p, n, ev)
    ensures var m := Turn(p, n, ev, e);
            && Leaderless(m) && m.asked == n.asked
            && (n.leaderDeadline.None? ==> m.leaderDeadline.None?)
            && (Resigned(n) ==> Resigned(m))
            && (n.role.Follower? && (m.role.Candidate? || (ev.Ready? && ev.net.Some? && ev.net.value.ReqVote?)) ==>
                  m.leaderDeadline.None?)
  {
    PollsStayClosed(p, n, ev, e);
    hide Turn, Good;
    if ev.Timeout? {
      if n.role.Candidate? { CandidateGivesUp(p, n, e); } else { FollowerTimesOut(p, n, e); }
    } else if ev.net.None? || !Electoral(ev.net.value) {
      OtherMessages(p, n, ev, e);
    } else if ev.net.value.ReqVote? {
      if n.role.Candidate? { CandidateIsAsked(p, n, ev, e, ev.net.value); } else { FollowerIsAsked(p, n, ev, e, ev.net.value); }
    } else {
      if n.role.Candidate? { CandidateHearsVote(p, n, ev, e, ev.net.value); } else { FollowerHearsVote(p, n, ev, e, ev.net.value); }
    }
  }

  /** Who is not leader after a turn did not assert authority in it. */
  lemma NoAuthority(p: Params, n: Node, ev: Event, e: Env)
    requires Good(p, n) && (n.role.Leader? ==> n.ldrPort.Some?) && !Turn(p, n, ev, e).role.Leader?
    ensures forall i :: 0 <= i < |Sent(n, Turn(p, n, ev, e))| ==> !Sent(n, Turn(p, n, ev, e))[i].Authority?
  {
    TurnSpeaks(p, n, ev, e);
    hide Turn, Good, Sent, Extends, Speaks;
    var m := Turn(p, n, ev, e);
    var s := Sent(n, m);
    forall i | 0 <= i < |s| ensures !s[i].Authority? {
      if Electoral(s[i]) { OnlyLeadersAssert(p, n, ev, m, s[i]); }
    }
  }

  lemma ClosedSays(n: Node, m: Node)
    requires Closed(n, m)
    ensures forall i :: 0 <= i < |Sent(n, m)| ==> !Sent(n, m)[i].Rcm? && !Sent(n, m)[i].Ann?
  {
    forall i | 0 <= i < |Sent(n, m)| ensures !Sent(n, m)[i].Rcm? && !Sent(n, m)[i].Ann? {
      assert Sent(n, m)[i] == m.pub[|n.pub| + i];
    }
  }

  lemma LeaderlessSays(p: Params, n: Node, ev: Event, e: Env)
    requires Good(p, n) && Leaderless(n) && !Awakened(ev) && NoAsk(ev) && NoVote(p, n, ev)
    ensures forall i :: 0 <= i < |Sent(n, Turn(p, n, ev, e))| ==> !Awakens(Sent(n, Turn(p, n, ev, e))[i])
  {
    LeaderlessTurn(p, n, ev, e);
    PollsStayClosed(p, n, ev, e);
    hide Turn, Good, Sent, Closed, Awakened, NoAsk, NoVote;
    ClosedSays(n, Turn(p, n, ev, e));
    NoAuthority(p, n, ev, e);
  }

  lemma OnlyLeadersAssert(p: Params, n: Node, ev: Event, m: Node, x: Msg)
    requires Speaks(p, n, ev, m, x) && !m.role.Leader?
    ensures !x.Authority?
  {
  }

  /** A follower that has no deadline gets one exactly from a message of a leader. */
  lemma OnlyLeadersAwaken(p: Params, n: Node, ev: Event, e: Env)
    requires Good(p, n) && n.role.Follower? && n.leaderDeadline.None?
    ensures Turn(p, n, ev, e).leaderDeadline.Some? <==> Awakened(ev)
    ensures Turn(p, n, ev, e).role.Follower?
  {
    hide Turn, Good;
    if ev.Timeout? {
      FollowerTimesOut(p, n, e);
    } else if ev.net.None? || !Electoral(ev.net.value) {
      OtherMessages(p, n, ev, e);
    } else if ev.net.value.ReqVote? {
      FollowerIsAsked(p, n, ev, e, ev.net.value);
    } else if ev.net.value.RspVote? {
      FollowerHearsVote(p, n, ev, e, ev.net.value);
    } else {
      FollowerFollows(p, n, ev, e, ev.net.value);
    }
  }

  // ---------------------------------------------------------------- the group

  /** No packet that speaks for a leader is still on its way to anybody. */
  ghost predicate NothingComes(g: Members, s: Sys) {
    forall k: nat, x: Id :: k < |s.net| && x in g && Awakens(s.net[k].msg) ==> (x, k) in s.seen
  }

  ghost predicate NoneLeads(g: Members, s: Sys) {
    WellFormed(g, s) && NothingComes(g, s) && forall x :: x in g ==> Leaderless(s.nodes[x])
  }

  ghost predicate Stalled(g: Members, s: Sys) {
    NoneLeads(g, s) && forall x :: x in g ==> Resigned(s.nodes[x])
  }

  ghost predicate Fruitless(g: Members, s: Sys, a: Action)
    requires WellFormed(g, s) && Enabled(g, s, a)
  {
    NoAsk(a.ev) && NoVote(g[a.who], s.nodes[a.who], a.ev)
  }

  lemma NothingAwakens(g: Members, s: Sys, a: Action)
    requires NoneLeads(g, s) && Enabled(g, s, a)
    ensures !Awakened(a.ev)
  {
  }

  lemma NothingComesNext(g: Members, s: Sys, a: Action)
    requires NoneLeads(g, s) && Enabled(g, s, a) && Fruitless(g, s, a)
    ensures NothingComes(g, Next(g, s, a))
  {
    NothingAwakens(g, s, a);
    LeaderlessSays(g[a.who], s.nodes[a.who], a.ev, a.env);
    NextParts(g, s, a);
    hide Turn, Good, Next, WellFormed, Leaderless, Resigned, Sent, Awakens, Fruitless, Enabled;
    var u := Next(g, s, a);
    forall k: nat, x: Id | k < |u.net| && x in g && Awakens(u.net[k].msg) ensures (x, k) in u.seen {
      if k < |s.net| { assert u.net[k] == s.net[k] && (x, k) in s.seen; }
    }
  }

  lemma FruitlessTurn(g: Members, s: Sys, a: Action)
    requires NoneLeads(g, s) && Enabled(g, s, a) && Fruitless(g, s, a)
    ensures !s.nodes[a.who].role.Leader?
    ensures var n, m := s.nodes[a.who], Turn(g[a.who], s.nodes[a.who], a.ev, a.env);
            && Leaderless(m) && m.asked == n.asked && (Resigned(n) ==> Resigned(m))
            && (n.leaderDeadline.None? ==> m.leaderDeadline.None?)
  {
    NothingAwakens(g, s, a);
    LeaderlessTurn(g[a.who], s.nodes[a.who], a.ev, a.env);
    hide Turn, Leaderless, Resigned, Awakens, NothingComes;
  }

  lemma FruitlessStep(g: Members, s: Sys, a: Action)
    requires NoneLeads(g, s) && Enabled(g, s, a) && Fruitless(g, s, a)
    ensures NoneLeads(g, Next(g, s, a))
    ensures Stalled(g, s) ==> Stalled(g, Next(g, s, a))
    ensures forall x :: x in g ==> Next(g, s, a).nodes[x].asked == s.nodes[x].asked
    ensures forall x :: x in g && s.nodes[x].leaderDeadline.None? ==> Next(g, s, a).nodes[x].leaderDeadline.None?
  {
    NextIsWellFormed(g, s, a);
    FruitlessTurn(g, s, a);
    NothingComesNext(g, s, a);
    NextParts(g, s, a);
    hide Turn, Good, Next, WellFormed, Leaderless, Resigned, Sent, NothingComes, Fruitless, Enabled;
  }

  // ---------------------------------------------------------------- runs

  ghost predicate FruitlessAt(g: Members, s: Sys, a: Action, u: Sys) {
    WellFormed(g, s) && Enabled(g, s, a) && Fruitless(g, s, a) && u == Next(g, s, a)
  }

  /** Members act in any order; no candidate counts a yes vote, and nobody asks a leader. */
  ghost predicate FruitlessRun(g: Members, states: seq<Sys>, acts: seq<Action>) {
    |states| == |acts| + 1 && forall i :: 0 <= i < |acts| ==> FruitlessAt(g, states[i], acts[i], states[i + 1])
  }

  lemma {:induction false} NoLeaderShowsUp(g: Members, states: seq<Sys>, acts: seq<Action>, i: nat)
    requires FruitlessRun(g, states, acts) && NoneLeads(g, states[0]) && i < |states|
    ensures NoneLeads(g, states[i])
    ensures Stalled(g, states[0]) ==> Stalled(g, states[i])
    ensures states[i].nodes.Keys == g.Keys
    ensures states[0].nodes.Keys == g.Keys
    ensures forall x :: x in g ==> states[i].nodes[x].asked == states[0].nodes[x].asked
    decreases i
  {
    hide Next, Enabled, Fruitless, Stalled, Good;
    if 0 < i {
      NoLeaderShowsUp(g, states, acts, i - 1);
      assert FruitlessAt(g, states[i - 1], acts[i - 1], states[i]);
      FruitlessStep(g, states[i - 1], acts[i - 1]);
    }
  }

  ghost predicate NoDeadline(s: Sys, x: Id) {
    x in s.nodes && s.nodes[x].leaderDeadline.None?
  }

  lemma StepKeepsNoDeadline(g: Members, s: Sys, a: Action, u: Sys, x: Id)
    requires NoneLeads(g, s) && FruitlessAt(g, s, a, u) && x in g && NoDeadline(s, x)
    ensures NoDeadline(u, x)
  {
    FruitlessStep(g, s, a);
    NextParts(g, s, a);
    hide Next, Enabled, Fruitless, Good, Turn;
  }

  lemma {:induction false} DeadlineStaysGone(g: Members, states: seq<Sys>, acts: seq<Action>, i: nat, j: nat, x: Id)
    requires FruitlessRun(g, states, acts) && NoneLeads(g, states[0]) && i <= j < |states| && x in g
    requires NoDeadline(states[i], x)
    ensures NoDeadline(states[j], x)
    decreases j
  {
    hide NoneLeads, FruitlessAt, NoDeadline;
    if i < j {
      DeadlineStaysGone(g, states, acts, i, j - 1, x);
      NoLeaderShowsUp(g, states, acts, j - 1);
      assert FruitlessAt(g, states[j - 1], acts[j - 1], states[j]);
      StepKeepsNoDeadline(g, states[j - 1], acts[j - 1], states[j], x);
    }
  }

  /** The member becomes a candidate in this step, or is asked for its vote. */
  ghost predicate TakesPart(s: Sys, a: Action, u: Sys, x: Id) {
    && a.who == x && x in s.nodes && x in u.nodes && s.nodes[x].role.Follower?
    && (u.nodes[x].role.Candidate? || (a.ev.Ready? && a.ev.net.Some? && a.ev.net.value.ReqVote?))
  }

  ghost predicate TookPart(states: seq<Sys>, acts: seq<Action>, x: Id)
    requires |states| == |acts| + 1
  {
    exists i :: 0 <= i < |acts| && TakesPart(states[i], acts[i], states[i + 1], x)
  }

  lemma TakingPartCostsTheDeadline(g: Members, s: Sys, a: Action, u: Sys, x: Id)
    requires NoneLeads(g, s) && FruitlessAt(g, s, a, u) && TakesPart(s, a, u, x)
    ensures u.nodes[x].leaderDeadline.None?
  {
    NothingAwakens(g, s, a);
    LeaderlessTurn(g[x], s.nodes[x], a.ev, a.env);
    NextParts(g, s, a);
    hide Turn, Good, Next, Leaderless, Resigned;
  }

  /** An election in which every member stood or was asked, and that nobody won, leaves the group stalled: all members
      are followers that wait for no leader. */
  lemma LostElectionStalls(g: Members, states: seq<Sys>, acts: seq<Action>)
    requires FruitlessRun(g, states, acts) && NoneLeads(g, states[0])
    requires forall x :: x in g ==> TookPart(states, acts, x) && RoleOf(states[|acts|], x, Follower)
    ensures Stalled(g, states[|acts|])
  {
    var last := |acts|;
    NoLeaderShowsUp(g, states, acts, last);
    hide FruitlessRun, NoneLeads, Resigned;
    forall x | x in g ensures x in states[last].nodes && Resigned(states[last].nodes[x]) {
      TookPartResigns(g, states, acts, x);
    }
  }

  lemma TookPartResigns(g: Members, states: seq<Sys>, acts: seq<Action>, x: Id)
    requires FruitlessRun(g, states, acts) && NoneLeads(g, states[0]) && x in g
    requires TookPart(states, acts, x) && RoleOf(states[|acts|], x, Follower)
    ensures Resigned(states[|acts|].nodes[x])
  {
    var i :| 0 <= i < |acts| && TakesPart(states[i], acts[i], states[i + 1], x);
    NoLeaderShowsUp(g, states, acts, i);
    NoLeaderShowsUp(g, states, acts, |acts|);
    assert FruitlessAt(g, states[i], acts[i], states[i + 1]);
    hide FruitlessRun, FruitlessAt, WellFormed, NothingComes;
    TakingPartCostsTheDeadline(g, states[i], acts[i], states[i + 1], x);
    DeadlineStaysGone(g, states, acts, i + 1, |acts|, x);
  }

  ghost predicate RoleOf(s: Sys, x: Id, role: Role) {
    x in s.nodes && s.nodes[x].role == role
  }

  ghost predicate AskFree(g: Members, states: seq<Sys>, acts: seq<Action>) {
    && |states| == |acts| + 1
    && forall i :: 0 <= i < |acts| ==>
         WellFormed(g, states[i]) && Enabled(g, states[i], acts[i]) && NoAsk(acts[i].ev) && states[i + 1] == Next(g, states[i], acts[i])
  }

  lemma StalledIsFruitless(g: Members, s: Sys, a: Action)
    requires Stalled(g, s) && Enabled(g, s, a) && NoAsk(a.ev)
    ensures Fruitless(g, s, a)
  {
    assert Resigned(s.nodes[a.who]);
    hide Good;
  }

  lemma {:induction false} StallIsFruitless(g: Members, states: seq<Sys>, acts: seq<Action>, i: nat)
    requires AskFree(g, states, acts) && Stalled(g, states[0]) && i <= |acts|
    ensures Stalled(g, states[i]) && FruitlessRun(g, states[..i + 1], acts[..i])
    decreases i
  {
    hide Next, Enabled, Good;
    if 0 < i {
      StallIsFruitless(g, states, acts, i - 1);
      var a, b := states[..i], acts[..i - 1];
      StalledIsFruitless(g, states[i - 1], acts[i - 1]);
      FruitlessStep(g, states[i - 1], acts[i - 1]);
      assert FruitlessAt(g, states[i - 1], acts[i - 1], states[i]);
      forall k | 0 <= k < i ensures FruitlessAt(g, states[..i + 1][k], acts[..i][k], states[..i + 1][k + 1]) {
        if k < i - 1 { assert FruitlessAt(g, a[k], b[k], a[k + 1]); }
      }
    }
  }

  /** From then on no member of the group is ever candidate or leader, or knows a leader, whatever votes, timeouts,
      heartbeats and farewells come; and no member sends a request to a leader, so it is no restriction that none
      comes in. */
  lemma StallIsForEver(g: Members, states: seq<Sys>, acts: seq<Action>, i: nat, x: Id)
    requires AskFree(g, states, acts) && Stalled(g, states[0]) && i < |states| && x in g
    ensures x in states[i].nodes && x in states[0].nodes
    ensures var n := states[i].nodes[x];
            n.role.Follower? && n.leader.None? && n.leaderDeadline.None? && n.asked == states[0].nodes[x].asked
  {
    assert |states| == |acts| + 1;
    hide *;
    StallIsFruitless(g, states, acts, i);
    StallsHaveNone(g, states[..i + 1][0]);
    NoLeaderShowsUp(g, states[..i + 1], acts[..i], i);
    StalledMembers(g, states[i], x);
  }

  lemma StallsHaveNone(g: Members, s: Sys)
    requires Stalled(g, s)
    ensures NoneLeads(g, s)
  {
  }

  lemma StalledMembers(g: Members, s: Sys, x: Id)
    requires Stalled(g, s) && x in g
    ensures x in s.nodes && s.nodes[x].role.Follower? && s.nodes[x].leader.None? && s.nodes[x].leaderDeadline.None?
  {
    hide Good;
  }

  /** A group that just started has no leader, and nothing of one is on its way. */
  lemma NewSystemHasNoLeader(g: Members, envs: map<Id, Env>, s: Sys)
    requires NewSystem(g, envs, s)
    ensures NoneLeads(g, s)
  {
    hide Good, Start;
    forall x | x in g ensures Good(g[x], s.nodes[x]) && s.nodes[x].lastWait <= s.now && Leaderless(s.nodes[x]) {
      StartIsGood(g[x], envs[x]);
      StartsAsFollower(g[x], envs[x]);
    }
    forall k: nat | k < |s.net| ensures !Awakens(s.net[k].msg) {
      var x :| x in g && s.net[k].msg in Start(g[x], envs[x]).pub && s.net[k].sentAt == envs[x].now;
      StartsAsFollower(g[x], envs[x]);
    }
  }

  // ---------------------------------------------------------------- a group that stalls

  /** Two members that count themselves among their peers, and need both to start an election. */
  ghost function Pair(): Members {
    map[1 := Setting(1), 2 := Setting(2)]
  }

  ghost function Setting(x: Id): Params {
    Params(x, 0, 1, 1000, 1500, 2000, 10_000, 1)
  }

  ghost function Clock(t: Time): Env {
    Env(t, t, 2000, 1500, 1)
  }

  const BEGIN: Time := 2_000_000
  const HEARD: Time := 2_000_001
  const LATE: Time := 4_000_001
  const LATER: Time := 5_500_001

  ghost function Beats(x: Id): Event {
    Ready(None, Some(Heartbeat(x)), None)
  }

  /** Both members are known. */
  ghost function Met(x: Id): Node {
    Start(Setting(x), Clock(BEGIN)).(
    peers := [(1, HEARD), (2, HEARD)], numPeers := 2, notes := [Joined(1), Joined(2)], lastWait := HEARD)
  }

  ghost function HalfMet(x: Id): Node {
    Start(Setting(x), Clock(BEGIN)).(peers := [(1, HEARD)], numPeers := 1, notes := [Joined(1)], lastWait := HEARD)
  }

  lemma {:induction false} NobodyIsStale(p: Params, peers: Dict<Id, Time>, now: Time)
    requires forall i :: 0 <= i < |peers| ==> !Stale(p, peers[i].1, now)
    ensures StaleIds(p, peers, now) == []
  {
    if peers != [] { NobodyIsStale(p, peers[1..], now); }
  }

  lemma MembersMeet(x: Id)
    ensures Turn(Setting(x), Start(Setting(x), Clock(BEGIN)), Beats(1), Clock(HEARD)) == HalfMet(x)
    ensures Turn(Setting(x), HalfMet(x), Beats(2), Clock(HEARD)) == Met(x)
  {
    var n := Start(Setting(x), Clock(BEGIN));
    assert Put<Id, Time>([], 1, HEARD) == [(1, HEARD)];
    assert Keys<Id, Time>([]) == {} && [] + [Joined(1)] == [Joined(1)];
    var m := HalfMet(x);
    NobodyIsStale(Setting(x), m.peers, HEARD);
    assert Beat(Setting(x), m, HEARD) == m && UpdatePeers(Setting(x), m, HEARD) == m;
    assert Position([(1, HEARD)], 2) == -1;
    assert 2 !in Keys([(1, HEARD)]);
    assert [Joined(1)] + [Joined(2)] == [Joined(1), Joined(2)] && [(1, HEARD)] + [(2, HEARD)] == [(1, HEARD), (2, HEARD)];
  }

  lemma MembersStand(x: Id)
    requires Good(Setting(x), Met(x))
    ensures Met(x).role.Follower? && Turn(Setting(x), Met(x), Timeout, Clock(LATE)).role.Candidate?
  {
    hide Good;
    var n := Beat(Setting(x), Met(x), LATE);
    NobodyIsStale(Setting(x), n.peers, LATE);
    assert UpdatePeers(Setting(x), n, LATE) == n;
    FollowerTimesOut(Setting(x), Met(x), Clock(LATE));
  }

  ghost function Opening(): Sys {
    Sys(map[1 := Start(Setting(1), Clock(BEGIN)), 2 := Start(Setting(2), Clock(BEGIN))],
        [Packet(Heartbeat(1), BEGIN), Packet(Heartbeat(2), BEGIN)], {}, BEGIN)
  }

  lemma BeatsAtStart(x: Id)
    ensures Heartbeat(x) in Start(Setting(x), Clock(BEGIN)).pub
  {
    StartsAsFollower(Setting(x), Clock(BEGIN));
    hide Start;
  }

  lemma OpeningIsNew()
    ensures NewSystem(Pair(), map[1 := Clock(BEGIN), 2 := Clock(BEGIN)], Opening())
  {
    var g, s := Pair(), Opening();
    BeatsAtStart(1);
    BeatsAtStart(2);
    hide Start;
    assert s.net[0].msg in Start(g[1], Clock(BEGIN)).pub && s.net[1].msg in Start(g[2], Clock(BEGIN)).pub;
  }

  lemma OpeningHasShape()
    ensures Shape(Opening(), Start(Setting(1), Clock(BEGIN)), Start(Setting(2), Clock(BEGIN)), {}, BEGIN)
  {
    StartIsGood(Setting(1), Clock(BEGIN));
    StartIsGood(Setting(2), Clock(BEGIN));
    hide Good, Start;
  }

  ghost predicate Shape(s: Sys, n1: Node, n2: Node, seen: set<(Id, nat)>, now: Time) {
    && WellFormed(Pair(), s) && s.nodes == map[1 := n1, 2 := n2] && s.seen == seen && s.now == now
    && 2 <= |s.net| && s.net[0].msg == Heartbeat(1) && s.net[1].msg == Heartbeat(2)
  }

  /** The action is a timeout, or delivers one of the first two packets to a member that has not seen it. */
  ghost predicate Fits(seen: set<(Id, nat)>, a: Action) {
    a.ev == Timeout || (a.packet < 2 && a.ev == Beats(a.packet + 1) && (a.who, a.packet) !in seen)
  }

  ghost function SeenAfter(seen: set<(Id, nat)>, a: Action): set<(Id, nat)> {
    if a.ev == Timeout then seen else seen + {(a.who, a.packet)}
  }

  lemma ActsFruitlessly(s: Sys, n1: Node, n2: Node, seen: set<(Id, nat)>, now: Time, a: Action, t: Time)
    requires Shape(s, n1, n2, seen, now) && a.who in {1, 2} && a.env == Clock(t) && now <= t && Fits(seen, a)
    ensures a.who in s.nodes && a.who in Pair() && Pair()[a.who] == Setting(a.who) && Good(Pair()[a.who], s.nodes[a.who])
    ensures Enabled(Pair(), s, a) && Fruitless(Pair(), s, a)
    ensures Delivers(a.ev) <==> a.ev != Timeout
  {
    hide Good;
  }

  lemma ShapeParts(s: Sys, n1: Node, n2: Node, seen: set<(Id, nat)>, now: Time)
    requires Shape(s, n1, n2, seen, now)
    ensures WellFormed(Pair(), s) && 1 in s.nodes && 2 in s.nodes && s.nodes[1] == n1 && s.nodes[2] == n2 && Pair().Keys == {1, 2}
    ensures s.seen == seen && s.now == now && 2 <= |s.net| && s.net[0].msg == Heartbeat(1) && s.net[1].msg == Heartbeat(2)
  {
    hide WellFormed;
  }

  lemma Shapes(s: Sys, n1: Node, n2: Node)
    requires WellFormed(Pair(), s) && Pair().Keys == {1, 2} && 1 in s.nodes && 2 in s.nodes && s.nodes[1] == n1 && s.nodes[2] == n2
    requires 2 <= |s.net| && s.net[0].msg == Heartbeat(1) && s.net[1].msg == Heartbeat(2) && s.nodes.Keys == {1, 2}
    ensures Shape(s, n1, n2, s.seen, s.now)
  {
    hide WellFormed;
  }

  /** One action of the first or of the second member. */
  lemma Acts(s: Sys, n1: Node, n2: Node, seen: set<(Id, nat)>, now: Time, a: Action, t: Time) returns (u: Sys)
    requires Shape(s, n1, n2, seen, now) && a.who in {1, 2} && a.env == Clock(t) && now <= t && Fits(seen, a)
    ensures FruitlessAt(Pair(), s, a, u)
    ensures (n1.role.Leader? ==> n1.ldrPort.Some?) && (n2.role.Leader? ==> n2.ldrPort.Some?)
    ensures a.who == 1 ==> Shape(u, Turn(Setting(1), n1, a.ev, a.env), n2, SeenAfter(seen, a), t)
    ensures a.who == 2 ==> Shape(u, n1, Turn(Setting(2), n2, a.ev, a.env), SeenAfter(seen, a), t)
  {
    var g := Pair();
    ActsFruitlessly(s, n1, n2, seen, now, a, t);
    PairIsGood(s, n1, n2, seen, now);
    ShapeParts(s, n1, n2, seen, now);
    assert a.env.clock == t;
    hide *;
    NextIsWellFormed(g, s, a);
    NextParts(g, s, a);
    u := Next(g, s, a);
    assert FruitlessAt(g, s, a, u) by { IsFruitlessAt(g, s, a); }
    assert u.seen == SeenAfter(seen, a) by { SeenIs(seen, a); }
    if a.who == 1 {
      Shapes(u, Turn(Setting(1), n1, a.ev, a.env), n2);
    } else {
      Shapes(u, n1, Turn(Setting(2), n2, a.ev, a.env));
    }
  }

  lemma SeenIs(seen: set<(Id, nat)>, a: Action)
    ensures SeenAfter(seen, a) == if a.ev != Timeout then seen + {(a.who, a.packet)} else seen
  {
  }

  lemma IsFruitlessAt(g: Members, s: Sys, a: Action)
    requires WellFormed(g, s) && Enabled(g, s, a) && Fruitless(g, s, a)
    ensures FruitlessAt(g, s, a, Next(g, s, a))
  {
    hide Next, WellFormed, Enabled, Fruitless;
  }

  lemma PairIsGood(s: Sys, n1: Node, n2: Node, seen: set<(Id, nat)>, now: Time)
    requires Shape(s, n1, n2, seen, now)
    ensures (n1.role.Leader? ==> n1.ldrPort.Some?) && (n2.role.Leader? ==> n2.ldrPort.Some?)
    ensures Good(Setting(1), n1) && Good(Setting(2), n2)
  {
    GoodLeaderHasPort(Setting(1), s.nodes[1]);
    GoodLeaderHasPort(Setting(2), s.nodes[2]);
    hide Good;
  }

  ghost function Meeting(x: Id): Action { Action(x, Beats(1), Clock(HEARD), 0) }
  ghost function MeetingToo(x: Id): Action { Action(x, Beats(2), Clock(HEARD), 1) }
  ghost function Waiting(x: Id, t: Time): Action { Action(x, Timeout, Clock(t), 0) }

  lemma Hears(s: Sys, n1: Node, n2: Node, seen: set<(Id, nat)>, now: Time, x: Id, too: bool) returns (u: Sys)
    requires Shape(s, n1, n2, seen, now) && x in {1, 2} && now <= HEARD && (x, if too then 1 else 0) !in seen
    ensures (n1.role.Leader? ==> n1.ldrPort.Some?) && (n2.role.Leader? ==> n2.ldrPort.Some?)
    ensures FruitlessAt(Pair(), s, if too then MeetingToo(x) else Meeting(x), u)
    ensures var ev, seen' := if too then Beats(2) else Beats(1), seen + {(x, if too then 1 else 0)};
            && (x == 1 ==> Shape(u, Turn(Setting(1), n1, ev, Clock(HEARD)), n2, seen', HEARD))
            && (x == 2 ==> Shape(u, n1, Turn(Setting(2), n2, ev, Clock(HEARD)), seen', HEARD))
  {
    hide Shape, Turn, FruitlessAt;
    u := Acts(s, n1, n2, seen, now, if too then MeetingToo(x) else Meeting(x), HEARD);
  }

  lemma Waits(s: Sys, n1: Node, n2: Node, seen: set<(Id, nat)>, now: Time, x: Id, t: Time) returns (u: Sys)
    requires Shape(s, n1, n2, seen, now) && x in {1, 2} && now <= t
    ensures (n1.role.Leader? ==> n1.ldrPort.Some?) && (n2.role.Leader? ==> n2.ldrPort.Some?)
    ensures FruitlessAt(Pair(), s, Waiting(x, t), u)
    ensures x == 1 ==> Shape(u, Turn(Setting(1), n1, Timeout, Clock(t)), n2, seen, t)
    ensures x == 2 ==> Shape(u, n1, Turn(Setting(2), n2, Timeout, Clock(t)), seen, t)
  {
    hide Shape, Turn, FruitlessAt;
    u := Acts(s, n1, n2, seen, now, Waiting(x, t), t);
  }

  lemma FourSteps(g: Members, s: seq<Sys>, a: seq<Action>)
    requires |s| == 5 && |a| == 4 && FruitlessAt(g, s[0], a[0], s[1]) && FruitlessAt(g, s[1], a[1], s[2])
    requires FruitlessAt(g, s[2], a[2], s[3]) && FruitlessAt(g, s[3], a[3], s[4])
    ensures FruitlessRun(g, s, a)
  {
    hide FruitlessAt;
  }

  lemma InOrder()
    ensures BEGIN <= HEARD <= LATE <= LATER
  {
  }

  /** The member hears both heartbeats. */
  lemma HearsBoth(s: Sys, other: Node, seen: set<(Id, nat)>, now: Time, x: Id) returns (u: Sys, v: Sys)
    requires x in {1, 2} && now <= HEARD && (x, 0) !in seen && (x, 1) !in seen
    requires x == 1 ==> Shape(s, Start(Setting(1), Clock(BEGIN)), other, seen, now)
    requires x == 2 ==> Shape(s, other, Start(Setting(2), Clock(BEGIN)), seen, now)
    ensures FruitlessAt(Pair(), s, Meeting(x), u) && FruitlessAt(Pair(), u, MeetingToo(x), v)
    ensures x == 1 ==> Shape(v, Met(1), other, seen + {(1, 0)} + {(1, 1)}, HEARD)
    ensures x == 2 ==> Shape(v, other, Met(2), seen + {(2, 0)} + {(2, 1)}, HEARD)
  {
    MembersMeet(x);
    hide *;
    var b := Start(Setting(x), Clock(BEGIN));
    if x == 1 {
      u := Hears(s, b, other, seen, now, 1, false);
      v := Hears(u, HalfMet(1), other, seen + {(1, 0)}, HEARD, 1, true);
    } else {
      u := Hears(s, other, b, seen, now, 2, false);
      v := Hears(u, other, HalfMet(2), seen + {(2, 0)}, HEARD, 2, true);
    }
  }

  /** From the opening to where both members know each other. */
  lemma PairMeets() returns (states: seq<Sys>)
    ensures |states| == 5 && states[0] == Opening()
    ensures FruitlessRun(Pair(), states, [Meeting(1), MeetingToo(1), Meeting(2), MeetingToo(2)])
    ensures exists seen :: Shape(states[4], Met(1), Met(2), seen, HEARD)
  {
    OpeningHasShape();
    InOrder();
    hide *;
    var s0 := Opening();
    var s1, s2 := HearsBoth(s0, Start(Setting(2), Clock(BEGIN)), {}, BEGIN, 1);
    var seen: set<(Id, nat)> := {} + {(1, 0)} + {(1, 1)};
    var s3, s4 := HearsBoth(s2, Met(1), seen, HEARD, 2);
    states := [s0, s1, s2, s3, s4];
    FourSteps(Pair(), states, [Meeting(1), MeetingToo(1), Meeting(2), MeetingToo(2)]);
  }

  lemma RolesOf(s: Sys, n1: Node, n2: Node, seen: set<(Id, nat)>, now: Time)
    requires Shape(s, n1, n2, seen, now)
    ensures RoleOf(s, 1, n1.role) && RoleOf(s, 2, n2.role)
  {
    hide WellFormed;
  }

  /** Both stand for election. */
  lemma PairStands(s: Sys, seen: set<(Id, nat)>) returns (u: Sys, v: Sys, c1: Node, c2: Node)
    requires Shape(s, Met(1), Met(2), seen, HEARD)
    ensures FruitlessAt(Pair(), s, Waiting(1, LATE), u) && FruitlessAt(Pair(), u, Waiting(2, LATE), v)
    ensures Shape(v, c1, c2, seen, LATE)
    ensures RoleOf(s, 1, Follower) && RoleOf(u, 1, Candidate) && RoleOf(u, 2, Follower) && RoleOf(v, 2, Candidate)
    ensures c1.role.Candidate? && c2.role.Candidate?
  {
    InOrder();
    PairIsGood(s, Met(1), Met(2), seen, HEARD);
    MembersStand(1);
    MembersStand(2);
    hide *;
    RolesOf(s, Met(1), Met(2), seen, HEARD);
    u := Waits(s, Met(1), Met(2), seen, HEARD, 1, LATE);
    c1 := Turn(Setting(1), Met(1), Timeout, Clock(LATE));
    RolesOf(u, c1, Met(2), seen, LATE);
    v := Waits(u, c1, Met(2), seen, LATE, 2, LATE);
    c2 := Turn(Setting(2), Met(2), Timeout, Clock(LATE));
    RolesOf(v, c1, c2, seen, LATE);
  }

  /** Both give up. */
  lemma PairGivesUp(s: Sys, seen: set<(Id, nat)>, c1: Node, c2: Node) returns (u: Sys, v: Sys)
    requires Shape(s, c1, c2, seen, LATE) && c1.role.Candidate? && c2.role.Candidate?
    ensures FruitlessAt(Pair(), s, Waiting(1, LATER), u) && FruitlessAt(Pair(), u, Waiting(2, LATER), v)
    ensures RoleOf(v, 1, Follower) && RoleOf(v, 2, Follower)
  {
    InOrder();
    PairIsGood(s, c1, c2, seen, LATE);
    hide *;
    u := Waits(s, c1, c2, seen, LATE, 1, LATER);
    CandidateGivesUp(Setting(1), c1, Clock(LATER));
    var d1 := Turn(Setting(1), c1, Timeout, Clock(LATER));
    v := Waits(u, d1, c2, seen, LATER, 2, LATER);
    CandidateGivesUp(Setting(2), c2, Clock(LATER));
    RolesOf(v, d1, Turn(Setting(2), c2, Timeout, Clock(LATER)), seen, LATER);
  }

  lemma RunsAppend(g: Members, s: seq<Sys>, a: seq<Action>, t: seq<Sys>, b: seq<Action>)
    requires FruitlessRun(g, s, a) && FruitlessRun(g, t, b) && s[|a|] == t[0]
    ensures FruitlessRun(g, s + t[1..], a + b)
  {
    hide FruitlessAt;
    var u, c := s + t[1..], a + b;
    forall i | 0 <= i < |c| ensures FruitlessAt(g, u[i], c[i], u[i + 1]) {
      if |a| <= i { assert FruitlessAt(g, t[i - |a|], b[i - |a|], t[i - |a| + 1]); }
    }
  }

  lemma Stands(s: Sys, u: Sys, x: Id)
    requires RoleOf(s, x, Follower) && RoleOf(u, x, Candidate)
    ensures TakesPart(s, Waiting(x, LATE), u, x)
  {
  }

  /** The group is stalled when both gave up. */
  lemma PairStalls() returns (states: seq<Sys>, acts: seq<Action>)
    ensures |states| == |acts| + 1 && states[0] == Opening() && FruitlessRun(Pair(), states, acts)
    ensures |acts| == 8 && TakesPart(states[4], acts[4], states[5], 1) && TakesPart(states[5], acts[5], states[6], 2)
    ensures RoleOf(states[8], 1, Follower) && RoleOf(states[8], 2, Follower)
  {
    hide *;
    var first := PairMeets();
    var seen :| Shape(first[4], Met(1), Met(2), seen, HEARD);
    var s5, s6, c1, c2 := PairStands(first[4], seen);
    var s7, s8 := PairGivesUp(s6, seen, c1, c2);
    var second := [first[4], s5, s6, s7, s8];
    var a, b := [Meeting(1), MeetingToo(1), Meeting(2), MeetingToo(2)],
                [Waiting(1, LATE), Waiting(2, LATE), Waiting(1, LATER), Waiting(2, LATER)];
    FourSteps(Pair(), second, b);
    RunsAppend(Pair(), first, a, second, b);
    Stands(first[4], s5, 1);
    Stands(s5, s6, 2);
    states, acts := first + second[1..], a + b;
  }

  lemma BothTakePart(states: seq<Sys>, acts: seq<Action>)
    requires |states| == 9 && |acts| == 8
    requires TakesPart(states[4], acts[4], states[5], 1) && TakesPart(states[5], acts[5], states[6], 2)
    requires RoleOf(states[8], 1, Follower) && RoleOf(states[8], 2, Follower)
    ensures forall x :: x in Pair() ==> TookPart(states, acts, x) && RoleOf(states[|acts|], x, Follower)
    ensures Pair().Keys == {1, 2}
  {
    hide TakesPart, RoleOf;
  }

  /** From a new system, members that count no yes vote bring the group to a stall. */
  ghost predicate StallingRun(g: Members, envs: map<Id, Env>, states: seq<Sys>, acts: seq<Action>) {
    && |states| == |acts| + 1 && NewSystem(g, envs, states[0]) && FruitlessRun(g, states, acts)
    && Stalled(g, states[|acts|]) && g.Keys == {1, 2}
  }

  lemma PairRunStalls(states: seq<Sys>, acts: seq<Action>)
    requires |states| == |acts| + 1 && states[0] == Opening() && FruitlessRun(Pair(), states, acts)
    requires |acts| == 8 && TakesPart(states[4], acts[4], states[5], 1) && TakesPart(states[5], acts[5], states[6], 2)
    requires RoleOf(states[8], 1, Follower) && RoleOf(states[8], 2, Follower)
    ensures StallingRun(Pair(), map[1 := Clock(BEGIN), 2 := Clock(BEGIN)], states, acts)
  {
    OpeningIsNew();
    NewSystemHasNoLeader(Pair(), map[1 := Clock(BEGIN), 2 := Clock(BEGIN)], Opening());
    BothTakePart(states, acts);
    hide NewSystem, FruitlessRun, Stalled, NoneLeads, Opening, Clock, TakesPart, TookPart, RoleOf, Pair;
    LostElectionStalls(Pair(), states, acts);
  }

  /** There are groups that stall: two members start, hear each other, both stand for election when no leader showed
      up in time, and both give up. */
  lemma GroupsDoStall()
    ensures exists g, envs, states, acts :: StallingRun(g, envs, states, acts)
  {
    hide *;
    var states, acts := PairStalls();
    PairRunStalls(states, acts);
  }
}
