/**
  Leader stability. Start with one leader, everybody else its follower at the same term, and no
  request for vote under way. As long as no follower runs into a timeout more than electionMax after
  it last handled an AUTHORITY message, every continuation keeps all roles, terms and leaders, and no
  component is told of an election or an exit: a deadline is never shorter than electionMax.
 */
module GroupStability {
  import opened Wrappers
  import opened OrderedDict
  import opened GroupModel
  import opened GroupNode
  import opened GroupSystem

  // ---------------------------------------------------------------- what components hear about leaders

  ghost function LeaderNotes(notes: seq<Note>): seq<Note> {
    if notes == [] then []
    else
      var x := notes[|notes| - 1];
      LeaderNotes(notes[..|notes| - 1]) + if x.Elected? || x.Exited? then [x] else []
  }

  lemma NotesMore(notes: seq<Note>, x: Note)
    ensures LeaderNotes(notes + [x]) == LeaderNotes(notes) + if x.Elected? || x.Exited? then [x] else []
  {
    assert (notes + [x])[..|notes|] == notes;
  }

  lemma {:induction false} LeavingIsNoNews(notes: seq<Note>, ids: seq<Id>)
    ensures LeaderNotes(notes + LeftNotes(ids)) == LeaderNotes(notes)
    decreases |ids|
  {
    hide LeaderNotes;
    if ids == [] {
      assert notes + LeftNotes(ids) == notes;
    } else {
      NotesMore(notes, Left(ids[0]));
      LeavingIsNoNews(notes + [Left(ids[0])], ids[1..]);
      assert notes + LeftNotes(ids) == notes + [Left(ids[0])] + LeftNotes(ids[1..]);
    }
  }

  lemma PeersAreNoNews(p: Params, n: Node, now: Time)
    ensures LeaderNotes(UpdatePeers(p, n, now).notes) == LeaderNotes(n.notes)
  {
    hide LeaderNotes;
    LeavingIsNoNews(n.notes, StaleIds(p, n.peers, now));
  }

  lemma CommandIsNoNews(p: Params, n: Node, c: Command)
    ensures LeaderNotes(HandleCommand(p, n, c).notes) == LeaderNotes(n.notes)
  {
    hide LeaderNotes, PollDeadline, Judge, Put, Remove, Position;
    NotesMore(n.notes, Ack);
    NotesMore(n.notes, NoLeader);
  }

  /** Only the election code reports on leaders. */
  lemma TurnNews(p: Params, n: Node, ev: Event, e: Env)
    requires n.role.Leader? ==> n.ldrPort.Some?
    ensures var a := AtElection(p, n, ev, e);
            && (a.role.Leader? ==> a.ldrPort.Some?)
            && LeaderNotes(a.notes) == LeaderNotes(n.notes)
            && LeaderNotes(Turn(p, n, ev, e).notes) == LeaderNotes(Elect(p, a, ev, e).notes)
  {
    TurnIsElection(p, n, ev, e);
    hide LeaderNotes, UpdatePeers, HandleCommand, HandleAsk, HandleNet, OnTimeout;
    var b := Beat(p, n, e.now);
    PeersAreNoNews(p, b, e.now);
    var m := UpdatePeers(p, b, e.now);
    match ev
    case Timeout => PeersAreNoNews(p, m, e.now);
    case Ready(c, net, a) =>
      if c.Some? { CommandIsNoNews(p, m, c.value); }
      if a.Some? { AskKeepsNotes(p, AfterNet(p, AfterCommand(p, m, c), net, e), a.value); }
  }

  // ---------------------------------------------------------------- one calm turn

  ghost predicate Follows(n: Node, l: Id, t: int) {
    n.role.Follower? && n.term == t && n.leader == Some(l) && n.leaderDeadline.Some?
  }

  ghost predicate Leads(n: Node, t: int) {
    n.role.Leader? && n.term == t
  }

  /** What a follower of l may meet: AUTHORITY of l only, and timeouts before its deadline only. */
  ghost predicate CalmForFollower(n: Node, ev: Event, e: Env, l: Id, t: int) {
    && (ev.Timeout? && n.leaderDeadline.Some? ==> e.now <= n.leaderDeadline.value)
    && (Delivers(ev) ==>
          && !ev.net.value.ReqVote?
          && (ev.net.value.Authority? ==> ev.net.value.node == l && ev.net.value.term == t))
  }

  ghost predicate HearsLeader(ev: Event) {
    Delivers(ev) && ev.net.value.Authority?
  }

  lemma CalmFollowerElects(p: Params, a: Node, ev: Event, e: Env, l: Id, t: int)
    requires Follows(a, l, t) && CalmForFollower(a, ev, e, l, t) && e.For(p)
    ensures var b := Elect(p, a, ev, e);
            && Follows(b, l, t)
            && LeaderNotes(b.notes) == LeaderNotes(a.notes)
            && ((b.leaderDeadline == a.leaderDeadline && !HearsLeader(ev))
                || b.leaderDeadline.value >= e.now + p.electionMax * 1000)
  {
    hide LeaderNotes, Put, Remove, Keys, UpdateLink, CandidateHears, LeaderHears;
    if Delivers(ev) {
      NotesMore(a.notes, Forwarded(ev.net.value));
      if ev.net.value.Leave? { NotesMore(a.notes, Left(ev.net.value.who)); }
      if ev.net.value.Heartbeat? { NotesMore(a.notes, Joined(ev.net.value.who)); }
    }
  }

  lemma CalmFollowerTurn(p: Params, n: Node, ev: Event, e: Env, l: Id, t: int)
    requires Follows(n, l, t) && CalmForFollower(n, ev, e, l, t) && e.For(p)
    ensures var m := Turn(p, n, ev, e);
            && Follows(m, l, t)
            && LeaderNotes(m.notes) == LeaderNotes(n.notes)
            && ((m.leaderDeadline == n.leaderDeadline && !HearsLeader(ev))
                || m.leaderDeadline.value >= e.now + p.electionMax * 1000)
  {
    hide LeaderNotes, Turn, AtElection, Elect;
    TurnIsElection(p, n, ev, e);
    TurnNews(p, n, ev, e);
    CalmFollowerElects(p, AtElection(p, n, ev, e), ev, e, l, t);
  }

  lemma CalmLeaderElects(p: Params, a: Node, ev: Event, e: Env)
    requires a.role.Leader? && a.ldrPort.Some? && !RivalAuthority(p, a, ev)
    ensures LeaderNotes(Elect(p, a, ev, e).notes) == LeaderNotes(a.notes)
  {
    hide LeaderNotes, Put, Remove, Keys, UpdateLink, CandidateHears, FollowerHears;
    if Delivers(ev) {
      NotesMore(a.notes, Forwarded(ev.net.value));
      if ev.net.value.Leave? { NotesMore(a.notes, Left(ev.net.value.who)); }
      if ev.net.value.Heartbeat? { NotesMore(a.notes, Joined(ev.net.value.who)); }
    }
  }

  lemma CalmLeaderTurn(p: Params, n: Node, ev: Event, e: Env, t: int)
    requires Good(p, n) && Leads(n, t) && !RivalAuthority(p, n, ev)
    ensures Leads(Turn(p, n, ev, e), t) && LeaderNotes(Turn(p, n, ev, e).notes) == LeaderNotes(n.notes)
  {
    LeaderSteps(p, n, ev, e);
    GoodLeaderHasPort(p, n);
    hide LeaderNotes, Turn, AtElection, Elect, Good;
    TurnIsElection(p, n, ev, e);
    TurnNews(p, n, ev, e);
    CalmLeaderElects(p, AtElection(p, n, ev, e), ev, e);
  }

  /** The bound cannot be raised: AUTHORITY may set the shortest deadline, and a timeout any later than
      that starts an election whenever enough members are around. */
  lemma LongerGapsStartElections(p: Params, n: Node, l: Id, t: int, host: Host, port: int, e1: Env, e2: Env)
    requires p.Ordered() && e1.For(p) && Good(p, n) && n.lastWait <= e1.now && Follows(n, l, t)
    requires e1.leaderWait == p.electionMax && e1.clock + p.electionMax * 1000 < e2.now
    ensures var m := Turn(p, n, Ready(None, Some(Authority(t, l, host, port)), None), e1);
            var r := Turn(p, m, Timeout, e2);
            Follows(m, l, t) && (r.role.Candidate? <==> p.groupSize / 2 + 1 < r.numPeers)
  {
    var ev := Ready(None, Some(Authority(t, l, host, port)), None);
    TurnKeepsGood(p, n, ev, e1);
    AuthoritySetsDeadline(p, n, l, t, host, port, e1);
    hide Turn, Good;
    FollowerSteps(p, Turn(p, n, ev, e1), Timeout, e2);
  }

  lemma AuthoritySetsDeadline(p: Params, n: Node, l: Id, t: int, host: Host, port: int, e: Env)
    requires n.role.Follower?
    ensures var m := Turn(p, n, Ready(None, Some(Authority(t, l, host, port)), None), e);
            Follows(m, l, t) && m.leaderDeadline == Some(e.clock + e.leaderWait * 1000)
  {
    TurnIsElection(p, n, Ready(None, Some(Authority(t, l, host, port)), None), e);
    hide Turn, AtElection, UpdateLink;
  }

  // ---------------------------------------------------------------- the group

  /** A group with the time at which every member last handled an AUTHORITY message. */
  datatype Watched = Watched(s: Sys, heard: map<Id, Time>)

  /** l leads; anybody else follows l, and can wait electionMax longer than it last heard from it. */
  ghost predicate Subject(g: Members, w: Watched, x: Id, l: Id, t: int)
    requires x in g
  {
    && x in w.s.nodes && x in w.heard
    && (x == l ==> Leads(w.s.nodes[x], t))
    && (x != l ==>
          && Follows(w.s.nodes[x], l, t) && w.heard[x] <= w.s.now
          && w.heard[x] + g[x].electionMax * 1000 <= w.s.nodes[x].leaderDeadline.value)
  }

  ghost predicate Ruled(g: Members, w: Watched, l: Id, t: int) {
    w.s.nodes.Keys == g.Keys && w.heard.Keys == g.Keys && l in g && forall x :: x in g ==> Subject(g, w, x, l, t)
  }

  /** A packet that does no harm to whom it has not reached yet. */
  ghost predicate Harmless(x: Id, m: Msg, l: Id, t: int) {
    && (m.ReqVote? ==> x == l)
    && (m.Authority? ==> if x == l then m.term == t ==> m.node == l else m.node == l && m.term == t)
  }

  ghost predicate NoUnrest(g: Members, s: Sys, l: Id, t: int) {
    forall x, k :: x in g && 0 <= k < |s.net| && (x, k) !in s.seen ==> Harmless(x, s.net[k].msg, l, t)
  }

  ghost predicate Stable(g: Members, w: Watched, l: Id, t: int) {
    WellFormed(g, w.s) && Ruled(g, w, l, t) && NoUnrest(g, w.s, l, t)
  }

  ghost function NextWatched(g: Members, w: Watched, a: Action): Watched
    requires WellFormed(g, w.s) && Enabled(g, w.s, a)
  {
    Watched(Next(g, w.s, a), if HearsLeader(a.ev) then w.heard[a.who := a.env.now] else w.heard)
  }

  /** A follower that runs into a timeout handled AUTHORITY at most electionMax ago. */
  ghost predicate Timely(g: Members, w: Watched, a: Action, l: Id) {
    && Enabled(g, w.s, a)
    && (a.ev.Timeout? && a.who != l && a.who in w.heard ==> a.env.now <= w.heard[a.who] + g[a.who].electionMax * 1000)
  }

  ghost predicate Undisturbed(n: Node, m: Node) {
    m.role == n.role && m.term == n.term && m.leader == n.leader && LeaderNotes(m.notes) == LeaderNotes(n.notes)
  }

  lemma ActorStaysCalm(g: Members, w: Watched, a: Action, l: Id, t: int)
    requires Stable(g, w, l, t) && Timely(g, w, a, l)
    ensures a.who in g && Next(g, w.s, a).nodes.Keys == g.Keys
    ensures var n, m := w.s.nodes[a.who], Next(g, w.s, a).nodes[a.who];
            && Undisturbed(n, m) && !m.role.Candidate? && (m.role.Leader? <==> a.who == l)
            && (a.who == l ==> Leads(m, t))
            && (a.who != l ==> Follows(m, l, t)
                               && (if HearsLeader(a.ev) then a.env.now else w.heard[a.who]) + g[a.who].electionMax * 1000
                                  <= m.leaderDeadline.value)
  {
    NextParts(g, w.s, a);
    hide Good, Turn, LeaderNotes, Next, Sent;
    var p, n := g[a.who], w.s.nodes[a.who];
    TurnKeepsGood(p, n, a.ev, a.env);
    if Delivers(a.ev) { assert Harmless(a.who, w.s.net[a.packet].msg, l, t); }
    if a.who == l {
      CalmLeaderTurn(p, n, a.ev, a.env, t);
      GoodLeaderKnowsItself(p, n);
      GoodLeaderKnowsItself(p, Turn(p, n, a.ev, a.env));
    } else {
      CalmFollowerTurn(p, n, a.ev, a.env, l, t);
    }
  }

  lemma GoodLeaderKnowsItself(p: Params, n: Node)
    requires Good(p, n) && n.role.Leader?
    ensures n.leader == Some(p.ownId)
  {
  }

  /** What the actor of a stable step broadcasts disturbs nobody. */
  lemma ActorSpeaksForLeader(p: Params, n: Node, ev: Event, m: Node, x: Msg, y: Id, l: Id, t: int)
    requires Electoral(x) && Speaks(p, n, ev, m, x) && !m.role.Candidate?
    requires m.role.Leader? ==> p.ownId == l && m.term == t
    ensures Harmless(y, x, l, t)
  {
  }

  lemma StepKeepsPeace(g: Members, w: Watched, a: Action, l: Id, t: int)
    requires Stable(g, w, l, t) && Timely(g, w, a, l)
    ensures NoUnrest(g, Next(g, w.s, a), l, t)
  {
    var s, u := w.s, Next(g, w.s, a);
    var p, n := g[a.who], s.nodes[a.who];
    ActorStaysCalm(g, w, a, l, t);
    NextParts(g, s, a);
    TurnSpeaks(p, n, a.ev, a.env);
    hide Next, Good, Turn, LeaderNotes, Sent, Speaks, Harmless, Undisturbed;
    var m := Turn(p, n, a.ev, a.env);
    forall x, k | x in g && 0 <= k < |u.net| && (x, k) !in u.seen ensures Harmless(x, u.net[k].msg, l, t) {
      if k < |s.net| {
        assert (x, k) !in s.seen;
      } else if Electoral(u.net[k].msg) {
        ActorSpeaksForLeader(p, n, a.ev, m, u.net[k].msg, x, l, t);
      } else {
        OthersAreHarmless(u.net[k].msg, x, l, t);
      }
    }
  }

  lemma OthersAreHarmless(x: Msg, y: Id, l: Id, t: int)
    requires !Electoral(x)
    ensures Harmless(y, x, l, t)
  {
  }

  lemma MemberStaysSubject(g: Members, w: Watched, a: Action, l: Id, t: int, x: Id)
    requires Stable(g, w, l, t) && Timely(g, w, a, l) && x in g
    ensures var u := NextWatched(g, w, a);
            && x in w.s.nodes && u.s.nodes.Keys == g.Keys && u.heard.Keys == g.Keys
            && Undisturbed(w.s.nodes[x], u.s.nodes[x]) && Subject(g, u, x, l, t)
  {
    hide Next, Good, Turn, LeaderNotes, NoUnrest, WellFormed, Undisturbed, HearsLeader, Delivers;
    OthersRest(g, w.s, a, x);
    assert Subject(g, w, x, l, t);
    if x == a.who {
      ActorStaysCalm(g, w, a, l, t);
    } else {
      Unmoved(w.s.nodes[x]);
    }
  }

  lemma StepStaysRuled(g: Members, w: Watched, a: Action, l: Id, t: int)
    requires Stable(g, w, l, t) && Timely(g, w, a, l)
    ensures Ruled(g, NextWatched(g, w, a), l, t)
    ensures forall x :: x in g ==> Undisturbed(w.s.nodes[x], NextWatched(g, w, a).s.nodes[x])
  {
    hide NextWatched, WellFormed, NoUnrest, Undisturbed, Subject, Enabled;
    var u := NextWatched(g, w, a);
    forall x | x in g
      ensures Subject(g, u, x, l, t) && x in w.s.nodes && x in u.s.nodes && Undisturbed(w.s.nodes[x], u.s.nodes[x])
    {
      MemberStaysSubject(g, w, a, l, t, x);
    }
    MemberStaysSubject(g, w, a, l, t, l);
  }

  lemma Unmoved(n: Node)
    ensures Undisturbed(n, n)
  {
  }

  /** One step of a stable group. */
  lemma StepStaysStable(g: Members, w: Watched, a: Action, l: Id, t: int)
    requires Stable(g, w, l, t) && Timely(g, w, a, l)
    ensures Stable(g, NextWatched(g, w, a), l, t)
    ensures forall x :: x in g ==> Undisturbed(w.s.nodes[x], NextWatched(g, w, a).s.nodes[x])
  {
    hide Next, WellFormed, Ruled, NoUnrest, Undisturbed;
    NextIsWellFormed(g, w.s, a);
    StepKeepsPeace(g, w, a, l, t);
    StepStaysRuled(g, w, a, l, t);
  }

  // ---------------------------------------------------------------- whole runs

  ghost predicate TimelyStep(g: Members, w: Watched, a: Action, u: Watched, l: Id) {
    WellFormed(g, w.s) && Timely(g, w, a, l) && u == NextWatched(g, w, a)
  }

  ghost predicate TimelyRun(g: Members, l: Id, t: int, states: seq<Watched>, acts: seq<Action>) {
    && |states| == |acts| + 1
    && Stable(g, states[0], l, t)
    && forall i :: 0 <= i < |acts| ==> TimelyStep(g, states[i], acts[i], states[i + 1], l)
  }

  lemma {:induction false} StabilityHolds(g: Members, l: Id, t: int, states: seq<Watched>, acts: seq<Action>, i: nat)
    requires TimelyRun(g, l, t, states, acts) && i < |states|
    ensures Stable(g, states[i], l, t)
    ensures states[0].s.nodes.Keys == states[i].s.nodes.Keys == g.Keys
    ensures forall x :: x in g ==> Undisturbed(states[0].s.nodes[x], states[i].s.nodes[x])
  {
    hide Good, Next, LeaderNotes, NoUnrest, Timely;
    if i == 0 {
      StableRoles(g, states[0], l, t);
    } else {
      StabilityHolds(g, l, t, states, acts, i - 1);
      assert TimelyStep(g, states[i - 1], acts[i - 1], states[i], l);
      StepStaysStable(g, states[i - 1], acts[i - 1], l, t);
    }
  }

  /** In every timely continuation nothing about the leadership changes, and nobody is told it did. */
  lemma LeaderStaysUndisturbed(g: Members, l: Id, t: int, states: seq<Watched>, acts: seq<Action>, i: nat, x: Id)
    requires TimelyRun(g, l, t, states, acts) && i < |states| && x in g
    ensures x in states[0].s.nodes && x in states[i].s.nodes
    ensures var n := states[i].s.nodes[x];
            && !n.role.Candidate? && (n.role.Leader? <==> x == l) && n.leader == Some(l) && n.term == t
            && LeaderNotes(n.notes) == LeaderNotes(states[0].s.nodes[x].notes)
  {
    hide Stable, TimelyStep, LeaderNotes;
    StabilityHolds(g, l, t, states, acts, i);
    StableRoles(g, states[i], l, t);
  }

  lemma StableRoles(g: Members, w: Watched, l: Id, t: int)
    requires Stable(g, w, l, t)
    ensures w.s.nodes.Keys == g.Keys
    ensures forall x :: x in g ==>
              && !w.s.nodes[x].role.Candidate? && (w.s.nodes[x].role.Leader? <==> x == l)
              && w.s.nodes[x].leader == Some(l) && w.s.nodes[x].term == t
  {
  }
}
