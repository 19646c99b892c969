/**
  Election safety in a round. The round starts with every member a follower of the same term that
  has not voted, and no election or poll message under way; it lasts until an AUTHORITY message
  reaches another member. Whatever the order of timeouts, votes, losses and joins, at most one member
  is ever leader, because a member's one vote makes supporter sets of leaders disjoint.
 */
module GroupElection {
  import opened Wrappers
  import opened OrderedDict
  import opened GroupModel
  import opened GroupNode
  import opened GroupSystem

  // ---------------------------------------------------------------- one member in a round of term t

  ghost predicate RoundNode(p: Params, n: Node, t: int) {
    && (n.term == t || n.term == t + 1)
    && (n.votedFor.Some? ==> n.term == t + 1)
    && (n.leaderDeadline.Some? ==> n.role.Follower? && n.votedFor.None? && n.term == t)
    && (!n.role.Follower? ==> n.votedFor == Some(p.ownId))
  }

  /** The messages a round delivers: no poll traffic, and AUTHORITY only to its own sender. */
  ghost predicate RoundEvent(p: Params, n: Node, t: int, ev: Event) {
    Delivers(ev) ==>
      match ev.net.value
      case Rcm(_) => false
      case Ann(_, _) => false
      case Authority(_, node, _, _) => node == p.ownId && n.role.Leader?
      case ReqVote(term, _) => term == t + 1
      case _ => true
  }

  ghost predicate RoundMove(p: Params, n: Node, m: Node, ev: Event, t: int) {
    && RoundNode(p, m, t)
    && (n.role.Leader? ==> m.role.Leader?)
    && (m.role.Leader? && !n.role.Leader? ==>
          n.role.Candidate? && YesForMe(p, ev) && m.numPeers / 2 + 1 <= n.votes + 1)
    && (m.role.Candidate? && n.role.Candidate? ==> m.votes == if YesForMe(p, ev) then n.votes + 1 else n.votes)
    && (m.role.Candidate? && !n.role.Candidate? ==> n.leaderDeadline.Some? && m.votes == 1)
    && (n.leaderDeadline.None? ==> m.leaderDeadline.None?)
    && (n.role.Follower? && n.votedFor.Some? ==> m.role.Follower? && m.votedFor == n.votedFor)
  }

  lemma FollowerMove(p: Params, n: Node, a: Node, m: Node, ev: Event, e: Env, t: int)
    requires n.role.Follower? && SameElection(n, a)
    requires SameElection(Elect(p, a, ev, e), m) && m.numPeers == Elect(p, a, ev, e).numPeers
    requires RoundNode(p, n, t) && RoundEvent(p, n, t, ev)
    ensures RoundMove(p, n, m, ev, t)
  {
    hide CandidateHears, LeaderHears, UpdateLink, WithExit, Put, Remove, Keys;
  }

  lemma CandidateMove(p: Params, n: Node, a: Node, m: Node, ev: Event, e: Env, t: int)
    requires n.role.Candidate? && SameElection(n, a)
    requires SameElection(Elect(p, a, ev, e), m) && m.numPeers == Elect(p, a, ev, e).numPeers
    requires RoundNode(p, n, t) && RoundEvent(p, n, t, ev)
    ensures RoundMove(p, n, m, ev, t)
  {
    hide FollowerHears, LeaderHears, UpdateLink, WithExit, Put, Remove, Keys;
  }

  lemma LeaderMove(p: Params, n: Node, a: Node, m: Node, ev: Event, e: Env, t: int)
    requires n.role.Leader? && n.ldrPort.Some? && SameElection(n, a)
    requires SameElection(Elect(p, a, ev, e), m) && m.numPeers == Elect(p, a, ev, e).numPeers
    requires RoundNode(p, n, t) && RoundEvent(p, n, t, ev)
    ensures RoundMove(p, n, m, ev, t)
  {
    hide FollowerHears, CandidateHears, UpdateLink, WithExit, Put, Remove, Keys;
  }

  /** What a turn can do to a member's part in the round. */
  lemma TurnMoves(p: Params, n: Node, ev: Event, e: Env, t: int)
    requires Good(p, n) && RoundNode(p, n, t) && RoundEvent(p, n, t, ev)
    ensures RoundMove(p, n, Turn(p, n, ev, e), ev, t)
  {
    hide Good, Turn, AtElection, Elect, RoundMove, RoundNode, RoundEvent;
    GoodLeaderHasPort(p, n);
    TurnIsElection(p, n, ev, e);
    var a, m := AtElection(p, n, ev, e), Turn(p, n, ev, e);
    match n.role
    case Follower => FollowerMove(p, n, a, m, ev, e, t);
    case Candidate => CandidateMove(p, n, a, m, ev, e, t);
    case Leader => LeaderMove(p, n, a, m, ev, e, t);
  }

  // ---------------------------------------------------------------- the round

  ghost predicate Old(m: Msg) {
    Electoral(m) || m.Rcm? || m.Ann?
  }

  /** The start of a round: nobody voted, and every election or poll message sent so far was handled
      by every member. */
  ghost predicate RoundStart(g: Members, s: Sys, t: int) {
    && WellFormed(g, s)
    && (forall x :: x in g ==> s.nodes[x].role.Follower? && s.nodes[x].term == t && s.nodes[x].votedFor.None?)
    && (forall x, k :: x in g && 0 <= k < |s.net| && Old(s.net[k].msg) ==> (x, k) in s.seen)
  }

  /** A step of the round: no poll message is delivered, and AUTHORITY only to its sender. */
  ghost predicate RoundAction(g: Members, s: Sys, a: Action) {
    && Enabled(g, s, a)
    && (Delivers(a.ev) ==>
          var m := a.ev.net.value;
          !m.Rcm? && !m.Ann? && (m.Authority? ==> m.node == a.who))
  }

  ghost predicate IsYes(m: Msg, c: Id) {
    m.RspVote? && m.yes && m.node == c
  }

  /** The yes votes for c that c has consumed in the round. */
  ghost function Counted(s: Sys, c: Id, base: nat): set<nat> {
    set k: nat | base <= k < |s.net| && (c, k) in s.seen && IsYes(s.net[k].msg, c)
  }

  ghost predicate YesHolds(g: Members, s: Sys, base: nat, k: nat)
    requires s.nodes.Keys == g.Keys && k < |s.net| && s.net[k].msg.RspVote?
  {
    var m := s.net[k].msg;
    && m.voter in g && s.nodes[m.voter].role.Follower? && s.nodes[m.voter].votedFor == Some(m.node)
    && exists r: nat :: base <= r < |s.net| && (m.voter, r) in s.seen && s.net[r].msg.ReqVote? && s.net[r].msg.node == m.node
  }

  ghost predicate RoundNet(g: Members, s: Sys, t: int, base: nat) {
    && s.nodes.Keys == g.Keys && base <= |s.net|
    && (forall x, k :: x in g && 0 <= k < base && Old(s.net[k].msg) ==> (x, k) in s.seen)
    && (forall k :: base <= k < |s.net| && s.net[k].msg.ReqVote? ==>
          var m := s.net[k].msg; m.term == t + 1 && m.node in g && s.nodes[m.node].leaderDeadline.None?)
    && (forall k, l :: base <= k < l < |s.net| && s.net[k].msg.ReqVote? && s.net[l].msg.ReqVote? ==>
          s.net[k].msg.node != s.net[l].msg.node)
    && (forall k :: base <= k < |s.net| && s.net[k].msg.RspVote? && s.net[k].msg.yes ==> YesHolds(g, s, base, k))
    && (forall k, l :: base <= k < l < |s.net|
                       && s.net[k].msg.RspVote? && s.net[k].msg.yes && s.net[l].msg.RspVote? && s.net[l].msg.yes ==>
          s.net[k].msg.voter != s.net[l].msg.voter)
    && (forall k :: base <= k < |s.net| && s.net[k].msg.Authority? ==>
          s.net[k].msg.node in g && s.nodes[s.net[k].msg.node].role.Leader?)
  }

  ghost predicate Backed(g: Members, s: Sys, base: nat) {
    s.nodes.Keys == g.Keys &&
    forall c :: c in g ==>
      && (s.nodes[c].role.Candidate? ==> s.nodes[c].votes <= 1 + |Counted(s, c, base)|)
      && (s.nodes[c].role.Leader? ==> |g| / 2 + 1 <= 1 + |Counted(s, c, base)|)
  }

  ghost predicate RoundInv(g: Members, s: Sys, t: int, base: nat) {
    && WellFormed(g, s)
    && (forall x :: x in g ==> RoundNode(g[x], s.nodes[x], t))
    && RoundNet(g, s, t, base)
    && Backed(g, s, base)
  }

  // ---------------------------------------------------------------- one step keeps the round invariant

  lemma ActionIsRoundEvent(g: Members, s: Sys, a: Action, t: int, base: nat)
    requires RoundInv(g, s, t, base) && RoundAction(g, s, a)
    ensures RoundEvent(g[a.who], s.nodes[a.who], t, a.ev)
    ensures Delivers(a.ev) && Old(a.ev.net.value) ==> base <= a.packet
  {
    hide Good, RoundNode, Backed, YesHolds;
  }

  /** What the actor's turn did, and where its packets went. */
  ghost predicate Stepped(g: Members, s: Sys, a: Action, u: Sys, t: int)
  {
    && a.who in g && s.nodes.Keys == g.Keys && u.nodes.Keys == g.Keys
    && (forall x :: x in g && x != a.who ==> u.nodes[x] == s.nodes[x])
    && RoundMove(g[a.who], s.nodes[a.who], u.nodes[a.who], a.ev, t)
    && |s.net| <= |u.net| && (forall k :: 0 <= k < |s.net| ==> u.net[k] == s.net[k])
    && (forall k :: |s.net| <= k < |u.net| && Electoral(u.net[k].msg) ==>
          Speaks(g[a.who], s.nodes[a.who], a.ev, u.nodes[a.who], u.net[k].msg))
    && (forall k, l :: |s.net| <= k < l < |u.net| ==> !(Electoral(u.net[k].msg) && Electoral(u.net[l].msg)))
    && u.seen == (if Delivers(a.ev) then s.seen + {(a.who, a.packet)} else s.seen)
  }

  /** A member that becomes leader has everybody in its table of peers. */
  ghost predicate WinnerKnowsAll(g: Members, s: Sys, a: Action, u: Sys) {
    a.who in s.nodes && a.who in u.nodes && u.nodes[a.who].role.Leader? && !s.nodes[a.who].role.Leader? ==>
      |g| <= u.nodes[a.who].numPeers
  }

  lemma NextSteps(g: Members, s: Sys, a: Action, t: int, base: nat)
    requires RoundInv(g, s, t, base) && RoundAction(g, s, a)
    ensures Stepped(g, s, a, Next(g, s, a), t)
  {
    ActionIsRoundEvent(g, s, a, t, base);
    NextParts(g, s, a);
    hide Next, Good, Turn, Sent, RoundNode, RoundMove, Backed, RoundNet, Speaks, Electoral, Extends;
    TurnMoves(g[a.who], s.nodes[a.who], a.ev, a.env, t);
    TurnSpeaks(g[a.who], s.nodes[a.who], a.ev, a.env);
  }

  lemma StepKeepsRequests(g: Members, s: Sys, a: Action, u: Sys, t: int, base: nat)
    requires RoundNet(g, s, t, base) && Stepped(g, s, a, u, t) && RoundNode(g[a.who], s.nodes[a.who], t)
    requires g[a.who].ownId == a.who
    ensures forall k :: base <= k < |u.net| && u.net[k].msg.ReqVote? ==>
              var m := u.net[k].msg; m.term == t + 1 && m.node in g && u.nodes[m.node].leaderDeadline.None?
    ensures forall k, l :: base <= k < l < |u.net| && u.net[k].msg.ReqVote? && u.net[l].msg.ReqVote? ==>
              u.net[k].msg.node != u.net[l].msg.node
    ensures forall k :: base <= k < |u.net| && u.net[k].msg.Authority? ==>
              u.net[k].msg.node in g && u.nodes[u.net[k].msg.node].role.Leader?
  {
    hide YesHolds;
    forall k | base <= k < |u.net| && u.net[k].msg.ReqVote?
      ensures var m := u.net[k].msg; m.term == t + 1 && m.node in g && u.nodes[m.node].leaderDeadline.None?
      ensures |s.net| <= k ==> u.net[k].msg.node == a.who && s.nodes[a.who].leaderDeadline.Some?
    {
      if k < |s.net| {
        assert u.net[k] == s.net[k];
      } else {
        assert Electoral(u.net[k].msg);
      }
    }
    forall k, l | base <= k < l < |u.net| && u.net[k].msg.ReqVote? && u.net[l].msg.ReqVote?
      ensures u.net[k].msg.node != u.net[l].msg.node
    {
      if l < |s.net| {
        assert u.net[k] == s.net[k] && u.net[l] == s.net[l];
      } else if k < |s.net| {
        assert u.net[k] == s.net[k];
      } else {
        assert false;
      }
    }
    forall k | base <= k < |u.net| && u.net[k].msg.Authority?
      ensures u.net[k].msg.node in g && u.nodes[u.net[k].msg.node].role.Leader?
    {
      if k < |s.net| {
        assert u.net[k] == s.net[k];
      } else {
        assert Electoral(u.net[k].msg);
      }
    }
  }

  /** A yes vote in the new packets is the actor's first, and its vote stands. */
  lemma NewYesIsFirst(g: Members, s: Sys, a: Action, u: Sys, t: int, base: nat, k: nat)
    requires RoundNet(g, s, t, base) && Stepped(g, s, a, u, t) && RoundNode(g[a.who], s.nodes[a.who], t)
    requires g[a.who].ownId == a.who
    requires Delivers(a.ev) ==> a.packet < |s.net| && s.net[a.packet].msg == a.ev.net.value && (a.who, a.packet) !in s.seen
    requires |s.net| <= k < |u.net| && u.net[k].msg.RspVote? && u.net[k].msg.yes
    ensures u.net[k].msg.voter == a.who && YesHolds(g, u, base, k)
    ensures forall l :: base <= l < |s.net| && s.net[l].msg.RspVote? && s.net[l].msg.yes ==> s.net[l].msg.voter != a.who
  {
    var x, n, r := u.net[k].msg, s.nodes[a.who], a.packet;
    assert Electoral(x);
    assert a.ev.net.value == ReqVote(x.term, x.node);
    assert Old(s.net[r].msg);
    assert base <= r;
    assert u.net[r] == s.net[r];
    assert x.term == t + 1;
    forall l | base <= l < |s.net| && s.net[l].msg.RspVote? && s.net[l].msg.yes
      ensures s.net[l].msg.voter != a.who
    {
      var m := s.net[l].msg;
      assert YesHolds(g, s, base, l);
      var q: nat :| base <= q < |s.net| && (m.voter, q) in s.seen && s.net[q].msg.ReqVote? && s.net[q].msg.node == m.node;
      assert m.node == x.node ==> q == r;
    }
  }

  lemma StepKeepsVotes(g: Members, s: Sys, a: Action, u: Sys, t: int, base: nat)
    requires RoundNet(g, s, t, base) && Stepped(g, s, a, u, t) && RoundNode(g[a.who], s.nodes[a.who], t)
    requires g[a.who].ownId == a.who
    requires Delivers(a.ev) ==> a.packet < |s.net| && s.net[a.packet].msg == a.ev.net.value && (a.who, a.packet) !in s.seen
    ensures forall k :: base <= k < |u.net| && u.net[k].msg.RspVote? && u.net[k].msg.yes ==> YesHolds(g, u, base, k)
    ensures forall k, l :: base <= k < l < |u.net|
                           && u.net[k].msg.RspVote? && u.net[k].msg.yes && u.net[l].msg.RspVote? && u.net[l].msg.yes ==>
              u.net[k].msg.voter != u.net[l].msg.voter
  {
    forall k | base <= k < |u.net| && u.net[k].msg.RspVote? && u.net[k].msg.yes
      ensures YesHolds(g, u, base, k)
      ensures |s.net| <= k ==> u.net[k].msg.voter == a.who && Electoral(u.net[k].msg)
    {
      if k < |s.net| {
        assert u.net[k] == s.net[k];
        var m := s.net[k].msg;
        assert YesHolds(g, s, base, k);
        var r: nat :| base <= r < |s.net| && (m.voter, r) in s.seen && s.net[r].msg.ReqVote? && s.net[r].msg.node == m.node;
        assert u.net[r] == s.net[r] && (m.voter, r) in u.seen;
      } else {
        NewYesIsFirst(g, s, a, u, t, base, k);
      }
    }
    forall k, l | base <= k < l < |u.net|
                  && u.net[k].msg.RspVote? && u.net[k].msg.yes && u.net[l].msg.RspVote? && u.net[l].msg.yes
      ensures u.net[k].msg.voter != u.net[l].msg.voter
    {
      if l < |s.net| {
        assert u.net[k] == s.net[k] && u.net[l] == s.net[l];
      } else if k < |s.net| {
        assert u.net[k] == s.net[k];
        NewYesIsFirst(g, s, a, u, t, base, l);
      }
    }
  }

  lemma StepKeepsBacking(g: Members, s: Sys, a: Action, u: Sys, t: int, base: nat)
    requires Backed(g, s, base) && Stepped(g, s, a, u, t)
    requires g[a.who].ownId == a.who && WinnerKnowsAll(g, s, a, u)
    requires forall x, k :: (x, k) in s.seen ==> k < |s.net|
    requires Delivers(a.ev) ==> a.packet < |s.net| && s.net[a.packet].msg == a.ev.net.value && (a.who, a.packet) !in s.seen
    requires Delivers(a.ev) && Old(a.ev.net.value) ==> base <= a.packet
    ensures Backed(g, u, base)
  {
    hide Speaks, RoundNode, Counted;
    forall c | c in g
      ensures u.nodes[c].role.Candidate? ==> u.nodes[c].votes <= 1 + |Counted(u, c, base)|
      ensures u.nodes[c].role.Leader? ==> |g| / 2 + 1 <= 1 + |Counted(u, c, base)|
    {
      CountGrows(g, s, a, u, t, base, c);
    }
  }

  /** Consumed yes votes stay counted, and a newly consumed one is added. */
  lemma CountGrows(g: Members, s: Sys, a: Action, u: Sys, t: int, base: nat, c: Id)
    requires Stepped(g, s, a, u, t) && c in g && g[a.who].ownId == a.who
    requires forall x, k :: (x, k) in s.seen ==> k < |s.net|
    requires Delivers(a.ev) ==> a.packet < |s.net| && s.net[a.packet].msg == a.ev.net.value && (a.who, a.packet) !in s.seen
    requires Delivers(a.ev) && Old(a.ev.net.value) ==> base <= a.packet
    ensures |Counted(s, c, base)| + (if c == a.who && YesForMe(g[c], a.ev) then 1 else 0) <= |Counted(u, c, base)|
  {
    hide Speaks, RoundNode, RoundMove;
    var before, after := Counted(s, c, base), Counted(u, c, base);
    forall k | k in before ensures k in after { assert u.net[k] == s.net[k]; }
    if c == a.who && YesForMe(g[c], a.ev) {
      assert u.net[a.packet] == s.net[a.packet];
      Grows(before + {a.packet}, after);
    } else {
      Grows(before, after);
    }
  }

  lemma {:induction false} Grows(a: set<nat>, b: set<nat>)
    requires a <= b
    ensures |a| <= |b|
  {
    if a != {} {
      var x :| x in a;
      Grows(a - {x}, b - {x});
    }
  }

  lemma StepKeepsNet(g: Members, s: Sys, a: Action, u: Sys, t: int, base: nat)
    requires RoundNet(g, s, t, base) && Stepped(g, s, a, u, t) && RoundNode(g[a.who], s.nodes[a.who], t)
    requires g[a.who].ownId == a.who
    requires Delivers(a.ev) ==> a.packet < |s.net| && s.net[a.packet].msg == a.ev.net.value && (a.who, a.packet) !in s.seen
    ensures RoundNet(g, u, t, base)
  {
    StepKeepsRequests(g, s, a, u, t, base);
    StepKeepsVotes(g, s, a, u, t, base);
    hide YesHolds, Speaks, RoundMove, RoundNode;
    forall x, k | x in g && 0 <= k < base && Old(u.net[k].msg) ensures (x, k) in u.seen {
      assert u.net[k] == s.net[k];
    }
  }

  lemma StepKeepsMembers(g: Members, s: Sys, a: Action, u: Sys, t: int)
    requires Stepped(g, s, a, u, t) && forall x :: x in g ==> RoundNode(g[x], s.nodes[x], t)
    ensures forall x :: x in g ==> RoundNode(g[x], u.nodes[x], t)
  {
    hide RoundNode, Speaks, Electoral;
  }

  /** Every step of the round keeps the invariant. */
  lemma StepKeepsRound(g: Members, s: Sys, a: Action, t: int, base: nat)
    requires RoundInv(g, s, t, base) && RoundAction(g, s, a)
    requires WinnerKnowsAll(g, s, a, Next(g, s, a))
    ensures RoundInv(g, Next(g, s, a), t, base)
  {
    var u := Next(g, s, a);
    NextIsWellFormed(g, s, a);
    NextSteps(g, s, a, t, base);
    ActionIsRoundEvent(g, s, a, t, base);
    hide Next, Good, RoundNode, Backed, RoundNet, Stepped, Old;
    StepKeepsMembers(g, s, a, u, t);
    StepKeepsNet(g, s, a, u, t, base);
    StepKeepsBacking(g, s, a, u, t, base);
  }

  lemma StartIsRound(g: Members, s: Sys, t: int)
    requires RoundStart(g, s, t)
    ensures RoundInv(g, s, t, |s.net|)
  {
    hide Good;
  }

  // ---------------------------------------------------------------- two leaders are one

  ghost function Supporters(g: Members, s: Sys, c: Id): set<Id>
    requires s.nodes.Keys == g.Keys
  {
    set v | v in g && s.nodes[v].votedFor == Some(c)
  }

  lemma {:induction false} ImageSize(ks: set<nat>, f: nat -> Id, into: set<Id>)
    requires forall k :: k in ks ==> f(k) in into
    requires forall k, l :: k in ks && l in ks && k != l ==> f(k) != f(l)
    ensures |ks| <= |into|
    decreases ks
  {
    if ks != {} {
      var k :| k in ks;
      ImageSize(ks - {k}, f, into - {f(k)});
    }
  }

  /** A leader has a majority of supporters: its own vote and the voters it counted. */
  lemma LeaderHasMajority(g: Members, s: Sys, t: int, base: nat, c: Id)
    requires RoundInv(g, s, t, base) && c in g && s.nodes[c].role.Leader?
    ensures |g| / 2 + 1 <= |Supporters(g, s, c)|
  {
    hide Good;
    var counted, own := Counted(s, c, base), Supporters(g, s, c);
    var f := (k: nat) => if k < |s.net| && s.net[k].msg.RspVote? then s.net[k].msg.voter else 0;
    assert c in own;
    forall k | k in counted ensures f(k) in own - {c} {
      assert YesHolds(g, s, base, k);
    }
    forall k, l | k in counted && l in counted && k != l ensures f(k) != f(l) {
      if k < l { assert s.net[k].msg.voter != s.net[l].msg.voter; }
      else { assert s.net[l].msg.voter != s.net[k].msg.voter; }
    }
    ImageSize(counted, f, own - {c});
  }

  lemma LeadersAgree(g: Members, s: Sys, t: int, base: nat, c: Id, d: Id)
    requires RoundInv(g, s, t, base) && c in g && d in g
    requires s.nodes[c].role.Leader? && s.nodes[d].role.Leader?
    ensures c == d
  {
    LeaderHasMajority(g, s, t, base, c);
    LeaderHasMajority(g, s, t, base, d);
    hide RoundInv;
    var sc, sd := Supporters(g, s, c), Supporters(g, s, d);
    assert |g.Keys| == |g|;
    Grows(sc + sd, g.Keys);
    assert c != d ==> sc !! sd;
    assert sc !! sd ==> |sc + sd| == |sc| + |sd|;
  }

  // ---------------------------------------------------------------- whole rounds

  /** One step of a round: a member that wins knows all members when it does. */
  ghost predicate RoundStep(g: Members, s: Sys, a: Action, u: Sys) {
    WellFormed(g, s) && RoundAction(g, s, a) && u == Next(g, s, a) && WinnerKnowsAll(g, s, a, u)
  }

  /** The states of a round, from its start, and the actions taken. */
  ghost predicate Round(g: Members, t: int, states: seq<Sys>, acts: seq<Action>) {
    && |states| == |acts| + 1
    && RoundStart(g, states[0], t)
    && forall i :: 0 <= i < |acts| ==> RoundStep(g, states[i], acts[i], states[i + 1])
  }

  lemma RoundStepKeeps(g: Members, s: Sys, a: Action, u: Sys, t: int, base: nat)
    requires RoundInv(g, s, t, base) && RoundStep(g, s, a, u)
    ensures RoundInv(g, u, t, base)
    ensures Stepped(g, s, a, u, t)
  {
    hide RoundInv, Next, RoundAction, WellFormed, Stepped;
    StepKeepsRound(g, s, a, t, base);
    NextSteps(g, s, a, t, base);
  }

  lemma {:induction false} RoundHolds(g: Members, t: int, states: seq<Sys>, acts: seq<Action>, i: nat)
    requires Round(g, t, states, acts) && i < |states|
    ensures RoundInv(g, states[i], t, |states[0].net|)
  {
    hide RoundInv, RoundStart, RoundStep;
    if i == 0 {
      StartIsRound(g, states[0], t);
    } else {
      RoundHolds(g, t, states, acts, i - 1);
      RoundStepKeeps(g, states[i - 1], acts[i - 1], states[i], t, |states[0].net|);
    }
  }

  lemma SteppedKeepsLeader(g: Members, s: Sys, a: Action, u: Sys, t: int, c: Id)
    requires Stepped(g, s, a, u, t) && c in g && c in s.nodes && s.nodes[c].role.Leader?
    ensures c in u.nodes && u.nodes[c].role.Leader?
  {
    hide RoundNode, Speaks, Electoral;
  }

  /** In a round a leader stays leader. */
  lemma {:induction false} LeaderStays(g: Members, t: int, states: seq<Sys>, acts: seq<Action>, i: nat, j: nat, c: Id)
    requires Round(g, t, states, acts) && i <= j < |states| && c in g
    requires c in states[i].nodes && states[i].nodes[c].role.Leader?
    ensures c in states[j].nodes && states[j].nodes[c].role.Leader?
    decreases j
  {
    hide RoundInv, RoundStart, RoundStep, Stepped;
    if i < j {
      LeaderStays(g, t, states, acts, i, j - 1, c);
      RoundHolds(g, t, states, acts, j - 1);
      RoundStepKeeps(g, states[j - 1], acts[j - 1], states[j], t, |states[0].net|);
      SteppedKeepsLeader(g, states[j - 1], acts[j - 1], states[j], t, c);
    }
  }

  /** Election safety: in a round at most one member is ever leader. */
  lemma AtMostOneLeaderInRound(g: Members, t: int, states: seq<Sys>, acts: seq<Action>, i: nat, j: nat, c: Id, d: Id)
    requires Round(g, t, states, acts) && i <= j < |states|
    requires c in g && c in states[i].nodes && states[i].nodes[c].role.Leader?
    requires d in g && d in states[j].nodes && states[j].nodes[d].role.Leader?
    ensures c == d
  {
    hide RoundInv, RoundStart, RoundStep;
    LeaderStays(g, t, states, acts, i, j, c);
    RoundHolds(g, t, states, acts, j);
    LeadersAgree(g, states[j], t, |states[0].net|, c, d);
  }
}
