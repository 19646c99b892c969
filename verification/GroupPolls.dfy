/**
  Polls. The leader keeps two counters per open poll and deletes the poll when it announces a
  result. Here every request ever processed is a case on a docket that keeps the ballots themselves
  and the verdict; the counters refine the docket over every run.
 */
module GroupPolls {
  import opened Wrappers
  import opened OrderedDict
  import opened GroupModel
  import opened GroupNode

  /** A request, when it was processed, and what came of it. */
  datatype Case = Case(
    request: Request, arrived: Time, members: int, deadline: Time,
    ballots: seq<bool>, verdict: Option<Verdict>, decidedAt: Time)

  type Docket = map<RequestId, Case>

  ghost function Ayes(ballots: seq<bool>): nat {
    multiset(ballots)[true]
  }

  /** Strict majority, or unanimity, of the ballots cast. */
  ghost predicate Passes(kind: Kind, ballots: seq<bool>) {
    match kind
    case Majority => |ballots| < 2 * Ayes(ballots)
    case Consensus => false !in ballots
  }

  ghost function Decide(c: Case, now: Time): Case {
    if c.verdict.Some? then c
    else if c.deadline < now then c.(verdict := Some(TimedOut), decidedAt := now)
    else if |c.ballots| == c.members then
      c.(verdict := Some(if Passes(c.request.kind, c.ballots) then Yes else No), decidedAt := now)
    else c
  }

  // ---------------------------------------------------------------- the docket

  /** A request that allows this much time: refused if it took longer, otherwise the time it took is taken off what
      is left of it. */
  ghost function Enter(r: Request, at: Time, members: int, limit: Time): Case {
    if r.started + limit < at then Case(r, at, members, r.started + limit, [], Some(TimedOut), at)
    else Case(r, at, members, at + limit - 2 * (at - r.started), [], None, at)
  }

  /** Requests name the time they allow; those that name none have the group's consensus timeout, in seconds. */
  ghost function File(p: Params, d: Docket, r: Request, at: Time, members: int): Docket {
    d[r.id := if r.timeout != 0 then Enter(r, at, members, r.timeout)
              else Enter(r, at, members, p.consensusTimeout * 1_000_000)]
  }

  ghost function Ballot(d: Docket, id: RequestId, yes: bool, at: Time): Docket {
    if id in d && d[id].verdict.None?
    then d[id := Decide(d[id].(ballots := d[id].ballots + [yes]), at)] else d
  }

  ghost function Review(d: Docket, now: Time): Docket {
    map id | id in d :: Decide(d[id], now)
  }

  ghost function DocketAfterCommand(p: Params, n: Node, c: Option<Command>, d: Docket): Docket {
    if c.Some? && n.leader == Some(p.ownId) then
      match c.value
      case AskVote(r, at) => File(p, d, r, at, n.numPeers)
      case CastVote(id, yes, at) => Ballot(d, id, yes, at)
      case _ => d
    else d
  }

  ghost function DocketAfterAsk(p: Params, n: Node, a: Option<Ask>, d: Docket): Docket {
    match a
    case None => d
    case Some(AskPoll(r, at)) => File(p, d, r, at, n.numPeers)
    case Some(AskBallot(id, yes, at)) => Ballot(d, id, yes, at)
  }

  /** The docket after a turn of the loop: the requests and ballots it processed, in order. */
  ghost function DocketAfter(p: Params, n: Node, ev: Event, e: Env, d: Docket): Docket {
    var m := UpdatePeers(p, Beat(p, n, e.now), e.now);
    match ev
    case Timeout => Review(d, e.now)
    case Ready(c, net, a) =>
      var m1 := AfterCommand(p, m, c);
      DocketAfterAsk(p, AfterNet(p, m1, net, e), a, DocketAfterCommand(p, m, c, d))
  }

  /** The random id of a request is new. */
  ghost predicate NewIds(p: Params, n: Node, ev: Event, e: Env, d: Docket) {
    ev.Ready? ==>
      var m := UpdatePeers(p, Beat(p, n, e.now), e.now);
      && (ev.command.Some? && ev.command.value.AskVote? ==> ev.command.value.request.id !in d)
      && (ev.ask.Some? && ev.ask.value.AskPoll? ==>
            ev.ask.value.request.id !in DocketAfterCommand(p, m, ev.command, d))
  }

  // ---------------------------------------------------------------- the refinement

  ghost function Summary(id: RequestId, c: Case): PollState {
    PollState(id, c.request.kind, c.deadline, c.members, c.members / 2 + 1, |c.ballots|, Ayes(c.ballots))
  }

  /** The verdicts announced for a request, in order. */
  ghost function Announced(pub: seq<Msg>, id: RequestId): seq<Verdict> {
    if pub == [] then []
    else
      var m := pub[|pub| - 1];
      Announced(pub[..|pub| - 1], id) + if m.Ann? && m.request == id then [m.verdict] else []
  }

  ghost predicate Pending(d: Docket, id: RequestId) {
    id in d && d[id].verdict.None?
  }

  ghost function Answers(d: Docket, id: RequestId): seq<Verdict> {
    if id in d && d[id].verdict.Some? then [d[id].verdict.value] else []
  }

  /** The open polls are the pending cases, and every decided case was announced once, with its verdict. */
  ghost predicate Refines(n: Node, d: Docket) {
    && Distinct(n.polls)
    && (forall i :: 0 <= i < |n.polls| ==>
          Pending(d, n.polls[i].0) && n.polls[i].1 == Summary(n.polls[i].0, d[n.polls[i].0]))
    && (forall id :: Pending(d, id) ==> id in Keys(n.polls))
    && (forall id :: Announced(n.pub, id) == Answers(d, id))
  }

  /** What a case says: a yes or no came with the ballot that made the count the number of members, in time, by
      the rule of the poll; a timeout came after the deadline; a pending poll still waits for a ballot. */
  ghost predicate Sound(c: Case) {
    match c.verdict
    case None => |c.ballots| < c.members || c.members <= 0
    case Some(TimedOut) => c.deadline < c.decidedAt
    case Some(v) => |c.ballots| == c.members && c.decidedAt <= c.deadline && (v == Yes <==> Passes(c.request.kind, c.ballots))
  }

  /** The case of a request that allows this much time is decided by then: at once if the request took longer. */
  ghost predicate Due(c: Case, limit: Time) {
    if limit < c.arrived - c.request.started
    then c.verdict == Some(TimedOut) && c.decidedAt == c.arrived && c.ballots == []
    else c.deadline == c.arrived + limit - 2 * (c.arrived - c.request.started)
  }

  ghost predicate Dated(p: Params, id: RequestId, c: Case) {
    && c.request.id == id
    && (c.request.timeout != 0 ==> Due(c, c.request.timeout))
    && (c.request.timeout == 0 ==> Due(c, p.consensusTimeout * 1_000_000))
  }

  lemma AnnouncedMore(pub: seq<Msg>, m: Msg, id: RequestId)
    ensures Announced(pub + [m], id) == Announced(pub, id) + if m.Ann? && m.request == id then [m.verdict] else []
  {
    assert (pub + [m])[..|pub|] == pub;
  }

  lemma {:induction false} AllAyes(ballots: seq<bool>)
    ensures Ayes(ballots) <= |ballots|
    ensures Ayes(ballots) == |ballots| <==> false !in ballots
  {
    if ballots != [] {
      var front, last := ballots[..|ballots| - 1], ballots[|ballots| - 1];
      assert ballots == front + [last];
      AllAyes(front);
    }
  }

  /** The leader's counters decide as the ballots do. */
  lemma JudgeDecides(id: RequestId, c: Case, now: Time)
    requires c.verdict.None?
    ensures Judge(Summary(id, c), now) == Decide(c, now).verdict
  {
    AllAyes(c.ballots);
  }

  lemma CountIsBallot(id: RequestId, c: Case, yes: bool)
    ensures Count(Summary(id, c), yes) == Summary(id, c.(ballots := c.ballots + [yes]))
  {
  }

  // ---------------------------------------------------------------- one poll operation at a time

  /** A new request is filed as pending, or as refused with a timeout. */
  lemma AcceptRefines(n: Node, id: RequestId, c: Case, d: Docket)
    requires Refines(n, d) && id !in d && c.verdict.None?
    ensures Refines(n.(polls := n.polls + [(id, Summary(id, c))], pub := n.pub + [Rcm(id)]), d[id := c])
  {
    hide Announced, Summary;
    var polls, f := n.polls + [(id, Summary(id, c))], d[id := c];
    forall x ensures Announced(n.pub + [Rcm(id)], x) == Answers(f, x) {
      AnnouncedMore(n.pub, Rcm(id), x);
      assert Announced(n.pub, x) == Answers(d, x);
    }
    forall x | Pending(f, x) ensures x in Keys(polls) {
      if x == id {
        assert polls[|n.polls|].0 == x;
      } else {
        assert Pending(d, x);
        var i :| 0 <= i < |n.polls| && n.polls[i].0 == x;
        assert polls[i].0 == x;
      }
    }
  }

  lemma RefuseRefines(n: Node, id: RequestId, c: Case, v: Verdict, d: Docket)
    requires Refines(n, d) && id !in d && c.verdict == Some(v)
    ensures Refines(n.(pub := n.pub + [Ann(id, v)]), d[id := c])
  {
    hide Announced, Summary;
    var f := d[id := c];
    forall x ensures Announced(n.pub + [Ann(id, v)], x) == Answers(f, x) {
      AnnouncedMore(n.pub, Ann(id, v), x);
      assert Announced(n.pub, x) == Answers(d, x);
    }
    assert forall x :: Pending(f, x) ==> Pending(d, x);
  }

  lemma OpenPollRefines(p: Params, n: Node, r: Request, at: Time, d: Docket)
    requires Refines(n, d) && r.id !in d
    ensures Refines(OpenPoll(p, n, r, at), File(p, d, r, at, n.numPeers))
  {
    PollsRunAsAsked(p, r, at);
    hide Refines, Pending, PollDeadline, Summary;
    var c := File(p, d, r, at, n.numPeers)[r.id];
    NotYetOpen(n, r.id, d);
    NewKeyAppends(n.polls, r.id);
    NewPollIsSummary(r, c.deadline, n.numPeers, at);
    match PollDeadline(p, r, at)
    case None => RefuseRefines(n, r.id, c, TimedOut, d);
    case Some(_) => AcceptRefines(n, r.id, c, d);
  }

  /** A poll runs for the time its request names, or the consensus timeout in seconds if it names none, less twice
      the time the request took; a request that took longer is refused. */
  lemma PollsRunAsAsked(p: Params, r: Request, at: Time)
    ensures var spent := at - r.started;
            && (r.timeout != 0 ==> PollDeadline(p, r, at) == if r.timeout < spent then None else Some(at + r.timeout - 2 * spent))
            && (r.timeout == 0 ==>
                  PollDeadline(p, r, at) ==
                  if p.consensusTimeout * 1_000_000 < spent then None else Some(at + p.consensusTimeout * 1_000_000 - 2 * spent))
  {
  }

  lemma NotYetOpen(n: Node, id: RequestId, d: Docket)
    requires Refines(n, d) && id !in d
    ensures id !in Keys(n.polls)
  {
    hide Announced, Summary, Answers;
  }

  lemma NewKeyAppends<V(!new)>(d: Dict<RequestId, V>, k: RequestId)
    requires k !in Keys(d)
    ensures forall v: V :: Put(d, k, v) == d + [(k, v)]
  {
    PositionFinds(d, k);
  }

  lemma NewPollIsSummary(r: Request, deadline: Time, members: int, at: Time)
    ensures NewPoll(r, deadline, members) == Summary(r.id, Case(r, at, members, deadline, [], None, at))
  {
  }

  /** A case that stays pending is updated in place. */
  lemma KeepPending(n: Node, i: nat, c: Case, d: Docket)
    requires Refines(n, d) && i < |n.polls| && c.verdict.None?
    ensures var id := n.polls[i].0;
            Refines(n.(polls := n.polls[i := (id, Summary(id, c))]), d[id := c])
  {
    hide Summary, Announced;
    var id := n.polls[i].0;
    var m := n.(polls := n.polls[i := (id, Summary(id, c))]);
    forall x | Pending(d[id := c], x) ensures x in Keys(m.polls) {
      assert Pending(d, x);
      var j :| 0 <= j < |n.polls| && n.polls[j].0 == x;
      assert m.polls[j].0 == x;
    }
    forall x ensures Announced(m.pub, x) == Answers(d[id := c], x) {
      assert Announced(n.pub, x) == Answers(d, x);
    }
  }

  lemma RemovedAre<V>(d: Dict<RequestId, V>, k: RequestId)
    requires Distinct(d)
    ensures forall j :: 0 <= j < |Remove(d, k)| ==>
              Remove(d, k)[j].0 != k && exists i :: 0 <= i < |d| && Remove(d, k)[j] == d[i]
  {
    PositionFinds(d, k);
    var at, r := Position(d, k), Remove(d, k);
    forall j | 0 <= j < |r| ensures r[j].0 != k && exists i :: 0 <= i < |d| && r[j] == d[i] {
      assert r[j] == d[if at < 0 || j < at then j else j + 1];
    }
  }

  /** A case that is decided is announced and its poll deleted. */
  lemma SettlePending(n: Node, id: RequestId, c: Case, d: Docket)
    requires Refines(n, d) && Pending(d, id) && c.verdict.Some?
    ensures Refines(n.(polls := Remove(n.polls, id), pub := n.pub + [Ann(id, c.verdict.value)]), d[id := c])
  {
    hide Summary, Announced, Remove, Keys, Distinct;
    var m := n.(polls := Remove(n.polls, id), pub := n.pub + [Ann(id, c.verdict.value)]);
    RemoveKeys(n.polls, id);
    RemovedAre(n.polls, id);
    forall x ensures Announced(m.pub, x) == Answers(d[id := c], x) {
      AnnouncedMore(n.pub, Ann(id, c.verdict.value), x);
      assert Announced(n.pub, x) == Answers(d, x);
    }
    forall x | Pending(d[id := c], x) ensures x in Keys(m.polls) {
      assert Pending(d, x);
    }
  }

  lemma UpdatePollRefines(n: Node, id: RequestId, yes: bool, at: Time, d: Docket)
    requires Refines(n, d)
    ensures Refines(UpdatePoll(n, id, yes, at), Ballot(d, id, yes, at))
  {
    PositionFinds(n.polls, id);
    var i := Position(n.polls, id);
    if 0 <= i {
      var c := d[id].(ballots := d[id].ballots + [yes]);
      CountIsBallot(id, d[id], yes);
      JudgeDecides(id, c, at);
      hide Summary, Count, Judge, Remove, Announced, Refines, Passes;
      if Decide(c, at).verdict.Some? {
        SettlePending(n, id, Decide(c, at), d);
      } else {
        KeepPending(n, i, c, d);
      }
    }
  }

  // ---------------------------------------------------------------- reviewing every poll

  /** Reviewing one pending case after the other: what checkAllPolls leaves after the first k. */
  lemma {:induction false} OpenKeepsUndecided(polls: Dict<RequestId, PollState>, now: Time)
    requires Distinct(polls)
    ensures Distinct(Open(polls, now))
    ensures forall x :: x in Open(polls, now) <==> x in polls && Judge(x.1, now).None?
  {
    hide Judge;
    if polls != [] {
      assert polls == [polls[0]] + polls[1..];
      OpenKeepsUndecided(polls[1..], now);
    }
  }

  lemma {:induction false} AnnouncedAfter(pub: seq<Msg>, more: seq<Msg>, id: RequestId)
    ensures Announced(pub + more, id) == Announced(pub, id) + Announced(more, id)
  {
    if more == [] {
      assert pub + more == pub;
    } else {
      var front, last := more[..|more| - 1], more[|more| - 1];
      assert pub + more == (pub + front) + [last];
      AnnouncedMore(pub + front, last, id);
      AnnouncedAfter(pub, front, id);
    }
  }

  ghost function Told(s: PollState, now: Time): seq<Verdict> {
    match Judge(s, now) case None => [] case Some(v) => [v]
  }

  lemma AnnouncementsSplit(polls: Dict<RequestId, PollState>, now: Time, id: RequestId)
    requires polls != []
    ensures Announced(Announcements(polls, now), id) ==
            (if polls[0].1.id == id then Told(polls[0].1, now) else []) +
            Announced(Announcements(polls[1..], now), id)
  {
    hide Judge;
    var s, rest := polls[0].1, Announcements(polls[1..], now);
    match Judge(s, now)
    case None => assert Announcements(polls, now) == rest;
    case Some(v) =>
      AnnouncedAfter([Ann(s.id, v)], rest, id);
      AnnouncedMore([], Ann(s.id, v), id);
      assert [] + [Ann(s.id, v)] == [Ann(s.id, v)];
  }

  /** A poll that is not stored is not announced. */
  lemma {:induction false} AnnouncementsSkip(polls: Dict<RequestId, PollState>, now: Time, id: RequestId)
    requires forall i :: 0 <= i < |polls| ==> polls[i].1.id != id
    ensures Announced(Announcements(polls, now), id) == []
  {
    if polls != [] {
      hide Judge, Announcements;
      AnnouncementsSplit(polls, now, id);
      AnnouncementsSkip(polls[1..], now, id);
    }
  }

  /** A stored poll is announced once if it is done. */
  lemma {:induction false} AnnouncementsAnswer(polls: Dict<RequestId, PollState>, now: Time, i: nat)
    requires Distinct(polls) && forall j :: 0 <= j < |polls| ==> polls[j].1.id == polls[j].0
    requires i < |polls|
    ensures Announced(Announcements(polls, now), polls[i].0) == Told(polls[i].1, now)
  {
    hide Judge, Announcements, Announced, Told;
    AnnouncementsSplit(polls, now, polls[i].0);
    if i == 0 {
      AnnouncementsSkip(polls[1..], now, polls[i].0);
    } else {
      AnnouncementsAnswer(polls[1..], now, i - 1);
    }
  }

  /** Looking at a stored poll decides its case. */
  lemma ReviewDecides(n: Node, i: nat, now: Time, d: Docket)
    requires Refines(n, d) && i < |n.polls|
    ensures var id := n.polls[i].0;
            && Review(d, now)[id].verdict == Judge(n.polls[i].1, now)
            && (Judge(n.polls[i].1, now).None? ==> Review(d, now)[id] == d[id])
  {
    hide Announced, Summary, Judge, Passes;
    JudgeDecides(n.polls[i].0, d[n.polls[i].0], now);
  }

  lemma ReviewKeepsPending(n: Node, now: Time, d: Docket)
    requires Refines(n, d)
    ensures var o, f := Open(n.polls, now), Review(d, now);
            && Distinct(o)
            && (forall i :: 0 <= i < |o| ==> Pending(f, o[i].0) && o[i].1 == Summary(o[i].0, f[o[i].0]))
            && (forall id :: Pending(f, id) ==> id in Keys(o))
  {
    hide Announced, Summary, Judge, Decide, Announcements;
    var o, f := Open(n.polls, now), Review(d, now);
    OpenKeepsUndecided(n.polls, now);
    forall i | 0 <= i < |o| ensures Pending(f, o[i].0) && o[i].1 == Summary(o[i].0, f[o[i].0]) {
      assert o[i] in n.polls;
      var j :| 0 <= j < |n.polls| && n.polls[j] == o[i];
      ReviewDecides(n, j, now, d);
    }
    forall id | Pending(f, id) ensures id in Keys(o) {
      DecidedStays(d, now);
      assert Pending(d, id);
      var j :| 0 <= j < |n.polls| && n.polls[j].0 == id;
      ReviewDecides(n, j, now, d);
      assert n.polls[j] in o;
      var i :| 0 <= i < |o| && o[i] == n.polls[j];
    }
  }

  lemma ReviewAnswers(n: Node, now: Time, d: Docket, id: RequestId)
    requires Refines(n, d)
    ensures Announced(n.pub + Announcements(n.polls, now), id) == Answers(Review(d, now), id)
  {
    forall i | 0 <= i < |n.polls| ensures n.polls[i].1.id == n.polls[i].0 {
      assert n.polls[i].1 == Summary(n.polls[i].0, d[n.polls[i].0]);
    }
    hide Announced, Summary, Judge, Decide, Announcements;
    assert Announced(n.pub, id) == Answers(d, id);
    AnnouncedAfter(n.pub, Announcements(n.polls, now), id);
    DecidedStays(d, now);
    if id in Keys(n.polls) {
      var j :| 0 <= j < |n.polls| && n.polls[j].0 == id;
      AnnouncementsAnswer(n.polls, now, j);
      ReviewDecides(n, j, now, d);
    } else {
      AnnouncementsSkip(n.polls, now, id);
    }
  }

  lemma CheckAllPollsRefines(n: Node, now: Time, d: Docket)
    requires Refines(n, d)
    ensures Refines(CheckAllPolls(n, now), Review(d, now))
  {
    ReviewKeepsPending(n, now, d);
    forall id ensures Announced(CheckAllPolls(n, now).pub, id) == Answers(Review(d, now), id) {
      ReviewAnswers(n, now, d, id);
    }
  }

  lemma DecidedStays(d: Docket, now: Time)
    ensures forall id :: id in d && d[id].verdict.Some? ==> Review(d, now)[id] == d[id]
  {
  }

  // ---------------------------------------------------------------- whole turns

  /** Handlers that neither touch the polls nor announce anything. */
  ghost predicate SamePolls(a: Node, b: Node) {
    a.polls == b.polls && |a.pub| <= |b.pub| && b.pub[..|a.pub|] == a.pub
    && forall i :: |a.pub| <= i < |b.pub| ==> !b.pub[i].Ann?
  }

  lemma SamePollsRefine(a: Node, b: Node, d: Docket)
    requires Refines(a, d) && SamePolls(a, b)
    ensures Refines(b, d)
  {
    var more := b.pub[|a.pub|..];
    assert b.pub == a.pub + more;
    assert forall i :: 0 <= i < |more| ==> more[i] == b.pub[|a.pub| + i];
    forall id ensures Announced(b.pub, id) == Answers(d, id) {
      AnnouncedAfter(a.pub, more, id);
      NothingAnnounced(more, id);
      assert Announced(a.pub, id) == Answers(d, id);
    }
  }

  lemma {:induction false} NothingAnnounced(pub: seq<Msg>, id: RequestId)
    requires forall i :: 0 <= i < |pub| ==> !pub[i].Ann?
    ensures Announced(pub, id) == []
  {
    if pub != [] { NothingAnnounced(pub[..|pub| - 1], id); }
  }

  lemma PrologueKeepsPolls(p: Params, n: Node, now: Time)
    ensures SamePolls(n, UpdatePeers(p, Beat(p, n, now), now)) && SamePolls(n, UpdatePeers(p, n, now))
  {
    hide StaleIds, Fresh;
  }

  lemma NetKeepsPolls(p: Params, n: Node, m: Msg, e: Env)
    ensures SamePolls(n, HandleNet(p, n, m, e))
  {
    hide Put, Remove, Keys, UpdateLink, WithExit;
  }

  lemma TimeoutKeepsPolls(p: Params, n: Node, e: Env)
    requires n.role.Leader? ==> n.ldrPort.Some?
    ensures SamePolls(n, OnTimeout(p, n, e))
  {
    hide UpdateLink, WithExit;
  }

  lemma CommandRefines(p: Params, n: Node, c: Option<Command>, d: Docket)
    requires Refines(n, d)
    requires c.Some? && c.value.AskVote? ==> c.value.request.id !in d
    ensures Refines(AfterCommand(p, n, c), DocketAfterCommand(p, n, c, d))
  {
    hide Refines, OpenPoll, UpdatePoll, File, Ballot;
    if c.Some? {
      if n.leader == Some(p.ownId) && c.value.AskVote? {
        SamePollsRefine(n, Acked(n), d);
        OpenPollRefines(p, Acked(n), c.value.request, c.value.at, d);
      } else if n.leader == Some(p.ownId) && c.value.CastVote? {
        UpdatePollRefines(n, c.value.id, c.value.yes, c.value.at, d);
        var u := UpdatePoll(n, c.value.id, c.value.yes, c.value.at);
        SamePollsRefine(u, Acked(u), Ballot(d, c.value.id, c.value.yes, c.value.at));
      } else {
        SamePollsRefine(n, AfterCommand(p, n, c), d);
      }
    }
  }

  /** Every turn of the loop refines the docket. */
  lemma TurnRefines(p: Params, n: Node, ev: Event, e: Env, d: Docket)
    requires n.role.Leader? ==> n.ldrPort.Some?
    requires Refines(n, d) && NewIds(p, n, ev, e, d)
    ensures Refines(Turn(p, n, ev, e), DocketAfter(p, n, ev, e, d))
  {
    hide Refines, SamePolls, UpdatePeers, HandleNet, OnTimeout, OpenPoll, UpdatePoll, File, Ballot;
    PrologueKeepsPolls(p, n, e.now);
    var m := UpdatePeers(p, Beat(p, n, e.now), e.now);
    SamePollsRefine(n, m, d);
    UpdatePeersSkipsElection(p, Beat(p, n, e.now), e.now);
    match ev
    case Timeout =>
      PrologueKeepsPolls(p, m, e.now);
      var m1 := UpdatePeers(p, m, e.now);
      UpdatePeersSkipsElection(p, m, e.now);
      SamePollsRefine(m, m1, d);
      CheckAllPollsRefines(m1, e.now, d);
      TimeoutKeepsPolls(p, CheckAllPolls(m1, e.now), e);
      SamePollsRefine(CheckAllPolls(m1, e.now), OnTimeout(p, CheckAllPolls(m1, e.now), e), Review(d, e.now));
    case Ready(c, net, a) =>
      CommandRefines(p, m, c, d);
      var m1, d1 := AfterCommand(p, m, c), DocketAfterCommand(p, m, c, d);
      var m2 := AfterNet(p, m1, net, e);
      if net.Some? {
        NetKeepsPolls(p, m1, net.value, e);
        SamePollsRefine(m1, m2, d1);
      }
      match a
      case None =>
      case Some(AskPoll(r, at)) => OpenPollRefines(p, m2, r, at, d1);
      case Some(AskBallot(id, yes, at)) => UpdatePollRefines(m2, id, yes, at, d1);
  }

  // ---------------------------------------------------------------- whole runs

  /** Request ids are never reused in the run. */
  ghost predicate IdsStayNew(p: Params, e0: Env, run: seq<Input>)
    requires Possible(p, e0, run)
    decreases |run|, 1
  {
    if run == [] then true
    else
      var front, x := run[..|run| - 1], run[|run| - 1];
      IdsStayNew(p, e0, front) && NewIds(p, Run(p, e0, front), x.ev, x.env, Cases(p, e0, front))
  }

  /** The docket of a run. */
  ghost function Cases(p: Params, e0: Env, run: seq<Input>): Docket
    requires Possible(p, e0, run)
    decreases |run|, 0
  {
    if run == [] then map[]
    else
      var front, x := run[..|run| - 1], run[|run| - 1];
      DocketAfter(p, Run(p, e0, front), x.ev, x.env, Cases(p, e0, front))
  }

  /** Over every run the open polls are the pending requests, every other request processed was
      announced exactly once with the verdict of its ballots, and nothing else was announced. */
  lemma {:induction false} PollsRefineDocket(p: Params, e0: Env, run: seq<Input>)
    requires Possible(p, e0, run) && IdsStayNew(p, e0, run)
    ensures Refines(Run(p, e0, run), Cases(p, e0, run))
    decreases |run|
  {
    hide Turn, DocketAfter, NewIds;
    if run == [] {
      forall id ensures Announced(Start(p, e0).pub, id) == [] { NothingAnnounced(Start(p, e0).pub, id); }
    } else {
      hide Refines;
      var front, x := run[..|run| - 1], run[|run| - 1];
      PollsRefineDocket(p, e0, front);
      TurnRefines(p, Run(p, e0, front), x.ev, x.env, Cases(p, e0, front));
    }
  }

  // ---------------------------------------------------------------- what a verdict means

  ghost predicate AllSound(d: Docket) {
    forall id :: id in d ==> Sound(d[id])
  }

  ghost predicate AllDated(p: Params, d: Docket) {
    forall id :: id in d ==> Dated(p, id, d[id])
  }

  lemma DecideKeepsDated(p: Params, id: RequestId, c: Case, now: Time)
    requires Dated(p, id, c)
    ensures Dated(p, id, Decide(c, now))
  {
    hide Passes;
  }

  lemma BallotIsDated(p: Params, id: RequestId, c: Case, yes: bool, at: Time)
    requires Dated(p, id, c) && c.verdict.None?
    ensures Dated(p, id, Decide(c.(ballots := c.ballots + [yes]), at))
  {
    hide Passes;
  }

  lemma DocketAfterIsDated(p: Params, n: Node, ev: Event, e: Env, d: Docket)
    requires AllDated(p, d)
    ensures AllDated(p, DocketAfter(p, n, ev, e, d))
  {
    hide Dated, UpdatePeers, HandleNet, HandleCommand, Decide;
    var m := UpdatePeers(p, Beat(p, n, e.now), e.now);
    match ev
    case Timeout => forall id | id in d ensures Dated(p, id, Decide(d[id], e.now)) { DecideKeepsDated(p, id, d[id], e.now); }
    case Ready(c, net, a) =>
      CommandIsDated(p, m, c, d);
      AskIsDated(p, AfterNet(p, AfterCommand(p, m, c), net, e), a, DocketAfterCommand(p, m, c, d));
  }

  lemma CommandIsDated(p: Params, n: Node, c: Option<Command>, d: Docket)
    requires AllDated(p, d)
    ensures AllDated(p, DocketAfterCommand(p, n, c, d))
  {
    if c.Some? && c.value.AskVote? { FiledIsDated(p, d, c.value.request, c.value.at, n.numPeers); }
    if c.Some? && c.value.CastVote? { VoteIsDated(p, d, c.value.id, c.value.yes, c.value.at); }
    hide AllDated, File, Ballot;
  }

  lemma AskIsDated(p: Params, n: Node, a: Option<Ask>, d: Docket)
    requires AllDated(p, d)
    ensures AllDated(p, DocketAfterAsk(p, n, a, d))
  {
    if a.Some? && a.value.AskPoll? { FiledIsDated(p, d, a.value.request, a.value.at, n.numPeers); }
    if a.Some? && a.value.AskBallot? { VoteIsDated(p, d, a.value.id, a.value.yes, a.value.at); }
    hide AllDated, File, Ballot;
  }

  lemma FiledIsDated(p: Params, d: Docket, r: Request, at: Time, members: int)
    requires AllDated(p, d)
    ensures AllDated(p, File(p, d, r, at, members))
  {
  }

  lemma VoteIsDated(p: Params, d: Docket, id: RequestId, yes: bool, at: Time)
    requires AllDated(p, d)
    ensures AllDated(p, Ballot(d, id, yes, at))
  {
    hide Dated, Decide;
    if id in d && d[id].verdict.None? { BallotIsDated(p, id, d[id], yes, at); }
  }

  lemma {:induction false} CasesAreDated(p: Params, e0: Env, run: seq<Input>)
    requires Possible(p, e0, run)
    ensures AllDated(p, Cases(p, e0, run))
    decreases |run|
  {
    if run != [] {
      hide AllDated, DocketAfter;
      var front, x := run[..|run| - 1], run[|run| - 1];
      CasesAreDated(p, e0, front);
      DocketAfterIsDated(p, Run(p, e0, front), x.ev, x.env, Cases(p, e0, front));
    }
  }

  lemma DecideIsSound(c: Case, now: Time)
    requires Sound(c) || (c.verdict.None? && |c.ballots| == c.members)
    ensures Sound(Decide(c, now))
  {
  }

  lemma BallotIsSound(d: Docket, id: RequestId, yes: bool, at: Time)
    requires AllSound(d)
    ensures AllSound(Ballot(d, id, yes, at))
  {
    hide Passes;
  }

  lemma ReviewIsSound(d: Docket, now: Time)
    requires AllSound(d)
    ensures AllSound(Review(d, now))
  {
    forall id | id in d ensures Sound(Decide(d[id], now)) { DecideIsSound(d[id], now); }
  }

  lemma FileIsSound(p: Params, d: Docket, r: Request, at: Time, members: int)
    requires AllSound(d)
    ensures AllSound(File(p, d, r, at, members))
  {
    hide Passes;
  }

  lemma DocketAfterIsSound(p: Params, n: Node, ev: Event, e: Env, d: Docket)
    requires AllSound(d)
    ensures AllSound(DocketAfter(p, n, ev, e, d))
  {
    hide AllSound, File, Ballot, Review, UpdatePeers, HandleNet, HandleCommand;
    var m := UpdatePeers(p, Beat(p, n, e.now), e.now);
    match ev
    case Timeout => ReviewIsSound(d, e.now);
    case Ready(c, net, a) =>
      if c.Some? && c.value.AskVote? { FileIsSound(p, d, c.value.request, c.value.at, m.numPeers); }
      if c.Some? && c.value.CastVote? { BallotIsSound(d, c.value.id, c.value.yes, c.value.at); }
      var d1 := DocketAfterCommand(p, m, c, d);
      if a.Some? && a.value.AskPoll? {
        FileIsSound(p, d1, a.value.request, a.value.at, AfterNet(p, AfterCommand(p, m, c), net, e).numPeers);
      }
      if a.Some? && a.value.AskBallot? { BallotIsSound(d1, a.value.id, a.value.yes, a.value.at); }
  }

  lemma {:induction false} CasesAreSound(p: Params, e0: Env, run: seq<Input>)
    requires Possible(p, e0, run)
    ensures AllSound(Cases(p, e0, run))
    decreases |run|
  {
    if run != [] {
      hide AllSound, DocketAfter;
      var front, x := run[..|run| - 1], run[|run| - 1];
      CasesAreSound(p, e0, front);
      DocketAfterIsSound(p, Run(p, e0, front), x.ev, x.env, Cases(p, e0, front));
    }
  }

  /** In the request's own terms: it is refused exactly if it took longer than it allows; a yes or no comes no later,
      and a timeout otherwise later, than the time it allows after it was processed, less twice the time it took. */
  ghost predicate AnsweredInTime(p: Params, id: RequestId, c: Case) {
    var r := c.request;
    var spent, left := c.arrived - r.started,
                       if r.timeout != 0 then r.timeout - (c.arrived - r.started)
                       else p.consensusTimeout * 1_000_000 - (c.arrived - r.started);
    && r.id == id
    && (left < 0 ==> c.verdict == Some(TimedOut) && c.decidedAt == c.arrived && c.ballots == [])
    && (c.verdict.Some? && c.verdict != Some(TimedOut) ==> 0 <= left && c.decidedAt <= c.arrived + left - spent)
    && (c.verdict == Some(TimedOut) && 0 <= left ==> c.arrived + left - spent < c.decidedAt)
  }

  lemma DatedIsInTime(p: Params, id: RequestId, c: Case)
    requires Sound(c) && Dated(p, id, c)
    ensures AnsweredInTime(p, id, c)
  {
  }

  /** Over every run a request processed is either an open poll and unanswered, or answered exactly
      once. A yes or no was given on the ballot that made the count the number of members known when the
      poll was opened, not after the deadline, and says whether the ballots carry the motion. Ballots do not
      say who cast them: a member that votes twice counts twice. */
  lemma PollOutcomes(p: Params, e0: Env, run: seq<Input>, id: RequestId)
    requires Possible(p, e0, run) && IdsStayNew(p, e0, run)
    ensures var n, d, said := Run(p, e0, run), Cases(p, e0, run), Announced(Run(p, e0, run).pub, id);
            && (id !in d ==> said == [] && id !in Keys(n.polls))
            && (id in d ==> |said| <= 1 && (said == [] <==> id in Keys(n.polls)))
            && (id in d && said == [] && 1 <= d[id].members ==> |d[id].ballots| < d[id].members)
            && (id in d && said == [TimedOut] ==> d[id].deadline < d[id].decidedAt)
            && (id in d && said != [] && said[0] != TimedOut ==>
                  && |d[id].ballots| == d[id].members
                  && d[id].decidedAt <= d[id].deadline
                  && (said[0] == Yes <==> Passes(d[id].request.kind, d[id].ballots)))
            && (id in d ==> AnsweredInTime(p, id, d[id]))
  {
    PollsRefineDocket(p, e0, run);
    CasesAreSound(p, e0, run);
    CasesAreDated(p, e0, run);
    if id in Cases(p, e0, run) { DatedIsInTime(p, id, Cases(p, e0, run)[id]); }
    hide AnsweredInTime;
    hide Passes, Run, Cases;
    var n, d := Run(p, e0, run), Cases(p, e0, run);
    assert Announced(n.pub, id) == Answers(d, id);
    if id in Keys(n.polls) {
      var i :| 0 <= i < |n.polls| && n.polls[i].0 == id;
      assert Pending(d, id);
    }
  }

  /** A request that is accepted can be dead on arrival: the time it took is taken off a deadline that already counts
      from its start. Whatever ballots come in, it is answered with a timeout, exactly if it took more than half of
      the time it allows. */
  lemma AcceptedRequestsCanBeDead(p: Params, r: Request, at: Time)
    ensures PollDeadline(p, r, at).Some? <==> at - r.started <= Allowed(p, r)
    ensures PollDeadline(p, r, at).Some? ==>
              ((forall s: PollState, now: Time :: s.deadline == PollDeadline(p, r, at).value && at <= now ==>
                  Judge(s, now) == Some(TimedOut))
               <==> Allowed(p, r) < 2 * (at - r.started))
  {
    if PollDeadline(p, r, at).Some? && 2 * (at - r.started) <= Allowed(p, r) {
      assert Judge(NewPoll(r, PollDeadline(p, r, at).value, 0), at) != Some(TimedOut);
    }
  }

  /** The verdict does not depend on the order in which the ballots came in. */
  lemma VerdictIgnoresOrder(kind: Kind, a: seq<bool>, b: seq<bool>)
    requires multiset(a) == multiset(b)
    ensures Passes(kind, a) <==> Passes(kind, b)
  {
    assert |a| == |multiset(a)| == |b|;
    assert false in a <==> false in multiset(a);
    assert false in b <==> false in multiset(b);
  }
}
