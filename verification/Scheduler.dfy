/**
  The priority scheduler of a component thread (ComponentThread.priorityScheduler in src/riaps/run/comp.py):
  a heap of (priority, arrival number, socket) entries, refilled from the poller after every handler.
  The poller's answers come in as a sequence; the scheduler waits when it is used up.
 */
module Scheduler {
  import PortIndex

  type Socket = nat

  /** A socket with something to read, and the priority the thread has for it at that time. */
  datatype Job = Job(pri: int, socket: Socket)

  datatype Entry = Entry(pri: int, cnt: nat, socket: Socket)

  /** An answer of the poller: the command on the control socket, if any, and the ready sockets in order. */
  datatype Poll = Poll(kill: bool, jobs: seq<Job>)

  /** An entry was queued, a handler was run for an entry, the poller was asked and answered. */
  datatype Event = Pushed(e: Entry) | Ran(e: Entry) | Answered

  /** The heap's order. */
  predicate Before(a: Entry, b: Entry) {
    a.pri < b.pri || (a.pri == b.pri && a.cnt < b.cnt)
  }

  // ---------------------------------------------------------------- what a log of the scheduler says

  ghost function Arrivals(log: seq<Event>): seq<Entry> {
    if log == [] then []
    else Arrivals(log[..|log| - 1]) + if log[|log| - 1].Pushed? then [log[|log| - 1].e] else []
  }

  ghost function Executed(log: seq<Event>): seq<Entry> {
    if log == [] then []
    else Executed(log[..|log| - 1]) + if log[|log| - 1].Ran? then [log[|log| - 1].e] else []
  }

  ghost function Pending(log: seq<Event>): set<Entry> {
    if log == [] then {}
    else
      var front, x := log[..|log| - 1], log[|log| - 1];
      if x.Pushed? then Pending(front) + {x.e} else if x.Ran? then Pending(front) - {x.e} else Pending(front)
  }

  ghost function Answers(log: seq<Event>): nat {
    if log == [] then 0
    else Answers(log[..|log| - 1]) + if log[|log| - 1].Answered? then 1 else 0
  }

  /** Entries are numbered as they arrive, and what runs is first among the queued entries. */
  ghost predicate Legal(log: seq<Event>) {
    log != [] ==>
      var front, x := log[..|log| - 1], log[|log| - 1];
      && Legal(front)
      && (x.Pushed? ==> x.e.cnt == |Arrivals(front)|)
      && (x.Ran? ==> x.e in Pending(front) && forall y :: y in Pending(front) && y != x.e ==> Before(x.e, y))
  }

  lemma More(log: seq<Event>, x: Event)
    ensures (log + [x])[..|log + [x]| - 1] == log
    ensures Arrivals(log + [x]) == Arrivals(log) + if x.Pushed? then [x.e] else []
    ensures Executed(log + [x]) == Executed(log) + if x.Ran? then [x.e] else []
    ensures Answers(log + [x]) == Answers(log) + if x.Answered? then 1 else 0
    ensures Pending(log + [x]) ==
            if x.Pushed? then Pending(log) + {x.e} else if x.Ran? then Pending(log) - {x.e} else Pending(log)
  {
  }

  /** Arrival numbers are positions. */
  lemma {:induction false} ArrivalsAreNumbered(log: seq<Event>)
    requires Legal(log)
    ensures forall i :: 0 <= i < |Arrivals(log)| ==> Arrivals(log)[i].cnt == i
  {
    if log != [] { ArrivalsAreNumbered(log[..|log| - 1]); }
  }

  lemma {:induction false} PushedArrived(log: seq<Event>, e: Entry)
    ensures Pushed(e) in log <==> e in Arrivals(log)
  {
    if log != [] {
      PushedArrived(log[..|log| - 1], e);
      assert log == log[..|log| - 1] + [log[|log| - 1]];
    }
  }

  /** What is queued is what arrived and was not run. */
  lemma {:induction false} PendingIsUnrun(log: seq<Event>, e: Entry)
    requires Legal(log)
    ensures e in Pending(log) <==> Pushed(e) in log && Ran(e) !in log
    ensures Ran(e) in log ==> Pushed(e) in log
  {
    if log != [] {
      var front, x := log[..|log| - 1], log[|log| - 1];
      assert log == front + [x];
      PendingIsUnrun(front, e);
      if x == Pushed(e) && Pushed(e) in front {
        PushedArrived(front, e);
        ArrivalsAreNumbered(front);
        assert false;
      }
    }
  }

  /** A new arrival is not queued yet. */
  lemma ArrivesOnce(log: seq<Event>, e: Entry)
    requires Legal(log) && e.cnt == |Arrivals(log)|
    ensures e !in Pending(log)
  {
    PendingIsUnrun(log, e);
    PushedArrived(log, e);
    ArrivalsAreNumbered(log);
  }

  lemma RunsLegally(log: seq<Event>, e: Entry)
    requires Legal(log) && e in Pending(log) && forall y :: y in Pending(log) && y != e ==> Before(e, y)
    ensures Legal(log + [Ran(e)])
  {
    More(log, Ran(e));
  }

  /** Every entry that arrived was run once or is still queued. */
  lemma {:induction false} NothingIsLost(log: seq<Event>)
    requires Legal(log)
    ensures multiset(Arrivals(log)) == multiset(Executed(log)) + multiset(Pending(log))
  {
    if log != [] {
      var front, x := log[..|log| - 1], log[|log| - 1];
      NothingIsLost(front);
      if x.Pushed? { ArrivesOnce(front, x.e); }
      assert log == front + [x];
      More(front, x);
      hide Legal, Arrivals, Executed, Pending;
      if !x.Answered? { OneQueued(Pending(front), x.e); }
    }
  }

  lemma OneQueued(queued: set<Entry>, e: Entry)
    ensures e !in queued ==> multiset(queued + {e}) == multiset(queued) + multiset{e}
    ensures e in queued ==> multiset(queued) == multiset(queued - {e}) + multiset{e}
  {
  }

  lemma {:induction false} PrefixIsLegal(log: seq<Event>, n: nat)
    requires Legal(log) && n <= |log|
    ensures Legal(log[..n])
    decreases |log| - n
  {
    if n == |log| {
      assert log[..n] == log;
    } else {
      PrefixIsLegal(log, n + 1);
      assert log[..n + 1][..n] == log[..n];
    }
  }

  /** Nothing overtakes: an entry that was queued before another one ran, and comes first by priority or, with
      equal priorities, by arrival, ran before it. */
  lemma NothingOvertakes(log: seq<Event>, i: nat, m: nat)
    requires Legal(log) && i < m < |log| && log[i].Pushed? && log[m].Ran?
    requires Before(log[i].e, log[m].e)
    ensures Ran(log[i].e) in log[..m]
  {
    PrefixIsLegal(log, m + 1);
    assert log[..m + 1][..m] == log[..m];
    PendingIsUnrun(log[..m], log[i].e);
    assert log[..m][i] == log[i];
  }

  /** Of two queued port entries the one whose port was declared first runs first. */
  lemma EarlierDeclaredRunsFirst(log: seq<Event>, i: nat, m: nat, ports: seq<PortIndex.Port>, p: nat, q: nat)
    requires Legal(log) && i < m < |log| && log[i].Pushed? && log[m].Ran?
    requires p < q < |ports| && PortIndex.IsInput(ports[p].class_) && PortIndex.IsInput(ports[q].class_)
    requires log[i].e.pri == PortIndex.Entry(ports, p).index && log[m].e.pri == PortIndex.Entry(ports, q).index
    ensures Ran(log[i].e) in log[..m]
  {
    PortIndex.IndicesFollowDeclaration(ports, p, q);
    NothingOvertakes(log, i, m);
  }

  /** Messages of one socket with one priority are handled in the order they were queued. */
  lemma FirstInFirstOut(log: seq<Event>, i: nat, j: nat, m: nat)
    requires Legal(log) && i < j < m < |log| && log[i].Pushed? && log[j].Pushed?
    requires log[m] == Ran(log[j].e) && log[i].e.pri == log[j].e.pri
    ensures Ran(log[i].e) in log[..m]
  {
    PrefixIsLegal(log, j + 1);
    assert log[..j + 1][..j] == log[..j];
    PrefixIsLegal(log, i + 1);
    assert log[..i + 1][..i] == log[..i];
    ArrivalsGrow(log, i + 1, j);
    assert log[..i + 1][i] == log[i];
    NothingOvertakes(log, i, m);
  }

  lemma {:induction false} ArrivalsGrow(log: seq<Event>, i: nat, j: nat)
    requires i <= j <= |log|
    ensures |Arrivals(log[..i])| <= |Arrivals(log[..j])|
    decreases j
  {
    if i < j {
      ArrivalsGrow(log, i, j - 1);
      assert log[..j][..j - 1] == log[..j - 1];
    }
  }

  // ---------------------------------------------------------------- how long an entry waits

  ghost function Runs(log: seq<Event>): nat {
    |Executed(log)|
  }

  /** The number of entries that come before e. */
  ghost function Rank(queued: set<Entry>, e: Entry): nat {
    |set x | x in queued && Before(x, e)|
  }

  /** The entries that arrive between i and m and come before e. */
  ghost function Overtakers(log: seq<Event>, i: nat, m: nat, e: Entry): nat
    requires i <= m <= |log|
    decreases m
  {
    if i == m then 0
    else Overtakers(log, i, m - 1, e) + if log[m - 1].Pushed? && Before(log[m - 1].e, e) then 1 else 0
  }

  /** Since `from`, handlers and answers of the poller take turns: entries are queued and a handler runs while
      both have happened equally often, and the poller is asked after every handler. */
  ghost predicate PacedAt(log: seq<Event>, from: nat, n: nat)
    requires from <= n < |log|
  {
    var answers := Answers(log[..n]) - Answers(log[..from]);
    Runs(log[..n]) - Runs(log[..from]) == if log[n].Answered? then answers + 1 else answers
  }

  ghost predicate Paced(log: seq<Event>, from: nat) {
    from <= |log| && forall n :: from <= n < |log| ==> PacedAt(log, from, n)
  }

  lemma PacedMore(log: seq<Event>, from: nat, x: Event)
    requires Paced(log, from)
    requires Runs(log) - Runs(log[..from]) == Answers(log) - Answers(log[..from]) + if x.Answered? then 1 else 0
    ensures Paced(log + [x], from) && (log + [x])[..from] == log[..from]
  {
    hide Executed, Answers;
    var more := log + [x];
    assert more[..from] == log[..from] && more[..|log|] == log;
    forall n | from <= n < |more| ensures PacedAt(more, from, n) {
      assert more[..n] == log[..n];
      if n < |log| { assert PacedAt(log, from, n); }
    }
  }

  lemma Prefix(log: seq<Event>, m: nat)
    requires m < |log| && Legal(log)
    ensures log[..m + 1] == log[..m] + [log[m]] && Legal(log[..m]) && Legal(log[..m + 1])
  {
    PrefixIsLegal(log, m);
    PrefixIsLegal(log, m + 1);
  }

  lemma QueuedMeanwhile(log: seq<Event>, i: nat, m: nat, e: Entry)
    requires Legal(log) && i <= m <= |log| && e in Pending(log[..i])
    ensures e in Pending(log[..m]) <==> Ran(e) !in log[..m]
    ensures forall j :: i <= j < |log| ==> log[j] != Pushed(e)
  {
    PrefixIsLegal(log, i);
    PrefixIsLegal(log, m);
    PendingIsUnrun(log[..i], e);
    PendingIsUnrun(log[..m], e);
    forall x | x in log[..i] ensures x in log[..m] {
      var k :| 0 <= k < i && log[..i][k] == x;
      assert log[..m][k] == x;
    }
    forall j | i <= j < |log| ensures log[j] != Pushed(e) {
      Prefix(log, j);
      PushedArrived(log[..j], e);
      ArrivalsAreNumbered(log[..j]);
      var k :| 0 <= k < i && log[..i][k] == Pushed(e);
      assert log[..j][k] == Pushed(e);
    }
  }

  lemma RankChanges(queued: set<Entry>, x: Entry, e: Entry)
    ensures x !in queued ==> Rank(queued + {x}, e) == Rank(queued, e) + if Before(x, e) then 1 else 0
    ensures x in queued ==> Rank(queued - {x}, e) == Rank(queued, e) - if Before(x, e) then 1 else 0
  {
    var ahead := set y | y in queued && Before(y, e);
    assert (set y | y in queued + {x} && Before(y, e)) == if Before(x, e) then ahead + {x} else ahead;
    assert (set y | y in queued - {x} && Before(y, e)) == ahead - {x};
  }

  /** While an entry is queued, every handler that runs brings it one place forward, and every entry that comes
      before it puts it one place back. */
  lemma {:induction false} RankFalls(log: seq<Event>, i: nat, m: nat, e: Entry)
    requires Legal(log) && i <= m <= |log| && e in Pending(log[..i]) && e in Pending(log[..m])
    ensures Rank(Pending(log[..m]), e) + Runs(log[..m]) == Rank(Pending(log[..i]), e) + Runs(log[..i]) + Overtakers(log, i, m, e)
    decreases m
  {
    if i < m {
      var before, x := log[..m - 1], log[m - 1];
      Prefix(log, m - 1);
      QueuedMeanwhile(log, i, m, e);
      QueuedMeanwhile(log, i, m - 1, e);
      RankFalls(log, i, m - 1, e);
      More(before, x);
      LegalStep(before, x);
      hide Legal, Pending, Executed, Answers, Rank;
      if !x.Answered? { RankChanges(Pending(before), x.e, e); }
    }
  }

  lemma LegalStep(log: seq<Event>, x: Event)
    requires Legal(log + [x])
    ensures x.Pushed? ==> x.e !in Pending(log)
    ensures x.Ran? ==> x.e in Pending(log) && forall y :: y in Pending(log) && y != x.e ==> Before(x.e, y)
  {
    More(log, x);
    if x.Pushed? { ArrivesOnce(log, x.e); }
  }

  /** An entry runs after exactly as many handlers as there were entries before it, plus those that overtook it. */
  lemma RunsInItsTurn(log: seq<Event>, i: nat, m: nat, e: Entry)
    requires Legal(log) && i <= m < |log| && e in Pending(log[..i]) && log[m] == Ran(e)
    ensures Runs(log[..m]) == Runs(log[..i]) + Rank(Pending(log[..i]), e) + Overtakers(log, i, m, e)
  {
    Prefix(log, m);
    LegalStep(log[..m], log[m]);
    RankFalls(log, i, m, e);
    assert (set x | x in Pending(log[..m]) && Before(x, e)) == {};
  }

  lemma QueuedByPush(log: seq<Event>, i: nat)
    requires Legal(log) && i < |log| && log[i].Pushed?
    ensures log[i].e in Pending(log[..i + 1]) && Runs(log[..i + 1]) == Runs(log[..i]) && Answers(log[..i + 1]) == Answers(log[..i])
  {
    Prefix(log, i);
    More(log[..i], log[i]);
  }

  /** One handler per answer: from its arrival an entry waits for exactly one answer of the poller for every entry
      that comes before it, then or later. */
  lemma WaitsForAnswers(log: seq<Event>, from: nat, i: nat, m: nat)
    requires Legal(log) && Paced(log, from) && from <= i < m < |log| && log[i].Pushed? && log[m] == Ran(log[i].e)
    ensures Answers(log[..m]) - Answers(log[..i]) == Rank(Pending(log[..i + 1]), log[i].e) + Overtakers(log, i + 1, m, log[i].e)
  {
    QueuedByPush(log, i);
    RunsInItsTurn(log, i + 1, m, log[i].e);
    assert PacedAt(log, from, i) && PacedAt(log, from, m);
  }

  lemma {:induction false} NothingOvertook(log: seq<Event>, i: nat, m: nat, n: nat, e: Entry)
    requires i <= m <= n <= |log|
    ensures Overtakers(log, i, m, e) <= Overtakers(log, i, n, e)
    decreases n
  {
    if m < n { NothingOvertook(log, i, m, n - 1, e); }
  }

  lemma {:induction false} RunsGrow(log: seq<Event>, i: nat, j: nat)
    requires i <= j <= |log|
    ensures Runs(log[..i]) <= Runs(log[..j])
    decreases j
  {
    if i < j {
      RunsGrow(log, i, j - 1);
      assert log[..j][..j - 1] == log[..j - 1];
    }
  }

  /** An entry that is not overtaken has run exactly if more handlers ran since than there were entries before it.
      Handlers run only after answers, so without a message it stays queued, however long the thread waits. */
  lemma RunsOnlyAfterAnswers(log: seq<Event>, i: nat)
    requires Legal(log) && i < |log| && log[i].Pushed? && Overtakers(log, i + 1, |log|, log[i].e) == 0
    ensures Ran(log[i].e) in log <==> Rank(Pending(log[..i + 1]), log[i].e) < Runs(log) - Runs(log[..i])
  {
    var e := log[i].e;
    QueuedByPush(log, i);
    assert log[..|log|] == log;
    if Ran(e) in log {
      var m :| 0 <= m < |log| && log[m] == Ran(e);
      RanLater(log, i, m);
      RunsInItsTurn(log, i + 1, m, e);
      NothingOvertook(log, i + 1, m, |log|, e);
      Prefix(log, m);
      More(log[..m], log[m]);
      RunsGrow(log, m + 1, |log|);
    } else {
      QueuedMeanwhile(log, i + 1, |log|, e);
      RankFalls(log, i + 1, |log|, e);
    }
  }

  lemma RanLater(log: seq<Event>, i: nat, m: nat)
    requires Legal(log) && i < |log| && m < |log| && log[i].Pushed? && log[m] == Ran(log[i].e)
    ensures i < m
  {
    if m < i {
      Prefix(log, i);
      PendingIsUnrun(log[..i], log[i].e);
      assert log[..i][m] == Ran(log[i].e);
      ArrivesOnceEver(log[..i], log[i].e);
    }
  }

  lemma ArrivesOnceEver(log: seq<Event>, e: Entry)
    requires Legal(log) && Pushed(e) in log
    ensures e.cnt != |Arrivals(log)|
  {
    PushedArrived(log, e);
    ArrivalsAreNumbered(log);
  }

  // ---------------------------------------------------------------- the scheduler

  ghost function Jobs(es: seq<Entry>): seq<Job> {
    seq(|es|, i requires 0 <= i < |es| => Job(es[i].pri, es[i].socket))
  }

  /** The jobs of the poller's answers; what comes with a kill command is not looked at. */
  ghost function Taken(polls: seq<Poll>): seq<Job> {
    if polls == [] then []
    else Taken(polls[..|polls| - 1]) + if polls[|polls| - 1].kill then [] else polls[|polls| - 1].jobs
  }

  class ComponentThread {
    var pq: set<Entry>
    var tc: nat
    var toStop: bool
    var log: seq<Event>

    ghost predicate Valid()
      reads this
    {
      Legal(log) && pq == Pending(log) && tc == |Arrivals(log)|
    }

    constructor ()
      ensures Valid() && log == [] && !toStop
    {
      pq, tc, toStop, log := {}, 0, false, [];
    }

    method HeapPush(job: Job)
      requires Valid()
      modifies this`pq, this`tc, this`log
      ensures Valid() && log == old(log) + [Pushed(Entry(job.pri, old(tc), job.socket))] && pq != {}
      ensures Arrivals(log) == Arrivals(old(log)) + [Entry(job.pri, old(tc), job.socket)]
      ensures Executed(log) == Executed(old(log)) && Answers(log) == Answers(old(log))
    {
      var entry := Entry(job.pri, tc, job.socket);
      More(log, Pushed(entry));
      tc := tc + 1;
      pq := pq + {entry};
      assert entry in pq;
      log := log + [Pushed(entry)];
    }

    /** heappop, and the handler of the entry's socket. */
    method RunFirst()
      requires Valid() && pq != {}
      modifies this`pq, this`log
      ensures Valid() && |log| == |old(log)| + 1 && log[..|old(log)|] == old(log) && log[|old(log)|].Ran?
      ensures Arrivals(log) == Arrivals(old(log)) && Answers(log) == Answers(old(log))
      ensures Executed(log) == Executed(old(log)) + [log[|old(log)|].e]
    {
      hide Arrivals, Pending, Legal, Executed, Answers;
      var first :| first in pq;
      var rest := pq - {first};
      while rest != {}
        invariant Valid() && log == old(log) && pq == old(pq)
        invariant rest <= pq && first in pq && first !in rest
        invariant forall x :: x in pq - rest && x != first ==> Before(first, x)
        decreases rest
      {
        var x :| x in rest;
        rest := rest - {x};
        Numbered(log, first, x);
        ghost var was := first;
        if Before(x, first) { first := x; }
        assert forall y :: y in pq - rest ==> y == x || y == was || Before(was, y);
      }
      More(log, Ran(first));
      RunsLegally(log, first);
      pq := pq - {first};
      log := log + [Ran(first)];
    }

    /** The poller is asked. */
    method Ask()
      requires Valid()
      modifies this`log
      ensures Valid() && log == old(log) + [Answered]
      ensures Arrivals(log) == Arrivals(old(log)) && Executed(log) == Executed(old(log)) && Answers(log) == Answers(old(log)) + 1
    {
      More(log, Answered);
      log := log + [Answered];
    }

    method PushAll(jobs: seq<Job>, ghost from: nat)
      requires Valid() && Paced(log, from) && Runs(log) - Runs(log[..from]) == Answers(log) - Answers(log[..from])
      modifies this`pq, this`tc, this`log
      ensures Valid() && |old(log)| <= |log| && log[..|old(log)|] == old(log) && Paced(log, from)
      ensures Jobs(Arrivals(log)) == Jobs(Arrivals(old(log))) + jobs
      ensures Executed(log) == Executed(old(log)) && Answers(log) == Answers(old(log))
      ensures pq == {} <==> old(pq) == {} && jobs == []
    {
      hide Arrivals, Pending, Legal, Executed, Answers;
      for i := 0 to |jobs|
        invariant Valid() && |old(log)| <= |log| && log[..|old(log)|] == old(log) && Paced(log, from)
        invariant log[..from] == old(log)[..from]
        invariant Executed(log) == Executed(old(log)) && Answers(log) == Answers(old(log))
        invariant Jobs(Arrivals(log)) == Jobs(Arrivals(old(log))) + jobs[..i]
        invariant pq == {} <==> old(pq) == {} && i == 0
      {
        ghost var before := Arrivals(log);
        PacedMore(log, from, Pushed(Entry(jobs[i].pri, tc, jobs[i].socket)));
        HeapPush(jobs[i]);
        assert Jobs(Arrivals(log)) == Jobs(before) + [jobs[i]];
        assert jobs[..i + 1] == jobs[..i] + [jobs[i]];
      }
      assert jobs[..|jobs|] == jobs;
    }

    /** Runs until nothing is queued, a kill command comes in, or the poller has no further answer. Whatever the
        poller answers: the log stays legal, exactly the entries the poller reported are queued, handlers and
        answers take turns with a handler first, and the call returns only on an empty queue, a kill command or
        for want of an answer. */
    method PriorityScheduler(sockets: seq<Job>, polls: seq<Poll>) returns (used: nat)
      requires Valid() && !toStop
      modifies this
      ensures Valid() && |old(log)| <= |log| && log[..|old(log)|] == old(log)
      ensures used <= |polls| && Jobs(Arrivals(log)) == Jobs(Arrivals(old(log))) + sockets + Taken(polls[..used])
      ensures toStop <==> exists i :: 0 <= i < used && polls[i].kill
      ensures toStop || pq == {} || used == |polls|
      ensures Paced(log, |old(log)|) && Answers(log) == Answers(old(log)) + used
      ensures Runs(log) == Runs(old(log)) + if toStop then used else if old(pq) == {} && sockets == [] then 0 else used + 1
    {
      hide Arrivals, Pending, Legal, Taken, Executed, Answers, Paced;
      used := 0;
      NothingTaken(polls);
      ghost var from := |log|;
      PacedFromHere(log);
      PushAll(sockets, from);
      if pq == {} { return; }
      while true
        invariant Valid() && from <= |log| && log[..from] == old(log) && pq != {}
        invariant used <= |polls| && !toStop && forall i :: 0 <= i < used ==> !polls[i].kill
        invariant Jobs(Arrivals(log)) == Jobs(Arrivals(old(log))) + sockets + Taken(polls[..used])
        invariant Paced(log, from) && Runs(log) == Runs(old(log)) + used && Answers(log) == Answers(old(log)) + used
        decreases |polls| - used
      {
        ghost var before := log;
        RunFirst();
        assert log == before + [log[|before|]];
        PacedMore(before, from, log[|before|]);
        if pq == {} { return; }
        if used == |polls| { return; }
        var poll := polls[used];
        TakenMore(polls, used);
        used := used + 1;
        PacedMore(log, from, Answered);
        Ask();
        if poll.kill {
          toStop := true;
          return;
        }
        PushAll(poll.jobs, from);
      }
    }
  }

  lemma PacedFromHere(log: seq<Event>)
    ensures Paced(log, |log|) && log[..|log|] == log
  {
  }

  lemma NothingTaken(polls: seq<Poll>)
    ensures Taken(polls[..0]) == []
  {
  }

  lemma TakenMore(polls: seq<Poll>, n: nat)
    requires n < |polls|
    ensures Taken(polls[..n + 1]) == Taken(polls[..n]) + if polls[n].kill then [] else polls[n].jobs
  {
    assert polls[..n + 1][..n] == polls[..n];
  }

  /** Two queued entries have different arrival numbers. */
  lemma Numbered(log: seq<Event>, a: Entry, b: Entry)
    requires Legal(log) && a in Pending(log) && b in Pending(log) && a != b
    ensures Before(a, b) || Before(b, a)
  {
    PendingIsUnrun(log, a);
    PendingIsUnrun(log, b);
    PushedArrived(log, a);
    PushedArrived(log, b);
    ArrivalsAreNumbered(log);
  }
}
