/**
  Finite-state machine components (src/riaps/run/fsm.py): transitions are declared one by one with a decorator,
  collected into nested tables, and looked up there for every event. The tables do what a scan of the
  declarations in their order would do.
 */
module Fsm {
  import opened Wrappers

  type Event = nat
  type State = nat

  /** @on(event, state, guard, then): D is the data of the component; guards and actions also see the state. */
  datatype Decl<!D> = Decl(
    event: Event, state: State, guard: (D, State) -> bool, then_: Option<State>, func: (D, State) -> D, name: string)

  /** What a component shows to the outside. */
  datatype Effect =
    | Exit(state: State)
    | Action(name: string)
    | Entry(state: State)
    | Nondeterminism(event: Event, state: State)
    | Unhandled(event: Event, state: State)
    | NoTransition(event: Event)

  /** The functions declared with @exit and @entry. */
  datatype Hooks<!D> = Hooks(exits: map<State, (D, State) -> D>, entries: map<State, (D, State) -> D>)

  datatype Config<!D> = Config(data: D, state: State, log: seq<Effect>)

  // ---------------------------------------------------------------- a scan of the declarations

  /** The declared transitions for an event in a state, in order. */
  ghost function For<D>(decls: seq<Decl<D>>, e: Event, s: State): seq<Decl<D>> {
    if decls == [] then []
    else
      var d := decls[|decls| - 1];
      For(decls[..|decls| - 1], e, s) + if d.event == e && d.state == s then [d] else []
  }

  /** Leave the state, act, enter the next state: the hooks and the action run while the old state is current. */
  ghost function Fire<D>(h: Hooks<D>, c: Config<D>, t: Decl<D>): Config<D> {
    var s := c.state;
    var d1 := if s in h.exits then h.exits[s](c.data, s) else c.data;
    var d2 := t.func(d1, s);
    var next := if t.then_.Some? then t.then_.value else s;
    var d3 := if next in h.entries then h.entries[next](d2, s) else d2;
    Config(d3, next,
           c.log + (if s in h.exits then [Exit(s)] else []) + [Action(t.name)] + (if next in h.entries then [Entry(next)] else []))
  }

  /** Transitions that turn out to be enabled after one fired. */
  ghost function Report<D>(ts: seq<Decl<D>>, c: Config<D>, e: Event, prev: State): Config<D> {
    if ts == [] then c
    else
      var last := ts[|ts| - 1];
      var front := Report(ts[..|ts| - 1], c, e, prev);
      if last.guard(c.data, c.state) then front.(log := front.log + [Nondeterminism(e, prev)]) else front
  }

  /** The first enabled transition fires, later enabled ones are reported. */
  ghost function Scan<D>(h: Hooks<D>, ts: seq<Decl<D>>, c: Config<D>, e: Event): Config<D> {
    if ts == [] then c
    else if ts[0].guard(c.data, c.state) then Report(ts[1..], Fire(h, c, ts[0]), e, c.state)
    else Scan(h, ts[1..], c, e)
  }

  ghost predicate Mentioned<D>(decls: seq<Decl<D>>, e: Event) {
    exists s: State :: For(decls, e, s) != []
  }

  /** What an event does, straight from the list of declarations. */
  ghost function Handle<D>(decls: seq<Decl<D>>, h: Hooks<D>, c: Config<D>, e: Event): Config<D> {
    var ts := For(decls, e, c.state);
    if !Mentioned(decls, e) then c.(log := c.log + [NoTransition(e)])
    else if ts == [] then c.(log := c.log + [Unhandled(e, c.state)])
    else Scan(h, ts, c, e)
  }

  ghost function HandleAll<D>(decls: seq<Decl<D>>, h: Hooks<D>, c: Config<D>, es: seq<Event>): Config<D>
    decreases |es|
  {
    if es == [] then c else Handle(decls, h, HandleAll(decls, h, c, es[..|es| - 1]), es[|es| - 1])
  }

  /** The transition at position i is the first one that is enabled. */
  ghost predicate FirstEnabled<D>(ts: seq<Decl<D>>, c: Config<D>, i: nat) {
    && i < |ts| && ts[i].guard(c.data, c.state)
    && forall j :: 0 <= j < i ==> !ts[j].guard(c.data, c.state)
  }

  /** Nothing fires if nothing is enabled; otherwise exactly the first enabled transition fires, and the others
      only add reports. */
  lemma {:induction false} FirstEnabledFires<D>(h: Hooks<D>, ts: seq<Decl<D>>, c: Config<D>, e: Event, i: nat)
    ensures FirstEnabled(ts, c, i) ==> Scan(h, ts, c, e) == Report(ts[i + 1..], Fire(h, c, ts[i]), e, c.state)
    ensures (forall j :: 0 <= j < |ts| ==> !ts[j].guard(c.data, c.state)) ==> Scan(h, ts, c, e) == c
    decreases |ts|
  {
    if ts != [] && !ts[0].guard(c.data, c.state) {
      hide Fire, Report;
      if 0 < i <= |ts| {
        FirstEnabledFires(h, ts[1..], c, e, i - 1);
        assert FirstEnabled(ts, c, i) ==> FirstEnabled(ts[1..], c, i - 1) && ts[1..][i..] == ts[i + 1..];
      } else {
        FirstEnabledFires(h, ts[1..], c, e, 0);
      }
    }
  }

  ghost function Enabled<D>(ts: seq<Decl<D>>, c: Config<D>): nat {
    if ts == [] then 0 else Enabled(ts[..|ts| - 1], c) + if ts[|ts| - 1].guard(c.data, c.state) then 1 else 0
  }

  /** One report for every later transition that is enabled then, and nothing else. */
  lemma {:induction false} LaterEnabledAreReported<D>(ts: seq<Decl<D>>, c: Config<D>, e: Event, prev: State)
    ensures var r := Report(ts, c, e, prev);
            && r.data == c.data && r.state == c.state
            && |r.log| == |c.log| + Enabled(ts, c) && r.log[..|c.log|] == c.log
            && forall i :: |c.log| <= i < |r.log| ==> r.log[i] == Nondeterminism(e, prev)
  {
    if ts != [] { LaterEnabledAreReported(ts[..|ts| - 1], c, e, prev); }
  }

  // ---------------------------------------------------------------- what a fired transition does

  /** A fired transition leads to the state it names, or stays; the exit hook of the old state comes before the action,
      the entry hook of the next state after it, each if there is one, and nothing else is shown. */
  lemma FireMoves<D>(h: Hooks<D>, c: Config<D>, t: Decl<D>)
    ensures var r := Fire(h, c, t);
            var k := if c.state in h.exits then |c.log| + 1 else |c.log|;
            && r.state == (if t.then_.Some? then t.then_.value else c.state)
            && k < |r.log| && r.log[..|c.log|] == c.log && r.log[k] == Action(t.name)
            && (c.state in h.exits ==> r.log[|c.log|] == Exit(c.state))
            && |r.log| == k + (if r.state in h.entries then 2 else 1)
            && (r.state in h.entries ==> r.log[k + 1] == Entry(r.state))
  {
  }

  /** The data goes through exit hook, action and entry hook in this order, and all of them see the old state. */
  lemma FireChangesData<D>(h: Hooks<D>, c: Config<D>, t: Decl<D>)
    ensures var r := Fire(h, c, t);
            && (c.state !in h.exits && r.state !in h.entries ==> r.data == t.func(c.data, c.state))
            && (c.state in h.exits && r.state !in h.entries ==> r.data == t.func(h.exits[c.state](c.data, c.state), c.state))
            && (c.state !in h.exits && r.state in h.entries ==> r.data == h.entries[r.state](t.func(c.data, c.state), c.state))
            && (c.state in h.exits && r.state in h.entries ==>
                  r.data == h.entries[r.state](t.func(h.exits[c.state](c.data, c.state), c.state), c.state))
  {
  }

  predicate Matches<D>(d: Decl<D>, c: Config<D>, e: Event) {
    d.event == e && d.state == c.state && d.guard(c.data, c.state)
  }

  /** The first declaration whose transition the event can fire. */
  ghost function FirstAt<D>(decls: seq<Decl<D>>, c: Config<D>, e: Event): (i: Option<nat>)
    ensures i.Some? ==> i.value < |decls|
  {
    if decls == [] then None
    else
      match FirstAt(decls[..|decls| - 1], c, e)
      case Some(i) => Some(i)
      case None => if Matches(decls[|decls| - 1], c, e) then Some(|decls| - 1) else None
  }

  lemma {:induction false} FirstAtIsFirst<D>(decls: seq<Decl<D>>, c: Config<D>, e: Event)
    ensures var i := FirstAt(decls, c, e);
            && (i.Some? ==> Matches(decls[i.value], c, e) && forall j :: 0 <= j < i.value ==> !Matches(decls[j], c, e))
            && (i.None? ==> forall j :: 0 <= j < |decls| ==> !Matches(decls[j], c, e))
  {
    if decls != [] {
      var front := decls[..|decls| - 1];
      FirstAtIsFirst(front, c, e);
      assert forall j :: 0 <= j < |front| ==> front[j] == decls[j];
    }
  }

  ghost predicate FiresFirst<D>(ts: seq<Decl<D>>, c: Config<D>, d: Decl<D>) {
    exists j: nat :: FirstEnabled(ts, c, j) && ts[j] == d
  }

  lemma FiresFirstStays<D>(ts: seq<Decl<D>>, more: seq<Decl<D>>, c: Config<D>, d: Decl<D>)
    requires FiresFirst(ts, c, d)
    ensures FiresFirst(ts + more, c, d)
  {
    var j: nat :| FirstEnabled(ts, c, j) && ts[j] == d;
    assert FirstEnabled(ts + more, c, j) && (ts + more)[j] == d;
  }

  /** What the event fires among the transitions of its state is the first declaration it can fire. */
  lemma {:induction false} FirstOfFor<D>(decls: seq<Decl<D>>, c: Config<D>, e: Event)
    ensures var ts, i := For(decls, e, c.state), FirstAt(decls, c, e);
            && (i.None? ==> forall j :: 0 <= j < |ts| ==> !ts[j].guard(c.data, c.state))
            && (i.Some? ==> FiresFirst(ts, c, decls[i.value]))
  {
    if decls != [] {
      var front, last := decls[..|decls| - 1], decls[|decls| - 1];
      FirstOfFor(front, c, e);
      var old_, ts := For(front, e, c.state), For(decls, e, c.state);
      if FirstAt(front, c, e).Some? {
        FiresFirstStays(old_, if last.event == e && last.state == c.state then [last] else [], c, front[FirstAt(front, c, e).value]);
      } else if Matches(last, c, e) {
        assert FirstEnabled(ts, c, |old_|) && ts[|old_|] == last;
      }
    }
  }

  lemma {:induction false} ForIsMentioned<D>(decls: seq<Decl<D>>, e: Event, s: State, i: nat)
    requires i < |decls| && decls[i].event == e && decls[i].state == s
    ensures For(decls, e, s) != []
  {
    if i < |decls| - 1 { ForIsMentioned(decls[..|decls| - 1], e, s, i); }
  }

  /** An event fires the first declaration it can fire, and what is shown after that are reports; if it can fire
      none, it changes neither data nor state. */
  lemma FirstDeclaredFires<D>(decls: seq<Decl<D>>, h: Hooks<D>, c: Config<D>, e: Event)
    ensures var r := Handle(decls, h, c, e);
            match FirstAt(decls, c, e)
            case None => r.data == c.data && r.state == c.state
            case Some(i) =>
              var f := Fire(h, c, decls[i]);
              && r.data == f.data && r.state == f.state && |f.log| <= |r.log| && r.log[..|f.log|] == f.log
              && forall j :: |f.log| <= j < |r.log| ==> r.log[j] == Nondeterminism(e, c.state)
  {
    hide Fire, Report, Scan, For;
    var ts := For(decls, e, c.state);
    FirstOfFor(decls, c, e);
    match FirstAt(decls, c, e)
    case None => FirstEnabledFires(h, ts, c, e, 0);
    case Some(i) =>
      FirstAtIsFirst(decls, c, e);
      ForIsMentioned(decls, e, c.state, i);
      assert Mentioned(decls, e);
      var j: nat :| FirstEnabled(ts, c, j) && ts[j] == decls[i];
      FirstEnabledFires(h, ts, c, e, j);
      LaterEnabledAreReported(ts[j + 1..], Fire(h, c, decls[i]), e, c.state);
  }

  /** An event without declarations is reported as such; one without a declaration for the state is unhandled; one
      that is declared for the state but not enabled does nothing. */
  lemma NothingFires<D>(decls: seq<Decl<D>>, h: Hooks<D>, c: Config<D>, e: Event)
    requires FirstAt(decls, c, e).None?
    ensures Handle(decls, h, c, e) ==
            if forall i :: 0 <= i < |decls| ==> decls[i].event != e then c.(log := c.log + [NoTransition(e)])
            else if forall i :: 0 <= i < |decls| ==> decls[i].event != e || decls[i].state != c.state
                 then c.(log := c.log + [Unhandled(e, c.state)])
            else c
  {
    hide Scan, For;
    FirstOfFor(decls, c, e);
    FirstEnabledFires(h, For(decls, e, c.state), c, e, 0);
    MentionedIsDeclared(decls, e);
    ForIsDeclared(decls, e, c.state);
  }

  lemma {:induction false} ForIsDeclared<D>(decls: seq<Decl<D>>, e: Event, s: State)
    ensures For(decls, e, s) != [] <==> exists i :: 0 <= i < |decls| && decls[i].event == e && decls[i].state == s
  {
    if decls != [] {
      var front := decls[..|decls| - 1];
      ForIsDeclared(front, e, s);
      if i :| 0 <= i < |decls| && decls[i].event == e && decls[i].state == s { ForIsMentioned(decls, e, s, i); }
      if j :| 0 <= j < |front| && front[j].event == e && front[j].state == s { assert decls[j] == front[j]; }
    }
  }

  lemma MentionedIsDeclared<D>(decls: seq<Decl<D>>, e: Event)
    ensures Mentioned(decls, e) <==> exists i :: 0 <= i < |decls| && decls[i].event == e
  {
    hide For;
    if s: State :| For(decls, e, s) != [] { ForIsDeclared(decls, e, s); }
    if i :| 0 <= i < |decls| && decls[i].event == e { ForIsMentioned(decls, e, decls[i].state, i); }
  }

  /** The declarations that fire in a run, in order. */
  ghost function Fired<D>(decls: seq<Decl<D>>, h: Hooks<D>, c: Config<D>, es: seq<Event>): seq<Decl<D>>
    decreases |es|
  {
    if es == [] then []
    else
      var front := es[..|es| - 1];
      var at := FirstAt(decls, HandleAll(decls, h, c, front), es[|es| - 1]);
      Fired(decls, h, c, front) + if at.Some? then [decls[at.value]] else []
  }

  /** The target of the last transition that names one. */
  ghost function LastTarget<D>(ts: seq<Decl<D>>, start: State): State {
    if ts == [] then start
    else if ts[|ts| - 1].then_.Some? then ts[|ts| - 1].then_.value
    else LastTarget(ts[..|ts| - 1], start)
  }

  /** The actions in a log, by name. */
  ghost function Actions(log: seq<Effect>): seq<string> {
    if log == [] then []
    else Actions(log[..|log| - 1]) + if log[|log| - 1].Action? then [log[|log| - 1].name] else []
  }

  ghost function Names<D>(ts: seq<Decl<D>>): seq<string> {
    seq(|ts|, i requires 0 <= i < |ts| => ts[i].name)
  }

  lemma {:induction false} NoMoreActions(log: seq<Effect>, n: nat)
    requires n <= |log| && forall i :: n <= i < |log| ==> !log[i].Action?
    ensures Actions(log) == Actions(log[..n])
  {
    if n < |log| {
      NoMoreActions(log[..|log| - 1], n);
      assert log[..|log| - 1][..n] == log[..n];
    } else {
      assert log[..n] == log;
    }
  }

  lemma FireActs<D>(h: Hooks<D>, c: Config<D>, t: Decl<D>)
    ensures Actions(Fire(h, c, t).log) == Actions(c.log) + [t.name]
  {
    FireMoves(h, c, t);
    hide Fire;
    var log := Fire(h, c, t).log;
    var k := if c.state in h.exits then |c.log| + 1 else |c.log|;
    NoMoreActions(log, k + 1);
    assert log[..k + 1][..k] == log[..k];
    NoMoreActions(log[..k], |c.log|);
    assert log[..k][..|c.log|] == log[..|c.log|] == c.log;
  }

  lemma HandleActs<D>(decls: seq<Decl<D>>, h: Hooks<D>, c: Config<D>, e: Event)
    ensures var r, at := Handle(decls, h, c, e), FirstAt(decls, c, e);
            && r.state == (if at.Some? && decls[at.value].then_.Some? then decls[at.value].then_.value else c.state)
            && Actions(r.log) == Actions(c.log) + if at.Some? then [decls[at.value].name] else []
  {
    FirstDeclaredFires(decls, h, c, e);
    match FirstAt(decls, c, e)
    case None =>
      NothingFires(decls, h, c, e);
      hide Handle;
      var r := Handle(decls, h, c, e);
      NoMoreActions(r.log, |c.log|);
      assert r.log[..|c.log|] == c.log;
    case Some(i) =>
      FireMoves(h, c, decls[i]);
      FireActs(h, c, decls[i]);
      hide Handle, Fire;
      NoMoreActions(Handle(decls, h, c, e).log, |Fire(h, c, decls[i]).log|);
  }

  /** After any events the machine is in the state named by the last fired transition that names one, and the actions
      it took are those of the fired transitions, in order. */
  lemma {:induction false} RunEndsAtLastTarget<D>(decls: seq<Decl<D>>, h: Hooks<D>, c: Config<D>, es: seq<Event>)
    ensures HandleAll(decls, h, c, es).state == LastTarget(Fired(decls, h, c, es), c.state)
    ensures Actions(HandleAll(decls, h, c, es).log) == Actions(c.log) + Names(Fired(decls, h, c, es))
    decreases |es|
  {
    hide Handle, Actions, FirstAt;
    if es != [] {
      var front := es[..|es| - 1];
      RunEndsAtLastTarget(decls, h, c, front);
      var m := HandleAll(decls, h, c, front);
      HandleActs(decls, h, m, es[|es| - 1]);
      var before, all := Fired(decls, h, c, front), Fired(decls, h, c, es);
      var at := FirstAt(decls, m, es[|es| - 1]);
      if at.Some? {
        assert all == before + [decls[at.value]] && all[..|all| - 1] == before;
        assert Names(all) == Names(before) + [all[|all| - 1].name];
      } else {
        assert all == before;
      }
    }
  }

  // ---------------------------------------------------------------- collecting the declarations

  /** What the decorator keeps with the events: the states of each event, and its transitions by state. */
  datatype Marks<!D> = Marks(on: map<Event, seq<State>>, lists: map<(Event, State), seq<Decl<D>>>)

  ghost predicate Collected<D>(m: Marks<D>, decls: seq<Decl<D>>) {
    && (forall e: Event, s: State :: (e, s) in m.lists <==> For(decls, e, s) != [])
    && (forall e: Event, s: State :: (e, s) in m.lists ==> m.lists[(e, s)] == For(decls, e, s))
    && (forall e: Event :: e in m.on ==> m.on[e] != [])
    && (forall e: Event, s: State :: (e in m.on && s in m.on[e]) <==> For(decls, e, s) != [])
  }

  lemma ForMore<D>(decls: seq<Decl<D>>, d: Decl<D>, e: Event, s: State)
    ensures For(decls + [d], e, s) == For(decls, e, s) + if d.event == e && d.state == s then [d] else []
  {
    assert (decls + [d])[..|decls|] == decls;
  }

  /** One decorator. */
  method On<D>(m: Marks<D>, d: Decl<D>, ghost decls: seq<Decl<D>>) returns (r: Marks<D>)
    requires Collected(m, decls)
    ensures Collected(r, decls + [d])
  {
    hide For;
    var states := if d.event in m.on then m.on[d.event] else [];
    var list := if (d.event, d.state) in m.lists then m.lists[(d.event, d.state)] else [];
    r := Marks(m.on[d.event := states + [d.state]], m.lists[(d.event, d.state) := list + [d]]);
    forall e: Event, s: State
      ensures (e, s) in r.lists <==> For(decls + [d], e, s) != []
      ensures (e, s) in r.lists ==> r.lists[(e, s)] == For(decls + [d], e, s)
      ensures (e in r.on && s in r.on[e]) <==> For(decls + [d], e, s) != []
    {
      ForMore(decls, d, e, s);
    }
  }

  method Declare<D>(decls: seq<Decl<D>>) returns (m: Marks<D>)
    ensures Collected(m, decls)
  {
    m := Marks(map[], map[]);
    for i := 0 to |decls|
      invariant Collected(m, decls[..i])
    {
      assert decls[..i] + [decls[i]] == decls[..i + 1];
      m := On(m, decls[i], decls[..i]);
    }
    assert decls[..|decls|] == decls;
  }

  // ---------------------------------------------------------------- building the tables

  type Table<!D> = map<Event, map<State, seq<Decl<D>>>>

  /** The transitions of a state start from and lead to states of the class. */
  ghost predicate Typed<D>(ts: seq<Decl<D>>, s: State, states: set<State>) {
    (ts != [] ==> s in states) && forall i :: 0 <= i < |ts| ==> (ts[i].then_.Some? ==> ts[i].then_.value in states)
  }

  ghost predicate Tabled<D>(t: Table<D>, decls: seq<Decl<D>>, e: Event) {
    && (e in t <==> Mentioned(decls, e))
    && (e in t ==> forall s :: (s in t[e] <==> For(decls, e, s) != []) && (s in t[e] ==> t[e][s] == For(decls, e, s)))
  }

  /** The check of the source on one list of transitions. */
  method Check<D>(ts: seq<Decl<D>>, state: State, states: set<State>) returns (ok: bool)
    requires ts != []
    ensures ok <==> Typed(ts, state, states)
  {
    if state !in states { return false; }
    for i := 0 to |ts|
      invariant forall j :: 0 <= j < i ==> (ts[j].then_.Some? ==> ts[j].then_.value in states)
    {
      if ts[i].then_.Some? && ts[i].then_.value !in states { return false; }
    }
    ok := true;
  }

  /** The table of one event; false where an assertion of the source fails. */
  method BuildEvent<D>(m: Marks<D>, e: Event, states: set<State>, ghost decls: seq<Decl<D>>)
      returns (ok: bool, onMap: map<State, seq<Decl<D>>>)
    requires Collected(m, decls) && e in m.on
    ensures ok <==> forall s: State :: Typed(For(decls, e, s), s, states)
    ensures ok ==> forall s: State :: (s in onMap <==> For(decls, e, s) != []) && (s in onMap ==> onMap[s] == For(decls, e, s))
  {
    hide For;
    onMap := map[];
    for k := 0 to |m.on[e]|
      invariant forall s: State :: s in onMap <==> s in m.on[e][..k]
      invariant forall s: State :: s in onMap ==> onMap[s] == For(decls, e, s)
      invariant forall s: State :: s in m.on[e][..k] ==> Typed(For(decls, e, s), s, states)
    {
      var state := m.on[e][k];
      assert state in m.on[e];
      var tlist := m.lists[(e, state)];
      assert tlist == For(decls, e, state);
      var fine := Check(tlist, state, states);
      if !fine { return false, map[]; }
      onMap := onMap[state := tlist];
    }
    ok := true;
    assert m.on[e][..|m.on[e]|] == m.on[e];
  }

  /** The tables of all events of the class. Declarations for other events are never looked at. */
  method Build<D>(m: Marks<D>, events: seq<Event>, states: set<State>, ghost decls: seq<Decl<D>>)
      returns (ok: bool, table: Table<D>)
    requires Collected(m, decls)
    ensures ok <==> forall e: Event, s: State :: e in events ==> Typed(For(decls, e, s), s, states)
    ensures ok ==> forall e: Event :: e in events ==> Tabled(table, decls, e)
  {
    hide For, Typed, Tabled;
    table := map[];
    for k := 0 to |events|
      invariant forall e: Event :: e in table ==> e in events[..k]
      invariant forall e: Event :: e in events[..k] ==> Tabled(table, decls, e)
      invariant forall e: Event, s: State :: e in events[..k] ==> Typed(For(decls, e, s), s, states)
    {
      var e := events[k];
      assert forall x: Event :: x in events[..k + 1] <==> x in events[..k] || x == e;
      if e in m.on {
        var fine, onMap := BuildEvent(m, e, states, decls);
        if !fine { return false, map[]; }
        ghost var was := table;
        table := table[e := onMap];
        TabledNow(was, m, decls, e, onMap);
        forall x: Event | x in events[..k + 1] ensures Tabled(table, decls, x) {
          if x != e { TabledStays(was, decls, e, onMap, x); }
        }
      } else {
        Untabled(table, m, decls, e);
        forall s: State ensures Typed(For(decls, e, s), s, states) {
          NotDeclared(m, decls, e, s);
          NothingTyped<D>(s, states);
        }
      }
    }
    ok := true;
    assert events[..|events|] == events;
  }

  lemma TabledNow<D>(t: Table<D>, m: Marks<D>, decls: seq<Decl<D>>, e: Event, onMap: map<State, seq<Decl<D>>>)
    requires Collected(m, decls) && e in m.on
    requires forall s: State :: (s in onMap <==> For(decls, e, s) != []) && (s in onMap ==> onMap[s] == For(decls, e, s))
    ensures Tabled(t[e := onMap], decls, e)
  {
    hide For;
    assert m.on[e][0] in m.on[e];
    assert For(decls, e, m.on[e][0]) != [];
  }

  lemma TabledStays<D>(t: Table<D>, decls: seq<Decl<D>>, e: Event, onMap: map<State, seq<Decl<D>>>, x: Event)
    requires Tabled(t, decls, x) && x != e
    ensures Tabled(t[e := onMap], decls, x)
  {
    hide For, Mentioned;
  }

  lemma NotDeclared<D>(m: Marks<D>, decls: seq<Decl<D>>, e: Event, s: State)
    requires Collected(m, decls) && e !in m.on
    ensures For(decls, e, s) == []
  {
    hide For;
  }

  /** An event without declarations has no entry, before and after it was looked at. */
  lemma Untabled<D>(t: Table<D>, m: Marks<D>, decls: seq<Decl<D>>, e: Event)
    requires Collected(m, decls) && e !in m.on && (e in t ==> Tabled(t, decls, e))
    ensures Tabled(t, decls, e)
  {
    hide For;
  }

  lemma NothingTyped<D>(s: State, states: set<State>)
    ensures Typed<D>([], s, states)
  {
  }

  // ---------------------------------------------------------------- handling events

  class FSM<D> {
    const hooks: Hooks<D>
    const table: Table<D>
    var data: D
    var current: State
    var log: seq<Effect>

    function View(): Config<D>
      reads this
    {
      Config(data, current, log)
    }

    constructor (hooks: Hooks<D>, table: Table<D>, data: D, initial: State)
      ensures this.hooks == hooks && this.table == table && View() == Config(data, initial, [])
    {
      this.hooks, this.table, this.data, current, log := hooks, table, data, initial, [];
    }

    /** exit hook, action, entry hook, and only then the next state. */
    method Take(trans: Decl<D>)
      modifies this
      ensures View() == Fire(hooks, old(View()), trans)
    {
      if current in hooks.exits {
        data := hooks.exits[current](data, current);
        log := log + [Exit(current)];
      }
      data := trans.func(data, current);
      log := log + [Action(trans.name)];
      var next := if trans.then_.Some? then trans.then_.value else current;
      if next in hooks.entries {
        data := hooks.entries[next](data, current);
        log := log + [Entry(next)];
      }
      current := next;
    }

    /** The loop over the transitions of the event in the current state. */
    method Dispatch(event: Event, tlist: seq<Decl<D>>)
      modifies this
      ensures View() == Scan(hooks, tlist, old(View()), event)
    {
      hide Fire, Scan, Report;
      var fired, prev := false, current;
      ghost var k: nat := 0;
      for i := 0 to |tlist|
        invariant !fired ==> View() == old(View()) && Scan(hooks, tlist[i..], old(View()), event) == Scan(hooks, tlist, old(View()), event)
        invariant fired ==> Progress(hooks, tlist, old(View()), event, k, i, View())
      {
        var trans := tlist[i];
        ScanOne(hooks, tlist, i, old(View()), event);
        if fired { ReportMore(tlist, k, i, Fire(hooks, old(View()), tlist[k]), event, prev); }
        if trans.guard(data, current) {
          if fired {
            log := log + [Nondeterminism(event, prev)];
          } else {
            Take(trans);
            fired := true;
            k := i;
          }
        }
      }
      ScanEnd(hooks, tlist, old(View()), event);
      assert fired ==> tlist[k + 1..|tlist|] == tlist[k + 1..];
    }

    /** _update: the handler of an event. */
    method Update(event: Event, ghost decls: seq<Decl<D>>)
      requires Tabled(table, decls, event)
      modifies this
      ensures View() == Handle(decls, hooks, old(View()), event)
    {
      hide Scan, For;
      if event !in table {
        log := log + [NoTransition(event)];
      } else if current !in table[event] {
        log := log + [Unhandled(event, current)];
      } else {
        Dispatch(event, table[event][current]);
      }
    }

    /** Any sequence of events of the class. */
    method Run(events: seq<Event>, ghost decls: seq<Decl<D>>)
      requires forall e: Event :: e in events ==> Tabled(table, decls, e)
      modifies this
      ensures View() == HandleAll(decls, hooks, old(View()), events)
    {
      hide Handle, For;
      for i := 0 to |events|
        invariant View() == HandleAll(decls, hooks, old(View()), events[..i])
      {
        assert events[..i + 1][..i] == events[..i];
        Update(events[i], decls);
      }
      assert events[..|events|] == events;
    }
  }

  lemma ScanOne<D>(h: Hooks<D>, ts: seq<Decl<D>>, i: nat, c: Config<D>, e: Event)
    requires i < |ts|
    ensures Scan(h, ts[i..], c, e) ==
            if ts[i].guard(c.data, c.state) then Report(ts[i + 1..], Fire(h, c, ts[i]), e, c.state) else Scan(h, ts[i + 1..], c, e)
    ensures Report(ts[i + 1..i + 1], Fire(h, c, ts[i]), e, c.state) == Fire(h, c, ts[i])
    ensures ts[0..] == ts
  {
  }

  lemma ScanEnd<D>(h: Hooks<D>, ts: seq<Decl<D>>, c: Config<D>, e: Event)
    ensures Scan(h, ts[|ts|..], c, e) == c
  {
    assert ts[|ts|..] == [];
  }

  /** Transition k fired, and the ones after it up to i were looked at. */
  ghost predicate Progress<D>(h: Hooks<D>, ts: seq<Decl<D>>, c: Config<D>, e: Event, k: nat, i: nat, now: Config<D>) {
    && k < i <= |ts|
    && Scan(h, ts, c, e) == Report(ts[k + 1..], Fire(h, c, ts[k]), e, c.state)
    && now == Report(ts[k + 1..i], Fire(h, c, ts[k]), e, c.state)
  }

  lemma ReportMore<D>(ts: seq<Decl<D>>, k: nat, i: nat, c: Config<D>, e: Event, prev: State)
    requires k < i < |ts|
    ensures ts[k + 1..i + 1] == ts[k + 1..i] + [ts[i]]
    ensures var r := Report(ts[k + 1..i], c, e, prev);
            Report(ts[k + 1..i + 1], c, e, prev) ==
            if ts[i].guard(r.data, r.state) then r.(log := r.log + [Nondeterminism(e, prev)]) else r
  {
    LaterEnabledAreReported(ts[k + 1..i], c, e, prev);
    assert ts[k + 1..i + 1][..i - k - 1] == ts[k + 1..i];
  }
}
