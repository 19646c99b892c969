/**
  The thread behind a timer port (TimerThread.run in src/riaps/run/timPort.py): commands come in over a socket,
  a poll that runs out of time is a timeout. Times are whole microseconds, timeouts whole milliseconds.
 */
module Timer {
  import opened Wrappers

  type Time = int

  datatype Command = Terminate | Activate | Deactivate | Start | Cancel | Halt | Unknown

  /** What the wait returns, and what the thread then reads: the clock, and the period and delay as they are set. */
  datatype Input = Input(command: Option<Command>, now: Time, period: int, delay: Option<int>)

  datatype State = State(
    timeout: Option<int>, active: bool, running: bool, skip: bool, last: Option<Time>, ended: bool, ticks: seq<Time>)

  /** int(x * 1000) of a number of seconds: whole milliseconds, truncated towards zero. */
  function Millis(t: Time): int {
    if 0 <= t then t / 1000 else -((-t) / 1000)
  }

  const INITIAL := State(None, false, false, false, None, false, [])

  /** The wait can only run out if there is a timeout; a negative one waits forever. */
  predicate CanTimeOut(t: State) {
    t.timeout.Some? && 0 <= t.timeout.value
  }

  // ---------------------------------------------------------------- what one input does

  function Expire(periodic: bool, t: State, x: Input): State {
    if !t.active then t.(timeout := None)
    else
      var skipped := t.running && periodic && t.skip;
      var told := t.(last := Some(x.now), skip := if skipped then false else t.skip,
                     ticks := if t.running && !skipped then t.ticks + [x.now] else t.ticks);
      if periodic then told.(timeout := Some(Millis(x.period))) else told.(running := false, timeout := None)
  }

  function Obey(periodic: bool, t: State, x: Input, c: Command): State {
    match c
    case Terminate => t.(ended := true)
    case Activate => t.(active := true, last := None)
    case Deactivate => t.(active := false, timeout := None, last := None)
    case Start =>
      if !t.active then t
      else if periodic then t.(timeout := Some(Millis(x.period)), running := true)
      else if x.delay.None? then t.(ended := true)  // no delay was ever set: TypeError
      else t.(timeout := Some(Millis(x.delay.value)), running := true)
    case Cancel =>
      if !periodic then t.(running := false, timeout := None)
      else if t.last.Some? then t.(timeout := Some(Millis(t.last.value + x.period - x.now)), skip := true)
      else t
    case Halt => t.(timeout := None, running := false)
    case Unknown => t
  }

  function Next(periodic: bool, t: State, x: Input): State {
    match x.command
    case None => Expire(periodic, t, x)
    case Some(c) => Obey(periodic, t, x, c)
  }

  class TimerThread {
    const periodic: bool
    var timeout: Option<int>
    var active: bool
    var running: bool
    var skip: bool
    var last: Option<Time>
    var ended: bool
    var ticks: seq<Time>

    function View(): State
      reads this
    {
      State(timeout, active, running, skip, last, ended, ticks)
    }

    constructor (periodic: bool)
      ensures this.periodic == periodic && View() == INITIAL
    {
      this.periodic := periodic;
      timeout, active, running, skip, last, ended, ticks := None, false, false, false, None, false, [];
    }

    /** A timeout. */
    method Fire(x: Input)
      modifies this
      ensures View() == Expire(periodic, old(View()), x)
    {
      if !active {
        timeout := None;
        return;
      }
      last := Some(x.now);
      if running {
        if periodic && skip {
          skip := false;
        } else {
          ticks := ticks + [x.now];
        }
      }
      if periodic {
        timeout := Some(Millis(x.period));
      } else {
        running := false;
        timeout := None;
      }
    }

    method Handle(c: Command, x: Input)
      modifies this
      ensures View() == Obey(periodic, old(View()), x, c)
    {
      match c
      case Terminate =>
        ended := true;
      case Activate =>
        active := true;
        last := None;
      case Deactivate =>
        active := false;
        timeout := None;
        last := None;
      case Start =>
        if active {
          if !periodic && x.delay.None? {
            ended := true;
          } else {
            timeout := Some(if periodic then Millis(x.period) else Millis(x.delay.value));
            running := true;
          }
        }
      case Cancel =>
        if periodic {
          if last.Some? {
            timeout := Some(Millis(last.value + x.period - x.now));
            skip := true;
          }
        } else {
          running := false;
          timeout := None;
        }
      case Halt =>
        timeout := None;
        running := false;
      case Unknown =>
    }

    /** The loop, over what the waits return. */
    method Run(inputs: seq<Input>) returns (used: nat)
      requires Possible(periodic, View(), inputs)
      modifies this
      ensures used <= |inputs| && View() == After(periodic, old(View()), inputs)
      ensures used < |inputs| ==> View().ended
    {
      used := 0;
      while used < |inputs| && !ended
        invariant used <= |inputs|
        invariant After(periodic, View(), inputs[used..]) == After(periodic, old(View()), inputs)
      {
        var x := inputs[used];
        assert inputs[used..][0] == x && inputs[used..][1..] == inputs[used + 1..];
        match x.command {
          case None => Fire(x);
          case Some(c) => Handle(c, x);
        }
        used := used + 1;
      }
      EndsHere(periodic, View(), inputs[used..]);
    }
  }

  lemma EndsHere(periodic: bool, t: State, xs: seq<Input>)
    requires xs == [] || t.ended
    ensures After(periodic, t, xs) == t
  {
  }

  // ---------------------------------------------------------------- runs

  ghost function After(periodic: bool, t: State, xs: seq<Input>): State
    decreases |xs|
  {
    if xs == [] || t.ended then t else After(periodic, Next(periodic, t, xs[0]), xs[1..])
  }

  /** Timeouts happen only while there is one to wait for. */
  ghost predicate Possible(periodic: bool, t: State, xs: seq<Input>)
    decreases |xs|
  {
    xs != [] && !t.ended ==>
      (xs[0].command.None? ==> CanTimeOut(t)) && Possible(periodic, Next(periodic, t, xs[0]), xs[1..])
  }

  /** A START that the timer takes up. */
  predicate Accepts(periodic: bool, t: State, x: Input) {
    x.command == Some(Start) && t.active && (periodic || x.delay.Some?)
  }

  ghost function Starts(periodic: bool, t: State, xs: seq<Input>): nat
    decreases |xs|
  {
    if xs == [] || t.ended then 0
    else (if Accepts(periodic, t, xs[0]) then 1 else 0) + Starts(periodic, Next(periodic, t, xs[0]), xs[1..])
  }

  /** Nothing can tick: the timer is not running, or it waits for a command and does not remember a firing. */
  ghost predicate Quiet(t: State) {
    !t.running || (t.timeout.None? && t.last.None?)
  }

  /** A tick is sent exactly on a timeout while active and running, unless a periodic timer skips it, and only one. */
  lemma TicksNeedActiveAndRunning(periodic: bool, t: State, x: Input)
    ensures Next(periodic, t, x).ticks ==
            if x.command.None? && t.active && t.running && !(periodic && t.skip) then t.ticks + [x.now] else t.ticks
  {
  }

  lemma QuietLasts(periodic: bool, t: State, x: Input)
    requires Quiet(t) && (x.command.None? ==> CanTimeOut(t)) && !Accepts(periodic, t, x)
    ensures Quiet(Next(periodic, t, x)) && Next(periodic, t, x).ticks == t.ticks
  {
  }

  lemma {:induction false} QuietRun(periodic: bool, t: State, xs: seq<Input>)
    requires Quiet(t) && Possible(periodic, t, xs) && Starts(periodic, t, xs) == 0
    ensures After(periodic, t, xs).ticks == t.ticks
    decreases |xs|
  {
    if xs != [] && !t.ended {
      QuietLasts(periodic, t, xs[0]);
      QuietRun(periodic, Next(periodic, t, xs[0]), xs[1..]);
    }
  }

  /** HALT and DEACTIVATE, and CANCEL of a sporadic timer, silence the timer: no tick until a START is accepted. */
  lemma SilentUntilStart(periodic: bool, t: State, x: Input, xs: seq<Input>)
    requires x.command == Some(Halt) || x.command == Some(Deactivate) || (x.command == Some(Cancel) && !periodic)
    requires Possible(periodic, Next(periodic, t, x), xs) && Starts(periodic, Next(periodic, t, x), xs) == 0
    ensures After(periodic, Next(periodic, t, x), xs).ticks == t.ticks
  {
    QuietRun(periodic, Next(periodic, t, x), xs);
  }

  /** A sporadic timer ticks at most once for every accepted START. */
  lemma {:induction false} SporadicTicksOnce(t: State, xs: seq<Input>)
    requires Possible(false, t, xs)
    ensures var u := After(false, t, xs);
            |u.ticks| + (if u.running then 1 else 0) <= |t.ticks| + (if t.running then 1 else 0) + Starts(false, t, xs)
    decreases |xs|
  {
    if xs != [] && !t.ended { SporadicTicksOnce(Next(false, t, xs[0]), xs[1..]); }
  }

  /** From the beginning: no more ticks than accepted STARTs. */
  lemma TicksAtMostStarts(xs: seq<Input>)
    requires Possible(false, INITIAL, xs)
    ensures |After(false, INITIAL, xs).ticks| <= Starts(false, INITIAL, xs)
  {
    SporadicTicksOnce(INITIAL, xs);
  }

  // ---------------------------------------------------------------- when ticks do come

  lemma Onward(periodic: bool, t: State, xs: seq<Input>, i: nat)
    requires i < |xs| && !t.ended
    ensures After(periodic, t, xs[i..]) == After(periodic, Next(periodic, t, xs[i]), xs[i + 1..])
    ensures Possible(periodic, t, xs[i..]) <==>
            (xs[i].command.None? ==> CanTimeOut(t)) && Possible(periodic, Next(periodic, t, xs[i]), xs[i + 1..])
  {
    assert xs[i..][1..] == xs[i + 1..];
  }

  /** A sporadic timer that is started while active waits for its delay, ticks when that has passed, and then waits
      for a command. */
  lemma SporadicTicksAfterItsDelay(t: State, x: Input, y: Input)
    requires t.active && !t.ended && x.command == Some(Start) && x.delay.Some? && y.command.None?
    ensures Next(false, t, x).timeout == Some(Millis(x.delay.value))
    ensures var u := After(false, t, [x, y]);
            u.ticks == t.ticks + [y.now] && !CanTimeOut(u) && u.active && !u.running && !u.ended
  {
    Onward(false, t, [x, y], 0);
    Onward(false, Next(false, t, x), [x, y], 1);
    assert [x, y][0..] == [x, y] && [x, y][2..] == [];
  }

  /** The times of some timeouts. */
  function Times(xs: seq<Input>): seq<Time> {
    seq(|xs|, i requires 0 <= i < |xs| => xs[i].now)
  }

  /** A running periodic timer that is left alone ticks on every timeout, and waits for its period after each. */
  lemma {:induction false} TicksOnEveryTimeout(t: State, xs: seq<Input>)
    requires t.active && t.running && !t.skip && !t.ended && forall i :: 0 <= i < |xs| ==> xs[i].command.None?
    ensures var u := After(true, t, xs);
            && u.ticks == t.ticks + Times(xs) && u.active && u.running && !u.skip && !u.ended
            && u.timeout == if xs == [] then t.timeout else Some(Millis(xs[|xs| - 1].period))
    decreases |xs|
  {
    if xs == [] {
      assert t.ticks + Times(xs) == t.ticks;
    } else {
      TicksOnEveryTimeout(Next(true, t, xs[0]), xs[1..]);
      assert Times(xs) == [xs[0].now] + Times(xs[1..]);
      assert xs[1..] != [] ==> xs[1..][|xs| - 2] == xs[|xs| - 1];
    }
  }

  /** A periodic timer that is started while active ticks once a period from then on. */
  lemma PeriodicTicksEveryPeriod(t: State, x: Input, xs: seq<Input>)
    requires t.active && !t.skip && !t.ended && x.command == Some(Start) && forall i :: 0 <= i < |xs| ==> xs[i].command.None?
    ensures Next(true, t, x).timeout == Some(Millis(x.period))
    ensures After(true, t, [x] + xs).ticks == t.ticks + Times(xs)
    ensures After(true, t, [x] + xs).timeout == Some(Millis(([x] + xs)[|xs|].period))
  {
    assert ([x] + xs)[1..] == xs;
    TicksOnEveryTimeout(Next(true, t, x), xs);
  }

  /** A CANCEL takes what is left of the period away from a running periodic timer: it waits for that, does not tick
      then, and ticks again a period later. */
  lemma CancelSkipsTheNextFiring(t: State, x: Input, y: Input, z: Input)
    requires t.active && t.running && !t.ended && t.last.Some?
    requires x.command == Some(Cancel) && y.command.None? && z.command.None?
    ensures Next(true, t, x).timeout == Some(Millis(t.last.value + x.period - x.now))
    ensures var u := After(true, t, [x, y]);
            u.ticks == t.ticks && !u.skip && u.timeout == Some(Millis(y.period)) && After(true, t, [x, y, z]).ticks == t.ticks + [z.now]
  {
    var u := Next(true, t, x);
    Onward(true, t, [x, y], 0);
    Onward(true, u, [x, y], 1);
    Onward(true, t, [x, y, z], 0);
    Onward(true, u, [x, y, z], 1);
    Onward(true, Next(true, u, y), [x, y, z], 2);
    assert [x, y][0..] == [x, y] && [x, y][2..] == [] && [x, y, z][0..] == [x, y, z] && [x, y, z][3..] == [];
  }

  /** The last ACTIVATE or DEACTIVATE, if there was one. */
  ghost function Switched(was: bool, xs: seq<Input>): bool {
    if xs == [] then was
    else
      var c := xs[|xs| - 1].command;
      if c == Some(Activate) then true else if c == Some(Deactivate) then false else Switched(was, xs[..|xs| - 1])
  }

  /** A timer that still runs its loop is active exactly if it was last activated rather than deactivated, and it ends
      only on TERMINATE, or on a START of a sporadic timer that has no delay. */
  lemma {:induction false} ActiveAsSwitched(periodic: bool, t: State, xs: seq<Input>)
    requires !t.ended
    ensures !After(periodic, t, xs).ended ==> After(periodic, t, xs).active == Switched(t.active, xs)
    ensures After(periodic, t, xs).ended ==>
              exists i :: 0 <= i < |xs| && (xs[i].command == Some(Terminate)
                                            || (xs[i].command == Some(Start) && !periodic && xs[i].delay.None?))
    decreases |xs|
  {
    if xs != [] {
      var front, x := xs[..|xs| - 1], xs[|xs| - 1];
      ActiveAsSwitched(periodic, t, front);
      AfterLast(periodic, t, xs);
      var m := After(periodic, t, front);
      if m.ended {
        var i :| 0 <= i < |front| && (front[i].command == Some(Terminate)
                                      || (front[i].command == Some(Start) && !periodic && front[i].delay.None?));
        assert xs[i] == front[i];
      } else {
        assert Next(periodic, m, x).ended ==> xs[|xs| - 1] == x;
      }
    }
  }

  lemma {:induction false} AfterLast(periodic: bool, t: State, xs: seq<Input>)
    requires xs != []
    ensures var m := After(periodic, t, xs[..|xs| - 1]);
            After(periodic, t, xs) == if m.ended then m else Next(periodic, m, xs[|xs| - 1])
    decreases |xs|
  {
    hide Next;
    if !t.ended && 1 < |xs| {
      AfterLast(periodic, Next(periodic, t, xs[0]), xs[1..]);
      assert xs[1..][..|xs| - 2] == xs[..|xs| - 1][1..];
    }
  }

  /** Nothing is left to wait for but a command after HALT, DEACTIVATE or a CANCEL of a sporadic timer, and after any
      timeout while inactive; a CANCEL before the first firing of a periodic timer changes nothing. */
  lemma WaitsForACommand(periodic: bool, t: State, x: Input)
    ensures x.command == Some(Halt) || x.command == Some(Deactivate) ==> Next(periodic, t, x).timeout.None?
    ensures x.command == Some(Cancel) && !periodic ==> Next(periodic, t, x).timeout.None?
    ensures x.command.None? && !(t.active && periodic) ==> Next(periodic, t, x).timeout.None?
    ensures x.command == Some(Cancel) && periodic && t.last.None? ==> Next(periodic, t, x) == t
    ensures x.command == Some(Activate) || x.command == Some(Deactivate) ==> Next(periodic, t, x).last.None?
    ensures x.command.None? && t.active ==> Next(periodic, t, x).last == Some(x.now)
    ensures x.command == Some(Unknown) || (x.command == Some(Start) && !t.active) ==> Next(periodic, t, x) == t
  {
  }

  // ---------------------------------------------------------------- cancelling a periodic timer

  /** Timeouts that come while active and running. */
  ghost function Firings(t: State, xs: seq<Input>): nat
    decreases |xs|
  {
    if xs == [] || t.ended then 0
    else (if xs[0].command.None? && t.active && t.running then 1 else 0) + Firings(Next(true, t, xs[0]), xs[1..])
  }

  ghost function Cancels(t: State, xs: seq<Input>): nat
    decreases |xs|
  {
    if xs == [] || t.ended then 0
    else (if xs[0].command == Some(Cancel) && t.last.Some? then 1 else 0) + Cancels(Next(true, t, xs[0]), xs[1..])
  }

  /** Every firing ticks, except that each CANCEL takes away at most one of them. */
  lemma {:induction false} CancelSkipsOne(t: State, xs: seq<Input>)
    ensures var u := After(true, t, xs);
            var skips := Cancels(t, xs) + (if t.skip then 1 else 0) - (if u.skip then 1 else 0);
            Firings(t, xs) - skips <= |u.ticks| - |t.ticks| <= Firings(t, xs)
    decreases |xs|
  {
    if xs != [] && !t.ended { CancelSkipsOne(Next(true, t, xs[0]), xs[1..]); }
  }

  /** A CANCEL more than a period after the last firing leaves a negative timeout, which waits forever: the timer can
      time out after a CANCEL exactly if the next firing is not a millisecond or more overdue. */
  lemma LateCancelCannotTimeOut(t: State, x: Input)
    requires x.command == Some(Cancel) && t.last.Some?
    ensures CanTimeOut(Next(true, t, x)) <==> -1000 < t.last.value + x.period - x.now
  {
  }

  /** After such a CANCEL a periodic timer is silent until a START is accepted, whatever else is commanded, as long
      as the period is not made longer. */
  lemma {:induction false} LateCancelSilences(t: State, xs: seq<Input>, now: Time, period: int)
    requires t.last.Some? ==> t.last.value + period - now <= -1000
    requires !CanTimeOut(t) && Possible(true, t, xs) && Starts(true, t, xs) == 0
    requires forall i :: 0 <= i < |xs| ==> now <= xs[i].now && xs[i].period <= period
    ensures After(true, t, xs).ticks == t.ticks
    decreases |xs|
  {
    if xs != [] && !t.ended {
      LateCancelSilences(Next(true, t, xs[0]), xs[1..], now, period);
    }
  }

  function At(command: Option<Command>, now: Time, period: int): Input {
    Input(command, now, period, None)
  }

  /** The timer is started, fires, is halted, and is started again long after. */
  function Restart(period: int): seq<Input> {
    [At(Some(Activate), 0, period), At(Some(Start), 0, period), At(None, period, period), At(Some(Halt), period, period),
     At(Some(Start), 2 * period + 1000, period)]
  }

  lemma RestartRuns(period: int)
    requires 0 <= period
    ensures Possible(true, INITIAL, Restart(period))
    ensures After(true, INITIAL, Restart(period)) ==
            State(Some(Millis(period)), true, true, false, Some(period), false, [period])
  {
    var xs, ms := Restart(period), Some(Millis(period));
    var t1 := INITIAL.(active := true);
    var t2 := t1.(timeout := ms, running := true);
    var t3 := t2.(last := Some(period), ticks := [] + [period]);
    var t4 := t3.(timeout := None, running := false);
    assert Next(true, INITIAL, xs[0]) == t1 && Next(true, t1, xs[1]) == t2 && Next(true, t2, xs[2]) == t3;
    assert Next(true, t3, xs[3]) == t4 && Next(true, t4, xs[4]) == t4.(timeout := ms, running := true) && CanTimeOut(t2);
    hide Next, CanTimeOut, Millis;
    Onward(true, t4, xs, 4);
    Onward(true, t3, xs, 3);
    Onward(true, t2, xs, 2);
    Onward(true, t1, xs, 1);
    Onward(true, INITIAL, xs, 0);
    assert xs[0..] == xs && xs[5..] == [];
  }

  /** Such a CANCEL does come up: cancelled right after that restart the timer has ticked, is active and running, and
      waits for ever. */
  lemma LateCancelHappens(period: int)
    requires 0 <= period
    ensures Possible(true, INITIAL, Restart(period))
    ensures var t := Next(true, After(true, INITIAL, Restart(period)), At(Some(Cancel), 2 * period + 1000, period));
            t.active && t.running && !t.ended && t.ticks == [period] && !CanTimeOut(t)
  {
    RestartRuns(period);
    hide Possible, After, Restart;
    LateCancelCannotTimeOut(After(true, INITIAL, Restart(period)), At(Some(Cancel), 2 * period + 1000, period));
  }
}
