/**
  The main loop of a coordinated member (GroupThread.run in src/riaps/run/dc.py) as a program over the
  member object: what the object holds is what the runs of GroupNode.dfy say, turn by turn, so everything
  proved about those runs holds of the object.
 */
module GroupLoop {
  import opened Wrappers
  import opened OrderedDict
  import opened GroupModel
  import opened GroupNode
  import opened GroupThreads

  ghost predicate Stops(x: Input) {
    x.ev.Ready? && x.ev.command == Some(LeaveGroup)
  }

  lemma {:induction false} PrefixIsPossible(p: Params, e0: Env, run: seq<Input>, n: nat)
    requires Possible(p, e0, run) && n <= |run|
    ensures Possible(p, e0, run[..n])
    decreases |run|
  {
    if n == |run| {
      assert run[..n] == run;
    } else {
      PrefixIsPossible(p, e0, run[..|run| - 1], n);
      assert run[..|run| - 1][..n] == run[..n];
    }
  }

  lemma OneMoreTurn(p: Params, e0: Env, run: seq<Input>, n: nat)
    requires Possible(p, e0, run) && n < |run|
    ensures Possible(p, e0, run[..n]) && Possible(p, e0, run[..n + 1])
    ensures Run(p, e0, run[..n]).role.Leader? ==> Run(p, e0, run[..n]).ldrPort.Some?
    ensures Run(p, e0, run[..n + 1]) == Turn(p, Run(p, e0, run[..n]), run[n].ev, run[n].env)
  {
    hide Turn, Good, Replay, Keys;
    PrefixIsPossible(p, e0, run, n);
    PrefixIsPossible(p, e0, run, n + 1);
    assert run[..n + 1][..n] == run[..n];
  }

  /** setup(), and the loop until the component leaves the group or there is no further input. */
  method RunLoop(p: Params, e0: Env, inputs: seq<Input>) returns (t: GroupThread, used: nat)
    requires Possible(p, e0, inputs)
    ensures used <= |inputs| && Possible(p, e0, inputs[..used])
    ensures t.View() == Run(p, e0, inputs[..used])
    ensures used < |inputs| ==> 0 < used && Stops(inputs[used - 1])
    ensures forall i :: 0 <= i < used - 1 ==> !Stops(inputs[i])
  {
    hide Turn, Good, Replay, Keys, Run, Possible;
    t := new GroupThread(p, e0);
    used := 0;
    PrefixIsPossible(p, e0, inputs, 0);
    NoTurns(p, e0);
    var toStop := false;
    while used < |inputs| && !toStop
      invariant fresh(t) && fresh(t.qryPort) && fresh(t.PollSet()) && t.Valid() && t.p == p
      invariant used <= |inputs| && Possible(p, e0, inputs[..used]) && t.View() == Run(p, e0, inputs[..used])
      invariant toStop ==> 0 < used && Stops(inputs[used - 1])
      invariant forall i :: 0 <= i < used - 1 ==> !Stops(inputs[i])
      invariant !toStop && 0 < used ==> !Stops(inputs[used - 1])
    {
      OneMoreTurn(p, e0, inputs, used);
      toStop := t.Turn(inputs[used].ev, inputs[used].env);
      used := used + 1;
    }
  }

  lemma NoTurns(p: Params, e0: Env)
    requires Possible(p, e0, [])
    ensures Run(p, e0, []) == Start(p, e0)
  {
    hide Start;
  }
}
