/** Every reachable state can be run to completion: without any further failure all handlers end, in bounded time. */
module ProtocolCompletion {
  import opened Protocol
  import opened ProtocolLocks
  import opened ProtocolProgress
  import opened ProtocolSafety

  /** A run from here in which no call fails. */
  ghost predicate Continues(env: Env, run: seq<State>, steps: seq<Step>) {
    && |run| == |steps| + 1
    && forall i :: 0 <= i < |steps| ==> Next(env, run[i], run[i + 1], steps[i]) && NoFailure(run[i], steps[i])
  }

  lemma Prepend(env: Env, s: State, step: Step, run: seq<State>, steps: seq<Step>)
    requires Continues(env, run, steps) && Next(env, s, run[0], step) && NoFailure(s, step)
    ensures Continues(env, [s] + run, [step] + steps)
  {
    hide Next, NoFailure;
    var r, st := [s] + run, [step] + steps;
    forall i | 0 <= i < |st| ensures Next(env, r[i], r[i + 1], st[i]) && NoFailure(r[i], st[i]) {
      if i > 0 {
        assert r[i] == run[i - 1] && r[i + 1] == run[i] && st[i] == steps[i - 1];
      }
    }
  }

  lemma {:induction false} Chain(env: Env, run1: seq<State>, steps1: seq<Step>, run2: seq<State>, steps2: seq<Step>)
    requires Continues(env, run1, steps1) && Continues(env, run2, steps2) && run1[|run1| - 1] == run2[0]
    ensures Continues(env, run1 + run2[1..], steps1 + steps2)
    ensures run2[|run2| - 1] == (run1 + run2[1..])[|run1 + run2[1..]| - 1]
  {
    hide Next, NoFailure;
    var r, st, n := run1 + run2[1..], steps1 + steps2, |steps1|;
    forall i | 0 <= i < |st| ensures Next(env, r[i], r[i + 1], st[i]) && NoFailure(r[i], st[i]) {
      if i >= n {
        assert r[i] == run2[i - n] && r[i + 1] == run2[i - n + 1] && st[i] == steps2[i - n];
      }
    }
  }

  const STEPS_EACH := 42

  /** A bound on the steps a handler, and the server for it, still take. */
  function Ahead(s: State, t: nat): (r: nat)
    requires t in s.tasks
    ensures r <= STEPS_EACH
  {
    var rank := Rank(s.tasks[t].pc);
    rank + if rank > 19 || Awaiting(s, t) then 1 else 0
  }

  lemma AwaitingRank(s: State, t: nat)
    requires Awaiting(s, t)
    ensures Rank(s.tasks[t].pc) == 19 && Holds(s.tasks[t].pc, Workloads)
  {}

  /** Unfinished handlers that were not blocked stay so, unless they finish. */
  lemma StaysUnblocked(env: Env, t: nat, s: State, s': State, ch: Choice)
    requires LockInv(s') && Next(env, s, s', Run(t, ch)) && !s'.tasks[t].pc.Done?
    ensures !Blocked(s'.sh, s'.tasks[t].pc)
  {
    hide Holds, Blocked, LockInv;
    assert Holds(s'.tasks[t].pc, Workloads) by {
      hide HandlerStep;
      StepLowersRank(env, t, s.tasks[t].peer, s.sh, s.tasks[t].pc, ch, s'.sh, s'.tasks[t].pc);
      BelowFirst(s'.tasks[t].pc);
    }
    HolderRuns(s', t);
  }

  lemma BelowFirst(pc: Pc)
    requires Rank(pc) < MAX_STEPS && !pc.Done?
    ensures Holds(pc, Workloads)
  {}

  lemma StepLowersAhead(env: Env, t: nat, s: State, s': State, step: Step)
    requires t in s.tasks && t in s'.tasks && Next(env, s, s', step)
    requires if step.Run? then step.task == t else s'.tasks == s.tasks && Awaiting(s, t) && !Awaiting(s', t)
    ensures Ahead(s', t) < Ahead(s, t)
  {
    hide HandlerStep, ServerStep, Rank, Awaiting;
    if step.Run? {
      StepLowersRank(env, t, s.tasks[t].peer, s.sh, s.tasks[t].pc, step.choice, s'.sh, s'.tasks[t].pc);
      if Awaiting(s', t) {
        AwaitingRank(s', t);
      }
    } else {
      AwaitingRank(s, t);
    }
  }

  /** One step towards the end of a handler that is not blocked. */
  lemma Advance(env: Env, s: State, t: nat) returns (step: Step, s': State)
    requires Inv(env, s) && t in s.tasks && !s.tasks[t].pc.Done? && !Blocked(s.sh, s.tasks[t].pc)
    ensures Next(env, s, s', step) && NoFailure(s, step) && Inv(env, s')
    ensures s'.tasks.Keys == s.tasks.Keys && forall u :: u in s.tasks && u != t ==> s'.tasks[u] == s.tasks[u]
    ensures Ahead(s', t) < Ahead(s, t) && (s'.tasks[t].pc.Done? || !Blocked(s'.sh, s'.tasks[t].pc))
  {
    hide Next, Inv, Blocked, Ahead, NoFailure, Awaiting, LockInv, ProtocolData.DataInv, Holds;
    InvParts(env, s);
    step, s' := ProgressOf(env, s, t);
    StepIsSafe(env, s, s', step);
    StepLowersAhead(env, t, s, s', step);
    InvParts(env, s');
    if step.Serve? {
      AwaitingRank(s, t);
      HolderRuns(s', t);
    } else if !s'.tasks[t].pc.Done? {
      StaysUnblocked(env, t, s, s', step.choice);
    }
  }

  /** A handler that is not blocked can be run to its end, while all others stay where they are. */
  lemma {:induction false} Finish(env: Env, s: State, t: nat) returns (run: seq<State>, steps: seq<Step>)
    requires Inv(env, s) && t in s.tasks && (s.tasks[t].pc.Done? || !Blocked(s.sh, s.tasks[t].pc))
    ensures Continues(env, run, steps) && run[0] == s && |steps| <= Ahead(s, t)
    ensures var end := run[|run| - 1];
            && Inv(env, end) && end.tasks.Keys == s.tasks.Keys && end.tasks[t].pc.Done?
            && forall u :: u in s.tasks && u != t ==> end.tasks[u] == s.tasks[u]
    decreases Ahead(s, t)
  {
    hide Next, Inv, Blocked, Ahead, NoFailure;
    if s.tasks[t].pc.Done? {
      return [s], [];
    }
    var step, s' := Advance(env, s, t);
    var rest, more := Finish(env, s', t);
    Prepend(env, s, step, rest, more);
    run, steps := [s] + rest, [step] + more;
  }

  function Unfinished(s: State): set<nat> {
    set t | t in s.tasks && !s.tasks[t].pc.Done?
  }

  /** A run without failures that ends every handler, with at most 42 steps for each unfinished one. */
  ghost predicate Completes(env: Env, s: State, run: seq<State>, steps: seq<Step>) {
    && Continues(env, run, steps) && run[0] == s && |steps| <= STEPS_EACH * |Unfinished(s)|
    && var end := run[|run| - 1];
    end.tasks.Keys == s.tasks.Keys && forall t :: t in end.tasks ==> end.tasks[t].pc.Done?
  }

  lemma {:induction false} FinishAll(env: Env, s: State) returns (run: seq<State>, steps: seq<Step>)
    requires Inv(env, s)
    ensures Completes(env, s, run, steps)
    decreases |Unfinished(s)|
  {
    hide Next, NoFailure, Inv, Blocked, Ahead, Completes, Unfinished;
    if Unfinished(s) == {} {
      NobodyLeft(env, s);
      return [s], [];
    }
    var t :| t in Unfinished(s);
    var u := Runnable(env, s, t);
    var run1, steps1 := Finish(env, s, u);
    OneFewer(s, u, run1[|run1| - 1]);
    var run2, steps2 := FinishAll(env, run1[|run1| - 1]);
    Compose(env, s, run1, steps1, run2, steps2);
    run, steps := run1 + run2[1..], steps1 + steps2;
  }

  lemma Runnable(env: Env, s: State, t: nat) returns (u: nat)
    requires Inv(env, s) && t in Unfinished(s)
    ensures u in s.tasks && !s.tasks[u].pc.Done? && !Blocked(s.sh, s.tasks[u].pc)
  {
    hide Inv, Blocked, LockInv, ProtocolData.DataInv, ProtocolData.WorkloadsOk;
    InvParts(env, s);
    u := Unblocked(s, t);
  }

  lemma NobodyLeft(env: Env, s: State)
    requires Unfinished(s) == {}
    ensures Completes(env, s, [s], [])
  {
    assert forall t :: t in s.tasks ==> t !in Unfinished(s);
  }

  lemma OneFewer(s: State, u: nat, s': State)
    requires u in s.tasks && !s.tasks[u].pc.Done? && s'.tasks.Keys == s.tasks.Keys && s'.tasks[u].pc.Done?
    requires forall t :: t in s.tasks && t != u ==> s'.tasks[t] == s.tasks[t]
    ensures |Unfinished(s')| == |Unfinished(s)| - 1
  {
    assert Unfinished(s') == Unfinished(s) - {u};
  }

  lemma Compose(env: Env, s: State, run1: seq<State>, steps1: seq<Step>, run2: seq<State>, steps2: seq<Step>)
    requires Continues(env, run1, steps1) && run1[0] == s && |steps1| <= STEPS_EACH
    requires var mid := run1[|run1| - 1];
             && mid.tasks.Keys == s.tasks.Keys && |Unfinished(mid)| == |Unfinished(s)| - 1
             && Completes(env, mid, run2, steps2)
    ensures |run2| > 0 && Completes(env, s, run1 + run2[1..], steps1 + steps2)
  {
    hide Next, NoFailure, Unfinished;
    Chain(env, run1, steps1, run2, steps2);
  }

  /** Completion: from every reachable state some such run exists. */
  lemma AllHandlersCanFinish(env: Env, s: State)
    requires Reachable(env, s)
    ensures exists run, steps :: Completes(env, s, run, steps)
  {
    hide Reachable, Inv, Completes;
    ReachableIsSafe(env, s);
    var run, steps := FinishAll(env, s);
  }
}
