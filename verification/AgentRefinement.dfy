/** The agent's code is covered by the protocol's theorems: a handler's walk from a reachable state is part of a run. */
module AgentRefinement {
  import opened Protocol
  import opened ProtocolLocks
  import opened ProtocolPort
  import opened ProtocolData
  import opened ProtocolRate
  import opened ProtocolReplies
  import opened ProtocolSafety
  import opened AgentCode

  lemma ReachableNext(env: Env, s: State, s': State, step: Step)
    requires Reachable(env, s) && Next(env, s, s', step)
    ensures Reachable(env, s')
  {
    hide Init, Next;
    var run, steps :| IsRun(env, run, steps) && run[|run| - 1] == s;
    assert IsRun(env, run + [s'], steps + [step]);
    assert (run + [s'])[|run|] == s';
  }

  /** One move of a walk is one step of the system. */
  lemma MoveIsNext(env: Env, s: State, t: nat, b: (Shared, Pc)) returns (step: Step)
    requires t in s.tasks && Moves(env, t, s.tasks[t].peer, (s.sh, s.tasks[t].pc), b)
    ensures Next(env, s, State(b.0, s.tasks[t := Task(s.tasks[t].peer, b.1)]), step)
  {
    hide HandlerStep, ServerStep;
    var p, pc := s.tasks[t].peer, s.tasks[t].pc;
    var s' := State(b.0, s.tasks[t := Task(p, b.1)]);
    if ch :| HandlerStep(env, t, p, s.sh, pc, ch, b.0, b.1) {
      step := Run(t, ch);
    } else {
      assert s'.tasks == s.tasks;
      if conn, resp, delivered :| ServerStep(env, s.sh, conn, resp, delivered, b.0) {
        step := Serve(conn, resp, delivered);
      } else {
        step := Tick(b.0.now - s.sh.now);
      }
    }
  }

  lemma {:induction false} WalkReaches(env: Env, s: State, t: nat, walk: seq<(Shared, Pc)>)
    requires Reachable(env, s) && t in s.tasks && IsWalk(env, t, s.tasks[t].peer, walk)
    requires walk[0] == (s.sh, s.tasks[t].pc)
    ensures var end := walk[|walk| - 1];
            Reachable(env, State(end.0, s.tasks[t := Task(s.tasks[t].peer, end.1)]))
    decreases |walk|
  {
    hide Moves, Next, Reachable;
    var p := s.tasks[t].peer;
    if |walk| == 1 {
      assert s == State(walk[0].0, s.tasks[t := Task(p, walk[0].1)]);
    } else {
      assert Moves(env, t, p, walk[0], walk[1]);
      var step := MoveIsNext(env, s, t, walk[1]);
      var s' := State(walk[1].0, s.tasks[t := Task(p, walk[1].1)]);
      ReachableNext(env, s, s', step);
      forall i | 0 <= i < |walk[1..]| - 1 ensures Moves(env, t, p, walk[1..][i], walk[1..][i + 1]) {
        assert Moves(env, t, p, walk[i + 1], walk[i + 2]);
      }
      WalkReaches(env, s', t, walk[1..]);
      assert s'.tasks[t := Task(p, walk[|walk| - 1].1)] == s.tasks[t := Task(p, walk[|walk| - 1].1)];
    }
  }

  /**
   Whatever `HandleWorkloadConn` does for a new connection in a reachable state, the state it leaves is reachable; and
   credentials it delivered are a true, issued pair for a best-matching name of the peer.
   */
  lemma HandlerStaysReachable(env: Env, s: State, t: nat, p: Peer, sh': Shared, outcome: Outcome)
    requires Reachable(env, s) && t !in s.tasks
    requires Leads(env, t, p, (s.sh, AwaitWorkloads), (sh', Done(outcome)))
    ensures Reachable(env, State(sh', s.tasks[t := Task(p, Done(outcome))]))
    ensures outcome.Delivered? ==>
              && BestFor(sh'.workloads, p, outcome.name) && Sound(env, sh', outcome.name, outcome.creds)
              && WasIssued(env, sh', outcome.name, outcome.creds.certPem)
  {
    hide Reachable, Moves, BestFor, Sound, WasIssued, HandlerStep, ServerStep;
    var accepted := State(s.sh, s.tasks[t := Task(p, AwaitWorkloads)]);
    ReachableNext(env, s, accepted, Accept(t, p, true));
    var walk :| IsWalk(env, t, p, walk) && walk[0] == (s.sh, AwaitWorkloads)
      && walk[|walk| - 1] == (sh', Done(outcome));
    WalkReaches(env, accepted, t, walk);
    var end := State(sh', accepted.tasks[t := Task(p, Done(outcome))]);
    assert end.tasks == s.tasks[t := Task(p, Done(outcome))];
    ReachableIsSafe(env, end);
    hide LockInv, PortInv, RateInv, ReplyInv, SharedOk;
    assert DataOk(env, end.sh, p, end.tasks[t].pc);
  }
}
