/** Locks of the protocol: who holds what at which point, the lock order, and that handlers always get on. */
module ProtocolLocks {
  import opened Wrappers
  import opened Matcher
  import opened Wire
  import opened Server
  import opened Protocol

  predicate Holds(pc: Pc, lock: Lock) {
    match lock
    case Workloads => !pc.AwaitWorkloads? && !pc.Done?
    case Cache =>
      !pc.AwaitWorkloads? && !pc.Matching? && !pc.RefusingMatch? && !pc.ReadingLine? && !pc.ParsingLine?
      && !pc.RefusingType? && !pc.AwaitCache? && !pc.Replying? && !pc.Unwinding? && !pc.Done?
    case Dial =>
      pc.AwaitDrop? || pc.Dropping? || pc.Dialling? || pc.Sending? || pc.Receiving? || pc.Aborting? || pc.Closing?
      || pc.Rebinding? || pc.AwaitStore? || pc.Storing? || pc.Inspecting? || pc.LeavingDial?
    case Listener => pc.Dropping? || pc.Storing?
  }

  /** The lock a handler is waiting for, if that is what it is doing. */
  function Wants(pc: Pc): Option<Lock> {
    match pc
    case AwaitWorkloads => Some(Workloads)
    case AwaitCache(_) => Some(Cache)
    case AwaitDial(_, _) => Some(Dial)
    case AwaitDrop(_, _) => Some(Listener)
    case AwaitStore(_, _, _) => Some(Listener)
    case _ => None
  }

  function Level(lock: Lock): nat {
    match lock
    case Workloads => 0
    case Cache => 1
    case Dial => 2
    case Listener => 3
  }

  ghost predicate LockOk(sh: Shared, t: nat, pc: Pc) {
    forall lock :: HeldBy(sh, lock, t) <==> Holds(pc, lock)
  }

  /** Every lock is held by the one handler whose program point says so, and by nobody else. */
  ghost predicate LockInv(s: State) {
    && (forall t :: t in s.tasks ==> LockOk(s.sh, t, s.tasks[t].pc))
    && (forall lock :: lock in s.sh.locks ==> s.sh.locks[lock] in s.tasks)
  }

  // ---- Preservation ----

  /** What a step may do to one lock: exactly what the two program points say about it. */
  ghost predicate LockMove(t: nat, sh: Shared, pc: Pc, sh': Shared, pc': Pc, lock: Lock) {
    if Holds(pc, lock) == Holds(pc', lock) then
      (lock in sh'.locks <==> lock in sh.locks) && (lock in sh.locks ==> sh'.locks[lock] == sh.locks[lock])
    else if Holds(pc, lock) then lock !in sh'.locks
    else lock !in sh.locks && HeldBy(sh', lock, t)
  }

  lemma ClientMovesLock(env: Env, t: nat, p: Peer, sh: Shared, pc: Pc, ch: Choice, sh': Shared, pc': Pc, lock: Lock)
    requires ClientStep(env, t, p, sh, pc, ch, sh', pc')
    ensures LockMove(t, sh, pc, sh', pc', lock)
  {
    hide IterationOrder, Select;
  }

  lemma CacheMovesLock(env: Env, t: nat, sh: Shared, pc: Pc, ch: Choice, sh': Shared, pc': Pc, lock: Lock)
    requires CacheStep(env, t, sh, pc, ch, sh', pc')
    ensures LockMove(t, sh, pc, sh', pc', lock)
  {
    hide FreshAt;
  }

  lemma DialMovesLock(env: Env, t: nat, sh: Shared, pc: Pc, ch: Choice, sh': Shared, pc': Pc, lock: Lock)
    requires DialStep(env, t, sh, pc, ch, sh', pc')
    ensures LockMove(t, sh, pc, sh', pc', lock)
  {
    hide RequestFor;
  }

  lemma RebindMovesLock(env: Env, t: nat, sh: Shared, pc: Pc, ch: Choice, sh': Shared, pc': Pc, lock: Lock)
    requires RebindStep(env, t, sh, pc, ch, sh', pc')
    ensures LockMove(t, sh, pc, sh', pc', lock)
  {
    hide MarkRebound;
  }

  lemma HandlerMovesLock(env: Env, t: nat, p: Peer, sh: Shared, pc: Pc, ch: Choice, sh': Shared, pc': Pc, lock: Lock)
    requires HandlerStep(env, t, p, sh, pc, ch, sh', pc')
    ensures LockMove(t, sh, pc, sh', pc', lock)
  {
    hide ClientStep, CacheStep, DialStep, RebindStep, LockMove;
    if ClientStep(env, t, p, sh, pc, ch, sh', pc') { ClientMovesLock(env, t, p, sh, pc, ch, sh', pc', lock); }
    if CacheStep(env, t, sh, pc, ch, sh', pc') { CacheMovesLock(env, t, sh, pc, ch, sh', pc', lock); }
    if DialStep(env, t, sh, pc, ch, sh', pc') { DialMovesLock(env, t, sh, pc, ch, sh', pc', lock); }
    if RebindStep(env, t, sh, pc, ch, sh', pc') { RebindMovesLock(env, t, sh, pc, ch, sh', pc', lock); }
  }

  lemma HandlerKeepsLocks(env: Env, t: nat, p: Peer, sh: Shared, pc: Pc, ch: Choice, sh': Shared, pc': Pc)
    requires HandlerStep(env, t, p, sh, pc, ch, sh', pc') && LockOk(sh, t, pc)
    ensures LockOk(sh', t, pc')
    ensures forall lock, u :: u != t ==> (HeldBy(sh', lock, u) <==> HeldBy(sh, lock, u))
  {
    hide HandlerStep, Holds;
    forall lock ensures HeldBy(sh', lock, t) <==> Holds(pc', lock) {
      HandlerMovesLock(env, t, p, sh, pc, ch, sh', pc', lock);
      assert HeldBy(sh, lock, t) <==> Holds(pc, lock);
    }
    forall lock, u | u != t ensures HeldBy(sh', lock, u) <==> HeldBy(sh, lock, u) {
      HandlerMovesLock(env, t, p, sh, pc, ch, sh', pc', lock);
      assert HeldBy(sh, lock, t) <==> Holds(pc, lock);
    }
  }

  lemma StepKeepsLocks(env: Env, s: State, s': State, step: Step)
    requires LockInv(s) && Next(env, s, s', step)
    ensures LockInv(s')
  {
    hide HandlerStep, ServerStep, Holds;
    match step
    case Accept(t, peer, peerKnown) =>
      FreshTaskHoldsNothing(s, t, if peerKnown then AwaitWorkloads else Done(Failed(PeerUnknown)));
    case Run(t, ch) =>
      HandlerKeepsLocks(env, t, s.tasks[t].peer, s.sh, s.tasks[t].pc, ch, s'.sh, s'.tasks[t].pc);
      forall u | u in s'.tasks ensures LockOk(s'.sh, u, s'.tasks[u].pc) {}
      forall lock | lock in s'.sh.locks ensures s'.sh.locks[lock] in s'.tasks {
        var u := s'.sh.locks[lock];
        if u != t {
          assert HeldBy(s'.sh, lock, u);
          assert HeldBy(s.sh, lock, u);
        }
      }
    case Serve(conn, resp, delivered) =>
      ServerKeepsLocks(env, s.sh, conn, resp, delivered, s'.sh);
      forall t | t in s'.tasks ensures LockOk(s'.sh, t, s'.tasks[t].pc) {
        assert forall lock :: HeldBy(s'.sh, lock, t) == HeldBy(s.sh, lock, t);
      }
    case Tick(ticks) =>
      forall t | t in s'.tasks ensures LockOk(s'.sh, t, s'.tasks[t].pc) {
        assert forall lock :: HeldBy(s'.sh, lock, t) == HeldBy(s.sh, lock, t);
      }
  }

  lemma FreshTaskHoldsNothing(s: State, t: nat, pc: Pc)
    requires LockInv(s) && t !in s.tasks && (pc.AwaitWorkloads? || pc.Done?)
    ensures LockOk(s.sh, t, pc)
  {}

  lemma ServerKeepsLocks(env: Env, sh: Shared, conn: nat, resp: AgentResponse, delivered: bool, sh': Shared)
    requires ServerStep(env, sh, conn, resp, delivered, sh')
    ensures sh'.locks == sh.locks
  {
    hide Responds, PassesGate;
  }

  // ---- Lock order and the wait-for graph ----

  /** A handler only ever waits for a lock above all it holds: workloads, cache, dial, listener. */
  lemma LockOrder(pc: Pc, held: Lock)
    requires Wants(pc).Some? && Holds(pc, held)
    ensures Level(held) < Level(Wants(pc).value)
  {}

  ghost predicate WaitsFor(s: State, t: nat, u: nat) {
    && t in s.tasks && u in s.tasks && Wants(s.tasks[t].pc).Some?
    && HeldBy(s.sh, Wants(s.tasks[t].pc).value, u)
  }

  ghost predicate WaitChain(s: State, ts: seq<nat>) {
    forall i :: 0 <= i < |ts| - 1 ==> WaitsFor(s, ts[i], ts[i + 1])
  }

  /** Handlers are serialised: at most one is past the workloads lock at any time. */
  lemma Serialised(s: State, t: nat, u: nat)
    requires LockInv(s) && t in s.tasks && u in s.tasks
    requires Holds(s.tasks[t].pc, Workloads) && Holds(s.tasks[u].pc, Workloads)
    ensures t == u
  {
    assert HeldBy(s.sh, Workloads, t) && HeldBy(s.sh, Workloads, u);
  }

  /** Only the workloads lock is ever contended: whoever waits for another one finds it free. */
  lemma OthersAreFree(s: State, t: nat, lock: Lock)
    requires LockInv(s) && t in s.tasks && Wants(s.tasks[t].pc) == Some(lock) && lock in s.sh.locks
    ensures lock == Workloads && s.tasks[t].pc.AwaitWorkloads?
    ensures var u := s.sh.locks[lock];
            u in s.tasks && u != t && Holds(s.tasks[u].pc, Workloads) && !s.tasks[u].pc.AwaitWorkloads?
  {
    var u := s.sh.locks[lock];
    assert HeldBy(s.sh, lock, u);
    assert Holds(s.tasks[u].pc, lock);
    if lock != Workloads {
      Serialised(s, t, u);
      LockOrder(s.tasks[t].pc, lock);
    }
  }

  /** A handler that is waited for waits for nobody: no cycle of waits, and no chain of more than one link. */
  lemma NoWaitCycle(s: State, ts: seq<nat>)
    requires LockInv(s) && WaitChain(s, ts) && |ts| > 1
    ensures |ts| == 2 && ts[0] != ts[1]
  {
    hide Holds;
    assert WaitsFor(s, ts[0], ts[1]);
    OthersAreFree(s, ts[0], Wants(s.tasks[ts[0]].pc).value);
    if |ts| > 2 {
      assert WaitsFor(s, ts[1], ts[2]);
      OthersAreFree(s, ts[1], Wants(s.tasks[ts[1]].pc).value);
    }
  }

  // ---- Bounded work ----

  function Remaining(attempts: nat, limit: nat): nat {
    if attempts < limit then limit - attempts else 0
  }

  const MAX_STEPS := 41

  /** An upper bound on the steps a handler still takes. */
  function Rank(pc: Pc): (r: nat)
    ensures r <= MAX_STEPS && (r == 0 <==> pc.Done?)
  {
    match pc
    case AwaitWorkloads => 41
    case Matching => 40
    case ReadingLine(_) => 39
    case ParsingLine(_, _) => 38
    case AwaitCache(_) => 37
    case LookingUp(_) => 36
    case Generating(_) => 35
    case AwaitDial(_, _) => 34
    case AwaitDrop(_, _) => 33
    case Dropping(_, _) => 32
    case Dialling(_, _, attempts) => 21 + Remaining(attempts, DIAL_RETRIES)
    case Sending(_, _, _) => 20
    case Receiving(_, _, _) => 19
    case Closing(_, _, _, _) => 18
    case Rebinding(_, _, _, attempts) => 7 + Remaining(attempts, REBIND_RETRIES)
    case AwaitStore(_, _, _) => 6
    case Storing(_, _, _) => 5
    case Inspecting(_, _, _) => 4
    case Aborting(_, _) => 4
    case LeavingDial(_) => 3
    case Inserting(_, _, _) => 3
    case LeavingCache(_) => 2
    case Replying(_, _, _) => 2
    case RefusingMatch => 2
    case RefusingType(_) => 2
    case Unwinding(_) => 1
    case Done(_) => 0
  }

  lemma ClientLowersRank(env: Env, t: nat, p: Peer, sh: Shared, pc: Pc, ch: Choice, sh': Shared, pc': Pc)
    requires ClientStep(env, t, p, sh, pc, ch, sh', pc')
    ensures Rank(pc') < Rank(pc)
  {
    hide IterationOrder, Select;
  }

  lemma CacheLowersRank(env: Env, t: nat, sh: Shared, pc: Pc, ch: Choice, sh': Shared, pc': Pc)
    requires CacheStep(env, t, sh, pc, ch, sh', pc')
    ensures Rank(pc') < Rank(pc)
  {
    hide FreshAt;
  }

  lemma DialLowersRank(env: Env, t: nat, sh: Shared, pc: Pc, ch: Choice, sh': Shared, pc': Pc)
    requires DialStep(env, t, sh, pc, ch, sh', pc')
    ensures Rank(pc') < Rank(pc)
  {
    hide RequestFor;
  }

  lemma RebindLowersRank(env: Env, t: nat, sh: Shared, pc: Pc, ch: Choice, sh': Shared, pc': Pc)
    requires RebindStep(env, t, sh, pc, ch, sh', pc')
    ensures Rank(pc') < Rank(pc)
  {
    hide MarkRebound;
  }

  /** Every step of a handler, failing ones and retries included, brings its end nearer. */
  lemma StepLowersRank(env: Env, t: nat, p: Peer, sh: Shared, pc: Pc, ch: Choice, sh': Shared, pc': Pc)
    requires HandlerStep(env, t, p, sh, pc, ch, sh', pc')
    ensures Rank(pc') < Rank(pc)
  {
    hide ClientStep, CacheStep, DialStep, RebindStep, Rank;
    if ClientStep(env, t, p, sh, pc, ch, sh', pc') { ClientLowersRank(env, t, p, sh, pc, ch, sh', pc'); }
    if CacheStep(env, t, sh, pc, ch, sh', pc') { CacheLowersRank(env, t, sh, pc, ch, sh', pc'); }
    if DialStep(env, t, sh, pc, ch, sh', pc') { DialLowersRank(env, t, sh, pc, ch, sh', pc'); }
    if RebindStep(env, t, sh, pc, ch, sh', pc') { RebindLowersRank(env, t, sh, pc, ch, sh', pc'); }
  }

  function StepsOf(steps: seq<Step>, t: nat): nat {
    if steps == [] then 0
    else StepsOf(steps[..|steps| - 1], t) + if steps[|steps| - 1].Run? && steps[|steps| - 1].task == t then 1 else 0
  }

  function RankIn(s: State, t: nat): nat {
    if t in s.tasks then Rank(s.tasks[t].pc) else MAX_STEPS
  }

  /** In every run, each handler takes at most 41 steps of its own, retries and early exits included. */
  lemma {:induction false} BoundedWork(env: Env, run: seq<State>, steps: seq<Step>, t: nat)
    requires IsRun(env, run, steps)
    ensures StepsOf(steps, t) + RankIn(run[|run| - 1], t) <= MAX_STEPS
  {
    hide HandlerStep, ServerStep, Init, Rank;
    if steps != [] {
      var n := |steps| - 1;
      assert IsRun(env, run[..n + 1], steps[..n]);
      BoundedWork(env, run[..n + 1], steps[..n], t);
      var s, s' := run[n], run[n + 1];
      assert Next(env, s, s', steps[n]);
      if steps[n].Run? && steps[n].task == t {
        StepLowersRank(env, t, s.tasks[t].peer, s.sh, s.tasks[t].pc, steps[n].choice, s'.sh, s'.tasks[t].pc);
      }
    }
  }
}
