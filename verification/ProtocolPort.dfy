/** Who owns the client port: the persistent listener, an on-demand dial, or nobody. */
module ProtocolPort {
  import opened Matcher
  import opened Wire
  import opened Server
  import opened Protocol
  import opened ProtocolLocks

  /** The handler has, or is binding, a socket on the client port: its dialled stream, or a listener not yet stored. */
  predicate OwnsPort(pc: Pc) {
    pc.Dialling? || pc.Sending? || pc.Receiving? || pc.Aborting? || pc.Closing? || pc.Rebinding? || pc.AwaitStore?
    || pc.Storing?
  }

  predicate LatestDialRebound(sh: Shared) {
    sh.dials == [] || sh.dials[|sh.dials| - 1].rebound
  }

  predicate PortOk(sh: Shared, pc: Pc) {
    match pc
    case AwaitDrop(_, _) => sh.listener <==> LatestDialRebound(sh)
    case Dropping(_, _) => sh.listener <==> LatestDialRebound(sh)
    case Dialling(_, _, _) => !sh.listener && !LatestDialRebound(sh)
    case Sending(_, _, _) => !sh.listener && !LatestDialRebound(sh)
    case Receiving(_, _, _) => !sh.listener && !LatestDialRebound(sh)
    case Aborting(_, why) => !sh.listener && !LatestDialRebound(sh) && (why.SendFailed? || why.ReceiveFailed?)
    case Closing(_, _, _, _) => !sh.listener && !LatestDialRebound(sh)
    case Rebinding(_, _, _, _) => !sh.listener && !LatestDialRebound(sh)
    case AwaitStore(_, _, _) => !sh.listener && LatestDialRebound(sh)
    case Storing(_, _, _) => !sh.listener && LatestDialRebound(sh)
    case Inspecting(_, _, _) => sh.listener && LatestDialRebound(sh)
    case LeavingDial(why) =>
      (sh.listener <==> LatestDialRebound(sh)) && (sh.listener <==> why.Rejected? || why.UnexpectedReply?)
    case _ => true
  }

  /** With the dial lock free, the listener is there exactly when no dial dropped it or the latest one rebound. */
  ghost predicate PortInv(s: State) {
    && PortSettled(s.sh)
    && forall t :: t in s.tasks ==> PortOk(s.sh, s.tasks[t].pc)
  }

  lemma MarkReboundLatest(dials: seq<DialRecord>)
    requires dials != []
    ensures MarkRebound(dials) != [] && MarkRebound(dials)[|MarkRebound(dials)| - 1].rebound
  {}

  /** What a step outside the dial lock does to the port: nothing. */
  predicate PortLeft(sh: Shared, pc: Pc, sh': Shared, pc': Pc) {
    && sh'.listener == sh.listener && sh'.dials == sh.dials && !Holds(pc, Dial)
    && if pc'.AwaitDrop? then Dial !in sh.locks else PortOk(sh', pc')
  }

  lemma ClientLeavesPort(env: Env, t: nat, p: Peer, sh: Shared, pc: Pc, ch: Choice, sh': Shared, pc': Pc)
    requires ClientStep(env, t, p, sh, pc, ch, sh', pc')
    ensures PortLeft(sh, pc, sh', pc')
  {
    hide IterationOrder, Select;
  }

  lemma CacheLeavesPort(env: Env, t: nat, sh: Shared, pc: Pc, ch: Choice, sh': Shared, pc': Pc)
    requires CacheStep(env, t, sh, pc, ch, sh', pc')
    ensures PortLeft(sh, pc, sh', pc')
  {
    hide FreshAt;
  }

  lemma DialKeepsPort(env: Env, t: nat, sh: Shared, pc: Pc, ch: Choice, sh': Shared, pc': Pc)
    requires DialStep(env, t, sh, pc, ch, sh', pc') && PortOk(sh, pc)
    ensures PortOk(sh', pc') && Holds(pc, Dial) && Holds(pc', Dial)
  {
    hide RequestFor;
  }

  lemma RebindKeepsPort(env: Env, t: nat, sh: Shared, pc: Pc, ch: Choice, sh': Shared, pc': Pc)
    requires RebindStep(env, t, sh, pc, ch, sh', pc') && PortOk(sh, pc)
    ensures PortOk(sh', pc') && Holds(pc, Dial)
    ensures !Holds(pc', Dial) ==> (sh'.listener <==> LatestDialRebound(sh'))
  {
    hide MarkRebound;
    if pc.Rebinding? {
      MarkReboundLatest(sh.dials);
    }
  }

  /** The port's part of the invariant that speaks of the shared state alone. */
  predicate PortSettled(sh: Shared) {
    Dial !in sh.locks ==> (sh.listener <==> LatestDialRebound(sh))
  }

  lemma LeftIsKept(sh: Shared, pc: Pc, sh': Shared, pc': Pc)
    requires PortLeft(sh, pc, sh', pc') && PortSettled(sh) && (Dial in sh.locks ==> Dial in sh'.locks)
    ensures PortOk(sh', pc') && PortSettled(sh') && !Holds(pc, Dial)
    ensures sh'.listener == sh.listener && sh'.dials == sh.dials
  {
    hide Holds;
  }

  lemma HandlerKeepsPort(env: Env, t: nat, p: Peer, sh: Shared, pc: Pc, ch: Choice, sh': Shared, pc': Pc)
    requires HandlerStep(env, t, p, sh, pc, ch, sh', pc')
    requires LockOk(sh, t, pc) && LockOk(sh', t, pc') && PortOk(sh, pc) && PortSettled(sh)
    ensures PortOk(sh', pc') && PortSettled(sh')
    ensures !Holds(pc, Dial) ==> sh'.listener == sh.listener && sh'.dials == sh.dials
  {
    hide ClientStep, CacheStep, DialStep, RebindStep, PortOk, PortLeft, Holds, LatestDialRebound;
    HandlerMovesLock(env, t, p, sh, pc, ch, sh', pc', Dial);
    assert HeldBy(sh, Dial, t) == Holds(pc, Dial) && HeldBy(sh', Dial, t) == Holds(pc', Dial);
    if DialStep(env, t, sh, pc, ch, sh', pc') {
      DialKeepsPort(env, t, sh, pc, ch, sh', pc');
    } else if RebindStep(env, t, sh, pc, ch, sh', pc') {
      RebindKeepsPort(env, t, sh, pc, ch, sh', pc');
    } else {
      if CacheStep(env, t, sh, pc, ch, sh', pc') {
        CacheLeavesPort(env, t, sh, pc, ch, sh', pc');
      } else {
        ClientLeavesPort(env, t, p, sh, pc, ch, sh', pc');
      }
      LeavesDialLock(sh, pc, sh', pc');
      LeftIsKept(sh, pc, sh', pc');
    }
  }

  lemma LeavesDialLock(sh: Shared, pc: Pc, sh': Shared, pc': Pc)
    requires PortLeft(sh, pc, sh', pc')
    ensures !Holds(pc, Dial)
  {
    hide Holds, PortOk;
  }

  lemma PortOkElsewhere(sh: Shared, pc: Pc)
    requires !Holds(pc, Dial)
    ensures PortOk(sh, pc)
  {}

  lemma StepKeepsPort(env: Env, s: State, s': State, step: Step)
    requires LockInv(s) && LockInv(s') && PortInv(s) && Next(env, s, s', step)
    ensures PortInv(s')
  {
    hide HandlerStep, ServerStep, Holds, LockOk, PortOk;
    match step
    case Accept(t, peer, peerKnown) =>
      NewTaskHoldsNoDial(s'.tasks[t].pc);
      PortOkElsewhere(s'.sh, s'.tasks[t].pc);
    case Run(t, ch) =>
      var pc, pc' := s.tasks[t].pc, s'.tasks[t].pc;
      HandlerKeepsPort(env, t, s.tasks[t].peer, s.sh, pc, ch, s'.sh, pc');
      forall u | u in s'.tasks ensures PortOk(s'.sh, s'.tasks[u].pc) {
        if u != t {
          OtherPortOk(s.sh, t, pc, u, s.tasks[u].pc, s'.sh);
        }
      }
    case Serve(conn, resp, delivered) =>
      ServerKeepsPort(env, s.sh, conn, resp, delivered, s'.sh);
      forall t | t in s'.tasks ensures PortOk(s'.sh, s'.tasks[t].pc) {
        SamePort(s.sh, s'.sh, s.tasks[t].pc);
      }
    case Tick(ticks) =>
      forall t | t in s'.tasks ensures PortOk(s'.sh, s'.tasks[t].pc) {
        SamePort(s.sh, s'.sh, s.tasks[t].pc);
      }
  }

  lemma NewTaskHoldsNoDial(pc: Pc)
    requires pc.AwaitWorkloads? || pc.Done?
    ensures !Holds(pc, Dial)
  {}

  lemma SamePort(sh: Shared, sh': Shared, pc: Pc)
    requires sh'.listener == sh.listener && sh'.dials == sh.dials && PortOk(sh, pc)
    ensures PortOk(sh', pc)
  {}

  lemma OtherPortOk(sh: Shared, t: nat, pc: Pc, u: nat, upc: Pc, sh': Shared)
    requires u != t && LockOk(sh, t, pc) && LockOk(sh, u, upc) && PortOk(sh, upc)
    requires !Holds(pc, Dial) ==> sh'.listener == sh.listener && sh'.dials == sh.dials
    ensures PortOk(sh', upc)
  {
    hide Holds, PortOk;
    assert HeldBy(sh, Dial, t) == Holds(pc, Dial) && HeldBy(sh, Dial, u) == Holds(upc, Dial);
    if Holds(pc, Dial) {
      PortOkElsewhere(sh', upc);
    } else {
      SamePort(sh, sh', upc);
    }
  }

  lemma ServerKeepsPort(env: Env, sh: Shared, conn: nat, resp: AgentResponse, delivered: bool, sh': Shared)
    requires ServerStep(env, sh, conn, resp, delivered, sh')
    ensures sh'.listener == sh.listener && sh'.dials == sh.dials && sh'.locks == sh.locks
  {
    hide Responds, PassesGate;
  }

  /** At most one owner of the port: two handlers never own it together, nor a handler while the listener is there. */
  lemma OneOwner(s: State, t: nat)
    requires LockInv(s) && PortInv(s) && t in s.tasks && OwnsPort(s.tasks[t].pc)
    ensures !s.sh.listener && HeldBy(s.sh, Dial, t)
    ensures forall u :: u in s.tasks && OwnsPort(s.tasks[u].pc) ==> u == t
  {
    forall u | u in s.tasks && OwnsPort(s.tasks[u].pc) ensures HeldBy(s.sh, Dial, u) {
      assert Holds(s.tasks[u].pc, Dial);
    }
  }
}
