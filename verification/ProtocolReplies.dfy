/** Success replies and outcomes agree: a handler sends at most one, and only if it ends with those credentials. */
module ProtocolReplies {
  import opened Matcher
  import opened Wire
  import opened Server
  import opened Protocol

  function RepliesOf(log: seq<Delivery>, t: nat): seq<Delivery> {
    if log == [] then []
    else RepliesOf(log[..|log| - 1], t) + if log[|log| - 1].task == t then [log[|log| - 1]] else []
  }

  /** The replies a handler at this point has sent. */
  function Owed(t: nat, p: Peer, pc: Pc): seq<Delivery> {
    match pc
    case Unwinding(Delivered(name, creds, _)) => [Delivery(t, p, name, creds)]
    case Done(Delivered(name, creds, _)) => [Delivery(t, p, name, creds)]
    case _ => []
  }

  ghost predicate ReplyInv(s: State) {
    forall t: nat ::
      RepliesOf(s.sh.deliveries, t) == if t in s.tasks then Owed(t, s.tasks[t].peer, s.tasks[t].pc) else []
  }

  lemma {:induction false} RepliesAppend(log: seq<Delivery>, d: Delivery, t: nat)
    ensures RepliesOf(log + [d], t) == RepliesOf(log, t) + if d.task == t then [d] else []
  {
    assert (log + [d])[..|log|] == log;
  }

  lemma ClientReplies(env: Env, t: nat, p: Peer, sh: Shared, pc: Pc, ch: Choice, sh': Shared, pc': Pc)
    requires ClientStep(env, t, p, sh, pc, ch, sh', pc')
    ensures if Owed(t, p, pc') == Owed(t, p, pc) then sh'.deliveries == sh.deliveries
            else
              exists d: Delivery :: && d.task == t && sh'.deliveries == sh.deliveries + [d]
                                    && Owed(t, p, pc) == [] && Owed(t, p, pc') == [d]
  {
    hide IterationOrder, Select;
    if pc.Replying? && ch.ok {
      assert Owed(t, p, pc') == [Delivery(t, p, pc.name, pc.creds)];
    }
  }

  lemma CacheReplies(env: Env, t: nat, p: Peer, sh: Shared, pc: Pc, ch: Choice, sh': Shared, pc': Pc)
    requires CacheStep(env, t, sh, pc, ch, sh', pc')
    ensures sh'.deliveries == sh.deliveries && Owed(t, p, pc') == Owed(t, p, pc)
  {
    hide FreshAt;
  }

  lemma DialReplies(env: Env, t: nat, p: Peer, sh: Shared, pc: Pc, ch: Choice, sh': Shared, pc': Pc)
    requires DialStep(env, t, sh, pc, ch, sh', pc') || RebindStep(env, t, sh, pc, ch, sh', pc')
    ensures sh'.deliveries == sh.deliveries && Owed(t, p, pc') == Owed(t, p, pc)
  {
    hide RequestFor, MarkRebound;
  }

  lemma HandlerReplies(env: Env, t: nat, p: Peer, sh: Shared, pc: Pc, ch: Choice, sh': Shared, pc': Pc, u: nat)
    requires HandlerStep(env, t, p, sh, pc, ch, sh', pc')
    requires RepliesOf(sh.deliveries, t) == Owed(t, p, pc)
    ensures RepliesOf(sh'.deliveries, t) == Owed(t, p, pc')
    ensures u != t ==> RepliesOf(sh'.deliveries, u) == RepliesOf(sh.deliveries, u)
  {
    hide ClientStep, CacheStep, DialStep, RebindStep, Owed;
    if ClientStep(env, t, p, sh, pc, ch, sh', pc') {
      ClientReplies(env, t, p, sh, pc, ch, sh', pc');
      if Owed(t, p, pc') != Owed(t, p, pc) {
        var d: Delivery :| && d.task == t && sh'.deliveries == sh.deliveries + [d]
                           && Owed(t, p, pc) == [] && Owed(t, p, pc') == [d];
        RepliesAppend(sh.deliveries, d, t);
        RepliesAppend(sh.deliveries, d, u);
      }
    } else if CacheStep(env, t, sh, pc, ch, sh', pc') {
      CacheReplies(env, t, p, sh, pc, ch, sh', pc');
    } else {
      DialReplies(env, t, p, sh, pc, ch, sh', pc');
    }
  }

  lemma StepKeepsReplies(env: Env, s: State, s': State, step: Step)
    requires ReplyInv(s) && Next(env, s, s', step)
    ensures ReplyInv(s')
  {
    hide HandlerStep, ServerStep, Owed, RepliesOf;
    match step
    case Accept(t, peer, peerKnown) => NewTaskOwesNothing(t, peer, s'.tasks[t].pc);
    case Run(t, ch) =>
      forall u: nat
        ensures RepliesOf(s'.sh.deliveries, u) ==
                if u in s'.tasks then Owed(u, s'.tasks[u].peer, s'.tasks[u].pc) else []
      {
        HandlerReplies(env, t, s.tasks[t].peer, s.sh, s.tasks[t].pc, ch, s'.sh, s'.tasks[t].pc, u);
      }
    case Serve(conn, resp, delivered) => ServerKeepsReplies(env, s.sh, conn, resp, delivered, s'.sh);
    case Tick(ticks) =>
  }

  lemma NewTaskOwesNothing(t: nat, p: Peer, pc: Pc)
    requires pc.AwaitWorkloads? || pc == Done(Failed(PeerUnknown))
    ensures Owed(t, p, pc) == []
  {}

  lemma ServerKeepsReplies(env: Env, sh: Shared, conn: nat, resp: AgentResponse, delivered: bool, sh': Shared)
    requires ServerStep(env, sh, conn, resp, delivered, sh')
    ensures sh'.deliveries == sh.deliveries
  {
    hide Responds, PassesGate;
  }
}
