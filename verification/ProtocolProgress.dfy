/** Deadlock freedom: while a handler is unfinished, some handler or the server can take a step that is no failure. */
module ProtocolProgress {
  import opened Wrappers
  import opened Matcher
  import opened Pki
  import opened Wire
  import opened Policy
  import opened Server
  import opened Protocol
  import opened ProtocolLocks
  import opened ProtocolData

  predicate Blocked(sh: Shared, pc: Pc) {
    Wants(pc).Some? && Wants(pc).value in sh.locks
  }

  /** A handler past the workloads lock is never blocked. */
  lemma HolderRuns(s: State, t: nat)
    requires LockInv(s) && t in s.tasks && Holds(s.tasks[t].pc, Workloads)
    ensures !s.tasks[t].pc.Done? && !Blocked(s.sh, s.tasks[t].pc)
  {
    hide Holds;
    if Blocked(s.sh, s.tasks[t].pc) {
      OthersAreFree(s, t, Wants(s.tasks[t].pc).value);
      HolderPastFirst(s.tasks[t].pc);
    }
    HolderPastFirst(s.tasks[t].pc);
  }

  lemma HolderPastFirst(pc: Pc)
    requires Holds(pc, Workloads)
    ensures !pc.AwaitWorkloads? && !pc.Done?
  {}

  /** Following the waits from any unfinished handler reaches one that is not blocked. */
  lemma Unblocked(s: State, t: nat) returns (u: nat)
    requires LockInv(s) && t in s.tasks && !s.tasks[t].pc.Done?
    ensures u in s.tasks && !s.tasks[u].pc.Done? && !Blocked(s.sh, s.tasks[u].pc)
    ensures u != t ==> WaitsFor(s, t, u)
  {
    hide Holds;
    if Blocked(s.sh, s.tasks[t].pc) {
      OthersAreFree(s, t, Wants(s.tasks[t].pc).value);
      u := s.sh.locks[Workloads];
      HolderRuns(s, u);
    } else {
      u := t;
    }
  }

  /** The handler's step when every call it makes succeeds and the client asks for a fetch. */
  ghost function Proceed(env: Env, t: nat, p: Peer, sh: Shared, pc: Pc, order: seq<string>): (Shared, Pc)
    requires pc.Matching? ==> IterationOrder(order, sh.workloads)
    requires pc.Receiving? ==> pc.conn in sh.links
  {
    match pc
    case AwaitWorkloads => (Acquire(sh, Workloads, t), Matching)
    case Matching =>
      (sh, match Select(order, sh.workloads, p.proc, p.accounts)
           case None => RefusingMatch
           case Some(name) => ReadingLine(name))
    case RefusingMatch => (sh, Unwinding(Refused))
    case ReadingLine(name) => (sh, ParsingLine(name, TypeIs("fetch")))
    case ParsingLine(name, line) =>
      (sh, if !line.TypeIs? then Unwinding(Failed(BadRequest))
           else if line.reqType != "fetch" then RefusingType(name)
           else AwaitCache(name))
    case RefusingType(name) => (sh, Unwinding(Refused))
    case AwaitCache(name) => (Acquire(sh, Cache, t), LookingUp(name))
    case LookingUp(name) =>
      if FreshAt(sh.cache, name, sh.now) then (Release(sh, Cache), Replying(name, sh.cache[name].creds, sh.now))
      else (sh, Generating(name))
    case Generating(name) => (sh.(nextKey := sh.nextKey + 1), AwaitDial(name, PrivateKey(sh.nextKey)))
    case AwaitDial(name, key) => (Acquire(sh, Dial, t), AwaitDrop(name, key))
    case AwaitDrop(name, key) => (Acquire(sh, Listener, t), Dropping(name, key))
    case Dropping(name, key) =>
      (Release(sh.(listener := false, dials := sh.dials + [DialRecord(t, false)]), Listener), Dialling(name, key, 0))
    case Dialling(name, key, _) =>
      (sh.(links := sh.links[sh.nextConn := Open], nextConn := sh.nextConn + 1), Sending(name, key, sh.nextConn))
    case Sending(name, key, conn) =>
      (if conn in sh.links && sh.links[conn].Open?
       then sh.(links := sh.links[conn := Requested(RequestFor(env, name, key))]) else sh,
       Receiving(name, key, conn))
    case Receiving(name, key, conn) =>
      (sh, if sh.links[conn].Answered? then Closing(name, key, conn, sh.links[conn].answer)
           else Aborting(conn, ReceiveFailed))
    case Aborting(_, why) => (sh, LeavingDial(why))
    case Closing(name, key, _, answer) => (sh, Rebinding(name, key, answer, 0))
    case Rebinding(name, key, answer, _) => (sh.(dials := MarkRebound(sh.dials)), AwaitStore(name, key, answer))
    case AwaitStore(name, key, answer) => (Acquire(sh, Listener, t), Storing(name, key, answer))
    case Storing(name, key, answer) => (Release(sh.(listener := true), Listener), Inspecting(name, key, answer))
    case Inspecting(name, key, answer) =>
      (match answer.response
       case CertOk(certPem, caCertPem) =>
         (Release(sh, Dial), Inserting(name, Credentials(certPem, key, caCertPem), answer.at))
       case Error(_) => (sh, LeavingDial(Rejected))
       case HandshakeOk(_) => (sh, LeavingDial(UnexpectedReply)))
    case LeavingDial(why) => (Release(sh, Dial), LeavingCache(why))
    case LeavingCache(why) => (Release(sh, Cache), Unwinding(Failed(why)))
    case Inserting(name, creds, signedAt) =>
      (Release(sh.(cache := sh.cache[name := Cached(creds, sh.now, signedAt)],
                   fetches := sh.fetches + [Fetch(name, creds.certPem, sh.now)]), Cache),
       Replying(name, creds, sh.now))
    case Replying(name, creds, servedAt) =>
      (sh.(deliveries := sh.deliveries + [Delivery(t, p, name, creds)]), Unwinding(Delivered(name, creds, servedAt)))
    case Unwinding(outcome) => (Release(sh, Workloads), Done(outcome))
    case Done(_) => (sh, pc)
  }

  /** The receive step can be taken: the answer has arrived or the peer has hung up. */
  predicate Arrived(sh: Shared, pc: Pc) {
    pc.Receiving? ==> pc.conn in sh.links && (sh.links[pc.conn].Answered? || sh.links[pc.conn].HungUp?)
  }

  function GoodChoice(sh: Shared, pc: Pc, order: seq<string>): Choice
    requires Arrived(sh, pc)
  {
    Choice(!(pc.Receiving? && sh.links[pc.conn].HungUp?), false, order, TypeIs("fetch"))
  }

  lemma ProceedIsStep(env: Env, t: nat, p: Peer, sh: Shared, pc: Pc, order: seq<string>)
    requires !pc.Done? && !Blocked(sh, pc) && Arrived(sh, pc)
    requires pc.Matching? ==> IterationOrder(order, sh.workloads)
    requires pc.Sending? ==> pc.conn in sh.links
    ensures var r := Proceed(env, t, p, sh, pc, order);
            HandlerStep(env, t, p, sh, pc, GoodChoice(sh, pc, order), r.0, r.1)
  {
    hide IterationOrder, Select, FreshAt, RequestFor, MarkRebound;
    var ch := GoodChoice(sh, pc, order);
    var r := Proceed(env, t, p, sh, pc, order);
    if Holds(pc, Dial) {
      if pc.Rebinding? || pc.AwaitStore? || pc.Storing? || pc.Inspecting? || pc.LeavingDial? {
        hide ClientStep, CacheStep, DialStep;
        assert RebindStep(env, t, sh, pc, ch, r.0, r.1);
      } else {
        hide ClientStep, CacheStep, RebindStep;
        assert DialStep(env, t, sh, pc, ch, r.0, r.1);
      }
    } else if Holds(pc, Cache) || pc.AwaitCache? {
      hide ClientStep, DialStep, RebindStep;
      assert CacheStep(env, t, sh, pc, ch, r.0, r.1);
    } else {
      hide CacheStep, DialStep, RebindStep;
      assert ClientStep(env, t, p, sh, pc, ch, r.0, r.1);
    }
  }

  /** The server has an answer to every certificate request. */
  lemma CertAnswerExists(host: Host, peerCid: u32, now: nat, req: AgentRequest) returns (resp: AgentResponse)
    requires req.CertRequest?
    ensures Answers(host, peerCid, now, req, resp)
  {
    if req.version != PROTOCOL_VERSION {
      return Error(UnsupportedVersion(req.version));
    }
    var decision := Resolve(host.config, req.vmName, req.identity);
    if decision.None? {
      return Error(NotAuthorised(req.vmName, req.identity));
    }
    var d := decision.value;
    if d.vmCid != peerCid {
      return Error(CidVerificationFailed);
    }
    var signing := SigningRequest(req.csrPem, req.identity, d.vmName, peerCid, d.ip, d.validitySeconds);
    var fault := SigningFault(host.ca, signing, host.parseIp);
    if fault.Some? {
      return Error(SigningFailed(fault.value));
    }
    var sans := [DnsName(req.identity)] + if d.ip.Some? then [IpAddress(host.parseIp(d.ip.value).value)] else [];
    resp := CertOk(Pem(Certificate(req.csrPem.value.subject, req.csrPem.value.publicKey, [DigitalSignature],
                                   [ServerAuth, ClientAuth], sans, now / TICKS, now / TICKS + d.validitySeconds,
                                   PublicHalf(host.ca.key))), host.ca.certPem);
  }

  /** A step in which no call fails: only a receive on a connection the server has dropped may report it. */
  predicate NoFailure(s: State, step: Step) {
    match step
    case Run(t, ch) =>
      t in s.tasks &&
      (ch.ok || (s.tasks[t].pc.Receiving? && s.tasks[t].pc.conn in s.sh.links
                 && s.sh.links[s.tasks[t].pc.conn].HungUp?))
    case Serve(_, _, delivered) => delivered
    case _ => false
  }

  /** The server's answer to a request that was sent in a frame. */
  lemma ResponseExists(env: Env, now: nat, req: AgentRequest) returns (resp: AgentResponse)
    requires req.CertRequest?
    ensures Responds(env.host, env.json, env.peerCid, now, req, resp)
  {
    hide Answers;
    resp := Error(BadFrame(FrameNotJson));
    if |env.json.encodeRequest(req)| <= Codec.MAX_MSG_BYTES {
      resp := CertAnswerExists(env.host, env.peerCid, now, req);
    }
  }

  /** A handler that is not blocked can take a step in which nothing fails, or the server one on its behalf. */
  lemma ProgressOf(env: Env, s: State, u: nat) returns (step: Step, s': State)
    requires DataInv(env, s) && u in s.tasks && !s.tasks[u].pc.Done? && !Blocked(s.sh, s.tasks[u].pc)
    ensures Next(env, s, s', step) && NoFailure(s, step)
    ensures s'.tasks.Keys == s.tasks.Keys && forall v :: v in s.tasks && v != u ==> s'.tasks[v] == s.tasks[v]
    ensures if step.Run? then step.task == u
            else step.Serve? && s'.tasks == s.tasks && Awaiting(s, u) && !Awaiting(s', u)
  {
    hide HandlerStep, Proceed, Holds, SharedOk, BestFor, Responds, GoodAnswer;
    var pc, p := s.tasks[u].pc, s.tasks[u].peer;
    assert DataOk(env, s.sh, p, pc);
    if Awaiting(s, u) {
      var resp := ResponseExists(env, s.sh.now, s.sh.links[pc.conn].req);
      step := Serve(pc.conn, resp, true);
      s' := ServeNow(env, s, pc.conn, resp);
    } else {
      var order: seq<string> := [];
      if pc.Matching? {
        order := Enumerate(s.sh.workloads.Keys);
      }
      ProceedIsStep(env, u, p, s.sh, pc, order);
      var r := Proceed(env, u, p, s.sh, pc, order);
      step := Run(u, GoodChoice(s.sh, pc, order));
      s' := State(r.0, s.tasks[u := Task(p, r.1)]);
    }
  }

  /** The handler waits for the server to answer. */
  predicate Awaiting(s: State, t: nat) {
    t in s.tasks && s.tasks[t].pc.Receiving? && s.tasks[t].pc.conn in s.sh.links
    && s.sh.links[s.tasks[t].pc.conn].Requested?
  }

  lemma GateIsPassed(env: Env, sh: Shared)
    requires SharedOk(env, sh)
    ensures PassesGate(env.host.config, env.clientPort)
  {
    SharedHasWorkloads(env, sh);
    hide SharedOk, HandshakeMap, SelectorsParse, PassesGate;
  }

  lemma ServeNow(env: Env, s: State, conn: nat, resp: AgentResponse) returns (s': State)
    requires SharedOk(env, s.sh) && conn in s.sh.links && s.sh.links[conn].Requested?
    requires Responds(env.host, env.json, env.peerCid, s.sh.now, s.sh.links[conn].req, resp)
    ensures Next(env, s, s', Serve(conn, resp, true))
    ensures s'.tasks == s.tasks && conn in s'.sh.links && s'.sh.links[conn].Answered?
  {
    GateIsPassed(env, s.sh);
    hide Responds, HandlerStep, SharedOk, PassesGate;
    var req := s.sh.links[conn].req;
    s' := s.(sh := s.sh.(links := s.sh.links[conn := Answered(Answer(resp, s.sh.now))],
                         issued := s.sh.issued + if resp.CertOk? && req.CertRequest?
                                                 then [Issuance(req.vmName, req.identity, resp.certPem, s.sh.now)]
                                                 else []));
  }

  /** No deadlock: an unfinished handler means some handler or the server can take a step in which nothing fails. */
  lemma Progress(env: Env, s: State, t: nat) returns (step: Step, s': State)
    requires LockInv(s) && DataInv(env, s) && t in s.tasks && !s.tasks[t].pc.Done?
    ensures Next(env, s, s', step) && NoFailure(s, step)
  {
    hide Next, LockInv, DataInv, NoFailure, Blocked;
    var u := Unblocked(s, t);
    step, s' := ProgressOf(env, s, u);
  }
}
