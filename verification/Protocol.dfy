/**
 The running system as steps: any number of handlers of workload connections share the agent's state, one server
 answers their requests, and time passes. Every lock acquisition, every call that may fail and every early exit of
 a handler is a step of its own. Line numbers in the comments are those of the agent's client.rs.
 */
module Protocol {
  import opened Wrappers
  import opened Selectors
  import opened Matcher
  import opened Pki
  import opened Wire
  import opened Server

  /** What is fixed for a run: the server, the message texts, and the guest's place in it. */
  datatype Env = Env(host: Host, json: Json, vmName: string, peerCid: u32, clientPort: u32)

  /** The peer of one connection: what the agent learns of it, and the account databases as its match finds them. */
  datatype Peer = Peer(proc: Process, accounts: Accounts)

  /** A name no entry matching this peer outscores. */
  ghost predicate BestFor(workloads: map<string, WorkloadConfig>, peer: Peer, name: string) {
    Winner(workloads, peer.proc, peer.accounts, name)
  }

  datatype Credentials = Credentials(certPem: Pem<Certificate>, keyPem: PrivateKey, caCertPem: Pem<Certificate>)

  /** A cache entry. `signedAt` is history: when the server made the certificate. */
  datatype Cached = Cached(creds: Credentials, fetchedAt: nat, signedAt: nat)

  datatype Line = EndOfStream | NotJson | TypeIs(reqType: string)

  /** A reply and, as history, the time the server made it. */
  datatype Answer = Answer(response: AgentResponse, at: nat)

  /** One dialled connection as the two ends have left it. */
  datatype Link = Open | Requested(req: AgentRequest) | Answered(answer: Answer) | HungUp

  datatype Failure =
    | PeerUnknown | ReadFailed | BadRequest | ReplyFailed | CsrFailed | DialFailed
    | SendFailed | ReceiveFailed | RebindFailed | Rejected | UnexpectedReply

  datatype Outcome =
    | Refused
    | Closed
    | Failed(why: Failure)
    | Delivered(name: string, creds: Credentials, servedAt: nat)

  /** Where a handler is. Constructors named Await... wait for a lock; Leaving... and Unwinding drop a guard. */
  datatype Pc =
    | AwaitWorkloads                                                          // 332
    | Matching                                                                // 333-340
    | RefusingMatch                                                           // 347-352
    | ReadingLine(name: string)                                               // 358-363
    | ParsingLine(name: string, line: Line)                                   // 365-366
    | RefusingType(name: string)                                              // 367-372
    | AwaitCache(name: string)                                                // 491
    | LookingUp(name: string)                                                 // 493-503
    | Generating(name: string)                                                // 527
    | AwaitDial(name: string, key: PrivateKey)                                // 536
    | AwaitDrop(name: string, key: PrivateKey)                                // 537, lock
    | Dropping(name: string, key: PrivateKey)                                 // 537, store
    | Dialling(name: string, key: PrivateKey, attempts: nat)                  // 539
    | Sending(name: string, key: PrivateKey, conn: nat)                       // 548
    | Receiving(name: string, key: PrivateKey, conn: nat)                     // 552
    | Aborting(conn: nat, why: Failure)                                       // stream dropped on the way out
    | Closing(name: string, key: PrivateKey, conn: nat, answer: Answer)       // 557
    | Rebinding(name: string, key: PrivateKey, answer: Answer, attempts: nat) // 561-574
    | AwaitStore(name: string, key: PrivateKey, answer: Answer)               // 575, lock
    | Storing(name: string, key: PrivateKey, answer: Answer)                  // 575, store
    | Inspecting(name: string, key: PrivateKey, answer: Answer)               // 577-596
    | LeavingDial(why: Failure)                                               // dial guard dropped on error
    | LeavingCache(why: Failure)                                              // cache guard dropped on error
    | Inserting(name: string, creds: Credentials, signedAt: nat)              // 506-516
    | Replying(name: string, creds: Credentials, servedAt: nat)               // 377-384
    | Unwinding(outcome: Outcome)                                             // workloads guard dropped
    | Done(result: Outcome)

  datatype Lock = Workloads | Cache | Dial | Listener

  // History records.
  datatype Issuance = Issuance(vmName: string, identity: string, certPem: Pem<Certificate>, at: nat)
  datatype Delivery = Delivery(task: nat, peer: Peer, name: string, creds: Credentials)
  datatype Fetch = Fetch(name: string, certPem: Pem<Certificate>, at: nat)
  datatype DialRecord = DialRecord(task: nat, rebound: bool)

  /** Everything the handlers share: the agent's state, the connections, fresh-value counters, and history. */
  datatype Shared = Shared(
    now: nat,
    workloads: map<string, WorkloadConfig>, cache: map<string, Cached>, listener: bool,
    locks: map<Lock, nat>,
    links: map<nat, Link>, nextConn: nat, nextKey: nat,
    issued: seq<Issuance>, deliveries: seq<Delivery>, fetches: seq<Fetch>, dials: seq<DialRecord>)

  datatype Task = Task(peer: Peer, pc: Pc)

  datatype State = State(sh: Shared, tasks: map<nat, Task>)

  /** The outside world's part in a handler's step. */
  datatype Choice = Choice(ok: bool, portBusy: bool, order: seq<string>, line: Line)

  datatype Step =
    | Accept(task: nat, peer: Peer, peerKnown: bool)
    | Run(task: nat, choice: Choice)
    | Serve(conn: nat, response: AgentResponse, delivered: bool)
    | Tick(ticks: nat)

  const REBIND_RETRIES := 10
  const DIAL_RETRIES := 10

  predicate HeldBy(sh: Shared, lock: Lock, t: nat) {
    lock in sh.locks && sh.locks[lock] == t
  }

  function Acquire(sh: Shared, lock: Lock, t: nat): Shared {
    sh.(locks := sh.locks[lock := t])
  }

  function Release(sh: Shared, lock: Lock): Shared {
    sh.(locks := sh.locks - {lock})
  }

  /** Half the certificate's lifetime in whole seconds, in ticks. */
  function Threshold(certPem: Pem<Certificate>): nat {
    ValidityOrDefault(certPem) / 2 * TICKS
  }

  predicate FreshAt(cache: map<string, Cached>, name: string, now: nat) {
    name in cache && now - cache[name].fetchedAt < Threshold(cache[name].creds.certPem)
  }

  function RequestFor(env: Env, name: string, key: PrivateKey): AgentRequest {
    CertRequest(PROTOCOL_VERSION, env.vmName, name, Pem(AgentCsr(name, key)))
  }

  function MarkRebound(dials: seq<DialRecord>): seq<DialRecord> {
    if dials == [] then [] else dials[|dials| - 1 := dials[|dials| - 1].(rebound := true)]
  }

  /** Steps outside the cache lock: attestation, the client's line, the reply, and dropping the workloads guard. */
  ghost predicate ClientStep(env: Env, t: nat, p: Peer, sh: Shared, pc: Pc, ch: Choice, sh': Shared, pc': Pc) {
    match pc
    case AwaitWorkloads => Workloads !in sh.locks && sh' == Acquire(sh, Workloads, t) && pc' == Matching
    case Matching =>
      && sh' == sh && IterationOrder(ch.order, sh.workloads)
      && pc' == (match Select(ch.order, sh.workloads, p.proc, p.accounts)
                 case None => RefusingMatch
                 case Some(name) => ReadingLine(name))
    case RefusingMatch => sh' == sh && pc' == Unwinding(if ch.ok then Refused else Failed(ReplyFailed))
    case ReadingLine(name) =>
      && sh' == sh
      && pc' == if !ch.ok then Unwinding(Failed(ReadFailed))
                else if ch.line.EndOfStream? then Unwinding(Closed)
                else ParsingLine(name, ch.line)
    case ParsingLine(name, line) =>
      && sh' == sh
      && pc' == if !line.TypeIs? then Unwinding(Failed(BadRequest))
                else if line.reqType != "fetch" then RefusingType(name)
                else AwaitCache(name)
    case RefusingType(name) => sh' == sh && pc' == Unwinding(if ch.ok then Refused else Failed(ReplyFailed))
    case Replying(name, creds, servedAt) =>
      if ch.ok then
        && sh' == sh.(deliveries := sh.deliveries + [Delivery(t, p, name, creds)])
        && pc' == Unwinding(Delivered(name, creds, servedAt))
      else sh' == sh && pc' == Unwinding(Failed(ReplyFailed))
    case Unwinding(outcome) => sh' == Release(sh, Workloads) && pc' == Done(outcome)
    case _ => false
  }

  /** Steps around the cache: lookup, key generation, taking the dial lock, insertion, dropping the cache guard. */
  ghost predicate CacheStep(env: Env, t: nat, sh: Shared, pc: Pc, ch: Choice, sh': Shared, pc': Pc) {
    match pc
    case AwaitCache(name) => Cache !in sh.locks && sh' == Acquire(sh, Cache, t) && pc' == LookingUp(name)
    case LookingUp(name) =>
      if FreshAt(sh.cache, name, sh.now)
      then sh' == Release(sh, Cache) && pc' == Replying(name, sh.cache[name].creds, sh.now)
      else sh' == sh && pc' == Generating(name)
    case Generating(name) =>
      if ch.ok then sh' == sh.(nextKey := sh.nextKey + 1) && pc' == AwaitDial(name, PrivateKey(sh.nextKey))
      else sh' == sh && pc' == LeavingCache(CsrFailed)
    case AwaitDial(name, key) => Dial !in sh.locks && sh' == Acquire(sh, Dial, t) && pc' == AwaitDrop(name, key)
    case Inserting(name, creds, signedAt) =>
      && sh' == Release(sh.(cache := sh.cache[name := Cached(creds, sh.now, signedAt)],
                            fetches := sh.fetches + [Fetch(name, creds.certPem, sh.now)]), Cache)
      && pc' == Replying(name, creds, sh.now)
    case LeavingCache(why) => sh' == Release(sh, Cache) && pc' == Unwinding(Failed(why))
    case _ => false
  }

  /** Steps of the dial: dropping the listener, connecting, sending, receiving, closing the stream. */
  ghost predicate DialStep(env: Env, t: nat, sh: Shared, pc: Pc, ch: Choice, sh': Shared, pc': Pc) {
    match pc
    case AwaitDrop(name, key) => Listener !in sh.locks && sh' == Acquire(sh, Listener, t) && pc' == Dropping(name, key)
    case Dropping(name, key) =>
      && sh' == Release(sh.(listener := false, dials := sh.dials + [DialRecord(t, false)]), Listener)
      && pc' == Dialling(name, key, 0)
    case Dialling(name, key, attempts) =>
      if ch.ok then
        && sh' == sh.(links := sh.links[sh.nextConn := Open], nextConn := sh.nextConn + 1)
        && pc' == Sending(name, key, sh.nextConn)
      else
        sh' == sh && pc' == if ch.portBusy && attempts < DIAL_RETRIES then Dialling(name, key, attempts + 1)
                            else LeavingDial(DialFailed)
    case Sending(name, key, conn) =>
      if ch.ok then
        && conn in sh.links
        && sh' == (if sh.links[conn].Open? then sh.(links := sh.links[conn := Requested(RequestFor(env, name, key))])
                   else sh)
        && pc' == Receiving(name, key, conn)
      else sh' == sh && pc' == Aborting(conn, SendFailed)
    case Receiving(name, key, conn) =>
      && sh' == sh
      && if ch.ok then
           conn in sh.links && sh.links[conn].Answered? && pc' == Closing(name, key, conn, sh.links[conn].answer)
         else pc' == Aborting(conn, ReceiveFailed)
    case Aborting(conn, why) => sh' == sh && pc' == LeavingDial(why)
    case Closing(name, key, conn, answer) => sh' == sh && pc' == Rebinding(name, key, answer, 0)
    case _ => false
  }

  /** Steps of the rebind: binding and storing the new listener, inspecting the reply, dropping the dial guard. */
  ghost predicate RebindStep(env: Env, t: nat, sh: Shared, pc: Pc, ch: Choice, sh': Shared, pc': Pc) {
    match pc
    case Rebinding(name, key, answer, attempts) =>
      if ch.ok then sh' == sh.(dials := MarkRebound(sh.dials)) && pc' == AwaitStore(name, key, answer)
      else
        sh' == sh && pc' == if attempts < REBIND_RETRIES then Rebinding(name, key, answer, attempts + 1)
                            else LeavingDial(RebindFailed)
    case AwaitStore(name, key, answer) =>
      Listener !in sh.locks && sh' == Acquire(sh, Listener, t) && pc' == Storing(name, key, answer)
    case Storing(name, key, answer) =>
      sh' == Release(sh.(listener := true), Listener) && pc' == Inspecting(name, key, answer)
    case Inspecting(name, key, answer) =>
      (match answer.response
       case CertOk(certPem, caCertPem) =>
         sh' == Release(sh, Dial) && pc' == Inserting(name, Credentials(certPem, key, caCertPem), answer.at)
       case Error(_) => sh' == sh && pc' == LeavingDial(Rejected)
       case HandshakeOk(_) => sh' == sh && pc' == LeavingDial(UnexpectedReply))
    case LeavingDial(why) => sh' == Release(sh, Dial) && pc' == LeavingCache(why)
    case _ => false
  }

  /** One step of handler `t`, serving process `p`. */
  ghost predicate HandlerStep(env: Env, t: nat, p: Peer, sh: Shared, pc: Pc, ch: Choice, sh': Shared, pc': Pc) {
    || ClientStep(env, t, p, sh, pc, ch, sh', pc')
    || CacheStep(env, t, sh, pc, ch, sh', pc')
    || DialStep(env, t, sh, pc, ch, sh', pc')
    || RebindStep(env, t, sh, pc, ch, sh', pc')
  }

  /** The server takes up a connection: the port gate first, then the handler's answer; a lost write hangs up. */
  ghost predicate ServerStep(env: Env, sh: Shared, conn: nat, resp: AgentResponse, delivered: bool, sh': Shared) {
    && conn in sh.links
    && if !PassesGate(env.host.config, env.clientPort) then
         (sh.links[conn].Open? || sh.links[conn].Requested?) && sh' == sh.(links := sh.links[conn := HungUp])
       else
         && sh.links[conn].Requested?
         && var req := sh.links[conn].req;
         && Responds(env.host, env.json, env.peerCid, sh.now, req, resp)
         && sh' == sh.(links := sh.links[conn := if delivered then Answered(Answer(resp, sh.now)) else HungUp],
                       issued := sh.issued + if resp.CertOk? && req.CertRequest?
                                             then [Issuance(req.vmName, req.identity, resp.certPem, sh.now)] else [])
  }

  ghost predicate Next(env: Env, s: State, s': State, step: Step) {
    match step
    case Accept(t, peer, peerKnown) =>
      && t !in s.tasks
      && s' == s.(tasks := s.tasks[t := Task(peer, if peerKnown then AwaitWorkloads else Done(Failed(PeerUnknown)))])
    case Run(t, choice) =>
      && t in s.tasks && t in s'.tasks
      && HandlerStep(env, t, s.tasks[t].peer, s.sh, s.tasks[t].pc, choice, s'.sh, s'.tasks[t].pc)
      && s'.tasks == s.tasks[t := Task(s.tasks[t].peer, s'.tasks[t].pc)]
    case Serve(conn, resp, delivered) => ServerStep(env, s.sh, conn, resp, delivered, s'.sh) && s'.tasks == s.tasks
    case Tick(ticks) => s' == s.(sh := s.sh.(now := s.sh.now + ticks))
  }

  /** After boot: a handshake through the gate was accepted, the listener is bound, nothing is cached or running. */
  ghost predicate Init(env: Env, s: State) {
    && PassesGate(env.host.config, env.clientPort)
    && AnswersHandshake(env.host, env.peerCid, PROTOCOL_VERSION, env.vmName, HandshakeOk(s.sh.workloads))
    && s.sh.listener && s.sh.cache == map[] && s.sh.locks == map[] && s.sh.links == map[] && s.tasks == map[]
    && s.sh.issued == [] && s.sh.deliveries == [] && s.sh.fetches == [] && s.sh.dials == []
  }

  ghost predicate IsRun(env: Env, run: seq<State>, steps: seq<Step>) {
    && |run| == |steps| + 1 && Init(env, run[0])
    && forall i :: 0 <= i < |steps| ==> Next(env, run[i], run[i + 1], steps[i])
  }

  ghost predicate Reachable(env: Env, s: State) {
    exists run, steps :: IsRun(env, run, steps) && run[|run| - 1] == s
  }
}
