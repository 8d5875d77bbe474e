/** The agent's boot: handshake over the wire, then the persistent listener. It ends in an initial protocol state. */
module Boot {
  import opened Wrappers
  import opened Selectors
  import opened Codec
  import opened Policy
  import opened Wire
  import opened Server
  import opened Retry
  import opened Protocol
  import opened Exchange
  import opened AgentCode

  datatype BootFailure = NoConnection | ExchangeLost(lost: Lost) | HandshakeRejected(message: Refusal) | OddReply
    | NoListener

  function HandshakeRequest(env: Env): AgentRequest {
    Handshake(PROTOCOL_VERSION, env.vmName)
  }

  /** The map was sent by the server, to this VM, through its port gate. */
  ghost predicate ServerSent(env: Env, workloads: map<string, WorkloadConfig>) {
    && PassesGate(env.host.config, env.clientPort)
    && AnswersHandshake(env.host, env.peerCid, PROTOCOL_VERSION, env.vmName, HandshakeOk(workloads))
  }

  /** What the handshake makes of the exchange. */
  function Accepted(said: Result<AgentResponse, Lost>): Result<map<string, WorkloadConfig>, BootFailure> {
    match said
    case Err(lost) => Err(ExchangeLost(lost))
    case Ok(HandshakeOk(workloads)) => Ok(workloads)
    case Ok(Error(message)) => Err(HandshakeRejected(message))
    case Ok(CertOk(_, _)) => Err(OddReply)
  }

  function ReplyText(env: Env, reply: AgentResponse): seq<byte> {
    env.json.encodeResponse(reply)
  }

  /** The handshake's request gets through. */
  predicate RequestCarried(env: Env, channel: Channel) {
    Carries(channel.upCapacity, |Frame(env.json.encodeRequest(HandshakeRequest(env)))|)
  }

  /** The server passes the connection on, and its reply fits a frame and gets back. */
  predicate ReplyCarried(env: Env, channel: Channel, reply: AgentResponse) {
    && PassesGate(env.host.config, env.clientPort) && |ReplyText(env, reply)| <= 4194304
    && Carries(channel.downCapacity, |Frame(ReplyText(env, reply))|)
  }

  /** The host's configuration has this VM, under the CID it calls from, with selectors that parse. */
  predicate Welcome(env: Env) {
    && env.vmName in env.host.config.vms && env.host.config.vms[env.vmName].vmCid == env.peerCid
    && SelectorsParse(env.host.config.vms[env.vmName])
  }

  /** What makes an exchange come to an accepted handshake. */
  predicate HandshakeGoesWell(env: Env, channel: Channel) {
    && RequestCarried(env, channel) && |env.json.encodeRequest(HandshakeRequest(env))| <= 4194304
    && Welcome(env) && ReplyCarried(env, channel, HandshakeOk(HandshakeMap(env.host.config.vms[env.vmName])))
  }

  /** `perform_handshake`: whatever happens the stream is closed again; an accepted map is the server's own answer. */
  method PerformHandshake(env: Env, kernel: Kernel, channel: Channel, now: nat)
    returns (r: Result<map<string, WorkloadConfig>, BootFailure>, ghost reply: AgentResponse)
    requires kernel.Valid() && Faithful(env.json)
    modifies kernel
    ensures kernel.Valid() && kernel.open == old(kernel.open) && kernel.binds == old(kernel.binds)
    ensures var dialled := DialRounds(kernel.fates, old(kernel.sockets), 0);
            && kernel.sockets == old(kernel.sockets) + dialled.sockets
            && kernel.sleptMs == old(kernel.sleptMs) + SleepOf(dialled)
            && (r.Ok? <==> dialled.ok && HandshakeGoesWell(env, channel))
            && (r == Err(NoConnection) <==> !dialled.ok)
            && (r == Err(ExchangeLost(NotSent)) <==> dialled.ok && !RequestCarried(env, channel))
            && (r == Err(ExchangeLost(NotReceived)) <==>
                  dialled.ok && RequestCarried(env, channel) && !ReplyCarried(env, channel, reply))
            && forall message :: r == Err(HandshakeRejected(message)) <==>
                                   && dialled.ok && RequestCarried(env, channel)
                                   && ReplyCarried(env, channel, reply) && reply == Error(message)
    ensures r != Err(OddReply) && r != Err(NoListener)
    ensures r.Ok? ==> ServerSent(env, r.value) && r.value == HandshakeMap(env.host.config.vms[env.vmName])
    ensures DialRounds(kernel.fates, old(kernel.sockets), 0).ok && RequestCarried(env, channel)
            && PassesGate(env.host.config, env.clientPort) ==>
              Responds(env.host, env.json, env.peerCid, now, HandshakeRequest(env), reply)
  {
    hide DialRounds, Responds, Faithful, HandshakeMap, PassesGate, Welcome;
    reply := Error(WriteFailed);
    var stream := ConnectForHandshake(kernel);
    if stream.None? {
      return Err(NoConnection), reply;
    }
    var said;
    said, reply := Converse(env, channel, HandshakeRequest(env), now);
    kernel.Close(stream.value);
    r := Accepted(said);
    if RequestCarried(env, channel) && PassesGate(env.host.config, env.clientPort) {
      ReplyToHandshake(env, now, reply);
    }
  }

  /** The server's answer to the handshake is the VM's map exactly if the VM is welcome and the request fits a frame. */
  lemma ReplyToHandshake(env: Env, now: nat, reply: AgentResponse)
    requires Responds(env.host, env.json, env.peerCid, now, HandshakeRequest(env), reply)
    ensures reply.HandshakeOk? <==> |env.json.encodeRequest(HandshakeRequest(env))| <= 4194304 && Welcome(env)
    ensures reply.HandshakeOk? ==> reply == HandshakeOk(HandshakeMap(env.host.config.vms[env.vmName]))
    ensures reply.HandshakeOk? ==>
              AnswersHandshake(env.host, env.peerCid, PROTOCOL_VERSION, env.vmName, HandshakeOk(reply.workloads))
    ensures !reply.CertOk?
  {
    hide HandshakeMap, SelectorParser.Parse;
  }

  ghost function InitialShared(workloads: map<string, WorkloadConfig>, now: nat): Shared {
    Shared(now, workloads, map[], true, map[], map[], 0, 0, [], [], [], [])
  }

  /** `run_agent` up to its main loop: an agent whose state starts a protocol run, or nothing left open. */
  method RunAgent(env: Env, kernel: Kernel, channel: Channel, now: nat) returns (r: Result<AgentState, BootFailure>)
    requires kernel.Valid() && kernel.open == {} && Faithful(env.json)
    modifies kernel
    ensures kernel.Valid()
    ensures r.Ok? <==> && old(DialRounds(kernel.fates, kernel.sockets, 0).ok) && HandshakeGoesWell(env, channel)
                       && old(CanBind(kernel.listens, kernel.binds))
    ensures r == Err(NoListener) <==> && old(DialRounds(kernel.fates, kernel.sockets, 0).ok)
                                      && HandshakeGoesWell(env, channel) && !old(CanBind(kernel.listens, kernel.binds))
    ensures r.Ok? ==> fresh(r.value) && r.value.kernel == kernel && r.value.Valid()
    ensures r.Ok? ==> r.value.workloads == HandshakeMap(env.host.config.vms[env.vmName]) && r.value.clock == now
    ensures r.Ok? ==> Init(env, State(r.value.sh, map[]))
    ensures r.Err? ==> kernel.open == {}
  {
    hide AnswersHandshake, Faithful, DialRounds, HandshakeMap, HandshakeGoesWell, Responds;
    var workloads;
    ghost var reply;
    workloads, reply := PerformHandshake(env, kernel, channel, now);
    if workloads.Err? {
      return Err(workloads.error);
    }
    var listener := BindWithRetries(kernel);
    if listener.None? {
      return Err(NoListener);
    }
    var state := new AgentState(workloads.value, listener.value, kernel, now, InitialShared(workloads.value, now));
    return Ok(state);
  }
}
