/** The host server: the peer-port gate of the listener, and the handler of one connection. */
module Server {
  import opened Wrappers
  import opened Selectors
  import opened SelectorParser
  import opened Codec
  import opened Pki
  import opened Wire
  import opened Policy

  /** What the server process holds for its whole life. */
  datatype Host = Host(config: HostConfig, ca: CertificateAuthority, parseIp: IpParser)

  /** JSON texts of the messages, as functions both ends share. */
  datatype Json = Json(
    encodeRequest: AgentRequest -> seq<byte>, decodeRequest: seq<byte> -> Option<AgentRequest>,
    encodeResponse: AgentResponse -> seq<byte>, decodeResponse: seq<byte> -> Option<AgentResponse>)

  /** Decoding inverts encoding, and a text cut short is no text: every message is one JSON object. */
  ghost predicate Faithful(json: Json) {
    && (forall m :: json.decodeRequest(json.encodeRequest(m)) == Some(m))
    && (forall m :: json.decodeResponse(json.encodeResponse(m)) == Some(m))
    && (forall m, n: nat :: n < |json.encodeRequest(m)| ==> json.decodeRequest(json.encodeRequest(m)[..n]) == None)
    && (forall m, n: nat :: n < |json.encodeResponse(m)| ==> json.decodeResponse(json.encodeResponse(m)[..n]) == None)
  }

  // ---- The listener ----

  datatype AcceptEvent = Accepted(conn: nat, peerCid: u32, peerPort: u32) | AcceptFailed

  predicate PassesGate(cfg: HostConfig, peerPort: u32) {
    peerPort == cfg.peerPort
  }

  function Admitted(cfg: HostConfig, events: seq<AcceptEvent>): seq<(nat, u32)> {
    if events == [] then []
    else
      var e := events[|events| - 1];
      Admitted(cfg, events[..|events| - 1]) +
      if e.Accepted? && PassesGate(cfg, e.peerPort) then [(e.conn, e.peerCid)] else []
  }

  /** The accept loop over any finite run of accept results: failures and foreign ports spawn no handler. */
  method RunListener(cfg: HostConfig, events: seq<AcceptEvent>) returns (spawned: seq<(nat, u32)>)
    ensures spawned == Admitted(cfg, events)
    ensures forall conn: nat, cid: u32 :: (conn, cid) in spawned <==> Accepted(conn, cid, cfg.peerPort) in events
  {
    spawned := [];
    for i := 0 to |events|
      invariant spawned == Admitted(cfg, events[..i])
      invariant forall conn: nat, cid: u32 ::
                  (conn, cid) in spawned <==> Accepted(conn, cid, cfg.peerPort) in events[..i]
    {
      assert events[..i + 1] == events[..i] + [events[i]];
      match events[i] {
        case AcceptFailed =>
        case Accepted(conn, peerCid, peerPort) =>
          if peerPort != cfg.peerPort {
            continue;
          }
          spawned := spawned + [(conn, peerCid)];
      }
    }
    assert events[..|events|] == events;
  }

  // ---- What the handler answers ----

  /** The map a handshake sends for a VM entry. */
  function HandshakeMap(vm: VmEntry): map<string, WorkloadConfig> {
    map name | name in vm.identities && Parse(vm.identities[name].selector).Ok? ::
      WorkloadConfig(Parse(vm.identities[name].selector).value, ValiditySeconds(vm.identities[name].ttlMinutes))
  }

  ghost predicate AnswersHandshake(host: Host, peerCid: u32, version: u32, vmName: string, resp: AgentResponse) {
    if version != PROTOCOL_VERSION then resp == Error(UnsupportedVersion(version))
    else if vmName !in host.config.vms then resp == Error(UnknownVm(vmName))
    else
      var vm := host.config.vms[vmName];
      if vm.vmCid != peerCid then resp == Error(HandshakeCidMismatch(vm.vmCid, peerCid))
      else if SelectorsParse(vm) then resp == HandshakeOk(HandshakeMap(vm))
      else exists name :: && name in vm.identities && Parse(vm.identities[name].selector).Err?
                          && resp == Error(BadSelector(name, Parse(vm.identities[name].selector).error))
  }

  predicate AnswersCertRequest(host: Host, peerCid: u32, now: nat, version: u32, vmName: string, identity: string,
                               csrPem: Pem<Csr>, resp: AgentResponse) {
    if version != PROTOCOL_VERSION then resp == Error(UnsupportedVersion(version))
    else match Resolve(host.config, vmName, identity)
      case None => resp == Error(NotAuthorised(vmName, identity))
      case Some(d) =>
        if d.vmCid != peerCid then resp == Error(CidVerificationFailed)
        else
          var signing := SigningRequest(csrPem, identity, d.vmName, peerCid, d.ip, d.validitySeconds);
          match SigningFault(host.ca, signing, host.parseIp)
          case Some(e) => resp == Error(SigningFailed(e))
          case None =>
            && resp.CertOk? && resp.caCertPem == host.ca.certPem && resp.certPem.Pem?
            && Issues(host.ca, signing, now, host.parseIp, resp.certPem.value)
  }

  ghost predicate Answers(host: Host, peerCid: u32, now: nat, req: AgentRequest, resp: AgentResponse) {
    match req
    case Handshake(version, vmName) => AnswersHandshake(host, peerCid, version, vmName, resp)
    case CertRequest(version, vmName, identity, csrPem) =>
      AnswersCertRequest(host, peerCid, now, version, vmName, identity, csrPem, resp)
  }

  /** The answer to a request that was sent in one frame: longer texts than a frame may carry are not understood. */
  ghost predicate Responds(host: Host, json: Json, peerCid: u32, now: nat, req: AgentRequest, resp: AgentResponse) {
    if |json.encodeRequest(req)| <= MAX_MSG_BYTES then Answers(host, peerCid, now, req, resp)
    else resp.Error? && resp.message.BadFrame?
  }

  /** The request in a connection's input, or why there is none. */
  function RequestIn(json: Json, input: seq<byte>): Result<AgentRequest, FrameError> {
    match Receive(input).0
    case UnexpectedEof => Err(FrameTruncated)
    case TooLarge(len) => Err(FrameTooLarge(len))
    case Payload(bytes) =>
      match json.decodeRequest(bytes)
      case None => Err(FrameNotJson)
      case Some(req) => Ok(req)
  }

  ghost predicate AnswersInput(host: Host, json: Json, peerCid: u32, now: nat, input: seq<byte>, resp: AgentResponse) {
    match RequestIn(json, input)
    case Err(e) => resp == Error(BadFrame(e))
    case Ok(req) => Answers(host, peerCid, now, req, resp)
  }

  method BuildWorkloads(vm: VmEntry) returns (r: Result<map<string, WorkloadConfig>, Refusal>)
    ensures r.Ok? <==> SelectorsParse(vm)
    ensures r.Ok? ==> r.value == HandshakeMap(vm)
    ensures r.Err? ==> exists name :: && name in vm.identities && Parse(vm.identities[name].selector).Err?
                                      && r.error == BadSelector(name, Parse(vm.identities[name].selector).error)
  {
    hide Parse;
    var workloads: map<string, WorkloadConfig> := map[];
    var names := vm.identities.Keys;
    while names != {}
      invariant names <= vm.identities.Keys
      invariant workloads.Keys == vm.identities.Keys - names
      invariant forall n :: n in vm.identities && n !in names ==> Parse(vm.identities[n].selector).Ok?
      invariant forall n :: n in workloads ==> n in HandshakeMap(vm) && workloads[n] == HandshakeMap(vm)[n]
    {
      var name :| name in names;
      var validitySeconds := ValiditySeconds(vm.identities[name].ttlMinutes);
      var parsed := ParseSelector(vm.identities[name].selector);
      if parsed.Err? {
        return Err(BadSelector(name, parsed.error));
      }
      workloads := workloads[name := WorkloadConfig(parsed.value, validitySeconds)];
      names := names - {name};
    }
    assert workloads == HandshakeMap(vm);
    return Ok(workloads);
  }

  /** The refusals the handler sends itself; the others it returns as errors, for its caller to report. */
  predicate IsSent(refusal: Refusal) {
    refusal.UnsupportedVersion? || refusal.UnknownVm? || refusal.HandshakeCidMismatch? || refusal.BadSelector?
    || refusal.NotAuthorised?
  }

  /** A CID mismatch, a signing fault and what goes wrong with a frame are left to the caller; nothing else is. */
  lemma LeftToTheCaller(refusal: Refusal)
    ensures !IsSent(refusal) <==>
              || refusal.CidVerificationFailed? || refusal.SigningFailed?
              || refusal.BadFrame? || refusal.WriteFailed?
  {}

  /** The computation of a reply, before anything is written: Err where the handler returns an error instead. */
  method Decide(host: Host, peerCid: u32, now: nat, req: AgentRequest) returns (r: Result<AgentResponse, Refusal>)
    ensures Answers(host, peerCid, now, req, if r.Ok? then r.value else Error(r.error))
    ensures r.Err? ==> r.error.CidVerificationFailed? || r.error.SigningFailed?
    ensures r.Ok? && r.value.Error? ==> IsSent(r.value.message)
  {
    match req {
      case Handshake(version, vmName) =>
        if version != PROTOCOL_VERSION {
          return Ok(Error(UnsupportedVersion(version)));
        }
        if vmName !in host.config.vms {
          return Ok(Error(UnknownVm(vmName)));
        }
        var vm := host.config.vms[vmName];
        if vm.vmCid != peerCid {
          return Ok(Error(HandshakeCidMismatch(vm.vmCid, peerCid)));
        }
        var built := BuildWorkloads(vm);
        if built.Err? {
          return Ok(Error(built.error));
        }
        return Ok(HandshakeOk(built.value));
      case CertRequest(version, vmName, identity, csrPem) =>
        if version != PROTOCOL_VERSION {
          return Ok(Error(UnsupportedVersion(version)));
        }
        var decision := Resolve(host.config, vmName, identity);
        if decision.None? {
          return Ok(Error(NotAuthorised(vmName, identity)));
        }
        var d := decision.value;
        if d.vmCid != peerCid {
          return Err(CidVerificationFailed);
        }
        var signing := SigningRequest(csrPem, identity, d.vmName, peerCid, d.ip, d.validitySeconds);
        var signed := SignCsr(host.ca, signing, now, host.parseIp);
        if signed.Err? {
          return Err(SigningFailed(signed.error));
        }
        return Ok(CertOk(signed.value, host.ca.certPem));
    }
  }

  /** `handle_inner`: reads one request and writes its reply; errors are left to the caller to report. */
  method HandleInner(source: ByteSource, sink: ByteSink, host: Host, json: Json, peerCid: u32, now: nat)
    returns (r: Result<(), Refusal>, ghost reply: AgentResponse)
    requires source.Valid()
    modifies source, sink
    ensures source.Valid() && source.Remaining() == old(source.Remaining())[Receive(old(source.Remaining())).1..]
    ensures AnswersInput(host, json, peerCid, now, old(source.Remaining()), reply)
    ensures var frame := Frame(json.encodeResponse(reply));
            var room := old(sink.Room(|frame|));
            if r.Ok? then room == |frame| && sink.sent == old(sink.sent) + frame
            else || (r.error == WriteFailed && room < |frame| && sink.sent == old(sink.sent) + frame[..room])
                 || (reply == Error(r.error) && sink.sent == old(sink.sent))
    ensures reply.Error? && (r.Ok? || r.error == WriteFailed) ==> IsSent(reply.message)
    ensures r.Err? && r.error != WriteFailed ==> !IsSent(r.error)
  {
    hide Receive, EncodeLength, Answers;
    var received := source.RecvFrame();
    if !received.Payload? {
      var e := if received.TooLarge? then FrameTooLarge(received.len) else FrameTruncated;
      return Err(BadFrame(e)), Error(BadFrame(e));
    }
    var req := json.decodeRequest(received.bytes);
    if req.None? {
      return Err(BadFrame(FrameNotJson)), Error(BadFrame(FrameNotJson));
    }
    var decided := Decide(host, peerCid, now, req.value);
    if decided.Err? {
      return Err(decided.error), Error(decided.error);
    }
    reply := decided.value;
    var written := sink.SendFrame(json.encodeResponse(decided.value));
    if !written {
      r := Err(WriteFailed);
    } else {
      r := Ok(());
    }
  }

  /**
   `handle_connection`: whatever the input bytes, the peer is sent (as far as its end takes bytes) exactly one
   frame, the answer to that input. With a sink that never fails that is one whole frame.
   */
  method HandleConnection(source: ByteSource, sink: ByteSink, host: Host, json: Json, peerCid: u32, now: nat)
    returns (ghost reply: AgentResponse)
    requires source.Valid()
    modifies source, sink
    ensures source.Valid() && source.Remaining() == old(source.Remaining())[Receive(old(source.Remaining())).1..]
    ensures AnswersInput(host, json, peerCid, now, old(source.Remaining()), reply)
    ensures var frame := Frame(json.encodeResponse(reply));
            sink.sent == old(sink.sent) + frame[..old(sink.Room(|frame|))]
    ensures sink.capacity.None? ==> sink.sent == old(sink.sent) + Frame(json.encodeResponse(reply))
  {
    hide Receive, EncodeLength, AnswersInput;
    var r;
    r, reply := HandleInner(source, sink, host, json, peerCid, now);
    if r.Err? {
      var ignored := sink.SendFrame(json.encodeResponse(Error(r.error)));
    }
  }

  // ---- Agreement between the handshake and later requests ----

  /** Version 1 is spoken, and no other. */
  lemma OnlyVersionOne(host: Host, peerCid: u32, now: nat, req: AgentRequest, resp: AgentResponse)
    requires Answers(host, peerCid, now, req, resp)
    ensures resp == Error(UnsupportedVersion(req.version)) <==> req.version != 1
  {
    hide HandshakeMap, Parse, Issues, SigningFault;
  }

  /**
   With a validated configuration a handshake is accepted exactly for a registered VM calling from its own CID;
   the map then has exactly the VM's identities, the parsed selectors, and the lifetimes that policy resolution gives.
   */
  lemma HandshakeOfValidated(host: Host, peerCid: u32, vmName: string, resp: AgentResponse)
    requires Validated(host.config)
    requires AnswersHandshake(host, peerCid, PROTOCOL_VERSION, vmName, resp)
    ensures resp.HandshakeOk? <==> vmName in host.config.vms && host.config.vms[vmName].vmCid == peerCid
    ensures !(resp.Error? && resp.message.BadSelector?)
    ensures resp.HandshakeOk? ==>
              && resp.workloads.Keys == host.config.vms[vmName].identities.Keys
              && forall name :: name in resp.workloads ==>
                   && Resolve(host.config, vmName, name).Some?
                   && resp.workloads[name].validitySeconds == Resolve(host.config, vmName, name).value.validitySeconds
                   && Parse(host.config.vms[vmName].identities[name].selector) == Ok(resp.workloads[name].selector)
  {
    hide Parse, ValiditySeconds;
  }

  /**
   A request for any identity of the handshake map can fail only in signing, and exactly when signing is impossible.
   */
  lemma HandshakeNamesAreIssued(host: Host, peerCid: u32, vmName: string, hs: AgentResponse,
                                identity: string, csrPem: Pem<Csr>, now: nat, resp: AgentResponse)
    requires AnswersHandshake(host, peerCid, PROTOCOL_VERSION, vmName, hs) && hs.HandshakeOk?
    requires identity in hs.workloads
    requires AnswersCertRequest(host, peerCid, now, PROTOCOL_VERSION, vmName, identity, csrPem, resp)
    ensures resp.CertOk? <==> csrPem.Pem? && Signable(host.ca, identity, host.config.vms[vmName].ip, host.parseIp)
    ensures resp.CertOk? || (resp.Error? && resp.message.SigningFailed?)
    ensures resp.CertOk? ==>
              ValidityOrDefault(resp.certPem) == hs.workloads[identity].validitySeconds
  {
    hide Parse, ValiditySeconds;
  }

  /** Certificates go out only for a registered identity of a VM calling from that VM's CID, in the current version. */
  lemma IssuedOnlyToRegistered(host: Host, peerCid: u32, now: nat, req: AgentRequest, resp: AgentResponse)
    requires Answers(host, peerCid, now, req, resp) && resp.CertOk?
    ensures req.CertRequest? && req.version == PROTOCOL_VERSION && req.csrPem.Pem?
    ensures Registered(host.config, req.vmName, req.identity) && host.config.vms[req.vmName].vmCid == peerCid
    ensures resp.certPem.Pem? && resp.certPem.value.publicKey == req.csrPem.value.publicKey
  {
    hide Parse, ValiditySeconds;
    assert req.CertRequest?;
  }

  // ---- Whole messages over bytes ----

  /** The message in a peer's input, if it is one. */
  function DecodedReply(json: Json, input: seq<byte>): Option<AgentResponse> {
    match Receive(input).0
    case Payload(bytes) => json.decodeResponse(bytes)
    case _ => None
  }

  /** Framed over bytes, of any length, the server answers the request that was sent, or reports a bad frame. */
  lemma ExchangeOverBytes(host: Host, json: Json, peerCid: u32, now: nat, req: AgentRequest, resp: AgentResponse)
    requires Faithful(json)
    requires AnswersInput(host, json, peerCid, now, Frame(json.encodeRequest(req)), resp)
    ensures Responds(host, json, peerCid, now, req, resp)
  {
    hide Receive, EncodeLength, Answers;
    var text := json.encodeRequest(req);
    ReceivePrefix(text, |Frame(text)|);
    assert Frame(text)[..|Frame(text)|] == Frame(text);
    assert text[..|text|] == text;
  }

  /** However much of a reply's frame arrives, it is decoded exactly if all of it did and it is at most 4 MiB. */
  lemma ReplyArrivesIff(json: Json, resp: AgentResponse, n: nat)
    requires Faithful(json) && n <= |Frame(json.encodeResponse(resp))|
    ensures var text := json.encodeResponse(resp);
            DecodedReply(json, Frame(text)[..n]) ==
            if n == |Frame(text)| && |text| <= MAX_MSG_BYTES then Some(resp) else None
  {
    hide Receive, EncodeLength;
    var text := json.encodeResponse(resp);
    ReceivePrefix(text, n);
    assert text[..|text|] == text;
  }
}
