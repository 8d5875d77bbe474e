/** One request and its reply over a dialled stream: frames both ways, through the server's port gate and handler. */
module Exchange {
  import opened Wrappers
  import opened Codec
  import opened Wire
  import opened Server
  import opened Protocol

  /** How the byte streams behave: piece sizes, and how much each direction carries before it breaks. */
  datatype Channel = Channel(chunk: nat -> nat, upCapacity: Option<nat>, downCapacity: Option<nat>)

  datatype Lost = NotSent | NotReceived

  predicate Carries(capacity: Option<nat>, bytes: nat) {
    capacity.Some? ==> bytes <= capacity.value
  }

  /** The server's end of a connection: the port gate, then the handler over the bytes that were sent. */
  method ServeBytes(env: Env, channel: Channel, sent: seq<byte>, now: nat)
    returns (back: seq<byte>, ghost reply: AgentResponse)
    ensures if PassesGate(env.host.config, env.clientPort) then
              && AnswersInput(env.host, env.json, env.peerCid, now, sent, reply)
              && var frame := Frame(env.json.encodeResponse(reply));
              exists n: nat :: n <= |frame| && back == frame[..n]
                               && (n == |frame| <==> Carries(channel.downCapacity, |frame|))
            else back == []
  {
    reply := Error(WriteFailed);
    if !PassesGate(env.host.config, env.clientPort) {
      return [], reply;
    }
    hide AnswersInput, EncodeLength, Receive;
    var source := new ByteSource(sent, channel.chunk);
    var sink := new ByteSink(channel.downCapacity, channel.chunk);
    ghost var before := sink.sent;
    reply := HandleConnection(source, sink, env.host, env.json, env.peerCid, now);
    back := sink.sent;
    ghost var frame := Frame(env.json.encodeResponse(reply));
    assert before + frame[..|back|] == back;
  }

  /**
   `send_json` and `recv_json` around the server's work. What the agent gets is the server's answer to that very
   request, and it gets it exactly if both directions carry their frames, the gate is passed and the reply fits one.
   */
  method Converse(env: Env, channel: Channel, req: AgentRequest, now: nat)
    returns (r: Result<AgentResponse, Lost>, ghost reply: AgentResponse)
    requires Faithful(env.json)
    ensures r == Err(NotSent) <==> !Carries(channel.upCapacity, |Frame(env.json.encodeRequest(req))|)
    ensures r != Err(NotSent) && PassesGate(env.host.config, env.clientPort) ==>
              Responds(env.host, env.json, env.peerCid, now, req, reply)
    ensures r != Err(NotSent) ==>
              var text := env.json.encodeResponse(reply);
              r == if PassesGate(env.host.config, env.clientPort) && |text| <= MAX_MSG_BYTES
                      && Carries(channel.downCapacity, |Frame(text)|)
                   then Ok(reply) else Err(NotReceived)
  {
    hide Receive, EncodeLength, Responds, AnswersInput, Faithful;
    reply := Error(WriteFailed);
    var up := new ByteSink(channel.upCapacity, channel.chunk);
    var ok := up.SendFrame(env.json.encodeRequest(req));
    if !ok {
      return Err(NotSent), reply;
    }
    assert up.sent == Frame(env.json.encodeRequest(req));
    var back;
    back, reply := ServeBytes(env, channel, up.sent, now);
    if PassesGate(env.host.config, env.clientPort) {
      ExchangeOverBytes(env.host, env.json, env.peerCid, now, req, reply);
      ReplyComesBack(env, channel, reply, back);
    } else {
      NothingArrives();
    }
    var source := new ByteSource(back, channel.chunk);
    var received := source.RecvFrame();
    if !received.Payload? {
      return Err(NotReceived), reply;
    }
    var resp := env.json.decodeResponse(received.bytes);
    if resp.None? {
      return Err(NotReceived), reply;
    }
    r := Ok(resp.value);
  }

  lemma ReplyComesBack(env: Env, channel: Channel, reply: AgentResponse, back: seq<byte>)
    requires Faithful(env.json)
    requires var frame := Frame(env.json.encodeResponse(reply));
             exists n: nat :: n <= |frame| && back == frame[..n]
               && (n == |frame| <==> Carries(channel.downCapacity, |frame|))
    ensures var text := env.json.encodeResponse(reply);
            DecodedReply(env.json, back) ==
            if |text| <= MAX_MSG_BYTES && Carries(channel.downCapacity, |Frame(text)|) then Some(reply) else None
  {
    hide Receive, EncodeLength, Faithful;
    var frame := Frame(env.json.encodeResponse(reply));
    var n: nat :| n <= |frame| && back == frame[..n] && (n == |frame| <==> Carries(channel.downCapacity, |frame|));
    ReplyArrivesIff(env.json, reply, n);
  }

  lemma NothingArrives()
    ensures !Receive([]).0.Payload?
  {}
}
