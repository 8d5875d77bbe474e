/**
 The agent's code as it runs for one connection: boot, the workload handler, the cache, and the on-demand request,
 over the kernel, the matcher, the key generator and the server. Each method is shown to walk along the steps of the
 protocol, so everything proved about protocol runs holds of it; and to leak no socket, whatever fails.
 */
module AgentCode {
  import opened Wrappers
  import opened Selectors
  import opened Matcher
  import opened Pki
  import opened Wire
  import opened Server
  import opened Retry
  import opened Protocol
  import opened Exchange

  // ---- Walking along the protocol ----

  /** One step of handler `t`, or, while it waits, of the server or the clock. */
  ghost predicate Moves(env: Env, t: nat, p: Peer, a: (Shared, Pc), b: (Shared, Pc)) {
    || (exists ch :: HandlerStep(env, t, p, a.0, a.1, ch, b.0, b.1))
    || (b.1 == a.1 && exists conn, resp, delivered :: ServerStep(env, a.0, conn, resp, delivered, b.0))
    || (b.1 == a.1 && a.0.now <= b.0.now && b.0 == a.0.(now := b.0.now))
  }

  ghost predicate IsWalk(env: Env, t: nat, p: Peer, walk: seq<(Shared, Pc)>) {
    walk != [] && forall i :: 0 <= i < |walk| - 1 ==> Moves(env, t, p, walk[i], walk[i + 1])
  }

  /** The protocol can go from one shared state and program point to another. */
  ghost predicate Leads(env: Env, t: nat, p: Peer, from: (Shared, Pc), to: (Shared, Pc)) {
    exists walk :: IsWalk(env, t, p, walk) && walk[0] == from && walk[|walk| - 1] == to
  }

  lemma Stay(env: Env, t: nat, p: Peer, a: (Shared, Pc))
    ensures Leads(env, t, p, a, a)
  {
    hide Moves;
    assert IsWalk(env, t, p, [a]);
  }

  lemma Onwards(env: Env, t: nat, p: Peer, from: (Shared, Pc), a: (Shared, Pc), b: (Shared, Pc))
    requires Leads(env, t, p, from, a) && Moves(env, t, p, a, b)
    ensures Leads(env, t, p, from, b)
  {
    hide Moves;
    var walk :| IsWalk(env, t, p, walk) && walk[0] == from && walk[|walk| - 1] == a;
    assert IsWalk(env, t, p, walk + [b]);
  }

  lemma Join(env: Env, t: nat, p: Peer, from: (Shared, Pc), mid: (Shared, Pc), to: (Shared, Pc))
    requires Leads(env, t, p, from, mid) && Leads(env, t, p, mid, to)
    ensures Leads(env, t, p, from, to)
  {
    hide Moves;
    var w1 :| IsWalk(env, t, p, w1) && w1[0] == from && w1[|w1| - 1] == mid;
    var w2 :| IsWalk(env, t, p, w2) && w2[0] == mid && w2[|w2| - 1] == to;
    var walk := w1 + w2[1..];
    forall i | 0 <= i < |walk| - 1 ensures Moves(env, t, p, walk[i], walk[i + 1]) {
      if i >= |w1| - 1 {
        var k := i - (|w1| - 1);
        assert walk[i] == w2[k] && walk[i + 1] == w2[k + 1];
      } else {
        assert walk[i] == w1[i] && walk[i + 1] == w1[i + 1];
      }
    }
    assert IsWalk(env, t, p, walk) && walk[|walk| - 1] == to;
  }

  lemma Step1(env: Env, t: nat, p: Peer, a: (Shared, Pc), ch: Choice, b: (Shared, Pc))
    requires HandlerStep(env, t, p, a.0, a.1, ch, b.0, b.1)
    ensures Leads(env, t, p, a, b)
  {
    hide HandlerStep, ServerStep;
    Stay(env, t, p, a);
    Onwards(env, t, p, a, a, b);
  }

  lemma ServeStep(env: Env, t: nat, p: Peer, pc: Pc, sh: Shared, conn: nat, resp: AgentResponse, delivered: bool,
                  sh': Shared)
    requires ServerStep(env, sh, conn, resp, delivered, sh')
    ensures Leads(env, t, p, (sh, pc), (sh', pc))
  {
    hide HandlerStep, ServerStep;
    Stay(env, t, p, (sh, pc));
    Onwards(env, t, p, (sh, pc), (sh, pc), (sh', pc));
  }

  lemma TimePasses(env: Env, t: nat, p: Peer, pc: Pc, sh: Shared, ticks: nat)
    ensures Leads(env, t, p, (sh, pc), (sh.(now := sh.now + ticks), pc))
  {
    hide HandlerStep, ServerStep;
    var sh' := sh.(now := sh.now + ticks);
    Stay(env, t, p, (sh, pc));
    Onwards(env, t, p, (sh, pc), (sh, pc), (sh', pc));
  }

  function Choose(ok: bool, portBusy: bool): Choice {
    Choice(ok, portBusy, [], EndOfStream)
  }

  /** Busy rounds of a dial are retry steps. */
  lemma {:induction false} DialRetries(env: Env, t: nat, p: Peer, sh: Shared, name: string, key: PrivateKey, n: nat)
    requires n <= DIAL_RETRIES
    ensures Leads(env, t, p, (sh, Dialling(name, key, 0)), (sh, Dialling(name, key, n)))
  {
    hide Leads;
    Stay(env, t, p, (sh, Dialling(name, key, 0)));
    if n > 0 {
      DialRetries(env, t, p, sh, name, key, n - 1);
      assert DialStep(env, t, sh, Dialling(name, key, n - 1), Choose(false, true), sh, Dialling(name, key, n));
      Step1(env, t, p, (sh, Dialling(name, key, n - 1)), Choose(false, true), (sh, Dialling(name, key, n)));
      Join(env, t, p, (sh, Dialling(name, key, 0)), (sh, Dialling(name, key, n - 1)), (sh, Dialling(name, key, n)));
    }
  }

  lemma {:induction false} RebindRetries(env: Env, t: nat, p: Peer, sh: Shared, name: string, key: PrivateKey,
                                         answer: Answer, n: nat)
    requires n <= REBIND_RETRIES
    ensures Leads(env, t, p, (sh, Rebinding(name, key, answer, 0)), (sh, Rebinding(name, key, answer, n)))
  {
    hide Leads;
    Stay(env, t, p, (sh, Rebinding(name, key, answer, 0)));
    if n > 0 {
      RebindRetries(env, t, p, sh, name, key, answer, n - 1);
      assert RebindStep(env, t, sh, Rebinding(name, key, answer, n - 1), Choose(false, false), sh,
                        Rebinding(name, key, answer, n));
      Step1(env, t, p, (sh, Rebinding(name, key, answer, n - 1)), Choose(false, false),
            (sh, Rebinding(name, key, answer, n)));
      Join(env, t, p, (sh, Rebinding(name, key, answer, 0)), (sh, Rebinding(name, key, answer, n - 1)),
           (sh, Rebinding(name, key, answer, n)));
    }
  }

  // ---- The code ----

  /** What the world does during one connection, apart from the kernel's socket answers. */
  datatype Script = Script(
    order: seq<string>, lineDelay: nat, line: Line, readOk: bool, replyOk: bool, keyOk: bool,
    channel: Channel, requestDelay: nat, replyDelay: nat)

  /** Clock ticks in a millisecond, the unit of the retry pauses. */
  const TICKS_PER_MS := 1_000_000

  /** The request for this name and key gets through to the server's end. */
  predicate CanSend(env: Env, script: Script, name: string, key: PrivateKey) {
    Carries(script.channel.upCapacity, |Codec.Frame(env.json.encodeRequest(RequestFor(env, name, key)))|)
  }

  /** The server's reply is made, fits a frame, and gets back. */
  predicate CanHear(env: Env, script: Script, reply: AgentResponse) {
    var text := env.json.encodeResponse(reply);
    && PassesGate(env.host.config, env.clientPort) && |text| <= 4194304
    && Carries(script.channel.downCapacity, |Codec.Frame(text)|)
  }

  /** A listener can be bound in one of eleven attempts from the `k`-th on. */
  ghost predicate CanBind(listens: nat -> bool, k: nat) {
    exists i: nat :: k <= i <= k + 10 && listens(i)
  }

  /** What the server's answer to a request is, if it gets one. */
  ghost predicate IsReply(env: Env, name: string, key: PrivateKey, reply: AgentResponse) {
    exists at: nat :: Responds(env.host, env.json, env.peerCid, at, RequestFor(env, name, key), reply)
  }

  /** What the world allows a request: a key, a dial, sending, hearing the reply, and binding a listener again. */
  datatype Luck = Luck(key: bool, dial: bool, send: bool, hear: bool, bind: bool)

  /** How a request for credentials ends, from what the world allows and the reply it gives. */
  ghost predicate EndsAs(luck: Luck, key: PrivateKey, reply: AgentResponse, r: Result<Credentials, Failure>) {
    var heard := luck.key && luck.dial && luck.send && luck.hear;
    && (r == Err(CsrFailed) <==> !luck.key)
    && (r == Err(DialFailed) <==> luck.key && !luck.dial)
    && (r == Err(SendFailed) <==> luck.key && luck.dial && !luck.send)
    && (r == Err(ReceiveFailed) <==> luck.key && luck.dial && luck.send && !luck.hear)
    && (r == Err(RebindFailed) <==> heard && !luck.bind)
    && (r == Err(Rejected) <==> heard && luck.bind && reply.Error?)
    && (r == Err(UnexpectedReply) <==> heard && luck.bind && reply.HandshakeOk?)
    && (r.Ok? <==> heard && luck.bind && reply.CertOk?)
    && (r.Ok? ==> r.value == Credentials(reply.certPem, key, reply.caCertPem))
  }

  /** How the part of a request under the dial lock ends. */
  predicate AskEnds(dial: bool, send: bool, hear: bool, bind: bool, r: Result<Answer, Failure>) {
    && (r == Err(DialFailed) <==> !dial)
    && (r == Err(SendFailed) <==> dial && !send)
    && (r == Err(ReceiveFailed) <==> dial && send && !hear)
    && (r == Err(RebindFailed) <==> dial && send && hear && !bind)
    && (r.Ok? <==> dial && send && hear && bind)
  }

  /** Credentials from the reply, if there is one and it has any. */
  function Inspected(answer: Result<Answer, Failure>, key: PrivateKey): Result<Credentials, Failure> {
    match answer
    case Err(why) => Err(why)
    case Ok(Answer(CertOk(certPem, caCertPem), _)) => Ok(Credentials(certPem, key, caCertPem))
    case Ok(Answer(Error(_), _)) => Err(Rejected)
    case Ok(Answer(HandshakeOk(_), _)) => Err(UnexpectedReply)
  }

  lemma InspectedEnds(luck: Luck, key: PrivateKey, reply: AgentResponse, answer: Result<Answer, Failure>)
    requires luck.key && AskEnds(luck.dial, luck.send, luck.hear, luck.bind, answer)
    requires answer.Ok? ==> answer.value.response == reply
    ensures EndsAs(luck, key, reply, Inspected(answer, key))
  {}

  lemma NoKeyEnds(luck: Luck, key: PrivateKey, reply: AgentResponse)
    requires !luck.key
    ensures EndsAs(luck, key, reply, Err(CsrFailed))
  {}

  predicate IsRequestFailure(why: Failure) {
    why in {CsrFailed, DialFailed, SendFailed, ReceiveFailed, RebindFailed, Rejected, UnexpectedReply}
  }

  lemma RequestFailures(luck: Luck, key: PrivateKey, reply: AgentResponse, r: Result<Credentials, Failure>)
    requires EndsAs(luck, key, reply, r)
    ensures r.Err? ==> IsRequestFailure(r.error)
  {}

  /** The conversation so far asks for credentials. */
  predicate AsksToFetch(script: Script) {
    script.readOk && script.line.TypeIs? && script.line.reqType == "fetch"
  }

  /** How a conversation with a matched peer ends, given what a fetch would bring. */
  ghost predicate ServedAs(script: Script, name: string, fetched: Result<Credentials, Failure>, at: nat, o: Outcome) {
    && (o == Failed(ReadFailed) <==> !script.readOk)
    && (o == Closed <==> script.readOk && script.line.EndOfStream?)
    && (o == Failed(BadRequest) <==> script.readOk && script.line.NotJson?)
    && (o == Refused <==> script.readOk && script.line.TypeIs? && script.line.reqType != "fetch" && script.replyOk)
    && (o.Delivered? <==> AsksToFetch(script) && fetched.Ok? && script.replyOk)
    && (o.Delivered? ==> o == Delivered(name, fetched.value, at))
    && (o == Failed(ReplyFailed) <==>
          script.readOk && script.line.TypeIs? && !script.replyOk && (script.line.reqType == "fetch" ==> fetched.Ok?))
    && (AsksToFetch(script) && fetched.Err? ==> o == Failed(fetched.error))
  }

  class AgentState {
    var cache: map<string, Cached>
    var listener: Option<nat>
    const workloads: map<string, WorkloadConfig>
    var clock: nat
    var keysMade: nat
    const kernel: Kernel
    ghost var sh: Shared

    constructor (workloads: map<string, WorkloadConfig>, listener: nat, kernel: Kernel, clock: nat, ghost sh: Shared)
      requires kernel.Valid() && kernel.open == {listener}
      requires sh.cache == map[] && sh.listener && sh.workloads == workloads && sh.now == clock && sh.nextKey == 0
      ensures Valid() && this.sh == sh && this.kernel == kernel && this.workloads == workloads
      ensures this.listener == Some(listener) && cache == map[] && this.clock == clock
    {
      this.cache, this.listener, this.workloads := map[], Some(listener), workloads;
      this.clock, this.keysMade, this.kernel, this.sh := clock, 0, kernel, sh;
    }

    /** The protocol's view agrees with the fields. */
    ghost predicate Agrees()
      reads this
    {
      && sh.cache == cache && sh.listener == listener.Some? && sh.workloads == workloads
      && sh.now == clock && sh.nextKey == keysMade
    }

    /** Between connections the stored listener is the only open descriptor. */
    ghost predicate Valid()
      reads this, kernel
    {
      && Agrees() && kernel.Valid()
      && kernel.open == if listener.Some? then {listener.value} else {}
    }

    /** What the world allows a request that is made now. */
    ghost function LuckNow(env: Env, script: Script, name: string, reply: AgentResponse): Luck
      reads this`keysMade, kernel`sockets, kernel`binds
    {
      Luck(script.keyOk, DialSucceeds(kernel.fates, kernel.sockets), CanSend(env, script, name, PrivateKey(keysMade)),
           CanHear(env, script, reply), CanBind(kernel.listens, kernel.binds))
    }

    /** Credentials for a name, looked up at time `now`: a fresh cache entry, or what a request ends with. */
    ghost predicate Gives(env: Env, script: Script, name: string, now: nat, reply: AgentResponse,
                          r: Result<Credentials, Failure>)
      reads this`cache, this`keysMade, kernel`sockets, kernel`binds
    {
      if FreshAt(cache, name, now) then r == Ok(cache[name].creds)
      else
        var luck, key := LuckNow(env, script, name, reply), PrivateKey(keysMade);
        && EndsAs(luck, key, reply, r)
        && (luck.key && luck.dial && luck.send && luck.hear ==> IsReply(env, name, key, reply))
    }

    /** Nothing happens for a while. */
    method Idle(ticks: nat)
      requires Valid()
      modifies this`clock, this`sh
      ensures Valid() && sh == old(sh).(now := old(sh.now) + ticks)
    {
      clock := clock + ticks;
      sh := sh.(now := clock);
    }

    /** Lines 537-540: drop the listener, dial from the client port. */
    method Dial(env: Env, ghost t: nat, ghost p: Peer, name: string, key: PrivateKey) returns (stream: Option<nat>)
      requires Valid() && Listener !in sh.locks
      modifies this`listener, this`clock, this`sh, kernel
      ensures Agrees() && kernel.Valid() && listener.None?
      ensures clock == old(clock) + 1_000_000 * (kernel.sleptMs - old(kernel.sleptMs))
      ensures kernel.sleptMs >= old(kernel.sleptMs)
      ensures (stream.Some? <==> old(DialSucceeds(kernel.fates, kernel.sockets))) && kernel.binds == old(kernel.binds)
      ensures kernel.open == if stream.Some? then {stream.value} else {}
      ensures Leads(env, t, p, (old(sh), AwaitDrop(name, key)),
                    (sh, if stream.Some? then Sending(name, key, old(sh.nextConn)) else LeavingDial(DialFailed)))
      ensures sh == old(sh).(listener := false, dials := old(sh.dials) + [DialRecord(t, false)],
                             now := clock, nextConn := sh.nextConn,
                             links := if stream.Some? then old(sh.links)[old(sh.nextConn) := Open] else old(sh.links))
    {
      hide Leads, Tries, DialSucceeds;
      ghost var s0 := sh;
      if listener.Some? {
        kernel.Close(listener.value);
        listener := None;
      }
      ghost var s1 := Acquire(s0, Listener, t);
      ghost var s2 := Release(s1.(listener := false, dials := s1.dials + [DialRecord(t, false)]), Listener);
      assert s2.locks == s0.locks;
      DropListenerWalk(env, t, p, s0, name, key, s1, s2);
      ghost var k := kernel.sockets;
      var slept := kernel.sleptMs;
      stream := ConnectWithLocalPort(kernel);
      ghost var n := Tries(kernel.fates, k, 0);
      var pauses := TICKS_PER_MS * (kernel.sleptMs - slept);
      clock := clock + pauses;
      TimePasses(env, t, p, Dialling(name, key, 0), s2, pauses);
      ghost var s3 := s2.(now := clock);
      Join(env, t, p, (s0, AwaitDrop(name, key)), (s2, Dialling(name, key, 0)), (s3, Dialling(name, key, 0)));
      sh := if stream.Some? then s3.(links := s3.links[s3.nextConn := Open], nextConn := s3.nextConn + 1) else s3;
      DialWalk(env, t, p, s3, name, key, n - 1, stream.Some?, sh,
               if stream.Some? then Sending(name, key, s3.nextConn) else LeavingDial(DialFailed));
      Join(env, t, p, (s0, AwaitDrop(name, key)), (s3, Dialling(name, key, 0)),
           (sh, if stream.Some? then Sending(name, key, s3.nextConn) else LeavingDial(DialFailed)));
    }

    /** Lines 542-557: send the request, let the server answer it, receive, drop the stream in every case. */
    method Exchange(env: Env, ghost t: nat, ghost p: Peer, name: string, key: PrivateKey, stream: nat, ghost conn: nat,
                    script: Script)
      returns (r: Result<Answer, Failure>, ghost reply: AgentResponse)
      requires Agrees() && kernel.Valid() && kernel.open == {stream} && Faithful(env.json)
      requires conn in sh.links && sh.links[conn].Open?
      modifies this`clock, this`sh, kernel`open
      ensures Agrees() && kernel.Valid() && kernel.open == {}
      ensures Leads(env, t, p, (old(sh), Sending(name, key, conn)),
                    (sh, if r.Ok? then Rebinding(name, key, r.value, 0) else LeavingDial(r.error)))
      ensures sh.locks == old(sh.locks)
      ensures r == Err(SendFailed) <==> !CanSend(env, script, name, key)
      ensures r == Err(ReceiveFailed) <==> CanSend(env, script, name, key) && !CanHear(env, script, reply)
      ensures r.Ok? <==> CanSend(env, script, name, key) && CanHear(env, script, reply)
      ensures r.Ok? ==> r.value.response == reply && r.value.at == old(clock) + script.requestDelay
      ensures CanSend(env, script, name, key) && PassesGate(env.host.config, env.clientPort) ==>
                Responds(env.host, env.json, env.peerCid, old(clock) + script.requestDelay, RequestFor(env, name, key),
                         reply)
      ensures CanSend(env, script, name, key) && CanHear(env, script, reply) ==> IsReply(env, name, key, reply)
      ensures clock == old(clock) + script.requestDelay + if r == Err(SendFailed) then 0 else script.replyDelay
    {
      hide Leads, Responds, HandlerStep, ServerStep, Codec.EncodeLength, Faithful, Logged, PassesGate;
      ghost var from := (sh, Sending(name, key, conn));
      TimePasses(env, t, p, from.1, sh, script.requestDelay);
      clock := clock + script.requestDelay;
      sh := sh.(now := clock);
      ghost var s0, s1 := sh, Sent(env, sh, name, key, conn);
      var said;
      said, reply := Converse(env, script.channel, RequestFor(env, name, key), clock);
      if said == Err(NotSent) {
        kernel.Close(stream);
        SendFailsWalk(env, t, p, s0, name, key, conn);
        Join(env, t, p, from, (s0, Sending(name, key, conn)), (s0, LeavingDial(SendFailed)));
        return Err(SendFailed), reply;
      }
      var at := clock;
      clock := clock + script.replyDelay;
      ghost var s3 := Served(env, s1, conn, reply, said.Ok?).(now := clock);
      sh := s3;
      kernel.Close(stream);
      ExchangeWalk(env, t, p, s0, name, key, conn, reply, script.replyDelay, said.Ok?, s3);
      r := if said.Ok? then Ok(Answer(said.value, at)) else Err(ReceiveFailed);
      Join(env, t, p, from, (s0, Sending(name, key, conn)),
           (s3, if r.Ok? then Rebinding(name, key, r.value, 0) else LeavingDial(r.error)));
    }

    /** Lines 560-575: bind a listener again, with retries, and store it. */
    method Rebind(env: Env, ghost t: nat, ghost p: Peer, name: string, key: PrivateKey, answer: Answer)
      returns (ok: bool)
      requires Agrees() && kernel.Valid() && kernel.open == {} && listener.None? && Listener !in sh.locks
      modifies this`listener, this`clock, this`sh, kernel
      ensures Valid() && sh.locks == old(sh.locks) && (ok <==> listener.Some?)
      ensures clock == old(clock) + 1_000_000 * (kernel.sleptMs - old(kernel.sleptMs))
      ensures kernel.sleptMs >= old(kernel.sleptMs)
      ensures ok <==> CanBind(kernel.listens, old(kernel.binds))
      ensures Leads(env, t, p, (old(sh), Rebinding(name, key, answer, 0)),
                    (sh, if ok then Inspecting(name, key, answer) else LeavingDial(RebindFailed)))
    {
      hide Leads;
      ghost var from, k := (sh, Rebinding(name, key, answer, 0)), kernel.binds;
      var slept := kernel.sleptMs;
      var bound := BindWithRetries(kernel);
      ghost var n := kernel.binds - k;
      var pauses := TICKS_PER_MS * (kernel.sleptMs - slept);
      TimePasses(env, t, p, from.1, sh, pauses);
      clock := clock + pauses;
      ghost var s0 := sh.(now := clock);
      ok := bound.Some?;
      if ok {
        listener := bound;
      }
      sh := if ok then s0.(listener := true, dials := MarkRebound(s0.dials)) else s0;
      RebindWalk(env, t, p, s0, name, key, answer, if ok then n - 1 else REBIND_RETRIES, ok, sh);
      Join(env, t, p, from, (s0, from.1),
           (sh, if ok then Inspecting(name, key, answer) else LeavingDial(RebindFailed)));
    }

    /** The part of a request made under the dial lock: dial, exchange, rebind. */
    method Ask(env: Env, ghost t: nat, ghost p: Peer, name: string, key: PrivateKey, script: Script)
      returns (r: Result<Answer, Failure>, ghost reply: AgentResponse)
      requires Valid() && Listener !in sh.locks && Faithful(env.json)
      modifies this`listener, this`clock, this`sh, kernel
      ensures Valid() && sh.locks == old(sh.locks)
      ensures Leads(env, t, p, (old(sh), AwaitDrop(name, key)),
                    (sh, if r.Ok? then Inspecting(name, key, r.value) else LeavingDial(r.error)))
      ensures listener.Some? <==> r.Ok?
      ensures AskEnds(old(DialSucceeds(kernel.fates, kernel.sockets)), CanSend(env, script, name, key),
                      CanHear(env, script, reply), old(CanBind(kernel.listens, kernel.binds)), r)
      ensures old(DialSucceeds(kernel.fates, kernel.sockets)) ==>
                CanSend(env, script, name, key) && CanHear(env, script, reply) ==> IsReply(env, name, key, reply)
      ensures r.Err? ==> r.error in {DialFailed, SendFailed, ReceiveFailed, RebindFailed}
      ensures r.Ok? ==> r.value.response == reply && r.value.at >= old(clock)
      ensures clock >= old(clock)
    {
      hide Leads, DialSucceeds, CanSend, CanHear, CanBind, Responds, IsReply;
      reply := Error(WriteFailed);
      ghost var start := (sh, AwaitDrop(name, key));
      ghost var conn := sh.nextConn;
      var stream := Dial(env, t, p, name, key);
      if stream.None? {
        return Err(DialFailed), reply;
      }
      ghost var s2 := sh;
      r, reply := Exchange(env, t, p, name, key, stream.value, conn, script);
      Join(env, t, p, start, (s2, Sending(name, key, conn)),
           (sh, if r.Ok? then Rebinding(name, key, r.value, 0) else LeavingDial(r.error)));
      if r.Err? {
        return;
      }
      ghost var s3 := sh;
      var ok := Rebind(env, t, p, name, key, r.value);
      Join(env, t, p, start, (s3, Rebinding(name, key, r.value, 0)),
           (sh, if ok then Inspecting(name, key, r.value) else LeavingDial(RebindFailed)));
      if !ok {
        r := Err(RebindFailed);
      }
    }

    /**
     `request_cert_on_demand`. The listener is lost exactly when the attempt failed between dropping it and storing a
     new one; a rejection by the server comes after the rebind and keeps it.
     */
    method RequestCertOnDemand(env: Env, ghost t: nat, ghost p: Peer, name: string, script: Script)
      returns (r: Result<Credentials, Failure>, signedAt: nat, ghost reply: AgentResponse)
      requires Valid() && Protocol.Dial !in sh.locks && Listener !in sh.locks && Faithful(env.json)
      modifies this`listener, this`clock, this`keysMade, this`sh, kernel
      ensures Valid() && sh.locks == old(sh.locks)
      ensures Leads(env, t, p, (old(sh), Generating(name)),
                    (sh, if r.Ok? then Inserting(name, r.value, signedAt) else LeavingCache(r.error)))
      ensures var luck, key := old(LuckNow(env, script, name, reply)), PrivateKey(old(keysMade));
              && EndsAs(luck, key, reply, r)
              && (luck.key && luck.dial && luck.send && luck.hear ==> IsReply(env, name, key, reply))
      ensures clock >= old(clock) && (r.Err? ==> IsRequestFailure(r.error))
      ensures r.Ok? ==> listener.Some?
      ensures r.Err? ==>
                if r.error.CsrFailed? then listener == old(listener)
                else listener.Some? <==> r.error.Rejected? || r.error.UnexpectedReply?
    {
      hide Leads, HandlerStep, EndsAs, IsReply, AskEnds, CanSend, CanHear, CanBind, DialSucceeds, IsRequestFailure;
      signedAt, reply := 0, Error(WriteFailed);
      ghost var s0 := sh;
      var generated := GenerateCsr(name, if script.keyOk then Some(PrivateKey(keysMade)) else None);
      if generated.Err? {
        KeyFailsWalk(env, t, p, s0, name);
        NoKeyEnds(LuckNow(env, script, name, reply), PrivateKey(keysMade), reply);
        RequestFailures(LuckNow(env, script, name, reply), PrivateKey(keysMade), reply, Err(CsrFailed));
        return Err(CsrFailed), 0, reply;
      }
      var key := generated.value.keyPem;
      keysMade := keysMade + 1;
      sh := Acquire(s0.(nextKey := s0.nextKey + 1), Protocol.Dial, t);
      ghost var s1 := sh;
      KeyWalk(env, t, p, s0, name, s1);
      var answer;
      answer, reply := Ask(env, t, p, name, key, script);
      ghost var luck := old(LuckNow(env, script, name, reply));
      ghost var s2 := sh;
      sh := Release(s2, Protocol.Dial);
      assert sh.locks == s0.locks;
      r := match answer {
        case Err(why) => Err(why)
        case Ok(a) => match a.response {
          case CertOk(certPem, caCertPem) => Ok(Credentials(certPem, key, caCertPem))
          case Error(_) => Err(Rejected)
          case HandshakeOk(_) => Err(UnexpectedReply)
        }
      };
      assert r == Inspected(answer, key);
      InspectedEnds(luck, key, reply, answer);
      RequestFailures(luck, key, reply, r);
      if r.Ok? {
        signedAt := answer.value.at;
      }
      InspectWalk(env, t, p, (s0, Generating(name)), s1, s2, name, key, answer, r, signedAt);
    }

    /** Lines 505-516: request, and insert what came back. */
    method FetchAndInsert(env: Env, ghost t: nat, ghost p: Peer, name: string, script: Script)
      returns (r: Result<Credentials, Failure>, ghost reply: AgentResponse)
      requires Valid() && Protocol.Dial !in sh.locks && Listener !in sh.locks && Faithful(env.json)
      modifies this`cache, this`listener, this`clock, this`keysMade, this`sh, kernel
      ensures Valid() && sh.locks == old(sh.locks) - {Cache}
      ensures Leads(env, t, p, (old(sh), Generating(name)),
                    (sh, if r.Ok? then Replying(name, r.value, clock) else Unwinding(Failed(r.error))))
      ensures var luck, key := old(LuckNow(env, script, name, reply)), PrivateKey(old(keysMade));
              && EndsAs(luck, key, reply, r)
              && (luck.key && luck.dial && luck.send && luck.hear ==> IsReply(env, name, key, reply))
      ensures clock >= old(clock) && (r.Err? ==> IsRequestFailure(r.error))
      ensures r.Ok? ==> exists signedAt :: cache == old(cache)[name := Cached(r.value, clock, signedAt)]
      ensures r.Err? ==> cache == old(cache)
    {
      hide Leads, HandlerStep, EndsAs, LuckNow, IsReply, IsRequestFailure;
      ghost var start := (sh, Generating(name));
      var signedAt;
      r, signedAt, reply := RequestCertOnDemand(env, t, p, name, script);
      ghost var s2 := sh;
      if r.Err? {
        LeaveCacheWalk(env, t, p, s2, r.error);
        sh := Release(s2, Cache);
        Join(env, t, p, start, (s2, LeavingCache(r.error)), (sh, Unwinding(Failed(r.error))));
        return;
      }
      cache := cache[name := Cached(r.value, clock, signedAt)];
      InsertWalk(env, t, p, s2, name, r.value, signedAt);
      sh := Inserted(s2, name, r.value, signedAt);
      Join(env, t, p, start, (s2, Inserting(name, r.value, signedAt)), (sh, Replying(name, r.value, clock)));
    }

    /**
     `get_or_fetch_credentials`. A fresh entry is served as it is and nothing else happens; otherwise the cache gains
     exactly the credentials that are returned, or nothing.
     */
    method GetOrFetchCredentials(env: Env, ghost t: nat, ghost p: Peer, name: string, script: Script)
      returns (r: Result<Credentials, Failure>, ghost reply: AgentResponse)
      requires Valid() && sh.locks == map[Workloads := t] && Faithful(env.json)
      modifies this`cache, this`listener, this`clock, this`keysMade, this`sh, kernel
      ensures Valid() && sh.locks == old(sh.locks)
      ensures Leads(env, t, p, (old(sh), AwaitCache(name)),
                    (sh, if r.Ok? then Replying(name, r.value, clock) else Unwinding(Failed(r.error))))
      ensures old(Gives(env, script, name, clock, reply, r))
      ensures clock >= old(clock) && (r.Err? ==> IsRequestFailure(r.error))
      ensures FreshAt(old(cache), name, old(clock)) ==>
                r == Ok(old(cache)[name].creds) && cache == old(cache) && kernel.sockets == old(kernel.sockets)
      ensures !FreshAt(old(cache), name, old(clock)) && r.Ok? ==>
                exists signedAt :: cache == old(cache)[name := Cached(r.value, clock, signedAt)]
      ensures r.Ok? ==> name in cache && cache[name].creds == r.value
      ensures r.Err? ==> cache == old(cache)
    {
      hide Leads, HandlerStep, Threshold, MarkRebound, Answers, EndsAs, LuckNow, IsReply, IsRequestFailure;
      reply := Error(WriteFailed);
      ghost var s0 := sh;
      if name in cache && clock - cache[name].fetchedAt < Threshold(cache[name].creds.certPem) {
        r := Ok(cache[name].creds);
        HitWalk(env, t, p, s0, name);
        return;
      }
      MissWalk(env, t, p, s0, name);
      sh := Acquire(s0, Cache, t);
      ghost var s1 := sh;
      r, reply := FetchAndInsert(env, t, p, name, script);
      Join(env, t, p, (s0, AwaitCache(name)), (s1, Generating(name)),
           (sh, if r.Ok? then Replying(name, r.value, clock) else Unwinding(Failed(r.error))));
    }

    /** Lines 358-386, for a matched workload: read the line, fetch, reply. */
    method ServeMatched(env: Env, ghost t: nat, p: Peer, name: string, script: Script)
      returns (outcome: Outcome, ghost fetched: Result<Credentials, Failure>, ghost reply: AgentResponse)
      requires Valid() && sh.locks == map[Workloads := t] && Faithful(env.json)
      modifies this`cache, this`listener, this`clock, this`keysMade, this`sh, kernel
      ensures Valid() && sh.locks == old(sh.locks)
      ensures Leads(env, t, p, (old(sh), ReadingLine(name)), (sh, Unwinding(outcome)))
      ensures ServedAs(script, name, fetched, clock, outcome)
      ensures AsksToFetch(script) ==> old(Gives(env, script, name, clock + script.lineDelay, reply, fetched))
      ensures !AsksToFetch(script) || fetched.Err? ==> cache == old(cache)
      ensures clock >= old(clock) + script.lineDelay
      ensures outcome.Delivered? ==> outcome.name == name && name in cache && cache[name].creds == outcome.creds
    {
      hide Leads, HandlerStep, FreshAt, EndsAs, LuckNow, IsReply;
      fetched, reply := Err(PeerUnknown), Error(WriteFailed);
      ghost var start := (sh, ReadingLine(name));
      TimePasses(env, t, p, start.1, sh, script.lineDelay);
      clock := clock + script.lineDelay;
      sh := sh.(now := clock);
      ghost var s1 := sh;
      ReadWalk(env, t, p, s1, name, script);
      Join(env, t, p, start, (s1, ReadingLine(name)), (s1, AfterLine(name, script)));
      if !script.readOk {
        outcome := Failed(ReadFailed);
        return;
      }
      if script.line.EndOfStream? {
        outcome := Closed;
        return;
      }
      if script.line.NotJson? {
        outcome := Failed(BadRequest);
        return;
      }
      if script.line.reqType != "fetch" {
        outcome := if script.replyOk then Refused else Failed(ReplyFailed);
        RefuseWalk(env, t, p, start, s1, RefusingType(name), script.replyOk, outcome);
        return;
      }
      var r;
      r, reply := GetOrFetchCredentials(env, t, p, name, script);
      fetched := r;
      ghost var s2 := sh;
      Join(env, t, p, start, (s1, AwaitCache(name)),
           (s2, if r.Ok? then Replying(name, r.value, clock) else Unwinding(Failed(r.error))));
      if r.Err? {
        outcome := Failed(r.error);
        return;
      }
      outcome := if script.replyOk then Delivered(name, r.value, clock) else Failed(ReplyFailed);
      sh := if script.replyOk then s2.(deliveries := s2.deliveries + [Delivery(t, p, name, r.value)]) else s2;
      ReplyWalk(env, t, p, start, s2, name, r.value, clock, script.replyOk, sh, outcome);
    }

    /**
     `handle_workload_conn` for a peer whose credentials are known. The whole handler is a walk of the protocol from
     its first lock to its end; afterwards no lock is held and no descriptor is open but the stored listener.
     */
    method HandleWorkloadConn(env: Env, ghost t: nat, p: Peer, script: Script)
      returns (outcome: Outcome, matched: Option<string>, ghost fetched: Result<Credentials, Failure>,
               ghost reply: AgentResponse)
      requires Valid() && sh.locks == map[] && IterationOrder(script.order, workloads) && Faithful(env.json)
      modifies this`cache, this`listener, this`clock, this`keysMade, this`sh, kernel
      ensures Valid() && sh.locks == map[]
      ensures Leads(env, t, p, (old(sh), AwaitWorkloads), (sh, Done(outcome)))
      ensures matched == Select(script.order, workloads, p.proc, p.accounts)
      ensures matched.None? <==>
                forall name :: name in workloads ==> !Matches(workloads[name].selector, p.proc, p.accounts)
      ensures matched.Some? ==> BestFor(workloads, p, matched.value)
      ensures match matched
              case None => outcome == if script.replyOk then Refused else Failed(ReplyFailed)
              case Some(name) =>
                && ServedAs(script, name, fetched, clock, outcome)
                && (AsksToFetch(script) ==> old(Gives(env, script, name, clock + script.lineDelay, reply, fetched)))
      ensures matched.None? || !AsksToFetch(script) || fetched.Err? ==> cache == old(cache)
      ensures clock >= old(clock) + if matched.Some? then script.lineDelay else 0
      ensures outcome.Delivered? ==>
                && BestFor(workloads, p, outcome.name)
                && outcome.name in cache && cache[outcome.name].creds == outcome.creds
    {
      hide Leads, HandlerStep, Winner, Select, Matches, FreshAt, EndsAs, LuckNow, IsReply;
      fetched, reply := Err(PeerUnknown), Error(WriteFailed);
      ghost var s0 := sh;
      ghost var start := (s0, AwaitWorkloads);
      matched := MatchWorkload(workloads, script.order, p.proc, p.accounts);
      AttestWalk(env, t, p, s0, script.order);
      sh := Acquire(s0, Workloads, t);
      ghost var s1 := sh;
      if matched.None? {
        outcome := if script.replyOk then Refused else Failed(ReplyFailed);
        RefuseWalk(env, t, p, start, s1, RefusingMatch, script.replyOk, outcome);
      } else {
        outcome, fetched, reply := ServeMatched(env, t, p, matched.value, script);
        Join(env, t, p, start, (s1, ReadingLine(matched.value)), (sh, Unwinding(outcome)));
      }
      UnwindWalk(env, t, p, start, sh, outcome);
      sh := Release(sh, Workloads);
    }
  }

  /** Where the client's line takes the handler. */
  function AfterLine(name: string, script: Script): Pc {
    if !script.readOk then Unwinding(Failed(ReadFailed))
    else match script.line
      case EndOfStream => Unwinding(Closed)
      case NotJson => Unwinding(Failed(BadRequest))
      case TypeIs(reqType) => if reqType != "fetch" then RefusingType(name) else AwaitCache(name)
  }

  lemma AttestWalk(env: Env, t: nat, p: Peer, sh: Shared, order: seq<string>)
    requires Workloads !in sh.locks && IterationOrder(order, sh.workloads)
    ensures forall i :: 0 <= i < |order| ==> order[i] in sh.workloads
    ensures Leads(env, t, p, (sh, AwaitWorkloads),
                  (Acquire(sh, Workloads, t), match Select(order, sh.workloads, p.proc, p.accounts)
                                              case None => RefusingMatch
                                              case Some(name) => ReadingLine(name)))
  {
    assert forall i :: 0 <= i < |order| ==> order[i] in order;
    hide Leads, Select, IterationOrder;
    var ch := Choice(true, false, order, EndOfStream);
    var a, b := (sh, AwaitWorkloads), (Acquire(sh, Workloads, t), Matching);
    var c := (b.0, match Select(order, sh.workloads, p.proc, p.accounts)
                   case None => RefusingMatch
                   case Some(name) => ReadingLine(name));
    assert ClientStep(env, t, p, a.0, a.1, ch, b.0, b.1);
    assert ClientStep(env, t, p, b.0, b.1, ch, c.0, c.1);
    Step1(env, t, p, a, ch, b);
    Step1(env, t, p, b, ch, c);
    Join(env, t, p, a, b, c);
  }

  lemma ReadWalk(env: Env, t: nat, p: Peer, sh: Shared, name: string, script: Script)
    ensures Leads(env, t, p, (sh, ReadingLine(name)), (sh, AfterLine(name, script)))
  {
    hide Leads;
    var ch := Choice(script.readOk, false, [], script.line);
    var a, c := (sh, ReadingLine(name)), (sh, AfterLine(name, script));
    if !script.readOk || script.line.EndOfStream? {
      assert ClientStep(env, t, p, sh, a.1, ch, sh, c.1);
      Step1(env, t, p, a, ch, c);
    } else {
      var b := (sh, ParsingLine(name, script.line));
      assert ClientStep(env, t, p, sh, a.1, ch, sh, b.1);
      assert ClientStep(env, t, p, sh, b.1, ch, sh, c.1);
      Step1(env, t, p, a, ch, b);
      Step1(env, t, p, b, ch, c);
      Join(env, t, p, a, b, c);
    }
  }

  lemma UnwindWalk(env: Env, t: nat, p: Peer, start: (Shared, Pc), sh: Shared, outcome: Outcome)
    requires Leads(env, t, p, start, (sh, Unwinding(outcome)))
    ensures Leads(env, t, p, start, (Release(sh, Workloads), Done(outcome)))
  {
    hide Leads;
    var a, b := (sh, Unwinding(outcome)), (Release(sh, Workloads), Done(outcome));
    assert ClientStep(env, t, p, a.0, a.1, Choose(true, false), b.0, b.1);
    Step1(env, t, p, a, Choose(true, false), b);
    Join(env, t, p, start, a, b);
  }

  /** An error reply, for want of a match or for a wrong request type. */
  lemma RefuseWalk(env: Env, t: nat, p: Peer, start: (Shared, Pc), sh: Shared, pc: Pc, ok: bool, outcome: Outcome)
    requires Leads(env, t, p, start, (sh, pc)) && (pc.RefusingMatch? || pc.RefusingType?)
    requires outcome == if ok then Refused else Failed(ReplyFailed)
    ensures Leads(env, t, p, start, (sh, Unwinding(outcome)))
  {
    hide Leads;
    var b := (sh, Unwinding(outcome));
    assert ClientStep(env, t, p, sh, pc, Choose(ok, false), b.0, b.1);
    Step1(env, t, p, (sh, pc), Choose(ok, false), b);
    Join(env, t, p, start, (sh, pc), b);
  }

  lemma ReplyWalk(env: Env, t: nat, p: Peer, start: (Shared, Pc), sh: Shared, name: string, creds: Credentials, at: nat,
                  ok: bool, sh': Shared, outcome: Outcome)
    requires Leads(env, t, p, start, (sh, Replying(name, creds, at)))
    requires sh' == if ok then sh.(deliveries := sh.deliveries + [Delivery(t, p, name, creds)]) else sh
    requires outcome == if ok then Delivered(name, creds, at) else Failed(ReplyFailed)
    ensures Leads(env, t, p, start, (sh', Unwinding(outcome)))
  {
    hide Leads;
    var a, b := (sh, Replying(name, creds, at)), (sh', Unwinding(outcome));
    assert ClientStep(env, t, p, a.0, a.1, Choose(ok, false), b.0, b.1);
    Step1(env, t, p, a, Choose(ok, false), b);
    Join(env, t, p, start, a, b);
  }

  lemma TakeCache(env: Env, t: nat, p: Peer, sh: Shared, name: string)
    requires Cache !in sh.locks
    ensures Leads(env, t, p, (sh, AwaitCache(name)), (Acquire(sh, Cache, t), LookingUp(name)))
  {
    hide Leads;
    var a, b := (sh, AwaitCache(name)), (Acquire(sh, Cache, t), LookingUp(name));
    assert CacheStep(env, t, a.0, a.1, Choose(true, false), b.0, b.1);
    Step1(env, t, p, a, Choose(true, false), b);
  }

  lemma HitWalk(env: Env, t: nat, p: Peer, sh: Shared, name: string)
    requires Cache !in sh.locks && FreshAt(sh.cache, name, sh.now)
    ensures name in sh.cache && Leads(env, t, p, (sh, AwaitCache(name)),
                                      (sh, Replying(name, sh.cache[name].creds, sh.now)))
  {
    TakeCache(env, t, p, sh, name);
    hide Leads;
    var a, b := (Acquire(sh, Cache, t), LookingUp(name)), (sh, Replying(name, sh.cache[name].creds, sh.now));
    assert Release(a.0, Cache).locks == sh.locks;
    assert CacheStep(env, t, a.0, a.1, Choose(true, false), b.0, b.1);
    Step1(env, t, p, a, Choose(true, false), b);
    Join(env, t, p, (sh, AwaitCache(name)), a, b);
  }

  lemma MissWalk(env: Env, t: nat, p: Peer, sh: Shared, name: string)
    requires Cache !in sh.locks && !FreshAt(sh.cache, name, sh.now)
    ensures Leads(env, t, p, (sh, AwaitCache(name)), (Acquire(sh, Cache, t), Generating(name)))
  {
    TakeCache(env, t, p, sh, name);
    hide Leads;
    var a, b := (Acquire(sh, Cache, t), LookingUp(name)), (Acquire(sh, Cache, t), Generating(name));
    assert CacheStep(env, t, a.0, a.1, Choose(true, false), b.0, b.1);
    Step1(env, t, p, a, Choose(true, false), b);
    Join(env, t, p, (sh, AwaitCache(name)), a, b);
  }

  lemma LeaveCacheWalk(env: Env, t: nat, p: Peer, sh: Shared, why: Failure)
    ensures Leads(env, t, p, (sh, LeavingCache(why)), (Release(sh, Cache), Unwinding(Failed(why))))
  {
    hide Leads;
    var a, b := (sh, LeavingCache(why)), (Release(sh, Cache), Unwinding(Failed(why)));
    assert CacheStep(env, t, a.0, a.1, Choose(true, false), b.0, b.1);
    Step1(env, t, p, a, Choose(true, false), b);
  }

  function Inserted(sh: Shared, name: string, creds: Credentials, signedAt: nat): Shared {
    Release(sh.(cache := sh.cache[name := Cached(creds, sh.now, signedAt)],
                fetches := sh.fetches + [Fetch(name, creds.certPem, sh.now)]), Cache)
  }

  lemma InsertWalk(env: Env, t: nat, p: Peer, sh: Shared, name: string, creds: Credentials, signedAt: nat)
    ensures Leads(env, t, p, (sh, Inserting(name, creds, signedAt)),
                  (Inserted(sh, name, creds, signedAt), Replying(name, creds, sh.now)))
  {
    hide Leads;
    var a := (sh, Inserting(name, creds, signedAt));
    var b := (Inserted(sh, name, creds, signedAt), Replying(name, creds, sh.now));
    assert CacheStep(env, t, a.0, a.1, Choose(true, false), b.0, b.1);
    Step1(env, t, p, a, Choose(true, false), b);
  }

  function Sent(env: Env, sh: Shared, name: string, key: PrivateKey, conn: nat): Shared {
    sh.(links := sh.links[conn := Requested(RequestFor(env, name, key))])
  }

  /** What the server logs when it answers on a connection. */
  function Logged(sh: Shared, conn: nat, resp: AgentResponse): seq<Issuance> {
    if resp.CertOk? && conn in sh.links && sh.links[conn].Requested? && sh.links[conn].req.CertRequest? then
      var req := sh.links[conn].req;
      [Issuance(req.vmName, req.identity, resp.certPem, sh.now)]
    else []
  }

  /** The server's step on a request: refused at the gate, or answered, or answered into the void. */
  function Served(env: Env, sh: Shared, conn: nat, resp: AgentResponse, answered: bool): Shared {
    if !PassesGate(env.host.config, env.clientPort) then sh.(links := sh.links[conn := HungUp])
    else
      sh.(links := sh.links[conn := if answered then Answered(Answer(resp, sh.now)) else HungUp],
          issued := sh.issued + Logged(sh, conn, resp))
  }

  lemma SendFailsWalk(env: Env, t: nat, p: Peer, sh: Shared, name: string, key: PrivateKey, conn: nat)
    ensures Leads(env, t, p, (sh, Sending(name, key, conn)), (sh, LeavingDial(SendFailed)))
  {
    hide Leads;
    var a, b, c := (sh, Sending(name, key, conn)), (sh, Aborting(conn, SendFailed)), (sh, LeavingDial(SendFailed));
    var ch := Choose(false, false);
    assert DialStep(env, t, sh, a.1, ch, sh, b.1);
    assert DialStep(env, t, sh, b.1, ch, sh, c.1);
    Step1(env, t, p, a, ch, b);
    Step1(env, t, p, b, ch, c);
    Join(env, t, p, a, b, c);
  }

  lemma ReceiveWalk(env: Env, t: nat, p: Peer, sh: Shared, name: string, key: PrivateKey, conn: nat, ok: bool)
    requires ok ==> conn in sh.links && sh.links[conn].Answered?
    ensures Leads(env, t, p, (sh, Receiving(name, key, conn)),
                  (sh, if ok then Rebinding(name, key, sh.links[conn].answer, 0) else LeavingDial(ReceiveFailed)))
  {
    hide Leads;
    var a := (sh, Receiving(name, key, conn));
    var b := (sh, if ok then Closing(name, key, conn, sh.links[conn].answer) else Aborting(conn, ReceiveFailed));
    var c := (sh, if ok then Rebinding(name, key, sh.links[conn].answer, 0) else LeavingDial(ReceiveFailed));
    var ch := Choose(ok, false);
    assert DialStep(env, t, sh, a.1, ch, sh, b.1);
    assert DialStep(env, t, sh, b.1, ch, sh, c.1);
    Step1(env, t, p, a, ch, b);
    Step1(env, t, p, b, ch, c);
    Join(env, t, p, a, b, c);
  }

  /** A request that the server takes up at once. */
  lemma AskedWalk(env: Env, t: nat, p: Peer, s0: Shared, name: string, key: PrivateKey, conn: nat,
                  resp: AgentResponse, ok: bool, s2: Shared)
    requires conn in s0.links && s0.links[conn].Open?
    requires PassesGate(env.host.config, env.clientPort) ==>
               Responds(env.host, env.json, env.peerCid, s0.now, RequestFor(env, name, key), resp)
    requires s2 == Served(env, Sent(env, s0, name, key, conn), conn, resp, ok)
    ensures Leads(env, t, p, (s0, Sending(name, key, conn)), (s2, Receiving(name, key, conn)))
  {
    hide Leads, Responds;
    var s1 := Sent(env, s0, name, key, conn);
    var from, at := (s0, Sending(name, key, conn)), Receiving(name, key, conn);
    assert DialStep(env, t, s0, from.1, Choose(true, false), s1, at);
    Step1(env, t, p, from, Choose(true, false), (s1, at));
    assert ServerStep(env, s1, conn, resp, ok, s2);
    ServeStep(env, t, p, at, s1, conn, resp, ok, s2);
    Join(env, t, p, from, (s1, at), (s2, at));
  }

  lemma ExchangeWalk(env: Env, t: nat, p: Peer, s0: Shared, name: string, key: PrivateKey, conn: nat,
                     resp: AgentResponse, delay: nat, ok: bool, s3: Shared)
    requires conn in s0.links && s0.links[conn].Open?
    requires PassesGate(env.host.config, env.clientPort) ==>
               Responds(env.host, env.json, env.peerCid, s0.now, RequestFor(env, name, key), resp)
    requires ok ==> PassesGate(env.host.config, env.clientPort)
    requires s3 == Served(env, Sent(env, s0, name, key, conn), conn, resp, ok).(now := s0.now + delay)
    ensures Leads(env, t, p, (s0, Sending(name, key, conn)),
                  (s3, if ok then Rebinding(name, key, Answer(resp, s0.now), 0) else LeavingDial(ReceiveFailed)))
  {
    hide Leads, Responds;
    var s2 := Served(env, Sent(env, s0, name, key, conn), conn, resp, ok);
    var from, at := (s0, Sending(name, key, conn)), Receiving(name, key, conn);
    AskedWalk(env, t, p, s0, name, key, conn, resp, ok, s2);
    TimePasses(env, t, p, at, s2, delay);
    Join(env, t, p, from, (s2, at), (s3, at));
    ReceiveWalk(env, t, p, s3, name, key, conn, ok);
    Join(env, t, p, from, (s3, at),
         (s3, if ok then Rebinding(name, key, Answer(resp, s0.now), 0) else LeavingDial(ReceiveFailed)));
  }

  lemma StoreWalk(env: Env, t: nat, p: Peer, sh: Shared, name: string, key: PrivateKey, answer: Answer, failures: nat,
                  sh': Shared)
    requires failures <= REBIND_RETRIES && Listener !in sh.locks
    requires sh' == sh.(listener := true, dials := MarkRebound(sh.dials))
    ensures Leads(env, t, p, (sh, Rebinding(name, key, answer, failures)), (sh', Inspecting(name, key, answer)))
  {
    hide Leads, MarkRebound;
    var ch, a := Choose(true, false), (sh, Rebinding(name, key, answer, failures));
    var s1 := sh.(dials := MarkRebound(sh.dials));
    var s2 := Acquire(s1, Listener, t);
    var b, c, d := (s1, AwaitStore(name, key, answer)), (s2, Storing(name, key, answer)),
      (sh', Inspecting(name, key, answer));
    assert RebindStep(env, t, sh, a.1, ch, b.0, b.1);
    assert RebindStep(env, t, b.0, b.1, ch, c.0, c.1);
    assert Release(s2.(listener := true), Listener).locks == sh.locks;
    assert RebindStep(env, t, c.0, c.1, ch, d.0, d.1);
    hide RebindStep;
    Step1(env, t, p, a, ch, b);
    Step1(env, t, p, b, ch, c);
    Step1(env, t, p, c, ch, d);
    Join(env, t, p, a, b, c);
    Join(env, t, p, a, c, d);
  }

  lemma GiveUpWalk(env: Env, t: nat, p: Peer, sh: Shared, name: string, key: PrivateKey, answer: Answer)
    ensures Leads(env, t, p, (sh, Rebinding(name, key, answer, REBIND_RETRIES)), (sh, LeavingDial(RebindFailed)))
  {
    hide Leads;
    var a, b := (sh, Rebinding(name, key, answer, REBIND_RETRIES)), (sh, LeavingDial(RebindFailed));
    assert RebindStep(env, t, sh, a.1, Choose(false, false), sh, b.1);
    Step1(env, t, p, a, Choose(false, false), b);
  }

  /** A rebind of `failures` failed binds and one that decides. */
  lemma RebindWalk(env: Env, t: nat, p: Peer, sh: Shared, name: string, key: PrivateKey, answer: Answer,
                   failures: nat, ok: bool, sh': Shared)
    requires failures <= REBIND_RETRIES && (!ok ==> failures == REBIND_RETRIES) && Listener !in sh.locks
    requires sh' == if ok then sh.(listener := true, dials := MarkRebound(sh.dials)) else sh
    ensures Leads(env, t, p, (sh, Rebinding(name, key, answer, 0)),
                  (sh', if ok then Inspecting(name, key, answer) else LeavingDial(RebindFailed)))
  {
    hide Leads, MarkRebound;
    RebindRetries(env, t, p, sh, name, key, answer, failures);
    if ok {
      StoreWalk(env, t, p, sh, name, key, answer, failures, sh');
    } else {
      GiveUpWalk(env, t, p, sh, name, key, answer);
    }
    Join(env, t, p, (sh, Rebinding(name, key, answer, 0)), (sh, Rebinding(name, key, answer, failures)),
         (sh', if ok then Inspecting(name, key, answer) else LeavingDial(RebindFailed)));
  }

  lemma KeyFailsWalk(env: Env, t: nat, p: Peer, sh: Shared, name: string)
    ensures Leads(env, t, p, (sh, Generating(name)), (sh, LeavingCache(CsrFailed)))
  {
    hide Leads;
    assert CacheStep(env, t, sh, Generating(name), Choose(false, false), sh, LeavingCache(CsrFailed));
    Step1(env, t, p, (sh, Generating(name)), Choose(false, false), (sh, LeavingCache(CsrFailed)));
  }

  lemma KeyWalk(env: Env, t: nat, p: Peer, sh: Shared, name: string, sh': Shared)
    requires Protocol.Dial !in sh.locks && sh' == Acquire(sh.(nextKey := sh.nextKey + 1), Protocol.Dial, t)
    ensures Leads(env, t, p, (sh, Generating(name)), (sh', AwaitDrop(name, PrivateKey(sh.nextKey))))
  {
    hide Leads;
    var ch, key := Choose(true, false), PrivateKey(sh.nextKey);
    var a, b, c := (sh, Generating(name)), (sh.(nextKey := sh.nextKey + 1), AwaitDial(name, key)),
      (sh', AwaitDrop(name, key));
    assert CacheStep(env, t, a.0, a.1, ch, b.0, b.1);
    assert CacheStep(env, t, b.0, b.1, ch, c.0, c.1);
    Step1(env, t, p, a, ch, b);
    Step1(env, t, p, b, ch, c);
    Join(env, t, p, a, b, c);
  }

  /** From the key to the end of the request: leave with an error, or inspect the answer, and drop the dial guard. */
  lemma InspectWalk(env: Env, t: nat, p: Peer, start: (Shared, Pc), s1: Shared, s2: Shared, name: string,
                    key: PrivateKey, answer: Result<Answer, Failure>, r: Result<Credentials, Failure>, signedAt: nat)
    requires Leads(env, t, p, start, (s1, AwaitDrop(name, key)))
    requires Leads(env, t, p, (s1, AwaitDrop(name, key)),
                   (s2, if answer.Ok? then Inspecting(name, key, answer.value) else LeavingDial(answer.error)))
    requires match answer
             case Err(why) => r == Err(why)
             case Ok(a) =>
               match a.response
               case CertOk(certPem, caCertPem) => r == Ok(Credentials(certPem, key, caCertPem)) && signedAt == a.at
               case Error(_) => r == Err(Rejected)
               case HandshakeOk(_) => r == Err(UnexpectedReply)
    ensures Leads(env, t, p, start, (Release(s2, Protocol.Dial),
                                     if r.Ok? then Inserting(name, r.value, signedAt) else LeavingCache(r.error)))
  {
    hide Leads;
    var mid := (s2, if answer.Ok? then Inspecting(name, key, answer.value) else LeavingDial(answer.error));
    Join(env, t, p, start, (s1, AwaitDrop(name, key)), mid);
    if r.Ok? {
      AcceptWalk(env, t, p, s2, name, key, answer.value);
      Join(env, t, p, start, mid, (Release(s2, Protocol.Dial), Inserting(name, r.value, signedAt)));
    } else {
      if answer.Ok? {
        RejectWalk(env, t, p, s2, name, key, answer.value, r.error);
        Join(env, t, p, start, mid, (s2, LeavingDial(r.error)));
      }
      LeaveDialWalk(env, t, p, s2, r.error);
      Join(env, t, p, start, (s2, LeavingDial(r.error)), (Release(s2, Protocol.Dial), LeavingCache(r.error)));
    }
  }

  lemma LeaveDialWalk(env: Env, t: nat, p: Peer, sh: Shared, why: Failure)
    ensures Leads(env, t, p, (sh, LeavingDial(why)), (Release(sh, Protocol.Dial), LeavingCache(why)))
  {
    hide Leads;
    var a, b := (sh, LeavingDial(why)), (Release(sh, Protocol.Dial), LeavingCache(why));
    assert RebindStep(env, t, a.0, a.1, Choose(true, false), b.0, b.1);
    Step1(env, t, p, a, Choose(true, false), b);
  }

  lemma AcceptWalk(env: Env, t: nat, p: Peer, sh: Shared, name: string, key: PrivateKey, answer: Answer)
    requires answer.response.CertOk?
    ensures Leads(env, t, p, (sh, Inspecting(name, key, answer)),
                  (Release(sh, Protocol.Dial),
                   Inserting(name, Credentials(answer.response.certPem, key, answer.response.caCertPem), answer.at)))
  {
    hide Leads;
    var a := (sh, Inspecting(name, key, answer));
    var b := (Release(sh, Protocol.Dial),
              Inserting(name, Credentials(answer.response.certPem, key, answer.response.caCertPem), answer.at));
    assert RebindStep(env, t, a.0, a.1, Choose(true, false), b.0, b.1);
    Step1(env, t, p, a, Choose(true, false), b);
  }

  lemma RejectWalk(env: Env, t: nat, p: Peer, sh: Shared, name: string, key: PrivateKey, answer: Answer, why: Failure)
    requires !answer.response.CertOk? && why == if answer.response.Error? then Rejected else UnexpectedReply
    ensures Leads(env, t, p, (sh, Inspecting(name, key, answer)), (sh, LeavingDial(why)))
  {
    hide Leads;
    assert RebindStep(env, t, sh, Inspecting(name, key, answer), Choose(true, false), sh, LeavingDial(why));
    Step1(env, t, p, (sh, Inspecting(name, key, answer)), Choose(true, false), (sh, LeavingDial(why)));
  }

  lemma DropListenerWalk(env: Env, t: nat, p: Peer, s0: Shared, name: string, key: PrivateKey, s1: Shared, s2: Shared)
    requires Listener !in s0.locks && s1 == Acquire(s0, Listener, t)
    requires s2 == Release(s1.(listener := false, dials := s1.dials + [DialRecord(t, false)]), Listener)
    ensures Leads(env, t, p, (s0, AwaitDrop(name, key)), (s2, Dialling(name, key, 0)))
  {
    hide Leads;
    var a, b, c := (s0, AwaitDrop(name, key)), (s1, Dropping(name, key)), (s2, Dialling(name, key, 0));
    var ch := Choose(true, false);
    assert DialStep(env, t, s0, a.1, ch, s1, b.1);
    assert DialStep(env, t, s1, b.1, ch, s2, c.1);
    Step1(env, t, p, a, ch, b);
    Step1(env, t, p, b, ch, c);
    Join(env, t, p, a, b, c);
  }

  /** A dial of `busy` busy rounds and one that decides. */
  lemma DialWalk(env: Env, t: nat, p: Peer, sh: Shared, name: string, key: PrivateKey, busy: nat, ok: bool,
                 sh': Shared, pc': Pc)
    requires busy <= DIAL_RETRIES
    requires sh' == if ok then sh.(links := sh.links[sh.nextConn := Open], nextConn := sh.nextConn + 1) else sh
    requires pc' == if ok then Sending(name, key, sh.nextConn) else LeavingDial(DialFailed)
    ensures Leads(env, t, p, (sh, Dialling(name, key, 0)), (sh', pc'))
  {
    hide Leads;
    DialRetries(env, t, p, sh, name, key, busy);
    var last := (sh, Dialling(name, key, busy));
    assert DialStep(env, t, sh, last.1, Choose(ok, false), sh', pc');
    Step1(env, t, p, last, Choose(ok, false), (sh', pc'));
    Join(env, t, p, (sh, Dialling(name, key, 0)), last, (sh', pc'));
  }
}
