/**
 The pace condition of the rotation loop is exact: one tick more, and some punctual run leaves a client with a stale
 certificate. In it another connection fills the cache as late after the signature as allowed, and the client calls in
 the last tick in which the entry still counts as fresh.
 */
module RotationBound {
  import opened Wrappers
  import opened Selectors
  import opened Matcher
  import opened Pki
  import opened Wire
  import opened Policy
  import opened Server
  import opened Protocol
  import opened ProtocolData
  import opened ProtocolProgress
  import opened ProtocolSafety
  import opened Exchange
  import opened AgentCode
  import opened AgentRefinement
  import opened Rotation
  import opened SelectorParser

  // ---- Extending punctual runs ----

  /** Some punctual run from the given start ends here. */
  ghost predicate CanReach(env: Env, timing: Timing, start: World, w: World) {
    exists run, steps :: PunctualRun(env, timing, run, steps) && run[0] == start && run[|run| - 1] == w
  }

  lemma StepOn(env: Env, timing: Timing, start: World, w: World, step: WorldStep, w': World)
    requires CanReach(env, timing, start, w) && WorldNext(env, timing, w, w', step) && Punctual(timing, w, step)
    ensures CanReach(env, timing, start, w')
  {
    hide WorldNext, Punctual, WorldInit;
    var run, steps :| PunctualRun(env, timing, run, steps) && run[0] == start && run[|run| - 1] == w;
    assert PunctualRun(env, timing, run + [w'], steps + [step]);
    assert (run + [w'])[|run|] == w';
  }

  /** The world after handler `t` has moved. */
  ghost function Moved(w: World, t: nat, to: (Shared, Pc)): World
    requires t in w.agent.tasks
  {
    w.(agent := State(to.0, w.agent.tasks[t := Task(w.agent.tasks[t].peer, to.1)]))
  }

  lemma {:induction false} WalkGoesForward(env: Env, t: nat, p: Peer, walk: seq<(Shared, Pc)>)
    requires IsWalk(env, t, p, walk)
    ensures walk[0].0.now <= walk[|walk| - 1].0.now
    decreases |walk|
  {
    hide Moves;
    if |walk| > 1 {
      assert Moves(env, t, p, walk[0], walk[1]);
      MoveGoesForward(env, t, p, walk[0], walk[1]);
      RestOfWalk(env, t, p, walk);
      WalkGoesForward(env, t, p, walk[1..]);
    }
  }

  lemma RestOfWalk(env: Env, t: nat, p: Peer, walk: seq<(Shared, Pc)>)
    requires IsWalk(env, t, p, walk) && |walk| > 1
    ensures IsWalk(env, t, p, walk[1..])
  {
    hide Moves;
    forall i | 0 <= i < |walk[1..]| - 1 ensures Moves(env, t, p, walk[1..][i], walk[1..][i + 1]) {
      assert Moves(env, t, p, walk[i + 1], walk[i + 2]);
    }
  }

  lemma MoveGoesForward(env: Env, t: nat, p: Peer, a: (Shared, Pc), b: (Shared, Pc))
    requires Moves(env, t, p, a, b)
    ensures a.0.now <= b.0.now
  {
    hide HandlerStep, ServerStep;
    if ch :| HandlerStep(env, t, p, a.0, a.1, ch, b.0, b.1) {
      StepTakesNoTime(env, t, p, a, ch, b);
    } else if conn, resp, delivered :| ServerStep(env, a.0, conn, resp, delivered, b.0) {
      ServingTakesNoTime(env, a.0, conn, resp, delivered, b.0);
    }
  }

  predicate Timeless(sh: Shared, sh': Shared) {
    sh'.now == sh.now && sh'.workloads == sh.workloads
  }

  lemma ClientTakesNoTime(env: Env, t: nat, p: Peer, sh: Shared, pc: Pc, ch: Choice, sh': Shared, pc': Pc)
    requires ClientStep(env, t, p, sh, pc, ch, sh', pc')
    ensures Timeless(sh, sh')
  {
    hide Select, IterationOrder;
  }

  lemma CacheTakesNoTime(env: Env, t: nat, sh: Shared, pc: Pc, ch: Choice, sh': Shared, pc': Pc)
    requires CacheStep(env, t, sh, pc, ch, sh', pc')
    ensures Timeless(sh, sh')
  {
    hide FreshAt;
  }

  lemma DialTakesNoTime(env: Env, t: nat, sh: Shared, pc: Pc, ch: Choice, sh': Shared, pc': Pc)
    requires DialStep(env, t, sh, pc, ch, sh', pc')
    ensures Timeless(sh, sh')
  {
    hide RequestFor;
  }

  lemma RebindTakesNoTime(env: Env, t: nat, sh: Shared, pc: Pc, ch: Choice, sh': Shared, pc': Pc)
    requires RebindStep(env, t, sh, pc, ch, sh', pc')
    ensures Timeless(sh, sh')
  {
    hide MarkRebound;
  }

  lemma StepTakesNoTime(env: Env, t: nat, p: Peer, a: (Shared, Pc), ch: Choice, b: (Shared, Pc))
    requires HandlerStep(env, t, p, a.0, a.1, ch, b.0, b.1)
    ensures Timeless(a.0, b.0)
  {
    hide ClientStep, CacheStep, DialStep, RebindStep, Timeless;
    if ClientStep(env, t, p, a.0, a.1, ch, b.0, b.1) {
      ClientTakesNoTime(env, t, p, a.0, a.1, ch, b.0, b.1);
    } else if CacheStep(env, t, a.0, a.1, ch, b.0, b.1) {
      CacheTakesNoTime(env, t, a.0, a.1, ch, b.0, b.1);
    } else if DialStep(env, t, a.0, a.1, ch, b.0, b.1) {
      DialTakesNoTime(env, t, a.0, a.1, ch, b.0, b.1);
    } else {
      RebindTakesNoTime(env, t, a.0, a.1, ch, b.0, b.1);
    }
  }

  lemma ServingTakesNoTime(env: Env, sh: Shared, conn: nat, resp: AgentResponse, delivered: bool, sh': Shared)
    requires ServerStep(env, sh, conn, resp, delivered, sh')
    ensures Timeless(sh, sh')
  {
    hide Responds;
  }

  /** A move that takes no time is a punctual step of the world, or none at all. */
  lemma MoveOn(env: Env, timing: Timing, start: World, w: World, t: nat, b: (Shared, Pc))
    requires CanReach(env, timing, start, w) && t in w.agent.tasks
    requires var task := w.agent.tasks[t];
             Moves(env, t, task.peer, (w.agent.sh, task.pc), b) && b.0.now == w.agent.sh.now
    ensures CanReach(env, timing, start, Moved(w, t, b))
  {
    hide CanReach, HandlerStep, ServerStep, Moves;
    var step := MoveIsNext(env, w.agent, t, b);
    if step.Tick? {
      assert Moved(w, t, b).agent.sh == w.agent.sh;
      assert Moved(w, t, b).agent.tasks == w.agent.tasks;
    } else {
      hide Next;
      StepOn(env, timing, start, w, Agent(step), Moved(w, t, b));
    }
  }

  /** A walk that takes no time extends a punctual run. */
  lemma {:induction false} WalkOn(env: Env, timing: Timing, start: World, w: World, t: nat, walk: seq<(Shared, Pc)>)
    requires CanReach(env, timing, start, w) && t in w.agent.tasks && IsWalk(env, t, w.agent.tasks[t].peer, walk)
    requires walk[0] == (w.agent.sh, w.agent.tasks[t].pc) && walk[|walk| - 1].0.now == w.agent.sh.now
    ensures CanReach(env, timing, start, Moved(w, t, walk[|walk| - 1]))
    decreases |walk|
  {
    hide CanReach, Moves;
    var p := w.agent.tasks[t].peer;
    if |walk| == 1 {
      assert Moved(w, t, walk[0]).agent.tasks == w.agent.tasks;
    } else {
      assert Moves(env, t, p, walk[0], walk[1]);
      MoveGoesForward(env, t, p, walk[0], walk[1]);
      RestOfWalk(env, t, p, walk);
      WalkGoesForward(env, t, p, walk[1..]);
      MoveOn(env, timing, start, w, t, walk[1]);
      var next := Moved(w, t, walk[1]);
      WalkOn(env, timing, start, next, t, walk[1..]);
      assert Moved(next, t, walk[|walk| - 1]) == Moved(w, t, walk[|walk| - 1]);
    }
  }

  lemma LeadsOn(env: Env, timing: Timing, start: World, w: World, t: nat, to: (Shared, Pc))
    requires CanReach(env, timing, start, w) && t in w.agent.tasks && to.0.now == w.agent.sh.now
    requires Leads(env, t, w.agent.tasks[t].peer, (w.agent.sh, w.agent.tasks[t].pc), to)
    ensures CanReach(env, timing, start, Moved(w, t, to))
  {
    hide CanReach, Moves;
    var p, from := w.agent.tasks[t].peer, (w.agent.sh, w.agent.tasks[t].pc);
    var walk :| IsWalk(env, t, p, walk) && walk[0] == from && walk[|walk| - 1] == to;
    WalkOn(env, timing, start, w, t, walk);
  }

  function Later(w: World, ticks: nat): World {
    w.(agent := w.agent.(sh := w.agent.sh.(now := w.agent.sh.now + ticks)))
  }

  lemma TimeOn(env: Env, timing: Timing, start: World, w: World, ticks: nat)
    requires CanReach(env, timing, start, w) && Punctual(timing, w, Clock(ticks))
    ensures CanReach(env, timing, start, Later(w, ticks))
  {
    hide CanReach, Punctual;
    StepOn(env, timing, start, w, Clock(ticks), Later(w, ticks));
  }

  /** A new connection. */
  function Called(w: World, t: nat, peer: Peer): World {
    w.(agent := w.agent.(tasks := w.agent.tasks[t := Task(peer, AwaitWorkloads)]))
  }

  lemma CallOn(env: Env, timing: Timing, start: World, w: World, t: nat, peer: Peer)
    requires CanReach(env, timing, start, w) && t !in w.agent.tasks
    ensures CanReach(env, timing, start, Called(w, t, peer))
  {
    hide CanReach;
    StepOn(env, timing, start, w, Agent(Accept(t, peer, true)), Called(w, t, peer));
  }

  // ---- A successful fetch, step by step ----

  /** From the first lock to the cache's. */
  lemma ApproachWalk(env: Env, t: nat, p: Peer, sh: Shared, name: string)
    requires sh.locks == map[] && BestFor(sh.workloads, p, name)
    ensures Leads(env, t, p, (sh, AwaitWorkloads), (Acquire(sh, Workloads, t), AwaitCache(name)))
  {
    hide Leads, Winner, IterationOrder, Select;
    var order := EveryWinnerIsSelected(sh.workloads, p.proc, p.accounts, name);
    AttestWalk(env, t, p, sh, order);
    var script := Script(order, 0, TypeIs("fetch"), true, true, true, Channel(k => 0, None, None), 0, 0);
    var s1 := Acquire(sh, Workloads, t);
    ReadWalk(env, t, p, s1, name, script);
    Join(env, t, p, (sh, AwaitWorkloads), (s1, ReadingLine(name)), (s1, AwaitCache(name)));
  }

  /** The shared state when the listener is dropped and a stream is dialled, with all three locks held. */
  ghost function DialledState(sh: Shared, t: nat): Shared {
    sh.(locks := map[Workloads := t, Cache := t, Protocol.Dial := t], nextKey := sh.nextKey + 1, listener := false,
        dials := sh.dials + [DialRecord(t, false)],
        links := sh.links[sh.nextConn := Open], nextConn := sh.nextConn + 1)
  }

  lemma MissToDial(env: Env, t: nat, p: Peer, sh: Shared, name: string)
    requires sh.locks == map[Workloads := t] && !FreshAt(sh.cache, name, sh.now)
    ensures Leads(env, t, p, (sh, AwaitCache(name)),
                  (DialledState(sh, t), Sending(name, PrivateKey(sh.nextKey), sh.nextConn)))
  {
    hide Leads, FreshAt;
    var key, from := PrivateKey(sh.nextKey), (sh, AwaitCache(name));
    var s1 := Acquire(sh, Cache, t);
    MissWalk(env, t, p, sh, name);
    var s2 := Acquire(s1.(nextKey := s1.nextKey + 1), Protocol.Dial, t);
    KeyWalk(env, t, p, s1, name, s2);
    Join(env, t, p, from, (s1, Generating(name)), (s2, AwaitDrop(name, key)));
    DropToDial(env, t, p, s2, name, key);
    var s3 := Dropped(s2, t);
    assert s2.locks == map[Workloads := t, Cache := t, Protocol.Dial := t];
    assert s3 == DialledState(sh, t);
    Join(env, t, p, from, (s2, AwaitDrop(name, key)), (s3, Sending(name, key, sh.nextConn)));
  }

  /** The listener dropped and a stream dialled at the first try. */
  ghost function Dropped(sh: Shared, t: nat): Shared {
    sh.(listener := false, dials := sh.dials + [DialRecord(t, false)],
        links := sh.links[sh.nextConn := Open], nextConn := sh.nextConn + 1)
  }

  lemma DropToDial(env: Env, t: nat, p: Peer, sh: Shared, name: string, key: PrivateKey)
    requires Listener !in sh.locks
    ensures Leads(env, t, p, (sh, AwaitDrop(name, key)), (Dropped(sh, t), Sending(name, key, sh.nextConn)))
  {
    hide Leads;
    var s1 := Acquire(sh, Listener, t);
    var s2 := sh.(listener := false, dials := sh.dials + [DialRecord(t, false)]);
    assert Release(s1.(listener := false, dials := s1.dials + [DialRecord(t, false)]), Listener).locks == sh.locks;
    DropListenerWalk(env, t, p, sh, name, key, s1, s2);
    DialWalk(env, t, p, s2, name, key, 0, true, Dropped(sh, t), Sending(name, key, sh.nextConn));
    Join(env, t, p, (sh, AwaitDrop(name, key)), (s2, Dialling(name, key, 0)),
         (Dropped(sh, t), Sending(name, key, sh.nextConn)));
  }

  /** A handler with the server's good answer on its connection, all three locks held. */
  ghost predicate HasAnswer(env: Env, sh: Shared, t: nat, name: string, key: PrivateKey, conn: nat, at: nat) {
    && sh.locks == map[Workloads := t, Cache := t, Protocol.Dial := t]
    && name in sh.workloads && conn in sh.links && sh.links[conn].Answered? && sh.links[conn].answer.at == at
    && GoodAnswer(env, sh, name, key, sh.links[conn].answer) && sh.links[conn].answer.response.CertOk?
  }

  /** The request is answered, with a sound certificate. */
  lemma AnswerComes(env: Env, t: nat, p: Peer, sh: Shared, name: string) returns (to: Shared)
    requires WorkloadsOk(env, sh) && name in sh.workloads
    requires CanSign(env, name) && Fits(env, name, PrivateKey(sh.nextKey))
    ensures var key := PrivateKey(sh.nextKey);
            && Leads(env, t, p, (DialledState(sh, t), Sending(name, key, sh.nextConn)),
                     (to, Receiving(name, key, sh.nextConn)))
            && HasAnswer(env, to, t, name, key, sh.nextConn, sh.now)
            && to.now == sh.now && to.workloads == sh.workloads && to.cache == sh.cache
  {
    hide Leads, Responds, WorkloadsOk, CanSign, Fits, Sound, PassesGate;
    var key, conn, s0 := PrivateKey(sh.nextKey), sh.nextConn, DialledState(sh, t);
    var resp := ResponseExists(env, sh.now, RequestFor(env, name, key));
    GateOf(env, sh);
    to := AgentCode.Served(env, Sent(env, s0, name, key, conn), conn, resp, true);
    AskedWalk(env, t, p, s0, name, key, conn, resp, true, to);
    if resp.CertOk? {
      var log := Issuance(env.vmName, name, resp.certPem, sh.now);
      assert Logged(Sent(env, s0, name, key, conn), conn, resp) == [log];
      assert log in to.issued;
    }
    AnswerIsSound(env, sh, to, name, key, resp);
  }

  lemma GateOf(env: Env, sh: Shared)
    requires WorkloadsOk(env, sh)
    ensures PassesGate(env.host.config, env.clientPort)
  {
    hide HandshakeMap, SelectorsParse, PassesGate;
  }

  /** What is in the cache after the answer has been taken. */
  ghost predicate Holds(env: Env, sh: Shared, name: string, fetchedAt: nat, signedAt: nat) {
    && name in sh.cache && sh.cache[name].fetchedAt == fetchedAt && name in sh.workloads
    && sh.cache[name].creds.certPem.Pem?
    && var c := sh.cache[name].creds.certPem.value;
    c.notBefore == signedAt / TICKS && c.notAfter == c.notBefore + sh.workloads[name].validitySeconds
  }

  /** From the answer to the end: rebind, insertion, reply. */
  lemma AnswerTaken(env: Env, t: nat, p: Peer, sh: Shared, name: string, key: PrivateKey, conn: nat, at: nat)
    returns (to: Shared, outcome: Outcome)
    requires HasAnswer(env, sh, t, name, key, conn, at)
    ensures Leads(env, t, p, (sh, Receiving(name, key, conn)), (to, Done(outcome)))
    ensures to.locks == map[] && to.now == sh.now && to.workloads == sh.workloads
    ensures Holds(env, to, name, sh.now, at)
  {
    hide Leads, MarkRebound, Fits, CanSign;
    var from, answer := (sh, Receiving(name, key, conn)), sh.links[conn].answer;
    var creds := Credentials(answer.response.certPem, key, answer.response.caCertPem);
    assert Sound(env, sh, name, creds) && IssuedAt(env, sh, name, answer.response.certPem, at);
    ReceiveWalk(env, t, p, sh, name, key, conn, true);
    var s1 := sh.(listener := true, dials := MarkRebound(sh.dials));
    RebindWalk(env, t, p, sh, name, key, answer, 0, true, s1);
    Join(env, t, p, from, (sh, Rebinding(name, key, answer, 0)), (s1, Inspecting(name, key, answer)));
    var s2 := Release(s1, Protocol.Dial);
    AcceptWalk(env, t, p, s1, name, key, answer);
    Join(env, t, p, from, (s1, Inspecting(name, key, answer)), (s2, Inserting(name, creds, at)));
    var s3 := Inserted(s2, name, creds, at);
    InsertWalk(env, t, p, s2, name, creds, at);
    Join(env, t, p, from, (s2, Inserting(name, creds, at)), (s3, Replying(name, creds, sh.now)));
    outcome := Delivered(name, creds, sh.now);
    var s4 := s3.(deliveries := s3.deliveries + [Delivery(t, p, name, creds)]);
    ReplyWalk(env, t, p, from, s3, name, creds, sh.now, true, s4, outcome);
    UnwindWalk(env, t, p, from, s4, outcome);
    to := Release(s4, Workloads);
    assert to.locks == map[];
  }

  /** A fetch that the cache answers. */
  lemma HitTaken(env: Env, t: nat, p: Peer, sh: Shared, name: string) returns (to: Shared)
    requires sh.locks == map[] && BestFor(sh.workloads, p, name) && FreshAt(sh.cache, name, sh.now)
    ensures name in sh.cache
    ensures Leads(env, t, p, (sh, AwaitWorkloads), (to, Done(Delivered(name, sh.cache[name].creds, sh.now))))
    ensures to.now == sh.now
  {
    hide Leads, BestFor, Threshold;
    var from, s1, creds := (sh, AwaitWorkloads), Acquire(sh, Workloads, t), sh.cache[name].creds;
    ApproachWalk(env, t, p, sh, name);
    HitWalk(env, t, p, s1, name);
    Join(env, t, p, from, (s1, AwaitCache(name)), (s1, Replying(name, creds, sh.now)));
    var s2 := s1.(deliveries := s1.deliveries + [Delivery(t, p, name, creds)]);
    ReplyWalk(env, t, p, from, s1, name, creds, sh.now, true, s2, Delivered(name, creds, sh.now));
    UnwindWalk(env, t, p, from, s2, Delivered(name, creds, sh.now));
    to := Release(s2, Workloads);
  }

  // ---- The run ----

  /** The last tick of the second that tick `now` is in. */
  function EndOfSecond(now: nat): (at: nat)
    ensures now <= at && at / TICKS == now / TICKS && at + 1 == (at / TICKS + 1) * TICKS
  {
    now / TICKS * TICKS + TICKS - 1
  }

  function StartWorld(s0: State, peer: Peer, wakeAt: nat): World {
    World(s0, map[0 := Client(peer.proc, Sleeping(wakeAt), None)])
  }

  /** Handlers that carry nothing hold up no clock. */
  predicate Quiet(w: World) {
    forall t :: t in w.agent.tasks ==> w.agent.tasks[t].pc.Done? || w.agent.tasks[t].pc.AwaitWorkloads?
  }

  lemma QuietTime(env: Env, timing: Timing, start: World, w: World, ticks: nat)
    requires CanReach(env, timing, start, w) && Quiet(w)
    requires forall c :: c in w.clients ==> ClientInTime(timing, w.clients[c], w.agent.sh.now + ticks)
    ensures CanReach(env, timing, start, Later(w, ticks))
  {
    hide CanReach;
    TimeOn(env, timing, start, w, ticks);
  }

  lemma StartReached(env: Env, timing: Timing, start: World)
    requires WorldInit(env, start)
    ensures CanReach(env, timing, start, start)
  {
    hide WorldInit;
    assert PunctualRun(env, timing, [start], []);
  }

  lemma BestIsConfigured(workloads: map<string, WorkloadConfig>, peer: Peer, name: string)
    requires BestFor(workloads, peer, name)
    ensures name in workloads
  {
    hide Matches, Score;
  }

  /** The first connection has been asked for and answered. */
  lemma Requested(env: Env, timing: Timing, start: World, w: World, peer: Peer, name: string) returns (w': World)
    requires CanReach(env, timing, start, w) && w.agent.tasks == map[] && w.agent.sh.locks == map[]
    requires WorkloadsOk(env, w.agent.sh) && BestFor(w.agent.sh.workloads, peer, name) && w.agent.sh.cache == map[]
    requires CanSign(env, name) && Fits(env, name, PrivateKey(w.agent.sh.nextKey))
    ensures CanReach(env, timing, start, w') && w'.clients == w.clients
    ensures w'.agent.sh.now == w.agent.sh.now && w'.agent.sh.workloads == w.agent.sh.workloads
    ensures var key, conn := PrivateKey(w.agent.sh.nextKey), w.agent.sh.nextConn;
            && w'.agent.tasks == map[0 := Task(peer, Receiving(name, key, conn))]
            && HasAnswer(env, w'.agent.sh, 0, name, key, conn, w.agent.sh.now)
  {
    hide CanReach, Leads, WorkloadsOk, Winner, CanSign, Fits, HasAnswer, Threshold;
    BestIsConfigured(w.agent.sh.workloads, peer, name);
    var sh, key, conn := w.agent.sh, PrivateKey(w.agent.sh.nextKey), w.agent.sh.nextConn;
    var from, s1 := (sh, AwaitWorkloads), Acquire(w.agent.sh, Workloads, 0);
    CallOn(env, timing, start, w, 0, peer);
    ApproachWalk(env, 0, peer, sh, name);
    MissToDial(env, 0, peer, s1, name);
    Join(env, 0, peer, from, (s1, AwaitCache(name)), (DialledState(s1, 0), Sending(name, key, conn)));
    SameWorkloads(env, sh, s1);
    var to := AnswerComes(env, 0, peer, s1, name);
    Join(env, 0, peer, from, (DialledState(s1, 0), Sending(name, key, conn)), (to, Receiving(name, key, conn)));
    LeadsOn(env, timing, start, Called(w, 0, peer), 0, (to, Receiving(name, key, conn)));
    w' := Moved(Called(w, 0, peer), 0, (to, Receiving(name, key, conn)));
  }

  lemma SameWorkloads(env: Env, sh: Shared, sh': Shared)
    requires WorkloadsOk(env, sh) && sh'.workloads == sh.workloads
    ensures WorkloadsOk(env, sh')
  {}

  lemma AnswerWaits(env: Env, sh: Shared, t: nat, name: string, key: PrivateKey, conn: nat, at: nat, ticks: nat)
    requires HasAnswer(env, sh, t, name, key, conn, at)
    ensures HasAnswer(env, sh.(now := sh.now + ticks), t, name, key, conn, at)
  {
    hide GoodAnswer;
    AnswerStable(env, sh, sh.(now := sh.now + ticks), name, key, sh.links[conn].answer);
  }

  /** The certificate takes as long as allowed from its signature to the cache. */
  lemma Fetched(env: Env, timing: Timing, start: World, w: World, peer: Peer, name: string, key: PrivateKey, conn: nat)
    returns (w': World)
    requires CanReach(env, timing, start, w) && w.agent.tasks == map[0 := Task(peer, Receiving(name, key, conn))]
    requires HasAnswer(env, w.agent.sh, 0, name, key, conn, w.agent.sh.now)
    requires forall c :: c in w.clients ==> ClientInTime(timing, w.clients[c], w.agent.sh.now + timing.maxDelay)
    ensures CanReach(env, timing, start, w') && w'.clients == w.clients && Quiet(w') && w'.agent.tasks.Keys == {0}
    ensures w'.agent.sh.now == w.agent.sh.now + timing.maxDelay && w'.agent.sh.workloads == w.agent.sh.workloads
    ensures w'.agent.sh.locks == map[] && Holds(env, w'.agent.sh, name, w'.agent.sh.now, w.agent.sh.now)
  {
    hide CanReach, Leads, GoodAnswer, Holds;
    TimeOn(env, timing, start, w, timing.maxDelay);
    var mid := Later(w, timing.maxDelay);
    AnswerWaits(env, w.agent.sh, 0, name, key, conn, w.agent.sh.now, timing.maxDelay);
    hide HasAnswer;
    var to, outcome := AnswerTaken(env, 0, peer, mid.agent.sh, name, key, conn, w.agent.sh.now);
    LeadsOn(env, timing, start, mid, 0, (to, Done(outcome)));
    w' := Moved(mid, 0, (to, Done(outcome)));
  }

  /** The client calls while the entry is fresh, gets it, and returns as late as allowed. */
  lemma ServedLate(env: Env, timing: Timing, start: World, w: World, peer: Peer, name: string) returns (w': World)
    requires CanReach(env, timing, start, w) && Quiet(w) && w.agent.tasks.Keys == {0} && w.agent.sh.locks == map[]
    requires w.clients == map[0 := Client(peer.proc, Sleeping(w.agent.sh.now), None)]
    requires BestFor(w.agent.sh.workloads, peer, name) && FreshAt(w.agent.sh.cache, name, w.agent.sh.now)
    ensures name in w.agent.sh.cache && CanReach(env, timing, start, w') && Quiet(w') && w'.agent.tasks.Keys == {0, 1}
    ensures var now := w.agent.sh.now + timing.maxFetch;
            && w'.agent.sh.now == now
            && w'.clients == map[0 := Client(peer.proc, Sleeping(now + timing.interval),
                                             Some(w.agent.sh.cache[name].creds))]
  {
    hide CanReach, Leads, BestFor, Threshold;
    var sh := w.agent.sh;
    var called := Called(w, 1, peer);
    var woken := called.(clients := map[0 := Client(peer.proc, Waiting(1, sh.now), None)]);
    StepOn(env, timing, start, w, Wake(0, 1, peer.accounts), woken);
    var to := HitTaken(env, 1, peer, sh, name);
    var outcome := Delivered(name, sh.cache[name].creds, sh.now);
    LeadsOn(env, timing, start, woken, 1, (to, Done(outcome)));
    var ended := Moved(woken, 1, (to, Done(outcome)));
    QuietTime(env, timing, start, ended, timing.maxFetch);
    var late := Later(ended, timing.maxFetch);
    var creds := sh.cache[name].creds;
    w' := late.(clients := map[0 := Client(peer.proc, Sleeping(late.agent.sh.now + timing.interval), Some(creds))]);
    StepOn(env, timing, start, late, Return(0, WorkloadClient.Success(creds)), w');
  }

  /** Its sleep and the next fetch take as long as allowed, too. */
  lemma WaitedOut(env: Env, timing: Timing, start: World, w: World, peer: Peer, creds: Credentials) returns (w': World)
    requires CanReach(env, timing, start, w) && Quiet(w) && 2 !in w.agent.tasks
    requires w.clients == map[0 := Client(peer.proc, Sleeping(w.agent.sh.now + timing.interval), Some(creds))]
    ensures CanReach(env, timing, start, w') && w'.agent.sh.now == w.agent.sh.now + timing.interval + timing.maxFetch
    ensures 0 in w'.clients && w'.clients[0].cached == Some(creds)
  {
    hide CanReach;
    QuietTime(env, timing, start, w, timing.interval);
    var rested := Later(w, timing.interval);
    var called := Called(rested, 2, peer);
    var woken := called.(clients := map[0 := Client(peer.proc, Waiting(2, rested.agent.sh.now), Some(creds))]);
    StepOn(env, timing, start, rested, Wake(0, 2, peer.accounts), woken);
    QuietTime(env, timing, start, woken, timing.maxFetch);
    w' := Later(woken, timing.maxFetch);
  }

  /** The whole run. */
  lemma GoesStale(env: Env, timing: Timing, s0: State, peer: Peer, name: string) returns (start: World, w: World)
    requires Init(env, s0) && BestFor(s0.sh.workloads, peer, name)
    requires CanSign(env, name) && Fits(env, name, PrivateKey(s0.sh.nextKey))
    requires s0.sh.workloads[name].validitySeconds >= 2 && !PaceFits(timing, s0.sh.workloads[name].validitySeconds)
    ensures start.agent == s0 && (forall c :: c in start.clients ==> start.clients[c].proc == peer.proc)
    ensures CanReach(env, timing, start, w) && 0 in w.clients && w.clients[0].cached.Some?
    ensures Stale(w.clients[0].cached.value.certPem, w.agent.sh.now)
  {
    hide CanReach, Winner, CanSign, Fits, Init, WorkloadsOk, HasAnswer, PaceFits, Threshold;
    BestIsConfigured(s0.sh.workloads, peer, name);
    var v, at := s0.sh.workloads[name].validitySeconds, EndOfSecond(s0.sh.now);
    var wakeAt := at + timing.maxDelay + v / 2 * TICKS - 1;
    start := StartWorld(s0, peer, wakeAt);
    InitFacts(env, s0);
    InitStart(env, start);
    StartReached(env, timing, start);
    QuietTime(env, timing, start, start, at - s0.sh.now);
    var w1 := Later(start, at - s0.sh.now);
    SameWorkloads(env, s0.sh, w1.agent.sh);
    var w2 := Requested(env, timing, start, w1, peer, name);
    var w3 := Fetched(env, timing, start, w2, peer, name, PrivateKey(s0.sh.nextKey), s0.sh.nextConn);
    QuietTime(env, timing, start, w3, v / 2 * TICKS - 1);
    var w4 := Later(w3, v / 2 * TICKS - 1);
    HeldIsFresh(env, w3.agent.sh, w4.agent.sh, name, at);
    var creds := w4.agent.sh.cache[name].creds;
    var w5 := ServedLate(env, timing, start, w4, peer, name);
    w := WaitedOut(env, timing, start, w5, peer, creds);
    EndIsStale(timing, creds.certPem, v, at, w.agent.sh.now);
  }

  lemma InitFacts(env: Env, s0: State)
    requires Init(env, s0)
    ensures WorkloadsOk(env, s0.sh) && s0.tasks == map[] && s0.sh.locks == map[] && s0.sh.cache == map[]
  {
    InitIsSafe(env, s0);
    InvParts(env, s0);
    hide Inv, WorkloadsOk, AnswersHandshake;
  }

  lemma InitStart(env: Env, start: World)
    requires Init(env, start.agent)
    requires forall c :: c in start.clients ==>
               && start.clients[c].cached == None && start.clients[c].phase.Sleeping?
               && start.agent.sh.now <= start.clients[c].phase.wakeAt
    ensures WorldInit(env, start)
  {
    hide Init;
  }

  lemma HeldIsFresh(env: Env, sh: Shared, sh': Shared, name: string, at: nat)
    requires Holds(env, sh, name, sh.now, at) && sh.workloads[name].validitySeconds >= 2
    requires sh' == sh.(now := sh.now + sh.workloads[name].validitySeconds / 2 * TICKS - 1)
    ensures FreshAt(sh'.cache, name, sh'.now)
  {}

  lemma EndIsStale(timing: Timing, certPem: Pem<Certificate>, v: nat, at: nat, now: nat)
    requires certPem.Pem? && certPem.value.notAfter == at / TICKS + v && at + 1 == (at / TICKS + 1) * TICKS
    requires v >= 2 && !PaceFits(timing, v)
    requires now == at + timing.maxDelay + v / 2 * TICKS - 1 + timing.maxFetch + timing.interval + timing.maxFetch
    ensures Stale(certPem, now)
  {
    assert now >= (at / TICKS + 1) * TICKS + v * TICKS;
  }

  // ---- The exact condition ----

  /** In no punctual run of clients with this process does one end up with a stale certificate. */
  ghost predicate NeverStale(env: Env, timing: Timing, s0: State, proc: Process) {
    forall start, w, c ::
      CanReach(env, timing, start, w) && start.agent == s0 && AllAre(start, proc) ==> !HoldsStale(w, c)
  }

  predicate HoldsStale(w: World, c: nat) {
    c in w.clients && w.clients[c].cached.Some? && Stale(w.clients[c].cached.value.certPem, w.agent.sh.now)
  }

  predicate AllAre(w: World, proc: Process) {
    forall c :: c in w.clients ==> w.clients[c].proc == proc
  }

  /** The names this process can be given, whatever the account databases, have a lifetime and can be certified. */
  ghost predicate Certifiable(env: Env, s0: State, proc: Process) {
    forall accounts, name :: BestFor(s0.sh.workloads, Peer(proc, accounts), name) ==>
      && name in s0.sh.workloads && s0.sh.workloads[name].validitySeconds != 0
      && CanSign(env, name) && Fits(env, name, PrivateKey(s0.sh.nextKey))
  }

  ghost predicate AlwaysPaced(timing: Timing, s0: State, proc: Process) {
    forall accounts :: Paced(timing, s0.sh.workloads, Peer(proc, accounts))
  }

  /**
   The pace condition is exact: from any state after boot, clients of a process never hold a stale certificate, in any
   punctual run, if and only if interval + 2 * (longest fetch) + (longest signing delay) is at most half the lifetime,
   rounded up, and one tick, for every name the process can be given.
   */
  lemma PaceIsExact(env: Env, timing: Timing, s0: State, proc: Process)
    requires Init(env, s0) && Certifiable(env, s0, proc)
    ensures NeverStale(env, timing, s0, proc) <==> AlwaysPaced(timing, s0, proc)
  {
    hide Init, CanReach, HoldsStale, AllAre, BestFor, PaceFits, CanSign, Fits;
    if AlwaysPaced(timing, s0, proc) {
      forall start, w, c | CanReach(env, timing, start, w) && start.agent == s0 && AllAre(start, proc)
        ensures !HoldsStale(w, c)
      {
        PacedIsFresh(env, timing, s0, proc, start, w, c);
      }
    } else {
      var accounts, name :| BestFor(s0.sh.workloads, Peer(proc, accounts), name)
                            && !PaceFits(timing, s0.sh.workloads[name].validitySeconds);
      LifetimeNotOne(env, s0, name);
      var start, w := GoesStale(env, timing, s0, Peer(proc, accounts), name);
      ThatIsStale(proc, start, w);
    }
  }

  lemma PacedIsFresh(env: Env, timing: Timing, s0: State, proc: Process, start: World, w: World, c: nat)
    requires CanReach(env, timing, start, w) && start.agent == s0 && AllAre(start, proc)
    requires AlwaysPaced(timing, s0, proc)
    ensures !HoldsStale(w, c)
  {
    hide WorldInit, WorldNext, Punctual, AlwaysPaced, AllAre, PacedStep, Stale;
    var run, steps :| PunctualRun(env, timing, run, steps) && run[0] == start && run[|run| - 1] == w;
    if HoldsStale(w, c) {
      RunIsPaced(env, timing, s0, proc, run, steps);
      ClientNeverStale(env, timing, run, steps, c);
    }
  }

  lemma ThatIsStale(proc: Process, start: World, w: World)
    requires forall c :: c in start.clients ==> start.clients[c].proc == proc
    requires 0 in w.clients && w.clients[0].cached.Some? && Stale(w.clients[0].cached.value.certPem, w.agent.sh.now)
    ensures AllAre(start, proc) && HoldsStale(w, 0)
  {}

  /** Lifetimes are whole minutes, or wrapped multiples of four seconds. */
  lemma LifetimeNotOne(env: Env, s0: State, name: string)
    requires Init(env, s0) && name in s0.sh.workloads && s0.sh.workloads[name].validitySeconds != 0
    ensures s0.sh.workloads[name].validitySeconds >= 2
  {
    InitFacts(env, s0);
    hide Init, Parse;
    var ttl := env.host.config.vms[env.vmName].identities[name].ttlMinutes;
    WrapsByFour(ttl);
  }

  lemma WrapsByFour(ttl: u32)
    ensures ValiditySeconds(ttl) % 4 == 0
  {
    assert (ttl * 60 % TWO_TO_THE_32) % 4 == (ttl * 60) % 4;
  }

  lemma RunIsPaced(env: Env, timing: Timing, s0: State, proc: Process, run: seq<World>, steps: seq<WorldStep>)
    requires PunctualRun(env, timing, run, steps) && run[0].agent == s0 && AllAre(run[0], proc)
    requires AlwaysPaced(timing, s0, proc)
    ensures PacedRun(timing, run, steps)
  {
    hide Paced, WorldNext, WorldInit, Punctual, AllAre;
    forall i | 0 <= i < |steps| ensures PacedStep(timing, run[i], steps[i]) {
      ClientsStay(env, timing, proc, run, steps, i);
      StepIsPaced(timing, s0, proc, run[i], steps[i]);
    }
  }

  lemma StepIsPaced(timing: Timing, s0: State, proc: Process, w: World, step: WorldStep)
    requires AlwaysPaced(timing, s0, proc) && w.agent.sh.workloads == s0.sh.workloads && AllAre(w, proc)
    ensures PacedStep(timing, w, step)
  {
    hide Paced;
  }

  /** Neither the clients' processes nor the workload map ever change. */
  lemma {:induction false} ClientsStay(env: Env, timing: Timing, proc: Process, run: seq<World>, steps: seq<WorldStep>,
                                       i: nat)
    requires |run| == |steps| + 1 && i <= |steps| && AllAre(run[0], proc)
    requires forall k :: 0 <= k < |steps| ==> WorldNext(env, timing, run[k], run[k + 1], steps[k])
    ensures AllAre(run[i], proc) && run[i].agent.sh.workloads == run[0].agent.sh.workloads
  {
    hide WorldNext, AllAre;
    if i > 0 {
      ClientsStay(env, timing, proc, run, steps, i - 1);
      assert WorldNext(env, timing, run[i - 1], run[i - 1 + 1], steps[i - 1]);
      WorldKeepsClients(env, timing, proc, run[i - 1], run[i], steps[i - 1]);
    }
  }

  lemma WorldKeepsClients(env: Env, timing: Timing, proc: Process, w: World, w': World, step: WorldStep)
    requires WorldNext(env, timing, w, w', step) && AllAre(w, proc)
    ensures AllAre(w', proc) && w'.agent.sh.workloads == w.agent.sh.workloads
  {
    hide HandlerStep, ServerStep, Hears;
    match step
    case Agent(Run(t, ch)) =>
      StepTakesNoTime(env, t, w.agent.tasks[t].peer, (w.agent.sh, w.agent.tasks[t].pc), ch,
                      (w'.agent.sh, w'.agent.tasks[t].pc));
    case Agent(Serve(conn, resp, delivered)) =>
      ServingTakesNoTime(env, w.agent.sh, conn, resp, delivered, w'.agent.sh);
    case _ =>
  }
}
