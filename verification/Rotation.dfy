/**
 Workload clients that refresh their credentials in a loop, composed with the agent and server. In runs where no
 step misses its deadline and fetches succeed, a client never holds an expired certificate.
 */
module Rotation {
  import opened Wrappers
  import opened Selectors
  import opened Matcher
  import opened Pki
  import opened Wire
  import opened Server
  import opened Protocol
  import opened ProtocolLocks
  import opened ProtocolData
  import opened ProtocolSafety
  import WorkloadClient

  /** Between fetches, or waiting for the handler `task` since `start`. */
  datatype Phase = Sleeping(wakeAt: nat) | Waiting(task: nat, start: nat)

  datatype Client = Client(proc: Process, phase: Phase, cached: Option<Credentials>)

  datatype World = World(agent: State, clients: map<nat, Client>)

  /** In ticks: the loop's interval, the longest fetch, and the longest time from signing to the agent's cache. */
  datatype Timing = Timing(interval: nat, maxFetch: nat, maxDelay: nat)

  datatype WorldStep =
    | Wake(client: nat, task: nat, accounts: Accounts)
    | Return(client: nat, said: WorkloadClient.Conversation)
    | Agent(step: Step)
    | Clock(ticks: nat)

  /** A client hears a success only if the handler sent it one, with those credentials; it may hear less. */
  predicate Hears(outcome: Outcome, said: WorkloadClient.Conversation) {
    said.Success? ==> outcome.Delivered? && outcome.creds == said.creds
  }

  ghost predicate WorldNext(env: Env, timing: Timing, w: World, w': World, step: WorldStep) {
    match step
    case Wake(c, t, accounts) =>
      && c in w.clients && w.clients[c].phase.Sleeping? && w.agent.sh.now >= w.clients[c].phase.wakeAt
      && Next(env, w.agent, w'.agent, Accept(t, Peer(w.clients[c].proc, accounts), true))
      && w'.clients == w.clients[c := w.clients[c].(phase := Waiting(t, w.agent.sh.now))]
    case Return(c, said) =>
      && c in w.clients && w.clients[c].phase.Waiting? && w.clients[c].phase.task in w.agent.tasks
      && w.agent.tasks[w.clients[c].phase.task].pc.Done? && w'.agent == w.agent
      && Hears(w.agent.tasks[w.clients[c].phase.task].pc.result, said)
      && w'.clients == w.clients[c := w.clients[c].(
        cached := WorkloadClient.Stored(w.clients[c].cached, said),
        phase := Sleeping(w.agent.sh.now + timing.interval))]
    case Agent(agentStep) => !agentStep.Tick? && Next(env, w.agent, w'.agent, agentStep) && w'.clients == w.clients
    case Clock(ticks) => Next(env, w.agent, w'.agent, Tick(ticks)) && w'.clients == w.clients
  }

  /** When the server made the certificate a handler is still carrying towards the cache. */
  function Carrying(sh: Shared, pc: Pc): Option<nat> {
    if pc.Inserting? then Some(pc.signedAt)
    else if AnswerFor(sh, pc).Some? && AnswerFor(sh, pc).value.response.CertOk? then Some(AnswerFor(sh, pc).value.at)
    else None
  }

  predicate InTime(timing: Timing, sh: Shared, pc: Pc, now: nat) {
    Carrying(sh, pc).Some? ==> now <= Carrying(sh, pc).value + timing.maxDelay
  }

  predicate ClientInTime(timing: Timing, c: Client, now: nat) {
    match c.phase
    case Sleeping(wakeAt) => now <= wakeAt
    case Waiting(_, start) => now <= start + timing.maxFetch
  }

  /** The assumptions on timing: the clock passes no deadline, and a fetch that returns has succeeded. */
  ghost predicate Punctual(timing: Timing, w: World, step: WorldStep) {
    match step
    case Clock(ticks) =>
      var now := w.agent.sh.now + ticks;
      && (forall t :: t in w.agent.tasks ==> InTime(timing, w.agent.sh, w.agent.tasks[t].pc, now))
      && (forall c :: c in w.clients ==> ClientInTime(timing, w.clients[c], now))
    case Return(_, said) => said.Success?
    case _ => true
  }

  function CeilHalf(n: nat): nat {
    n - n / 2
  }

  /** How long a round may take, all in all, with certificates of this lifetime in seconds. */
  function Allowance(validity: nat): nat {
    CeilHalf(validity) * TICKS + if validity >= 2 then 1 else 0
  }

  predicate PaceFits(timing: Timing, validity: nat) {
    timing.interval + 2 * timing.maxFetch + timing.maxDelay <= Allowance(validity)
  }

  /** The pace is fast enough for every name the peer can be given. */
  ghost predicate Paced(timing: Timing, workloads: map<string, WorkloadConfig>, peer: Peer) {
    forall name :: BestFor(workloads, peer, name) ==> PaceFits(timing, workloads[name].validitySeconds)
  }

  /** The pace suits a client that calls now. */
  ghost predicate PacedStep(timing: Timing, w: World, step: WorldStep) {
    step.Wake? && step.client in w.clients ==>
      Paced(timing, w.agent.sh.workloads, Peer(w.clients[step.client].proc, step.accounts))
  }

  /** Each client's loop has a first round, at any time after the agent's boot. */
  ghost predicate WorldInit(env: Env, w: World) {
    && Init(env, w.agent)
    && forall c :: c in w.clients ==>
         w.clients[c].cached == None && w.clients[c].phase.Sleeping? && w.agent.sh.now <= w.clients[c].phase.wakeAt
  }

  ghost predicate PunctualRun(env: Env, timing: Timing, run: seq<World>, steps: seq<WorldStep>) {
    && |run| == |steps| + 1 && WorldInit(env, run[0])
    && forall i :: 0 <= i < |steps| ==>
         WorldNext(env, timing, run[i], run[i + 1], steps[i]) && Punctual(timing, run[i], steps[i])
  }

  /** At every call the pace suits every name that the client's process can be given. */
  ghost predicate PacedRun(timing: Timing, run: seq<World>, steps: seq<WorldStep>)
    requires |run| == |steps| + 1
  {
    forall i :: 0 <= i < |steps| ==> PacedStep(timing, run[i], steps[i])
  }

  // ---- Invariants ----

  /** The certificate is not past its last second at tick `until`. */
  predicate LastsUntil(certPem: Pem<Certificate>, until: int) {
    certPem.Pem? && until < (certPem.value.notAfter + 1) * TICKS
  }

  /** What is left when credentials are served: the allowance, less the signing delay. */
  predicate LongEnough(timing: Timing, creds: Credentials, servedAt: nat) {
    LastsUntil(creds.certPem, servedAt + Allowance(ValidityOrDefault(creds.certPem)) - timing.maxDelay)
  }

  function Served(pc: Pc): (o: Option<Outcome>)
    ensures o.Some? ==> o.value.Delivered?
  {
    match pc
    case Replying(name, creds, servedAt) => Some(Delivered(name, creds, servedAt))
    case Unwinding(outcome) => if outcome.Delivered? then Some(outcome) else None
    case Done(outcome) => if outcome.Delivered? then Some(outcome) else None
    case _ => None
  }

  /** What a step leads to serve was being served before, or is served from now. */
  predicate ServesFrom(pc: Pc, now: nat, pc': Pc) {
    Served(pc').Some? ==> Served(pc') == Served(pc) || Served(pc').value.servedAt == now
  }

  predicate ServedLong(timing: Timing, pc: Pc) {
    Served(pc).Some? ==> LongEnough(timing, Served(pc).value.creds, Served(pc).value.servedAt)
  }

  predicate CacheInTime(timing: Timing, sh: Shared) {
    forall name :: name in sh.cache ==> sh.cache[name].fetchedAt <= sh.cache[name].signedAt + timing.maxDelay
  }

  ghost predicate TimedInv(timing: Timing, s: State) {
    && CacheInTime(timing, s.sh)
    && forall t :: t in s.tasks ==> InTime(timing, s.sh, s.tasks[t].pc, s.sh.now) && ServedLong(timing, s.tasks[t].pc)
  }

  predicate CachedLasts(c: Client, until: nat) {
    c.cached.Some? ==> LastsUntil(c.cached.value.certPem, until)
  }

  /** A client's certificate lasts over its sleep and the fetch after it. */
  ghost predicate ClientOk(timing: Timing, s: State, c: Client) {
    && ClientInTime(timing, c, s.sh.now)
    && match c.phase
       case Sleeping(wakeAt) => CachedLasts(c, wakeAt + timing.maxFetch)
       case Waiting(t, start) =>
         && CachedLasts(c, start + timing.maxFetch) && start <= s.sh.now
         && t in s.tasks && s.tasks[t].peer.proc == c.proc && Paced(timing, s.sh.workloads, s.tasks[t].peer)
         && (Served(s.tasks[t].pc).Some? ==> start <= Served(s.tasks[t].pc).value.servedAt)
  }

  ghost predicate WorldInv(env: Env, timing: Timing, w: World) {
    && Inv(env, w.agent) && TimedInv(timing, w.agent)
    && forall c :: c in w.clients ==> ClientOk(timing, w.agent, w.clients[c])
  }

  // ---- The agent serves certificates with enough life left ----

  /** From the cache: less than half the lifetime has passed since the fetch. */
  lemma HitIsLongEnough(env: Env, timing: Timing, sh: Shared, name: string)
    requires FreshAt(sh.cache, name, sh.now) && CacheEntryOk(env, sh, name, sh.cache[name]) && CacheInTime(timing, sh)
    ensures LongEnough(timing, sh.cache[name].creds, sh.now)
  {}

  /** Straight from the server: no more than the delay has passed since signing. */
  lemma InsertIsLongEnough(env: Env, timing: Timing, sh: Shared, name: string, creds: Credentials, signedAt: nat)
    requires Sound(env, sh, name, creds) && IssuedAt(env, sh, name, creds.certPem, signedAt)
    requires sh.now <= signedAt + timing.maxDelay
    ensures LongEnough(timing, creds, sh.now)
  {}

  /** What a handler's step keeps: everything stays in time, and what is served is long enough from when it is. */
  predicate StaysTimed(timing: Timing, sh: Shared, pc: Pc, sh': Shared, pc': Pc) {
    && InTime(timing, sh', pc', sh'.now) && ServedLong(timing, pc') && CacheInTime(timing, sh')
    && sh'.now == sh.now && ServesFrom(pc, sh.now, pc')
  }

  predicate IsTimed(timing: Timing, sh: Shared, pc: Pc) {
    InTime(timing, sh, pc, sh.now) && ServedLong(timing, pc) && CacheInTime(timing, sh)
  }

  lemma ClientStepTimed(env: Env, timing: Timing, t: nat, p: Peer, sh: Shared, pc: Pc, ch: Choice, sh': Shared,
                        pc': Pc)
    requires ClientStep(env, t, p, sh, pc, ch, sh', pc') && IsTimed(timing, sh, pc)
    ensures StaysTimed(timing, sh, pc, sh', pc')
  {
    hide IterationOrder, Select, LongEnough;
  }

  lemma CacheStepTimed(env: Env, timing: Timing, t: nat, p: Peer, sh: Shared, pc: Pc, ch: Choice, sh': Shared, pc': Pc)
    requires CacheStep(env, t, sh, pc, ch, sh', pc') && IsTimed(timing, sh, pc)
    requires DataOk(env, sh, p, pc) && SharedOk(env, sh)
    ensures StaysTimed(timing, sh, pc, sh', pc')
  {
    hide FreshAt, LongEnough, Sound, IssuedAt, BestFor, WasIssued, SharedOk, CacheEntryOk;
    if pc.LookingUp? && FreshAt(sh.cache, pc.name, sh.now) {
      FreshIsSound(env, sh, pc.name);
      HitIsLongEnough(env, timing, sh, pc.name);
    } else if pc.Inserting? {
      InsertIsLongEnough(env, timing, sh, pc.name, pc.creds, pc.signedAt);
    }
  }

  lemma FreshIsSound(env: Env, sh: Shared, name: string)
    requires FreshAt(sh.cache, name, sh.now) && SharedOk(env, sh)
    ensures name in sh.cache && CacheEntryOk(env, sh, name, sh.cache[name])
  {
    hide CacheEntryOk, WorkloadsOk, DeliveryOk, FetchOk, IssuanceOk;
  }

  lemma DialStepTimed(env: Env, timing: Timing, t: nat, p: Peer, sh: Shared, pc: Pc, ch: Choice, sh': Shared, pc': Pc)
    requires DialStep(env, t, sh, pc, ch, sh', pc') && DataOk(env, sh, p, pc) && IsTimed(timing, sh, pc)
    ensures StaysTimed(timing, sh, pc, sh', pc')
  {
    hide RequestFor, BestFor, GoodAnswer, LongEnough;
  }

  lemma RebindStepTimed(env: Env, timing: Timing, t: nat, sh: Shared, pc: Pc, ch: Choice, sh': Shared, pc': Pc)
    requires RebindStep(env, t, sh, pc, ch, sh', pc') && IsTimed(timing, sh, pc)
    ensures StaysTimed(timing, sh, pc, sh', pc')
  {
    hide MarkRebound, LongEnough;
  }

  lemma HandlerStepTimed(env: Env, timing: Timing, t: nat, p: Peer, sh: Shared, pc: Pc, ch: Choice, sh': Shared,
                         pc': Pc)
    requires HandlerStep(env, t, p, sh, pc, ch, sh', pc') && IsTimed(timing, sh, pc)
    requires DataOk(env, sh, p, pc) && SharedOk(env, sh)
    ensures StaysTimed(timing, sh, pc, sh', pc')
  {
    hide ClientStep, CacheStep, DialStep, RebindStep, DataOk, SharedOk, IsTimed, StaysTimed;
    if ClientStep(env, t, p, sh, pc, ch, sh', pc') {
      ClientStepTimed(env, timing, t, p, sh, pc, ch, sh', pc');
    } else if CacheStep(env, t, sh, pc, ch, sh', pc') {
      CacheStepTimed(env, timing, t, p, sh, pc, ch, sh', pc');
    } else if DialStep(env, t, sh, pc, ch, sh', pc') {
      DialStepTimed(env, timing, t, p, sh, pc, ch, sh', pc');
    } else {
      RebindStepTimed(env, timing, t, sh, pc, ch, sh', pc');
    }
  }

  /** A handler waiting for its answer is not affected by another handler's step. */
  lemma OtherInTime(env: Env, timing: Timing, sh: Shared, t: nat, pc: Pc, u: nat, upc: Pc, sh': Shared)
    requires u != t && LockOk(sh, t, pc) && LockOk(sh, u, upc) && InTime(timing, sh, upc, sh.now)
    requires !Holds(pc, Dial) ==> sh'.links == sh.links
    requires sh'.now == sh.now
    ensures InTime(timing, sh', upc, sh'.now)
  {
    assert HeldBy(sh, Dial, t) == Holds(pc, Dial) && HeldBy(sh, Dial, u) == Holds(upc, Dial);
    if upc.Receiving? {
      assert !Holds(pc, Dial);
    }
  }

  lemma AgentStepTimed(env: Env, timing: Timing, s: State, s': State, step: Step)
    requires Inv(env, s) && TimedInv(timing, s) && Next(env, s, s', step) && !step.Tick?
    ensures TimedInv(timing, s') && s'.sh.now == s.sh.now
  {
    hide HandlerStep, ServerStep, LockOk, Holds, DataOk, SharedOk, LongEnough, InTime, Carrying;
    match step
    case Accept(t, proc, peerKnown) => NewTaskTimed(timing, s.sh, s'.tasks[t].pc);
    case Run(t, ch) =>
      var pc, pc', p := s.tasks[t].pc, s'.tasks[t].pc, s.tasks[t].peer;
      assert DataOk(env, s.sh, p, pc);
      HandlerStepTimed(env, timing, t, p, s.sh, pc, ch, s'.sh, pc');
      HandlerKeepsOwnData(env, t, p, s.sh, pc, ch, s'.sh, pc');
      forall u | u in s'.tasks
        ensures InTime(timing, s'.sh, s'.tasks[u].pc, s'.sh.now) && ServedLong(timing, s'.tasks[u].pc)
      {
        if u != t {
          OtherInTime(env, timing, s.sh, t, pc, u, s.tasks[u].pc, s'.sh);
        }
      }
    case Serve(conn, resp, delivered) => ServerStepTimed(env, timing, s, conn, resp, delivered, s');
  }

  lemma NewTaskTimed(timing: Timing, sh: Shared, pc: Pc)
    requires pc.AwaitWorkloads? || pc == Done(Failed(PeerUnknown))
    ensures InTime(timing, sh, pc, sh.now) && Served(pc).None?
  {}

  lemma ServerStepTimed(env: Env, timing: Timing, s: State, conn: nat, resp: AgentResponse, delivered: bool, s': State)
    requires Inv(env, s) && TimedInv(timing, s) && ServerStep(env, s.sh, conn, resp, delivered, s'.sh)
             && s'.tasks == s.tasks
    ensures TimedInv(timing, s') && s'.sh.now == s.sh.now
  {
    hide ServerStep, LongEnough, InTime, Inv, WorkloadsOk;
    InvParts(env, s);
    forall t | t in s'.tasks ensures InTime(timing, s'.sh, s'.tasks[t].pc, s'.sh.now) {
      AnsweredInTime(env, timing, s.sh, conn, resp, delivered, s'.sh, s.tasks[t].pc);
    }
    AnsweredInTime(env, timing, s.sh, conn, resp, delivered, s'.sh, AwaitWorkloads);
  }

  /** Answering a connection starts the time allowed for its certificate. */
  lemma AnsweredInTime(env: Env, timing: Timing, sh: Shared, conn: nat, resp: AgentResponse, delivered: bool,
                       sh': Shared, pc: Pc)
    requires WorkloadsOk(env, sh) && ServerStep(env, sh, conn, resp, delivered, sh')
    requires InTime(timing, sh, pc, sh.now) || pc.AwaitWorkloads?
    ensures InTime(timing, sh', pc, sh'.now) && sh'.now == sh.now && sh'.cache == sh.cache
  {
    hide ServerStep, WorkloadsOk, Responds;
    ServerEffect(env, sh, conn, resp, delivered, sh');
    hide Grows;
    if pc.Receiving? && pc.conn == conn {
      assert Carrying(sh', pc) == None || Carrying(sh', pc) == Some(sh.now);
    } else {
      assert Carrying(sh', pc) == Carrying(sh, pc);
    }
  }

  // ---- Clients ----

  /** A client whose handler and clock are as before is as before. */
  lemma ClientUndisturbed(env: Env, timing: Timing, s: State, s': State, c: Client)
    requires ClientOk(timing, s, c) && s'.sh.now == s.sh.now && s'.sh.workloads == s.sh.workloads
    requires c.phase.Waiting? ==>
               && c.phase.task in s'.tasks && s'.tasks[c.phase.task].peer == s.tasks[c.phase.task].peer
               && var now := Served(s'.tasks[c.phase.task].pc);
               (now.Some? ==> now == Served(s.tasks[c.phase.task].pc) || now.value.servedAt == s.sh.now)
    ensures ClientOk(timing, s', c)
  {
    hide BestFor, LastsUntil, Served;
  }

  lemma AgentStepKeepsClients(env: Env, timing: Timing, s: State, s': State, step: Step, c: Client)
    requires Inv(env, s) && TimedInv(timing, s) && Next(env, s, s', step) && !step.Tick?
    requires ClientOk(timing, s, c)
    ensures ClientOk(timing, s', c)
  {
    hide HandlerStep, ServerStep, LockInv, DataOk, SharedOk, LongEnough, InTime, Paced, LastsUntil, WorkloadsOk;
    AgentStepTimed(env, timing, s, s', step);
    match step
    case Accept(t, proc, peerKnown) => ClientUndisturbed(env, timing, s, s', c);
    case Run(t, ch) =>
      var pc, pc', p := s.tasks[t].pc, s'.tasks[t].pc, s.tasks[t].peer;
      assert DataOk(env, s.sh, p, pc);
      HandlerStepTimed(env, timing, t, p, s.sh, pc, ch, s'.sh, pc');
      HandlerKeepsOwnData(env, t, p, s.sh, pc, ch, s'.sh, pc');
      ClientUndisturbed(env, timing, s, s', c);
    case Serve(conn, resp, delivered) =>
      SharedHasWorkloads(env, s.sh);
      ServerEffect(env, s.sh, conn, resp, delivered, s'.sh);
      ClientUndisturbed(env, timing, s, s', c);
  }

  /** A punctual return: what is stored lasts over the coming sleep and the fetch after it. */
  lemma ReturnedLasts(env: Env, timing: Timing, s: State, c: Client)
    requires Inv(env, s) && TimedInv(timing, s) && ClientOk(timing, s, c) && c.phase.Waiting?
    requires s.tasks[c.phase.task].pc.Done? && s.tasks[c.phase.task].pc.result.Delivered?
    ensures LastsUntil(s.tasks[c.phase.task].pc.result.creds.certPem, s.sh.now + timing.interval + timing.maxFetch)
  {
    hide Inv, TimedInv, GoodOutcome, LongEnough, LastsUntil, BestFor;
    var t := c.phase.task;
    var pc := s.tasks[t].pc;
    EndedIsGood(env, s, t);
    DeliveredIsGood(env, s.sh, s.tasks[t].peer, pc.result);
    TaskServedLong(timing, s, t);
    hide ValidityOrDefault;
    LastsOverRound(timing, pc.result.creds, pc.result.servedAt, s.sh.now);
  }

  lemma TaskServedLong(timing: Timing, s: State, t: nat)
    requires TimedInv(timing, s) && t in s.tasks && s.tasks[t].pc.Done? && s.tasks[t].pc.result.Delivered?
    ensures LongEnough(timing, s.tasks[t].pc.result.creds, s.tasks[t].pc.result.servedAt)
  {
    hide InTime, CacheInTime, LongEnough;
    assert ServedLong(timing, s.tasks[t].pc);
  }

  /** What was long enough when it was served, within one fetch from now, lasts over the next sleep and fetch. */
  lemma LastsOverRound(timing: Timing, creds: Credentials, servedAt: nat, now: nat)
    requires LongEnough(timing, creds, servedAt) && now <= servedAt + timing.maxFetch
    requires PaceFits(timing, ValidityOrDefault(creds.certPem))
    ensures LastsUntil(creds.certPem, now + timing.interval + timing.maxFetch)
  {
    hide ValidityOrDefault, Allowance;
  }

  lemma WorldStepKeeps(env: Env, timing: Timing, w: World, w': World, step: WorldStep)
    requires WorldInv(env, timing, w) && WorldNext(env, timing, w, w', step)
    requires Punctual(timing, w, step) && PacedStep(timing, w, step)
    ensures WorldInv(env, timing, w')
  {
    hide Next, Inv, TimedInv, ClientOk, LastsUntil;
    match step
    case Wake(c, t, accounts) => WakeKeeps(env, timing, w, w', c, t, accounts);
    case Return(c, said) => ReturnKeeps(env, timing, w, w', c, said);
    case Agent(agentStep) =>
      StepIsSafe(env, w.agent, w'.agent, agentStep);
      AgentStepTimed(env, timing, w.agent, w'.agent, agentStep);
      forall c | c in w'.clients ensures ClientOk(timing, w'.agent, w'.clients[c]) {
        AgentStepKeepsClients(env, timing, w.agent, w'.agent, agentStep, w.clients[c]);
      }
    case Clock(ticks) => ClockKeeps(env, timing, w, w', ticks);
  }

  lemma WakeKeeps(env: Env, timing: Timing, w: World, w': World, c: nat, t: nat, accounts: Accounts)
    requires WorldInv(env, timing, w) && WorldNext(env, timing, w, w', Wake(c, t, accounts))
    requires PacedStep(timing, w, Wake(c, t, accounts))
    ensures WorldInv(env, timing, w')
  {
    hide Inv, TimedInv, BestFor, LastsUntil;
    var accept := Accept(t, Peer(w.clients[c].proc, accounts), true);
    StepIsSafe(env, w.agent, w'.agent, accept);
    AgentStepTimed(env, timing, w.agent, w'.agent, accept);
    forall x | x in w'.clients ensures ClientOk(timing, w'.agent, w'.clients[x]) {
      assert ClientOk(timing, w.agent, w.clients[x]);
      if x != c {
        AgentStepKeepsClients(env, timing, w.agent, w'.agent, accept, w.clients[x]);
      }
    }
  }

  lemma ReturnKeeps(env: Env, timing: Timing, w: World, w': World, c: nat, said: WorkloadClient.Conversation)
    requires WorldInv(env, timing, w) && WorldNext(env, timing, w, w', Return(c, said)) && said.Success?
    ensures WorldInv(env, timing, w')
  {
    hide Inv, TimedInv, BestFor, LastsUntil, Paced;
    assert ClientOk(timing, w.agent, w.clients[c]);
    ReturnedLasts(env, timing, w.agent, w.clients[c]);
    forall x | x in w'.clients ensures ClientOk(timing, w'.agent, w'.clients[x]) {
      assert ClientOk(timing, w.agent, w.clients[x]);
    }
  }

  lemma ClockKeeps(env: Env, timing: Timing, w: World, w': World, ticks: nat)
    requires WorldInv(env, timing, w) && WorldNext(env, timing, w, w', Clock(ticks))
             && Punctual(timing, w, Clock(ticks))
    ensures WorldInv(env, timing, w')
  {
    hide Inv, TimedInv, ClientOk, InTime, ClientInTime;
    StepIsSafe(env, w.agent, w'.agent, Tick(ticks));
    TickKeepsTimed(timing, w.agent, w'.agent, ticks);
    forall c | c in w'.clients ensures ClientOk(timing, w'.agent, w'.clients[c]) {
      TickKeepsClient(timing, w.agent, w'.agent, ticks, w.clients[c]);
    }
  }

  lemma TickKeepsTimed(timing: Timing, s: State, s': State, ticks: nat)
    requires TimedInv(timing, s) && s' == s.(sh := s.sh.(now := s.sh.now + ticks))
    requires forall t :: t in s.tasks ==> InTime(timing, s.sh, s.tasks[t].pc, s'.sh.now)
    ensures TimedInv(timing, s')
  {
    hide LongEnough, Served;
    forall t | t in s'.tasks ensures InTime(timing, s'.sh, s'.tasks[t].pc, s'.sh.now) {
      assert InTime(timing, s.sh, s.tasks[t].pc, s'.sh.now);
    }
  }

  lemma TickKeepsClient(timing: Timing, s: State, s': State, ticks: nat, c: Client)
    requires ClientOk(timing, s, c) && s' == s.(sh := s.sh.(now := s.sh.now + ticks))
    requires ClientInTime(timing, c, s'.sh.now)
    ensures ClientOk(timing, s', c)
  {
    hide Paced, LastsUntil, Served;
  }

  lemma {:induction false} PunctualRunKeeps(env: Env, timing: Timing, run: seq<World>, steps: seq<WorldStep>)
    requires PunctualRun(env, timing, run, steps) && PacedRun(timing, run, steps)
    ensures WorldInv(env, timing, run[|run| - 1])
  {
    if steps == [] {
      hide HandshakeMap, AnswersHandshake;
      assert WorldInv(env, timing, run[0]) by { StartIsSafe(env, timing, run[0]); }
    } else {
      hide WorldInit, WorldNext, Punctual, PacedStep, WorldInv;
      var n := |steps| - 1;
      PunctualRunKeeps(env, timing, run[..n + 1], steps[..n]);
      assert WorldNext(env, timing, run[n], run[n + 1], steps[n]) && Punctual(timing, run[n], steps[n]);
      assert PacedStep(timing, run[n], steps[n]);
      WorldStepKeeps(env, timing, run[n], run[n + 1], steps[n]);
    }
  }

  lemma StartIsSafe(env: Env, timing: Timing, w: World)
    requires WorldInit(env, w)
    ensures WorldInv(env, timing, w)
  {
    InitIsSafe(env, w.agent);
    hide Inv, Paced, AnswersHandshake;
  }

  /** The certificate is past its not_after. */
  predicate Stale(certPem: Pem<Certificate>, now: nat) {
    certPem.Pem? && now / TICKS > certPem.value.notAfter
  }

  /**
   Freshness: if at every call interval + 2 * (longest fetch) + (longest signing delay) is at most half the lifetime,
   rounded up, of every name the client's process can get, and one tick, then in every state of every punctual run a
   rotating client's certificate is readable and not stale, whether the agent took it from the server or its cache.
   */
  lemma ClientNeverStale(env: Env, timing: Timing, run: seq<World>, steps: seq<WorldStep>, c: nat)
    requires PunctualRun(env, timing, run, steps) && PacedRun(timing, run, steps)
    requires c in run[|run| - 1].clients && run[|run| - 1].clients[c].cached.Some?
    ensures var w := run[|run| - 1];
            var certPem := w.clients[c].cached.value.certPem;
            certPem.Pem? && !Stale(certPem, w.agent.sh.now)
  {
    PunctualRunKeeps(env, timing, run, steps);
    hide Inv, TimedInv, PunctualRun, PacedRun;
    assert ClientOk(timing, run[|run| - 1].agent, run[|run| - 1].clients[c]);
  }

  // ---- The client's loop ----

  /** What a client heard in its rounds. */
  function SaidTo(steps: seq<WorldStep>, c: nat): seq<WorkloadClient.Conversation> {
    if steps == [] then []
    else
      var last := steps[|steps| - 1];
      SaidTo(steps[..|steps| - 1], c) + if last.Return? && last.client == c then [last.said] else []
  }

  /** In every run, punctual or not, a client's cell is what its loop's rounds so far leave in it. */
  lemma {:induction false} CellIsLatest(env: Env, timing: Timing, run: seq<World>, steps: seq<WorldStep>, c: nat)
    requires |run| == |steps| + 1 && WorldInit(env, run[0]) && c in run[0].clients
    requires forall i :: 0 <= i < |steps| ==> WorldNext(env, timing, run[i], run[i + 1], steps[i])
    ensures var w := run[|run| - 1];
            c in w.clients && w.clients[c].proc == run[0].clients[c].proc
            && w.clients[c].cached == WorkloadClient.Latest(None, SaidTo(steps, c))
  {
    hide Next, Hears, Init;
    if steps != [] {
      var n := |steps| - 1;
      CellIsLatest(env, timing, run[..n + 1], steps[..n], c);
      assert WorldNext(env, timing, run[n], run[n + 1], steps[n]);
      var before := SaidTo(steps[..n], c);
      hide WorldInit, WorkloadClient.Stored;
      if steps[n].Return? && steps[n].client == c {
        assert (before + [steps[n].said])[..|before|] == before;
      } else {
        assert SaidTo(steps, c) == before;
      }
    }
  }
}
