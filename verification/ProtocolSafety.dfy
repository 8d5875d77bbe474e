/** The main results about whole runs, for any number of handlers in any interleaving with the server and the clock. */
module ProtocolSafety {
  import opened Wrappers
  import opened SelectorParser
  import opened Matcher
  import opened Pki
  import opened Policy
  import opened Server
  import opened Protocol
  import opened ProtocolLocks
  import opened ProtocolPort
  import opened ProtocolData
  import opened ProtocolRate
  import opened ProtocolKeys
  import opened ProtocolIssued
  import opened ProtocolProgress
  import opened ProtocolReplies

  ghost predicate Inv(env: Env, s: State) {
    LockInv(s) && PortInv(s) && DataInv(env, s) && RateInv(s) && ReplyInv(s) && KeyInv(s) && IssueInv(env, s)
  }

  lemma InvParts(env: Env, s: State)
    requires Inv(env, s)
    ensures LockInv(s) && DataInv(env, s) && WorkloadsOk(env, s.sh)
  {
    hide WorkloadsOk, LockInv, PortInv, RateInv, ReplyInv, KeyInv, IssueInv;
  }

  lemma InitIsSafe(env: Env, s: State)
    requires Init(env, s)
    ensures Inv(env, s)
  {
    hide HandshakeMap;
  }

  lemma StepIsSafe(env: Env, s: State, s': State, step: Step)
    requires Inv(env, s) && Next(env, s, s', step)
    ensures Inv(env, s')
  {
    hide Next, LockInv, PortInv, DataInv, RateInv, ReplyInv, KeyInv, IssueInv;
    StepKeepsLocks(env, s, s', step);
    StepKeepsPort(env, s, s', step);
    StepKeepsData(env, s, s', step);
    StepKeepsRate(env, s, s', step);
    StepKeepsReplies(env, s, s', step);
    StepKeepsKeys(env, s, s', step);
    StepKeepsIssued(env, s, s', step);
  }

  lemma {:induction false} RunIsSafe(env: Env, run: seq<State>, steps: seq<Step>)
    requires IsRun(env, run, steps)
    ensures Inv(env, run[|run| - 1])
  {
    hide Inv, Init, Next;
    if steps == [] {
      InitIsSafe(env, run[0]);
    } else {
      var n := |steps| - 1;
      RunIsSafe(env, run[..n + 1], steps[..n]);
      assert Next(env, run[n], run[n + 1], steps[n]);
      StepIsSafe(env, run[n], run[n + 1], steps[n]);
    }
  }

  /** Every invariant holds in every reachable state. */
  lemma ReachableIsSafe(env: Env, s: State)
    requires Reachable(env, s)
    ensures Inv(env, s)
  {
    hide Inv, Init, Next;
    var run, steps :| IsRun(env, run, steps) && run[|run| - 1] == s;
    RunIsSafe(env, run, steps);
  }

  /** What is known of a handler that has ended. */
  lemma EndedIsGood(env: Env, s: State, t: nat)
    requires Inv(env, s) && t in s.tasks && s.tasks[t].pc.Done?
    ensures GoodOutcome(env, s.sh, s.tasks[t].peer, s.tasks[t].pc.result)
  {
    hide LockInv, PortInv, RateInv, ReplyInv, KeyInv, IssueInv, SharedOk, GoodOutcome;
    assert DataOk(env, s.sh, s.tasks[t].peer, s.tasks[t].pc);
  }

  lemma DeliveredIsGood(env: Env, sh: Shared, p: Peer, o: Outcome)
    requires GoodOutcome(env, sh, p, o) && o.Delivered?
    ensures BestFor(sh.workloads, p, o.name) && o.name in sh.workloads && o.servedAt <= sh.now
    ensures ValidityOrDefault(o.creds.certPem) == sh.workloads[o.name].validitySeconds
  {
    hide BestFor, WasIssued;
  }

  /**
   Attested issuance, end to end. Every success reply went to a process that satisfies the selector of the name it
   got, with no matching entry outscoring it; that selector is what the host's policy text for this VM parses to;
   the VM is registered under the CID it called from; and the server issued that very certificate for that name.
   */
  lemma EveryDeliveryIsAttested(env: Env, s: State, d: Delivery)
    requires Reachable(env, s) && d in s.sh.deliveries
    ensures Winner(s.sh.workloads, d.peer.proc, d.peer.accounts, d.name)
    ensures Registered(env.host.config, env.vmName, d.name)
    ensures var vm := env.host.config.vms[env.vmName];
            vm.vmCid == env.peerCid && Parse(vm.identities[d.name].selector) == Ok(s.sh.workloads[d.name].selector)
    ensures exists at: nat :: at <= s.sh.now && Issuance(env.vmName, d.name, d.creds.certPem, at) in s.sh.issued
  {
    ReachableIsSafe(env, s);
    hide LockInv, PortInv, RateInv, ReplyInv, KeyInv, IssueInv, Winner, Parse, Sound;
    assert DeliveryOk(env, s.sh, d);
    var at: nat :| IssuedAt(env, s.sh, d.name, d.creds.certPem, at);
  }

  /** Whatever failed or interleaved before: cached and delivered certificates belong to the key beside them. */
  lemma TruePairs(env: Env, s: State)
    requires Reachable(env, s)
    ensures forall name :: name in s.sh.cache ==> Sound(env, s.sh, name, s.sh.cache[name].creds)
    ensures forall d :: d in s.sh.deliveries ==> Sound(env, s.sh, d.name, d.creds)
  {
    ReachableIsSafe(env, s);
    SharedPairs(env, s.sh);
  }

  lemma SharedPairs(env: Env, sh: Shared)
    requires SharedOk(env, sh)
    ensures forall name :: name in sh.cache ==> Sound(env, sh, name, sh.cache[name].creds)
    ensures forall d :: d in sh.deliveries ==> Sound(env, sh, d.name, d.creds)
  {
    hide WorkloadsOk, IssuanceOk, FetchOk, BestFor, Sound, IssuedAt, WasIssued;
    forall name | name in sh.cache ensures Sound(env, sh, name, sh.cache[name].creds) {
      assert CacheEntryOk(env, sh, name, sh.cache[name]);
    }
    forall d | d in sh.deliveries ensures Sound(env, sh, d.name, d.creds) {
      assert DeliveryOk(env, sh, d);
    }
  }

  /**
   A handler that has ended sent exactly the success reply its outcome names, and none if it failed anywhere, a failed
   rebind after an accepted request included.
   */
  lemma RepliesMatchOutcomes(env: Env, s: State, t: nat)
    requires Reachable(env, s) && t in s.tasks && s.tasks[t].pc.Done?
    ensures var result := s.tasks[t].pc.result;
            RepliesOf(s.sh.deliveries, t) ==
            if result.Delivered? then [Delivery(t, s.tasks[t].peer, result.name, result.creds)] else []
  {
    ReachableIsSafe(env, s);
    hide Reachable, LockInv, PortInv, DataInv, RateInv, ReplyInv, KeyInv, IssueInv, RepliesOf;
    EndedReplies(s, t);
  }

  lemma EndedReplies(s: State, t: nat)
    requires ReplyInv(s) && t in s.tasks && s.tasks[t].pc.Done?
    ensures var result := s.tasks[t].pc.result;
            RepliesOf(s.sh.deliveries, t) ==
            if result.Delivered? then [Delivery(t, s.tasks[t].peer, result.name, result.creds)] else []
  {
    hide RepliesOf;
  }

  /**
   One name throughout: subject, DNS name and issued identity are the given name; and a peer evaluates it to that name
   exactly when the host's CA certificate and key belong together.
   */
  ghost predicate NamedThroughout(env: Env, sh: Shared, name: string, creds: Credentials) {
    && creds.certPem.Pem? && creds.certPem.value.sans != [] && creds.certPem.value.sans[0] == DnsName(name)
    && FirstCommonName(creds.certPem.value.subject) == Some(name)
    && (Evaluate(creds.certPem, creds.caCertPem) == Ok(name) <==> Consistent(env.host.ca))
    && creds.certPem.value.publicKey == PublicHalf(creds.keyPem)
    && exists at: nat :: Issuance(env.vmName, name, creds.certPem, at) in sh.issued
  }

  /** Every certificate obtained through the agent: cached under a name, or delivered for one at any time before. */
  lemma IdentityAgreement(env: Env, s: State)
    requires Reachable(env, s)
    ensures forall name :: name in s.sh.cache ==> NamedThroughout(env, s.sh, name, s.sh.cache[name].creds)
    ensures forall d :: d in s.sh.deliveries ==> NamedThroughout(env, s.sh, d.name, d.creds)
  {
    ReachableIsSafe(env, s);
    hide LockInv, PortInv, RateInv, ReplyInv, KeyInv, IssueInv, WorkloadsOk, BestFor, Sound, NamedThroughout;
    forall name | name in s.sh.cache ensures NamedThroughout(env, s.sh, name, s.sh.cache[name].creds) {
      assert CacheEntryOk(env, s.sh, name, s.sh.cache[name]);
      SoundIsNamed(env, s.sh, name, s.sh.cache[name].creds);
    }
    forall d | d in s.sh.deliveries ensures NamedThroughout(env, s.sh, d.name, d.creds) {
      assert DeliveryOk(env, s.sh, d);
      SoundIsNamed(env, s.sh, d.name, d.creds);
    }
  }

  lemma SoundIsNamed(env: Env, sh: Shared, name: string, creds: Credentials)
    requires Sound(env, sh, name, creds) && WasIssued(env, sh, name, creds.certPem)
    ensures NamedThroughout(env, sh, name, creds)
  {
    var at: nat :| IssuedAt(env, sh, name, creds.certPem, at);
    assert Issuance(env.vmName, name, creds.certPem, at) in sh.issued;
  }

  /** The server's answer that a handler holds, or that waits for it on its connection. */
  function AnswerFor(sh: Shared, pc: Pc): Option<Answer> {
    match pc
    case Receiving(_, _, conn) =>
      if conn in sh.links && sh.links[conn].Answered? then Some(sh.links[conn].answer) else None
    case Closing(_, _, _, answer) => Some(answer)
    case Rebinding(_, _, answer, _) => Some(answer)
    case AwaitStore(_, _, answer) => Some(answer)
    case Storing(_, _, answer) => Some(answer)
    case Inspecting(_, _, answer) => Some(answer)
    case _ => None
  }

  /**
   The server has no other reason to refuse: from the moment it is written, the answer to a handler's request that
   fits a frame is a certificate exactly when the CA can sign for the name, and a signing failure otherwise. Port gate,
   lookup and CID check always pass.
   */
  lemma OnlySigningFails(env: Env, s: State, t: nat)
    requires Reachable(env, s) && t in s.tasks && AnswerFor(s.sh, s.tasks[t].pc).Some?
    ensures var pc := s.tasks[t].pc;
            var resp := AnswerFor(s.sh, pc).value.response;
            && Registered(env.host.config, env.vmName, pc.name)
            && if !Fits(env, pc.name, pc.key) then resp.Error? && resp.message.BadFrame?
               else if CanSign(env, pc.name) then resp.CertOk?
               else resp.Error? && resp.message.SigningFailed?
  {
    ReachableIsSafe(env, s);
    hide LockInv, PortInv, RateInv, ReplyInv, KeyInv, IssueInv, SharedOk, DataOk, Signable, Fits;
    assert DataOk(env, s.sh, s.tasks[t].peer, s.tasks[t].pc);
    AnswerKnown(env, s.sh, s.tasks[t].peer, s.tasks[t].pc);
    SharedHasWorkloads(env, s.sh);
    hide Parse, ValiditySeconds, Sound, IssuedAt;
  }

  lemma AnswerKnown(env: Env, sh: Shared, p: Peer, pc: Pc)
    requires DataOk(env, sh, p, pc) && AnswerFor(sh, pc).Some?
    ensures pc.name in sh.workloads && GoodAnswer(env, sh, pc.name, pc.key, AnswerFor(sh, pc).value)
  {
    hide GoodAnswer, Matches, Score;
  }

  /**
   Port ownership in every reachable state: the listener, a dialled stream and a listener not yet stored exclude each
   other; none of the latter exists while the dial lock is free, and then the listener is there exactly when no dial
   has dropped it or the latest one got as far as rebinding. A rejected request has rebound; a failed dial has not.
   */
  lemma PortOwnership(env: Env, s: State)
    requires Reachable(env, s)
    ensures forall t, u :: t in s.tasks && u in s.tasks && OwnsPort(s.tasks[t].pc) && OwnsPort(s.tasks[u].pc) ==> t == u
    ensures forall t :: t in s.tasks && OwnsPort(s.tasks[t].pc) ==> !s.sh.listener && Dial in s.sh.locks
    ensures Dial !in s.sh.locks ==> (s.sh.listener <==> LatestDialRebound(s.sh))
    ensures forall t :: t in s.tasks && s.tasks[t].pc.LeavingDial? ==>
                          (s.sh.listener <==> s.tasks[t].pc.why.Rejected? || s.tasks[t].pc.why.UnexpectedReply?)
  {
    ReachableIsSafe(env, s);
    hide Reachable, DataInv, RateInv, ReplyInv, KeyInv, IssueInv, LockInv, OwnsPort, PortOk;
    forall t | t in s.tasks && OwnsPort(s.tasks[t].pc)
      ensures !s.sh.listener && Dial in s.sh.locks
      ensures forall u :: u in s.tasks && OwnsPort(s.tasks[u].pc) ==> u == t
    {
      hide PortInv;
      OneOwner(s, t);
    }
    forall t | t in s.tasks && s.tasks[t].pc.LeavingDial?
      ensures s.sh.listener <==> s.tasks[t].pc.why.Rejected? || s.tasks[t].pc.why.UnexpectedReply?
    {
      AfterDial(s.sh, s.tasks[t].pc);
    }
  }

  lemma AfterDial(sh: Shared, pc: Pc)
    requires PortOk(sh, pc) && pc.LeavingDial?
    ensures sh.listener <==> pc.why.Rejected? || pc.why.UnexpectedReply?
  {}

  /**
   No reachable state with an unfinished handler is stuck. Handlers only ever wait for the workloads lock, and whoever
   holds it waits for nobody, so there is no circle of waits.
   */
  lemma NoDeadlock(env: Env, s: State, t: nat)
    requires Reachable(env, s) && t in s.tasks && !s.tasks[t].pc.Done?
    ensures exists step, s' :: Next(env, s, s', step) && NoFailure(s, step)
    ensures forall ts :: |ts| > 1 && WaitChain(s, ts) ==> |ts| == 2 && ts[0] != ts[1]
    ensures forall u, lock ::
              u in s.tasks && Wants(s.tasks[u].pc) == Some(lock) && lock in s.sh.locks ==> lock == Workloads
  {
    ReachableIsSafe(env, s);
    hide Next, NoFailure, LockInv, DataInv, PortInv, RateInv, ReplyInv, WaitChain;
    var step, s' := Progress(env, s, t);
    forall ts | |ts| > 1 && WaitChain(s, ts) ensures |ts| == 2 && ts[0] != ts[1] {
      NoWaitCycle(s, ts);
    }
    forall u, lock | u in s.tasks && Wants(s.tasks[u].pc) == Some(lock) && lock in s.sh.locks
      ensures lock == Workloads
    {
      OthersAreFree(s, u, lock);
    }
  }

  lemma CannotStep(env: Env, s: State, t: nat, u: nat, ch: Choice, sh': Shared, pc': Pc)
    requires LockInv(s) && t in s.tasks && u in s.tasks && t != u && Holds(s.tasks[t].pc, Workloads)
    ensures !HandlerStep(env, u, s.tasks[u].peer, s.sh, s.tasks[u].pc, ch, sh', pc')
  {
    hide HandlerStep;
    assert HeldBy(s.sh, Workloads, t);
    if Holds(s.tasks[u].pc, Workloads) {
      Serialised(s, t, u);
    } else {
      WaitsOrDone(env, u, s.tasks[u].peer, s.sh, s.tasks[u].pc, ch, sh', pc');
    }
  }

  lemma WaitsOrDone(env: Env, u: nat, p: Peer, sh: Shared, pc: Pc, ch: Choice, sh': Shared, pc': Pc)
    requires Workloads in sh.locks && (pc.AwaitWorkloads? || pc.Done?)
    ensures !HandlerStep(env, u, p, sh, pc, ch, sh', pc')
  {}

  /** Handlers past the workloads lock are never two: while one is, no other can take any step until it ends. */
  lemma HandlersAreSerialised(env: Env, s: State, t: nat, u: nat)
    requires Reachable(env, s) && t in s.tasks && u in s.tasks && t != u
    requires !s.tasks[t].pc.AwaitWorkloads? && !s.tasks[t].pc.Done?
    ensures s.tasks[u].pc.AwaitWorkloads? || s.tasks[u].pc.Done?
    ensures Blocked(s.sh, AwaitWorkloads)
    ensures forall ch, sh', pc' :: !HandlerStep(env, u, s.tasks[u].peer, s.sh, s.tasks[u].pc, ch, sh', pc')
  {
    ReachableIsSafe(env, s);
    forall ch, sh', pc' ensures !HandlerStep(env, u, s.tasks[u].peer, s.sh, s.tasks[u].pc, ch, sh', pc') {
      CannotStep(env, s, t, u, ch, sh', pc');
    }
    hide DataInv, RateInv, PortInv, ReplyInv, KeyInv, IssueInv;
    assert HeldBy(s.sh, Workloads, t);
    if Holds(s.tasks[u].pc, Workloads) {
      Serialised(s, t, u);
    }
  }

  /**
   While an entry is fresh nobody is fetching that identity, and a handler that looks it up gets the entry: requests
   queued behind a success end as cache hits.
   */
  lemma FreshMeansNoRequest(env: Env, s: State, name: string, t: nat)
    requires Reachable(env, s) && FreshAt(s.sh.cache, name, s.sh.now) && t in s.tasks
    ensures Fetching(s.tasks[t].pc) != Some(name)
    ensures s.tasks[t].pc == LookingUp(name) ==>
              forall ch, sh', pc' :: HandlerStep(env, t, s.tasks[t].peer, s.sh, s.tasks[t].pc, ch, sh', pc') ==>
                HitsCache(s.sh, name, sh', pc')
  {
    ReachableIsSafe(env, s);
    hide Reachable, DataInv, PortInv, LockInv, ReplyInv, KeyInv, IssueInv, FreshAt, HandlerStep, HitsCache;
    assert NotFresh(s.sh, s.tasks[t].pc);
    var p, pc := s.tasks[t].peer, s.tasks[t].pc;
    if pc == LookingUp(name) {
      forall ch, sh', pc' | HandlerStep(env, t, p, s.sh, pc, ch, sh', pc') ensures HitsCache(s.sh, name, sh', pc') {
        LookupHits(env, t, p, s.sh, name, ch, sh', pc');
      }
    }
  }

  /** The cached credentials are on their way out, and the cache is as it was. */
  predicate HitsCache(sh: Shared, name: string, sh': Shared, pc': Pc) {
    name in sh.cache && pc' == Replying(name, sh.cache[name].creds, sh.now) && sh' == Release(sh, Cache)
  }

  lemma LookupHits(env: Env, t: nat, p: Peer, sh: Shared, name: string, ch: Choice, sh': Shared, pc': Pc)
    requires FreshAt(sh.cache, name, sh.now) && HandlerStep(env, t, p, sh, LookingUp(name), ch, sh', pc')
    ensures HitsCache(sh, name, sh', pc')
  {}

  /** No key pair serves twice: two fetched certificates, or two cached ones, never share a public key. */
  lemma KeysAreFresh(env: Env, s: State)
    requires Reachable(env, s)
    ensures KeysDiffer(s.sh.fetches)
    ensures forall a, b :: a in s.sh.cache && b in s.sh.cache && a != b ==>
                             s.sh.cache[a].creds.keyPem != s.sh.cache[b].creds.keyPem
  {
    ReachableIsSafe(env, s);
    TruePairs(env, s);
    assert KeysDiffer(s.sh.fetches) && RateShared(s.sh) by {
      hide DataInv, PortInv, LockInv, ReplyInv, KeyOk, NotFresh, KeysDiffer, CacheIsLatest, Spaced;
    }
    hide Inv, Reachable, KeysDiffer, RateShared, Sound;
    forall a, b | a in s.sh.cache && b in s.sh.cache && a != b
      ensures s.sh.cache[a].creds.keyPem != s.sh.cache[b].creds.keyPem
    {
      CachedKeysDiffer(env, s.sh, a, b);
    }
  }

  lemma CachedKeysDiffer(env: Env, sh: Shared, a: string, b: string)
    requires KeysDiffer(sh.fetches) && RateShared(sh) && a in sh.cache && b in sh.cache && a != b
    requires Sound(env, sh, a, sh.cache[a].creds) && Sound(env, sh, b, sh.cache[b].creds)
    ensures sh.cache[a].creds.keyPem != sh.cache[b].creds.keyPem
  {
    hide RateShared;
    var i := LoggedAt(sh, a);
    var j := LoggedAt(sh, b);
  }

  /**
   The server's log, with the certificates whose replies were lost: each was asked for as the best match of some
   handler's peer, in this VM's name, and no two are for the same public key.
   */
  lemma IssuedOncePerKey(env: Env, s: State)
    requires Reachable(env, s)
    ensures IssuedDiffer(s.sh.issued)
    ensures forall x :: x in s.sh.issued ==>
              x.vmName == env.vmName
              && exists t :: t in s.tasks && BestFor(s.sh.workloads, s.tasks[t].peer, x.identity)
  {
    ReachableIsSafe(env, s);
    hide Reachable, LockInv, PortInv, DataInv, RateInv, ReplyInv, KeyInv, UnsentOk, IssuedDiffer, BestFor;
    forall x | x in s.sh.issued
      ensures x.vmName == env.vmName
      ensures exists t :: t in s.tasks && BestFor(s.sh.workloads, s.tasks[t].peer, x.identity)
    {
      assert WantedBy(env, s, x.vmName, x.identity);
    }
  }

  /** A cache entry's fetch is in the log. */
  lemma LoggedAt(sh: Shared, name: string) returns (i: nat)
    requires RateShared(sh) && name in sh.cache
    ensures i < |sh.fetches| && sh.fetches[i].name == name && sh.fetches[i].certPem == sh.cache[name].creds.certPem
  {
    hide Spaced, FetchesOf;
    assert CacheIsLatest(sh, name);
    var f := FetchesOf(sh.fetches, name);
    FetchesMembers(sh.fetches, name);
    assert f[|f| - 1] in f;
    i :| i < |sh.fetches| && sh.fetches[i] == f[|f| - 1];
  }

  /** The successful fetches of one identity span at least the sum of half-lifetimes of all but the last. */
  lemma FetchesAreSpaced(env: Env, s: State, name: string)
    requires Reachable(env, s) && FetchesOf(s.sh.fetches, name) != []
    ensures var f := FetchesOf(s.sh.fetches, name);
            && Spaced(f) && f[|f| - 1].at - f[0].at >= SumThresholds(f[..|f| - 1])
  {
    ReachableIsSafe(env, s);
    hide DataInv, PortInv, LockInv, ReplyInv, KeyInv, IssueInv, FetchesOf;
    assert Spaced(FetchesOf(s.sh.fetches, name));
    SpacedSpan(FetchesOf(s.sh.fetches, name));
  }

  /** For a policy of `ttl` minutes that is 30 * ttl seconds per fetch, as long as the lifetime fits 32 bits. */
  lemma FetchRate(env: Env, s: State, name: string)
    requires Reachable(env, s) && FetchesOf(s.sh.fetches, name) != []
    ensures Registered(env.host.config, env.vmName, name)
    ensures var ttl := env.host.config.vms[env.vmName].identities[name].ttlMinutes;
            var f := FetchesOf(s.sh.fetches, name);
            ttl <= 71582788 ==> f[|f| - 1].at - f[0].at >= (|f| - 1) * (30 * ttl * 1_000_000_000)
  {
    ReachableIsSafe(env, s);
    hide LockInv, PortInv, RateInv, ReplyInv, KeyInv, IssueInv;
    var f := FetchesOf(s.sh.fetches, name);
    FetchesMembers(s.sh.fetches, name);
    FetchesAreSpaced(env, s, name);
    assert f[0] in f && FetchOk(s.sh, f[0]);
    LoggedThreshold(env, s.sh, name, f);
  }

  lemma ServedThreshold(ttl: u32, certPem: Pem<Certificate>)
    requires ttl <= MAX_TTL_MINUTES && ValidityOrDefault(certPem) == ValiditySeconds(ttl)
    ensures Threshold(certPem) == 30 * ttl * TICKS
  {
    ValidityExactIff(ttl);
    hide ValidityOrDefault, ValiditySeconds;
    assert ttl * 60 / 2 == 30 * ttl;
  }

  lemma LoggedThreshold(env: Env, sh: Shared, name: string, f: seq<Fetch>)
    requires WorkloadsOk(env, sh) && f != [] && name in sh.workloads
    requires forall x :: x in f ==> x.name == name && FetchOk(sh, x)
    ensures Registered(env.host.config, env.vmName, name)
    ensures var ttl := env.host.config.vms[env.vmName].identities[name].ttlMinutes;
            ttl <= MAX_TTL_MINUTES ==> SumThresholds(f[..|f| - 1]) == (|f| - 1) * (30 * ttl * TICKS)
  {
    hide Parse, SumThresholds, Threshold, ValidityOrDefault, ValiditySeconds;
    var ttl := env.host.config.vms[env.vmName].identities[name].ttlMinutes;
    var front := f[..|f| - 1];
    if ttl <= MAX_TTL_MINUTES {
      forall i | 0 <= i < |front| ensures Threshold(front[i].certPem) == 30 * ttl * TICKS {
        assert front[i] in f && FetchOk(sh, front[i]);
        ServedThreshold(ttl, front[i].certPem);
      }
      SumOfEqualThresholds(front, 30 * ttl * TICKS);
    }
  }
}
