/**
 What the credentials in the system are: every certificate that is in flight, cached or delivered belongs to the
 key beside it, names the workload it was requested for everywhere, and was issued by the server under that name.
 */
module ProtocolData {
  import opened Wrappers
  import opened SelectorParser
  import opened Matcher
  import opened Codec
  import opened Pki
  import opened Wire
  import opened Policy
  import opened Server
  import opened Protocol
  import opened ProtocolLocks

  /** The credentials are a true pair for the named workload of this VM, signed by this server's CA. */
  predicate Sound(env: Env, sh: Shared, name: string, creds: Credentials) {
    && name in sh.workloads && creds.certPem.Pem?
    && var c := creds.certPem.value;
    && c.publicKey == PublicHalf(creds.keyPem)
    && FirstCommonName(c.subject) == Some(name)
    && c.sans != [] && c.sans[0] == DnsName(name)
    && c.signer == PublicHalf(env.host.ca.key) && creds.caCertPem == env.host.ca.certPem && creds.caCertPem.Pem?
    && c.notAfter == c.notBefore + sh.workloads[name].validitySeconds
  }

  /** The server's log has this certificate, made for this workload at this time. */
  predicate IssuedAt(env: Env, sh: Shared, name: string, certPem: Pem<Certificate>, at: nat) {
    && Issuance(env.vmName, name, certPem, at) in sh.issued
    && at <= sh.now && certPem.Pem? && certPem.value.notBefore == at / TICKS
  }

  ghost predicate WasIssued(env: Env, sh: Shared, name: string, certPem: Pem<Certificate>) {
    exists at: nat :: IssuedAt(env, sh, name, certPem, at)
  }

  /** The workload map is the validated map of this VM's entry, and this VM calls from its own CID and port. */
  ghost predicate WorkloadsOk(env: Env, sh: Shared) {
    && PassesGate(env.host.config, env.clientPort)
    && env.vmName in env.host.config.vms && env.host.config.vms[env.vmName].vmCid == env.peerCid
    && SelectorsParse(env.host.config.vms[env.vmName])
    && sh.workloads == HandshakeMap(env.host.config.vms[env.vmName])
  }

  predicate IssuanceOk(env: Env, issuance: Issuance) {
    && Registered(env.host.config, issuance.vmName, issuance.identity)
    && env.host.config.vms[issuance.vmName].vmCid == env.peerCid
  }

  /** The CA can sign for this name of this VM. */
  predicate CanSign(env: Env, name: string) {
    && env.vmName in env.host.config.vms
    && Signable(env.host.ca, name, env.host.config.vms[env.vmName].ip, env.host.parseIp)
  }

  /** The request for this name and key can be framed. */
  predicate Fits(env: Env, name: string, key: PrivateKey) {
    |env.json.encodeRequest(RequestFor(env, name, key))| <= MAX_MSG_BYTES
  }

  /**
   A sound certificate exactly when signing is possible; otherwise the reply reports that framing or signing failed.
   */
  predicate GoodAnswer(env: Env, sh: Shared, name: string, key: PrivateKey, answer: Answer) {
    if !Fits(env, name, key) then answer.response.Error? && answer.response.message.BadFrame?
    else if CanSign(env, name) then
      && answer.response.CertOk?
      && Sound(env, sh, name, Credentials(answer.response.certPem, key, answer.response.caCertPem))
      && IssuedAt(env, sh, name, answer.response.certPem, answer.at)
    else answer.response.Error? && answer.response.message.SigningFailed?
  }

  predicate GoodLink(env: Env, sh: Shared, name: string, key: PrivateKey, link: Link) {
    match link
    case Open => false
    case Requested(req) => req == RequestFor(env, name, key)
    case Answered(answer) => GoodAnswer(env, sh, name, key, answer)
    case HungUp => true
  }

  ghost predicate GoodOutcome(env: Env, sh: Shared, p: Peer, outcome: Outcome) {
    outcome.Delivered? ==>
      && BestFor(sh.workloads, p, outcome.name) && Sound(env, sh, outcome.name, outcome.creds)
      && WasIssued(env, sh, outcome.name, outcome.creds.certPem) && outcome.servedAt <= sh.now
  }

  /** What is known about a handler at each point where it carries a name, a connection or an answer. */
  ghost predicate DataOk(env: Env, sh: Shared, p: Peer, pc: Pc) {
    match pc
    case ReadingLine(name) => BestFor(sh.workloads, p, name)
    case ParsingLine(name, _) => BestFor(sh.workloads, p, name)
    case AwaitCache(name) => BestFor(sh.workloads, p, name)
    case LookingUp(name) => BestFor(sh.workloads, p, name)
    case Generating(name) => BestFor(sh.workloads, p, name)
    case AwaitDial(name, _) => BestFor(sh.workloads, p, name)
    case AwaitDrop(name, _) => BestFor(sh.workloads, p, name)
    case Dropping(name, _) => BestFor(sh.workloads, p, name)
    case Dialling(name, _, _) => BestFor(sh.workloads, p, name)
    case Sending(name, key, conn) =>
      BestFor(sh.workloads, p, name) && conn in sh.links && (sh.links[conn].Open? || sh.links[conn].HungUp?)
    case Receiving(name, key, conn) =>
      BestFor(sh.workloads, p, name) && conn in sh.links && GoodLink(env, sh, name, key, sh.links[conn])
    case Closing(name, key, _, answer) => BestFor(sh.workloads, p, name) && GoodAnswer(env, sh, name, key, answer)
    case Rebinding(name, key, answer, _) => BestFor(sh.workloads, p, name) && GoodAnswer(env, sh, name, key, answer)
    case AwaitStore(name, key, answer) => BestFor(sh.workloads, p, name) && GoodAnswer(env, sh, name, key, answer)
    case Storing(name, key, answer) => BestFor(sh.workloads, p, name) && GoodAnswer(env, sh, name, key, answer)
    case Inspecting(name, key, answer) => BestFor(sh.workloads, p, name) && GoodAnswer(env, sh, name, key, answer)
    case Inserting(name, creds, signedAt) =>
      BestFor(sh.workloads, p, name) && Sound(env, sh, name, creds) && IssuedAt(env, sh, name, creds.certPem, signedAt)
    case Replying(name, creds, servedAt) => GoodOutcome(env, sh, p, Delivered(name, creds, servedAt))
    case Unwinding(outcome) => GoodOutcome(env, sh, p, outcome)
    case Done(outcome) => GoodOutcome(env, sh, p, outcome)
    case _ => true
  }

  predicate CacheEntryOk(env: Env, sh: Shared, name: string, entry: Cached) {
    && Sound(env, sh, name, entry.creds) && IssuedAt(env, sh, name, entry.creds.certPem, entry.signedAt)
    && entry.signedAt <= entry.fetchedAt <= sh.now
  }

  ghost predicate DeliveryOk(env: Env, sh: Shared, d: Delivery) {
    && BestFor(sh.workloads, d.peer, d.name) && Sound(env, sh, d.name, d.creds)
    && WasIssued(env, sh, d.name, d.creds.certPem)
  }

  predicate FetchOk(sh: Shared, f: Fetch) {
    f.name in sh.workloads && ValidityOrDefault(f.certPem) == sh.workloads[f.name].validitySeconds && f.at <= sh.now
  }

  ghost predicate SharedOk(env: Env, sh: Shared) {
    && WorkloadsOk(env, sh)
    && (forall conn :: conn in sh.links ==> conn < sh.nextConn)
    && (forall name :: name in sh.cache ==> CacheEntryOk(env, sh, name, sh.cache[name]))
    && (forall d :: d in sh.deliveries ==> DeliveryOk(env, sh, d))
    && (forall f :: f in sh.fetches ==> FetchOk(sh, f))
    && (forall issuance :: issuance in sh.issued ==> IssuanceOk(env, issuance))
  }

  ghost predicate DataInv(env: Env, s: State) {
    && SharedOk(env, s.sh)
    && forall t :: t in s.tasks ==> DataOk(env, s.sh, s.tasks[t].peer, s.tasks[t].pc)
  }

  // ---- Stability: the shared parts these facts rest on only grow ----

  ghost predicate Grows(sh: Shared, sh': Shared) {
    && sh'.workloads == sh.workloads && sh.now <= sh'.now
    && forall issuance :: issuance in sh.issued ==> issuance in sh'.issued
  }

  lemma WasIssuedStable(env: Env, sh: Shared, sh': Shared, name: string, certPem: Pem<Certificate>)
    requires Grows(sh, sh') && WasIssued(env, sh, name, certPem)
    ensures WasIssued(env, sh', name, certPem)
  {
    var at: nat :| IssuedAt(env, sh, name, certPem, at);
    assert IssuedAt(env, sh', name, certPem, at);
  }

  lemma OutcomeStable(env: Env, sh: Shared, sh': Shared, p: Peer, outcome: Outcome)
    requires Grows(sh, sh') && GoodOutcome(env, sh, p, outcome)
    ensures GoodOutcome(env, sh', p, outcome)
  {
    hide BestFor, WasIssued;
    if outcome.Delivered? {
      WasIssuedStable(env, sh, sh', outcome.name, outcome.creds.certPem);
    }
  }

  lemma LinkStable(env: Env, sh: Shared, sh': Shared, name: string, key: PrivateKey, link: Link)
    requires Grows(sh, sh') && GoodLink(env, sh, name, key, link)
    ensures GoodLink(env, sh', name, key, link)
  {
    hide RequestFor, CanSign, Fits;
  }

  lemma AnswerStable(env: Env, sh: Shared, sh': Shared, name: string, key: PrivateKey, answer: Answer)
    requires Grows(sh, sh') && GoodAnswer(env, sh, name, key, answer)
    ensures GoodAnswer(env, sh', name, key, answer)
  {
    hide CanSign, Fits;
  }

  lemma SoundStable(env: Env, sh: Shared, sh': Shared, name: string, creds: Credentials, at: nat)
    requires Grows(sh, sh') && Sound(env, sh, name, creds)
    ensures Sound(env, sh', name, creds)
    ensures IssuedAt(env, sh, name, creds.certPem, at) ==> IssuedAt(env, sh', name, creds.certPem, at)
  {}

  /** Facts about a handler survive growth, if its connection was left alone. */
  lemma DataStable(env: Env, sh: Shared, sh': Shared, p: Peer, pc: Pc)
    requires Grows(sh, sh') && DataOk(env, sh, p, pc)
    requires pc.Sending? || pc.Receiving? ==> pc.conn in sh'.links && sh'.links[pc.conn] == sh.links[pc.conn]
    ensures DataOk(env, sh', p, pc)
  {
    hide BestFor, Sound, IssuedAt, WasIssued, GoodLink, GoodAnswer, GoodOutcome;
    match pc
    case Receiving(name, key, conn) => LinkStable(env, sh, sh', name, key, sh.links[conn]);
    case Closing(name, key, _, answer) => AnswerStable(env, sh, sh', name, key, answer);
    case Rebinding(name, key, answer, _) => AnswerStable(env, sh, sh', name, key, answer);
    case AwaitStore(name, key, answer) => AnswerStable(env, sh, sh', name, key, answer);
    case Storing(name, key, answer) => AnswerStable(env, sh, sh', name, key, answer);
    case Inspecting(name, key, answer) => AnswerStable(env, sh, sh', name, key, answer);
    case Inserting(name, creds, signedAt) => SoundStable(env, sh, sh', name, creds, signedAt);
    case Replying(name, creds, servedAt) => OutcomeStable(env, sh, sh', p, Delivered(name, creds, servedAt));
    case Unwinding(outcome) => OutcomeStable(env, sh, sh', p, outcome);
    case Done(outcome) => OutcomeStable(env, sh, sh', p, outcome);
    case _ =>
  }

  /** Shared facts survive growth when the cache and the histories are as before. */
  lemma SharedStable(env: Env, sh: Shared, sh': Shared)
    requires Grows(sh, sh') && SharedOk(env, sh)
    requires sh'.cache == sh.cache && sh'.deliveries == sh.deliveries && sh'.fetches == sh.fetches
    requires forall conn :: conn in sh'.links ==> conn < sh'.nextConn
    requires forall issuance :: issuance in sh'.issued ==> IssuanceOk(env, issuance)
    ensures SharedOk(env, sh')
  {
    hide WorkloadsOk, BestFor, IssuanceOk, Sound, IssuedAt, WasIssued;
    WorkloadsStable(env, sh, sh');
    forall name | name in sh'.cache ensures CacheEntryOk(env, sh', name, sh'.cache[name]) {
      SoundStable(env, sh, sh', name, sh.cache[name].creds, sh.cache[name].signedAt);
    }
    forall d | d in sh'.deliveries ensures DeliveryOk(env, sh', d) {
      SoundStable(env, sh, sh', d.name, d.creds, 0);
      WasIssuedStable(env, sh, sh', d.name, d.creds.certPem);
    }
    forall f | f in sh'.fetches ensures FetchOk(sh', f) {
      assert FetchOk(sh, f);
    }
  }

  lemma SharedHasWorkloads(env: Env, sh: Shared)
    requires SharedOk(env, sh)
    ensures WorkloadsOk(env, sh)
  {}

  lemma WorkloadsStable(env: Env, sh: Shared, sh': Shared)
    requires sh'.workloads == sh.workloads && WorkloadsOk(env, sh)
    ensures WorkloadsOk(env, sh')
  {}

  // ---- The server's step ----

  /** The answer to a handler's own request is sound for it. */
  lemma AnswerIsSound(env: Env, sh: Shared, sh': Shared, name: string, key: PrivateKey, resp: AgentResponse)
    requires WorkloadsOk(env, sh) && name in sh.workloads && sh'.workloads == sh.workloads && sh'.now == sh.now
    requires Responds(env.host, env.json, env.peerCid, sh.now, RequestFor(env, name, key), resp)
    requires resp.CertOk? ==> Issuance(env.vmName, name, resp.certPem, sh.now) in sh'.issued
    ensures GoodAnswer(env, sh', name, key, Answer(resp, sh.now))
  {
    hide Parse, ValiditySeconds;
  }

  lemma IssuancesOk(env: Env, sh: Shared, req: AgentRequest, resp: AgentResponse)
    requires Responds(env.host, env.json, env.peerCid, sh.now, req, resp) && resp.CertOk? && req.CertRequest?
    ensures IssuanceOk(env, Issuance(req.vmName, req.identity, resp.certPem, sh.now))
  {
    hide Parse, ValiditySeconds, Answers;
    IssuedOnlyToRegistered(env.host, env.peerCid, sh.now, req, resp);
  }

  /** What a server step leaves alone. */
  lemma ServerEffect(env: Env, sh: Shared, conn: nat, resp: AgentResponse, delivered: bool, sh': Shared)
    requires ServerStep(env, sh, conn, resp, delivered, sh') && WorkloadsOk(env, sh)
    ensures Grows(sh, sh') && sh'.cache == sh.cache && sh'.deliveries == sh.deliveries && sh'.fetches == sh.fetches
    ensures sh'.now == sh.now && sh'.nextConn == sh.nextConn && sh'.links.Keys == sh.links.Keys && conn in sh.links
    ensures sh.links[conn].Requested? && forall c :: c in sh.links && c != conn ==> sh'.links[c] == sh.links[c]
    ensures var req := sh.links[conn].req;
            && Responds(env.host, env.json, env.peerCid, sh.now, req, resp)
            && (sh'.links[conn] == Answered(Answer(resp, sh.now)) || sh'.links[conn] == HungUp)
            && (resp.CertOk? && req.CertRequest? ==>
                  Issuance(req.vmName, req.identity, resp.certPem, sh.now) in sh'.issued)
            && forall issuance :: issuance in sh'.issued ==>
                 issuance in sh.issued
                 || (resp.CertOk? && req.CertRequest?
                     && issuance == Issuance(req.vmName, req.identity, resp.certPem, sh.now))
  {
    hide Responds;
  }

  lemma ServerKeepsData(env: Env, s: State, conn: nat, resp: AgentResponse, delivered: bool, s': State)
    requires DataInv(env, s) && ServerStep(env, s.sh, conn, resp, delivered, s'.sh) && s'.tasks == s.tasks
    ensures DataInv(env, s')
  {
    hide ServerStep, Responds, WorkloadsOk, IssuanceOk, GoodAnswer, RequestFor, DataOk;
    ServerEffect(env, s.sh, conn, resp, delivered, s'.sh);
    forall issuance | issuance in s'.sh.issued ensures IssuanceOk(env, issuance) {
      if issuance !in s.sh.issued {
        IssuancesOk(env, s.sh, s.sh.links[conn].req, resp);
      }
    }
    SharedStable(env, s.sh, s'.sh);
    forall t | t in s'.tasks ensures DataOk(env, s'.sh, s'.tasks[t].peer, s'.tasks[t].pc) {
      var pc := s.tasks[t].pc;
      if pc.Receiving? && pc.conn == conn {
        ReceiverGetsAnswer(env, s.sh, conn, resp, s'.sh, s.tasks[t].peer, pc);
      } else if pc.Sending? && pc.conn == conn {
        SenderNotServed(env, s.sh, s.tasks[t].peer, pc);
      } else {
        ConnKnown(env, s.sh, s.tasks[t].peer, pc);
        DataStable(env, s.sh, s'.sh, s.tasks[t].peer, pc);
      }
    }
  }

  lemma ConnKnown(env: Env, sh: Shared, p: Peer, pc: Pc)
    requires DataOk(env, sh, p, pc)
    ensures pc.Sending? || pc.Receiving? ==> pc.conn in sh.links
  {}

  lemma SenderNotServed(env: Env, sh: Shared, p: Peer, pc: Pc)
    requires DataOk(env, sh, p, pc) && pc.Sending?
    ensures pc.conn in sh.links && !sh.links[pc.conn].Requested?
  {}

  lemma ReceiverGetsAnswer(env: Env, sh: Shared, conn: nat, resp: AgentResponse, sh': Shared, p: Peer, pc: Pc)
    requires WorkloadsOk(env, sh) && DataOk(env, sh, p, pc) && pc.Receiving? && pc.conn == conn
    requires Grows(sh, sh') && sh'.now == sh.now
    requires conn in sh.links && sh.links[conn].Requested? && conn in sh'.links
    requires Responds(env.host, env.json, env.peerCid, sh.now, sh.links[conn].req, resp)
    requires sh'.links[conn] == Answered(Answer(resp, sh.now)) || sh'.links[conn] == HungUp
    requires var req := sh.links[conn].req;
             resp.CertOk? && req.CertRequest? ==> Issuance(req.vmName, req.identity, resp.certPem, sh.now) in sh'.issued
    ensures DataOk(env, sh', p, pc)
  {
    hide Responds, WorkloadsOk, GoodAnswer, Matches, Score;
    AnswerIsSound(env, sh, sh', pc.name, pc.key, resp);
  }

  // ---- The handler's own steps ----

  lemma ClientKeepsOwnData(env: Env, t: nat, p: Peer, sh: Shared, pc: Pc, ch: Choice, sh': Shared, pc': Pc)
    requires ClientStep(env, t, p, sh, pc, ch, sh', pc') && DataOk(env, sh, p, pc)
    ensures DataOk(env, sh, p, pc') && Grows(sh, sh') && sh'.links == sh.links && sh'.nextConn == sh.nextConn
    ensures sh'.cache == sh.cache && sh'.fetches == sh.fetches && sh'.issued == sh.issued
    ensures sh'.deliveries == sh.deliveries
            || (pc.Replying? && sh'.deliveries == sh.deliveries + [Delivery(t, p, pc.name, pc.creds)])
    ensures !pc'.Sending? && !pc'.Receiving?
  {
    hide Winner, Select, Sound, WasIssued;
    if pc.Matching? {
      SelectIsArgmax(ch.order, sh.workloads, p.proc, p.accounts);
    }
  }

  lemma CacheKeepsOwnData(env: Env, t: nat, p: Peer, sh: Shared, pc: Pc, ch: Choice, sh': Shared, pc': Pc)
    requires CacheStep(env, t, sh, pc, ch, sh', pc') && DataOk(env, sh, p, pc)
    requires forall name :: name in sh.cache ==> CacheEntryOk(env, sh, name, sh.cache[name])
    ensures DataOk(env, sh, p, pc') && Grows(sh, sh') && sh'.links == sh.links && sh'.nextConn == sh.nextConn
    ensures sh'.deliveries == sh.deliveries && sh'.issued == sh.issued && sh'.now == sh.now
    ensures if pc.Inserting? then
              && sh'.cache == sh.cache[pc.name := Cached(pc.creds, sh.now, pc.signedAt)]
              && sh'.fetches == sh.fetches + [Fetch(pc.name, pc.creds.certPem, sh.now)]
            else sh'.cache == sh.cache && sh'.fetches == sh.fetches
    ensures !pc'.Sending? && !pc'.Receiving?
  {
    hide BestFor, Sound, IssuedAt, WasIssued;
    if pc.LookingUp? && pc'.Replying? {
      CachedIsServable(env, sh, p, pc.name);
    } else if pc.Inserting? {
      InsertedIsServable(env, sh, p, pc);
    }
  }

  lemma CachedIsServable(env: Env, sh: Shared, p: Peer, name: string)
    requires BestFor(sh.workloads, p, name)
    requires FreshAt(sh.cache, name, sh.now) && CacheEntryOk(env, sh, name, sh.cache[name])
    ensures GoodOutcome(env, sh, p, Delivered(name, sh.cache[name].creds, sh.now))
  {
    hide BestFor, Sound, IssuedAt;
    assert IssuedAt(env, sh, name, sh.cache[name].creds.certPem, sh.cache[name].signedAt);
  }

  lemma InsertedIsServable(env: Env, sh: Shared, p: Peer, pc: Pc)
    requires DataOk(env, sh, p, pc) && pc.Inserting?
    ensures GoodOutcome(env, sh, p, Delivered(pc.name, pc.creds, sh.now))
  {
    hide BestFor, Sound, IssuedAt;
    assert IssuedAt(env, sh, pc.name, pc.creds.certPem, pc.signedAt);
  }

  lemma DialKeepsOwnData(env: Env, t: nat, p: Peer, sh: Shared, pc: Pc, ch: Choice, sh': Shared, pc': Pc)
    requires DialStep(env, t, sh, pc, ch, sh', pc') && DataOk(env, sh, p, pc)
    requires forall conn :: conn in sh.links ==> conn < sh.nextConn
    ensures DataOk(env, sh', p, pc') && Grows(sh, sh')
    ensures sh'.cache == sh.cache && sh'.fetches == sh.fetches && sh'.deliveries == sh.deliveries
            && sh'.issued == sh.issued
    ensures forall conn :: conn in sh'.links ==> conn < sh'.nextConn
  {
    hide BestFor, GoodAnswer, RequestFor, GoodOutcome, Sound, IssuedAt;
  }

  lemma RebindKeepsOwnData(env: Env, t: nat, p: Peer, sh: Shared, pc: Pc, ch: Choice, sh': Shared, pc': Pc)
    requires RebindStep(env, t, sh, pc, ch, sh', pc') && DataOk(env, sh, p, pc)
    ensures DataOk(env, sh, p, pc') && Grows(sh, sh') && sh'.links == sh.links && sh'.nextConn == sh.nextConn
    ensures sh'.cache == sh.cache && sh'.fetches == sh.fetches && sh'.deliveries == sh.deliveries
            && sh'.issued == sh.issued
    ensures !pc'.Sending? && !pc'.Receiving?
  {
    hide BestFor, Sound, IssuedAt, MarkRebound, CanSign, Fits;
  }

  /** A handler's step keeps its own facts and the shared ones, and leaves connections alone outside the dial lock. */
  lemma HandlerKeepsOwnData(env: Env, t: nat, p: Peer, sh: Shared, pc: Pc, ch: Choice, sh': Shared, pc': Pc)
    requires HandlerStep(env, t, p, sh, pc, ch, sh', pc') && DataOk(env, sh, p, pc) && SharedOk(env, sh)
    ensures DataOk(env, sh', p, pc') && SharedOk(env, sh') && Grows(sh, sh')
    ensures !Holds(pc, Dial) ==> sh'.links == sh.links
  {
    hide ClientStep, CacheStep, DialStep, RebindStep, DataOk, CacheEntryOk, DeliveryOk, FetchOk, IssuanceOk,
      WorkloadsOk;
    if DialStep(env, t, sh, pc, ch, sh', pc') {
      DialKeepsOwnData(env, t, p, sh, pc, ch, sh', pc');
      SharedStable(env, sh, sh');
      DialHoldsDial(env, t, sh, pc, ch, sh', pc');
    } else if RebindStep(env, t, sh, pc, ch, sh', pc') {
      RebindKeepsOwnData(env, t, p, sh, pc, ch, sh', pc');
      DataStable(env, sh, sh', p, pc');
      SharedStable(env, sh, sh');
    } else if CacheStep(env, t, sh, pc, ch, sh', pc') {
      CacheKeepsOwnData(env, t, p, sh, pc, ch, sh', pc');
      DataStable(env, sh, sh', p, pc');
      CacheStepKeepsShared(env, p, sh, pc, sh');
    } else {
      ClientKeepsOwnData(env, t, p, sh, pc, ch, sh', pc');
      DataStable(env, sh, sh', p, pc');
      ClientStepKeepsShared(env, t, p, sh, pc, sh');
    }
  }

  lemma DialHoldsDial(env: Env, t: nat, sh: Shared, pc: Pc, ch: Choice, sh': Shared, pc': Pc)
    requires DialStep(env, t, sh, pc, ch, sh', pc')
    ensures Holds(pc, Dial)
  {
    hide RequestFor;
  }

  lemma CacheStepKeepsShared(env: Env, p: Peer, sh: Shared, pc: Pc, sh': Shared)
    requires SharedOk(env, sh) && DataOk(env, sh, p, pc) && Grows(sh, sh')
    requires sh'.links == sh.links && sh'.nextConn == sh.nextConn && sh'.now == sh.now
    requires sh'.deliveries == sh.deliveries && sh'.issued == sh.issued
    requires if pc.Inserting? then
               && sh'.cache == sh.cache[pc.name := Cached(pc.creds, sh.now, pc.signedAt)]
               && sh'.fetches == sh.fetches + [Fetch(pc.name, pc.creds.certPem, sh.now)]
             else sh'.cache == sh.cache && sh'.fetches == sh.fetches
    ensures SharedOk(env, sh')
  {
    var before := sh'.(cache := sh.cache, fetches := sh.fetches);
    hide WorkloadsOk, BestFor, IssuanceOk, Sound, WasIssued;
    SharedStable(env, sh, before);
    WorkloadsStable(env, before, sh');
    if pc.Inserting? {
      SoundStable(env, sh, sh', pc.name, pc.creds, pc.signedAt);
      InsertedFetchOk(env, sh, p, pc, sh');
      forall name | name in sh'.cache ensures CacheEntryOk(env, sh', name, sh'.cache[name]) {
        if name != pc.name {
          SoundStable(env, before, sh', name, sh.cache[name].creds, sh.cache[name].signedAt);
          assert CacheEntryOk(env, before, name, before.cache[name]);
        }
      }
      forall d | d in sh'.deliveries ensures DeliveryOk(env, sh', d) {
        assert DeliveryOk(env, before, d);
        SoundStable(env, before, sh', d.name, d.creds, 0);
        WasIssuedStable(env, before, sh', d.name, d.creds.certPem);
      }
      forall f | f in sh'.fetches ensures FetchOk(sh', f) {
        if f in sh.fetches {
          assert FetchOk(before, f);
        }
      }
    }
  }

  lemma InsertedFetchOk(env: Env, sh: Shared, p: Peer, pc: Pc, sh': Shared)
    requires DataOk(env, sh, p, pc) && pc.Inserting? && sh'.workloads == sh.workloads && sh'.now == sh.now
    ensures FetchOk(sh', Fetch(pc.name, pc.creds.certPem, sh.now))
  {
    hide BestFor, IssuedAt;
  }

  lemma ClientStepKeepsShared(env: Env, t: nat, p: Peer, sh: Shared, pc: Pc, sh': Shared)
    requires SharedOk(env, sh) && DataOk(env, sh, p, pc) && Grows(sh, sh')
    requires sh'.links == sh.links && sh'.nextConn == sh.nextConn
    requires sh'.cache == sh.cache && sh'.fetches == sh.fetches && sh'.issued == sh.issued
    requires sh'.deliveries == sh.deliveries
             || (pc.Replying? && sh'.deliveries == sh.deliveries + [Delivery(t, p, pc.name, pc.creds)])
    ensures SharedOk(env, sh')
  {
    var before := sh'.(deliveries := sh.deliveries);
    hide WorkloadsOk, BestFor, IssuanceOk, Sound, WasIssued;
    SharedStable(env, sh, before);
    if sh'.deliveries != sh.deliveries {
      OutcomeStable(env, sh, sh', p, Delivered(pc.name, pc.creds, pc.servedAt));
      WorkloadsStable(env, before, sh');
      forall d | d in sh'.deliveries ensures DeliveryOk(env, sh', d) {
        if d in sh.deliveries {
          assert DeliveryOk(env, before, d);
          SoundStable(env, before, sh', d.name, d.creds, 0);
          WasIssuedStable(env, before, sh', d.name, d.creds.certPem);
        }
      }
      forall name | name in sh'.cache ensures CacheEntryOk(env, sh', name, sh'.cache[name]) {
        assert CacheEntryOk(env, before, name, before.cache[name]);
        SoundStable(env, before, sh', name, sh.cache[name].creds, sh.cache[name].signedAt);
      }
      forall f | f in sh'.fetches ensures FetchOk(sh', f) {
        assert FetchOk(before, f);
      }
    } else {
      assert before == sh';
    }
  }

  // ---- Every step ----

  lemma StepKeepsData(env: Env, s: State, s': State, step: Step)
    requires LockInv(s) && DataInv(env, s) && Next(env, s, s', step)
    ensures DataInv(env, s')
  {
    hide HandlerStep, ServerStep, LockOk, Holds, DataOk, SharedOk;
    match step
    case Accept(t, peer, peerKnown) =>
      NewTaskOk(env, s.sh, peer, s'.tasks[t].pc);
    case Run(t, ch) =>
      var pc, pc' := s.tasks[t].pc, s'.tasks[t].pc;
      HandlerKeepsOwnData(env, t, s.tasks[t].peer, s.sh, pc, ch, s'.sh, pc');
      forall u | u in s'.tasks ensures DataOk(env, s'.sh, s'.tasks[u].peer, s'.tasks[u].pc) {
        if u != t {
          OtherDataOk(env, s.sh, t, pc, u, s.tasks[u].peer, s.tasks[u].pc, s'.sh);
        }
      }
    case Serve(conn, resp, delivered) => ServerKeepsData(env, s, conn, resp, delivered, s');
    case Tick(ticks) =>
      TickKeepsShared(env, s.sh, s'.sh, ticks);
      forall t | t in s'.tasks ensures DataOk(env, s'.sh, s'.tasks[t].peer, s'.tasks[t].pc) {
        ConnKnown(env, s.sh, s.tasks[t].peer, s.tasks[t].pc);
        DataStable(env, s.sh, s'.sh, s.tasks[t].peer, s.tasks[t].pc);
      }
  }

  lemma TickKeepsShared(env: Env, sh: Shared, sh': Shared, ticks: nat)
    requires SharedOk(env, sh) && sh' == sh.(now := sh.now + ticks)
    ensures SharedOk(env, sh') && Grows(sh, sh')
  {
    hide WorkloadsOk, IssuanceOk, CacheEntryOk, DeliveryOk, FetchOk;
    SharedStable(env, sh, sh');
  }

  lemma NewTaskOk(env: Env, sh: Shared, p: Peer, pc: Pc)
    requires pc.AwaitWorkloads? || pc == Done(Failed(PeerUnknown))
    ensures DataOk(env, sh, p, pc)
  {}

  /** A step of one handler does not disturb what is known about another. */
  lemma OtherDataOk(env: Env, sh: Shared, t: nat, pc: Pc, u: nat, q: Peer, upc: Pc, sh': Shared)
    requires u != t && LockOk(sh, t, pc) && LockOk(sh, u, upc)
    requires Grows(sh, sh') && DataOk(env, sh, q, upc)
    requires !Holds(pc, Dial) ==> sh'.links == sh.links
    ensures DataOk(env, sh', q, upc)
  {
    hide DataOk, Grows;
    ConnKnown(env, sh, q, upc);
    assert HeldBy(sh, Dial, t) == Holds(pc, Dial) && HeldBy(sh, Dial, u) == Holds(upc, Dial);
    DataStable(env, sh, sh', q, upc);
  }
}
