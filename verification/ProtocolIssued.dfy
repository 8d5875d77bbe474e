/**
 What the server's log says, lost replies included: every certificate was asked for by a handler as the best match of
 its peer, and no two were made for the same key.
 */
module ProtocolIssued {
  import opened Wrappers
  import opened Matcher
  import opened Pki
  import opened Wire
  import opened Server
  import opened Protocol
  import opened ProtocolLocks
  import opened ProtocolData
  import opened ProtocolKeys

  /** The key a handler has not yet sent a request for. */
  function UnsentKey(pc: Pc): Option<PrivateKey> {
    if pc.AwaitDial? || pc.AwaitDrop? || pc.Dropping? || pc.Dialling? || pc.Sending? then KeyOf(pc) else None
  }

  /** The key a request that the server has not yet taken up is for. */
  function AskedKey(link: Link): Option<PublicKey> {
    if link.Requested? && link.req.CertRequest? && link.req.csrPem.Pem? then Some(link.req.csrPem.value.publicKey)
    else None
  }

  predicate NotIssued(sh: Shared, key: PublicKey) {
    forall x :: x in sh.issued ==> !Has(x.certPem, key)
  }

  predicate Unasked(sh: Shared, key: PrivateKey) {
    && key.id < sh.nextKey && NotIssued(sh, PublicHalf(key))
    && forall c :: c in sh.links ==> AskedKey(sh.links[c]) != Some(PublicHalf(key))
  }

  predicate UnsentOk(sh: Shared, pc: Pc) {
    UnsentKey(pc).Some? ==> Unasked(sh, UnsentKey(pc).value)
  }

  predicate IssuedDiffer(log: seq<Issuance>) {
    && (forall x :: x in log ==> x.certPem.Pem?)
    && forall i, j :: 0 <= i < j < |log| ==> !Has(log[i].certPem, log[j].certPem.value.publicKey)
  }

  predicate AskedOk(sh: Shared, c: nat)
    requires c in sh.links
  {
    var key := AskedKey(sh.links[c]);
    && (sh.links[c].Requested? ==> key.Some?)
    && (key.Some? ==> key.value.id < sh.nextKey && NotIssued(sh, key.value))
  }

  ghost predicate IssuedShared(sh: Shared) {
    && IssuedDiffer(sh.issued) && (forall x :: x in sh.issued ==> x.certPem.value.publicKey.id < sh.nextKey)
    && (forall c :: c in sh.links ==> AskedOk(sh, c))
    && forall b, c :: b in sh.links && c in sh.links && b != c && AskedKey(sh.links[b]).Some? ==>
                        AskedKey(sh.links[b]) != AskedKey(sh.links[c])
  }

  /** The name is the best match of some handler's peer, and the request speaks for this VM. */
  ghost predicate WantedBy(env: Env, s: State, vmName: string, identity: string) {
    vmName == env.vmName && exists t :: t in s.tasks && BestFor(s.sh.workloads, s.tasks[t].peer, identity)
  }

  ghost predicate LinkWanted(env: Env, s: State, link: Link) {
    link.Requested? ==> link.req.CertRequest? && WantedBy(env, s, link.req.vmName, link.req.identity)
  }

  ghost predicate IssuedWanted(env: Env, s: State) {
    && (forall x :: x in s.sh.issued ==> WantedBy(env, s, x.vmName, x.identity))
    && forall c :: c in s.sh.links ==> LinkWanted(env, s, s.sh.links[c])
  }

  ghost predicate IssueInv(env: Env, s: State) {
    && IssuedShared(s.sh) && IssuedWanted(env, s)
    && forall t :: t in s.tasks ==> UnsentOk(s.sh, s.tasks[t].pc)
  }

  // ---- The handler's own steps ----

  /** Requests and log are as they were, and keys only become more. */
  predicate LogLeft(sh: Shared, sh': Shared) {
    sh'.links == sh.links && sh'.issued == sh.issued && sh'.nextKey >= sh.nextKey && sh'.workloads == sh.workloads
  }

  lemma ClientIssues(env: Env, t: nat, p: Peer, sh: Shared, pc: Pc, ch: Choice, sh': Shared, pc': Pc)
    requires ClientStep(env, t, p, sh, pc, ch, sh', pc')
    ensures LogLeft(sh, sh') && sh'.nextKey == sh.nextKey && UnsentKey(pc').None?
  {
    hide IterationOrder, Select;
  }

  lemma CacheIssues(env: Env, t: nat, sh: Shared, pc: Pc, ch: Choice, sh': Shared, pc': Pc)
    requires CacheStep(env, t, sh, pc, ch, sh', pc')
    ensures LogLeft(sh, sh') && (!Holds(pc, Cache) ==> sh'.nextKey == sh.nextKey)
    ensures UnsentKey(pc').None? || UnsentKey(pc') == UnsentKey(pc)
            || (UnsentKey(pc') == Some(PrivateKey(sh.nextKey)) && sh'.nextKey == sh.nextKey + 1)
  {
    hide FreshAt;
  }

  lemma RebindIssues(env: Env, t: nat, sh: Shared, pc: Pc, ch: Choice, sh': Shared, pc': Pc)
    requires RebindStep(env, t, sh, pc, ch, sh', pc')
    ensures LogLeft(sh, sh') && sh'.nextKey == sh.nextKey && UnsentKey(pc').None?
  {
    hide MarkRebound;
  }

  /** A dial opens a connection, or asks on one for the key the handler has; else it leaves the log alone. */
  lemma DialIssues(env: Env, t: nat, sh: Shared, pc: Pc, ch: Choice, sh': Shared, pc': Pc)
    requires DialStep(env, t, sh, pc, ch, sh', pc')
    ensures Holds(pc, Cache) && sh'.issued == sh.issued && sh'.nextKey == sh.nextKey && sh'.workloads == sh.workloads
    ensures UnsentKey(pc').None? || UnsentKey(pc') == UnsentKey(pc)
    ensures || sh'.links == sh.links
            || sh'.links == sh.links[sh.nextConn := Open]
            || (pc.Sending? && UnsentKey(pc').None?
                && sh'.links == sh.links[pc.conn := Requested(RequestFor(env, pc.name, pc.key))])
  {
    hide RequestFor;
  }

  lemma OpensKeepLog(sh: Shared, c: nat, sh': Shared)
    requires IssuedShared(sh) && sh'.links == sh.links[c := Open]
    requires sh'.issued == sh.issued && sh'.nextKey == sh.nextKey
    ensures IssuedShared(sh')
    ensures forall key :: Unasked(sh, key) ==> Unasked(sh', key)
  {
    hide IssuedDiffer;
    forall b | b in sh'.links ensures AskedOk(sh', b) {
      if b != c {
        assert AskedOk(sh, b);
      }
    }
  }

  lemma AskKeepsLog(env: Env, sh: Shared, conn: nat, name: string, key: PrivateKey, sh': Shared)
    requires IssuedShared(sh) && Unasked(sh, key) && sh'.issued == sh.issued && sh'.nextKey == sh.nextKey
    requires sh'.links == sh.links[conn := Requested(RequestFor(env, name, key))]
    ensures IssuedShared(sh')
  {
    hide IssuedDiffer;
    forall b | b in sh'.links ensures AskedOk(sh', b) {
      if b != conn {
        assert AskedOk(sh, b);
      }
    }
  }

  lemma LeftKeepsLog(sh: Shared, sh': Shared)
    requires IssuedShared(sh) && LogLeft(sh, sh')
    ensures IssuedShared(sh')
    ensures forall key :: Unasked(sh, key) ==> Unasked(sh', key)
  {
    hide IssuedDiffer;
    forall b | b in sh'.links ensures AskedOk(sh', b) {
      assert AskedOk(sh, b);
    }
  }

  /** The next key number is not in the log, nor asked for. */
  lemma NextKeyIsNew(sh: Shared)
    requires IssuedShared(sh)
    ensures Unasked(sh.(nextKey := sh.nextKey + 1), PrivateKey(sh.nextKey))
  {
    hide IssuedDiffer;
    forall c | c in sh.links ensures AskedKey(sh.links[c]) != Some(PublicKey(sh.nextKey)) {
      assert AskedOk(sh, c);
    }
  }

  /** What a handler's step does to requests, log and its own key. */
  ghost predicate LogKept(env: Env, sh: Shared, pc: Pc, sh': Shared, pc': Pc) {
    && IssuedShared(sh') && UnsentOk(sh', pc') && sh'.issued == sh.issued && sh'.workloads == sh.workloads
    && (!Holds(pc, Cache) ==> LogLeft(sh, sh') && sh'.nextKey == sh.nextKey)
    && (|| sh'.links == sh.links || sh'.links == sh.links[sh.nextConn := Open]
        || (pc.Sending? && sh'.links == sh.links[pc.conn := Requested(RequestFor(env, pc.name, pc.key))]))
  }

  lemma ClientKeepsLog(env: Env, t: nat, p: Peer, sh: Shared, pc: Pc, ch: Choice, sh': Shared, pc': Pc)
    requires ClientStep(env, t, p, sh, pc, ch, sh', pc') && IssuedShared(sh)
    ensures LogKept(env, sh, pc, sh', pc')
  {
    hide ClientStep, Holds, Unasked, IssuedShared, RequestFor, UnsentKey;
    ClientIssues(env, t, p, sh, pc, ch, sh', pc');
    LeftKeepsLog(sh, sh');
  }

  lemma CacheKeepsLog(env: Env, t: nat, sh: Shared, pc: Pc, ch: Choice, sh': Shared, pc': Pc)
    requires CacheStep(env, t, sh, pc, ch, sh', pc') && IssuedShared(sh) && UnsentOk(sh, pc)
    ensures LogKept(env, sh, pc, sh', pc')
  {
    hide CacheStep, Holds, Unasked, IssuedShared, RequestFor, UnsentKey;
    CacheIssues(env, t, sh, pc, ch, sh', pc');
    LeftKeepsLog(sh, sh');
    NextKeyIsNew(sh);
    SameLogUnasked(sh.(nextKey := sh.nextKey + 1), sh', PrivateKey(sh.nextKey));
  }

  lemma SendingHasKey(pc: Pc)
    requires pc.Sending?
    ensures UnsentKey(pc) == Some(pc.key)
  {}

  /** Nothing but the requests changes, and those only for a holder of the cache lock. */
  predicate OnlyLinks(sh: Shared, pc: Pc, sh': Shared) {
    Holds(pc, Cache) && sh'.issued == sh.issued && sh'.nextKey == sh.nextKey && sh'.workloads == sh.workloads
  }

  lemma OpenedIsKept(env: Env, sh: Shared, pc: Pc, sh': Shared, pc': Pc)
    requires OnlyLinks(sh, pc, sh') && IssuedShared(sh) && UnsentOk(sh, pc)
    requires sh'.links == sh.links || sh'.links == sh.links[sh.nextConn := Open]
    requires UnsentKey(pc').None? || UnsentKey(pc') == UnsentKey(pc)
    ensures LogKept(env, sh, pc, sh', pc')
  {
    hide Holds, Unasked, IssuedShared, RequestFor, UnsentKey, AskedKey;
    if sh'.links == sh.links {
      LeftKeepsLog(sh, sh');
    } else {
      OpensKeepLog(sh, sh.nextConn, sh');
    }
  }

  lemma AskedIsKept(env: Env, sh: Shared, pc: Pc, sh': Shared, pc': Pc)
    requires OnlyLinks(sh, pc, sh') && IssuedShared(sh) && UnsentOk(sh, pc) && pc.Sending? && UnsentKey(pc').None?
    requires sh'.links == sh.links[pc.conn := Requested(RequestFor(env, pc.name, pc.key))]
    ensures LogKept(env, sh, pc, sh', pc')
  {
    hide Holds, Unasked, IssuedShared, RequestFor, UnsentKey, AskedKey;
    SendingHasKey(pc);
    AskKeepsLog(env, sh, pc.conn, pc.name, pc.key, sh');
  }

  lemma DialKeepsLog(env: Env, t: nat, sh: Shared, pc: Pc, ch: Choice, sh': Shared, pc': Pc)
    requires DialStep(env, t, sh, pc, ch, sh', pc') && IssuedShared(sh) && UnsentOk(sh, pc)
    ensures LogKept(env, sh, pc, sh', pc')
  {
    hide DialStep, Holds, UnsentOk, IssuedShared, RequestFor, UnsentKey, LogKept;
    DialIssues(env, t, sh, pc, ch, sh', pc');
    if sh'.links == sh.links || sh'.links == sh.links[sh.nextConn := Open] {
      OpenedIsKept(env, sh, pc, sh', pc');
    } else {
      AskedIsKept(env, sh, pc, sh', pc');
    }
  }

  lemma RebindKeepsLog(env: Env, t: nat, sh: Shared, pc: Pc, ch: Choice, sh': Shared, pc': Pc)
    requires RebindStep(env, t, sh, pc, ch, sh', pc') && IssuedShared(sh)
    ensures LogKept(env, sh, pc, sh', pc')
  {
    hide RebindStep, Holds, Unasked, IssuedShared, RequestFor, UnsentKey;
    RebindIssues(env, t, sh, pc, ch, sh', pc');
    LeftKeepsLog(sh, sh');
  }

  lemma HandlerKeepsLog(env: Env, t: nat, p: Peer, sh: Shared, pc: Pc, ch: Choice, sh': Shared, pc': Pc)
    requires HandlerStep(env, t, p, sh, pc, ch, sh', pc') && IssuedShared(sh) && UnsentOk(sh, pc)
    ensures LogKept(env, sh, pc, sh', pc')
  {
    hide ClientStep, CacheStep, DialStep, RebindStep, UnsentOk, IssuedShared, LogKept;
    if ClientStep(env, t, p, sh, pc, ch, sh', pc') {
      ClientKeepsLog(env, t, p, sh, pc, ch, sh', pc');
    } else if CacheStep(env, t, sh, pc, ch, sh', pc') {
      CacheKeepsLog(env, t, sh, pc, ch, sh', pc');
    } else if DialStep(env, t, sh, pc, ch, sh', pc') {
      DialKeepsLog(env, t, sh, pc, ch, sh', pc');
    } else {
      RebindKeepsLog(env, t, sh, pc, ch, sh', pc');
    }
  }

  lemma SameLogUnasked(sh: Shared, sh': Shared, key: PrivateKey)
    requires Unasked(sh, key) && sh'.links == sh.links && sh'.issued == sh.issued
    ensures sh.nextKey <= sh'.nextKey ==> Unasked(sh', key)
  {}

  /** While one handler has a key it has not asked with, no other one touches requests or keys. */
  lemma OtherUnsentOk(sh: Shared, t: nat, pc: Pc, u: nat, upc: Pc, sh': Shared)
    requires u != t && LockOk(sh, t, pc) && LockOk(sh, u, upc) && UnsentOk(sh, upc)
    requires !Holds(pc, Cache) ==> LogLeft(sh, sh') && sh'.nextKey == sh.nextKey
    ensures UnsentOk(sh', upc)
  {
    hide Holds, Unasked;
    if UnsentKey(upc).Some? {
      KeyHoldsCache(upc);
      assert HeldBy(sh, Cache, u) && HeldBy(sh, Cache, t) == Holds(pc, Cache);
      SameLogUnasked(sh, sh', UnsentKey(upc).value);
    }
  }

  // ---- The server's step ----

  /** An answer turns a pending request's key into an issued one, or drops it. */
  ghost predicate Answering(sh: Shared, conn: nat, sh': Shared) {
    && conn in sh.links && sh'.nextKey == sh.nextKey && sh'.workloads == sh.workloads
    && (exists link: Link :: !link.Requested? && sh'.links == sh.links[conn := link])
    && (sh'.issued == sh.issued
        || (exists x: Issuance ::
              && sh'.issued == sh.issued + [x] && sh.links[conn].Requested? && sh.links[conn].req.CertRequest?
              && x.vmName == sh.links[conn].req.vmName && x.identity == sh.links[conn].req.identity
              && x.certPem.Pem? && AskedKey(sh.links[conn]) == Some(x.certPem.value.publicKey)))
  }

  lemma ServerAnswers(env: Env, sh: Shared, conn: nat, resp: AgentResponse, delivered: bool, sh': Shared)
    requires ServerStep(env, sh, conn, resp, delivered, sh')
    ensures Answering(sh, conn, sh')
  {
    hide Answers, PassesGate;
    if sh'.issued != sh.issued {
      var req := sh.links[conn].req;
      IssuedOnlyToRegistered(env.host, env.peerCid, sh.now, req, resp);
      var x := Issuance(req.vmName, req.identity, resp.certPem, sh.now);
      assert sh'.issued == sh.issued + [x];
    }
    assert !sh'.links[conn].Requested? && sh'.links == sh.links[conn := sh'.links[conn]];
  }

  lemma AnswerKeepsLog(sh: Shared, conn: nat, sh': Shared)
    requires IssuedShared(sh) && Answering(sh, conn, sh')
    ensures IssuedShared(sh')
    ensures forall key :: Unasked(sh, key) ==> Unasked(sh', key)
  {
    assert AskedOk(sh, conn);
    forall b | b in sh'.links ensures AskedOk(sh', b) {
      if b != conn {
        assert AskedOk(sh, b);
      }
    }
  }

  // ---- What was asked for ----

  lemma WantedStable(env: Env, s: State, s': State, vmName: string, identity: string)
    requires WantedBy(env, s, vmName, identity) && s'.sh.workloads == s.sh.workloads
    requires forall t :: t in s.tasks ==> t in s'.tasks && s'.tasks[t].peer == s.tasks[t].peer
    ensures WantedBy(env, s', vmName, identity)
  {
    hide BestFor;
    var t :| t in s.tasks && BestFor(s.sh.workloads, s.tasks[t].peer, identity);
    assert t in s'.tasks && BestFor(s'.sh.workloads, s'.tasks[t].peer, identity);
  }

  /** What was wanted stays so, if what is new in the log or asked for is. */
  lemma WantedKept(env: Env, s: State, s': State)
    requires IssuedWanted(env, s) && s'.sh.workloads == s.sh.workloads
    requires forall t :: t in s.tasks ==> t in s'.tasks && s'.tasks[t].peer == s.tasks[t].peer
    requires forall x :: x in s'.sh.issued && x !in s.sh.issued ==> WantedBy(env, s', x.vmName, x.identity)
    requires forall c :: c in s'.sh.links && (c !in s.sh.links || s'.sh.links[c] != s.sh.links[c]) ==>
                           LinkWanted(env, s', s'.sh.links[c])
    ensures IssuedWanted(env, s')
  {
    hide WantedBy;
    forall x | x in s'.sh.issued ensures WantedBy(env, s', x.vmName, x.identity) {
      if x in s.sh.issued {
        WantedStable(env, s, s', x.vmName, x.identity);
      }
    }
    forall c | c in s'.sh.links ensures LinkWanted(env, s', s'.sh.links[c]) {
      if c in s.sh.links && s'.sh.links[c] == s.sh.links[c] && s.sh.links[c].Requested? {
        assert LinkWanted(env, s, s.sh.links[c]);
        WantedStable(env, s, s', s.sh.links[c].req.vmName, s.sh.links[c].req.identity);
      }
    }
  }

  lemma HandlerKeepsWanted(env: Env, s: State, s': State, t: nat, ch: Choice)
    requires IssueInv(env, s) && DataInv(env, s) && Next(env, s, s', Run(t, ch))
    ensures IssuedWanted(env, s')
  {
    hide HandlerStep, DataOk, SharedOk, IssuedShared, UnsentOk, WantedBy, BestFor;
    var pc, p := s.tasks[t].pc, s.tasks[t].peer;
    assert UnsentOk(s.sh, pc);
    HandlerKeepsLog(env, t, p, s.sh, pc, ch, s'.sh, s'.tasks[t].pc);
    if pc.Sending? {
      SendingIsBest(env, s.sh, p, pc);
      PeerWants(env, s', t, pc.name);
    }
    WantedKept(env, s, s');
  }

  lemma SendingIsBest(env: Env, sh: Shared, p: Peer, pc: Pc)
    requires DataOk(env, sh, p, pc) && pc.Sending?
    ensures BestFor(sh.workloads, p, pc.name)
  {
    hide BestFor;
  }

  lemma PeerWants(env: Env, s: State, t: nat, name: string)
    requires t in s.tasks && BestFor(s.sh.workloads, s.tasks[t].peer, name)
    ensures WantedBy(env, s, env.vmName, name)
  {
    hide BestFor;
  }

  lemma ServerKeepsWanted(env: Env, s: State, s': State, conn: nat)
    requires IssuedWanted(env, s) && Answering(s.sh, conn, s'.sh) && s'.tasks == s.tasks
    ensures IssuedWanted(env, s')
  {
    hide WantedBy;
    assert LinkWanted(env, s, s.sh.links[conn]);
    if s.sh.links[conn].Requested? {
      WantedStable(env, s, s', s.sh.links[conn].req.vmName, s.sh.links[conn].req.identity);
    }
    WantedKept(env, s, s');
  }

  // ---- Every step ----

  lemma StepKeepsIssued(env: Env, s: State, s': State, step: Step)
    requires LockInv(s) && DataInv(env, s) && IssueInv(env, s) && Next(env, s, s', step)
    ensures IssueInv(env, s')
  {
    hide HandlerStep, ServerStep, LockOk, Holds, DataOk, SharedOk, IssuedShared, IssuedWanted, UnsentOk, Unasked;
    match step
    case Accept(t, peer, peerKnown) =>
      NothingUnsent(s.sh, s'.tasks[t].pc);
      QuietKeepsWanted(env, s, s');
    case Run(t, ch) =>
      var pc := s.tasks[t].pc;
      HandlerKeepsLog(env, t, s.tasks[t].peer, s.sh, pc, ch, s'.sh, s'.tasks[t].pc);
      HandlerKeepsWanted(env, s, s', t, ch);
      forall u | u in s'.tasks ensures UnsentOk(s'.sh, s'.tasks[u].pc) {
        if u != t {
          OtherUnsentOk(s.sh, t, pc, u, s.tasks[u].pc, s'.sh);
        }
      }
    case Serve(conn, resp, delivered) =>
      ServerAnswers(env, s.sh, conn, resp, delivered, s'.sh);
      AnswerKeepsLog(s.sh, conn, s'.sh);
      ServerKeepsWanted(env, s, s', conn);
      UnsentKept(s, s');
    case Tick(ticks) =>
      LeftKeepsLog(s.sh, s'.sh);
      QuietKeepsWanted(env, s, s');
      UnsentKept(s, s');
  }

  lemma NothingUnsent(sh: Shared, pc: Pc)
    requires pc.AwaitWorkloads? || pc.Done?
    ensures UnsentOk(sh, pc)
  {}

  lemma QuietKeepsWanted(env: Env, s: State, s': State)
    requires IssuedWanted(env, s) && s'.sh.links == s.sh.links && s'.sh.issued == s.sh.issued
    requires s'.sh.workloads == s.sh.workloads
    requires forall t :: t in s.tasks ==> t in s'.tasks && s'.tasks[t].peer == s.tasks[t].peer
    ensures IssuedWanted(env, s')
  {
    hide WantedBy, LinkWanted;
    WantedKept(env, s, s');
  }

  lemma UnsentKept(s: State, s': State)
    requires s'.tasks == s.tasks && forall key :: Unasked(s.sh, key) ==> Unasked(s'.sh, key)
    requires forall t :: t in s.tasks ==> UnsentOk(s.sh, s.tasks[t].pc)
    ensures forall t :: t in s'.tasks ==> UnsentOk(s'.sh, s'.tasks[t].pc)
  {
    hide Unasked;
  }
}
