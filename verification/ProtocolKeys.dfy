/** Key freshness: every request carries a key pair of its own, so no two fetched certificates share a public key. */
module ProtocolKeys {
  import opened Wrappers
  import opened Matcher
  import opened Pki
  import opened Wire
  import opened Server
  import opened Protocol
  import opened ProtocolLocks
  import opened ProtocolData

  /** The key pair a handler has generated and not yet put into the cache. */
  function KeyOf(pc: Pc): Option<PrivateKey> {
    match pc
    case AwaitDial(_, key) => Some(key)
    case AwaitDrop(_, key) => Some(key)
    case Dropping(_, key) => Some(key)
    case Dialling(_, key, _) => Some(key)
    case Sending(_, key, _) => Some(key)
    case Receiving(_, key, _) => Some(key)
    case Closing(_, key, _, _) => Some(key)
    case Rebinding(_, key, _, _) => Some(key)
    case AwaitStore(_, key, _) => Some(key)
    case Storing(_, key, _) => Some(key)
    case Inspecting(_, key, _) => Some(key)
    case Inserting(_, creds, _) => Some(creds.keyPem)
    case _ => None
  }

  predicate Has(certPem: Pem<Certificate>, key: PublicKey) {
    certPem.Pem? && certPem.value.publicKey == key
  }

  /** The key was generated before now, and no fetched certificate is for it. */
  predicate Unused(sh: Shared, key: PrivateKey) {
    key.id < sh.nextKey && forall f :: f in sh.fetches ==> !Has(f.certPem, PublicHalf(key))
  }

  predicate KeyOk(sh: Shared, pc: Pc) {
    KeyOf(pc).Some? ==> Unused(sh, KeyOf(pc).value)
  }

  predicate KeysDiffer(log: seq<Fetch>) {
    && (forall f :: f in log ==> f.certPem.Pem?)
    && forall i, j :: 0 <= i < j < |log| ==> !Has(log[i].certPem, log[j].certPem.value.publicKey)
  }

  ghost predicate KeyShared(sh: Shared) {
    KeysDiffer(sh.fetches) && forall f :: f in sh.fetches ==> f.certPem.value.publicKey.id < sh.nextKey
  }

  ghost predicate KeyInv(s: State) {
    KeyShared(s.sh) && forall t :: t in s.tasks ==> KeyOk(s.sh, s.tasks[t].pc)
  }

  lemma ClientKeys(env: Env, t: nat, p: Peer, sh: Shared, pc: Pc, ch: Choice, sh': Shared, pc': Pc)
    requires ClientStep(env, t, p, sh, pc, ch, sh', pc')
    ensures sh'.fetches == sh.fetches && sh'.nextKey == sh.nextKey && KeyOf(pc').None?
  {
    hide IterationOrder, Select;
  }

  lemma DialKeys(env: Env, t: nat, sh: Shared, pc: Pc, ch: Choice, sh': Shared, pc': Pc)
    requires DialStep(env, t, sh, pc, ch, sh', pc')
    ensures sh'.fetches == sh.fetches && sh'.nextKey == sh.nextKey && (KeyOf(pc').None? || KeyOf(pc') == KeyOf(pc))
  {
    hide RequestFor;
  }

  lemma RebindKeys(env: Env, t: nat, sh: Shared, pc: Pc, ch: Choice, sh': Shared, pc': Pc)
    requires RebindStep(env, t, sh, pc, ch, sh', pc')
    ensures sh'.fetches == sh.fetches && sh'.nextKey == sh.nextKey && (KeyOf(pc').None? || KeyOf(pc') == KeyOf(pc))
  {
    hide MarkRebound;
  }

  /** A key is generated above all others, and used up by the insertion. */
  lemma CacheKeys(env: Env, t: nat, sh: Shared, pc: Pc, ch: Choice, sh': Shared, pc': Pc)
    requires CacheStep(env, t, sh, pc, ch, sh', pc')
    ensures sh.nextKey <= sh'.nextKey
    ensures KeyOf(pc').None? || KeyOf(pc') == KeyOf(pc)
            || (KeyOf(pc') == Some(PrivateKey(sh.nextKey)) && sh'.nextKey == sh.nextKey + 1)
    ensures if pc.Inserting?
            then sh'.fetches == sh.fetches + [Fetch(pc.name, pc.creds.certPem, sh.now)] && KeyOf(pc').None?
            else sh'.fetches == sh.fetches
  {
    hide FreshAt;
  }

  lemma InsertedKey(env: Env, sh: Shared, p: Peer, pc: Pc)
    requires DataOk(env, sh, p, pc) && pc.Inserting?
    ensures Has(pc.creds.certPem, PublicHalf(pc.creds.keyPem))
  {
    hide BestFor, IssuedAt;
  }

  lemma HandlerKeepsKeys(env: Env, t: nat, p: Peer, sh: Shared, pc: Pc, ch: Choice, sh': Shared, pc': Pc)
    requires HandlerStep(env, t, p, sh, pc, ch, sh', pc') && DataOk(env, sh, p, pc) && KeyOk(sh, pc) && KeyShared(sh)
    ensures KeyOk(sh', pc') && KeyShared(sh')
    ensures !Holds(pc, Cache) ==> sh'.fetches == sh.fetches && sh'.nextKey == sh.nextKey
  {
    hide ClientStep, CacheStep, DialStep, RebindStep, DataOk, Holds;
    if ClientStep(env, t, p, sh, pc, ch, sh', pc') {
      ClientKeys(env, t, p, sh, pc, ch, sh', pc');
    } else if CacheStep(env, t, sh, pc, ch, sh', pc') {
      CacheKeys(env, t, sh, pc, ch, sh', pc');
      OutsideCache(env, t, sh, pc, ch, sh', pc');
      if pc.Inserting? {
        InsertedKey(env, sh, p, pc);
      }
    } else if DialStep(env, t, sh, pc, ch, sh', pc') {
      DialKeys(env, t, sh, pc, ch, sh', pc');
    } else {
      RebindKeys(env, t, sh, pc, ch, sh', pc');
    }
  }

  lemma OutsideCache(env: Env, t: nat, sh: Shared, pc: Pc, ch: Choice, sh': Shared, pc': Pc)
    requires CacheStep(env, t, sh, pc, ch, sh', pc')
    ensures !Holds(pc, Cache) ==> sh'.fetches == sh.fetches && sh'.nextKey == sh.nextKey
  {
    hide FreshAt;
  }

  lemma KeyHoldsCache(pc: Pc)
    requires KeyOf(pc).Some?
    ensures Holds(pc, Cache)
  {}

  /** While one handler has a key of its own, no other one generates or inserts. */
  lemma OtherKeyOk(sh: Shared, t: nat, pc: Pc, u: nat, upc: Pc, sh': Shared)
    requires u != t && LockOk(sh, t, pc) && LockOk(sh, u, upc) && KeyOk(sh, upc)
    requires !Holds(pc, Cache) ==> sh'.fetches == sh.fetches && sh'.nextKey == sh.nextKey
    ensures KeyOk(sh', upc)
  {
    hide Holds;
    if KeyOf(upc).Some? {
      KeyHoldsCache(upc);
      assert HeldBy(sh, Cache, u) && HeldBy(sh, Cache, t) == Holds(pc, Cache);
    }
  }

  lemma ServerKeepsKeys(env: Env, sh: Shared, conn: nat, resp: AgentResponse, delivered: bool, sh': Shared)
    requires ServerStep(env, sh, conn, resp, delivered, sh')
    ensures sh'.fetches == sh.fetches && sh'.nextKey == sh.nextKey
  {
    hide Responds, PassesGate;
  }

  lemma StepKeepsKeys(env: Env, s: State, s': State, step: Step)
    requires LockInv(s) && DataInv(env, s) && KeyInv(s) && Next(env, s, s', step)
    ensures KeyInv(s')
  {
    hide HandlerStep, ServerStep, LockOk, Holds, DataOk, SharedOk, KeysDiffer, KeyOk;
    match step
    case Accept(t, peer, peerKnown) => NewTaskHasNoKey(s.sh, s'.tasks[t].pc);
    case Run(t, ch) =>
      var pc := s.tasks[t].pc;
      HandlerKeepsKeys(env, t, s.tasks[t].peer, s.sh, pc, ch, s'.sh, s'.tasks[t].pc);
      forall u | u in s'.tasks ensures KeyOk(s'.sh, s'.tasks[u].pc) {
        if u != t {
          OtherKeyOk(s.sh, t, pc, u, s.tasks[u].pc, s'.sh);
        }
      }
    case Serve(conn, resp, delivered) =>
      ServerKeepsKeys(env, s.sh, conn, resp, delivered, s'.sh);
      SameKeys(s, s');
    case Tick(ticks) => SameKeys(s, s');
  }

  lemma NewTaskHasNoKey(sh: Shared, pc: Pc)
    requires pc.AwaitWorkloads? || pc.Done?
    ensures KeyOk(sh, pc)
  {}

  lemma SameKeys(s: State, s': State)
    requires KeyInv(s) && s'.tasks == s.tasks && s'.sh.fetches == s.sh.fetches && s'.sh.nextKey == s.sh.nextKey
    ensures KeyInv(s')
  {
    forall t | t in s'.tasks ensures KeyOk(s'.sh, s'.tasks[t].pc) {
      assert KeyOk(s.sh, s.tasks[t].pc);
    }
  }
}
