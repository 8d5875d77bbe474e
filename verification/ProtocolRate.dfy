/** How often the agent asks the server: successful fetches of one identity are at least half a lifetime apart. */
module ProtocolRate {
  import opened Wrappers
  import opened Matcher
  import opened Wire
  import opened Server
  import opened Protocol
  import opened ProtocolLocks

  /** The identity a handler is fetching, from the cache miss to the insertion. */
  function Fetching(pc: Pc): Option<string> {
    match pc
    case Generating(name) => Some(name)
    case AwaitDial(name, _) => Some(name)
    case AwaitDrop(name, _) => Some(name)
    case Dropping(name, _) => Some(name)
    case Dialling(name, _, _) => Some(name)
    case Sending(name, _, _) => Some(name)
    case Receiving(name, _, _) => Some(name)
    case Closing(name, _, _, _) => Some(name)
    case Rebinding(name, _, _, _) => Some(name)
    case AwaitStore(name, _, _) => Some(name)
    case Storing(name, _, _) => Some(name)
    case Inspecting(name, _, _) => Some(name)
    case Inserting(name, _, _) => Some(name)
    case _ => None
  }

  predicate NotFresh(sh: Shared, pc: Pc) {
    Fetching(pc).Some? ==> !FreshAt(sh.cache, Fetching(pc).value, sh.now)
  }

  function FetchesOf(log: seq<Fetch>, name: string): seq<Fetch> {
    if log == [] then []
    else FetchesOf(log[..|log| - 1], name) + if log[|log| - 1].name == name then [log[|log| - 1]] else []
  }

  predicate Spaced(f: seq<Fetch>) {
    forall i :: 0 <= i < |f| - 1 ==> f[i].at + Threshold(f[i].certPem) <= f[i + 1].at
  }

  /** The cache holds the latest logged fetch of each identity. */
  predicate CacheIsLatest(sh: Shared, name: string) {
    var f := FetchesOf(sh.fetches, name);
    && (name in sh.cache <==> f != [])
    && (name in sh.cache ==>
          sh.cache[name].fetchedAt == f[|f| - 1].at && sh.cache[name].creds.certPem == f[|f| - 1].certPem)
  }

  ghost predicate RateShared(sh: Shared) {
    forall name :: CacheIsLatest(sh, name) && Spaced(FetchesOf(sh.fetches, name))
  }

  /** No handler is fetching an identity whose cache entry is fresh; logged fetches are spaced. */
  ghost predicate RateInv(s: State) {
    RateShared(s.sh) && forall t :: t in s.tasks ==> NotFresh(s.sh, s.tasks[t].pc)
  }

  lemma {:induction false} FetchesAppend(log: seq<Fetch>, f: Fetch, name: string)
    ensures FetchesOf(log + [f], name) == FetchesOf(log, name) + if f.name == name then [f] else []
  {
    assert (log + [f])[..|log|] == log;
  }

  /** An insertion that was not preceded by a fresh entry keeps the log spaced. */
  lemma InsertKeepsRate(sh: Shared, name: string, entry: Cached, sh': Shared)
    requires RateShared(sh) && !FreshAt(sh.cache, name, sh.now) && entry.fetchedAt == sh.now
    requires sh'.cache == sh.cache[name := entry]
    requires sh'.fetches == sh.fetches + [Fetch(name, entry.creds.certPem, sh.now)]
    ensures RateShared(sh')
  {
    hide Threshold;
    forall n ensures CacheIsLatest(sh', n) && Spaced(FetchesOf(sh'.fetches, n)) {
      assert CacheIsLatest(sh, n) && Spaced(FetchesOf(sh.fetches, n));
      FetchesAppend(sh.fetches, Fetch(name, entry.creds.certPem, sh.now), n);
    }
  }

  lemma SameRate(sh: Shared, sh': Shared)
    requires RateShared(sh) && sh'.cache == sh.cache && sh'.fetches == sh.fetches
    ensures RateShared(sh')
  {
    forall n ensures CacheIsLatest(sh', n) && Spaced(FetchesOf(sh'.fetches, n)) {
      assert CacheIsLatest(sh, n) && Spaced(FetchesOf(sh.fetches, n));
    }
  }

  lemma ClientRate(env: Env, t: nat, p: Peer, sh: Shared, pc: Pc, ch: Choice, sh': Shared, pc': Pc)
    requires ClientStep(env, t, p, sh, pc, ch, sh', pc')
    ensures Fetching(pc').None? && sh'.cache == sh.cache && sh'.fetches == sh.fetches && sh'.now == sh.now
  {
    hide IterationOrder, Select;
  }

  lemma CacheRate(env: Env, t: nat, sh: Shared, pc: Pc, ch: Choice, sh': Shared, pc': Pc)
    requires CacheStep(env, t, sh, pc, ch, sh', pc') && NotFresh(sh, pc)
    ensures NotFresh(sh', pc') && sh'.now == sh.now
    ensures if pc.Inserting? then
              && !FreshAt(sh.cache, pc.name, sh.now) && Holds(pc, Cache)
              && sh'.cache == sh.cache[pc.name := Cached(pc.creds, sh.now, pc.signedAt)]
              && sh'.fetches == sh.fetches + [Fetch(pc.name, pc.creds.certPem, sh.now)]
            else sh'.cache == sh.cache && sh'.fetches == sh.fetches
  {
    hide FreshAt;
  }

  lemma DialRate(env: Env, t: nat, sh: Shared, pc: Pc, ch: Choice, sh': Shared, pc': Pc)
    requires DialStep(env, t, sh, pc, ch, sh', pc') && NotFresh(sh, pc)
    ensures NotFresh(sh', pc') && sh'.cache == sh.cache && sh'.fetches == sh.fetches && sh'.now == sh.now
  {
    hide FreshAt, RequestFor;
  }

  lemma RebindRate(env: Env, t: nat, sh: Shared, pc: Pc, ch: Choice, sh': Shared, pc': Pc)
    requires RebindStep(env, t, sh, pc, ch, sh', pc') && NotFresh(sh, pc)
    ensures NotFresh(sh', pc') && sh'.cache == sh.cache && sh'.fetches == sh.fetches && sh'.now == sh.now
  {
    hide FreshAt, MarkRebound;
  }

  lemma HandlerKeepsRate(env: Env, t: nat, p: Peer, sh: Shared, pc: Pc, ch: Choice, sh': Shared, pc': Pc)
    requires HandlerStep(env, t, p, sh, pc, ch, sh', pc') && NotFresh(sh, pc) && RateShared(sh)
    ensures NotFresh(sh', pc') && RateShared(sh')
    ensures !Holds(pc, Cache) ==> sh'.cache == sh.cache
    ensures sh'.now == sh.now
  {
    hide ClientStep, CacheStep, DialStep, RebindStep, FreshAt, RateShared, Holds;
    if ClientStep(env, t, p, sh, pc, ch, sh', pc') {
      ClientRate(env, t, p, sh, pc, ch, sh', pc');
      SameRate(sh, sh');
    } else if CacheStep(env, t, sh, pc, ch, sh', pc') {
      CacheRate(env, t, sh, pc, ch, sh', pc');
      if pc.Inserting? {
        InsertKeepsRate(sh, pc.name, Cached(pc.creds, sh.now, pc.signedAt), sh');
      } else {
        SameRate(sh, sh');
      }
    } else if DialStep(env, t, sh, pc, ch, sh', pc') {
      DialRate(env, t, sh, pc, ch, sh', pc');
      SameRate(sh, sh');
    } else {
      RebindRate(env, t, sh, pc, ch, sh', pc');
      SameRate(sh, sh');
    }
  }

  lemma FetchingHoldsCache(pc: Pc)
    requires Fetching(pc).Some?
    ensures Holds(pc, Cache)
  {}

  /** While another handler steps, a fetching one keeps the cache to itself. */
  lemma OtherNotFresh(sh: Shared, t: nat, pc: Pc, u: nat, upc: Pc, sh': Shared)
    requires u != t && LockOk(sh, t, pc) && LockOk(sh, u, upc) && NotFresh(sh, upc)
    requires !Holds(pc, Cache) ==> sh'.cache == sh.cache
    requires sh.now <= sh'.now
    ensures NotFresh(sh', upc)
  {
    hide Holds, Threshold;
    if Fetching(upc).Some? {
      FetchingHoldsCache(upc);
      assert HeldBy(sh, Cache, u) && HeldBy(sh, Cache, t) == Holds(pc, Cache);
    }
  }

  lemma StepKeepsRate(env: Env, s: State, s': State, step: Step)
    requires LockInv(s) && RateInv(s) && Next(env, s, s', step)
    ensures RateInv(s')
  {
    hide HandlerStep, ServerStep, LockOk, Holds, RateShared, FreshAt;
    match step
    case Accept(t, peer, peerKnown) => assert Fetching(s'.tasks[t].pc).None?;
    case Run(t, ch) =>
      var pc, pc' := s.tasks[t].pc, s'.tasks[t].pc;
      HandlerKeepsRate(env, t, s.tasks[t].peer, s.sh, pc, ch, s'.sh, pc');
      forall u | u in s'.tasks ensures NotFresh(s'.sh, s'.tasks[u].pc) {
        if u != t {
          OtherNotFresh(s.sh, t, pc, u, s.tasks[u].pc, s'.sh);
        }
      }
    case Serve(conn, resp, delivered) =>
      ServerKeepsCache(env, s.sh, conn, resp, delivered, s'.sh);
      SameRate(s.sh, s'.sh);
    case Tick(ticks) =>
      SameRate(s.sh, s'.sh);
      forall u | u in s'.tasks ensures NotFresh(s'.sh, s'.tasks[u].pc) {
        StaleStaysStale(s.sh, s'.sh, s.tasks[u].pc);
      }
  }

  lemma StaleStaysStale(sh: Shared, sh': Shared, pc: Pc)
    requires NotFresh(sh, pc) && sh'.cache == sh.cache && sh.now <= sh'.now
    ensures NotFresh(sh', pc)
  {
    hide Threshold;
  }

  lemma ServerKeepsCache(env: Env, sh: Shared, conn: nat, resp: AgentResponse, delivered: bool, sh': Shared)
    requires ServerStep(env, sh, conn, resp, delivered, sh')
    ensures sh'.cache == sh.cache && sh'.fetches == sh.fetches && sh'.now == sh.now
  {
    hide Responds, PassesGate;
  }

  function SumThresholds(f: seq<Fetch>): nat {
    if f == [] then 0 else SumThresholds(f[..|f| - 1]) + Threshold(f[|f| - 1].certPem)
  }

  /** Spaced fetches span at least the sum of the thresholds of all but the last. */
  lemma {:induction false} SpacedSpan(f: seq<Fetch>)
    requires Spaced(f) && f != []
    ensures f[|f| - 1].at - f[0].at >= SumThresholds(f[..|f| - 1])
  {
    hide Threshold;
    if |f| > 1 {
      var front := f[..|f| - 1];
      SpacedSpan(front);
      assert front[|front| - 1] == f[|f| - 2];
    } else {
      assert f[..0] == [];
    }
  }

  lemma {:induction false} SumOfEqualThresholds(f: seq<Fetch>, each: nat)
    requires forall i :: 0 <= i < |f| ==> Threshold(f[i].certPem) == each
    ensures SumThresholds(f) == |f| * each
  {
    hide Threshold;
    if f != [] {
      SumOfEqualThresholds(f[..|f| - 1], each);
    }
  }

  lemma {:induction false} FetchesMembers(log: seq<Fetch>, name: string)
    ensures forall f :: f in FetchesOf(log, name) ==> f in log && f.name == name
  {
    if log != [] {
      FetchesMembers(log[..|log| - 1], name);
    }
  }
}
