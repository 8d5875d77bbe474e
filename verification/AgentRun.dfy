/** The agent from boot through any number of connections, one after the other: all of it is one run of the protocol. */
module AgentRun {
  import opened Wrappers
  import opened Selectors
  import opened Matcher
  import opened Server
  import opened Retry
  import opened Protocol
  import opened ProtocolData
  import opened ProtocolSafety
  import opened Exchange
  import opened AgentCode
  import opened AgentRefinement
  import opened Boot

  /** One accepted connection: how long it took to come, who it is from, if that can be told, and what happens in it. */
  datatype Call = Call(after: nat, peer: Peer, peerKnown: bool, script: Script)

  /** How a hash map is iterated at each match, as the map's own order is not the program's choice. */
  type Orders = (nat, map<string, WorkloadConfig>) -> seq<string>

  ghost predicate AreOrders(orders: Orders) {
    forall i: nat, workloads: map<string, WorkloadConfig> :: IterationOrder(orders(i, workloads), workloads)
  }

  ghost function Ended(calls: seq<Call>, outcomes: seq<Outcome>): map<nat, Task>
    requires |outcomes| <= |calls|
  {
    map i: nat | i < |outcomes| :: Task(calls[i].peer, Done(outcomes[i]))
  }

  /** How one connection ends: not at all for an unknown peer, else by the match and the conversation. */
  ghost predicate EndsLike(workloads: map<string, WorkloadConfig>, order: seq<string>, call: Call, outcome: Outcome)
    requires IterationOrder(order, workloads)
  {
    if !call.peerKnown then outcome == Failed(PeerUnknown)
    else match MatchOf(workloads, order, call.peer)
      case None => outcome == if call.script.replyOk then Refused else Failed(ReplyFailed)
      case Some(name) => exists fetched, at: nat :: ServedAs(call.script, name, fetched, at, outcome)
  }

  ghost predicate AllEndLike(workloads: map<string, WorkloadConfig>, orders: Orders, calls: seq<Call>,
                             outcomes: seq<Outcome>)
    requires AreOrders(orders) && |outcomes| <= |calls|
  {
    forall i :: 0 <= i < |outcomes| ==> EndsLike(workloads, orders(i, workloads), calls[i], outcomes[i])
  }

  lemma NoneYet(orders: Orders, calls: seq<Call>)
    requires AreOrders(orders)
    ensures Waits([]) == 0 && calls[..0] == [] && forall workloads :: AllEndLike(workloads, orders, calls, [])
  {}

  lemma AllEndGrows(workloads: map<string, WorkloadConfig>, orders: Orders, calls: seq<Call>,
                    outcomes: seq<Outcome>, outcome: Outcome)
    requires AreOrders(orders) && |outcomes| < |calls| && AllEndLike(workloads, orders, calls, outcomes)
    requires EndsLike(workloads, orders(|outcomes|, workloads), calls[|outcomes|], outcome)
    ensures AllEndLike(workloads, orders, calls, outcomes + [outcome])
  {
    hide EndsLike, IterationOrder;
  }

  lemma WaitsGrow(calls: seq<Call>, i: nat)
    requires i < |calls|
    ensures Waits(calls[..i + 1]) == Waits(calls[..i]) + calls[i].after
  {
    assert calls[..i + 1][..i] == calls[..i];
  }

  function MatchOf(workloads: map<string, WorkloadConfig>, order: seq<string>, peer: Peer): Option<string>
    requires forall i :: 0 <= i < |order| ==> order[i] in workloads
  {
    Select(order, workloads, peer.proc, peer.accounts)
  }

  /** How long the connections took to come, all in all. */
  function Waits(calls: seq<Call>): nat {
    if calls == [] then 0 else Waits(calls[..|calls| - 1]) + calls[|calls| - 1].after
  }

  /** One accepted connection, whenever it comes. */
  method Handle(env: Env, agent: AgentState, ghost tasks: map<nat, Task>, ghost i: nat, call: Call, order: seq<string>)
    returns (outcome: Outcome)
    requires agent.Valid() && agent.sh.locks == map[] && Reachable(env, State(agent.sh, tasks)) && i !in tasks
    requires IterationOrder(order, agent.workloads) && Faithful(env.json)
    modifies agent`cache, agent`listener, agent`clock, agent`keysMade, agent`sh, agent.kernel
    ensures agent.Valid() && agent.sh.locks == map[] && agent.clock >= old(agent.clock) + call.after
    ensures Reachable(env, State(agent.sh, tasks[i := Task(call.peer, Done(outcome))]))
    ensures EndsLike(agent.workloads, order, call, outcome)
  {
    hide Faithful, Reachable, Leads, BestFor, IterationOrder, ServedAs, Select, FreshAt, EndsAs, Matches, EndsLike;
    TimeReaches(env, State(agent.sh, tasks), call.after);
    agent.Idle(call.after);
    ghost var s := State(agent.sh, tasks);
    outcome := Failed(PeerUnknown);
    if call.peerKnown {
      var matched;
      ghost var fetched, reply;
      outcome, matched, fetched, reply := agent.HandleWorkloadConn(env, i, call.peer, call.script.(order := order));
      OrderIsConfigured(order, agent.workloads);
      ConversationEnds(agent.workloads, order, call, outcome, fetched, agent.clock);
      HandlerStaysReachable(env, s, i, call.peer, agent.sh, outcome);
    } else {
      RefusedReaches(env, s, i, call.peer);
      UnknownEnds(agent.workloads, order, call);
    }
  }

  lemma OrderIsConfigured(order: seq<string>, workloads: map<string, WorkloadConfig>)
    requires IterationOrder(order, workloads)
    ensures forall i :: 0 <= i < |order| ==> order[i] in workloads
  {
    assert forall i :: 0 <= i < |order| ==> order[i] in order;
  }

  /**
   `run_agent` with its workload API. Unless boot fails, in which case nothing stays open, the agent's state after all
   the connections is a reachable state of the protocol in which their handlers have ended as they did; no descriptor
   is open but the stored listener, and whatever was delivered is a true, issued pair for a best match of its peer.
   */
  method Run(env: Env, kernel: Kernel, channel: Channel, now: nat, calls: seq<Call>, orders: Orders)
    returns (state: Option<AgentState>, outcomes: seq<Outcome>)
    requires kernel.Valid() && kernel.open == {} && Faithful(env.json) && AreOrders(orders)
    modifies kernel
    ensures state.None? ==> kernel.open == {} && outcomes == []
    ensures state.Some? ==>
              && |outcomes| == |calls| && state.value.Valid() && state.value.kernel == kernel
              && Reachable(env, State(state.value.sh, Ended(calls, outcomes)))
              && state.value.clock >= now + Waits(calls)
              && AllEndLike(state.value.workloads, orders, calls, outcomes)
    ensures forall i :: 0 <= i < |outcomes| && outcomes[i].Delivered? ==>
              && state.Some? && i < |calls|
              && var sh, o := state.value.sh, outcomes[i];
              BestFor(sh.workloads, calls[i].peer, o.name) && Sound(env, sh, o.name, o.creds)
              && WasIssued(env, sh, o.name, o.creds.certPem)
  {
    hide Init, Faithful, Reachable, Leads, BestFor, Sound, WasIssued, IterationOrder, Ended, ServedAs, Select, FreshAt,
      EndsAs, Matches, EndsLike, AllEndLike, Waits;
    NoneYet(orders, calls);
    outcomes := [];
    var booted := RunAgent(env, kernel, channel, now);
    if booted.Err? {
      return None, [];
    }
    var agent := booted.value;
    InitIsReachable(env, State(agent.sh, map[]));
    NoneEnded(calls);
    for i := 0 to |calls|
      invariant |outcomes| == i && agent.Valid() && agent.kernel == kernel && agent.sh.locks == map[]
      invariant Reachable(env, State(agent.sh, Ended(calls, outcomes)))
      invariant agent.clock >= now + Waits(calls[..i])
      invariant AllEndLike(agent.workloads, orders, calls, outcomes)
    {
      NotEnded(calls, outcomes);
      WaitsGrow(calls, i);
      var order := orders(i, agent.workloads);
      var outcome := Handle(env, agent, Ended(calls, outcomes), i, calls[i], order);
      EndedGrows(calls, outcomes, outcome);
      AllEndGrows(agent.workloads, orders, calls, outcomes, outcome);
      outcomes := outcomes + [outcome];
    }
    assert calls[..|calls|] == calls;
    EndedAreSound(env, agent.sh, calls, outcomes);
    state := Some(agent);
  }

  lemma UnknownEnds(workloads: map<string, WorkloadConfig>, order: seq<string>, call: Call)
    requires IterationOrder(order, workloads) && !call.peerKnown
    ensures EndsLike(workloads, order, call, Failed(PeerUnknown))
  {}

  lemma ConversationEnds(workloads: map<string, WorkloadConfig>, order: seq<string>, call: Call, outcome: Outcome,
                         fetched: Result<Credentials, Failure>, at: nat)
    requires IterationOrder(order, workloads) && call.peerKnown
    requires forall i :: 0 <= i < |order| ==> order[i] in workloads
    requires match Select(order, workloads, call.peer.proc, call.peer.accounts)
             case None => outcome == if call.script.replyOk then Refused else Failed(ReplyFailed)
             case Some(name) => ServedAs(call.script.(order := order), name, fetched, at, outcome)
    ensures EndsLike(workloads, order, call, outcome)
  {
    hide Select;
    match MatchOf(workloads, order, call.peer)
    case None =>
    case Some(name) => assert ServedAs(call.script, name, fetched, at, outcome);
  }

  lemma NoneEnded(calls: seq<Call>)
    ensures Ended(calls, []) == map[]
  {}

  lemma EndedGrows(calls: seq<Call>, outcomes: seq<Outcome>, outcome: Outcome)
    requires |outcomes| < |calls|
    ensures Ended(calls, outcomes + [outcome]) ==
            Ended(calls, outcomes)[|outcomes| := Task(calls[|outcomes|].peer, Done(outcome))]
  {}

  lemma NotEnded(calls: seq<Call>, outcomes: seq<Outcome>)
    requires |outcomes| < |calls|
    ensures |outcomes| !in Ended(calls, outcomes)
  {}

  lemma InitIsReachable(env: Env, s: State)
    requires Init(env, s)
    ensures Reachable(env, s) && s.sh.locks == map[]
  {
    assert IsRun(env, [s], []);
  }

  lemma TimeReaches(env: Env, s: State, ticks: nat)
    requires Reachable(env, s)
    ensures Reachable(env, s.(sh := s.sh.(now := s.sh.now + ticks)))
  {
    hide Reachable;
    ReachableNext(env, s, s.(sh := s.sh.(now := s.sh.now + ticks)), Tick(ticks));
  }

  lemma RefusedReaches(env: Env, s: State, t: nat, peer: Peer)
    requires Reachable(env, s) && t !in s.tasks
    ensures Reachable(env, s.(tasks := s.tasks[t := Task(peer, Done(Failed(PeerUnknown)))]))
  {
    hide Reachable;
    var s' := s.(tasks := s.tasks[t := Task(peer, Done(Failed(PeerUnknown)))]);
    ReachableNext(env, s, s', Accept(t, peer, false));
  }

  lemma EndedAreSound(env: Env, sh: Shared, calls: seq<Call>, outcomes: seq<Outcome>)
    requires |outcomes| <= |calls| && Reachable(env, State(sh, Ended(calls, outcomes)))
    ensures forall i :: 0 <= i < |outcomes| && outcomes[i].Delivered? ==>
              && BestFor(sh.workloads, calls[i].peer, outcomes[i].name)
              && Sound(env, sh, outcomes[i].name, outcomes[i].creds)
              && WasIssued(env, sh, outcomes[i].name, outcomes[i].creds.certPem)
  {
    var s := State(sh, Ended(calls, outcomes));
    ReachableIsSafe(env, s);
    hide Reachable, Inv, BestFor, Sound, WasIssued;
    forall i | 0 <= i < |outcomes| && outcomes[i].Delivered?
      ensures BestFor(sh.workloads, calls[i].peer, outcomes[i].name)
      ensures Sound(env, sh, outcomes[i].name, outcomes[i].creds)
      ensures WasIssued(env, sh, outcomes[i].name, outcomes[i].creds.certPem)
    {
      assert s.tasks[i] == Task(calls[i].peer, Done(outcomes[i]));
      EndedIsGood(env, s, i);
    }
  }
}
