/**
 The agent's bounded retry loops against a kernel that may answer every call as it likes: dialling from a fixed
 local port, the boot-time handshake's outer loop, and binding the persistent listener.
 */
module Retry {
  import opened Wrappers

  datatype BindAnswer = Bound | AddrInUse | BindRefused

  /** What the kernel answers to one round of socket, bind, connect and stream registration. */
  datatype Fate = Fate(socket: bool, bind: BindAnswer, connect: bool, register: bool)

  class Kernel {
    const fates: nat -> Fate      // one entry per socket() call
    const listens: nat -> bool    // one entry per listener bind
    var sockets: nat              // socket() calls so far
    var binds: nat                // listener binds so far
    var open: set<nat>            // descriptors now open
    var nextFd: nat
    var sleptMs: nat

    constructor (fates: nat -> Fate, listens: nat -> bool)
      ensures Valid() && open == {} && sockets == 0 && binds == 0 && sleptMs == 0
      ensures this.fates == fates && this.listens == listens
    {
      this.fates, this.listens := fates, listens;
      sockets, binds, open, nextFd, sleptMs := 0, 0, {}, 0, 0;
    }

    predicate Valid()
      reads this
    {
      forall fd :: fd in open ==> fd < nextFd
    }

    method Socket() returns (fd: Option<nat>)
      requires Valid()
      modifies this
      ensures Valid() && unchanged(`binds) && unchanged(`sleptMs)
      ensures sockets == old(sockets) + 1
      ensures fd.Some? <==> fates(old(sockets)).socket
      ensures fd.Some? ==> fd.value !in old(open) && open == old(open) + {fd.value}
      ensures fd.None? ==> open == old(open)
    {
      sockets := sockets + 1;
      if !fates(sockets - 1).socket {
        return None;
      }
      fd := Some(nextFd);
      open, nextFd := open + {nextFd}, nextFd + 1;
    }

    method Close(fd: nat)
      requires Valid() && fd in open
      modifies this`open
      ensures Valid() && open == old(open) - {fd}
    {
      open := open - {fd};
    }

    method Sleep(ms: nat)
      modifies this`sleptMs
      ensures sleptMs == old(sleptMs) + ms
    {
      sleptMs := sleptMs + ms;
    }

    method BindListener() returns (fd: Option<nat>)
      requires Valid()
      modifies this
      ensures Valid() && unchanged(`sockets) && unchanged(`sleptMs)
      ensures binds == old(binds) + 1
      ensures fd.Some? <==> listens(old(binds))
      ensures fd.Some? ==> fd.value !in old(open) && open == old(open) + {fd.value}
      ensures fd.None? ==> open == old(open)
    {
      binds := binds + 1;
      if !listens(binds - 1) {
        return None;
      }
      fd := Some(nextFd);
      open, nextFd := open + {nextFd}, nextFd + 1;
    }
  }

  const BIND_RETRIES := 10
  const BIND_PAUSE_MS := 100
  const CONNECT_RETRIES := 15
  const CONNECT_PAUSE_MS := 500

  /** The only answer that makes the dial loop go round again. */
  predicate PortBusy(f: Fate) {
    f.socket && f.bind == AddrInUse
  }

  predicate Connects(f: Fate) {
    f.socket && f.bind == Bound && f.connect && f.register
  }

  /** How many sockets one dial tries, the next one being number `k`, after `attempts` retries. */
  function Tries(fates: nat -> Fate, k: nat, attempts: nat): (n: nat)
    requires attempts <= BIND_RETRIES
    ensures 1 <= n <= BIND_RETRIES + 1 - attempts
    decreases BIND_RETRIES - attempts
  {
    if PortBusy(fates(k)) && attempts < BIND_RETRIES then 1 + Tries(fates, k + 1, attempts + 1) else 1
  }

  /** Whether the dial that starts at socket `k` succeeds: decided by its last try alone. */
  predicate DialSucceeds(fates: nat -> Fate, k: nat) {
    Connects(fates(k + Tries(fates, k, 0) - 1))
  }

  lemma TriesStep(fates: nat -> Fate, k: nat, attempts: nat)
    requires attempts <= BIND_RETRIES
    ensures Tries(fates, k, attempts) ==
            if PortBusy(fates(k)) && attempts < BIND_RETRIES then 1 + Tries(fates, k + 1, attempts + 1) else 1
  {}

  /** The tries are the busy rounds plus one, cut off at eleven. */
  lemma {:induction false} TriesMeaning(fates: nat -> Fate, k: nat, attempts: nat)
    requires attempts <= BIND_RETRIES
    ensures var n := Tries(fates, k, attempts);
            && (forall j: nat :: k <= j < k + n - 1 ==> PortBusy(fates(j)))
            && n <= 11 - attempts && (n < 11 - attempts ==> !PortBusy(fates(k + n - 1)))
    decreases BIND_RETRIES - attempts
  {
    hide Tries;
    TriesStep(fates, k, attempts);
    if PortBusy(fates(k)) && attempts < BIND_RETRIES {
      TriesMeaning(fates, k + 1, attempts + 1);
    }
  }

  /** A dial succeeds exactly when one of its first eleven rounds connects and all before it found the port busy. */
  lemma DialSucceedsIff(fates: nat -> Fate, k: nat)
    ensures DialSucceeds(fates, k) <==>
            exists j: nat ::
              k <= j <= k + 10 && Connects(fates(j)) && forall i: nat :: k <= i < j ==> PortBusy(fates(i))
  {
    TriesMeaning(fates, k, 0);
    hide Tries;
    var last: nat := k + Tries(fates, k, 0) - 1;
    if j: nat :| && k <= j <= k + BIND_RETRIES && Connects(fates(j))
                 && forall i: nat :: k <= i < j ==> PortBusy(fates(i)) {
      assert last < j ==> PortBusy(fates(last));
      assert j == last;
    }
  }

  /** `connect_with_local_port`: at most one socket outlives the call, and it is the one returned. */
  method ConnectWithLocalPort(kernel: Kernel) returns (r: Option<nat>)
    requires kernel.Valid()
    modifies kernel
    ensures kernel.Valid() && kernel.binds == old(kernel.binds)
    ensures r.Some? <==> DialSucceeds(kernel.fates, old(kernel.sockets))
    ensures r.Some? ==> r.value !in old(kernel.open) && kernel.open == old(kernel.open) + {r.value}
    ensures r.None? ==> kernel.open == old(kernel.open)
    ensures kernel.sockets == old(kernel.sockets) + Tries(kernel.fates, old(kernel.sockets), 0)
    ensures kernel.sleptMs == old(kernel.sleptMs) + 100 * (kernel.sockets - old(kernel.sockets) - 1)
  {
    hide Tries;
    ghost var start, n := kernel.sockets, Tries(kernel.fates, kernel.sockets, 0);
    var attempts := 0;
    while true
      invariant kernel.Valid() && kernel.open == old(kernel.open) && kernel.binds == old(kernel.binds)
      invariant attempts <= BIND_RETRIES && kernel.sockets == start + attempts
      invariant n == attempts + Tries(kernel.fates, kernel.sockets, attempts)
      invariant kernel.sleptMs == old(kernel.sleptMs) + BIND_PAUSE_MS * attempts
      decreases BIND_RETRIES - attempts
    {
      TriesStep(kernel.fates, kernel.sockets, attempts);
      var answer := kernel.fates(kernel.sockets);
      var socket := kernel.Socket();
      if socket.None? {
        return None;
      }
      if answer.bind == Bound {
        if answer.connect {
          if answer.register {
            return socket;
          }
          kernel.Close(socket.value);
          return None;
        }
        kernel.Close(socket.value);
        return None;
      }
      kernel.Close(socket.value);
      if answer.bind == AddrInUse && attempts < BIND_RETRIES {
        attempts := attempts + 1;
        kernel.Sleep(BIND_PAUSE_MS);
        continue;
      }
      return None;
    }
  }

  /** Totals of the outer handshake loop. */
  datatype Rounds = Rounds(ok: bool, dials: nat, sockets: nat)

  /** Pauses between dials and between the sockets of each dial. */
  function SleepOf(r: Rounds): int {
    BIND_PAUSE_MS * (r.sockets - r.dials) + CONNECT_PAUSE_MS * (r.dials - 1)
  }

  /** The outer loop from socket `k`, after `attempts` failed dials. */
  function DialRounds(fates: nat -> Fate, k: nat, attempts: nat): (r: Rounds)
    requires attempts <= CONNECT_RETRIES
    ensures 1 <= r.dials <= CONNECT_RETRIES + 1 - attempts
    ensures r.dials <= r.sockets <= (BIND_RETRIES + 1) * r.dials
    decreases CONNECT_RETRIES - attempts
  {
    var n := Tries(fates, k, 0);
    if DialSucceeds(fates, k) then Rounds(true, 1, n)
    else if attempts < CONNECT_RETRIES then
      var rest := DialRounds(fates, k + n, attempts + 1);
      Rounds(rest.ok, 1 + rest.dials, n + rest.sockets)
    else Rounds(false, 1, n)
  }

  lemma DialRoundsStep(fates: nat -> Fate, k: nat, attempts: nat)
    requires attempts <= CONNECT_RETRIES
    ensures var n := Tries(fates, k, 0);
            DialRounds(fates, k, attempts) ==
            if DialSucceeds(fates, k) then Rounds(true, 1, n)
            else if attempts < CONNECT_RETRIES then
              var rest := DialRounds(fates, k + n, attempts + 1);
              Rounds(rest.ok, 1 + rest.dials, n + rest.sockets)
            else Rounds(false, 1, n)
  {
    hide Tries, DialSucceeds;
  }

  /** The handshake's connection loop: exact sockets and sleep, nothing left open but the returned stream. */
  method ConnectForHandshake(kernel: Kernel) returns (r: Option<nat>)
    requires kernel.Valid()
    modifies kernel
    ensures kernel.Valid() && kernel.binds == old(kernel.binds)
    ensures r.Some? ==> r.value !in old(kernel.open) && kernel.open == old(kernel.open) + {r.value}
    ensures r.None? ==> kernel.open == old(kernel.open)
    ensures var total := DialRounds(kernel.fates, old(kernel.sockets), 0);
            && r.Some? == total.ok && kernel.sockets == old(kernel.sockets) + total.sockets
            && kernel.sleptMs == old(kernel.sleptMs) + SleepOf(total)
  {
    hide Tries, DialRounds, DialSucceeds;
    ghost var start, slept := kernel.sockets, kernel.sleptMs;
    ghost var total := DialRounds(kernel.fates, start, 0);
    var attempts := 0;
    while true
      invariant kernel.Valid() && kernel.open == old(kernel.open) && kernel.binds == old(kernel.binds)
      invariant attempts <= CONNECT_RETRIES && start <= kernel.sockets
      invariant var rest := DialRounds(kernel.fates, kernel.sockets, attempts);
                total == Rounds(rest.ok, attempts + rest.dials, kernel.sockets - start + rest.sockets)
      invariant kernel.sleptMs == slept + BIND_PAUSE_MS * (kernel.sockets - start - attempts)
                + CONNECT_PAUSE_MS * attempts
      decreases CONNECT_RETRIES - attempts
    {
      DialRoundsStep(kernel.fates, kernel.sockets, attempts);
      r := ConnectWithLocalPort(kernel);
      if r.Some? {
        return;
      }
      if attempts < CONNECT_RETRIES {
        attempts := attempts + 1;
        kernel.Sleep(CONNECT_PAUSE_MS);
        continue;
      }
      return None;
    }
  }

  /** Whatever the kernel answers: at most 16 dials, 176 sockets and 23500 ms of sleep. */
  lemma HandshakeBounds(fates: nat -> Fate, k: nat)
    ensures var total := DialRounds(fates, k, 0);
            total.dials <= 16 && total.sockets <= 176 && SleepOf(total) <= 23500
  {}

  /** The socket with which the dial after `m` failed ones starts. */
  function NthDial(fates: nat -> Fate, k: nat, m: nat): nat
    decreases m
  {
    if m == 0 then k else NthDial(fates, k + Tries(fates, k, 0), m - 1)
  }

  predicate NthSucceeds(fates: nat -> Fate, k: nat, m: nat) {
    DialSucceeds(fates, NthDial(fates, k, m))
  }

  lemma NthDialStep(fates: nat -> Fate, k: nat, m: nat)
    ensures var next := k + Tries(fates, k, 0);
            && NthDial(fates, k, m + 1) == NthDial(fates, next, m)
            && NthSucceeds(fates, k, m + 1) == NthSucceeds(fates, next, m)
    ensures NthSucceeds(fates, k, 0) == DialSucceeds(fates, k)
  {
    hide Tries, DialSucceeds;
  }

  /** The handshake gets a stream exactly if one of its sixteen dials succeeds, and stops at the first that does. */
  lemma {:induction false} DialRoundsMeaning(fates: nat -> Fate, k: nat, attempts: nat)
    requires attempts <= 15
    ensures var r := DialRounds(fates, k, attempts);
            && (r.ok ==> r.dials <= 16 - attempts && NthSucceeds(fates, k, r.dials - 1))
            && (forall m: nat :: m < r.dials - 1 ==> !NthSucceeds(fates, k, m))
            && (!r.ok ==> r.dials == 16 - attempts && !NthSucceeds(fates, k, r.dials - 1))
            && NthDial(fates, k, r.dials) == k + r.sockets
    decreases 15 - attempts
  {
    hide Tries, DialRounds, DialSucceeds, NthSucceeds, NthDial;
    DialRoundsStep(fates, k, attempts);
    var r, next := DialRounds(fates, k, attempts), k + Tries(fates, k, 0);
    NthDialStep(fates, k, 0);
    NthDialZero(fates, next);
    if !DialSucceeds(fates, k) && attempts < 15 {
      DialRoundsMeaning(fates, next, attempts + 1);
      NthDialStep(fates, k, r.dials - 2);
      NthDialStep(fates, k, r.dials - 1);
      forall m: nat | m < r.dials - 1 ensures !NthSucceeds(fates, k, m) {
        if m > 0 {
          NthDialStep(fates, k, m - 1);
        }
      }
    }
  }

  lemma NthDialZero(fates: nat -> Fate, k: nat)
    ensures NthDial(fates, k, 0) == k
  {}

  /** A kernel that finds the local port in use for ever. */
  ghost predicate AlwaysBusy(fates: nat -> Fate) {
    forall k: nat :: PortBusy(fates(k))
  }

  lemma {:induction false} BusyTries(fates: nat -> Fate, k: nat, attempts: nat)
    requires AlwaysBusy(fates) && attempts <= BIND_RETRIES
    ensures Tries(fates, k, attempts) == 11 - attempts
    decreases BIND_RETRIES - attempts
  {
    hide Tries;
    TriesStep(fates, k, attempts);
    if attempts < BIND_RETRIES {
      BusyTries(fates, k + 1, attempts + 1);
    }
  }

  /** The bounds are attained: against such a kernel 16 dials make 176 sockets, sleep 23500 ms, and fail. */
  lemma HandshakeBoundsAttained(fates: nat -> Fate, k: nat)
    requires AlwaysBusy(fates)
    ensures var total := DialRounds(fates, k, 0);
            total == Rounds(false, 16, 176) && SleepOf(total) == 23500
  {
    hide Tries, DialRounds;
    BusyRounds(fates, k, 0);
  }

  lemma {:induction false} BusyRounds(fates: nat -> Fate, k: nat, attempts: nat)
    requires AlwaysBusy(fates) && attempts <= CONNECT_RETRIES
    ensures DialRounds(fates, k, attempts) == Rounds(false, 16 - attempts, 176 - 11 * attempts)
    decreases CONNECT_RETRIES - attempts
  {
    hide Tries, DialRounds;
    DialRoundsStep(fates, k, attempts);
    BusyTries(fates, k, 0);
    assert PortBusy(fates(k + 10));
    if attempts < CONNECT_RETRIES {
      BusyRounds(fates, k + 11, attempts + 1);
    }
  }

  /** The listener loop shared by boot and by the rebind after a dial: eleven binds at most, any error is retried. */
  method BindWithRetries(kernel: Kernel) returns (r: Option<nat>)
    requires kernel.Valid()
    modifies kernel
    ensures kernel.Valid() && kernel.sockets == old(kernel.sockets)
    ensures r.Some? <==>
              exists i: nat :: old(kernel.binds) <= i <= old(kernel.binds) + 10 && kernel.listens(i)
    ensures r.Some? ==> r.value !in old(kernel.open) && kernel.open == old(kernel.open) + {r.value}
    ensures r.None? ==> kernel.open == old(kernel.open)
    ensures 1 <= kernel.binds - old(kernel.binds) <= 11
    ensures forall i: nat :: old(kernel.binds) <= i < kernel.binds - 1 ==> !kernel.listens(i)
    ensures kernel.sleptMs == old(kernel.sleptMs) + 100 * (kernel.binds - old(kernel.binds) - 1)
  {
    ghost var start := kernel.binds;
    var attempts := 0;
    while true
      invariant kernel.Valid() && kernel.open == old(kernel.open) && kernel.sockets == old(kernel.sockets)
      invariant attempts <= BIND_RETRIES && kernel.binds == start + attempts
      invariant forall i: nat :: start <= i < start + attempts ==> !kernel.listens(i)
      invariant kernel.sleptMs == old(kernel.sleptMs) + BIND_PAUSE_MS * attempts
      decreases BIND_RETRIES - attempts
    {
      r := kernel.BindListener();
      if r.Some? {
        return;
      }
      if attempts < BIND_RETRIES {
        attempts := attempts + 1;
        kernel.Sleep(BIND_PAUSE_MS);
        continue;
      }
      return None;
    }
  }
}
