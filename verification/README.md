# authn-scope: a verified model

authn-scope issues short-lived X.509 certificates to processes of a guest VM. A guest agent attests the process at
the other end of a Unix socket, picks the configured workload that fits it best, and obtains a certificate for that
name from a host CA over vsock, which it caches for half the certificate's lifetime. A client library keeps a
workload's credentials refreshed in a loop. The agent guards the vsock port it dials from with a listener that it
drops for the length of a dial.

This project states that system in Dafny and proves what it keeps.

## How it is built

| files | content |
|---|---|
| `Wrappers`, `Selectors`, `Text`, `Wire` | shared datatypes, the string operations of the parser, the messages |
| `SelectorParser`, `Matcher`, `SelectorScores` | selector text to record, record to best match, and both together |
| `Codec` | length-prefixed framing over sources and sinks that work in arbitrary pieces |
| `Pki` | keys, requests, certificates; signing, key generation, evaluation |
| `Policy`, `Server` | host configuration, the listener's port gate, the connection handler |
| `Retry` | the agent's bounded retry loops against a kernel that answers as it likes |
| `Protocol` | any number of handlers, the server and the clock as one state machine; every lock, failing call and early exit is a step |
| `ProtocolLocks`, `ProtocolPort`, `ProtocolData`, `ProtocolRate`, `ProtocolReplies`, `ProtocolKeys`, `ProtocolIssued` | one invariant each, kept by every step |
| `ProtocolProgress`, `ProtocolSafety`, `ProtocolCompletion` | enabled steps, the results about whole runs, running to completion |
| `Rotation`, `RotationBound`, `WorkloadClient` | rotating clients composed with the machine under timing assumptions; a run that shows the pace is needed; the client's loop |
| `Exchange` | one request and reply over bytes, through gate and handler |
| `AgentCode`, `AgentRefinement`, `Boot`, `AgentRun` | the agent's sequential code, shown to walk along the machine's steps, its boot, and both together |

A handler's step reads and writes the shared state and its own program point only. Each invariant is a fact about the
shared state and one handler, kept by the handler's own steps and undisturbed by those of others; the lock invariant
is what keeps the others away. The methods of `AgentCode.AgentState` carry a protocol state as a ghost field and prove
that old and new state are joined by a sequence of protocol steps, so the theorems about runs apply to the code.

## Readings of the source

- The `workloads` guard lives to the end of a handler, across the client's read and the request to the host, so
  handlers run one after the other from that lock on.
- A failure after the listener was dropped and before a new one is stored leaves the agent without a listener until a
  later dial rebinds. A reply without a certificate comes after the rebind and does not.
- `sign_csr` keeps the subject of the request. Its field comment asks for a subject that matches the identity, but
  nothing enforces it: agreement rests on `generate_csr`. The evaluator's unit test signs a default-parameter request
  for `peer-service` and expects that identity; by the code it evaluates to the default subject.
- A CA is loaded from a certificate file and a key file that nothing compares; a failed key write after a new
  certificate leaves a pair that does not belong together. What it signs then has the right names and keys, and fails
  evaluation. Results that depend on this name it as `Consistent`.
- `ttl_minutes * 60` is taken as 32-bit wrap-around, as in a release build.
- Certificates carry whole seconds; clocks here tick in nanoseconds.
- README.md, docs/ and config-examples/ of the repository describe TLS, capabilities and other configuration shapes
  that the code does not have. The code is followed.
- Timing assumptions of `Rotation`: one clock; no fetch outlasts its bound, no certificate travels longer than its
  bound from signing to the cache, sleeps end on time, and fetches that return succeed. Clients may start at any time after the agent's
  boot. The pace condition is about the names a client's process can be given when it calls. It is exact up to the
  tick for every lifetime but zero, where a certificate is never served from the cache.
- A request whose JSON text exceeds 4 MiB, which takes an identity name of about that size, is sent and refused by the
  server with a framing error; up to there only signing can fail.
- The account databases may change from one connection to the next, not within one match.
- A subject has at most one entry of a type, as the certificate library's names are built by pushing entries.

## Model

| member | source | states |
|---|---|---|
| `ProtocolSafety.EveryDeliveryIsAttested` | apps/rust-apps/authn-scope-agent/src/client.rs:332-386 | in every run, each success reply goes to a process that satisfies the selector of the name it gets, under the account databases its own match found; no matching entry outscores that name, the host's policy text parses to that selector, the VM calls from its registered CID, and the server issued that certificate for that name |
| `ProtocolSafety.TruePairs` | apps/rust-apps/authn-scope-agent/src/client.rs:505-514 | in every reachable state each cached or delivered certificate has the public half of the key beside it, the requested name as subject and DNS name, this CA's signature and the configured lifetime |
| `ProtocolSafety.IdentityAgreement` | libs/rust-libs/authn-scope-evaluator/src/lib.rs:43-50 | for every certificate cached under a name or ever delivered for one, issued identity, subject and DNS name are that name, and a peer evaluates it to that name exactly when the host's CA certificate and key belong together |
| `ProtocolSafety.RepliesMatchOutcomes` | apps/rust-apps/authn-scope-agent/src/client.rs:375-386 | a finished handler sent exactly the success reply its outcome names, and none after any failure, a failed rebind after an accepted request included |
| `ProtocolSafety.OnlySigningFails` | apps/rust-apps/authn-scope-server/src/handler.rs:138-174 | from the moment it is written, the answer to a handler's request that fits a frame is a certificate exactly when the CA can sign for the name and a signing failure otherwise; gate, lookup and CID check never refuse it; a request above 4 MiB gets a framing error |
| `ProtocolSafety.PortOwnership` | apps/rust-apps/authn-scope-agent/src/client.rs:535-597 | the listener, a handler dialling or with a dialled stream, and one with a listener not yet stored exclude each other; with the dial lock free the listener is there exactly when no dial dropped it or the latest reached its rebind, rejected ones included |
| `ProtocolSafety.NoDeadlock` | apps/rust-apps/authn-scope-agent/src/client.rs:332 | no reachable state with an unfinished handler is stuck without a failure; only the workloads lock is ever waited for, and its holder waits for nobody |
| `ProtocolSafety.HandlersAreSerialised` | apps/rust-apps/authn-scope-agent/src/client.rs:332 | the workloads guard is held to the end, so while one handler is past it every other one is waiting or finished and can take no step |
| `ProtocolSafety.FreshMeansNoRequest` | apps/rust-apps/authn-scope-agent/src/client.rs:491-503 | while a cache entry is younger than half its lifetime no handler is fetching that identity, and one that looks it up can only take the entry |
| `ProtocolSafety.FetchesAreSpaced` | apps/rust-apps/authn-scope-agent/src/client.rs:493-514 | consecutive successful fetches of one identity are at least half the earlier certificate's lifetime apart, and k of them span the sum of the first k-1 half-lifetimes |
| `ProtocolSafety.FetchRate` | apps/rust-apps/authn-scope-agent/src/client.rs:599-613 | for a policy of ttl minutes the fetches of one identity span at least 30 * ttl seconds each, counted in nanoseconds, for ttl up to 71582788 |
| `ProtocolSafety.ReachableIsSafe` | apps/rust-apps/authn-scope-agent/src/client.rs:139-144 | lock, port, credential, rate, reply, key and issuance invariants hold together in every reachable state |
| `ProtocolSafety.KeysAreFresh` | apps/rust-apps/authn-scope-agent/src/csr.rs:17 | no two fetched certificates share a public key, and no two cache entries a private one |
| `ProtocolSafety.IssuedOncePerKey` | apps/rust-apps/authn-scope-server/src/handler.rs:162-173 | in the server's log, lost replies included, no two certificates share a public key, and each was asked for as the best match of some handler's peer |
| `ProtocolIssued.StepKeepsIssued` | apps/rust-apps/authn-scope-server/src/handler.rs:138-189 | every step keeps pending requests, unsent keys and the log for different keys, and each name asked for wanted by some handler's peer |
| `ProtocolKeys.StepKeepsKeys` | apps/rust-apps/authn-scope-agent/src/csr.rs:17-29 | every step keeps each handler's key pair unused by any fetched certificate |
| `ProtocolCompletion.AllHandlersCanFinish` | apps/rust-apps/authn-scope-agent/src/client.rs:287-387 | from every reachable state a run without further failures ends all handlers, in at most 42 steps for each unfinished one |
| `ProtocolCompletion.Finish` | apps/rust-apps/authn-scope-agent/src/client.rs:332 | a handler that is not blocked can be run to its end while all others stay where they are |
| `ProtocolLocks.StepKeepsLocks` | apps/rust-apps/authn-scope-agent/src/client.rs:491 | every step of any handler, the server or the clock keeps each lock with the one handler whose program point holds it |
| `ProtocolLocks.LockOrder` | apps/rust-apps/authn-scope-agent/src/client.rs:536-537 | a handler waits only for a lock above all it holds: workloads, cache, dial, listener |
| `ProtocolLocks.OthersAreFree` | apps/rust-apps/authn-scope-agent/src/client.rs:332 | a handler waiting for a taken lock is at its first one, workloads: cache, dial and listener locks are never contended |
| `ProtocolLocks.NoWaitCycle` | apps/rust-apps/authn-scope-agent/src/client.rs:536-537 | a handler that is waited for waits for nobody: no circle, no chain of two links |
| `ProtocolLocks.StepLowersRank` | apps/rust-apps/authn-scope-agent/src/client.rs:561-574 | every step of a handler, retries and early exits included, lowers a bound on its remaining steps |
| `ProtocolLocks.BoundedWork` | apps/rust-apps/authn-scope-agent/src/client.rs:287-387 | in every run each handler takes at most 41 steps of its own |
| `ProtocolPort.StepKeepsPort` | apps/rust-apps/authn-scope-agent/src/client.rs:148-176 | every step keeps the port invariant |
| `ProtocolPort.OneOwner` | apps/rust-apps/authn-scope-agent/src/client.rs:536-575 | a handler that dials or has a socket on the client port holds the dial lock, the listener is absent, and no other handler has one |
| `ProtocolData.StepKeepsData` | apps/rust-apps/authn-scope-agent/src/client.rs:527-585 | every step keeps what is known of names, answers in flight, cache entries, deliveries and issuances, for the stepping handler and all others |
| `ProtocolData.AnswerIsSound` | libs/rust-libs/authn-scope-ca/src/signing.rs:40-76 | the server's answer to a handler's own request is sound for that name and key, or reports that framing or signing failed |
| `ProtocolRate.StepKeepsRate` | apps/rust-apps/authn-scope-agent/src/client.rs:491-516 | every step keeps the fetch log spaced, the cache equal to its latest entries, and no fetch running for a fresh entry |
| `ProtocolRate.SpacedSpan` | apps/rust-apps/authn-scope-agent/src/client.rs:493-496 | spaced fetches span at least the sum of their thresholds |
| `ProtocolReplies.StepKeepsReplies` | apps/rust-apps/authn-scope-agent/src/client.rs:377-384 | every step keeps replies and outcomes in agreement |
| `ProtocolProgress.Progress` | apps/rust-apps/authn-scope-agent/src/client.rs:332 | from the invariants, an unfinished handler implies a step of some handler or the server in which nothing fails |
| `ProtocolProgress.Unblocked` | apps/rust-apps/authn-scope-agent/src/client.rs:536-537 | following waits from any unfinished handler reaches one that is not blocked |
| `Rotation.ClientNeverStale` | libs/rust-libs/authn-scope-workload/src/lib.rs:103-117 | if at every call interval + 2 * longest fetch + longest signing delay is at most half the lifetime rounded up, and one tick, a rotating client's certificate is never past its not_after in any punctual run, whenever after boot its loop starts |
| `RotationBound.PaceIsExact` | libs/rust-libs/authn-scope-workload/src/lib.rs:103-117 | for a process whose names have a lifetime and can be certified, that pace is not only enough but needed: its clients are never stale in any punctual run if and only if it is kept |
| `RotationBound.GoesStale` | apps/rust-apps/authn-scope-agent/src/client.rs:493-502 | one tick more and some punctual run ends with a stale certificate: cached as late as allowed, served in its last fresh tick, held over a sleep and two longest fetches |
| `Rotation.CellIsLatest` | libs/rust-libs/authn-scope-workload/src/lib.rs:103-117 | in every run of the composed system a client's cell is what the rotation loop leaves in it after the same rounds |
| `Rotation.WorldStepKeeps` | libs/rust-libs/authn-scope-workload/src/lib.rs:103-117 | every punctual, paced step of client, agent, server or clock keeps the freshness invariant |
| `Rotation.HitIsLongEnough` | apps/rust-apps/authn-scope-agent/src/client.rs:493-502 | a cache hit hands out at least half the lifetime, rounded up, and one tick, less the signing delay |
| `Rotation.ReturnedLasts` | libs/rust-libs/authn-scope-workload/src/lib.rs:107-115 | what a client stores lasts over its next sleep and the fetch after it |
| `WorkloadClient.WorkloadClient.RotationLoop` | libs/rust-libs/authn-scope-workload/src/lib.rs:103-117 | after any rounds the cell holds the latest success, or what it held; every round sleeps once |
| `WorkloadClient.LatestMeaning` | libs/rust-libs/authn-scope-workload/src/lib.rs:107-114 | the cell is set exactly if it was or some round succeeded, and a changed cell comes from the last successful round |
| `WorkloadClient.FetchedMeaning` | libs/rust-libs/authn-scope-workload/src/lib.rs:60-95 | a fetch succeeds exactly on a success reply, and each failure is reported as what it was |
| `AgentCode.AgentState.HandleWorkloadConn` | apps/rust-apps/authn-scope-agent/src/client.rs:287-387 | a whole handler is a walk of the protocol that leaves no lock and no descriptor but the stored listener; its outcome is fixed by the inputs: refused exactly if nothing matches or the type is not fetch, failed exactly for an unread line, bad JSON, a failed reply or the failure of the fetch, and delivered exactly if the matched peer asks, the credentials come and the reply goes out |
| `AgentCode.AgentState.ServeMatched` | apps/rust-apps/authn-scope-agent/src/client.rs:358-386 | from the match on, each outcome holds if and only if the conversation went as it says: unread line, end of stream, bad JSON, wrong type, failed fetch, failed reply, delivery |
| `AgentCode.AgentState.GetOrFetchCredentials` | apps/rust-apps/authn-scope-agent/src/client.rs:486-517 | a fresh entry is returned with no socket made and the cache as it was; otherwise the result is decided by key, dial, sending, hearing, rebind and reply, and the cache gains exactly what is returned, or nothing on error |
| `AgentCode.AgentState.FetchAndInsert` | apps/rust-apps/authn-scope-agent/src/client.rs:505-516 | request and insertion walk the protocol; a failure leaves the cache as it was |
| `AgentCode.AgentState.RequestCertOnDemand` | apps/rust-apps/authn-scope-agent/src/client.rs:520-597 | walks the protocol; each failure holds if and only if that call is the first to fail, and credentials come exactly from a certificate reply after all succeed; the listener survives exactly on success, on a key failure (unchanged), or when the reply was no certificate |
| `AgentCode.AgentState.Ask` | apps/rust-apps/authn-scope-agent/src/client.rs:535-575 | dial, exchange and rebind under the dial lock: each failure exactly if that call is the first to fail; the listener is there afterwards exactly if all three succeeded |
| `AgentCode.AgentState.Dial` | apps/rust-apps/authn-scope-agent/src/client.rs:537-540 | drops the listener and dials, successfully exactly if one of eleven rounds connects; nothing is open afterwards but the returned stream, and the pauses have passed on the clock |
| `AgentCode.AgentState.Exchange` | apps/rust-apps/authn-scope-agent/src/client.rs:542-557 | the request goes out and the reply comes back framed over bytes; it succeeds exactly if both are carried, the gate is passed and the reply is at most 4 MiB, and then gives the server's answer; the stream is dropped on every path |
| `AgentCode.AgentState.Rebind` | apps/rust-apps/authn-scope-agent/src/client.rs:559-575 | a new listener is stored exactly if one of eleven binds succeeded |
| `AgentRefinement.WalkReaches` | apps/rust-apps/authn-scope-agent/src/client.rs:268-278 | a walk of one handler from a reachable state ends in a reachable state |
| `AgentRefinement.HandlerStaysReachable` | apps/rust-apps/authn-scope-agent/src/client.rs:287-387 | whatever the handler code does for a new connection is part of a run, so what it delivers is sound and issued |
| `Boot.PerformHandshake` | apps/rust-apps/authn-scope-agent/src/client.rs:200-246 | accepted exactly if the dial connects, both frames are carried and fit, the gate is passed, and the host has the VM under the peer CID with selectors that parse; then the map is that VM's; each failure has its own exact condition; sockets and sleep are exact and the stream is closed |
| `Boot.RunAgent` | apps/rust-apps/authn-scope-agent/src/client.rs:147-198 | boots exactly if the handshake goes well and one of eleven binds succeeds, into an initial protocol state with the listener as only descriptor; else nothing is open |
| `AgentRun.Run` | apps/rust-apps/authn-scope-agent/src/client.rs:147-284 | boot and any number of connections in turn leave a reachable state with no descriptor but the stored listener, if there is one; each connection ends as its match and conversation say, and every delivery is sound and issued |
| `Exchange.Converse` | libs/rust-libs/authn-scope-proto/src/codec.rs:12-46 | the agent gets the server's answer to its own request exactly if both directions carry their frames, the gate is passed and the reply fits one |
| `Matcher.MatchWorkload` | apps/rust-apps/authn-scope-agent/src/client.rs:389-484 | flags, scoring, stable sort and first element: nothing exactly when nothing matches, else a name no match outscores |
| `Matcher.EvaluateSelector` | apps/rust-apps/authn-scope-agent/src/client.rs:400-478 | the flag loop decides exactly whether the selector matches, and its score depends on the selector alone |
| `Matcher.MatchesIff` | apps/rust-apps/authn-scope-agent/src/client.rs:406-458 | a selector matches exactly if user and group resolve to the process's ids, binary and unit path are the process's, and the unit is the named one or the named one with .service, a missing unit counting as empty |
| `Matcher.ScoreIs` | apps/rust-apps/authn-scope-agent/src/client.rs:461-478 | a match is worth 100 for a unit, 10 for a binary, 1 each for user and group |
| `Matcher.StripSuffixIff` | apps/rust-apps/authn-scope-agent/src/client.rs:446-447 | stripping a suffix gives the rest exactly if it is there, and else the text itself |
| `Matcher.SelectableIffWinner` | apps/rust-apps/authn-scope-agent/src/client.rs:399-483 | over all map iteration orders the selectable names are exactly the maximal scorers |
| `Matcher.DeterministicIff` | apps/rust-apps/authn-scope-agent/src/client.rs:399-483 | the selection is independent of iteration order exactly when at most one name is maximal |
| `Matcher.StableSortThenFirst` | apps/rust-apps/authn-scope-agent/src/client.rs:482-483 | any stable descending sort followed by first is the one-pass first maximum |
| `Matcher.SortIsStable` | apps/rust-apps/authn-scope-agent/src/client.rs:482 | the insertion sort used here is a stable descending sort |
| `SelectorScores.ScoreOrderIsPriority` | apps/rust-apps/authn-scope-agent/src/client.rs:461-477 | numeric order of scores is the lexicographic order on systemd, binary, number of user and group |
| `SelectorScores.ParsedScores` | apps/rust-apps/authn-scope-server/src/config.rs:106-113 | parsed selectors score exactly 0, 1, 2, 12, 100, 101, 102 or 112 |
| `SelectorScores.BlankMatchesEverything` | apps/rust-apps/authn-scope-agent/src/client.rs:399-405 | the empty selector text matches every process with score 0 |
| `SelectorParser.ParseSelector` | apps/rust-apps/authn-scope-server/src/config.rs:58-114 | the loop over trimmed components computes the fold and its cross-field check, errors included |
| `SelectorParser.ComponentIff` | apps/rust-apps/authn-scope-server/src/config.rs:64-103 | a component sets user, group, bin, unitname or unitpath to v exactly if it reads domain:key:v after trimming |
| `SelectorParser.ComponentFailsIff` | apps/rust-apps/authn-scope-server/src/config.rs:65-77 | a component is skipped exactly if it is all whitespace, and invalid exactly if it has fewer than two colons |
| `SelectorParser.TextSpaceIsNeutral` | apps/rust-apps/authn-scope-server/src/config.rs:64-68 | whitespace around the components of a text does not change what it parses to |
| `Text.TrimIff` | apps/rust-apps/authn-scope-server/src/config.rs:65 | trimming leaves exactly the part between the outer whitespace |
| `Text.SplitThreeIff` | apps/rust-apps/authn-scope-server/src/config.rs:70 | a three-way split gives what stands before, between and after the first two separators |
| `SelectorParser.FoldIsHomomorphism` | apps/rust-apps/authn-scope-server/src/config.rs:64-104 | parsing a, comma, b is merging both parses, b's fields winning and a's error first |
| `SelectorParser.BlankIsNeutral` | apps/rust-apps/authn-scope-server/src/config.rs:65-68 | blank components change nothing on either side |
| `SelectorParser.OrderDoesNotMatter` | apps/rust-apps/authn-scope-server/src/config.rs:64-104 | components with distinct fields may be permuted |
| `SelectorParser.TextOrderDoesNotMatter` | apps/rust-apps/authn-scope-server/src/config.rs:58-114 | a selector text with its components reordered parses to the same record, if their fields are distinct |
| `SelectorParser.FoldMeaning` | apps/rust-apps/authn-scope-server/src/config.rs:79-103 | the fold succeeds exactly when every component is blank or well formed, and each field is the last value given |
| `SelectorParser.ParsePrint` | apps/rust-apps/authn-scope-server/src/config.rs:58-114 | parsing the canonical text of a canonical record returns it, colons in values included |
| `SelectorParser.ParserRange` | apps/rust-apps/authn-scope-server/src/config.rs:106-113 | the records some text parses to are exactly the canonical ones |
| `SelectorParser.ReprintReparse` | apps/rust-apps/authn-scope-server/src/config.rs:58-114 | printing what was parsed and parsing again is the identity |
| `SelectorParser.RejectedIff` | apps/rust-apps/authn-scope-server/src/config.rs:71-108 | a text is rejected exactly for an unreadable component or a binary without user or group |
| `Policy.Load` | apps/rust-apps/authn-scope-server/src/config.rs:119-140 | a configuration loads exactly when its port is below 1000 and every selector parses; an error names a real culprit |
| `Policy.ValidityExactIff` | apps/rust-apps/authn-scope-server/src/policy.rs:22 | the 32-bit product is the intended number of seconds exactly up to 71582788 minutes |
| `Policy.Resolve` | apps/rust-apps/authn-scope-server/src/policy.rs:18-29 | resolves exactly the registered pairs, to the VM's CID and IP and the identity's lifetime |
| `Server.RunListener` | apps/rust-apps/authn-scope-server/src/listener.rs:26-54 | a handler is spawned for exactly the accepted connections from the configured peer port |
| `Server.BuildWorkloads` | apps/rust-apps/authn-scope-server/src/handler.rs:90-110 | the insertion loop yields the full map exactly when every selector parses |
| `Server.Decide` | apps/rust-apps/authn-scope-server/src/handler.rs:56-190 | every request gets the answer the policy, CID and signer determine; a CID mismatch or signing fault is returned as an error, all other refusals are sent |
| `Server.OnlyVersionOne` | apps/rust-apps/authn-scope-server/src/handler.rs:57-66 | any version but 1 is refused as such, and version 1 never is |
| `Server.HandleInner` | apps/rust-apps/authn-scope-server/src/handler.rs:44-194 | one frame is written for a decided reply; a bad frame, CID mismatch or signing fault is returned with nothing written |
| `Server.HandleConnection` | apps/rust-apps/authn-scope-server/src/handler.rs:21-42 | for every input and chunking exactly one response frame goes out, or as much of it as the peer takes |
| `Server.HandshakeOfValidated` | apps/rust-apps/authn-scope-server/src/handler.rs:90-112 | with a validated configuration a handshake never meets a selector error and sends exactly the VM's names, selectors and resolved lifetimes |
| `Server.HandshakeNamesAreIssued` | apps/rust-apps/authn-scope-server/src/handler.rs:138-174 | a request for a name of the handshake map can fail only in signing, exactly when signing is impossible |
| `Server.IssuedOnlyToRegistered` | apps/rust-apps/authn-scope-server/src/handler.rs:138-160 | certificates go only to registered identities of a VM calling from its CID, for the requester's key |
| `Server.ExchangeOverBytes` | libs/rust-libs/authn-scope-proto/src/codec.rs:31-46 | framed over bytes, at any length, the server answers the request that was sent or reports a bad frame |
| `Server.ReplyArrivesIff` | libs/rust-libs/authn-scope-proto/src/codec.rs:31-46 | however much of a reply arrives, it is decoded exactly if all of it did and it is at most 4 MiB |
| `Pki.SignCsr` | libs/rust-libs/authn-scope-ca/src/signing.rs:31-78 | signing fails for exactly the first fault in order; otherwise the requester's subject and key are kept and all else is the CA's |
| `Pki.IssuedCertificate` | libs/rust-libs/authn-scope-ca/src/signing.rs:44-69 | an issued certificate has the identity as only DNS name, the VM's address, if any, as only IP address, both roles, and a validity from the current second |
| `Pki.SigningFaultMeaning` | libs/rust-libs/authn-scope-ca/src/signing.rs:40-76 | the reasons signing fails for, and which of them wins |
| `Pki.GenerateCsr` | apps/rust-apps/authn-scope-agent/src/csr.rs:16-29 | the request names the identity as common name and carries the public half of the returned key |
| `Pki.EvaluatedIdentityIff` | libs/rust-libs/authn-scope-evaluator/src/lib.rs:24-51 | a signed certificate evaluates to the requested identity exactly when the request's subject already named it and the CA's certificate and key belong together; if they do not, it fails as a bad signature |
| `Pki.FirstCommonNameIff` | libs/rust-libs/authn-scope-evaluator/src/lib.rs:43-50 | the common name is that of the entry of that type, others being passed over |
| `Pki.EvaluateMeaning` | libs/rust-libs/authn-scope-evaluator/src/lib.rs:24-51 | each refusal of the evaluator has exactly its reason, and else it returns the subject's common name |
| `Pki.SignerKeepsForeignSubject` | libs/rust-libs/authn-scope-evaluator/src/lib.rs:65-96 | a default-parameter request signed for peer-service never evaluates to that name, whatever the IP, contrary to the evaluator's own unit test |
| `Pki.WholeSecondsLater` | libs/rust-libs/authn-scope-ca/src/signing.rs:67-69 | not_after is not_before plus the lifetime although both are cut to whole seconds |
| `Pki.ValidityMeaning` | apps/rust-apps/authn-scope-agent/src/client.rs:599-613 | a readable certificate's lifetime is from its first to its last second, an unreadable one's ten minutes |
| `Codec.ByteSource.ReadExact` | libs/rust-libs/authn-scope-proto/src/codec.rs:31-32 | fills the buffer under any chunking, or consumes everything and fails |
| `Codec.ByteSource.RecvFrame` | libs/rust-libs/authn-scope-proto/src/codec.rs:26-44 | returns and consumes exactly what the framing says, under any chunking |
| `Codec.ByteSink.WriteAll` | libs/rust-libs/authn-scope-proto/src/codec.rs:19-20 | everything goes out, or everything that fits does and the write fails |
| `Codec.ByteSink.SendFrame` | libs/rust-libs/authn-scope-proto/src/codec.rs:12-23 | the frame goes out whole, or as far as it fits |
| `Codec.HeaderIsLengthMod32` | libs/rust-libs/authn-scope-proto/src/codec.rs:18-19 | the receiver reads from a sent header the length modulo 2^32 |
| `Codec.HeaderBytes` | libs/rust-libs/authn-scope-proto/src/codec.rs:17-20 | a frame is the four bytes of the length, the most significant first, and then the payload |
| `Codec.HeaderValue` | libs/rust-libs/authn-scope-proto/src/codec.rs:31-33 | four bytes are read as a big-endian number |
| `Codec.RoundTripIff` | libs/rust-libs/authn-scope-proto/src/codec.rs:35-41 | a payload comes back exactly when it is at most 4194304 bytes; longer ones below 2^32 are refused after four bytes |
| `Codec.FramesDecode` | libs/rust-libs/authn-scope-proto/src/codec.rs:31-45 | repeated receives over concatenated frames return the payloads and consume exactly their bytes |
| `Codec.UniquelyDecodable` | libs/rust-libs/authn-scope-proto/src/codec.rs:17-21 | different message lists never have the same bytes |
| `Codec.NoPrefixDecodes` | libs/rust-libs/authn-scope-proto/src/codec.rs:31-44 | no strict prefix of a frame decodes |
| `Codec.ReceivePrefix` | libs/rust-libs/authn-scope-proto/src/codec.rs:31-44 | nothing is received before all that the header announces is there; then it is that much of the payload |
| `Retry.ConnectWithLocalPort` | apps/rust-apps/authn-scope-agent/src/client.rs:32-110 | against any kernel at most one socket outlives the call, the returned one; sockets and sleep are exact |
| `Retry.TriesMeaning` | apps/rust-apps/authn-scope-agent/src/client.rs:96-104 | the tries of a dial are its busy rounds plus one, cut off at eleven |
| `Retry.DialSucceedsIff` | apps/rust-apps/authn-scope-agent/src/client.rs:34-109 | a dial succeeds exactly when one of eleven rounds connects after only busy ones |
| `Retry.ConnectForHandshake` | apps/rust-apps/authn-scope-agent/src/client.rs:207-220 | nothing stays open but the returned stream; dials, sockets and sleep are exact |
| `Retry.DialRoundsMeaning` | apps/rust-apps/authn-scope-agent/src/client.rs:207-220 | the handshake stops at the first dial that succeeds, and fails exactly after sixteen that do not |
| `Retry.HandshakeBounds` | apps/rust-apps/authn-scope-agent/src/client.rs:207-220 | at most 16 dials, 176 sockets and 23500 ms of sleep |
| `Retry.HandshakeBoundsAttained` | apps/rust-apps/authn-scope-agent/src/client.rs:207-220 | a kernel that always finds the port in use makes it 16 dials, 176 sockets and 23500 ms of sleep |
| `Retry.BindWithRetries` | apps/rust-apps/authn-scope-agent/src/client.rs:561-574 | a listener is bound exactly if one of eleven attempts succeeds |

## Left out

- Cryptography, DER and PEM: a private key is a number, its public half the same number, and PEM text either decodes
  to a record or does not.
- JSON texts: encoding and decoding are a pair of functions. Where a whole exchange is considered they are assumed
  inverse, and a text cut short is assumed not to decode, as every message is one JSON object.
- Error texts: a message is the reason it reports.
- The contents of `/proc`, cgroup files and the peer credentials: they are the process record a handler starts with.
- User and group databases: two maps for each connection, which do not change during its match.
- IP address parsing: a parameter of the server.
- CA files, their creation and permissions; both `main` functions; the profiler; test workloads; logging; Nix modules.
- The Go client and evaluator, which repeat the Rust ones.
- Reading errors other than the end of a stream, in the byte sources of the codec.
- Changes of the host configuration while the agent runs.
- AgentCode.AgentState.HandleWorkloadConn: speaks of one connection handled without others in between. From the
  workloads lock to its release no other handler can take a step, by `ProtocolSafety.HandlersAreSerialised`.
- AgentRun.Run: handles its connections one after the other; interleavings are the protocol's matter.
- Rotation.ClientNeverStale: speaks of `not_after` only, and says nothing about a client whose fetch fails or is late.
