/**
 The agent's workload selection: match every configured selector against the connecting process, score the
 matches, sort by descending score (stably) and take the first.
 */
module Matcher {
  import opened Wrappers
  import opened Selectors

  /** What the agent learns about the peer of a connection. */
  datatype Process = Process(uid: u32, gid: u32, binPath: Option<string>, unitpath: Option<string>,
                             unitname: Option<string>)

  /** The user and group databases, held fixed during one match. */
  datatype Accounts = Accounts(users: map<string, u32>, groups: map<string, u32>)

  datatype Candidate = Candidate(score: nat, name: string)

  const SERVICE_SUFFIX := ".service"

  function StripSuffix(s: string, suffix: string): string {
    if |suffix| <= |s| && s[|s| - |suffix|..] == suffix then s[..|s| - |suffix|] else s
  }

  function Lookup(m: map<string, u32>, name: string): Option<u32> {
    if name in m then Some(m[name]) else None
  }

  function OrEmpty(o: Option<string>): string {
    if o.Some? then o.value else ""
  }

  // ---- What it means for a selector to match, and what a match is worth ----

  predicate UnixMatches(u: UnixSelector, p: Process, db: Accounts) {
    && (u.user.Some? ==> Lookup(db.users, u.user.value) == Some(p.uid))
    && (u.group.Some? ==> Lookup(db.groups, u.group.value) == Some(p.gid))
    && (u.binPath.Some? ==> u.binPath == p.binPath)
  }

  predicate UnitNameMatches(wanted: string, p: Process) {
    var actual := OrEmpty(p.unitname);
    wanted == actual || wanted == StripSuffix(actual, SERVICE_SUFFIX)
  }

  predicate SystemdMatches(s: SystemdSelector, p: Process) {
    && (s.unitpath.Some? ==> s.unitpath == p.unitpath)
    && (s.unitname.Some? ==> UnitNameMatches(s.unitname.value, p))
  }

  predicate Matches(sel: SelectorConfig, p: Process, db: Accounts) {
    && (sel.unix.Some? ==> UnixMatches(sel.unix.value, p, db))
    && (sel.systemd.Some? ==> SystemdMatches(sel.systemd.value, p))
  }

  predicate NamesUnit(sel: SelectorConfig) {
    sel.systemd.Some? && (sel.systemd.value.unitpath.Some? || sel.systemd.value.unitname.Some?)
  }

  predicate NamesBin(sel: SelectorConfig) {
    sel.unix.Some? && sel.unix.value.binPath.Some?
  }

  /** How many of user and group the selector names. */
  function NamedAccounts(sel: SelectorConfig): nat {
    if sel.unix.None? then 0
    else (if sel.unix.value.user.Some? then 1 else 0) + (if sel.unix.value.group.Some? then 1 else 0)
  }

  /** The score of a matching selector. It does not mention the process. */
  function Score(sel: SelectorConfig): nat {
    (if NamesUnit(sel) then 100 else 0) + (if NamesBin(sel) then 10 else 0) + NamedAccounts(sel)
  }

  /** A name no matching entry outscores. */
  ghost predicate Winner(workloads: map<string, WorkloadConfig>, p: Process, db: Accounts, name: string) {
    && name in workloads && Matches(workloads[name].selector, p, db)
    && forall other :: other in workloads && Matches(workloads[other].selector, p, db) ==>
                         Score(workloads[other].selector) <= Score(workloads[name].selector)
  }

  /** `order` is one of the orders in which a hash map may be iterated. */
  ghost predicate IterationOrder(order: seq<string>, workloads: map<string, WorkloadConfig>) {
    && (forall i, j :: 0 <= i < j < |order| ==> order[i] != order[j])
    && forall name :: name in order <==> name in workloads
  }

  /** A suffix is stripped once, and only if it is there. */
  lemma StripSuffixIff(s: string, suffix: string, x: string)
    ensures StripSuffix(s, suffix) == x <==> s == x + suffix || (s == x && forall y :: s != y + suffix)
  {
    if |suffix| <= |s| && s[|s| - |suffix|..] == suffix {
      assert s == s[..|s| - |suffix|] + suffix;
    } else {
      forall y ensures s != y + suffix {
        assert (y + suffix)[|y|..] == suffix;
      }
    }
    assert (x + suffix)[..|x|] == x && (x + suffix)[|x|..] == suffix;
  }

  /** A unit name is matched as it is or without ".service"; a process without a unit has the empty name. */
  lemma UnitNameIff(wanted: string, p: Process)
    ensures UnitNameMatches(wanted, p) <==>
              match p.unitname
              case Some(unit) => unit == wanted || unit == wanted + ".service"
              case None => wanted == ""
  {
    hide StripSuffix;
    var actual := OrEmpty(p.unitname);
    StripSuffixIff(actual, SERVICE_SUFFIX, wanted);
    assert SERVICE_SUFFIX == ".service" && |wanted + ".service"| > 0;
    assert UnitNameMatches(wanted, p) <==> actual == wanted || actual == wanted + ".service";
  }

  /** In plain terms, when a selector matches: every part it names is what the process has. */
  lemma MatchesIff(sel: SelectorConfig, p: Process, db: Accounts)
    ensures Matches(sel, p, db) <==>
              && (sel.unix.Some? ==>
                    var u := sel.unix.value;
                    && (u.user.Some? ==> u.user.value in db.users && db.users[u.user.value] == p.uid)
                    && (u.group.Some? ==> u.group.value in db.groups && db.groups[u.group.value] == p.gid)
                    && (u.binPath.Some? ==> p.binPath == Some(u.binPath.value)))
              && (sel.systemd.Some? ==>
                    var s := sel.systemd.value;
                    && (s.unitpath.Some? ==> p.unitpath == Some(s.unitpath.value))
                    && (s.unitname.Some? ==>
                          || p.unitname == Some(s.unitname.value) || p.unitname == Some(s.unitname.value + ".service")
                          || (p.unitname == None && s.unitname.value == "")))
  {
    hide UnitNameMatches;
    if sel.systemd.Some? && sel.systemd.value.unitname.Some? {
      UnitNameIff(sel.systemd.value.unitname.value, p);
    }
  }

  /** In plain terms, what a matching selector is worth. */
  lemma ScoreIs(sel: SelectorConfig)
    ensures var unix, systemd := sel.unix, sel.systemd;
            Score(sel) ==
            (if systemd.Some? && (systemd.value.unitpath.Some? || systemd.value.unitname.Some?) then 100 else 0)
            + (if unix.Some? && unix.value.binPath.Some? then 10 else 0)
            + (if unix.Some? && unix.value.user.Some? then 1 else 0)
            + (if unix.Some? && unix.value.group.Some? then 1 else 0)
  {}

  // ---- The algorithm ----

  /** The body of the matching loop, with its flags, for one selector. */
  method EvaluateSelector(sel: SelectorConfig, p: Process, db: Accounts) returns (matches: bool, score: nat)
    ensures matches <==> Matches(sel, p, db)
    ensures matches ==> score == Score(sel)
  {
    matches := true;
    var systemdMatched, binPathMatched, uidMatched, gidMatched := false, false, false, false;
    if sel.unix.Some? {
      var unix := sel.unix.value;
      if unix.user.Some? {
        if Lookup(db.users, unix.user.value) != Some(p.uid) { matches := false; } else { uidMatched := true; }
      }
      if unix.group.Some? {
        if Lookup(db.groups, unix.group.value) != Some(p.gid) { matches := false; } else { gidMatched := true; }
      }
      if unix.binPath.Some? {
        if unix.binPath != p.binPath { matches := false; } else { binPathMatched := true; }
      }
    }
    if sel.systemd.Some? {
      var systemd := sel.systemd.value;
      var hasSelector, systemdMatches := false, true;
      if systemd.unitpath.Some? {
        hasSelector := true;
        if systemd.unitpath != p.unitpath { systemdMatches := false; }
      }
      if systemd.unitname.Some? {
        hasSelector := true;
        var procName := OrEmpty(p.unitname);
        var stripped := StripSuffix(procName, SERVICE_SUFFIX);
        if systemd.unitname.value != procName && systemd.unitname.value != stripped { systemdMatches := false; }
      }
      if hasSelector {
        if systemdMatches { systemdMatched := true; } else { matches := false; }
      }
    }
    score := 0;
    if systemdMatched { score := score + 100; }
    if binPathMatched { score := score + 10; }
    if uidMatched { score := score + 1; }
    if gidMatched { score := score + 1; }
  }

  function Candidates(order: seq<string>, workloads: map<string, WorkloadConfig>, p: Process,
                      db: Accounts): seq<Candidate>
    requires forall i :: 0 <= i < |order| ==> order[i] in workloads
  {
    if order == [] then []
    else
      var last := order[|order| - 1];
      var front := Candidates(order[..|order| - 1], workloads, p, db);
      if Matches(workloads[last].selector, p, db) then front + [Candidate(Score(workloads[last].selector), last)]
      else front
  }

  /** Stable insertion by descending score: a newcomer goes behind its equals. */
  function InsertDescending(sorted: seq<Candidate>, c: Candidate): seq<Candidate> {
    if sorted == [] then [c]
    else if sorted[|sorted| - 1].score >= c.score then sorted + [c]
    else InsertDescending(sorted[..|sorted| - 1], c) + [sorted[|sorted| - 1]]
  }

  function SortDescending(s: seq<Candidate>): seq<Candidate> {
    if s == [] then [] else InsertDescending(SortDescending(s[..|s| - 1]), s[|s| - 1])
  }

  /** The name selected when the workload map is iterated in the given order. */
  function Select(order: seq<string>, workloads: map<string, WorkloadConfig>, p: Process, db: Accounts): Option<string>
    requires forall i :: 0 <= i < |order| ==> order[i] in workloads
  {
    var sorted := SortDescending(Candidates(order, workloads, p, db));
    if sorted == [] then None else Some(sorted[0].name)
  }

  method MatchWorkload(workloads: map<string, WorkloadConfig>, order: seq<string>, p: Process, db: Accounts)
    returns (r: Option<string>)
    requires IterationOrder(order, workloads)
    ensures r == Select(order, workloads, p, db)
    ensures r.None? <==> forall name :: name in workloads ==> !Matches(workloads[name].selector, p, db)
    ensures r.Some? ==> Winner(workloads, p, db, r.value)
  {
    var candidates: seq<Candidate> := [];
    for i := 0 to |order|
      invariant candidates == Candidates(order[..i], workloads, p, db)
    {
      assert order[..i + 1][..i] == order[..i];
      var matches, score := EvaluateSelector(workloads[order[i]].selector, p, db);
      if matches {
        candidates := candidates + [Candidate(score, order[i])];
      }
    }
    assert order[..|order|] == order;
    var sorted: seq<Candidate> := [];
    for i := 0 to |candidates|
      invariant sorted == SortDescending(candidates[..i])
    {
      assert candidates[..i + 1][..i] == candidates[..i];
      sorted := InsertDescending(sorted, candidates[i]);
    }
    assert candidates[..|candidates|] == candidates;
    r := if sorted == [] then None else Some(sorted[0].name);
    SelectIsArgmax(order, workloads, p, db);
  }

  // ---- Sorting and taking the first is taking the first maximum ----

  predicate Descending(s: seq<Candidate>) {
    forall i, j :: 0 <= i < j < |s| ==> s[i].score >= s[j].score
  }

  function WithScore(s: seq<Candidate>, score: nat): seq<Candidate> {
    if s == [] then []
    else if s[|s| - 1].score == score then WithScore(s[..|s| - 1], score) + [s[|s| - 1]]
    else WithScore(s[..|s| - 1], score)
  }

  /** What any stable descending sort guarantees: ordered, and equals keep their input order. */
  ghost predicate StableDescendingSort(input: seq<Candidate>, output: seq<Candidate>) {
    && Descending(output)
    && forall score: nat :: WithScore(output, score) == WithScore(input, score)
  }

  /** One pass keeping the first best. */
  function FirstMaximum(s: seq<Candidate>): Option<Candidate> {
    if s == [] then None
    else
      var best := FirstMaximum(s[..|s| - 1]);
      var c := s[|s| - 1];
      if best.None? || best.value.score < c.score then Some(c) else best
  }

  lemma {:induction false} InsertKeepsOrder(sorted: seq<Candidate>, c: Candidate)
    requires Descending(sorted)
    ensures Descending(InsertDescending(sorted, c))
    ensures forall x :: x in InsertDescending(sorted, c) ==> x in sorted || x == c
  {
    if sorted != [] && sorted[|sorted| - 1].score < c.score {
      var front := InsertDescending(sorted[..|sorted| - 1], c);
      InsertKeepsOrder(sorted[..|sorted| - 1], c);
      forall i | 0 <= i < |front| ensures front[i].score >= sorted[|sorted| - 1].score {
        assert front[i] in front;
      }
    }
  }

  lemma {:induction false} InsertKeepsBlocks(sorted: seq<Candidate>, c: Candidate, score: nat)
    ensures WithScore(InsertDescending(sorted, c), score) ==
            WithScore(sorted, score) + if c.score == score then [c] else []
  {
    var r := InsertDescending(sorted, c);
    if sorted == [] || sorted[|sorted| - 1].score >= c.score {
      assert r[..|r| - 1] == sorted;
    } else {
      assert r[..|r| - 1] == InsertDescending(sorted[..|sorted| - 1], c);
      InsertKeepsBlocks(sorted[..|sorted| - 1], c, score);
    }
  }

  lemma {:induction false} SortIsStable(s: seq<Candidate>)
    ensures StableDescendingSort(s, SortDescending(s))
  {
    if s != [] {
      var n := |s| - 1;
      SortIsStable(s[..n]);
      InsertKeepsOrder(SortDescending(s[..n]), s[n]);
      forall score: nat ensures WithScore(SortDescending(s), score) == WithScore(s, score) {
        InsertKeepsBlocks(SortDescending(s[..n]), s[n], score);
      }
    }
  }

  lemma {:induction false} WithScoreFirst(s: seq<Candidate>, c: Candidate)
    ensures c in WithScore(s, c.score) <==> c in s
    ensures forall score: nat, x :: x in WithScore(s, score) ==> x in s && x.score == score
    ensures s != [] ==> WithScore(s, s[0].score) != [] && WithScore(s, s[0].score)[0] == s[0]
  {
    if s != [] {
      var front := s[..|s| - 1];
      assert s == front + [s[|s| - 1]];
      WithScoreFirst(front, c);
      if front == [] {
        assert WithScore(front, s[0].score) == [];
      }
    }
  }

  lemma {:induction false} FirstMaximumIsMax(s: seq<Candidate>)
    ensures FirstMaximum(s).None? <==> s == []
    ensures FirstMaximum(s).Some? ==>
              FirstMaximum(s).value in s && forall i :: 0 <= i < |s| ==> s[i].score <= FirstMaximum(s).value.score
  {
    if s != [] {
      FirstMaximumIsMax(s[..|s| - 1]);
    }
  }

  lemma {:induction false} NoneWithHigherScore(s: seq<Candidate>, score: nat)
    requires forall i :: 0 <= i < |s| ==> s[i].score < score
    ensures WithScore(s, score) == []
  {
    if s != [] {
      NoneWithHigherScore(s[..|s| - 1], score);
    }
  }

  lemma {:induction false} FirstMaximumIsFirst(s: seq<Candidate>)
    requires s != []
    ensures FirstMaximum(s).Some?
    ensures var c := FirstMaximum(s).value;
            WithScore(s, c.score) != [] && WithScore(s, c.score)[0] == c
  {
    var front, last := s[..|s| - 1], s[|s| - 1];
    FirstMaximumIsMax(front);
    if front == [] || FirstMaximum(front).value.score < last.score {
      NoneWithHigherScore(front, last.score);
    } else {
      FirstMaximumIsFirst(front);
    }
  }

  lemma FirstMaximumMeaning(s: seq<Candidate>)
    ensures FirstMaximum(s).None? <==> s == []
    ensures FirstMaximum(s).Some? ==>
              var c := FirstMaximum(s).value;
              && c in s && (forall x :: x in s ==> x.score <= c.score)
              && WithScore(s, c.score) != [] && WithScore(s, c.score)[0] == c
  {
    FirstMaximumIsMax(s);
    if s != [] {
      FirstMaximumIsFirst(s);
    }
  }

  /** Whatever stable descending sort is used, its first element is the one-pass first maximum. */
  lemma StableSortThenFirst(input: seq<Candidate>, output: seq<Candidate>)
    requires StableDescendingSort(input, output)
    ensures output == [] <==> input == []
    ensures output != [] ==> FirstMaximum(input) == Some(output[0])
  {
    FirstMaximumMeaning(input);
    if input != [] {
      var m := FirstMaximum(input).value;
      WithScoreFirst(output, m);
      WithScoreFirst(input, m);
      assert m in WithScore(input, m.score);
      assert m in output;
      var top := output[0];
      WithScoreFirst(input, top);
      assert top in WithScore(output, top.score);
      assert top in input;
      assert top.score == m.score;
    } else if output != [] {
      WithScoreFirst(output, output[0]);
      WithScoreFirst(input, output[0]);
      assert false;
    }
  }

  // ---- Argmax over every iteration order ----

  lemma {:induction false} CandidatesMeaning(order: seq<string>, workloads: map<string, WorkloadConfig>, p: Process,
                                             db: Accounts, c: Candidate)
    requires forall i :: 0 <= i < |order| ==> order[i] in workloads
    ensures c in Candidates(order, workloads, p, db) <==>
            && c.name in order && Matches(workloads[c.name].selector, p, db)
            && c.score == Score(workloads[c.name].selector)
  {
    hide Matches, Score;
    if order != [] {
      var front := order[..|order| - 1];
      assert order == front + [order[|order| - 1]];
      CandidatesMeaning(front, workloads, p, db, c);
    }
  }

  /** In every iteration order: no selection exactly when nothing matches, and any selection is a winner. */
  lemma SelectIsArgmax(order: seq<string>, workloads: map<string, WorkloadConfig>, p: Process, db: Accounts)
    requires IterationOrder(order, workloads)
    ensures var r := Select(order, workloads, p, db);
            && (r.None? <==> forall name :: name in workloads ==> !Matches(workloads[name].selector, p, db))
            && (r.Some? ==> Winner(workloads, p, db, r.value))
  {
    hide Matches, Score;
    var cs := Candidates(order, workloads, p, db);
    SortIsStable(cs);
    StableSortThenFirst(cs, SortDescending(cs));
    FirstMaximumMeaning(cs);
    forall name | name in workloads && Matches(workloads[name].selector, p, db)
      ensures Candidate(Score(workloads[name].selector), name) in cs
    {
      CandidatesMeaning(order, workloads, p, db, Candidate(Score(workloads[name].selector), name));
    }
    if cs != [] {
      CandidatesMeaning(order, workloads, p, db, FirstMaximum(cs).value);
    }
  }

  /** Every winner is what some iteration order selects: the one that visits it first. */
  lemma EveryWinnerIsSelected(workloads: map<string, WorkloadConfig>, p: Process, db: Accounts, name: string)
    returns (order: seq<string>)
    requires Winner(workloads, p, db, name)
    ensures IterationOrder(order, workloads) && Select(order, workloads, p, db) == Some(name)
  {
    hide Matches, Score;
    var rest := Enumerate(workloads.Keys - {name});
    order := [name] + rest;
    assert forall i :: 0 <= i < |rest| ==> rest[i] in rest;
    var cs := Candidates(order, workloads, p, db);
    var c := Candidate(Score(workloads[name].selector), name);
    FirstCandidate(name, rest, workloads, p, db);
    forall x | x in cs ensures x.score <= c.score {
      CandidatesMeaning(order, workloads, p, db, x);
    }
    SortIsStable(cs);
    StableSortThenFirst(cs, SortDescending(cs));
    FirstMaximumMeaning(cs);
    WithScoreFirst(cs, c);
  }

  lemma {:induction false} FirstCandidate(name: string, rest: seq<string>, workloads: map<string, WorkloadConfig>,
                                          p: Process, db: Accounts)
    requires name in workloads && Matches(workloads[name].selector, p, db)
    requires forall i :: 0 <= i < |rest| ==> rest[i] in workloads
    ensures var cs := Candidates([name] + rest, workloads, p, db);
            cs != [] && cs[0] == Candidate(Score(workloads[name].selector), name)
  {
    hide Matches, Score;
    var order := [name] + rest;
    if rest == [] {
      assert order[..0] == [];
    } else {
      assert order[..|order| - 1] == [name] + rest[..|rest| - 1];
      FirstCandidate(name, rest[..|rest| - 1], workloads, p, db);
    }
  }

  lemma {:induction false} Enumerate(s: set<string>) returns (order: seq<string>)
    ensures forall i, j :: 0 <= i < j < |order| ==> order[i] != order[j]
    ensures forall x :: x in order <==> x in s
    decreases s
  {
    if s == {} {
      order := [];
    } else {
      var x :| x in s;
      var rest := Enumerate(s - {x});
      order := [x] + rest;
    }
  }

  /** The names that can be selected, over all iteration orders, are exactly the winners. */
  lemma SelectableIffWinner(workloads: map<string, WorkloadConfig>, p: Process, db: Accounts, name: string)
    ensures Winner(workloads, p, db, name)
            <==> exists order :: IterationOrder(order, workloads) && Select(order, workloads, p, db) == Some(name)
  {
    hide Matches, Score, Select;
    if Winner(workloads, p, db, name) {
      var order := EveryWinnerIsSelected(workloads, p, db, name);
    }
    if order :| IterationOrder(order, workloads) && Select(order, workloads, p, db) == Some(name) {
      SelectIsArgmax(order, workloads, p, db);
    }
  }

  /** The selection is independent of the iteration order exactly when there is at most one winner. */
  lemma DeterministicIff(workloads: map<string, WorkloadConfig>, p: Process, db: Accounts)
    ensures (forall o1, o2 :: IterationOrder(o1, workloads) && IterationOrder(o2, workloads) ==>
                                Select(o1, workloads, p, db) == Select(o2, workloads, p, db))
            <==> (forall n1, n2 :: Winner(workloads, p, db, n1) && Winner(workloads, p, db, n2) ==> n1 == n2)
  {
    hide Select, Matches, Score;
    if forall n1, n2 :: Winner(workloads, p, db, n1) && Winner(workloads, p, db, n2) ==> n1 == n2 {
      forall o1, o2 | IterationOrder(o1, workloads) && IterationOrder(o2, workloads)
        ensures Select(o1, workloads, p, db) == Select(o2, workloads, p, db)
      {
        SelectIsArgmax(o1, workloads, p, db);
        SelectIsArgmax(o2, workloads, p, db);
      }
    } else {
      var n1, n2 :| Winner(workloads, p, db, n1) && Winner(workloads, p, db, n2) && n1 != n2;
      var o1 := EveryWinnerIsSelected(workloads, p, db, n1);
      var o2 := EveryWinnerIsSelected(workloads, p, db, n2);
    }
  }
}
