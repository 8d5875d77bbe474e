/**
 The server's selector parser: comma-separated `domain:key:value` components, trimmed, blank ones skipped,
 the last value of a field winning, and one cross-field check at the end.
 */
module SelectorParser {
  import opened Wrappers
  import opened Selectors
  import Text

  datatype ParseError =
    | InvalidComponent(part: string)
    | UnknownComponent(part: string)
    | BinWithoutUserAndGroup

  /** The parser's four mutable variables. */
  datatype Draft = Draft(unix: UnixSelector, systemd: SystemdSelector, hasUnix: bool, hasSystemd: bool)

  datatype Field = User | Group | Bin | UnitName | UnitPath

  const BLANK := Draft(UnixSelector(None, None, None), SystemdSelector(None, None), false, false)

  function FieldOf(domain: string, key: string): Option<Field> {
    match (domain, key)
    case ("unix", "user") => Some(User)
    case ("unix", "group") => Some(Group)
    case ("unix", "bin") => Some(Bin)
    case ("systemd", "unitname") => Some(UnitName)
    case ("systemd", "unitpath") => Some(UnitPath)
    case _ => None
  }

  function Get(d: Draft, f: Field): Option<string> {
    match f
    case User => d.unix.user
    case Group => d.unix.group
    case Bin => d.unix.binPath
    case UnitName => d.systemd.unitname
    case UnitPath => d.systemd.unitpath
  }

  function Set(d: Draft, f: Field, v: string): Draft {
    match f
    case User => d.(unix := d.unix.(user := Some(v)), hasUnix := true)
    case Group => d.(unix := d.unix.(group := Some(v)), hasUnix := true)
    case Bin => d.(unix := d.unix.(binPath := Some(v)), hasUnix := true)
    case UnitName => d.(systemd := d.systemd.(unitname := Some(v)), hasSystemd := true)
    case UnitPath => d.(systemd := d.systemd.(unitpath := Some(v)), hasSystemd := true)
  }

  /** What one comma-separated piece says: nothing, a field and its value, or an error. */
  datatype Component = Neutral | Sets(field: Field, value: string)

  function ReadComponent(piece: string): Result<Component, ParseError> {
    var part := Text.Trim(piece);
    if part == "" then Ok(Neutral)
    else
      var sub := Text.SplitN(part, 3, ':');
      if |sub| < 3 then Err(InvalidComponent(part))
      else match FieldOf(sub[0], sub[1])
        case Some(f) => Ok(Sets(f, sub[2]))
        case None => Err(UnknownComponent(part))
  }

  function Absorb(d: Draft, piece: string): Result<Draft, ParseError> {
    match ReadComponent(piece)
    case Err(e) => Err(e)
    case Ok(Neutral) => Ok(d)
    case Ok(Sets(f, v)) => Ok(Set(d, f, v))
  }

  /** The loop over the pieces, left to right, stopping at the first error. */
  function Fold(pieces: seq<string>): Result<Draft, ParseError> {
    if pieces == [] then Ok(BLANK)
    else
      match Fold(pieces[..|pieces| - 1])
      case Err(e) => Err(e)
      case Ok(d) => Absorb(d, pieces[|pieces| - 1])
  }

  function FoldText(selector: string): Result<Draft, ParseError> {
    Fold(Text.Split(selector, ','))
  }

  function Finish(d: Draft): Result<SelectorConfig, ParseError> {
    if d.unix.binPath.Some? && (d.unix.user.None? || d.unix.group.None?) then Err(BinWithoutUserAndGroup)
    else Ok(SelectorConfig(if d.hasUnix then Some(d.unix) else None, if d.hasSystemd then Some(d.systemd) else None))
  }

  function Parse(selector: string): Result<SelectorConfig, ParseError> {
    match FoldText(selector)
    case Err(e) => Err(e)
    case Ok(d) => Finish(d)
  }

  /** The match on (domain, key): one assignment to the parser's variables, or an unknown component. */
  method AssignField(before: Draft, domain: string, key: string, value: string) returns (known: bool, after: Draft)
    ensures known <==> FieldOf(domain, key).Some?
    ensures after == if known then Set(before, FieldOf(domain, key).value, value) else before
  {
    var unix, systemd := before.unix, before.systemd;
    var hasUnix, hasSystemd := before.hasUnix, before.hasSystemd;
    known := true;
    match (domain, key) {
      case ("unix", "user") => unix, hasUnix := unix.(user := Some(value)), true;
      case ("unix", "group") => unix, hasUnix := unix.(group := Some(value)), true;
      case ("unix", "bin") => unix, hasUnix := unix.(binPath := Some(value)), true;
      case ("systemd", "unitname") => systemd, hasSystemd := systemd.(unitname := Some(value)), true;
      case ("systemd", "unitpath") => systemd, hasSystemd := systemd.(unitpath := Some(value)), true;
      case _ => known := false;
    }
    after := Draft(unix, systemd, hasUnix, hasSystemd);
  }

  method ParseSelector(selector: string) returns (r: Result<SelectorConfig, ParseError>)
    ensures r == Parse(selector)
  {
    var draft := BLANK;
    var pieces := Text.Split(selector, ',');
    for i := 0 to |pieces|
      invariant Fold(pieces[..i]) == Ok(draft)
    {
      FoldStep(pieces, i, draft);
      hide Fold, FieldOf, Text.Split, Text.Trim, Text.SplitN;
      var part := Text.Trim(pieces[i]);
      if part == "" {
        continue;
      }
      var sub := Text.SplitN(part, 3, ':');
      if |sub| < 3 {
        return Err(InvalidComponent(part));
      }
      var known;
      known, draft := AssignField(draft, sub[0], sub[1], sub[2]);
      if !known {
        return Err(UnknownComponent(part));
      }
    }
    assert pieces[..|pieces|] == pieces;
    if draft.unix.binPath.Some? && (draft.unix.user.None? || draft.unix.group.None?) {
      return Err(BinWithoutUserAndGroup);
    }
    return Ok(SelectorConfig(if draft.hasUnix then Some(draft.unix) else None,
                             if draft.hasSystemd then Some(draft.systemd) else None));
  }

  lemma FoldStep(pieces: seq<string>, i: nat, d: Draft)
    requires i < |pieces| && Fold(pieces[..i]) == Ok(d)
    ensures Fold(pieces[..i + 1]) == Absorb(d, pieces[i])
    ensures Absorb(d, pieces[i]).Err? ==> Fold(pieces) == Absorb(d, pieces[i])
  {
    hide Absorb;
    assert pieces[..i + 1][..i] == pieces[..i];
    FoldStopsAtError(pieces, i + 1);
  }

  /** Once a prefix has failed, the whole fold fails with that error. */
  lemma {:induction false} FoldStopsAtError(pieces: seq<string>, n: nat)
    requires n <= |pieces|
    ensures Fold(pieces[..n]).Err? ==> Fold(pieces) == Fold(pieces[..n])
  {
    hide Absorb;
    if n < |pieces| {
      var front := pieces[..|pieces| - 1];
      assert front[..n] == pieces[..n];
      FoldStopsAtError(front, n);
    } else {
      assert pieces[..n] == pieces;
    }
  }

  // ---- What a component says ----

  /** Exactly which texts set which field to which value; colons in the value are kept. */
  lemma ComponentIff(piece: string, v: string)
    ensures ReadComponent(piece) == Ok(Sets(User, v)) <==> Text.Trim(piece) == "unix:user:" + v
    ensures ReadComponent(piece) == Ok(Sets(Group, v)) <==> Text.Trim(piece) == "unix:group:" + v
    ensures ReadComponent(piece) == Ok(Sets(Bin, v)) <==> Text.Trim(piece) == "unix:bin:" + v
    ensures ReadComponent(piece) == Ok(Sets(UnitName, v)) <==> Text.Trim(piece) == "systemd:unitname:" + v
    ensures ReadComponent(piece) == Ok(Sets(UnitPath, v)) <==> Text.Trim(piece) == "systemd:unitpath:" + v
  {
    hide Text.Trim, Text.SplitN;
    FieldIff(piece, User, "unix", "user", v);
    FieldIff(piece, Group, "unix", "group", v);
    FieldIff(piece, Bin, "unix", "bin", v);
    FieldIff(piece, UnitName, "systemd", "unitname", v);
    FieldIff(piece, UnitPath, "systemd", "unitpath", v);
    hide ReadComponent;
    assert "unix" + [':'] + "user" + [':'] == "unix:user:" && "unix" + [':'] + "group" + [':'] == "unix:group:";
    assert "unix" + [':'] + "bin" + [':'] == "unix:bin:";
    assert "systemd" + [':'] + "unitname" + [':'] == "systemd:unitname:";
    assert "systemd" + [':'] + "unitpath" + [':'] == "systemd:unitpath:";
  }

  lemma FieldIff(piece: string, f: Field, domain: string, key: string, v: string)
    requires ':' !in domain && ':' !in key
    requires forall d, k :: FieldOf(d, k) == Some(f) <==> (d, k) == (domain, key)
    ensures ReadComponent(piece) == Ok(Sets(f, v)) <==> Text.Trim(piece) == domain + [':'] + key + [':'] + v
  {
    hide Text.Trim, Text.SplitN, FieldOf;
    var part := Text.Trim(piece);
    Text.SplitThreeIff(part, domain, key, v, ':');
    var sub := Text.SplitN(part, 3, ':');
    if |sub| == 3 {
      assert sub == [sub[0], sub[1], sub[2]];
    }
  }

  /** Exactly which texts are blank, lack a separator, or name no field. */
  lemma ComponentFailsIff(piece: string)
    ensures ReadComponent(piece) == Ok(Neutral) <==> Text.AllSpace(piece)
    ensures ReadComponent(piece) == Err(InvalidComponent(Text.Trim(piece))) <==>
              var part := Text.Trim(piece);
              part != "" && !exists i, j :: 0 <= i < j < |part| && part[i] == ':' && part[j] == ':'
    ensures ReadComponent(piece) == Err(UnknownComponent(Text.Trim(piece))) ||
            !(ReadComponent(piece).Err? && ReadComponent(piece).error.UnknownComponent?)
  {
    hide FieldOf, Text.Trim, Text.SplitN;
    Text.ThreePiecesIff(Text.Trim(piece), ':');
    Text.TrimIff(piece, "");
    if Text.AllSpace(piece) {
      assert piece == piece + "" + "" && Text.AllSpace("");
    }
  }

  /** Whitespace around a component changes nothing. */
  lemma SpaceIsNeutral(a: string, piece: string, b: string)
    requires Text.AllSpace(a) && Text.AllSpace(b)
    ensures ReadComponent(a + piece + b) == ReadComponent(piece)
  {
    hide Text.Trim, Text.SplitN, FieldOf;
    Text.TrimPadded(a, piece, b);
  }

  /** Nor does it change what a list of components comes to, wherever it is put. */
  lemma {:induction false} PaddedFold(p: seq<string>, q: seq<string>)
    requires |p| == |q|
    requires forall i :: 0 <= i < |p| ==> ReadComponent(q[i]) == ReadComponent(p[i])
    ensures Fold(q) == Fold(p)
  {
    hide ReadComponent;
    if p != [] {
      PaddedFold(p[..|p| - 1], q[..|p| - 1]);
    }
  }

  ghost predicate IsPadding(piece: string, padded: string) {
    exists a, b :: padded == a + piece + b && Text.AllSpace(a) && Text.AllSpace(b)
  }

  /** Two texts whose components differ in outer whitespace only parse alike. */
  lemma TextSpaceIsNeutral(p: seq<string>, q: seq<string>)
    requires |p| == |q| > 0
    requires forall i :: 0 <= i < |p| ==> ',' !in p[i] && ',' !in q[i] && IsPadding(p[i], q[i])
    ensures Parse(Text.Join(q, ',')) == Parse(Text.Join(p, ','))
  {
    hide ReadComponent, Fold, Text.AllSpace;
    Text.SplitJoin(p, ',');
    Text.SplitJoin(q, ',');
    forall i | 0 <= i < |p| ensures ReadComponent(q[i]) == ReadComponent(p[i]) {
      var a, b :| q[i] == a + p[i] + b && Text.AllSpace(a) && Text.AllSpace(b);
      SpaceIsNeutral(a, p[i], b);
    }
    PaddedFold(p, q);
  }

  // ---- The fold is a right-biased homomorphism ----

  function Override(a: Option<string>, b: Option<string>): Option<string> {
    if b.Some? then b else a
  }

  /** Two drafts combined: where both set a field, the right one wins. */
  function Merge(a: Draft, b: Draft): Draft {
    Draft(
      UnixSelector(Override(a.unix.user, b.unix.user), Override(a.unix.group, b.unix.group),
                   Override(a.unix.binPath, b.unix.binPath)),
      SystemdSelector(Override(a.systemd.unitpath, b.systemd.unitpath),
                      Override(a.systemd.unitname, b.systemd.unitname)),
      a.hasUnix || b.hasUnix,
      a.hasSystemd || b.hasSystemd)
  }

  function MergeResults(a: Result<Draft, ParseError>, b: Result<Draft, ParseError>): Result<Draft, ParseError> {
    if a.Err? then a else if b.Err? then b else Ok(Merge(a.value, b.value))
  }

  lemma AbsorbMerge(a: Draft, b: Draft, piece: string)
    ensures MergeResults(Ok(a), Absorb(b, piece)) == Absorb(Merge(a, b), piece)
  {
    hide ReadComponent;
  }

  lemma {:induction false} FoldConcat(p: seq<string>, q: seq<string>)
    ensures Fold(p + q) == MergeResults(Fold(p), Fold(q))
  {
    hide Absorb;
    if q == [] {
      assert p + q == p;
    } else {
      var front := q[..|q| - 1];
      assert (p + q)[..|p + q| - 1] == p + front;
      FoldConcat(p, front);
      if Fold(p).Ok? && Fold(front).Ok? {
        AbsorbMerge(Fold(p).value, Fold(front).value, q[|q| - 1]);
      }
    }
  }

  /** Parsing "a,b" is parsing a, then b, with b's fields winning and a's error reported first. */
  lemma FoldIsHomomorphism(a: string, b: string)
    ensures FoldText(a + "," + b) == MergeResults(FoldText(a), FoldText(b))
  {
    Text.SplitConcat(a, b, ',');
    FoldConcat(Text.Split(a, ','), Text.Split(b, ','));
  }

  /** Blank text between commas changes nothing, on either side. */
  lemma BlankIsNeutral(a: string, blank: string)
    requires Text.Trim(blank) == "" && ',' !in blank
    ensures FoldText(a + "," + blank) == FoldText(a) == FoldText(blank + "," + a)
  {
    Text.SplitWhole(blank, ',');
    var pieces := [blank];
    assert pieces[..0] == [];
    assert Fold(pieces) == Ok(BLANK);
    FoldIsHomomorphism(a, blank);
    FoldIsHomomorphism(blank, a);
  }

  // ---- Order of components ----

  predicate Mentions(piece: string, f: Field) {
    var c := ReadComponent(piece);
    c.Ok? && c.value.Sets? && c.value.field == f
  }

  predicate AllReadable(pieces: seq<string>) {
    forall i :: 0 <= i < |pieces| ==> ReadComponent(pieces[i]).Ok?
  }

  predicate FieldsDistinct(pieces: seq<string>) {
    forall i, j, f :: 0 <= i < j < |pieces| && Mentions(pieces[i], f) ==> !Mentions(pieces[j], f)
  }

  /** The fold succeeds exactly when every piece is blank or well formed; a field then has the last value given. */
  lemma {:induction false} FoldMeaning(pieces: seq<string>, f: Field)
    ensures Fold(pieces).Ok? <==> AllReadable(pieces)
    ensures Fold(pieces).Ok? ==>
              var d := Fold(pieces).value;
              && (d.hasUnix <==> d.unix != BLANK.unix)
              && (d.hasSystemd <==> d.systemd != BLANK.systemd)
              && match Get(d, f)
                 case None => forall i :: 0 <= i < |pieces| ==> !Mentions(pieces[i], f)
                 case Some(v) =>
                   exists i :: && 0 <= i < |pieces| && Mentions(pieces[i], f)
                     && ReadComponent(pieces[i]).value.value == v
                               && forall j :: i < j < |pieces| ==> !Mentions(pieces[j], f)
  {
    hide ReadComponent;
    if pieces != [] {
      var n := |pieces| - 1;
      var front := pieces[..n];
      FoldMeaning(front, f);
      assert forall i :: 0 <= i < n ==> front[i] == pieces[i];
      if AllReadable(front) && ReadComponent(pieces[n]).Ok? {
        var d, d' := Fold(front).value, Fold(pieces).value;
        if Mentions(pieces[n], f) {
          assert Get(d', f) == Some(ReadComponent(pieces[n]).value.value);
        } else {
          assert Get(d', f) == Get(d, f);
        }
      }
    }
  }

  lemma DraftExtensional(a: Draft, b: Draft)
    requires forall f :: Get(a, f) == Get(b, f)
    requires a.hasUnix == b.hasUnix && a.hasSystemd == b.hasSystemd
    ensures a == b
  {
    assert Get(a, User) == Get(b, User) && Get(a, Group) == Get(b, Group) && Get(a, Bin) == Get(b, Bin);
    assert Get(a, UnitName) == Get(b, UnitName) && Get(a, UnitPath) == Get(b, UnitPath);
  }

  /** Components that set different fields may be written in any order. */
  lemma OrderDoesNotMatter(p: seq<string>, q: seq<string>)
    requires multiset(p) == multiset(q) && AllReadable(p)
    requires forall i, j, f :: 0 <= i < j < |p| && Mentions(p[i], f) ==> !Mentions(p[j], f)
    ensures Fold(p).Ok? && Fold(q) == Fold(p)
  {
    hide ReadComponent;
    forall i | 0 <= i < |q| ensures ReadComponent(q[i]).Ok? {
      assert q[i] in multiset(q);
    }
    FoldMeaning(p, User);
    FoldMeaning(q, User);
    var a, b := Fold(p).value, Fold(q).value;
    forall f ensures Get(a, f) == Get(b, f) {
      SameField(p, q, f);
    }
    DraftExtensional(a.(hasUnix := b.hasUnix, hasSystemd := b.hasSystemd), b);
  }

  /** In terms of selector texts: reordering the components of a text does not change what it parses to. */
  lemma TextOrderDoesNotMatter(p: seq<string>, q: seq<string>)
    requires multiset(p) == multiset(q) && p != []
    requires forall i :: 0 <= i < |p| ==> ',' !in p[i]
    requires AllReadable(p)
    requires forall i, j, f :: 0 <= i < j < |p| && Mentions(p[i], f) ==> !Mentions(p[j], f)
    ensures FoldText(Text.Join(p, ',')).Ok? && Parse(Text.Join(q, ',')) == Parse(Text.Join(p, ','))
  {
    hide AllReadable, Mentions, Fold;
    forall i | 0 <= i < |q| ensures ',' !in q[i] {
      assert q[i] in multiset(p);
      assert q[i] in p;
    }
    assert |q| == |multiset(q)| == |multiset(p)| == |p|;
    Text.SplitJoin(p, ',');
    Text.SplitJoin(q, ',');
    OrderDoesNotMatter(p, q);
  }

  lemma SameField(p: seq<string>, q: seq<string>, f: Field)
    requires multiset(p) == multiset(q)
    requires Fold(p).Ok? && Fold(q).Ok? && FieldsDistinct(p)
    ensures Get(Fold(p).value, f) == Get(Fold(q).value, f)
  {
    hide ReadComponent;
    FoldMeaning(p, f);
    FoldMeaning(q, f);
    match Get(Fold(q).value, f)
    case None =>
      forall i | 0 <= i < |p| ensures !Mentions(p[i], f) {
        assert p[i] in multiset(p);
      }
    case Some(v) =>
      var i :| 0 <= i < |q| && Mentions(q[i], f) && ReadComponent(q[i]).value.value == v;
      assert q[i] in multiset(q);
      var j :| 0 <= j < |p| && p[j] == q[i];
      assert forall k :: 0 <= k < |p| && Mentions(p[k], f) ==> k == j;
  }

  // ---- Round trip ----

  predicate Clean(o: Option<string>) {
    o.Some? ==> ',' !in o.value && Text.NoTrailingSpace(o.value)
  }

  /** The selector records the parser can produce. */
  predicate Canonical(c: SelectorConfig) {
    && (c.unix.Some? ==>
          var u := c.unix.value;
          && (u.user.Some? || u.group.Some? || u.binPath.Some?)
          && (u.binPath.Some? ==> u.user.Some? && u.group.Some?)
          && Clean(u.user) && Clean(u.group) && Clean(u.binPath))
    && (c.systemd.Some? ==>
          var s := c.systemd.value;
          && (s.unitpath.Some? || s.unitname.Some?)
          && Clean(s.unitpath) && Clean(s.unitname))
  }

  function Prefix(f: Field): (string, string) {
    match f
    case User => ("unix", "user")
    case Group => ("unix", "group")
    case Bin => ("unix", "bin")
    case UnitName => ("systemd", "unitname")
    case UnitPath => ("systemd", "unitpath")
  }

  function Show(f: Field, v: string): string {
    Prefix(f).0 + ":" + (Prefix(f).1 + ":" + v)
  }

  function ShowField(d: Draft, f: Field): seq<string> {
    match Get(d, f)
    case None => []
    case Some(v) => [Show(f, v)]
  }

  function AsDraft(c: SelectorConfig): Draft {
    Draft(if c.unix.Some? then c.unix.value else BLANK.unix,
          if c.systemd.Some? then c.systemd.value else BLANK.systemd,
          c.unix.Some?, c.systemd.Some?)
  }

  function Components(c: SelectorConfig): seq<string> {
    var d := AsDraft(c);
    ShowField(d, User) + ShowField(d, Group) + ShowField(d, Bin) + ShowField(d, UnitName) + ShowField(d, UnitPath)
  }

  /** The canonical selector text of a record. */
  function Print(c: SelectorConfig): string {
    Text.Join(Components(c), ',')
  }

  lemma TrimFixed(s: string)
    requires s != "" && !Text.IsWhitespace(s[0]) && Text.NoTrailingSpace(s)
    ensures Text.Trim(s) == s
  {}

  lemma ShownShape(f: Field, v: string)
    requires Clean(Some(v))
    ensures ',' !in Show(f, v) && Text.Trim(Show(f, v)) == Show(f, v) != ""
  {
    var s := Show(f, v);
    if v != "" {
      assert s[|s| - 1] == v[|v| - 1];
    }
    hide Text.Trim;
    TrimFixed(s);
  }

  lemma ReadShown(f: Field, v: string)
    requires Clean(Some(v))
    ensures ReadComponent(Show(f, v)) == Ok(Sets(f, v))
  {
    hide Text.Trim, Text.SplitN;
    ShownShape(f, v);
    var (domain, key) := Prefix(f);
    assert FieldOf(domain, key) == Some(f);
    assert ':' !in domain && ':' !in key;
    hide FieldOf, Prefix;
    Text.SplitThree(domain, key, v, ':');
  }

  function OnlyField(d: Draft, f: Field): Draft {
    if Get(d, f).None? then BLANK else Set(BLANK, f, Get(d, f).value)
  }

  lemma FoldShown(d: Draft, f: Field)
    requires Clean(Get(d, f))
    ensures forall s :: s in ShowField(d, f) ==> ',' !in s
    ensures Fold(ShowField(d, f)) == Ok(OnlyField(d, f))
  {
    hide ReadComponent, Show;
    if Get(d, f).Some? {
      var v := Get(d, f).value;
      ReadShown(f, v);
      ShownShape(f, v);
      var pieces := [Show(f, v)];
      assert pieces[..0] == [];
      assert Fold(pieces) == Absorb(BLANK, pieces[0]);
    }
  }

  lemma FoldFive(a: seq<string>, b: seq<string>, c: seq<string>, d: seq<string>, e: seq<string>)
    ensures Fold(a + b + c + d + e) ==
            MergeResults(MergeResults(MergeResults(MergeResults(Fold(a), Fold(b)), Fold(c)), Fold(d)), Fold(e))
  {
    hide Fold, MergeResults;
    FoldConcat(a, b);
    FoldConcat(a + b, c);
    FoldConcat(a + b + c, d);
    FoldConcat(a + b + c + d, e);
  }

  lemma MergeFields(d: Draft)
    requires d.hasUnix <==> d.unix != BLANK.unix
    requires d.hasSystemd <==> d.systemd != BLANK.systemd
    ensures d == Merge(Merge(Merge(Merge(OnlyField(d, User), OnlyField(d, Group)), OnlyField(d, Bin)),
                             OnlyField(d, UnitName)), OnlyField(d, UnitPath))
  {}

  lemma CanonicalFields(c: SelectorConfig)
    requires Canonical(c)
    ensures var d := AsDraft(c);
            && Clean(Get(d, User)) && Clean(Get(d, Group)) && Clean(Get(d, Bin))
            && Clean(Get(d, UnitName)) && Clean(Get(d, UnitPath))
            && (d.hasUnix <==> d.unix != BLANK.unix) && (d.hasSystemd <==> d.systemd != BLANK.systemd)
  {}

  lemma FoldComponents(c: SelectorConfig)
    requires Canonical(c)
    ensures Fold(Components(c)) == Ok(AsDraft(c))
  {
    var d := AsDraft(c);
    CanonicalFields(c);
    hide Canonical, AsDraft, OnlyField, Merge, ShowField, Fold, Clean, Get;
    MergeFields(d);
    FoldShown(d, User);
    FoldShown(d, Group);
    FoldShown(d, Bin);
    FoldShown(d, UnitName);
    FoldShown(d, UnitPath);
    FoldFive(ShowField(d, User), ShowField(d, Group), ShowField(d, Bin), ShowField(d, UnitName),
             ShowField(d, UnitPath));
  }

  lemma ComponentsCommaFree(c: SelectorConfig)
    requires Canonical(c)
    ensures forall s :: s in Components(c) ==> ',' !in s
  {
    var d := AsDraft(c);
    CanonicalFields(c);
    hide Canonical, AsDraft, Fold, ShowField, Clean, Get;
    FoldShown(d, User);
    FoldShown(d, Group);
    FoldShown(d, Bin);
    FoldShown(d, UnitName);
    FoldShown(d, UnitPath);
  }

  lemma FoldEmptyText()
    ensures Fold([""]) == Fold([]) == Ok(BLANK)
  {
    assert [""][..0] == [];
    assert Fold([""]) == Absorb(BLANK, "");
  }

  /** Parsing the canonical text of a record returns the record. */
  lemma ParsePrint(c: SelectorConfig)
    requires Canonical(c)
    ensures Parse(Print(c)) == Ok(c)
  {
    hide Fold, ReadComponent;
    FoldComponents(c);
    ComponentsCommaFree(c);
    if Components(c) == [] {
      FoldEmptyText();
    } else {
      Text.SplitJoin(Components(c), ',');
    }
  }

  lemma ReadClean(piece: string)
    requires ',' !in piece
    requires ReadComponent(piece).Ok? && ReadComponent(piece).value.Sets?
    ensures Clean(Some(ReadComponent(piece).value.value))
  {
    hide FieldOf, Text.Trim, Text.SplitN;
    var part := Text.Trim(piece);
    Text.SplitThreeLast(part, ':');
    var v := Text.SplitN(part, 3, ':')[2];
    assert v != "" ==> v[|v| - 1] == part[|part| - 1];
    assert forall c :: c in v ==> c in part;
  }

  lemma {:induction false} FoldClean(pieces: seq<string>, f: Field)
    requires forall i :: 0 <= i < |pieces| ==> ',' !in pieces[i]
    requires Fold(pieces).Ok?
    ensures Clean(Get(Fold(pieces).value, f))
  {
    hide ReadComponent, Clean;
    if pieces != [] {
      var n := |pieces| - 1;
      FoldClean(pieces[..n], f);
      if Mentions(pieces[n], f) {
        ReadClean(pieces[n]);
      }
    } else {
      assert Clean(None) by { CleanNone(); }
    }
  }

  lemma CleanNone()
    ensures Clean(None)
  {}

  lemma ParseIsCanonical(selector: string)
    requires Parse(selector).Ok?
    ensures Canonical(Parse(selector).value)
  {
    hide ReadComponent;
    var pieces := Text.Split(selector, ',');
    var d := Fold(pieces).value;
    FoldMeaning(pieces, User);
    forall f ensures Clean(Get(d, f)) {
      FoldClean(pieces, f);
    }
    assert Clean(Get(d, User)) && Clean(Get(d, Group)) && Clean(Get(d, Bin));
    assert Clean(Get(d, UnitName)) && Clean(Get(d, UnitPath));
  }

  /** The parser's range is exactly the canonical records. */
  lemma ParserRange(c: SelectorConfig)
    ensures Canonical(c) <==> exists selector :: Parse(selector) == Ok(c)
  {
    if Canonical(c) {
      ParsePrint(c);
    }
    if selector :| Parse(selector) == Ok(c) {
      ParseIsCanonical(selector);
    }
  }

  /** Reprinting what was parsed and parsing it again is the identity. */
  lemma ReprintReparse(selector: string)
    requires Parse(selector).Ok?
    ensures Parse(Print(Parse(selector).value)) == Parse(selector)
  {
    ParseIsCanonical(selector);
    ParsePrint(Parse(selector).value);
  }

  /** Exactly which texts are rejected, and why. */
  lemma RejectedIff(selector: string)
    ensures var pieces := Text.Split(selector, ',');
            Parse(selector).Err? <==>
            || !AllReadable(pieces)
            || ( && (exists i :: 0 <= i < |pieces| && Mentions(pieces[i], Bin))
                 && ( || (forall i :: 0 <= i < |pieces| ==> !Mentions(pieces[i], User))
                      || (forall i :: 0 <= i < |pieces| ==> !Mentions(pieces[i], Group))))
  {
    hide ReadComponent;
    var pieces := Text.Split(selector, ',');
    FoldMeaning(pieces, Bin);
    FoldMeaning(pieces, User);
    FoldMeaning(pieces, Group);
  }
}
