/** Parser and matcher together: which scores a parsed selector can have, and what their order means. */
module SelectorScores {
  import opened Wrappers
  import opened Selectors
  import opened SelectorParser
  import opened Matcher

  const POSSIBLE_SCORES := {0, 1, 2, 12, 100, 101, 102, 112}

  /** The lexicographic order on (names a systemd unit, names a binary, number of user and group). */
  predicate Outranks(a: SelectorConfig, b: SelectorConfig) {
    if NamesUnit(a) != NamesUnit(b) then NamesUnit(a)
    else if NamesBin(a) != NamesBin(b) then NamesBin(a)
    else NamedAccounts(a) > NamedAccounts(b)
  }

  /** Numeric order of scores is exactly the lexicographic priority order, for all selectors. */
  lemma ScoreOrderIsPriority(a: SelectorConfig, b: SelectorConfig)
    ensures Score(a) > Score(b) <==> Outranks(a, b)
    ensures Score(a) == Score(b) <==> !Outranks(a, b) && !Outranks(b, a)
  {}

  function Witness(score: nat): SelectorConfig
    requires score in POSSIBLE_SCORES
  {
    var accounts := score % 10;
    var bin := if score % 100 >= 10 then Some("/bin/a") else None;
    var unix := if score % 100 == 0 then None
                else Some(UnixSelector(Some("a"), if accounts == 2 then Some("a") else None, bin));
    SelectorConfig(unix, if score >= 100 then Some(SystemdSelector(None, Some("a"))) else None)
  }

  /** The scores of parsed selectors are exactly these eight values. */
  lemma ParsedScores(score: nat)
    ensures score in POSSIBLE_SCORES <==> exists text :: Parse(text).Ok? && Score(Parse(text).value) == score
  {
    if score in POSSIBLE_SCORES {
      WitnessWorks(score);
      ParserRange(Witness(score));
    }
    if text :| Parse(text).Ok? && Score(Parse(text).value) == score {
      ParseIsCanonical(text);
      CanonicalScores(Parse(text).value);
    }
  }

  lemma WitnessWorks(score: nat)
    requires score in POSSIBLE_SCORES
    ensures Canonical(Witness(score)) && Score(Witness(score)) == score
  {
    assert Clean(Some("a")) && Clean(Some("/bin/a"));
  }

  lemma CanonicalScores(c: SelectorConfig)
    requires Canonical(c)
    ensures Score(c) in POSSIBLE_SCORES
  {}

  /** The blank selector text matches every process, with the lowest score. */
  lemma BlankMatchesEverything(p: Process, db: Accounts)
    ensures Parse("") == Ok(SelectorConfig(None, None))
    ensures Matches(SelectorConfig(None, None), p, db) && Score(SelectorConfig(None, None)) == 0
  {
    FoldEmptyText();
  }
}
