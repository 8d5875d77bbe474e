/** The client library: one-shot fetch over the agent's socket, and the loop that keeps a shared cell refreshed. */
module WorkloadClient {
  import opened Wrappers
  import opened Protocol

  /** What one connection to the agent yields, up to the point where it breaks. */
  datatype Conversation =
    | CannotConnect
    | CannotSend
    | CannotRead
    | NoLine
    | NotAReply
    | Success(creds: Credentials)
    | Refusal(message: string)

  datatype FetchError = ConnectFailed | Io | ClosedEarly | BadReply | AgentError(message: string)

  function Fetched(c: Conversation): Result<Credentials, FetchError> {
    match c
    case CannotConnect => Err(ConnectFailed)
    case CannotSend => Err(Io)
    case CannotRead => Err(Io)
    case NoLine => Err(ClosedEarly)
    case NotAReply => Err(BadReply)
    case Success(creds) => Ok(creds)
    case Refusal(message) => Err(AgentError(message))
  }

  /** A fetch succeeds exactly on a success reply; each failure is reported as what it was. */
  lemma FetchedMeaning(c: Conversation)
    ensures Fetched(c).Ok? <==> c.Success?
    ensures c.Success? ==> Fetched(c) == Ok(c.creds)
    ensures Fetched(c) == Err(ConnectFailed) <==> c == CannotConnect
    ensures Fetched(c) == Err(Io) <==> c == CannotSend || c == CannotRead
    ensures Fetched(c) == Err(ClosedEarly) <==> c == NoLine
    ensures Fetched(c) == Err(BadReply) <==> c == NotAReply
    ensures forall message :: Fetched(c) == Err(AgentError(message)) <==> c == Refusal(message)
  {}

  /** The cell after one round. */
  function Stored(before: Option<Credentials>, said: Conversation): Option<Credentials> {
    match Fetched(said)
    case Ok(creds) => Some(creds)
    case Err(_) => before
  }

  /** The credentials of the latest success, or what was there before. */
  function Latest(before: Option<Credentials>, history: seq<Conversation>): Option<Credentials> {
    if history == [] then before
    else Stored(Latest(before, history[..|history| - 1]), history[|history| - 1])
  }

  class WorkloadClient {
    var cached: Option<Credentials>
    var slept: nat

    constructor ()
      ensures cached == None && slept == 0
    {
      cached, slept := None, 0;
    }

    method CurrentCredentials() returns (r: Option<Credentials>)
      ensures r == cached
    {
      r := cached;
    }

    /** The rotation loop over any finite number of rounds: failures leave the cell alone, and every round sleeps. */
    method RotationLoop(rounds: seq<Conversation>, interval: nat)
      modifies this
      ensures cached == Latest(old(cached), rounds)
      ensures slept == old(slept) + |rounds| * interval
    {
      for i := 0 to |rounds|
        invariant cached == Latest(old(cached), rounds[..i])
        invariant slept == old(slept) + i * interval
      {
        assert rounds[..i + 1][..i] == rounds[..i];
        var r := Fetched(rounds[i]);
        if r.Ok? {
          cached := Some(r.value);
        }
        slept := slept + interval;
      }
      assert rounds[..|rounds|] == rounds;
    }
  }

  /** The cell holds a credential exactly when it did before or some round succeeded; and one of the rounds gave it. */
  lemma {:induction false} LatestMeaning(before: Option<Credentials>, rounds: seq<Conversation>)
    ensures Latest(before, rounds).Some? <==> before.Some? || exists i :: 0 <= i < |rounds| && rounds[i].Success?
    ensures Latest(before, rounds) != before ==>
              exists i :: && 0 <= i < |rounds| && rounds[i].Success? && Latest(before, rounds) == Some(rounds[i].creds)
                          && forall j :: i < j < |rounds| ==> !rounds[j].Success?
  {
    if rounds != [] {
      var front := rounds[..|rounds| - 1];
      LatestMeaning(before, front);
      if !rounds[|front|].Success? && Latest(before, front) != before {
        var i :| && 0 <= i < |front| && front[i].Success? && Latest(before, front) == Some(front[i].creds)
                 && forall j :: i < j < |front| ==> !front[j].Success?;
        assert rounds[i] == front[i] && forall j :: i < j < |front| ==> rounds[j] == front[j];
      }
      assert forall i :: 0 <= i < |front| ==> front[i] == rounds[i];
    }
  }
}
