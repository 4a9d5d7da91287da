/**
 * The Elasticsearch query loop both retrieval tools run (`_retrieve_content` in
 * `tools/implementations/rag_tool.py` and `image_rag_tool.py`): up to `max_retries`
 * attempts, a timeout retried unless it was the last attempt, any other exception
 * passed on, and no results at all when no attempt was made.
 *
 * The search client is a parameter: a function from the attempt number to what that
 * attempt observed.
 */
module EsSearch {
  datatype Attempt<R> = Found(results: R) | TimedOut | Raised(message: string)

  datatype Retrieval<R> =
    | Retrieved(results: R)
    /** `asyncio.TimeoutError` from the last attempt. */
    | TimeoutRaised
    /** Another exception from the search client. */
    | SearchRaised(message: string)
    /** The loop made no attempt, and the tool raises `RuntimeError`. */
    | NoResults

  /** The loop from `attempt` on. */
  function SearchFrom<R>(attempt: nat, maxRetries: int, search: nat -> Attempt<R>): Retrieval<R>
    decreases maxRetries - attempt
  {
    if attempt >= maxRetries then NoResults
    else
      match search(attempt)
      case Found(r) => Retrieved(r)
      case Raised(m) => SearchRaised(m)
      case TimedOut => if attempt + 1 == maxRetries then TimeoutRaised else SearchFrom(attempt + 1, maxRetries, search)
  }

  method Search<R>(maxRetries: int, search: nat -> Attempt<R>) returns (r: Retrieval<R>)
    ensures r == SearchFrom(0, maxRetries, search)
  {
    var attempt := 0;
    while attempt < maxRetries
      invariant 0 <= attempt
      invariant SearchFrom(0, maxRetries, search) == SearchFrom(attempt, maxRetries, search)
      decreases maxRetries - attempt
    {
      match search(attempt) {
        case Found(results) =>
          return Retrieved(results);
        case Raised(m) =>
          return SearchRaised(m);
        case TimedOut =>
          if attempt + 1 == maxRetries {
            return TimeoutRaised;
          }
      }
      attempt := attempt + 1;
    }
    return NoResults;
  }

  /** No attempt is made when `max_retries` is not positive; a timeout is raised exactly
      when every attempt timed out; results come from the first attempt that did not time
      out. */
  lemma {:induction false} SearchOutcome<R>(attempt: nat, maxRetries: int, search: nat -> Attempt<R>)
    ensures SearchFrom(attempt, maxRetries, search) == NoResults <==> attempt >= maxRetries
    ensures SearchFrom(attempt, maxRetries, search) == TimeoutRaised <==>
      attempt < maxRetries && forall j :: attempt <= j < maxRetries ==> search(j).TimedOut?
    ensures SearchFrom(attempt, maxRetries, search).Retrieved? ==>
      exists n :: (attempt <= n < maxRetries && search(n) == Found(SearchFrom(attempt, maxRetries, search).results) &&
        forall j :: attempt <= j < n ==> search(j).TimedOut?)
    decreases maxRetries - attempt
  {
    if attempt < maxRetries && search(attempt).TimedOut? && attempt + 1 != maxRetries {
      SearchOutcome(attempt + 1, maxRetries, search);
      var r := SearchFrom(attempt, maxRetries, search);
      if r.Retrieved? {
        var n :| attempt + 1 <= n < maxRetries && search(n) == Found(r.results) &&
          forall j :: attempt + 1 <= j < n ==> search(j).TimedOut?;
      }
    } else if attempt < maxRetries && !search(attempt).TimedOut? {
      assert !(forall j :: attempt <= j < maxRetries ==> search(j).TimedOut?);
    }
  }
}
