/** The retry rules of the frontend's query client: how many times a failed
    query or mutation is retried. The retry loop itself belongs to the query
    library; only the two predicates it consults are modelled. */
module Retry {
  import opened Values
  import opened Text

  /** Whether a failure is an authentication failure. */
  predicate IsAuthFailure(error: Thrown) {
    error.ErrorWith? && Contains(error.message, "Authentication failed")
  }

  /** The query `retry` option, called with the number of failures so far
      (the first failure is count 0). */
  function QueryRetry(failureCount: nat, error: Thrown): (retry: bool)
    ensures retry ==> failureCount < 3
    ensures IsAuthFailure(error) ==> !retry
  {
    if IsAuthFailure(error) then false else failureCount < 3
  }

  /** The mutation `retry` option. */
  function MutationRetry(failureCount: nat, error: Thrown): (retry: bool)
    ensures !retry
  {
    if IsAuthFailure(error) then false else false
  }

  /** The number of retries a failing query gets. */
  function RetryBudget(error: Thrown): (n: nat)
    ensures n <= 3
    ensures n == 0 <==> IsAuthFailure(error)
  {
    if IsAuthFailure(error) then 0 else 3
  }

  /** A query is retried after its `n`-th failure exactly while `n` is
      below the budget: never after an authentication failure, otherwise
      three times. */
  lemma QueryRetryWithinBudget(failureCount: nat, error: Thrown)
    ensures QueryRetry(failureCount, error) <==> failureCount < RetryBudget(error)
  {
  }

  /** Once the query gives up it stays given up. */
  lemma QueryRetryMonotone(n: nat, m: nat, error: Thrown)
    requires n <= m && !QueryRetry(n, error)
    ensures !QueryRetry(m, error)
  {
  }

  /** A mutation is never retried. */
  lemma MutationNeverRetried(failureCount: nat, error: Thrown)
    ensures !MutationRetry(failureCount, error)
  {
  }

  /** An error whose message begins with the phrase is never retried,
      whatever follows it. */
  lemma AuthenticationNotRetried(failureCount: nat, detail: string)
    ensures !QueryRetry(failureCount, ErrorWith("Authentication failed" + detail))
  {
    Occurs("", "Authentication failed", detail);
    assert "" + "Authentication failed" + detail == "Authentication failed" + detail;
  }
}
