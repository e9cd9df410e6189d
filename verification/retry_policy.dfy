/**
 * The delivery policy both consumers declare with `@RetryableTopic`: up to
 * `max_attempts` handling attempts, only a `RetryableException` is retried
 * (through a single retry topic), an exhausted retryable failure goes to the
 * error topic, and any other failure goes, through the invalid-message
 * interceptor, to the invalid topic.
 */
module RetryPolicy {
  import opened Wrappers
  import opened Events

  /** Where a record is published after a failed attempt. */
  datatype Sink = RetryTopic | ErrorTopic | InvalidTopic

  /** The outcome of each handling attempt, by the number of attempts made before it. */
  type Outcomes = nat -> Status

  predicate IsRetryable(status: Status) {
    status.Raised? && status.error.Retryable?
  }

  /**
   * The record published after attempt number `made + 1`: none on success,
   * the retry topic for a retryable failure with attempts left, the error
   * topic for the last one, and the invalid topic for any other failure.
   */
  function Publication(status: Status, made: nat, maxAttempts: nat): (r: Option<Sink>)
    ensures r.None? <==> status == Done
    ensures r == Some(RetryTopic) <==> IsRetryable(status) && made + 1 < maxAttempts
    ensures r == Some(ErrorTopic) <==> IsRetryable(status) && made + 1 >= maxAttempts
    ensures r == Some(InvalidTopic) <==> status.Raised? && !status.error.Retryable?
  {
    match status
    case Done => None
    case Raised(Retryable(_)) => Some(if made + 1 < maxAttempts then RetryTopic else ErrorTopic)
    case Raised(_) => Some(InvalidTopic)
  }

  /**
   * The records published for one message, from attempt `made + 1` on: the
   * record of each attempt in turn, attempts continuing only after a retry
   * record. The plan is empty exactly when the first attempt succeeds, and
   * it ends after a retry record only when the next attempt succeeds.
   */
  function Plan(outcomes: Outcomes, maxAttempts: nat, made: nat): (r: seq<Sink>)
    requires made < maxAttempts
    ensures |r| <= maxAttempts - made
    ensures r == [] <==> outcomes(made) == Done
    ensures forall i :: 0 <= i < |r| ==> Publication(outcomes(made + i), made + i, maxAttempts) == Some(r[i])
    ensures forall i :: 0 <= i < |r| - 1 ==> r[i] == RetryTopic
    ensures r != [] && r[|r| - 1] == RetryTopic ==> made + |r| < maxAttempts && outcomes(made + |r|) == Done
    decreases maxAttempts - made
  {
    match Publication(outcomes(made), made, maxAttempts)
    case None => []
    case Some(RetryTopic) => [RetryTopic] + Plan(outcomes, maxAttempts, made + 1)
    case Some(sink) => [sink]
  }

  /** One step of the plan: what the attempt publishes, followed by the rest of the plan after a retry. */
  lemma PlanStep(outcomes: Outcomes, maxAttempts: nat, made: nat)
    requires made < maxAttempts
    ensures var p := Publication(outcomes(made), made, maxAttempts);
            && (p.None? ==> Plan(outcomes, maxAttempts, made) == [])
            && (p == Some(RetryTopic) ==>
                  (made + 1 < maxAttempts
                   && Plan(outcomes, maxAttempts, made) == [RetryTopic] + Plan(outcomes, maxAttempts, made + 1)))
            && (p.Some? && p != Some(RetryTopic) ==> Plan(outcomes, maxAttempts, made) == [p.value])
  {
  }

  /** An attempt that ends in a retry record is followed by the attempts of the rest of the plan; any other ends it. */
  lemma AttemptsStep(outcomes: Outcomes, maxAttempts: nat, made: nat)
    requires made < maxAttempts
    ensures Publication(outcomes(made), made, maxAttempts) == Some(RetryTopic) ==>
              made + 1 < maxAttempts
              && Attempts(Plan(outcomes, maxAttempts, made)) == 1 + Attempts(Plan(outcomes, maxAttempts, made + 1))
    ensures Publication(outcomes(made), made, maxAttempts) != Some(RetryTopic) ==>
              Attempts(Plan(outcomes, maxAttempts, made)) == 1
  {
    PlanStep(outcomes, maxAttempts, made);
    if Publication(outcomes(made), made, maxAttempts) == Some(RetryTopic) {
      var rest := Plan(outcomes, maxAttempts, made + 1);
      assert ([RetryTopic] + rest)[1..] == rest;
    } else if Publication(outcomes(made), made, maxAttempts).Some? {
      var p := Publication(outcomes(made), made, maxAttempts).value;
      assert [p][1..] == [];
    }
  }

  /** The number of handling attempts: one, plus one per retry record. */
  function Attempts(plan: seq<Sink>): nat {
    1 + Count(plan, RetryTopic)
  }

  function Count(plan: seq<Sink>, sink: Sink): (n: nat)
    ensures n <= |plan|
  {
    if plan == [] then 0 else (if plan[0] == sink then 1 else 0) + Count(plan[1..], sink)
  }

  function Repeat(sink: Sink, n: nat): (r: seq<Sink>)
    ensures |r| == n && forall i :: 0 <= i < n ==> r[i] == sink
  {
    if n == 0 then [] else [sink] + Repeat(sink, n - 1)
  }

  lemma RepeatThen(sink: Sink, n: nat, last: Sink)
    requires n > 0
    ensures Repeat(sink, n) + [last] == [sink] + (Repeat(sink, n - 1) + [last])
  {
  }

  lemma {:induction false} CountRepeat(sink: Sink, other: Sink, n: nat)
    ensures Count(Repeat(sink, n), sink) == n
    ensures sink != other ==> Count(Repeat(sink, n), other) == 0
  {
    if n > 0 {
      assert Repeat(sink, n)[1..] == Repeat(sink, n - 1);
      CountRepeat(sink, other, n - 1);
    }
  }

  lemma {:induction false} CountAppend(a: seq<Sink>, b: seq<Sink>, sink: Sink)
    ensures Count(a + b, sink) == Count(a, sink) + Count(b, sink)
  {
    if a == [] {
      assert a + b == b;
    } else {
      assert (a + b)[1..] == a[1..] + b;
      CountAppend(a[1..], b, sink);
    }
  }

  /**
   * At most one record leaves the retry cycle, it is the last, and a
   * message is never published to both the error and the invalid topic.
   */
  lemma {:induction false} AtMostOneTerminalRecord(outcomes: Outcomes, maxAttempts: nat, made: nat)
    requires made < maxAttempts
    ensures Count(Plan(outcomes, maxAttempts, made), ErrorTopic) + Count(Plan(outcomes, maxAttempts, made), InvalidTopic) <= 1
    decreases maxAttempts - made
  {
    var plan := Plan(outcomes, maxAttempts, made);
    if plan != [] {
      if plan[0] == RetryTopic {
        assert plan[1..] == Plan(outcomes, maxAttempts, made + 1);
        AtMostOneTerminalRecord(outcomes, maxAttempts, made + 1);
      } else {
        assert plan == [plan[0]];
        assert plan[1..] == [];
      }
    }
  }

  /**
   * When every attempt fails retryably, each of the first `maxAttempts - 1`
   * attempts goes to the retry topic and the last to the error topic.
   */
  lemma {:induction false} AlwaysRetryableExhaustsAttempts(outcomes: Outcomes, maxAttempts: nat, made: nat)
    requires made < maxAttempts
    requires forall k: nat :: made <= k < maxAttempts ==> IsRetryable(outcomes(k))
    ensures Plan(outcomes, maxAttempts, made) == Repeat(RetryTopic, maxAttempts - made - 1) + [ErrorTopic]
    decreases maxAttempts - made
  {
    if made + 1 < maxAttempts {
      AlwaysRetryableExhaustsAttempts(outcomes, maxAttempts, made + 1);
      assert [RetryTopic] + Repeat(RetryTopic, maxAttempts - made - 2) == Repeat(RetryTopic, maxAttempts - made - 1);
    } else {
      assert Repeat(RetryTopic, 0) == [];
    }
  }

  /**
   * With five attempts and a router that always fails retryably: five
   * attempts, four retry records, one error record, no invalid record.
   */
  lemma FiveRetryableAttempts(outcomes: Outcomes)
    requires forall k: nat :: IsRetryable(outcomes(k))
    ensures var plan := Plan(outcomes, 5, 0);
            && Attempts(plan) == 5 && Count(plan, RetryTopic) == 4
            && Count(plan, ErrorTopic) == 1 && Count(plan, InvalidTopic) == 0
  {
    var plan := Plan(outcomes, 5, 0);
    AlwaysRetryableExhaustsAttempts(outcomes, 5, 0);
    CountAppend(Repeat(RetryTopic, 4), [ErrorTopic], RetryTopic);
    CountAppend(Repeat(RetryTopic, 4), [ErrorTopic], ErrorTopic);
    CountAppend(Repeat(RetryTopic, 4), [ErrorTopic], InvalidTopic);
    CountRepeat(RetryTopic, ErrorTopic, 4);
    CountRepeat(RetryTopic, InvalidTopic, 4);
    assert [ErrorTopic][1..] == [];
  }

  /** A non-retryable (or unexpected) first failure: one attempt and one invalid record, nothing else. */
  lemma NonRetryableGoesStraightToInvalid(outcomes: Outcomes, maxAttempts: nat)
    requires 1 <= maxAttempts
    requires outcomes(0).Raised? && !outcomes(0).error.Retryable?
    ensures Plan(outcomes, maxAttempts, 0) == [InvalidTopic]
    ensures Attempts(Plan(outcomes, maxAttempts, 0)) == 1
  {
    assert [InvalidTopic][1..] == [];
  }

  /** Success on the first attempt publishes nothing. */
  lemma SuccessPublishesNothing(outcomes: Outcomes, maxAttempts: nat)
    requires 1 <= maxAttempts && outcomes(0) == Done
    ensures Plan(outcomes, maxAttempts, 0) == [] && Attempts([]) == 1
  {
  }

  /**
   * A retryable failure that clears up: if the first `n` attempts fail
   * retryably and attempt `n + 1` succeeds within the budget, there are
   * exactly `n` retry records and nothing else.
   */
  lemma {:induction false} RecoveryAfterRetries(outcomes: Outcomes, maxAttempts: nat, made: nat, n: nat)
    requires made + n < maxAttempts
    requires forall k: nat :: made <= k < made + n ==> IsRetryable(outcomes(k))
    requires outcomes(made + n) == Done
    ensures Plan(outcomes, maxAttempts, made) == Repeat(RetryTopic, n)
    decreases n
  {
    if n > 0 {
      assert IsRetryable(outcomes(made));
      RecoveryAfterRetries(outcomes, maxAttempts, made + 1, n - 1);
    }
  }

  /**
   * A retryable failure that turns into a non-retryable one: if the first
   * `n` attempts fail retryably and attempt `n + 1` fails otherwise within
   * the budget, there are `n` retry records and then one invalid record.
   */
  lemma {:induction false} RetriesThenInvalid(outcomes: Outcomes, maxAttempts: nat, made: nat, n: nat)
    requires made + n < maxAttempts
    requires forall k: nat :: made <= k < made + n ==> IsRetryable(outcomes(k))
    requires outcomes(made + n).Raised? && !outcomes(made + n).error.Retryable?
    ensures Plan(outcomes, maxAttempts, made) == Repeat(RetryTopic, n) + [InvalidTopic]
    decreases n
  {
    if n > 0 {
      assert IsRetryable(outcomes(made));
      RetriesThenInvalid(outcomes, maxAttempts, made + 1, n - 1);
      RepeatThen(RetryTopic, n, InvalidTopic);
    } else {
      assert Repeat(RetryTopic, 0) == [];
    }
  }
}
