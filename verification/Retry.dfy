/** The HTTP retry loop (src/agentchatme/_http.py:164-194, 401-533). The server's
    answers and the jitter are parameters, by attempt number. */
module Retry {
  import opened Wrappers
  import opened Backoff

  datatype Verb = GET | HEAD | POST | PUT | PATCH | DELETE

  datatype Policy = Policy(retries: int, base: int, cap: nat)

  datatype RetryOption = Unset | Auto | Never | Custom(policy: Policy)

  /** A response carries whether it has a Location header and its Retry-After in
      milliseconds. */
  datatype Outcome =
    | Unreachable
    | Response(status: int, location: bool, retryAfter: Option<nat>)

  datatype Result = Success(status: int) | Failure(outcome: Outcome) | NoAttempt

  datatype Request = Request(verb: Verb, key: string, option: RetryOption, redirectOk: bool)

  function Resolved(option: RetryOption, fallback: Policy): Policy {
    if option.Custom? then option.policy else fallback
  }

  predicate Eligible(req: Request) {
    match req.option
    case Never => false
    case Auto | Custom(_) => true
    case Unset => req.key != "" || req.verb in {GET, HEAD, PUT, DELETE}
  }

  /** How many requests the call may send. */
  function Budget(req: Request, fallback: Policy): int {
    if Eligible(req) then Resolved(req.option, fallback).retries + 1 else 1
  }

  predicate Succeeds(req: Request, o: Outcome) {
    o.Response? && (200 <= o.status < 300 || (req.redirectOk && 300 <= o.status < 400 && o.location))
  }

  predicate Retriable(o: Outcome) {
    o.Unreachable? || o.status in {408, 425, 429, 500, 502, 503, 504}
  }

  function Concluded(req: Request, o: Outcome): Result {
    if Succeeds(req, o) then Success(o.status) else Failure(o)
  }

  function Delay(policy: Policy, attempt: nat, retryAfter: Option<nat>, u: Draw): nat
    requires attempt >= 1
  {
    if retryAfter.Some? then Min(retryAfter.value, policy.cap)
    else Spread(Min(policy.base * Power2(attempt - 1), policy.cap), u)
  }

  /** `ms` scaled by a factor in [3/4, 5/4). */
  function Spread(ms: int, u: Draw): nat {
    if ms <= 0 then 0 else Scale(ms, 0.75 + u * 0.5)
  }

  function AfterOf(o: Outcome): Option<nat> {
    if o.Response? then o.retryAfter else None
  }

  /** The first step is the base, each next one twice that before, all up to the cap. */
  function StepOf(base: int, cap: nat, attempt: nat): int
    requires attempt >= 1
  {
    if attempt == 1 then Min(base, cap) else Min(2 * StepOf(base, cap, attempt - 1), cap)
  }

  lemma {:induction false} StepIs(base: int, cap: nat, attempt: nat)
    requires attempt >= 1
    ensures Max(0, Min(base * Power2(attempt - 1), cap)) == Max(0, StepOf(base, cap, attempt))
    ensures base <= 0 ==> StepOf(base, cap, attempt) <= 0 && base * Power2(attempt - 1) <= 0
  {
    if attempt > 1 {
      StepIs(base, cap, attempt - 1);
      Twice(base, Power2(attempt - 2));
      CutTwice(base * Power2(attempt - 2), StepOf(base, cap, attempt - 1), cap);
    }
  }

  lemma Twice(base: int, p: nat)
    ensures base * (2 * p) == 2 * (base * p)
  {
  }

  lemma CutTwice(x: int, y: int, cap: nat)
    requires Max(0, Min(x, cap)) == Max(0, y)
    ensures Max(0, Min(2 * x, cap)) == Max(0, Min(2 * y, cap))
  {
  }

  /** A wait is what the server asked for, as far as the cap lets it; without that it is
      its step, a quarter more or less. */
  lemma {:induction false} DelayBound(policy: Policy, attempt: nat, o: Outcome, u: Draw)
    requires attempt >= 1
    ensures var d := Delay(policy, attempt, AfterOf(o), u);
      && (AfterOf(o).Some? ==> d == if AfterOf(o).value <= policy.cap then AfterOf(o).value else policy.cap)
      && (AfterOf(o).None? ==>
            var step := Max(0, StepOf(policy.base, policy.cap, attempt));
            step * 3 / 4 <= d && 4 * d <= 5 * step <= 5 * policy.cap)
  {
    StepIs(policy.base, policy.cap, attempt);
    if AfterOf(o).None? { SpreadBound(Min(policy.base * Power2(attempt - 1), policy.cap), u); }
  }

  lemma SpreadBound(ms: int, u: Draw)
    ensures Max(0, ms) * 3 / 4 <= Spread(ms, u) && 4 * Spread(ms, u) <= 5 * Max(0, ms)
  {
    if ms > 0 {
      ScaleBounds(ms, 0.75 + u * 0.5, 1.25);
      FiveQuarters(ms, Spread(ms, u));
    }
  }

  lemma FiveQuarters(ms: nat, d: nat)
    requires d as real <= 1.25 * (ms as real)
    ensures 4 * d <= 5 * ms
  {
    assert 4.0 * (d as real) <= 5.0 * (ms as real);
  }

  /** The attempt `n` at which a scan of the outcomes stops: the first that
      cannot be retried, or the last the budget allows. */
  predicate StopsAt(outcomes: nat -> Outcome, budget: int, n: nat) {
    && 1 <= n <= budget
    && (forall k: nat :: 1 <= k < n ==> Retriable(outcomes(k)))
    && (n == budget || !Retriable(outcomes(n)))
  }

  /** The wait before attempt k + 2. */
  function WaitAfter(policy: Policy, outcomes: nat -> Outcome, draws: nat -> Draw, k: nat): nat {
    Delay(policy, k + 1, AfterOf(outcomes(k + 1)), draws(k + 1))
  }

  // ----- What the caller sees -----

  /** A request that may be sent again: the caller says so, or says nothing of a request
      that has a key or is no POST or PATCH. */
  predicate Repeatable(req: Request) {
    !req.option.Never? && (req.option.Unset? ==> req.key != "" || (req.verb != POST && req.verb != PATCH))
  }

  /** Worth another try: no answer, a timeout or throttling, or a server error but 501. */
  predicate Transient(o: Outcome) {
    || o.Unreachable?
    || o.status == 408 || o.status == 425 || o.status == 429
    || (500 <= o.status <= 504 && o.status != 501)
  }

  /** A 2xx, or a 3xx with a location where that was asked for. */
  predicate Good(req: Request, o: Outcome) {
    o.Response? && (o.status / 100 == 2 || (req.redirectOk && o.status / 100 == 3 && o.location))
  }

  function Retries(req: Request, fallback: Policy): int {
    match req.option
    case Custom(policy) => policy.retries
    case _ => fallback.retries
  }

  /** The first k attempts are followed by another. */
  ghost predicate TriesOn(req: Request, fallback: Policy, outcomes: nat -> Outcome, k: nat) {
    Repeatable(req) && k <= Retries(req, fallback) && forall j: nat :: 1 <= j <= k ==> Transient(outcomes(j))
  }

  /** Where a scan stops, n requests in, is what the caller sees: another attempt
      follows the k-th exactly if the request may be sent again, retries are left, and
      all so far were worth another try. */
  lemma TriesOnExactly(req: Request, fallback: Policy, outcomes: nat -> Outcome, n: nat, k: nat)
    requires k >= 1
    requires Budget(req, fallback) < 1 ==> n == 0
    requires Budget(req, fallback) >= 1 ==> StopsAt(outcomes, Budget(req, fallback), n)
    ensures n > k <==> TriesOn(req, fallback, outcomes, k)
  {
    forall o: Outcome ensures Retriable(o) <==> Transient(o) {}
    assert Eligible(req) <==> Repeatable(req);
    if n > k { forall j: nat | 1 <= j <= k ensures Transient(outcomes(j)) { assert Retriable(outcomes(j)); } }
    if TriesOn(req, fallback, outcomes, k) { assert 1 <= n <= k ==> Transient(outcomes(n)); }
  }

  method Send(req: Request, fallback: Policy, outcomes: nat -> Outcome, draws: nat -> Draw)
    returns (result: Result, sent: nat, sleeps: seq<nat>)
    ensures Budget(req, fallback) < 1 ==> result == NoAttempt && sent == 0 && sleeps == []
    ensures Budget(req, fallback) >= 1 ==>
      && StopsAt(outcomes, Budget(req, fallback), sent)
      && result == Concluded(req, outcomes(sent))
      && |sleeps| == sent - 1
    ensures forall k :: 0 <= k < |sleeps| ==>
      && sleeps[k] == WaitAfter(Resolved(req.option, fallback), outcomes, draws, k)
      && 4 * sleeps[k] <= 5 * Resolved(req.option, fallback).cap
    ensures sent >= 1 ==>
      result == if Good(req, outcomes(sent)) then Success(outcomes(sent).status) else Failure(outcomes(sent))
  {
    var policy := Resolved(req.option, fallback);
    var canRetry := Eligible(req);
    var maxAttempts := if canRetry then policy.retries + 1 else 1;
    sent, sleeps := 0, [];
    for attempt := 1 to Max(maxAttempts, 0) + 1
      invariant sent == attempt - 1 == |sleeps|
      invariant sent < maxAttempts || maxAttempts < 1
      invariant forall k: nat :: 1 <= k < attempt ==> Retriable(outcomes(k))
      invariant forall k :: 0 <= k < |sleeps| ==>
        sleeps[k] == WaitAfter(policy, outcomes, draws, k) && 4 * sleeps[k] <= 5 * policy.cap
    {
      var outcome := outcomes(attempt);
      sent := attempt;
      if Succeeds(req, outcome) { return Success(outcome.status), sent, sleeps; }
      if !(canRetry && attempt < maxAttempts && Retriable(outcome)) {
        return Failure(outcome), sent, sleeps;
      }
      var delay := Delay(policy, attempt, AfterOf(outcome), draws(attempt));
      DelayBound(policy, attempt, outcome, draws(attempt));
      sleeps := sleeps + [delay];
    }
    result := NoAttempt;
  }

  /** Where a scan stops is settled by the outcomes alone. */
  lemma StopsOnce(outcomes: nat -> Outcome, budget: int, m: nat, n: nat)
    requires StopsAt(outcomes, budget, m) && StopsAt(outcomes, budget, n)
    ensures m == n
  {
  }

  predicate SucceedsAt(req: Request, outcomes: nat -> Outcome, k: nat) {
    Succeeds(req, outcomes(k)) && forall j: nat :: 1 <= j < k ==> Retriable(outcomes(j))
  }

  /** The call succeeds exactly when some attempt within the budget does, with
      nothing before it but failures worth retrying. */
  lemma SucceedsExactly(req: Request, outcomes: nat -> Outcome, budget: int, n: nat)
    requires StopsAt(outcomes, budget, n)
    ensures Concluded(req, outcomes(n)).Success? <==>
      exists k: nat :: 1 <= k <= budget && SucceedsAt(req, outcomes, k)
  {
    if Succeeds(req, outcomes(n)) { assert SucceedsAt(req, outcomes, n); }
    if k: nat :| 1 <= k <= budget && SucceedsAt(req, outcomes, k) {
      assert !Retriable(outcomes(k));
    }
  }
}
