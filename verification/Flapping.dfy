/** A connection that keeps dying young slows down (src/agentchatme/_realtime.py:748-782,
    1255-1293, 1358-1366). */
module Flapping {
  import opened Wrappers
  import opened Backoff
  import opened Lifecycle
  import opened Connection
  import opened ConnectionLaws
  import opened Orphan

  /** The waits of the n attempts after the first `a`, at least. */
  function SumFrom(plan: Plan, a: nat, n: nat): nat {
    if n == 0 then 0 else SumFrom(plan, a, n - 1) + Floor(plan.base, plan.cap, a + n)
  }

  /** Since `from`, which had nothing waiting: every wait that ran out took its
      time, and the one pending will. */
  ghost predicate Paced(from: Link, s: Link) {
    s.time.fired >= from.time.fired &&
    var n := s.time.fired - from.time.fired;
    && s.plan == from.plan
    && s.attempts >= from.attempts + n
    && s.time.clock >= from.time.clock + SumFrom(from.plan, from.attempts, n)
    && forall id :: id in s.wait.timers && s.wait.timers[id].kind.Retry? ==> Pending(from, s, s.wait.timers[id], n)
  }

  predicate Pending(from: Link, s: Link, t: Timer, n: nat) {
    && s.attempts >= from.attempts + n + 1
    && t.due >= from.time.clock + SumFrom(from.plan, from.attempts, n + 1)
  }

  /** No time passed, no attempt was forgotten, and new timers keep the pace. */
  ghost predicate InTime(s: Link, r: Link) {
    r.plan == s.plan && r.time == s.time && r.attempts >= s.attempts && NewWaits(s, r)
  }

  lemma NextInTime(s: Link, turn: Turn)
    requires Rested(s) && Enabled(s, turn.input)
    requires !turn.input.Stable? && !turn.input.Fire? && !turn.input.Passes?
    ensures InTime(s, Next(s, turn))
  {
  }

  /** Handler activity and what follows it keep the pace. */
  lemma CalmPaced(from: Link, s: Link, r: Link)
    requires Paced(from, s) && InTime(s, r)
    ensures Paced(from, r)
  {
    var n := s.time.fired - from.time.fired;
    forall id | id in r.wait.timers && r.wait.timers[id].kind.Retry?
      ensures Pending(from, r, r.wait.timers[id], n)
    {
      var t := r.wait.timers[id];
      if !(id in s.wait.timers && s.wait.timers[id] == t) {
        assert Timely(s, t, r.attempts);
        StepsNeverShrink(from.plan.base, from.plan.cap, from.attempts + n + 1, t.kind.attempt);
      }
    }
  }

  lemma NextPaced(from: Link, s: Link, turn: Turn)
    requires Paced(from, s) && Rested(s) && Tidy(s)
    requires Enabled(s, turn.input) && !turn.input.Stable?
    ensures Paced(from, Next(s, turn))
  {
    if turn.input.Fire? {
      var s0 := Heard(s, turn);
      assert Next(s, turn) == ReconnectAfter(s0, turn.input.id);
    } else {
      NotFiredPaced(from, s, turn);
    }
  }

  lemma NotFiredPaced(from: Link, s: Link, turn: Turn)
    requires Paced(from, s) && Rested(s) && Enabled(s, turn.input)
    requires !turn.input.Stable? && !turn.input.Fire?
    ensures Paced(from, Next(s, turn))
  {
    if turn.input.Passes? {
    } else {
      NextInTime(s, turn);
      CalmPaced(from, s, Next(s, turn));
    }
  }

  lemma TookPaced(from: Link, s: Link, turn: Turn)
    requires Paced(from, s) && Rested(s) && Tidy(s) && !turn.input.Stable?
    ensures Paced(from, Took(s, turn))
  {
    if Enabled(s, turn.input) { NextPaced(from, s, turn); }
  }

  lemma PacedOn(plan: Plan, from: Link, turns: seq<Turn>, k: nat)
    requires k < |turns| && NoneLost(plan, turns) && !turns[k].input.Stable?
    requires Paced(from, Run(plan, turns[..k]))
    ensures Paced(from, Run(plan, turns[..k + 1]))
  {
    assert turns[..k + 1][..k] == turns[..k];
    NoneLostTidy(plan, turns, k);
    TookPaced(from, Run(plan, turns[..k]), turns[k]);
  }

  lemma {:induction false} RunPaced(plan: Plan, turns: seq<Turn>, m: nat, n: nat)
    requires m <= n <= |turns| && NoneLost(plan, turns)
    requires Run(plan, turns[..m]).wait.timers == map[]
    requires forall i :: m <= i < n ==> !turns[i].input.Stable?
    ensures Paced(Run(plan, turns[..m]), Run(plan, turns[..n]))
    decreases n
  {
    if m < n {
      RunPaced(plan, turns, m, n - 1);
      PacedOn(plan, Run(plan, turns[..m]), turns, n - 1);
    }
  }

  /** As long as no reconnect task is lost, which is all that the handlers' answers
      decide, and no connection survives the stability window, the attempt
      counter never falls back, and n waits run out no sooner than the first n
      steps, each less a quarter, add up to. */
  lemma {:induction false} FlappingSlowsDown(plan: Plan, turns: seq<Turn>, more: seq<Turn>)
    requires NoneLost(plan, turns + more)
    requires Run(plan, turns).wait.timers == map[]
    requires forall i :: 0 <= i < |more| ==> !more[i].input.Stable?
    ensures Slowed(Run(plan, turns), Run(plan, turns + more))
  {
    var all := turns + more;
    assert all[..|turns|] == turns && all[..|all|] == all;
    forall i | |turns| <= i < |all| ensures !all[i].input.Stable? { assert all[i] == more[i - |turns|]; }
    RunPaced(plan, all, |turns|, |all|);
  }

  /** Below the cap, the first n steps add up to base * (2^n - 1). */
  lemma {:induction false} SumDoubles(plan: Plan, n: nat)
    requires plan.base > 0 && n <= 21 && (n > 0 ==> plan.base * Power2(n - 1) <= plan.cap)
    ensures 4 * SumFrom(plan, 0, n) >= 3 * plan.base * (Power2(n) - 1) - 3 * n
  {
    if n > 0 {
      var p := Power2(n - 1);
      if n > 1 { DoublesBelow(plan.base, Power2(n - 2), plan.cap); }
      SumDoubles(plan, n - 1);
      assert RawStep(plan.base, plan.cap, n) == plan.base * p;
      Distributes(plan.base, p);
    }
  }

  lemma DoublesBelow(base: int, p: nat, cap: int)
    requires base > 0 && base * (2 * p) <= cap
    ensures base * p <= cap
  {
    assert base * (2 * p) == 2 * (base * p);
  }

  lemma Distributes(base: int, p: nat)
    ensures 3 * base * (2 * p - 1) == 3 * base * (p - 1) + 3 * (base * p)
  {
    assert base * (2 * p - 1) == base * (p - 1) + base * p;
  }

  /** From a fresh counter and below the cap, n waits that ran out without a stable
      connection took at least three quarters of base * (2^n - 1), to n ms. */
  lemma {:induction false} FlappingDoubles(plan: Plan, turns: seq<Turn>, more: seq<Turn>)
    requires NoneLost(plan, turns + more) && plan.base > 0
    requires Run(plan, turns).wait.timers == map[] && Run(plan, turns).attempts == 0
    requires forall i :: 0 <= i < |more| ==> !more[i].input.Stable?
    ensures var from, s := Run(plan, turns), Run(plan, turns + more);
      s.time.fired >= from.time.fired &&
      var n := s.time.fired - from.time.fired;
      n <= 21 && (n > 0 ==> plan.base * Power2(n - 1) <= plan.cap) ==>
        4 * (s.time.clock - from.time.clock) >= 3 * plan.base * (Power2(n) - 1) - 4 * n
  {
    FlappingSlowsDown(plan, turns, more);
    var n := Run(plan, turns + more).time.fired - Run(plan, turns).time.fired;
    if n <= 21 && (n > 0 ==> plan.base * Power2(n - 1) <= plan.cap) { SumDoubles(plan, n); }
  }

  /** Since `from`, each wait that ran out counted as an attempt, and all of them
      took at least three quarters of their steps. */
  predicate Slowed(from: Link, s: Link) {
    && s.attempts >= from.attempts + (s.time.fired - from.time.fired) >= from.attempts
    && s.time.clock - from.time.clock >= SumFrom(from.plan, from.attempts, s.time.fired - from.time.fired)
  }

  // ----- No wait is longer than promised -----

  ghost predicate Soon(s: Link) {
    forall id :: id in s.wait.timers ==> s.wait.timers[id].due <= s.time.clock + Max(900_000, s.plan.cap)
  }

  lemma TookSoon(s: Link, turn: Turn)
    requires Soon(s) && Rested(s)
    ensures Soon(Took(s, turn))
  {
    if Enabled(s, turn.input) {
      if turn.input.Fire? {
      } else if !turn.input.Stable? && !turn.input.Passes? {
        NextInTime(s, turn);
      }
    }
  }

  /** Whatever happens, a waiting client tries again within the longest wait: 15
      minutes, or the cap where that is longer. */
  lemma {:induction false} TriesAgainSoon(plan: Plan, turns: seq<Turn>)
    ensures Soon(Run(plan, turns))
  {
    if turns != [] {
      TriesAgainSoon(plan, turns[..|turns| - 1]);
      TookSoon(Run(plan, turns[..|turns| - 1]), turns[|turns| - 1]);
    }
  }
}
