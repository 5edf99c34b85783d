/** Runs in which each caller acts once on what it read once. */
module ProtocolReads {
  import opened Common
  import opened Journal
  import opened Protocol
  import opened ProtocolSteps

  /** The step hands the record `r` to a caller. */
  ghost predicate Returns(s: State, step: Step, r: Row)
    requires Enabled(s, step)
  {
    || (step.Deliver? && Receive(s.tables, step.e, step.now).result == Ok(r))
    || (step.Read? && s.tables.rows[step.k] == r)
  }

  /** How many callers hold `r` after the step, when `n` held it before: each schedules once on what it read once. */
  ghost function HeldAfter(s: State, step: Step, r: Row, n: int): int
    requires Enabled(s, step)
  {
    if step.Crash? then 0
    else if step.Schedule? && step.r == r then n - 1
    else if Returns(s, step, r) then n + 1
    else n
  }

  ghost function HeldBy(s: State, steps: seq<Step>, r: Row, n: int): int
    decreases |steps|
  {
    if steps == [] || !Enabled(s, steps[0]) then n
    else HeldBy(Apply(s, steps[0]), steps[1..], r, HeldAfter(s, steps[0], r, n))
  }

  /** Every schedule on `r` is matched by a read of its own that returned `r` before it, in the same lifetime. */
  ghost predicate Matched(s: State, steps: seq<Step>, r: Row, n: int)
    decreases |steps|
  {
    steps != [] && Enabled(s, steps[0]) ==>
      && (steps[0].Schedule? && steps[0].r == r ==> n > 0)
      && Matched(Apply(s, steps[0]), steps[1..], r, HeldAfter(s, steps[0], r, n))
  }

  /** A run from the empty journal in which no caller acts twice on what it read once. */
  ghost predicate EachReadUsedOnce(steps: seq<Step>) {
    forall r :: Matched(INITIAL, steps, r, 0)
  }

  lemma {:induction false} MatchedJoin(s: State, p: seq<Step>, m: State, q: seq<Step>, r: Row, n: int)
    requires Leads(s, p, m) && Matched(s, p, r, n) && Matched(m, q, r, HeldBy(s, p, r, n))
    ensures Matched(s, p + q, r, n) && HeldBy(s, p + q, r, n) == HeldBy(m, q, r, HeldBy(s, p, r, n))
    decreases |p|
  {
    hide Enabled, Apply, HeldAfter;
    if p == [] {
      assert p + q == q;
    } else {
      MatchedJoin(Apply(s, p[0]), p[1..], m, q, r, HeldAfter(s, p[0], r, n));
      assert (p + q)[1..] == p[1..] + q;
    }
  }

  /** Nothing is scheduled and nobody crashes. */
  predicate Quiet(steps: seq<Step>) { forall i | 0 <= i < |steps| :: !steps[i].Schedule? && !steps[i].Crash? }

  lemma {:induction false} QuietIsMatched(s: State, steps: seq<Step>, s': State, r: Row, n: int)
    requires Leads(s, steps, s') && Quiet(steps)
    ensures Matched(s, steps, r, n) && HeldBy(s, steps, r, n) >= n
    decreases |steps|
  {
    hide Apply, Enabled, Returns;
    if steps != [] { QuietIsMatched(Apply(s, steps[0]), steps[1..], s', r, HeldAfter(s, steps[0], r, n)); }
  }

  /** Only workers move. */
  predicate Working(steps: seq<Step>) { forall i | 0 <= i < |steps| :: WorkerStep(steps[i]) }

  /** One schedule on `r`, and what the workers then do. */
  predicate OneFlight(steps: seq<Step>, r: Row) { steps != [] && steps[0].Schedule? && steps[0].r == r && Working(steps[1..]) }

  lemma FlightIsMatched(s: State, steps: seq<Step>, s': State, r: Row, x: Row, n: int)
    requires Leads(s, steps, s') && OneFlight(steps, r) && (x == r ==> n > 0)
    ensures Matched(s, steps, x, n) && HeldBy(s, steps, x, n) >= if x == r then n - 1 else n
  {
    hide Apply, Enabled, Returns;
    QuietIsMatched(Apply(s, steps[0]), steps[1..], s', x, HeldAfter(s, steps[0], x, n));
  }

  /** With more reads in hand the same schedules are matched. */
  lemma {:induction false} MatchedMore(s: State, steps: seq<Step>, r: Row, n: int, more: int)
    requires Matched(s, steps, r, n) && n <= more
    ensures Matched(s, steps, r, more)
    decreases |steps|
  {
    hide Apply, Enabled, Returns;
    if steps != [] && Enabled(s, steps[0]) {
      MatchedMore(Apply(s, steps[0]), steps[1..], r, HeldAfter(s, steps[0], r, n), HeldAfter(s, steps[0], r, more));
    }
  }

  lemma {:induction false} HeldIsNatural(s: State, steps: seq<Step>, s': State, r: Row, n: int)
    requires Leads(s, steps, s') && Matched(s, steps, r, n) && n >= 0
    ensures HeldBy(s, steps, r, n) >= 0
    decreases |steps|
  {
    hide Apply, Enabled, Returns;
    if steps != [] { HeldIsNatural(Apply(s, steps[0]), steps[1..], s', r, HeldAfter(s, steps[0], r, n)); }
  }

  /** A run whose schedules are matched by reads of its own can follow any other. */
  lemma FollowsUsedOnce(before: seq<Step>, s: State, steps: seq<Step>)
    requires Leads(INITIAL, before, s) && EachReadUsedOnce(before) && forall r :: Matched(s, steps, r, 0)
    ensures EachReadUsedOnce(before + steps)
  {
    hide Leads, Matched, HeldBy;
    forall r ensures Matched(INITIAL, before + steps, r, 0) {
      assert Matched(INITIAL, before, r, 0) && Matched(s, steps, r, 0);
      HeldIsNatural(INITIAL, before, s, r, 0);
      MatchedMore(s, steps, r, 0, HeldBy(INITIAL, before, r, 0));
      MatchedJoin(INITIAL, before, s, steps, r, 0);
    }
  }

  /** Matched and leaving nothing owed. */
  ghost predicate Balanced(s: State, steps: seq<Step>) {
    forall r :: Matched(s, steps, r, 0) && HeldBy(s, steps, r, 0) >= 0
  }

  lemma QuietIsBalanced(s: State, steps: seq<Step>, s': State)
    requires Leads(s, steps, s') && Quiet(steps)
    ensures Balanced(s, steps)
  {
    forall r ensures Matched(s, steps, r, 0) && HeldBy(s, steps, r, 0) >= 0 { QuietIsMatched(s, steps, s', r, 0); }
  }

  lemma BalancedJoin(s: State, p: seq<Step>, m: State, q: seq<Step>, s': State)
    requires Leads(s, p, m) && Balanced(s, p) && Leads(m, q, s') && Balanced(m, q)
    ensures Balanced(s, p + q)
  {
    hide Leads, Matched, HeldBy;
    forall r ensures Matched(s, p + q, r, 0) && HeldBy(s, p + q, r, 0) >= 0 {
      var n := HeldBy(s, p, r, 0);
      assert Matched(s, p, r, 0) && Matched(m, q, r, 0);
      MatchedMore(m, q, r, 0, n);
      MatchedJoin(s, p, m, q, r, 0);
      HeldIsNatural(m, q, s', r, n);
    }
  }

  /** A delivery and one flight on the record it returned. */
  lemma DeliveryThenFlight(s: State, d: Step, steps: seq<Step>, s': State, r: Row)
    requires d.Deliver? && Enabled(s, d) && Returns(s, d, r) && Leads(Apply(s, d), steps, s') && OneFlight(steps, r)
    ensures Balanced(s, [d] + steps)
  {
    forall x ensures Matched(s, [d] + steps, x, 0) && HeldBy(s, [d] + steps, x, 0) >= 0 {
      var n := HeldAfter(s, d, x, 0);
      assert n >= 0 && (x == r ==> n > 0);
      FlightIsMatched(Apply(s, d), steps, s', r, x, n);
      assert ([d] + steps)[1..] == steps;
      hide Returns, HeldAfter, Apply, Enabled;
    }
  }

  /** A caller that still holds `r` may schedule on it. */
  lemma FlightIsUsedOnce(before: seq<Step>, s: State, steps: seq<Step>, s': State, r: Row)
    requires Leads(INITIAL, before, s) && EachReadUsedOnce(before) && HeldBy(INITIAL, before, r, 0) > 0
    requires Leads(s, steps, s') && OneFlight(steps, r)
    ensures EachReadUsedOnce(before + steps)
  {
    hide Leads, Matched, HeldBy;
    forall x ensures Matched(INITIAL, before + steps, x, 0) {
      assert Matched(INITIAL, before, x, 0);
      FlightIsMatched(s, steps, s', r, x, HeldBy(INITIAL, before, x, 0));
      MatchedJoin(INITIAL, before, s, steps, x, 0);
    }
  }

  lemma QuietIsUsedOnce(before: seq<Step>, s: State, steps: seq<Step>, s': State)
    requires Leads(INITIAL, before, s) && EachReadUsedOnce(before) && Leads(s, steps, s') && Quiet(steps)
    ensures EachReadUsedOnce(before + steps)
  {
    hide Leads, Matched, HeldBy;
    forall x ensures Matched(INITIAL, before + steps, x, 0) {
      assert Matched(INITIAL, before, x, 0);
      QuietIsMatched(s, steps, s', x, HeldBy(INITIAL, before, x, 0));
      MatchedJoin(INITIAL, before, s, steps, x, 0);
    }
  }
}
