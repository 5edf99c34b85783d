/** When the watcher starts and stops profiling runs by itself: only at the end of an unbroken streak of evaluations. */
module AutoTrigger {
  import opened Common

  datatype Active = NoRun | Running(automatic: bool)

  /** What one evaluation reads: the clock, the settings, the active run, and the drivers. */
  datatype Evaluation = Evaluation(
    now: real, enabled: bool, active: Active, drivers: int, threshold: int, startGrace: real, stopGrace: real)

  datatype Action = Nothing | Start | Stop

  datatype Timers = Timers(above: Option<real>, below: Option<real>)

  function Elapsed(since: Option<real>, now: real): real {
    now - if since.Some? then since.value else now
  }

  function Since(since: Option<real>, now: real): Option<real> {
    if since.Some? then since else Some(now)
  }

  /** What one evaluation does, and the timers it leaves for the next. */
  function Evaluate(t: Timers, e: Evaluation): (Timers, Action) {
    if !e.enabled then (Timers(None, None), Nothing)
    else if e.active.NoRun? then
      if e.drivers < e.threshold then (Timers(None, None), Nothing)
      else if Elapsed(t.above, e.now) >= e.startGrace then (Timers(None, None), Start)
      else (Timers(Since(t.above, e.now), None), Nothing)
    else if !e.active.automatic then (Timers(None, None), Nothing)
    else if e.drivers >= e.threshold then (Timers(None, None), Nothing)
    else if Elapsed(t.below, e.now) >= e.stopGrace then (Timers(None, None), Stop)
    else (Timers(None, Since(t.below, e.now)), Nothing)
  }

  /** What must hold without a break: no run and enough drivers, or a run of the watcher and too few. */
  predicate Holds(a: Action, e: Evaluation) {
    match a
    case Nothing => false
    case Start => e.enabled && e.active.NoRun? && e.drivers >= e.threshold
    case Stop => e.enabled && e.active == Running(true) && e.drivers < e.threshold
  }

  function Grace(a: Action, e: Evaluation): real { if a == Start then e.startGrace else e.stopGrace }

  function Timer(a: Action, t: Timers): Option<real> { if a == Start then t.above else t.below }

  datatype Watched = Watched(timers: Timers, actions: seq<Action>)

  /** The watcher after these evaluations. */
  function Watch(es: seq<Evaluation>): (w: Watched)
    ensures |w.actions| == |es|
    decreases |es|
  {
    if es == [] then Watched(Timers(None, None), [])
    else
      var w := Watch(es[..|es| - 1]);
      var (t, a) := Evaluate(w.timers, es[|es| - 1]);
      Watched(t, w.actions + [a])
  }

  /** From i to before n the condition held at every evaluation and nothing was done. */
  ghost predicate Unbroken(a: Action, es: seq<Evaluation>, acts: seq<Action>, i: nat, n: nat)
    requires |acts| <= |es| && n <= |acts|
  {
    forall j | i <= j < n :: Holds(a, es[j]) && acts[j] != a
  }

  /** The streak that is running after n evaluations began at i. */
  ghost predicate Began(a: Action, es: seq<Evaluation>, acts: seq<Action>, i: nat, n: nat)
    requires |acts| <= |es| && n <= |acts|
  {
    i <= n && Unbroken(a, es, acts, i, n) && (i > 0 ==> !Holds(a, es[i - 1]) || acts[i - 1] == a)
  }

  /** The timer is the time of the first evaluation of the running streak. */
  lemma {:induction false} TimerIsStreak(a: Action, es: seq<Evaluation>) returns (i: nat)
    requires a != Nothing
    ensures Began(a, es, Watch(es).actions, i, |es|)
    ensures Timer(a, Watch(es).timers) == if i < |es| then Some(es[i].now) else None
    decreases |es|
  {
    i := 0;
    if es != [] {
      var n := |es| - 1;
      var w, v := Watch(es[..n]), Watch(es);
      var k := TimerIsStreak(a, es[..n]);
      forall j | k <= j < n ensures Holds(a, es[j]) && v.actions[j] != a { assert es[..n][j] == es[j] && v.actions[j] == w.actions[j]; }
      if Holds(a, es[n]) && v.actions[n] != a {
        i := k;
        if i > 0 { assert es[..n][i - 1] == es[i - 1] && v.actions[i - 1] == w.actions[i - 1]; }
      } else {
        i := |es|;
      }
    }
  }

  /** The condition has held for the whole grace, with no action of this kind in between. */
  ghost predicate Spanned(a: Action, es: seq<Evaluation>, acts: seq<Action>, n: nat)
    requires |acts| == |es| && n < |es|
  {
    Holds(a, es[n]) && exists i :: 0 <= i <= n && Unbroken(a, es, acts, i, n) && es[n].now - es[i].now >= Grace(a, es[n])
  }

  lemma {:induction false} WatchPrefix(es: seq<Evaluation>, n: nat)
    requires n <= |es|
    ensures Watch(es).actions[..n] == Watch(es[..n]).actions
    decreases |es|
  {
    if n < |es| {
      WatchPrefix(es[..|es| - 1], n);
      assert es[..|es| - 1][..n] == es[..n];
      assert Watch(es).actions[..n] == Watch(es[..|es| - 1]).actions[..n];
    } else {
      assert es[..n] == es;
    }
  }

  /** A run is started or stopped only after an unbroken streak as long as the grace. */
  lemma ActsOnlyAfterGrace(a: Action, es: seq<Evaluation>, n: nat)
    requires a != Nothing && n < |es| && Watch(es).actions[n] == a
    ensures Spanned(a, es, Watch(es).actions, n)
  {
    var acts := Watch(es).actions;
    var i := Streak(a, es, n);
    assert es[n].now - es[i].now >= Grace(a, es[n]);
  }

  /** The streak that the evaluation n meets, and what the evaluation makes of it. */
  lemma Streak(a: Action, es: seq<Evaluation>, n: nat) returns (i: nat)
    requires a != Nothing && n < |es|
    ensures Began(a, es, Watch(es).actions, i, n)
    ensures Watch(es).actions[n] == a <==> Holds(a, es[n]) && es[n].now - es[i].now >= Grace(a, es[n])
  {
    WatchPrefix(es, n);
    WatchPrefix(es, n + 1);
    assert es[..n + 1][..n] == es[..n];
    i := TimerIsStreak(a, es[..n]);
    var acts, w := Watch(es).actions, Watch(es[..n]);
    assert acts[n] == acts[..n + 1][n];
    forall j | 0 <= j < n ensures acts[j] == w.actions[j] && es[..n][j] == es[j] { assert acts[..n][j] == acts[j]; }
  }

  /** With a clock that does not go back, it is done exactly then. */
  lemma {:induction false} ActsExactlyAfterGrace(a: Action, es: seq<Evaluation>, n: nat)
    requires a != Nothing && n < |es| && forall i, j | 0 <= i < j < |es| :: es[i].now <= es[j].now
    ensures Watch(es).actions[n] == a <==> Spanned(a, es, Watch(es).actions, n)
  {
    var acts := Watch(es).actions;
    var i := Streak(a, es, n);
    if acts[n] == a { ActsOnlyAfterGrace(a, es, n); }
    if Spanned(a, es, acts, n) {
      var k :| 0 <= k <= n && Unbroken(a, es, acts, k, n) && es[n].now - es[k].now >= Grace(a, es[n]);
      BeganFirst(a, es, acts, i, k, n);
    }
  }

  lemma BeganFirst(a: Action, es: seq<Evaluation>, acts: seq<Action>, i: nat, k: nat, n: nat)
    requires |acts| <= |es| && n <= |acts| && k <= n && Began(a, es, acts, i, n) && Unbroken(a, es, acts, k, n)
    ensures i <= k
  {
  }

  /** The loop of the watcher over the evaluations that complete. */
  method WatcherLoop(es: seq<Evaluation>) returns (acts: seq<Action>)
    ensures acts == Watch(es).actions
    ensures forall n | 0 <= n < |es| && acts[n] != Nothing :: Spanned(acts[n], es, acts, n)
  {
    var aboveSince, belowSince: Option<real> := None, None;
    acts := [];
    var i := 0;
    while i < |es|
      invariant 0 <= i <= |es|
      invariant Watched(Timers(aboveSince, belowSince), acts) == Watch(es[..i])
    {
      var e := es[i];
      var act := Nothing;
      if !e.enabled {
        aboveSince, belowSince := None, None;
      } else if e.active.NoRun? {
        if e.drivers >= e.threshold {
          if aboveSince.None? { aboveSince := Some(e.now); }
          if e.now - aboveSince.value >= e.startGrace {
            act := Start;
            aboveSince := None;
          }
        } else {
          aboveSince := None;
        }
        belowSince := None;
      } else if !e.active.automatic {
        aboveSince, belowSince := None, None;
      } else {
        if e.drivers < e.threshold {
          if belowSince.None? { belowSince := Some(e.now); }
          if e.now - belowSince.value >= e.stopGrace {
            act := Stop;
            belowSince := None;
          }
        } else {
          belowSince := None;
        }
        aboveSince := None;
      }
      acts := acts + [act];
      assert es[..i + 1][..i] == es[..i];
      i := i + 1;
    }
    assert es[..i] == es;
    forall n | 0 <= n < |es| && acts[n] != Nothing ensures Spanned(acts[n], es, acts, n) {
      ActsOnlyAfterGrace(acts[n], es, n);
    }
  }
}
