/**
  SeasonRestartGuard: the decision on one observation, the polling loop over the running instances, and what a whole
  run of polls does with a growing log.
 */
module RestartGuard {
  import opened Common
  import opened GameLog

  /** The part of an instance's runtime info the guard reads and writes. */
  datatype Info = Info(
    running: bool, stopOnRestart: bool, triggered: bool, lastProcessed: nat, observation: Option<Facts>)

  datatype Verdict = Skip | Wait | Allow | Stop

  /** A restart may still be allowed: the log is whole and nothing competitive has begun. */
  predicate CanContinue(f: Facts) {
    f.fromStart && f.sportStartedAt.None? && f.raceStartedAt.None? && f.crashAt.None?
  }

  predicate Watched(info: Info) {
    info.running && info.stopOnRestart && !info.triggered
  }

  function Decide(info: Info, f: Facts): Verdict {
    if !Watched(info) then Skip
    else if f.restartCount <= info.lastProcessed || f.restartAt.None? then Wait
    else if CanContinue(f) then Allow
    else Stop
  }

  /** The info after one turn of the loop; a stop that raises disarms nothing. */
  function AfterTurn(info: Info, f: Facts, stopRaised: bool): Info {
    match Decide(info, f)
    case Skip => info
    case Wait => info.(observation := Some(f))
    case Allow => info.(observation := Some(f), lastProcessed := f.restartCount)
    case Stop => info.(observation := Some(f), triggered := !stopRaised)
  }

  /**
    When a turn stops: the instance runs, is to be stopped on a restart and was not stopped yet; a new, dated restart was
    observed; and the log was not read whole, or the sport, the race or a crash has a time. A turn that does not stop
    lets a new restart pass only when none of that is so, and what was let pass is not looked at again.
   */
  lemma DecidesExactlyWhen(info: Info, f: Facts, raised: bool)
    ensures
      var armed := info.running && info.stopOnRestart && !info.triggered;
      var anew := f.restartCount > info.lastProcessed && f.restartAt != None;
      var begun := !f.fromStart || f.sportStartedAt != None || f.raceStartedAt != None || f.crashAt != None;
      var after := AfterTurn(info, f, raised);
      && (Decide(info, f) == Verdict.Stop <==> armed && anew && begun)
      && (!armed ==> after == info)
      && (armed ==> after.observation == Some(f) && after.triggered == (anew && begun && !raised)
                    && after.lastProcessed == (if anew && !begun then f.restartCount else info.lastProcessed))
      && after.running == info.running && after.stopOnRestart == info.stopOnRestart
  {
  }

  /** The instances that these observations stop, in their order. */
  function Stopping(infos: map<string, Info>, observed: map<string, Facts>, snapshot: seq<string>): seq<string>
    requires forall s | s in snapshot :: s in infos && s in observed
    decreases |snapshot|
  {
    if snapshot == [] then []
    else
      var s := snapshot[|snapshot| - 1];
      Stopping(infos, observed, snapshot[..|snapshot| - 1]) + if Decide(infos[s], observed[s]) == Verdict.Stop then [s] else []
  }

  /**
    The first `turns` instances of the snapshot have had their turn, the last of them with or without its stop raising,
    and no other instance has changed.
   */
  ghost predicate Turned(was: map<string, Info>, infos: map<string, Info>, observed: map<string, Facts>,
                         snapshot: seq<string>, turns: nat, raised: bool)
    requires (forall s | s in snapshot :: s in was && s in observed) && turns <= |snapshot|
  {
    && infos.Keys == was.Keys
    && (forall i | 0 <= i < turns :: var s := snapshot[i];
          infos[s] == AfterTurn(was[s], observed[s], raised && i == turns - 1))
    && (forall s | s in was && s !in snapshot[..turns] :: infos[s] == was[s])
  }

  lemma TurnedStep(was: map<string, Info>, infos: map<string, Info>, observed: map<string, Facts>, snapshot: seq<string>,
                   n: nat, raised: bool)
    requires (forall s | s in snapshot :: s in was && s in observed) && n < |snapshot|
    requires forall i, j | 0 <= i < j < |snapshot| :: snapshot[i] != snapshot[j]
    requires Turned(was, infos, observed, snapshot, n, false)
    ensures snapshot[n] in infos && infos[snapshot[n]] == was[snapshot[n]]
    ensures Turned(was, infos[snapshot[n] := AfterTurn(was[snapshot[n]], observed[snapshot[n]], raised)], observed, snapshot, n + 1, raised)
  {
    hide AfterTurn;
    assert snapshot[..n + 1] == snapshot[..n] + [snapshot[n]];
  }

  lemma StoppingStep(infos: map<string, Info>, observed: map<string, Facts>, snapshot: seq<string>, n: nat)
    requires (forall s | s in snapshot :: s in infos && s in observed) && n < |snapshot|
    ensures
      Stopping(infos, observed, snapshot[..n + 1]) ==
      Stopping(infos, observed, snapshot[..n]) +
      if Decide(infos[snapshot[n]], observed[snapshot[n]]) == Verdict.Stop then [snapshot[n]] else []
  {
    hide Decide;
    assert snapshot[..n + 1][..n] == snapshot[..n];
  }

  class SeasonRestartGuard {
    var infos: map<string, Info>
    ghost var stops: seq<string>

    constructor (infos: map<string, Info>)
      ensures this.infos == infos && stops == []
    {
      this.infos, stops := infos, [];
    }

    /** stop_instance, which may raise. */
    method Stop(instance: string) returns (raised: bool)
      modifies this`stops
      ensures stops == old(stops) + [instance]
    {
      stops := stops + [instance];
      raised := *;
    }

    /** One turn of the polling loop for one instance. */
    method Turn(instance: string, f: Facts) returns (stopped: bool, raised: bool)
      requires instance in infos
      modifies this
      ensures infos == old(infos)[instance := AfterTurn(old(infos)[instance], f, raised)]
      ensures var v := Decide(old(infos)[instance], f);
              && stops == old(stops) + (if v == Verdict.Stop then [instance] else [])
              && (raised ==> v == Verdict.Stop)
              && stopped == (v == Verdict.Stop && !raised)
    {
      var info := infos[instance];
      raised, stopped := false, false;
      if !info.running || !info.stopOnRestart || info.triggered {
        assert infos[instance := info] == infos;
        return;
      }
      infos := infos[instance := info.(observation := Some(f))];
      if f.restartCount <= info.lastProcessed || f.restartAt.None? { return; }
      if CanContinue(f) {
        infos := infos[instance := infos[instance].(lastProcessed := f.restartCount)];
        return;
      }
      infos := infos[instance := infos[instance].(triggered := true)];
      raised := Stop(instance);
      if raised {
        infos := infos[instance := infos[instance].(triggered := false)];
        return;
      }
      stopped := true;
    }

    /**
      One poll over the snapshot of running instances, `observed` being what the log observer returns for each. A
      stop that raises ends the poll: the instances before it have had their turn, those after it have not.
     */
    method RunOnce(snapshot: seq<string>, observed: map<string, Facts>) returns (stopped: nat, raised: bool, turns: nat)
      requires forall i | 0 <= i < |snapshot| :: snapshot[i] in infos && snapshot[i] in observed
      requires forall i, j | 0 <= i < j < |snapshot| :: snapshot[i] != snapshot[j]
      modifies this
      ensures turns <= |snapshot| && (!raised ==> turns == |snapshot|) && (raised ==> turns > 0)
      ensures Turned(old(infos), infos, observed, snapshot, turns, raised)
      ensures raised ==> Decide(old(infos)[snapshot[turns - 1]], observed[snapshot[turns - 1]]) == Verdict.Stop
      ensures stops == old(stops) + Stopping(old(infos), observed, snapshot[..turns])
      ensures stopped == |Stopping(old(infos), observed, snapshot[..turns])| - if raised then 1 else 0
    {
      assert Stopping(infos, observed, snapshot[..0]) == [];
      hide Decide, AfterTurn, Stopping;
      assert Turned(infos, infos, observed, snapshot, 0, false);
      hide Turned;
      stopped, raised, turns := 0, false, 0;
      while turns < |snapshot|
        invariant 0 <= turns <= |snapshot| && !raised
        invariant Turned(old(infos), infos, observed, snapshot, turns, false)
        invariant stops == old(stops) + Stopping(old(infos), observed, snapshot[..turns])
        invariant stopped == |Stopping(old(infos), observed, snapshot[..turns])|
      {
        var instance := snapshot[turns];
        StoppingStep(old(infos), observed, snapshot, turns);
        TurnedStep(old(infos), infos, observed, snapshot, turns, false);
        TurnedStep(old(infos), infos, observed, snapshot, turns, true);
        var one;
        one, raised := Turn(instance, observed[instance]);
        turns := turns + 1;
        if raised { return; }
        if one { stopped := stopped + 1; }
      }
    }
  }

  // ---------------------------------------------------------------- one instance over a whole run

  /** Whatever forbids a restart has begun. */
  predicate Begun(f: Facts) { !CanContinue(f) }

  function FactsAt(classify: Classifier, lines: seq<string>, n: nat): Facts
    requires n <= |lines|
  {
    Fold(classify, NoFacts(true), lines[..n])
  }

  const ARMED := Info(true, true, false, 0, None)

  /** The guard's state after polling when the log had polls[0], polls[1], ... complete lines, no stop raising. */
  function Polled(classify: Classifier, lines: seq<string>, polls: seq<nat>): Info
    requires forall i | 0 <= i < |polls| :: polls[i] <= |lines|
    decreases |polls|
  {
    if polls == [] then ARMED
    else
      AfterTurn(Polled(classify, lines, polls[..|polls| - 1]), FactsAt(classify, lines, polls[|polls| - 1]), false)
  }

  /** Poll `i` stops the instance. */
  predicate StopsAt(classify: Classifier, lines: seq<string>, polls: seq<nat>, i: nat)
    requires forall i | 0 <= i < |polls| :: polls[i] <= |lines|
    requires i < |polls|
  {
    Decide(Polled(classify, lines, polls[..i]), FactsAt(classify, lines, polls[i])) == Verdict.Stop
  }

  ghost predicate Ascending(polls: seq<nat>) {
    forall i, j | 0 <= i <= j < |polls| :: polls[i] <= polls[j]
  }

  // ---------------------------------------------------------------- what the lines say

  /** The last session created by line `b` is of this phase. */
  ghost predicate InPhase(classify: Classifier, lines: seq<string>, b: int, phase: Phase)
    requires b < |lines|
  {
    exists c :: 0 <= c <= b && classify(lines[c]).created == Some(phase)
                && forall d | c < d <= b :: classify(lines[d]).created.None?
  }

  /** Line `b` starts a timed session while qualifying, or a race. */
  ghost predicate IsStart(classify: Classifier, lines: seq<string>, b: nat)
    requires b < |lines|
  {
    || (classify(lines[b]).timedStart && InPhase(classify, lines, b, Qualifying))
    || (classify(lines[b]).raceStart && InPhase(classify, lines, b, Race))
  }

  predicate IsDated(classify: Classifier, line: string) { classify(line).timestamp.Some? }

  ghost predicate DatedStart(classify: Classifier, lines: seq<string>, b: nat)
    requires b < |lines|
  {
    IsStart(classify, lines, b) && IsDated(classify, lines[b])
  }

  type Pattern = LineFacts -> bool

  const CRASH: Pattern := (c: LineFacts) => c.crash
  const RESTART: Pattern := (c: LineFacts) => c.restart

  /** Among the first `n` lines there is one with this pattern, and the last of them carries a timestamp. */
  ghost predicate LastDated(classify: Classifier, lines: seq<string>, pattern: Pattern, n: nat)
    requires n <= |lines|
  {
    exists c :: 0 <= c < n && pattern(classify(lines[c])) && IsDated(classify, lines[c])
                && forall d | c < d < n :: !pattern(classify(lines[d]))
  }

  lemma FactsStep(classify: Classifier, lines: seq<string>, n: nat)
    requires n < |lines|
    ensures FactsAt(classify, lines, n + 1) == See(FactsAt(classify, lines, n), lines[n], classify(lines[n]))
  {
    assert lines[..n + 1][..n] == lines[..n];
  }

  lemma LastDatedStep(classify: Classifier, lines: seq<string>, pattern: Pattern, n: nat)
    requires n < |lines|
    ensures LastDated(classify, lines, pattern, n + 1) <==>
            if pattern(classify(lines[n])) then IsDated(classify, lines[n]) else LastDated(classify, lines, pattern, n)
  {
    if pattern(classify(lines[n])) {
      assert IsDated(classify, lines[n]) ==> LastDated(classify, lines, pattern, n + 1);
    } else if LastDated(classify, lines, pattern, n) {
      var c :| 0 <= c < n && pattern(classify(lines[c])) && IsDated(classify, lines[c])
               && forall d | c < d < n :: !pattern(classify(lines[d]));
      assert forall d | c < d < n + 1 :: !pattern(classify(lines[d]));
    }
  }

  lemma InPhaseStep(classify: Classifier, lines: seq<string>, n: nat, phase: Phase)
    requires n < |lines|
    ensures InPhase(classify, lines, n, phase) <==>
            if classify(lines[n]).created.Some? then classify(lines[n]).created.value == phase
            else InPhase(classify, lines, n - 1, phase)
  {
    if classify(lines[n]).created.Some? {
      if InPhase(classify, lines, n, phase) {
        var c :| 0 <= c <= n && classify(lines[c]).created == Some(phase)
                 && forall d | c < d <= n :: classify(lines[d]).created.None?;
        assert c == n;
      }
    } else if InPhase(classify, lines, n - 1, phase) {
      var c :| 0 <= c <= n - 1 && classify(lines[c]).created == Some(phase)
               && forall d | c < d <= n - 1 :: classify(lines[d]).created.None?;
      assert forall d | c < d <= n :: classify(lines[d]).created.None?;
    }
  }

  lemma {:induction false} PhaseIsLast(classify: Classifier, lines: seq<string>, n: nat, phase: Phase)
    requires n <= |lines|
    ensures FactsAt(classify, lines, n).phase == Some(phase) <==> InPhase(classify, lines, n - 1, phase)
    decreases n
  {
    if n > 0 {
      PhaseIsLast(classify, lines, n - 1, phase);
      FactsStep(classify, lines, n - 1);
      InPhaseStep(classify, lines, n - 1, phase);
    }
  }

  lemma StartAtLine(classify: Classifier, lines: seq<string>, m: nat)
    requires m < |lines|
    ensures DatedStart(classify, lines, m) <==> StartsDated(classify(lines[m]), FactsAt(classify, lines, m + 1).phase)
  {
    PhaseIsLast(classify, lines, m + 1, Qualifying);
    PhaseIsLast(classify, lines, m + 1, Race);
    hide FactsAt, InPhase;
  }

  /** The sport has a start time exactly when a line started it in its phase and carries a timestamp. */
  lemma {:induction false} SportStartedMeans(classify: Classifier, lines: seq<string>, n: nat)
    requires n <= |lines|
    ensures FactsAt(classify, lines, n).sportStartedAt.Some? <==> exists b :: 0 <= b < n && DatedStart(classify, lines, b)
    ensures FactsAt(classify, lines, n).raceStartedAt.Some? ==> FactsAt(classify, lines, n).sportStartedAt.Some?
    decreases n
  {
    if n > 0 {
      hide See, FactsAt, DatedStart, StartsDated;
      SportStartedMeans(classify, lines, n - 1);
      FactsStep(classify, lines, n - 1);
      StartAtLine(classify, lines, n - 1);
      StartStep(FactsAt(classify, lines, n - 1), lines[n - 1], classify(lines[n - 1]));
    }
  }

  predicate StartsDated(c: LineFacts, phase: Option<Phase>) {
    c.timestamp.Some? && ((c.timedStart && phase == Some(Qualifying)) || (c.raceStart && phase == Some(Race)))
  }

  lemma StartStep(f: Facts, line: string, c: LineFacts)
    ensures
      var g := See(f, line, c);
      && (g.sportStartedAt.Some? <==> f.sportStartedAt.Some? || StartsDated(c, g.phase))
      && (g.raceStartedAt.Some? ==> f.raceStartedAt.Some? || g.sportStartedAt.Some?)
      && (f.sportStartedAt.Some? ==> g.sportStartedAt.Some?)
  {
  }

  lemma LastStep(f: Facts, line: string, c: LineFacts)
    ensures
      var g := See(f, line, c);
      && g.crashAt == (if c.crash then c.timestamp else f.crashAt)
      && g.restartAt == (if c.restart then c.timestamp else f.restartAt)
      && g.fromStart == f.fromStart
  {
  }

  /** A crash is remembered exactly when the last crash line carries a timestamp, and a restart likewise. */
  lemma {:induction false} LastsAreRemembered(classify: Classifier, lines: seq<string>, n: nat)
    requires n <= |lines|
    ensures FactsAt(classify, lines, n).crashAt.Some? <==> LastDated(classify, lines, CRASH, n)
    ensures FactsAt(classify, lines, n).restartAt.Some? <==> LastDated(classify, lines, RESTART, n)
    ensures FactsAt(classify, lines, n).fromStart
    decreases n
  {
    if n > 0 {
      LastsAreRemembered(classify, lines, n - 1);
      FactsStep(classify, lines, n - 1);
      LastDatedStep(classify, lines, CRASH, n - 1);
      LastDatedStep(classify, lines, RESTART, n - 1);
      LastStep(FactsAt(classify, lines, n - 1), lines[n - 1], classify(lines[n - 1]));
      hide LastDated, FactsAt, See;
    }
  }

  /** What the guard's test amounts to in terms of the lines of the log. */
  lemma BegunMeans(classify: Classifier, lines: seq<string>, n: nat)
    requires n <= |lines|
    ensures Begun(FactsAt(classify, lines, n)) <==>
            (exists b :: 0 <= b < n && DatedStart(classify, lines, b)) || LastDated(classify, lines, CRASH, n)
  {
    SportStartedMeans(classify, lines, n);
    LastsAreRemembered(classify, lines, n);
    hide FactsAt, DatedStart, LastDated;
  }

  // ---------------------------------------------------------------- restart counts

  /** The restart count does not go back. */
  lemma CountGrows(classify: Classifier, lines: seq<string>, m: nat, n: nat)
    requires m <= n <= |lines|
    ensures FactsAt(classify, lines, m).restartCount <= FactsAt(classify, lines, n).restartCount
  {
    assert lines[..n] == lines[..m] + lines[m..n];
    FoldJoins(classify, NoFacts(true), lines[..m], lines[m..n]);
    FirstsStay(classify, FactsAt(classify, lines, m), lines[m..n]);
  }

  /** It grows exactly when there is a restart line in between. */
  lemma {:induction false} CountGrowsExactlyWhen(classify: Classifier, lines: seq<string>, m: nat, n: nat)
    requires m <= n <= |lines|
    ensures FactsAt(classify, lines, m).restartCount < FactsAt(classify, lines, n).restartCount <==>
            exists r :: m <= r < n && classify(lines[r]).restart
    decreases n
  {
    if m < n {
      CountGrowsExactlyWhen(classify, lines, m, n - 1);
      CountGrows(classify, lines, m, n - 1);
      FactsStep(classify, lines, n - 1);
      hide FactsAt;
    }
  }

  /** While it has not stopped anything, the guard has processed no more restarts than it has seen. */
  lemma {:induction false} ProcessedIsSeen(classify: Classifier, lines: seq<string>, polls: seq<nat>)
    requires forall i | 0 <= i < |polls| :: polls[i] <= |lines|
    requires Ascending(polls)
    requires forall i | 0 <= i < |polls| :: !StopsAt(classify, lines, polls, i)
    ensures
      var info := Polled(classify, lines, polls);
      && Watched(info)
      && info.lastProcessed <= (if polls == [] then 0 else FactsAt(classify, lines, polls[|polls| - 1]).restartCount)
      && (Timestamped(classify, lines) && polls != [] ==>
            info.lastProcessed == FactsAt(classify, lines, polls[|polls| - 1]).restartCount)
    decreases |polls|
  {
    if polls != [] {
      var before := polls[..|polls| - 1];
      var n := polls[|polls| - 1];
      forall i | 0 <= i < |before| ensures !StopsAt(classify, lines, before, i) {
        assert before[..i] == polls[..i] && !StopsAt(classify, lines, polls, i);
      }
      ProcessedIsSeen(classify, lines, before);
      CountGrows(classify, lines, if before == [] then 0 else before[|before| - 1], n);
      if Timestamped(classify, lines) { RestartsAreDated(classify, lines, n); }
      assert !StopsAt(classify, lines, polls, |polls| - 1);
      hide FactsAt, CanContinue;
    }
  }

  // ---------------------------------------------------------------- every log

  /** Among the first `n` lines the last restart is dated, and a dated start, or a dated last crash, is with it. */
  ghost predicate Decisive(classify: Classifier, lines: seq<string>, n: nat)
    requires n <= |lines|
  {
    && LastDated(classify, lines, RESTART, n)
    && ((exists b :: 0 <= b < n && DatedStart(classify, lines, b)) || LastDated(classify, lines, CRASH, n))
  }

  /** Poll `p` is the first that covers line `r`. */
  ghost predicate FirstCover(lines: seq<string>, polls: seq<nat>, r: nat, p: nat) {
    && (forall i | 0 <= i < |polls| :: polls[i] <= |lines|) && Ascending(polls)
    && p < |polls| && polls[p] > r && (p > 0 ==> polls[p - 1] <= r)
  }

  ghost predicate StoppedBy(classify: Classifier, lines: seq<string>, polls: seq<nat>, p: nat)
  {
    && (forall i | 0 <= i < |polls| :: polls[i] <= |lines|) && p < |polls|
    && exists q :: 0 <= q <= p && StopsAt(classify, lines, polls, q)
  }

  lemma DecisiveStops(classify: Classifier, lines: seq<string>, polls: seq<nat>, r: nat, p: nat)
    requires r < |lines| && classify(lines[r]).restart && FirstCover(lines, polls, r, p)
    requires Decisive(classify, lines, polls[p])
    ensures StoppedBy(classify, lines, polls, p)
  {
    var n := polls[p];
    LastsAreRemembered(classify, lines, n);
    BegunMeans(classify, lines, n);
    CountGrowsExactlyWhen(classify, lines, if p == 0 then 0 else polls[p - 1], n);
    hide FactsAt, Decisive, LastDated, DatedStart;
    if forall q | 0 <= q < p :: !StopsAt(classify, lines, polls, q) {
      var earlier := polls[..p];
      forall q | 0 <= q < |earlier| ensures !StopsAt(classify, lines, earlier, q) {
        assert earlier[..q] == polls[..q] && !StopsAt(classify, lines, polls, q);
      }
      ProcessedIsSeen(classify, lines, earlier);
      assert StopsAt(classify, lines, polls, p);
    }
  }

  /** A guard that polls once, when there are `n` lines. */
  lemma OnePoll(classify: Classifier, lines: seq<string>, r: nat, n: nat)
    requires r < n <= |lines| && classify(lines[r]).restart
    ensures FirstCover(lines, [n], r, 0)
    ensures StoppedBy(classify, lines, [n], 0) <==> Decisive(classify, lines, n)
  {
    LastsAreRemembered(classify, lines, n);
    BegunMeans(classify, lines, n);
    CountGrowsExactlyWhen(classify, lines, 0, n);
    assert lines[..0] == [];
    assert FactsAt(classify, lines, 0).restartCount == 0;
    assert [n][..0] == [] && Polled(classify, lines, []) == ARMED;
    hide FactsAt, LastDated, DatedStart;
    assert StopsAt(classify, lines, [n], 0) <==> Decisive(classify, lines, n);
  }

  /**
    Exactly when the guard cannot miss a restart: every choice of polls stops the instance by its first cover of
    restart `r` if and only if every prefix that covers it is decisive. This is for all logs, dated or not.
   */
  lemma NeverMissesExactlyWhen(classify: Classifier, lines: seq<string>, r: nat)
    requires r < |lines| && classify(lines[r]).restart
    ensures (forall polls, p | FirstCover(lines, polls, r, p) :: StoppedBy(classify, lines, polls, p)) <==>
            (forall n | r < n <= |lines| :: Decisive(classify, lines, n))
  {
    hide FirstCover, StoppedBy, Decisive;
    if forall n | r < n <= |lines| :: Decisive(classify, lines, n) {
      forall polls, p | FirstCover(lines, polls, r, p) ensures StoppedBy(classify, lines, polls, p) {
        CoverIsInside(lines, polls, r, p);
        DecisiveStops(classify, lines, polls, r, p);
      }
    }
    if forall polls, p | FirstCover(lines, polls, r, p) :: StoppedBy(classify, lines, polls, p) {
      forall n | r < n <= |lines| ensures Decisive(classify, lines, n) { OnePoll(classify, lines, r, n); }
    }
  }

  lemma CoverIsInside(lines: seq<string>, polls: seq<nat>, r: nat, p: nat)
    requires FirstCover(lines, polls, r, p)
    ensures p < |polls| && r < polls[p] <= |lines| && forall i | 0 <= i < |polls| :: polls[i] <= |lines|
  {
  }

  // ---------------------------------------------------------------- logs whose lines carry timestamps

  /** Restarts, crashes and starts carry a timestamp. */
  ghost predicate Timestamped(classify: Classifier, lines: seq<string>) {
    forall i | 0 <= i < |lines| :: var c := classify(lines[i]);
      c.restart || c.crash || c.timedStart || c.raceStart ==> c.timestamp.Some?
  }

  /** Line `b` is a crash, a qualifying start or a race start. */
  ghost predicate BeginsAt(classify: Classifier, lines: seq<string>, b: nat)
    requires b < |lines|
  {
    classify(lines[b]).crash || IsStart(classify, lines, b)
  }

  /** In a timestamped log a pattern is remembered as soon as it has been there. */
  lemma LastDatedMeans(classify: Classifier, lines: seq<string>, pattern: Pattern, n: nat)
    requires n <= |lines|
    requires forall i | 0 <= i < |lines| && pattern(classify(lines[i])) :: IsDated(classify, lines[i])
    ensures LastDated(classify, lines, pattern, n) <==> exists b :: 0 <= b < n && pattern(classify(lines[b]))
  {
    if LastDated(classify, lines, pattern, n) {
      var c :| 0 <= c < n && pattern(classify(lines[c])) && IsDated(classify, lines[c])
               && forall d | c < d < n :: !pattern(classify(lines[d]));
    }
    if exists b :: 0 <= b < n && pattern(classify(lines[b])) {
      var b :| 0 <= b < n && pattern(classify(lines[b]));
      HasLast(classify, lines, pattern, b, n);
    }
  }

  lemma {:induction false} HasLast(classify: Classifier, lines: seq<string>, pattern: Pattern, b: nat, n: nat)
    requires b < n <= |lines| && pattern(classify(lines[b]))
    requires forall i | 0 <= i < |lines| && pattern(classify(lines[i])) :: IsDated(classify, lines[i])
    ensures LastDated(classify, lines, pattern, n)
    decreases n
  {
    hide IsDated, LastDated;
    LastDatedStep(classify, lines, pattern, n - 1);
    if !pattern(classify(lines[n - 1])) { HasLast(classify, lines, pattern, b, n - 1); }
  }

  /** In a timestamped log the competition has begun for the guard exactly when a line has begun it. */
  lemma BegunAtLine(classify: Classifier, lines: seq<string>, n: nat)
    requires n <= |lines| && Timestamped(classify, lines)
    ensures Begun(FactsAt(classify, lines, n)) <==> exists b :: 0 <= b < n && BeginsAt(classify, lines, b)
  {
    BegunMeans(classify, lines, n);
    LastDatedMeans(classify, lines, CRASH, n);
    hide FactsAt, LastDated, InPhase;
    assert forall b | 0 <= b < n :: DatedStart(classify, lines, b) <==> IsStart(classify, lines, b);
    if exists b :: 0 <= b < n && CRASH(classify(lines[b])) {
      var b :| 0 <= b < n && CRASH(classify(lines[b]));
      assert BeginsAt(classify, lines, b);
    }
    if exists b :: 0 <= b < n && DatedStart(classify, lines, b) {
      var b :| 0 <= b < n && DatedStart(classify, lines, b);
      assert BeginsAt(classify, lines, b);
    }
    if exists b :: 0 <= b < n && BeginsAt(classify, lines, b) {
      var b :| 0 <= b < n && BeginsAt(classify, lines, b);
      assert CRASH(classify(lines[b])) || DatedStart(classify, lines, b);
    }
  }

  lemma RestartsAreDated(classify: Classifier, lines: seq<string>, n: nat)
    requires n <= |lines| && Timestamped(classify, lines)
    ensures FactsAt(classify, lines, n).restartCount > 0 <==> FactsAt(classify, lines, n).restartAt.Some?
    ensures FactsAt(classify, lines, n).restartAt.Some? <==> LastDated(classify, lines, RESTART, n)
  {
    LastsAreRemembered(classify, lines, n);
    LastDatedMeans(classify, lines, RESTART, n);
    CountGrowsExactlyWhen(classify, lines, 0, n);
    assert lines[..0] == [] && FactsAt(classify, lines, 0).restartCount == 0;
    hide FactsAt, LastDated;
    if exists b :: 0 <= b < n && RESTART(classify(lines[b])) {
      var b :| 0 <= b < n && RESTART(classify(lines[b]));
      assert 0 <= b < n && classify(lines[b]).restart;
    }
    if exists r :: 0 <= r < n && classify(lines[r]).restart {
      var r :| 0 <= r < n && classify(lines[r]).restart;
      assert RESTART(classify(lines[r]));
    }
  }

  /** From the first line that begins the competition on, every prefix with a restart is decisive. */
  lemma BegunIsDecisive(classify: Classifier, lines: seq<string>, b: nat, r: nat, n: nat)
    requires Timestamped(classify, lines) && b < n <= |lines| && r < n && BeginsAt(classify, lines, b) && classify(lines[r]).restart
    ensures Decisive(classify, lines, n)
  {
    BegunAtLine(classify, lines, n);
    BegunMeans(classify, lines, n);
    LastDatedMeans(classify, lines, RESTART, n);
    assert RESTART(classify(lines[r]));
    hide FactsAt, LastDated, DatedStart, BeginsAt;
  }

  /**
    Exactly when a poll stops the instance: if no poll before it did, it stops iff it covers a restart that the poll
    before it did not, and some line it covers began the competition.
   */
  lemma StopsExactlyWhen(classify: Classifier, lines: seq<string>, polls: seq<nat>, i: nat)
    requires forall i | 0 <= i < |polls| :: polls[i] <= |lines|
    requires Ascending(polls) && Timestamped(classify, lines) && i < |polls|
    requires forall j | 0 <= j < i :: !StopsAt(classify, lines, polls, j)
    ensures
      var m, n := if i == 0 then 0 else polls[i - 1], polls[i];
      StopsAt(classify, lines, polls, i) <==>
        (exists r :: m <= r < n && classify(lines[r]).restart) && (exists b :: 0 <= b < n && BeginsAt(classify, lines, b))
  {
    var m, n := if i == 0 then 0 else polls[i - 1], polls[i];
    var earlier := polls[..i];
    forall j | 0 <= j < |earlier| ensures !StopsAt(classify, lines, earlier, j) {
      assert earlier[..j] == polls[..j] && !StopsAt(classify, lines, polls, j);
    }
    ProcessedIsSeen(classify, lines, earlier);
    CountGrowsExactlyWhen(classify, lines, m, n);
    RestartsAreDated(classify, lines, n);
    BegunAtLine(classify, lines, n);
    assert lines[..0] == [] && FactsAt(classify, lines, 0).restartCount == 0;
    hide FactsAt, BeginsAt, Polled;
  }

  /**
    The guard never misses: for every append-only timestamped log and every choice of polling instants, if a restart
    line comes with or after a crash, a qualifying start or a race start, the first poll that covers it stops the
    instance, unless an earlier poll did.
   */
  lemma NeverMisses(classify: Classifier, lines: seq<string>, b: nat, r: nat, polls: seq<nat>, p: nat)
    requires Timestamped(classify, lines) && b <= r < |lines| && BeginsAt(classify, lines, b) && classify(lines[r]).restart
    requires FirstCover(lines, polls, r, p)
    ensures exists q :: 0 <= q <= p && StopsAt(classify, lines, polls, q)
  {
    hide BeginsAt, Timestamped, Decisive;
    BegunIsDecisive(classify, lines, b, r, polls[p]);
    DecisiveStops(classify, lines, polls, r, p);
  }

  function EveryLine(n: nat): (polls: seq<nat>)
    ensures |polls| == n && forall i | 0 <= i < n :: polls[i] == i + 1
  {
    seq(n, i requires 0 <= i => i + 1)
  }

  /** Polled after every line, the guard stops at exactly the first restart with a begin at it or before it. */
  lemma StopsAtTheFirst(classify: Classifier, lines: seq<string>, i: nat)
    requires Timestamped(classify, lines) && i < |lines|
    requires forall j | 0 <= j < i :: !StopsAt(classify, lines, EveryLine(|lines|), j)
    ensures StopsAt(classify, lines, EveryLine(|lines|), i) <==>
            classify(lines[i]).restart && exists b :: 0 <= b <= i && BeginsAt(classify, lines, b)
  {
    hide StopsAt, BeginsAt, Timestamped;
    StopsExactlyWhen(classify, lines, EveryLine(|lines|), i);
    assert EveryLine(|lines|)[i] == i + 1 && (i > 0 ==> EveryLine(|lines|)[i - 1] == i);
    if classify(lines[i]).restart {
      var m := if i == 0 then 0 else i;
      assert m <= i < i + 1 && classify(lines[i]).restart;
    }
  }

  // ---------------------------------------------------------------- the same, on the text of the log

  /** Lines complete in a prefix of the log are the first lines of the log. */
  lemma PrefixLines(log: string, n: nat)
    requires n <= |log|
    ensures Split(log[..n]).lines <= Split(log).lines
  {
    assert log[..n] + log[n..] == log;
    SplitJoins(log[..n], log[n..]);
  }

  function LinesBy(log: string, n: nat): nat
    requires n <= |log|
  {
    |Split(log[..n]).lines|
  }

  lemma LinesByGrows(log: string, m: nat, n: nat)
    requires m <= n <= |log|
    ensures LinesBy(log, m) <= LinesBy(log, n) <= |Split(log).lines|
  {
    PrefixLines(log, n);
    assert log[..n][..m] == log[..m];
    PrefixLines(log[..n], m);
  }

  /** What the observer reports after reading the first `n` characters. */
  function Reported(classify: Classifier, log: string, n: nat): Facts
    requires n <= |log|
  {
    Batch(classify, true, log[..n]).facts
  }

  /** They are the facts of the lines complete by then. */
  lemma ObserverReportsFacts(classify: Classifier, log: string, n: nat)
    requires n <= |log|
    ensures LinesBy(log, n) <= |Split(log).lines|
    ensures Reported(classify, log, n) == FactsAt(classify, Split(log).lines, LinesBy(log, n))
  {
    PrefixLines(log, n);
    assert Split(log).lines[..LinesBy(log, n)] == Split(log[..n]).lines;
  }

  /** The polls at these lengths, as counts of complete lines. */
  function LineCounts(log: string, lengths: seq<nat>): (polls: seq<nat>)
    requires forall i | 0 <= i < |lengths| :: lengths[i] <= |log|
    ensures |polls| == |lengths|
    ensures forall i | 0 <= i < |polls| :: polls[i] == LinesBy(log, lengths[i])
  {
    seq(|lengths|, i requires 0 <= i < |lengths| => LinesBy(log, lengths[i]))
  }

  /** The guard's state after it was given what the observer reported at each of these lengths, no stop raising. */
  function PolledText(classify: Classifier, log: string, lengths: seq<nat>): Info
    requires forall i | 0 <= i < |lengths| :: lengths[i] <= |log|
    decreases |lengths|
  {
    if lengths == [] then ARMED
    else
      AfterTurn(PolledText(classify, log, lengths[..|lengths| - 1]), Reported(classify, log, lengths[|lengths| - 1]), false)
  }

  lemma {:induction false} PolledTextIsPolled(classify: Classifier, log: string, lengths: seq<nat>)
    requires forall i | 0 <= i < |lengths| :: lengths[i] <= |log|
    ensures forall i | 0 <= i < |lengths| :: LineCounts(log, lengths)[i] <= |Split(log).lines|
    ensures PolledText(classify, log, lengths) == Polled(classify, Split(log).lines, LineCounts(log, lengths))
    decreases |lengths|
  {
    forall i | 0 <= i < |lengths| ensures LineCounts(log, lengths)[i] <= |Split(log).lines| { PrefixLines(log, lengths[i]); }
    if lengths != [] {
      PolledTextIsPolled(classify, log, lengths[..|lengths| - 1]);
      ObserverReportsFacts(classify, log, lengths[|lengths| - 1]);
      hide Reported, FactsAt, Split, AfterTurn;
      assert LineCounts(log, lengths)[..|lengths| - 1] == LineCounts(log, lengths[..|lengths| - 1]);
    }
  }

  /**
    NeverMisses for a log text polled at arbitrary lengths, also in the middle of a line: the guard decides to stop on
    what the observer reports at the first poll that covers the restart, or at an earlier one.
   */
  lemma NeverMissesText(classify: Classifier, log: string, b: nat, r: nat, lengths: seq<nat>, p: nat)
    requires forall i | 0 <= i < |lengths| :: lengths[i] <= |log|
    requires Ascending(lengths)
    requires Timestamped(classify, Split(log).lines)
    requires b <= r < |Split(log).lines| && BeginsAt(classify, Split(log).lines, b) && classify(Split(log).lines[r]).restart
    requires p < |lengths| && LinesBy(log, lengths[p]) > r && (p > 0 ==> LinesBy(log, lengths[p - 1]) <= r)
    ensures exists q :: 0 <= q <= p &&
              Decide(PolledText(classify, log, lengths[..q]), Reported(classify, log, lengths[q])) == Verdict.Stop
  {
    hide Reported, FactsAt, Split, Decide, BeginsAt, Timestamped, StopsAt, LinesBy;
    var lines, polls := Split(log).lines, LineCounts(log, lengths);
    CountsCover(log, lengths, r, p);
    NeverMisses(classify, lines, b, r, polls, p);
    var q :| 0 <= q <= p && StopsAt(classify, lines, polls, q);
    StopsAtText(classify, log, lengths, q);
  }

  lemma CountsCover(log: string, lengths: seq<nat>, r: nat, p: nat)
    requires (forall i | 0 <= i < |lengths| :: lengths[i] <= |log|) && Ascending(lengths)
    requires p < |lengths| && LinesBy(log, lengths[p]) > r && (p > 0 ==> LinesBy(log, lengths[p - 1]) <= r)
    ensures FirstCover(Split(log).lines, LineCounts(log, lengths), r, p)
  {
    hide LinesBy, Split;
    var polls := LineCounts(log, lengths);
    forall i, j | 0 <= i <= j < |polls| ensures polls[i] <= polls[j] <= |Split(log).lines| {
      LinesByGrows(log, lengths[i], lengths[j]);
    }
  }

  /** On the text the guard decides as on the lines. */
  lemma StopsAtText(classify: Classifier, log: string, lengths: seq<nat>, q: nat)
    requires (forall i | 0 <= i < |lengths| :: lengths[i] <= |log|) && q < |lengths|
    ensures forall i | 0 <= i < |lengths| :: LineCounts(log, lengths)[i] <= |Split(log).lines|
    ensures Decide(PolledText(classify, log, lengths[..q]), Reported(classify, log, lengths[q])) == Verdict.Stop <==>
            StopsAt(classify, Split(log).lines, LineCounts(log, lengths), q)
  {
    PolledTextIsPolled(classify, log, lengths);
    PolledTextIsPolled(classify, log, lengths[..q]);
    ObserverReportsFacts(classify, log, lengths[q]);
    hide Reported, FactsAt, Split, Decide, LinesBy, Polled, PolledText;
    assert LineCounts(log, lengths)[..q] == LineCounts(log, lengths[..q]);
  }

  // ---------------------------------------------------------------- stops that raise

  lemma DatedStep(f: Facts, line: string, c: LineFacts)
    requires c.crash || c.restart ==> c.timestamp.Some?
    ensures
      var g := See(f, line, c);
      && (Begun(f) ==> Begun(g)) && f.restartCount <= g.restartCount
      && (f.restartAt.Some? ==> g.restartAt.Some?)
  {
    SeeKeepsFirsts(f, line, c);
    LastStep(f, line, c);
    hide See;
  }

  lemma {:induction false} DatedStays(classify: Classifier, f: Facts, more: seq<string>)
    requires Timestamped(classify, more)
    ensures
      var g := Fold(classify, f, more);
      && (Begun(f) ==> Begun(g)) && f.restartCount <= g.restartCount
      && (f.restartAt.Some? ==> g.restartAt.Some?)
    decreases |more|
  {
    if more != [] {
      var before := more[..|more| - 1];
      assert forall i | 0 <= i < |before| :: before[i] == more[i];
      DatedStays(classify, f, before);
      var line := more[|more| - 1];
      DatedStep(Fold(classify, f, before), line, classify(line));
      hide See, Begun, Timestamped;
    }
  }

  /** A stop that raises is tried again by every later poll until one succeeds. */
  lemma {:induction false} StopIsRetried(classify: Classifier, info: Info, f: Facts, more: seq<string>)
    requires Decide(info, f) == Verdict.Stop && Timestamped(classify, more)
    ensures Decide(AfterTurn(info, f, true), Fold(classify, f, more)) == Verdict.Stop
  {
    DatedStays(classify, f, more);
  }

  // ---------------------------------------------------------------- without timestamps

  /** Lines "crash" and "restart" with a timestamp, and "undated crash" and "undated restart" without. */
  function Sample(line: string): LineFacts {
    LineFacts(if line == "crash" || line == "restart" then Some(1) else None, None, None, false, false,
              line == "restart" || line == "undated restart", line == "crash" || line == "undated crash")
  }

  /**
    Three ways to miss a restart: a crash without a timestamp is not remembered, it makes the guard forget one that
    was, and a restart without a timestamp makes it wait.
   */
  lemma UndatedLinesAreMissed()
    ensures !Decisive(Sample, ["undated crash", "restart"], 2)
    ensures !Decisive(Sample, ["crash", "restart", "undated crash"], 3)
    ensures !Decisive(Sample, ["crash", "undated restart"], 2)
  {
    hide InPhase;
    assert forall lines: seq<string>, b: nat | b < |lines| :: !DatedStart(Sample, lines, b);
    LastDatedStep(Sample, ["undated crash", "restart"], CRASH, 1);
    LastDatedStep(Sample, ["undated crash", "restart"], CRASH, 0);
    LastDatedStep(Sample, ["crash", "restart", "undated crash"], CRASH, 2);
    LastDatedStep(Sample, ["crash", "undated restart"], RESTART, 1);
  }
}
