/** Exactly when an effect repeats, that it can, and exactly which deliveries the account of it withstands. */
module ProtocolEffects {
  import opened Common
  import opened Journal
  import opened Protocol
  import opened ProtocolSteps
  import opened ProtocolInvariant
  import opened ProtocolProgress
  import opened ProtocolReads
  import opened ProtocolFlights
  import opened ProtocolSample
  import opened ProtocolReuse
  import opened ProtocolSafety
  import opened ProtocolOnce
  import opened ProtocolAccount

  // ---------------------------------------------------------------- exactly when an effect repeats

  /** A caller has read a command under this id that a replay would give up. */
  ghost predicate ReadAsLost(s: State, k: Key) {
    exists r :: r in s.seen && RowKey(r) == k && r.status.Executing? && !Replayable(r.command.name)
  }

  /** A replayable command is given up only on a record of another command under its id. */
  ghost predicate GivenUpWell(s: State) {
    s.idle <= s.seen && forall e | e in s.interrupted :: ReadAsLost(s, EntryKey(e))
  }

  lemma NextGivenUpWell(s: State, step: Step)
    requires TablesInv(s) && GivenUpWell(s) && Enabled(s, step)
    ensures GivenUpWell(Apply(s, step))
  {
    var t := Apply(s, step);
    IdleIsSeen(s, step);
    if !step.Crash? { MemoryGrows(s, step); }
    forall e | e in t.interrupted ensures ReadAsLost(t, EntryKey(e)) {
      NextInterrupted(s, step, e);
      if e in s.interrupted {
        var r :| r in s.seen && RowKey(r) == EntryKey(e) && r.status.Executing? && !Replayable(r.command.name);
        assert r in t.seen;
      } else {
        assert step.r in t.seen;
      }
    }
  }

  lemma {:induction false} RunKeepsGivenUpWell(s: State, steps: seq<Step>, s': State)
    requires TablesInv(s) && GivenUpWell(s) && Leads(s, steps, s')
    ensures GivenUpWell(s')
    decreases |steps|
  {
    hide TablesInv, GivenUpWell, Enabled, Apply;
    if steps != [] {
      NextTables(s, steps[0]);
      NextGivenUpWell(s, steps[0]);
      RunKeepsGivenUpWell(Apply(s, steps[0]), steps[1..], s');
    }
  }

  /**
    A worker is about to run an effect. In every run: if the effect has already run in this process lifetime, the record
    mark_executing returned was terminal. In every run of fair deliveries: if that record was terminal, the effect has run
    or a replay has given the command up, and that only if a caller has read a lost command under its id. So for a
    replayable command, with no such record read, the effect has run exactly when the record was terminal.
   */
  lemma RepeatsAreVisible(steps: seq<Step>, s: State, j: nat)
    requires Leads(INITIAL, steps, s)
    requires j in s.jobs && s.jobs[j].pc.Acked?
    ensures
      var r := s.jobs[j].pc.r;
      && (RanNow(s, RowEntry(r)) ==> Terminal(r.status))
      && (Each(Fair, INITIAL, steps) && Terminal(r.status) ==> Explained(s, RowEntry(r)))
      && (RowEntry(r) in s.interrupted ==> ReadAsLost(s, RowKey(r)))
      && (Each(Fair, INITIAL, steps) && !ReadAsLost(s, RowKey(r)) ==> (RanNow(s, RowEntry(r)) <==> Terminal(r.status)))
  {
    hide Leads, Each, RanNow, ReadAsLost;
    NoneRanAtFirst();
    RunKeepsRepeat(INITIAL, steps, s);
    RunKeepsGivenUpWell(INITIAL, steps, s);
    if Each(Fair, INITIAL, steps) {
      ReachableAccount(steps, s);
      JobFacts(s, j);
    }
    hide Inv;
  }

  lemma NoneRanAtFirst()
    ensures Inv(INITIAL) && RepeatInv(INITIAL)
  {
  }

  // ---------------------------------------------------------------- that it can

  /**
    A caller still holding a record read as 'received', not yet used, makes the effect run once more, although the
    command is finished: nothing between is_scheduled and execute_command looks at the stored status.
   */
  lemma StaleReadRepeatsEffect(before: seq<Step>, s: State, r: Row, j: nat)
    requires Leads(INITIAL, before, s) && EachReadUsedOnce(before) && HeldBy(INITIAL, before, r, 0) > 0
    requires CanFly(s, r, j) && StillThere(r, s) && Finished(s, RowKey(r))
    ensures exists steps, s' :: Leads(s, steps, s') && NoDelivery(steps) && EachReadUsedOnce(before + steps)
                                && s'.trace == s.trace + [Effect(RowEntry(r), s.life)]
  {
    hide Leads, Apply, Enabled, EachReadUsedOnce;
    var steps, s' := SecondFlight(s, r, j);
    FlightIsUsedOnce(before, s, steps, s', r);
    FlightThenWork(steps, [], r);
    assert steps + [] == steps;
  }

  /** From the schedule to the worker's second record of a finished command. */
  lemma SecondRecord(s: State, r: Row, j: nat) returns (steps: seq<Step>, s': State)
    requires CanFly(s, r, j) && StillThere(r, s) && Finished(s, RowKey(r))
    ensures Leads(s, steps, s') && OneFlight(steps, r) && s'.trace == s.trace && s'.life == s.life && s'.interrupted == s.interrupted
    ensures s'.tables == s.tables && j in s'.jobs && s'.jobs == s.jobs[j := Job(RowKey(r), s'.jobs[j].pc)]
    ensures s'.jobs[j].pc.Marked? && RowEntry(s'.jobs[j].pc.r) == RowEntry(r) && Terminal(s'.jobs[j].pc.r.status)
  {
    hide Leads, Apply, Enabled;
    var p, m := FlyToFetched(s, r, j);
    var q, n := FlyToCurrent(m, j);
    LeadsJoin(s, p, m, q, n);
    var t, x := FinishedToMarked(n, j);
    LeadsJoin(s, p + q, n, t, x);
    steps, s' := p + q + t, x;
    assert steps[0] == p[0] && steps[1..] == p[1..] + q + t;
  }

  lemma SecondFlight(s: State, r: Row, j: nat) returns (steps: seq<Step>, s': State)
    requires CanFly(s, r, j) && StillThere(r, s) && Finished(s, RowKey(r))
    ensures Leads(s, steps, s') && OneFlight(steps, r) && s'.trace == s.trace + [Effect(RowEntry(r), s.life)]
    ensures s'.tables == s.tables && j in s'.jobs && s'.jobs == s.jobs[j := Job(RowKey(r), s'.jobs[j].pc)] && s'.jobs[j].pc.Running?
  {
    hide Leads, Apply, Enabled;
    var p, m := SecondRecord(s, r, j);
    var q, n := FlyToRunning(m, j);
    LeadsJoin(s, p, m, q, n);
    steps, s' := p + q, n;
    assert steps[0] == p[0] && steps[1..] == p[1..] + q;
  }

  /**
    A run from the empty journal in which one command's effect runs twice in the same lifetime: it is delivered, its
    redelivery is answered before the first worker enters, and each of the two callers schedules once.
   */
  lemma EffectCanRunTwice()
    ensures exists steps, s :: Leads(INITIAL, steps, s) && Each(NewId, INITIAL, steps) && EachReadUsedOnce(steps)
                               && |s.trace| == 2 && s.trace[0] == s.trace[1]
  {
    hide Leads, Apply, Enabled, EachReadUsedOnce, HeldBy, Each;
    var p, m := FinishedWithOneRead();
    var r := NewRow(SAMPLE, 0);
    StaleReadRepeatsEffect(p, m, r, 0);
    var q, n :| Leads(m, q, n) && NoDelivery(q) && EachReadUsedOnce(p + q) && n.trace == m.trace + [Effect(RowEntry(r), m.life)];
    LeadsJoin(INITIAL, p, m, q, n);
    NoDeliveryIsEach(NewId, m, q);
    EachJoin(NewId, INITIAL, p, m, q);
  }

  // ---------------------------------------------------------------- after an unfair delivery

  /** Terminal records tell that the command has run or been given up. */
  ghost predicate TellsRepeats(s: State) {
    forall j | j in s.jobs && s.jobs[j].pc.Acked? && Terminal(s.jobs[j].pc.r.status) :: Explained(s, RowEntry(s.jobs[j].pc.r))
  }

  /** The row is of `e`, and worker `j` goes on towards finishing it, or has. */
  ghost predicate TakesAlong(s: State, j: nat, e: Entry) {
    && j in s.jobs && s.jobs[j].key == EntryKey(e) && EntryKey(e) in s.tables.rows && RowEntry(s.tables.rows[EntryKey(e)]) == e
    && (Committed(s.jobs[j].pc) || (Finished(s, EntryKey(e)) && (s.jobs[j].pc.Closed? || s.jobs[j].pc.Settled?)))
    && (HasRecord(s.jobs[j].pc) ==> RowEntry(s.jobs[j].pc.r) != e)
  }

  /** Worker `j` will finish the row of `e`, which nobody has run, without running it. */
  ghost predicate Doomed(s: State, j: nat, e: Entry) {
    TakesAlong(s, j, e) && !Explained(s, e)
  }

  lemma DoomedHolds(s: State, j: nat, e: Entry)
    requires Doomed(s, j, e)
    ensures HoldsLock(s.jobs[j].pc)
  {
  }

  lemma TerminalTakesAlong(s: State, j: nat, e: Entry, status: Status, o: Outcome, now: int)
    requires TakesAlong(s, j, e) && Terminal(status) && HasRow(s.jobs[j].pc)
    ensures TakesAlong(DoTerminal(s, j, status, o, now), j, e)
  {
  }

  lemma ClosedTakesAlong(s: State, j: nat, e: Entry)
    requires TakesAlong(s, j, e) && s.jobs[j].pc.Closed?
    ensures TakesAlong(DoReread(s, j), j, e)
  {
  }

  lemma RecordTakesAlong(s: State, j: nat, e: Entry)
    requires TakesAlong(s, j, e) && (HasRecord(s.jobs[j].pc) || s.jobs[j].pc.Running?)
    ensures Enabled(s, Move1(j, s.jobs[j].pc)) && TakesAlong(Apply(s, Move1(j, s.jobs[j].pc)), j, e)
  {
  }

  lemma DoomedPc(s: State, j: nat, e: Entry)
    requires TakesAlong(s, j, e) && !s.jobs[j].pc.Settled? && Enabled(s, Move1(j, s.jobs[j].pc))
    ensures TakesAlong(Apply(s, Move1(j, s.jobs[j].pc)), j, e)
  {
    var pc := s.jobs[j].pc;
    NoOtherPc(s, j, e);
    if HasRecord(pc) || pc.Running? {
      RecordTakesAlong(s, j, e);
    } else {
      WorkerTables(s, Move1(j, pc));
      JournalSteps(s, Move1(j, pc));
      hide TakesAlong, DoTerminal, DoReread, DoEnter, DoCheck;
      if pc.Closed? {
        assert s.jobs[j].pc.Closed?;
        ClosedTakesAlong(s, j, e);
      } else if pc.Superseded? {
        TerminalTakesAlong(s, j, e, Failed, StaleOutcome(pc.above), 0);
      } else {
        TerminalTakesAlong(s, j, e, FinalStatus(pc.outcome), pc.outcome, 0);
      }
    }
  }

  lemma NoOtherPc(s: State, j: nat, e: Entry)
    requires TakesAlong(s, j, e) && !s.jobs[j].pc.Settled?
    ensures
      var pc := s.jobs[j].pc;
      HasRecord(pc) || pc.Running? || pc.Closed? || pc.Superseded? || pc.Ran?
  {
  }

  lemma DoomedMoves(s: State, j: nat, e: Entry)
    requires Doomed(s, j, e) && !s.jobs[j].pc.Settled?
    ensures Enabled(s, Move1(j, s.jobs[j].pc)) && Mover(Move1(j, s.jobs[j].pc)) == Some(j) && WorkerStep(Move1(j, s.jobs[j].pc))
    ensures
      var m := Apply(s, Move1(j, s.jobs[j].pc));
      Doomed(m, j, e) && Left(m.jobs[j].pc) < Left(s.jobs[j].pc)
  {
    var step := Move1(j, s.jobs[j].pc);
    DoomedHolds(s, j, e);
    HolderMoves(s, j);
    DoomedPc(s, j, e);
    assert step.Begin? ==> s.jobs[j].pc.Acked?;
    assert !step.Crash? && !step.Interrupt?;
    MemoryGrows(s, step);
    NextRan(s, step, e);
    hide Apply, Enabled, RanNow, Left, Move1;
  }

  lemma {:induction false} RunDoomed(s: State, j: nat, e: Entry) returns (steps: seq<Step>, t: State)
    requires Doomed(s, j, e)
    ensures Leads(s, steps, t) && OnlyWorker(steps, j)
    ensures Doomed(t, j, e) && t.jobs[j].pc.Settled?
    decreases Left(s.jobs[j].pc)
  {
    if s.jobs[j].pc.Settled? {
      steps, t := [], s;
    } else {
      DoomedMoves(s, j, e);
      var step := Move1(j, s.jobs[j].pc);
      hide Apply, Enabled, Doomed, Left, Move1;
      var rest;
      rest, t := RunDoomed(Apply(s, step), j, e);
      steps := [step] + rest;
      assert steps[1..] == rest;
    }
  }

  /** `e` is finished but nobody has run it or given it up; its id has no worker, and a caller holds its first record. */
  ghost predicate Unaccounted(s: State, e: Entry, now: int) {
    && Finished(s, EntryKey(e)) && RowEntry(s.tables.rows[EntryKey(e)]) == e && !Explained(s, e)
    && EntryKey(e) !in s.scheduled && NewRow(e, now) in s.seen
    && EntrySlot(e) in s.tables.fences && s.tables.fences[EntrySlot(e)] == e.command.fence
  }

  lemma DoomedLeaves(s: State, j: nat, e: Entry, now: int) returns (steps: seq<Step>, t: State)
    requires Doomed(s, j, e) && s.jobs[j].pc.Settled? && NewRow(e, now) in s.seen
    requires EntrySlot(e) in s.tables.fences && s.tables.fences[EntrySlot(e)] == e.command.fence
    ensures Leads(s, steps, t) && OnlyWorker(steps, j) && Unaccounted(t, e, now)
  {
    var m := Apply(s, Release(j));
    assert Enabled(s, Release(j)) && m.jobs[j].pc.Unwinding? && m.jobs[j].key == EntryKey(e);
    t := Apply(m, Discard(j));
    assert t.scheduled == s.scheduled - {EntryKey(e)} && t.tables == s.tables && t.seen == s.seen;
    SameMemory(s, t, e);
    OneStep(s, Release(j));
    hide Leads, Explained;
    LeadsThen(s, [Release(j)], m, Discard(j));
    steps := [Release(j)] + [Discard(j)];
  }

  /** What the moves of one worker leave alone. */
  lemma {:induction false} OthersAreLeft(s: State, steps: seq<Step>, t: State, h: nat)
    requires Leads(s, steps, t) && OnlyWorker(steps, h)
    ensures t.seen == s.seen && t.tables.fences == s.tables.fences && t.history == s.history
    decreases |steps|
  {
    if steps != [] {
      var step := steps[0];
      assert WorkerStep(step) && Mover(step) == Some(h);
      WorkerLeaves(s, step);
      NextFences(s, step);
      HistoryStays(s, step);
      hide Apply, Enabled;
      assert forall i | 0 <= i < |steps[1..]| :: steps[1..][i] == steps[i + 1];
      OthersAreLeft(Apply(s, step), steps[1..], t, h);
    }
  }

  lemma WorkerLeaves(s: State, step: Step)
    requires Enabled(s, step) && WorkerStep(step)
    ensures Apply(s, step).seen == s.seen && Apply(s, step).interrupted == s.interrupted && Apply(s, step).life == s.life
  {
  }

  lemma WorkerUnschedules(s: State, step: Step)
    requires Enabled(s, step) && WorkerStep(step)
    ensures Apply(s, step).scheduled <= s.scheduled && Mover(step).value in s.jobs
  {
  }

  lemma OwnKey(s: State, h: nat)
    requires Inv(s) && h in s.jobs
    ensures s.jobs[h].key in s.scheduled && (HasRow(s.jobs[h].pc) ==> RowKey(s.jobs[h].pc.r) == s.jobs[h].key)
  {
    assert JobRecord(s.jobs[h], s);
  }

  /** A worker of another id does not account for the command. */
  lemma OtherStep(s: State, step: Step, e: Entry, now: int)
    requires Inv(s) && Enabled(s, step) && WorkerStep(step) && Unaccounted(s, e, now)
    ensures Unaccounted(Apply(s, step), e, now)
  {
    hide Inv, RanNow, Outdated;
    var h := Mover(step).value;
    WorkerLeaves(s, step);
    WorkerUnschedules(s, step);
    NextFences(s, step);
    WorkerRows(s, step, h);
    NextRan(s, step, e);
    if step.Begin? { assert HasRow(s.jobs[h].pc) && s.jobs[h].pc.r == s.jobs[step.j].pc.r; }
    hide Apply, Enabled;
    OwnKey(s, h);
  }

  lemma {:induction false} OthersDoNotAccount(s: State, steps: seq<Step>, t: State, e: Entry, now: int)
    requires Inv(s) && Leads(s, steps, t) && Working(steps) && Unaccounted(s, e, now)
    ensures Unaccounted(t, e, now)
    decreases |steps|
  {
    hide Inv, Unaccounted, Apply, Enabled;
    if steps != [] {
      OtherStep(s, steps[0], e, now);
      NextInv(s, steps[0]);
      OthersDoNotAccount(Apply(s, steps[0]), steps[1..], t, e, now);
    }
  }

  /** The instance of the command is free. */
  lemma FreeForIt(s: State, e: Entry, now: int) returns (steps: seq<Step>, t: State)
    requires Inv(s) && LocksHeld(s) && Unaccounted(s, e, now)
    ensures Leads(s, steps, t) && NoDelivery(steps) && Unaccounted(t, e, now) && TargetKey(e.command.instance) !in t.locks
  {
    var target := TargetKey(e.command.instance);
    if target in s.locks {
      var h := s.locks[target];
      hide Unaccounted, Inv, Leads;
      steps, t := RunOff(s, h);
      OthersDoNotAccount(s, steps, t, e, now);
      hide LocksHeld, OnlyMoved;
    } else {
      steps, t := [], s;
    }
  }

  /** The caller that holds the first record schedules on it, and the worker gets a terminal record. */
  lemma TakesItForRun(s: State, e: Entry, now: int) returns (steps: seq<Step>, t: State)
    requires Unaccounted(s, e, now) && TargetKey(e.command.instance) !in s.locks
    ensures Leads(s, steps, t) && NoDelivery(steps) && !TellsRepeats(t)
  {
    var r := NewRow(e, now);
    var n := FreshNumber(s.jobs.Keys);
    assert CanFly(s, r, n);
    hide Leads, Apply, Enabled;
    var p, m := SecondRecord(s, r, n);
    t := AckedAsRun(m, n, e);
    LeadsThen(s, p, m, AckExecuting(n, false));
    SameMemory(s, t, e);
    FlightThenWork(p, [AckExecuting(n, false)], r);
    steps := p + [AckExecuting(n, false)];
  }

  lemma AckedAsRun(s: State, n: nat, e: Entry) returns (t: State)
    requires n in s.jobs && s.jobs[n].pc.Marked? && RowEntry(s.jobs[n].pc.r) == e && Terminal(s.jobs[n].pc.r.status)
    ensures Enabled(s, AckExecuting(n, false)) && t == Apply(s, AckExecuting(n, false))
    ensures n in t.jobs && t.jobs[n].pc.Acked? && RowEntry(t.jobs[n].pc.r) == e && Terminal(t.jobs[n].pc.r.status)
    ensures t.trace == s.trace && t.life == s.life && t.interrupted == s.interrupted
  {
    t := Apply(s, AckExecuting(n, false));
  }

  lemma UnfairDooms(s: State, e: Entry, now: int) returns (j: nat)
    requires Inv(s) && !Fair(s, e)
    ensures Enabled(s, Deliver(e, now)) && Doomed(Apply(s, Deliver(e, now)), j, e)
    ensures
      var m := Apply(s, Deliver(e, now));
      NewRow(e, now) in m.seen && EntrySlot(e) in m.tables.fences && m.tables.fences[EntrySlot(e)] == e.command.fence
  {
    j :| j in s.jobs && s.jobs[j].key == EntryKey(e) && Committed(s.jobs[j].pc);
    var m := Apply(s, Deliver(e, now));
    assert e !in s.history by { if e in s.history { PurgedIsStale(s.tables, s.history, e, now); } }
    assert JobRecord(s.jobs[j], s);
    NextRan(s, Deliver(e, now), e);
    assert !Explained(m, e);
    hide Inv, Explained;
  }

  /** After an unfair delivery a worker can take a command for run that nobody has run or given up. */
  lemma UnfairMisleads(s: State, e: Entry, now: int) returns (steps: seq<Step>, t: State)
    requires Inv(s) && LocksHeld(s) && !Fair(s, e)
    ensures Enabled(s, Deliver(e, now))
    ensures Leads(Apply(s, Deliver(e, now)), steps, t) && NoDelivery(steps) && !TellsRepeats(t)
  {
    hide Leads, Apply, Enabled, Inv, LocksHeld, Fair, Doomed, Unaccounted, TellsRepeats;
    var j := UnfairDooms(s, e, now);
    var m := Apply(s, Deliver(e, now));
    var p, a := RunDoomed(m, j, e);
    OthersAreLeft(m, p, a, j);
    var q, b := DoomedLeaves(a, j, e, now);
    LeadsJoin(m, p, a, q, b);
    NextInv(s, Deliver(e, now));
    NextLocksHeld(s, Deliver(e, now));
    RunKeepsInv(m, p + q, b);
    RunKeepsLocksHeld(m, p + q, b);
    var o, c := FreeForIt(b, e, now);
    LeadsJoin(m, p + q, b, o, c);
    var x;
    x, t := TakesItForRun(c, e, now);
    LeadsJoin(m, p + q + o, c, x, t);
    steps := p + q + o + x;
  }

  lemma AccountTells(s: State)
    requires AccountInv(s)
    ensures TellsRepeats(s)
  {
    forall j | j in s.jobs && s.jobs[j].pc.Acked? && Terminal(s.jobs[j].pc.r.status) ensures Explained(s, RowEntry(s.jobs[j].pc.r)) {
      JobFacts(s, j);
    }
  }

  /**
    From every state that fair deliveries lead to: a delivery is fair if and only if after it, in every run of fair
    deliveries, a terminal record from mark_executing tells that the command has run or been given up.
   */
  lemma AccountExactlyWhen(before: seq<Step>, s: State, e: Entry, now: int)
    requires Leads(INITIAL, before, s) && Each(Fair, INITIAL, before)
    ensures
      var m := Apply(s, Deliver(e, now));
      Fair(s, e) <==> forall steps, t | Leads(m, steps, t) && Each(Fair, m, steps) :: TellsRepeats(t)
  {
    ReachableAccount(before, s);
    RunKeepsLocksHeld(INITIAL, before, s);
    var m := Apply(s, Deliver(e, now));
    if Fair(s, e) {
      NextInv(s, Deliver(e, now));
      NextAccount(s, Deliver(e, now));
      hide Leads, Each, Apply, TellsRepeats, Inv, AccountInv, Fair;
      forall steps, t | Leads(m, steps, t) && Each(Fair, m, steps) ensures TellsRepeats(t) {
        RunKeepsAccount(m, steps, t);
        AccountTells(t);
      }
    } else {
      hide Leads, Each, Apply, TellsRepeats, Inv, AccountInv, Fair, LocksHeld;
      var steps, t := UnfairMisleads(s, e, now);
      NoDeliveryIsEach(Fair, m, steps);
    }
  }
}
