/** Crash recovery: what one replay, with its workers run to completion, does with the tables a crash left. */
module ProtocolRecovery {
  import opened Common
  import opened Journal
  import opened Protocol
  import opened ProtocolSteps
  import opened ProtocolInvariant

  // ---------------------------------------------------------------- every handled command ends

  predicate Over(pc: Pc) { pc.Closed? || pc.Settled? || pc.Unwinding? }

  /** If it has been handled, `e` has ended or has a worker; and a worker of its id that is done leaves it ended. */
  ghost predicate HandledInv(s: State, e: Entry) {
    && e in s.history
    && (EntryKey(e) in s.handled && OpenAs(s, e) ==> HasJob(s, EntryKey(e)))
    && (forall j | j in s.jobs && s.jobs[j].key == EntryKey(e) && Over(s.jobs[j].pc) :: !OpenAs(s, e))
  }

  lemma EndsOver(s: State, step: Step, j: nat)
    requires Enabled(s, step) && NoFault(step) && j in s.jobs && j in Apply(s, step).jobs
    requires Over(Apply(s, step).jobs[j].pc) && !Over(s.jobs[j].pc)
    ensures !Open(Apply(s, step), s.jobs[j].key)
  {
  }

  lemma LeavesOver(s: State, step: Step, j: nat)
    requires Enabled(s, step) && NoFault(step) && j in s.jobs && j !in Apply(s, step).jobs
    ensures s.jobs[j].pc.Unwinding?
  {
  }

  /** A command is handled by being found or put in the scheduled set, or by being given up. */
  lemma HandledGrowsBy(s: State, step: Step, k: Key)
    requires Enabled(s, step) && !step.Crash? && k !in s.handled && k in Apply(s, step).handled
    ensures step.LookUp? || step.Schedule? || step.Interrupt?
    ensures RowKey(step.r) == k
    ensures if step.Interrupt? then !Open(Apply(s, step), k) else k in Apply(s, step).scheduled
  {
    hide Receive, MarkExecuting, Confirm, Purge, SupersedingFence;
  }

  lemma HandledHasJob(s: State, step: Step, e: Entry)
    requires Inv(s) && HandledInv(s, e) && Enabled(s, step) && NoFault(step)
    requires EntryKey(e) in Apply(s, step).handled && OpenAs(Apply(s, step), e)
    ensures HasJob(Apply(s, step), EntryKey(e))
  {
    var k := EntryKey(e);
    if k in s.handled {
      if !OpenAs(s, e) { EndedStaysEnded(s, step, e); }
      var j :| j in s.jobs && s.jobs[j].key == k;
      if j !in Apply(s, step).jobs { LeavesOver(s, step, j); } else { OthersStay(s, step, j); }
      hide Inv, Apply, Enabled;
    } else {
      HandledGrowsBy(s, step, k);
      NextFlight(s, step);
      hide Inv, Apply, Enabled;
    }
  }

  lemma OverIsEnded(s: State, step: Step, e: Entry, j: nat)
    requires Inv(s) && HandledInv(s, e) && Enabled(s, step) && NoFault(step)
    requires j in Apply(s, step).jobs && Apply(s, step).jobs[j].key == EntryKey(e) && Over(Apply(s, step).jobs[j].pc)
    ensures !OpenAs(Apply(s, step), e)
  {
    OthersStay(s, step, j);
    if Over(s.jobs[j].pc) {
      EndedStaysEnded(s, step, e);
    } else {
      EndsOver(s, step, j);
    }
    hide Inv, Apply, Enabled;
  }

  lemma NextHandled(s: State, step: Step, e: Entry)
    requires Inv(s) && HandledInv(s, e) && Enabled(s, step) && NoFault(step)
    ensures HandledInv(Apply(s, step), e)
  {
    var s' := Apply(s, step);
    NextInv(s, step);
    hide Inv, Apply, Enabled, OpenAs;
    if EntryKey(e) in s'.handled && OpenAs(s', e) { HandledHasJob(s, step, e); }
    forall j | j in s'.jobs && s'.jobs[j].key == EntryKey(e) && Over(s'.jobs[j].pc) ensures !OpenAs(s', e) {
      OverIsEnded(s, step, e, j);
    }
  }

  lemma {:induction false} RunKeepsHandled(s: State, steps: seq<Step>, s': State, e: Entry)
    requires Inv(s) && HandledInv(s, e) && Leads(s, steps, s')
    requires forall i | 0 <= i < |steps| :: NoFault(steps[i])
    ensures HandledInv(s', e)
    decreases |steps|
  {
    hide Inv, HandledInv, Apply, Enabled;
    if steps != [] {
      NextInv(s, steps[0]);
      NextHandled(s, steps[0], e);
      RunKeepsHandled(Apply(s, steps[0]), steps[1..], s', e);
    }
  }

  /** The journal after a crash at any point of any run. */
  ghost predicate AfterCrash(before: seq<Step>, c: State) {
    exists s :: Leads(INITIAL, before, s) && c == DoCrash(s)
  }

  lemma AfterCrashInv(before: seq<Step>, c: State)
    requires AfterCrash(before, c)
    ensures Inv(c) && c.jobs == map[] && c.seen == {} && c.scheduled == {} && c.handled == {}
  {
    var s :| Leads(INITIAL, before, s) && c == DoCrash(s);
    ReachableInv(before, s);
    assert Enabled(s, Crash);
    NextInv(s, Crash);
  }

  lemma HandledEnds(before: seq<Step>, c: State, steps: seq<Step>, s': State, k: Key)
    requires AfterCrash(before, c) && Leads(c, steps, s')
    requires forall i | 0 <= i < |steps| :: NoFault(steps[i])
    requires k in c.tables.rows && k in s'.handled && !HasJob(s', k)
    ensures k == EntryKey(RowEntry(c.tables.rows[k])) && !OpenAs(s', RowEntry(c.tables.rows[k]))
  {
    hide Leads, AfterCrash;
    AfterCrashInv(before, c);
    StoredIsEarlier(k, c);
    RunKeepsHandled(c, steps, s', RowEntry(c.tables.rows[k]));
    hide Inv, OpenAs;
  }

  /**
    However callers and workers interleave after the crash: once a replay has handled every incomplete command of a
    hub and the workers have come to rest, none of them is incomplete any more.
   */
  lemma RecoveryCompletes(before: seq<Step>, c: State, steps: seq<Step>, s': State, hub: string)
    requires AfterCrash(before, c) && Leads(c, steps, s')
    requires forall i | 0 <= i < |steps| :: NoFault(steps[i])
    requires forall k | k in c.tables.rows && k.hub == hub && Incomplete(c.tables.rows[k]) :: k in s'.handled
    requires s'.jobs == map[]
    ensures forall k | k in c.tables.rows && k.hub == hub && Incomplete(c.tables.rows[k]) && k in s'.tables.rows
                       && RowEntry(s'.tables.rows[k]) == RowEntry(c.tables.rows[k]) ::
              Terminal(s'.tables.rows[k].status)
  {
    hide Leads, AfterCrash;
    forall k | k in c.tables.rows && k.hub == hub && Incomplete(c.tables.rows[k]) && k in s'.tables.rows
               && RowEntry(s'.tables.rows[k]) == RowEntry(c.tables.rows[k])
      ensures Terminal(s'.tables.rows[k].status)
    {
      assert !HasJob(s', k);
      HandledEnds(before, c, steps, s', k);
    }
  }

  // ---------------------------------------------------------------- only the last fence runs

  /** With the fences standing still, a command about to run holds the last fence of its slot. */
  ghost predicate DueIsLast(s: State) {
    forall j, e | Due(s, j) == Some(e) :: HoldsLast(s.tables.fences, e)
  }

  predicate HoldsLast(fences: map<Slot, int>, e: Entry) {
    EntrySlot(e) in fences && fences[EntrySlot(e)] == e.command.fence
  }

  /** The effects from this position on. */
  ghost predicate NewEffectsAreLast(from: nat, s: State) {
    forall i | from <= i < |s.trace| :: HoldsLast(s.tables.fences, s.trace[i].entry)
  }

  lemma BecomesLast(s: State, step: Step, j: nat, e: Entry)
    requires TablesInv(s) && DueIsLast(s) && Enabled(s, step) && Due(Apply(s, step), j) == Some(e)
    requires Apply(s, step).tables.fences == s.tables.fences
    ensures HoldsLast(s.tables.fences, e)
  {
    NextDue(s, step, j, e);
    NextFences(s, step);
    if Due(s, j) != Some(e) && step.Check? { StoredIsRemembered(s, s.jobs[j].key); }
    hide Apply, Due, TablesOk;
  }

  lemma StoredIsRemembered(s: State, k: Key)
    requires TablesInv(s) && k in s.tables.rows
    ensures Remembered(RowEntry(s.tables.rows[k]), s.tables)
  {
    assert RowOk(k, s.tables.rows[k], s.history);
  }

  lemma NextIsLast(s: State, step: Step, from: nat)
    requires TablesInv(s) && DueIsLast(s) && NewEffectsAreLast(from, s) && Enabled(s, step)
    requires Apply(s, step).tables.fences == s.tables.fences
    ensures DueIsLast(Apply(s, step)) && NewEffectsAreLast(from, Apply(s, step))
  {
    TraceGrows(s, step);
    if step.Begin? { BegunWasDue(s, step.j); }
    hide Apply, Enabled, TablesInv, Due, HoldsLast;
    forall j, e | Due(Apply(s, step), j) == Some(e) ensures HoldsLast(s.tables.fences, e) { BecomesLast(s, step, j, e); }
  }

  lemma FencesStand(f: map<Slot, int>, g: map<Slot, int>)
    requires FencesUp(f, g) && FencesUp(g, f)
    ensures f == g
  {
  }

  lemma {:induction false} FencesOnlyGrow(s: State, steps: seq<Step>, s': State)
    requires Leads(s, steps, s')
    ensures FencesUp(s.tables.fences, s'.tables.fences)
    decreases |steps|
  {
    hide Apply, Enabled;
    if steps != [] {
      NextFences(s, steps[0]);
      FencesOnlyGrow(Apply(s, steps[0]), steps[1..], s');
    }
  }

  /** Fences that are the same at both ends of a run were the same after its first step. */
  lemma FencesStandBetween(s: State, steps: seq<Step>, s': State)
    requires Leads(s, steps, s') && steps != [] && s.tables.fences == s'.tables.fences
    ensures Enabled(s, steps[0]) && Apply(s, steps[0]).tables.fences == s.tables.fences
  {
    hide Apply, Enabled;
    NextFences(s, steps[0]);
    FencesOnlyGrow(Apply(s, steps[0]), steps[1..], s');
    FencesStand(s.tables.fences, Apply(s, steps[0]).tables.fences);
  }

  lemma {:induction false} RunsOnlyLast(s: State, steps: seq<Step>, s': State, from: nat)
    requires TablesInv(s) && DueIsLast(s) && NewEffectsAreLast(from, s) && Leads(s, steps, s')
    requires s.tables.fences == s'.tables.fences
    ensures NewEffectsAreLast(from, s')
    decreases |steps|
  {
    hide TablesInv, DueIsLast, NewEffectsAreLast, Apply, Enabled;
    if steps != [] {
      FencesStandBetween(s, steps, s');
      NextTables(s, steps[0]);
      NextIsLast(s, steps[0], from);
      RunsOnlyLast(Apply(s, steps[0]), steps[1..], s', from);
    }
  }

  /** While no new command is accepted, recovery runs per target only the command that holds the last fence. */
  lemma RecoveryRunsOnlyLastFence(before: seq<Step>, c: State, steps: seq<Step>, s': State)
    requires AfterCrash(before, c) && Leads(c, steps, s')
    requires s'.tables.fences == c.tables.fences
    ensures NewEffectsAreLast(|c.trace|, s')
  {
    AfterCrashInv(before, c);
    RunsOnlyLast(c, steps, s', |c.trace|);
  }

  // ---------------------------------------------------------------- interrupted non-replayable commands

  /** A non-replayable command found executing after a crash: given up, or still waiting to be. */
  ghost predicate GivenUp(s: State, k: Key) {
    && k in s.tables.rows
    && !Replayable(s.tables.rows[k].command.name)
    && (s.tables.rows[k].status.Executing? || (s.tables.rows[k].status.Failed? && s.tables.rows[k].outcome == Some(INTERRUPTED)))
    && k !in s.scheduled && NotSchedulable(s, k)
  }

  /** The row stays as it is, or is failed as interrupted. */
  ghost predicate KeptOrInterrupted(row: Row, row': Row) {
    && row'.command == row.command
    && ((row'.status == row.status && row'.outcome == row.outcome) || (row'.status.Failed? && row'.outcome == Some(INTERRUPTED)))
  }

  lemma GivenUpWorker(s: State, step: Step, k: Key)
    requires FlightInv(s) && Enabled(s, step) && GivenUp(s, k) && Mover(step).Some?
    ensures k in Apply(s, step).tables.rows && Apply(s, step).tables.rows[k] == s.tables.rows[k]
  {
    if !step.Schedule? { assert s.jobs[step.j].key != k; }
  }

  lemma ReceiveKeepsRow(t: Tables, e: Entry, now: int, k: Key)
    requires k in t.rows
    ensures k in Receive(t, e, now).tables.rows && Receive(t, e, now).tables.rows[k] == t.rows[k]
  {
  }

  lemma GivenUpElse(s: State, step: Step, k: Key)
    requires Enabled(s, step) && GivenUp(s, k) && (step.HubConfirms? || step.Clean?)
    ensures k in Apply(s, step).tables.rows
    ensures KeptOrInterrupted(s.tables.rows[k], Apply(s, step).tables.rows[k])
  {
    TablesChangeBy(s, step);
    hide Apply, Replayable, NotSchedulable;
  }

  lemma GivenUpRow(s: State, step: Step, k: Key)
    requires FlightInv(s) && Enabled(s, step) && GivenUp(s, k)
    ensures k in Apply(s, step).tables.rows
    ensures KeptOrInterrupted(s.tables.rows[k], Apply(s, step).tables.rows[k])
  {
    if Mover(step).Some? {
      GivenUpWorker(s, step, k);
      hide Apply, Enabled, FlightInv;
    } else if step.HubConfirms? || step.Clean? {
      GivenUpElse(s, step, k);
    } else {
      TablesChangeBy(s, step);
      hide Apply, Enabled, FlightInv, Receive, NotSchedulable;
      if step.Deliver? { ReceiveKeepsRow(s.tables, step.e, step.now, k); }
    }
  }

  lemma NextGivenUp(s: State, step: Step, k: Key)
    requires TablesInv(s) && FlightInv(s) && Enabled(s, step) && GivenUp(s, k)
    ensures GivenUp(Apply(s, step), k)
  {
    var s' := Apply(s, step);
    GivenUpRow(s, step, k);
    forall r | r in s'.seen && RowKey(r) == k ensures !r.status.Received? && !Replayable(r.command.name) {
      if r !in s.seen { SeenIsRow(s, step, r); }
      hide TablesOk, FlightInv, Apply;
    }
    OnlyScheduleAdds(s, step, k);
  }

  lemma GivenUpTrace(s: State, step: Step, k: Key)
    requires Inv(s) && Enabled(s, step) && GivenUp(s, k)
    ensures |s.trace| <= |Apply(s, step).trace| && s.trace == Apply(s, step).trace[..|s.trace|]
    ensures forall i | |s.trace| <= i < |Apply(s, step).trace| :: EntryKey(Apply(s, step).trace[i].entry) != k
  {
    TraceGrows(s, step);
    if step.Begin? { assert JobRecord(s.jobs[step.j], s) && s.jobs[step.j].key != k; }
  }

  /** It never runs again, in any run, and once replayed it is failed as interrupted. */
  lemma {:induction false} GivenUpNeverRuns(s: State, steps: seq<Step>, s': State, k: Key)
    requires Inv(s) && GivenUp(s, k) && Leads(s, steps, s')
    ensures GivenUp(s', k) && s'.tables.rows[k].command == s.tables.rows[k].command
    ensures |s.trace| <= |s'.trace| && s.trace == s'.trace[..|s.trace|]
    ensures forall i | |s.trace| <= i < |s'.trace| :: EntryKey(s'.trace[i].entry) != k
    decreases |steps|
  {
    if steps != [] {
      var m := Apply(s, steps[0]);
      NextGivenUp(s, steps[0], k);
      GivenUpRow(s, steps[0], k);
      NextInv(s, steps[0]);
      GivenUpTrace(s, steps[0], k);
      hide Inv, Apply, Enabled;
      GivenUpNeverRuns(m, steps[1..], s', k);
      hide GivenUp;
      assert s'.trace[..|s.trace|] == m.trace[..|s.trace|];
      forall i | |s.trace| <= i < |s'.trace| ensures EntryKey(s'.trace[i].entry) != k {
        if i < |m.trace| { assert s'.trace[i] == m.trace[i]; }
      }
    }
  }

  /** An interrupted non-replayable command ends failed without running. */
  lemma InterruptedEndsFailed(before: seq<Step>, c: State, steps: seq<Step>, s': State, k: Key)
    requires AfterCrash(before, c) && Leads(c, steps, s')
    requires forall i | 0 <= i < |steps| :: NoFault(steps[i])
    requires k in c.tables.rows && c.tables.rows[k].status.Executing? && !Replayable(c.tables.rows[k].command.name)
    requires k in s'.handled
    ensures k in s'.tables.rows && s'.tables.rows[k].status == Failed && s'.tables.rows[k].outcome == Some(INTERRUPTED)
    ensures |c.trace| <= |s'.trace|
    ensures forall i | |c.trace| <= i < |s'.trace| :: EntryKey(s'.trace[i].entry) != k
  {
    AfterCrashInv(before, c);
    GivenUpNeverRuns(c, steps, s', k);
    RunKeepsInv(c, steps, s');
    assert !HasJob(s', k);
    hide Leads, AfterCrash, Inv;
    HandledEnds(before, c, steps, s', k);
  }
}
