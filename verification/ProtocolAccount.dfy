/**
  Why a command is finished: it was run, given up by a replay, or superseded. A worker finishes the row of its id, so
  this needs that no delivery puts a new command under the id of a worker that has already been checked for an old one.
 */
module ProtocolAccount {
  import opened Common
  import opened Journal
  import opened Protocol
  import opened ProtocolSteps
  import opened ProtocolInvariant
  import opened ProtocolOnce

  /** The worker goes by what it has read of a command, up to finishing the row of the id. */
  predicate Committed(pc: Pc) { pc.Superseded? || HasRecord(pc) || InEffect(pc) }

  /** If the command is accepted, no worker of its id is committed to another. */
  ghost predicate Fair(s: State, e: Entry) {
    Accepts(s.tables, e) ==> forall j | j in s.jobs && s.jobs[j].key == EntryKey(e) :: !Committed(s.jobs[j].pc)
  }

  ghost predicate FairStep(s: State, step: Step) { step.Deliver? ==> Fair(s, step.e) }

  /** Some caller of this lifetime read a command under this id before it was finished. */
  ghost predicate OpenRead(s: State, k: Key) {
    exists r :: r in s.seen && RowKey(r) == k && !Terminal(r.status)
  }

  /** The command's effect has begun in this lifetime, or a replay has given it up in this lifetime. */
  ghost predicate Explained(s: State, e: Entry) { RanNow(s, e) || e in s.interrupted }

  ghost predicate Accounted(s: State, e: Entry) {
    Explained(s, e) || Outdated(s, EntrySlot(e), e.command.fence)
  }

  ghost predicate JobsWereOpen(s: State) {
    forall j | j in s.jobs :: OpenRead(s, s.jobs[j].key)
  }

  /** A command seen open in this lifetime and finished now was run, given up, or superseded. */
  ghost predicate FinishedIsAccounted(s: State) {
    forall k | Finished(s, k) && OpenRead(s, k) :: Accounted(s, RowEntry(s.tables.rows[k]))
  }

  /** The row of the id, if there is one, is of this command. */
  predicate OnlyOf(s: State, k: Key, e: Entry) { k in s.tables.rows ==> RowEntry(s.tables.rows[k]) == e }

  ghost predicate JobStage(s: State, job: Job) {
    var k := job.key;
    match job.pc
    case Superseded(r, above) => k in s.tables.rows ==> Outdated(s, RowSlot(s.tables.rows[k]), s.tables.rows[k].command.fence)
    case Current(r) => Finished(s, k) ==> Explained(s, RowEntry(s.tables.rows[k]))
    case Entered(r) => Finished(s, k) ==> Explained(s, RowEntry(s.tables.rows[k]))
    case Marked(r) => RecordStage(s, k, r)
    case Acked(r) => RecordStage(s, k, r)
    case Running(r) => RanNow(s, RowEntry(r)) && OnlyOf(s, k, RowEntry(r))
    case Ran(r, o) => RanNow(s, RowEntry(r)) && OnlyOf(s, k, RowEntry(r))
    case _ => true
  }

  ghost predicate RecordStage(s: State, k: Key, r: Row) {
    (Terminal(r.status) ==> Explained(s, RowEntry(r))) && OnlyOf(s, k, RowEntry(r))
  }

  ghost predicate AccountInv(s: State) {
    && JobsWereOpen(s)
    && FinishedIsAccounted(s)
    && (forall j | j in s.jobs :: JobStage(s, s.jobs[j]))
  }

  // ---------------------------------------------------------------- which steps finish a row

  lemma StatusChange(s: State, step: Step, k: Key)
    requires Enabled(s, step) && Open(s, k) && Finished(Apply(s, step), k)
    ensures
      || (step.Interrupt? && RowKey(step.r) == k && RowEntry(s.tables.rows[k]) in Apply(s, step).interrupted)
      || (step.MarkStale? && s.jobs[step.j].key == k)
      || (step.Finish? && s.jobs[step.j].key == k)
  {
    var s' := Apply(s, step);
    if step.Deliver? { DeliverKeepsRows(s, step.e, step.now, k); }
  }

  lemma DeliverKeepsRows(s: State, e: Entry, now: int, k: Key)
    requires k in s.tables.rows
    ensures k in DoDeliver(s, e, now).tables.rows && DoDeliver(s, e, now).tables.rows[k] == s.tables.rows[k]
  {
  }

  // ---------------------------------------------------------------- preservation, clause by clause

  lemma ExplainedStays(s: State, step: Step, e: Entry)
    requires Enabled(s, step) && !step.Crash? && Explained(s, e)
    ensures Explained(Apply(s, step), e)
  {
    MemoryGrows(s, step);
    NextRan(s, step, e);
    hide Apply, RanNow;
  }

  lemma OutdatedStays(s: State, step: Step, slot: Slot, fence: int)
    requires Enabled(s, step) && Outdated(s, slot, fence)
    ensures Outdated(Apply(s, step), slot, fence)
  {
    NextFences(s, step);
    hide Apply;
  }

  lemma AccountedStays(s: State, step: Step, e: Entry)
    requires Enabled(s, step) && !step.Crash? && Accounted(s, e)
    ensures Accounted(Apply(s, step), e)
  {
    hide Apply, Enabled, Explained, Outdated;
    if Explained(s, e) { ExplainedStays(s, step, e); } else { OutdatedStays(s, step, EntrySlot(e), e.command.fence); }
  }

  lemma OpenReadGrows(s: State, step: Step, k: Key)
    requires Enabled(s, step) && !step.Crash? && OpenRead(s, k)
    ensures OpenRead(Apply(s, step), k)
  {
    MemoryGrows(s, step);
    var r :| r in s.seen && RowKey(r) == k && !Terminal(r.status);
    assert r in Apply(s, step).seen;
  }

  lemma NextJobsWereOpen(s: State, step: Step)
    requires JobsWereOpen(s) && Enabled(s, step)
    ensures JobsWereOpen(Apply(s, step))
  {
    var s' := Apply(s, step);
    forall j | j in s'.jobs ensures OpenRead(s', s'.jobs[j].key) {
      OthersStay(s, step, j);
      if j in s.jobs {
        OpenReadGrows(s, step, s.jobs[j].key);
      } else {
        MemoryGrows(s, step);
        assert step.r in s'.seen;
      }
    }
  }

  /** A finished command is never read as open: what was read open was read before. */
  lemma NotReopened(s: State, step: Step, k: Key)
    requires TablesInv(s) && Enabled(s, step) && Finished(Apply(s, step), k) && OpenRead(Apply(s, step), k) && !step.Crash?
    ensures OpenRead(s, k)
  {
    var r :| r in Apply(s, step).seen && RowKey(r) == k && !Terminal(r.status);
    if r !in s.seen { SeenIsRow(s, step, r); }
    hide Apply, TablesInv;
  }

  lemma JobFacts(s: State, j: nat)
    requires AccountInv(s) && j in s.jobs
    ensures JobStage(s, s.jobs[j]) && OpenRead(s, s.jobs[j].key) && FinishedIsAccounted(s)
  {
  }

  /** A worker that finishes a row has run its command or found it superseded. */
  lemma FinisherAccounts(s: State, step: Step)
    requires Enabled(s, step) && (step.MarkStale? || step.Finish?) && JobStage(s, s.jobs[step.j]) && s.jobs[step.j].key in s.tables.rows
    ensures Accounted(s, RowEntry(s.tables.rows[s.jobs[step.j].key]))
  {
  }

  lemma NewlyFinished(s: State, step: Step, k: Key)
    requires AccountInv(s) && Enabled(s, step) && !step.Crash? && Open(s, k) && Finished(Apply(s, step), k)
    ensures Accounted(Apply(s, step), RowEntry(s.tables.rows[k]))
  {
    StatusChange(s, step, k);
    if !step.Interrupt? {
      JobFacts(s, step.j);
      hide AccountInv, Apply;
      FinisherAccounts(s, step);
      AccountedStays(s, step, RowEntry(s.tables.rows[k]));
    }
    hide Apply, AccountInv, Outdated;
  }

  lemma StaysAccounted(s: State, step: Step, k: Key)
    requires TablesInv(s) && AccountInv(s) && Enabled(s, step)
    requires Finished(Apply(s, step), k) && OpenRead(Apply(s, step), k)
    ensures Accounted(Apply(s, step), RowEntry(Apply(s, step).tables.rows[k]))
  {
    assert !step.Crash?;
    assert FinishedIsAccounted(s);
    NextRowComes(s, step, k);
    hide Apply, Enabled, TablesInv, AccountInv, Accounted, Accepts;
    if Finished(s, k) {
      NotReopened(s, step, k);
      AccountedStays(s, step, RowEntry(s.tables.rows[k]));
    } else if Open(s, k) {
      NewlyFinished(s, step, k);
    }
  }

  // ---------------------------------------------------------------- the stages of a worker

  /** The row of a worker's id under a step of another: gone, of the same command, or just accepted. */
  lemma RowUnder(s: State, step: Step, j: nat)
    requires FlightInv(s) && Enabled(s, step) && j in s.jobs && Mover(step) != Some(j)
    ensures RowComes(s, step, Apply(s, step).tables, s.jobs[j].key)
    ensures Finished(Apply(s, step), s.jobs[j].key) ==>
              || Finished(s, s.jobs[j].key)
              || (s.jobs[j].key in s.tables.rows && RowEntry(s.tables.rows[s.jobs[j].key]) in Apply(s, step).interrupted)
  {
    var k := s.jobs[j].key;
    NextRowComes(s, step, k);
    if Open(s, k) && Finished(Apply(s, step), k) { StatusChange(s, step, k); }
    hide Apply, Accepts;
  }

  lemma StayedOpen(s: State, step: Step, j: nat)
    requires FlightInv(s) && Enabled(s, step) && !step.Crash? && j in s.jobs && Mover(step) != Some(j)
    requires (s.jobs[j].pc.Current? || s.jobs[j].pc.Entered?) && JobStage(s, s.jobs[j])
    ensures JobStage(Apply(s, step), s.jobs[j])
  {
    var k := s.jobs[j].key;
    RowUnder(s, step, j);
    hide Apply, Enabled, FlightInv, Accepts, RanNow;
    if Finished(s, k) { ExplainedStays(s, step, RowEntry(s.tables.rows[k])); }
  }

  lemma OnlyOfStays(s: State, step: Step, j: nat, e: Entry)
    requires Enabled(s, step) && FairStep(s, step) && j in s.jobs && Committed(s.jobs[j].pc) && OnlyOf(s, s.jobs[j].key, e)
    ensures OnlyOf(Apply(s, step), s.jobs[j].key, e)
  {
    NextRowComes(s, step, s.jobs[j].key);
    hide Apply, Accepts;
  }

  lemma StayedCommitted(s: State, step: Step, j: nat)
    requires Enabled(s, step) && FairStep(s, step) && !step.Crash? && j in s.jobs && Mover(step) != Some(j)
    requires Committed(s.jobs[j].pc) && JobStage(s, s.jobs[j])
    ensures JobStage(Apply(s, step), s.jobs[j])
  {
    var k := s.jobs[j].key;
    if s.jobs[j].pc.Superseded? {
      NextRowComes(s, step, k);
      hide Apply, Accepts, Outdated;
      if k in s.tables.rows { OutdatedStays(s, step, RowSlot(s.tables.rows[k]), s.tables.rows[k].command.fence); }
    } else {
      var e := RowEntry(s.jobs[j].pc.r);
      OnlyOfStays(s, step, j, e);
      NextRan(s, step, e);
      if Explained(s, e) { ExplainedStays(s, step, e); }
      hide Apply, Enabled, FairStep, RanNow, OnlyOf;
    }
  }

  lemma StayedStage(s: State, step: Step, j: nat)
    requires FlightInv(s) && Enabled(s, step) && FairStep(s, step) && !step.Crash? && j in s.jobs && Mover(step) != Some(j)
    requires JobStage(s, s.jobs[j])
    ensures JobStage(Apply(s, step), s.jobs[j])
  {
    if s.jobs[j].pc.Current? || s.jobs[j].pc.Entered? {
      hide JobStage, Apply, Enabled, FairStep;
      StayedOpen(s, step, j);
    } else if Committed(s.jobs[j].pc) {
      hide JobStage, Apply, Enabled, FairStep;
      StayedCommitted(s, step, j);
    } else {
      hide Apply, Enabled, FairStep;
    }
  }

  lemma CheckStage(s: State, j: nat)
    requires j in s.jobs && s.jobs[j].pc.Locked? && OpenRead(s, s.jobs[j].key) && FinishedIsAccounted(s)
    ensures JobStage(DoCheck(s, j), DoCheck(s, j).jobs[j])
  {
    var k := s.jobs[j].key;
    var t := DoCheck(s, j);
    assert forall e | Explained(s, e) :: Explained(t, e) by {
      forall e | Explained(s, e) ensures Explained(t, e) { SameMemory(s, t, e); }
    }
    if Finished(s, k) { assert Accounted(s, RowEntry(s.tables.rows[k])); }
    hide FinishedIsAccounted, OpenRead, Explained;
  }

  lemma SameMemory(s: State, t: State, e: Entry)
    requires t.trace == s.trace && t.life == s.life && t.interrupted == s.interrupted
    ensures Explained(t, e) <==> Explained(s, e)
    ensures RanNow(t, e) <==> RanNow(s, e)
  {
    if RanNow(s, e) { var i :| 0 <= i < |s.trace| && s.trace[i] == Effect(e, s.life); assert t.trace[i] == Effect(e, t.life); }
    if RanNow(t, e) { var i :| 0 <= i < |t.trace| && t.trace[i] == Effect(e, t.life); assert s.trace[i] == Effect(e, s.life); }
  }

  lemma EnterStage(s: State, j: nat, now: int)
    requires j in s.jobs && s.jobs[j].pc.Current? && JobStage(s, s.jobs[j])
    ensures JobStage(DoEnter(s, j, now), DoEnter(s, j, now).jobs[j])
  {
    var t := DoEnter(s, j, now);
    forall e ensures Explained(t, e) <==> Explained(s, e) { SameMemory(s, t, e); }
    hide Explained;
  }

  lemma RereadStage(s: State, j: nat)
    requires j in s.jobs && (s.jobs[j].pc.Entered? || s.jobs[j].pc.Closed?) && JobStage(s, s.jobs[j])
    ensures JobStage(DoReread(s, j), DoReread(s, j).jobs[j])
  {
    var t := DoReread(s, j);
    forall e ensures Explained(t, e) <==> Explained(s, e) { SameMemory(s, t, e); }
    hide Explained;
  }

  lemma BeginStage(s: State, j: nat)
    requires j in s.jobs && s.jobs[j].pc.Acked? && JobStage(s, s.jobs[j])
    ensures JobStage(DoBegin(s, j), DoBegin(s, j).jobs[j])
  {
    assert DoBegin(s, j).trace[|s.trace|] == Effect(RowEntry(s.jobs[j].pc.r), s.life);
  }

  lemma MovedStage(s: State, step: Step, j: nat)
    requires Enabled(s, step) && j in s.jobs && j in Apply(s, step).jobs && Mover(step) == Some(j)
    requires !step.Check? && !step.Enter? && !step.Reread? && !step.Begin? && JobStage(s, s.jobs[j])
    ensures JobStage(Apply(s, step), Apply(s, step).jobs[j])
  {
    TraceStays(s, step);
    if step.AckExecuting? || step.End? {
      var t := Apply(s, step);
      forall e ensures (Explained(t, e) <==> Explained(s, e)) && (RanNow(t, e) <==> RanNow(s, e)) { SameMemory(s, t, e); }
      hide Explained, RanNow;
    } else {
      MovesElsewhere(s, step, j);
      hide Apply, Enabled, RanNow;
    }
  }

  /** All other moves lead to where nothing is claimed. */
  lemma MovesElsewhere(s: State, step: Step, j: nat)
    requires Enabled(s, step) && j in s.jobs && j in Apply(s, step).jobs && Mover(step) == Some(j)
    requires !step.Check? && !step.Enter? && !step.Reread? && !step.Begin? && !step.AckExecuting? && !step.End?
    ensures
      var pc := Apply(s, step).jobs[j].pc;
      !Committed(pc) && !pc.Current? && !pc.Entered?
  {
    hide MarkTerminal;
  }

  lemma BeginIs(s: State, step: Step)
    requires Enabled(s, step) && step.Begin?
    ensures Apply(s, step) == DoBegin(s, step.j)
  {
  }

  lemma NextStage(s: State, step: Step, j: nat)
    requires FlightInv(s) && AccountInv(s) && Enabled(s, step) && FairStep(s, step) && j in Apply(s, step).jobs
    ensures JobStage(Apply(s, step), Apply(s, step).jobs[j])
  {
    hide AccountInv, FlightInv, FairStep, FinishedIsAccounted, OpenRead, JobStage, DoCheck, DoEnter, DoReread, DoBegin, DoTerminal;
    OthersStay(s, step, j);
    JournalSteps(s, step);
    if step.Begin? { BeginIs(s, step); }
    assert !step.Crash?;
    hide Apply, Enabled;
    if j in s.jobs {
      JobFacts(s, j);
      if Mover(step) != Some(j) { StayedStage(s, step, j); }
      else if step.Check? { CheckStage(s, j); }
      else if step.Enter? { EnterStage(s, j, step.now); }
      else if step.Reread? { RereadStage(s, j); }
      else if step.Begin? { BeginStage(s, j); }
      else { MovedStage(s, step, j); }
    } else {
      NewJobStage(Apply(s, step), j);
    }
  }

  lemma NewJobStage(s: State, j: nat)
    requires j in s.jobs && s.jobs[j].pc.Submitting?
    ensures JobStage(s, s.jobs[j])
  {
  }

  /** Every step but an unfair delivery keeps the account of one lifetime. */
  lemma NextAccount(s: State, step: Step)
    requires Inv(s) && AccountInv(s) && Enabled(s, step) && FairStep(s, step)
    ensures AccountInv(Apply(s, step))
  {
    var s' := Apply(s, step);
    NextJobsWereOpen(s, step);
    assert TablesInv(s) && FlightInv(s);
    hide Inv, TablesInv, FlightInv, Apply, Enabled, FairStep, JobStage, OpenRead, Accounted, AccountInv;
    forall k | Finished(s', k) && OpenRead(s', k) ensures Accounted(s', RowEntry(s'.tables.rows[k])) { StaysAccounted(s, step, k); }
    forall j | j in s'.jobs ensures JobStage(s', s'.jobs[j]) { NextStage(s, step, j); }
    assert AccountInv(s') by { AccountParts(s'); }
  }

  lemma AccountParts(s: State)
    requires JobsWereOpen(s) && FinishedIsAccounted(s) && forall j | j in s.jobs :: JobStage(s, s.jobs[j])
    ensures AccountInv(s)
  {
  }

  lemma {:induction false} RunKeepsAccount(s: State, steps: seq<Step>, s': State)
    requires Inv(s) && AccountInv(s) && Leads(s, steps, s') && Each(Fair, s, steps)
    ensures Inv(s') && AccountInv(s')
    decreases |steps|
  {
    hide Inv, AccountInv, Apply, Enabled, Fair;
    if steps != [] {
      NextInv(s, steps[0]);
      NextAccount(s, steps[0]);
      RunKeepsAccount(Apply(s, steps[0]), steps[1..], s');
    }
  }

  lemma ReachableAccount(steps: seq<Step>, s: State)
    requires Leads(INITIAL, steps, s) && Each(Fair, INITIAL, steps)
    ensures Inv(s) && AccountInv(s)
  {
    hide Leads, Each;
    RunKeepsAccount(INITIAL, steps, s);
  }
}
