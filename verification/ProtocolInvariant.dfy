/**
  The invariant of the durable command protocol, and its preservation by every step, also when the Hub uses the id of a
  purged command again.
 */
module ProtocolInvariant {
  import opened Common
  import opened Journal
  import opened Protocol
  import opened ProtocolSteps

  // ---------------------------------------------------------------- tables

  ghost predicate TablesInv(s: State) { TablesOk(s.tables, s.history) }

  /** A command accepted before is not accepted again: if its row is there after the step it was there before. */
  ghost predicate NoReturn(s: State, s': State) {
    forall k | k in s'.tables.rows && RowEntry(s'.tables.rows[k]) in s.history ::
      k in s.tables.rows && RowEntry(s.tables.rows[k]) == RowEntry(s'.tables.rows[k])
  }

  ghost predicate Forward(s: State, s': State) {
    Later(s.tables, s'.tables) && s.history <= s'.history && NoReturn(s, s')
  }

  lemma LaterReflexive(t: Tables)
    ensures Later(t, t)
  {
  }

  lemma NothingReturns(s: State, step: Step)
    requires TablesInv(s) && Enabled(s, step)
    ensures NoReturn(s, Apply(s, step))
  {
    var t := Apply(s, step).tables;
    forall k | k in t.rows && RowEntry(t.rows[k]) in s.history
      ensures k in s.tables.rows && RowEntry(s.tables.rows[k]) == RowEntry(t.rows[k])
    {
      NextRowComes(s, step, k);
      if step.Deliver? && step.e in s.history { PurgedIsStale(s.tables, s.history, step.e, step.now); }
      hide TablesOk, Apply, Enabled, Accepts;
    }
  }

  lemma WorkerKeepsTables(s: State, step: Step)
    requires TablesInv(s) && Enabled(s, step) && Mover(step).Some?
    ensures TablesInv(Apply(s, step)) && Later(s.tables, Apply(s, step).tables)
  {
    HistoryStays(s, step);
    WorkerTables(s, step);
    LaterReflexive(s.tables);
    hide Apply, TablesOk, Later, MarkTerminal, MarkExecuting;
    var k := if step.Schedule? then RowKey(step.r) else s.jobs[step.j].key;
    if step.MarkStale? {
      MarkTerminalKeeps(s.tables, s.history, k, Failed, StaleOutcome(s.jobs[step.j].pc.above), step.now);
    } else if step.Finish? {
      MarkTerminalKeeps(s.tables, s.history, k, FinalStatus(s.jobs[step.j].pc.outcome), s.jobs[step.j].pc.outcome, step.now);
    } else if step.Enter? {
      TransitionKeeps(s.tables, s.history, k, Executing, step.now);
    }
  }

  lemma DeliverKeepsTables(s: State, e: Entry, now: int)
    requires TablesInv(s)
    ensures
      var s' := DoDeliver(s, e, now);
      TablesInv(s') && Later(s.tables, s'.tables) && s.history <= s'.history
  {
    hide TablesOk, Later, Receive;
    ReceiveKeeps(s.tables, s.history, e, now);
  }

  lemma NextTables(s: State, step: Step)
    requires TablesInv(s) && Enabled(s, step)
    ensures TablesInv(Apply(s, step)) && Forward(s, Apply(s, step))
  {
    NothingReturns(s, step);
    LaterReflexive(s.tables);
    hide TablesOk, NoReturn, Later, Receive, MarkTerminal, Confirm, Purge;
    if step.Deliver? {
      DeliverKeepsTables(s, step.e, step.now);
    } else {
      HistoryStays(s, step);
      if Mover(step).Some? {
        WorkerKeepsTables(s, step);
      } else {
        TablesChangeBy(s, step);
        hide Apply;
        if step.Interrupt? {
          MarkTerminalKeeps(s.tables, s.history, RowKey(step.r), Failed, INTERRUPTED, step.now);
        } else if step.HubConfirms? {
          ConfirmKeeps(s.tables, s.history, step.k, step.status, step.now);
        } else if step.Clean? {
          PurgeKeeps(s.tables, s.history, step.keys);
        }
      }
    }
  }

  /** The row of `e` is there and not finished. */
  predicate OpenAs(s: State, e: Entry) {
    Open(s, EntryKey(e)) && RowEntry(s.tables.rows[EntryKey(e)]) == e
  }

  lemma EndedStaysEnded(s: State, step: Step, e: Entry)
    requires TablesInv(s) && Enabled(s, step) && e in s.history && !OpenAs(s, e)
    ensures !OpenAs(Apply(s, step), e)
  {
    NextTables(s, step);
    hide TablesOk, Apply, Enabled;
  }

  // ---------------------------------------------------------------- records read at some earlier time

  /** The stored row of the id is of the same command as this record. */
  predicate StillThere(r: Row, s: State) {
    RowKey(r) in s.tables.rows && RowEntry(s.tables.rows[RowKey(r)]) == RowEntry(r)
  }

  /** `r` is an accepted command at its present or an earlier stage; its row may be gone. */
  ghost predicate Earlier(r: Row, s: State) {
    && RowEntry(r) in s.history
    && (StillThere(r, s) ==> RowLater(r, s.tables.rows[RowKey(r)]))
  }

  ghost predicate JobRecord(job: Job, s: State) {
    && (HasRow(job.pc) ==> Earlier(job.pc.r, s) && RowKey(job.pc.r) == job.key)
    && (job.pc.Settled? && job.pc.ack.Some? ==> Earlier(job.pc.ack.value, s))
  }

  ghost predicate RecordsInv(s: State) {
    && (forall r | r in s.seen :: Earlier(r, s))
    && s.idle <= s.seen
    && (forall r | r in s.acks :: Earlier(r, s))
    && (forall j | j in s.jobs :: JobRecord(s.jobs[j], s))
  }

  lemma EarlierStable(r: Row, s: State, s': State)
    requires Earlier(r, s) && Forward(s, s')
    ensures Earlier(r, s')
  {
    if StillThere(r, s') {
      var k := RowKey(r);
      assert RowEntry(s'.tables.rows[k]) in s.history;
      assert StillThere(r, s) && RowLater(s.tables.rows[k], s'.tables.rows[k]);
    }
  }

  lemma StoredIsEarlier(k: Key, s: State)
    requires TablesInv(s) && k in s.tables.rows
    ensures Earlier(s.tables.rows[k], s) && RowKey(s.tables.rows[k]) == k
  {
    assert RowOk(k, s.tables.rows[k], s.history);
  }

  /** Everything recorded before the step is still past after it. */
  lemma RecordsStable(s: State, s': State)
    requires RecordsInv(s) && Forward(s, s')
    ensures forall r | r in s.seen :: Earlier(r, s')
    ensures forall r | r in s.acks :: Earlier(r, s')
    ensures forall j | j in s.jobs :: JobRecord(s.jobs[j], s')
  {
    forall r | r in s.seen ensures Earlier(r, s') { EarlierStable(r, s, s'); }
    forall r | r in s.acks ensures Earlier(r, s') { EarlierStable(r, s, s'); }
    forall j | j in s.jobs ensures JobRecord(s.jobs[j], s') {
      var job := s.jobs[j];
      assert JobRecord(job, s);
      if HasRow(job.pc) { EarlierStable(job.pc.r, s, s'); }
      if job.pc.Settled? && job.pc.ack.Some? { EarlierStable(job.pc.ack.value, s, s'); }
    }
  }

  lemma NextJobRecord(s: State, step: Step, j: nat)
    requires TablesInv(s) && RecordsInv(s) && Enabled(s, step)
    requires j in Apply(s, step).jobs
    ensures JobRecord(Apply(s, step).jobs[j], Apply(s, step))
  {
    var s' := Apply(s, step);
    NextTables(s, step);
    RecordsStable(s, s');
    OthersStay(s, step, j);
    if Mover(step) == Some(j) && j in s.jobs {
      MovedRecord(s, step, j);
    }
  }

  lemma TerminalRecord(s: State, j: nat, status: Status, o: Outcome, now: int)
    requires At(s, j) && HasRow(s.jobs[j].pc) && Terminal(status)
    requires TablesInv(s)
    requires Forward(s, DoTerminal(s, j, status, o, now)) && JobRecord(s.jobs[j], DoTerminal(s, j, status, o, now))
    ensures JobRecord(DoTerminal(s, j, status, o, now).jobs[j], DoTerminal(s, j, status, o, now))
  {
    var s' := DoTerminal(s, j, status, o, now);
    var k := s.jobs[j].key;
    if k in s.tables.rows {
      StoredIsEarlier(k, s);
      EarlierStable(s.tables.rows[k], s, s');
    }
  }

  lemma EnterRecord(s: State, j: nat, now: int)
    requires At(s, j) && s.jobs[j].pc.Current?
    requires TablesInv(s)
    requires Forward(s, DoEnter(s, j, now)) && JobRecord(s.jobs[j], DoEnter(s, j, now))
    ensures JobRecord(DoEnter(s, j, now).jobs[j], DoEnter(s, j, now))
  {
    var s' := DoEnter(s, j, now);
    var k := s.jobs[j].key;
    if k in s.tables.rows {
      StoredIsEarlier(k, s);
      EarlierStable(s.tables.rows[k], s, s');
    }
  }

  /** In all other moves the record of a worker, or its acknowledgement, is the one it had or the stored row. */
  lemma MovedHas(s: State, step: Step, j: nat)
    requires Enabled(s, step) && Mover(step) == Some(j) && !step.Enter? && !step.MarkStale? && !step.Finish?
    requires j in s.jobs && j in Apply(s, step).jobs
    ensures
      var job, job' := s.jobs[j], Apply(s, step).jobs[j];
      && job'.key == job.key
      && (HasRow(job'.pc) ==> (HasRow(job.pc) && job'.pc.r == job.pc.r) || (job.key in s.tables.rows && job'.pc.r == s.tables.rows[job.key]))
      && (job'.pc.Settled? && job'.pc.ack.Some? ==> job.key in s.tables.rows && job'.pc.ack.value == s.tables.rows[job.key])
  {
    hide DoTerminal, DoEnter, SupersedingFence;
  }

  lemma MovedRecord(s: State, step: Step, j: nat)
    requires TablesInv(s) && Enabled(s, step) && Mover(step) == Some(j)
    requires j in s.jobs && j in Apply(s, step).jobs
    requires Forward(s, Apply(s, step)) && JobRecord(s.jobs[j], Apply(s, step))
    ensures JobRecord(Apply(s, step).jobs[j], Apply(s, step))
  {
    var k := s.jobs[j].key;
    WorkerTables(s, step);
    hide TablesInv, Forward, DoTerminal, DoEnter, SupersedingFence;
    if step.Enter? {
      EnterRecord(s, j, step.now);
    } else if step.MarkStale? {
      TerminalRecord(s, j, Failed, StaleOutcome(s.jobs[j].pc.above), step.now);
    } else if step.Finish? {
      TerminalRecord(s, j, FinalStatus(s.jobs[j].pc.outcome), s.jobs[j].pc.outcome, step.now);
    } else {
      MovedHas(s, step, j);
      hide Apply, Earlier;
      if k in s.tables.rows {
        StoredIsEarlier(k, s);
        EarlierStable(s.tables.rows[k], s, Apply(s, step));
      }
    }
  }

  lemma IdleIsSeen(s: State, step: Step)
    requires Enabled(s, step) && s.idle <= s.seen
    ensures Apply(s, step).idle <= Apply(s, step).seen
  {
    hide Receive, MarkTerminal, MarkExecuting, Confirm, Purge, SupersedingFence;
  }

  lemma NextRecords(s: State, step: Step)
    requires TablesInv(s) && RecordsInv(s) && Enabled(s, step)
    ensures RecordsInv(Apply(s, step))
  {
    var s' := Apply(s, step);
    NextTables(s, step);
    RecordsStable(s, s');
    assert s'.idle <= s'.seen by { IdleIsSeen(s, step); }
    hide Apply, Enabled, Earlier, JobRecord, TablesInv, Forward;
    forall j | j in s'.jobs ensures JobRecord(s'.jobs[j], s') { NextJobRecord(s, step, j); }
    forall r | r in s'.seen ensures Earlier(r, s') { NextSeen(s, step, r); }
    forall r | r in s'.acks ensures Earlier(r, s') { NextAck(s, step, r); }
  }

  lemma NextSeen(s: State, step: Step, r: Row)
    requires TablesInv(s) && RecordsInv(s) && Enabled(s, step)
    requires r in Apply(s, step).seen
    ensures Earlier(r, Apply(s, step))
  {
    NextTables(s, step);
    if r in s.seen {
      RecordsStable(s, Apply(s, step));
    } else {
      SeenIsRow(s, step, r);
      hide Apply, TablesOk, RecordsInv, Later;
      StoredIsEarlier(RowKey(r), Apply(s, step));
    }
  }

  /** What a step adds to the acknowledgements. */
  lemma AcksGrowBy(s: State, step: Step, r: Row)
    requires Enabled(s, step) && r in Apply(s, step).acks && r !in s.acks
    ensures step.Emit? || step.AckExecuting? || step.Release?
    ensures step.Emit? ==> r == step.r
    ensures step.AckExecuting? ==> r == s.jobs[step.j].pc.r
    ensures step.Release? ==> s.jobs[step.j].pc.ack == Some(r)
  {
    hide Receive, MarkTerminal, MarkExecuting, Confirm, Purge, SupersedingFence;
  }

  lemma NextAck(s: State, step: Step, r: Row)
    requires TablesInv(s) && RecordsInv(s) && Enabled(s, step)
    requires r in Apply(s, step).acks
    ensures Earlier(r, Apply(s, step))
  {
    NextTables(s, step);
    RecordsStable(s, Apply(s, step));
    if r !in s.acks {
      AcksGrowBy(s, step, r);
      hide Apply, TablesInv, RecordsInv, Forward, Earlier;
      if !step.Emit? { assert JobRecord(s.jobs[step.j], Apply(s, step)); }
    }
  }

  // ---------------------------------------------------------------- ids

  /** The id of the command is stored, or no other command has ever been accepted under it. */
  ghost predicate NewId(s: State, e: Entry) {
    EntryKey(e) !in s.tables.rows ==> forall x | x in s.history && EntryKey(x) == EntryKey(e) :: x == e
  }

  // ---------------------------------------------------------------- single flight

  ghost predicate HasJob(s: State, k: Key) {
    exists j :: j in s.jobs && s.jobs[j].key == k
  }

  /** The scheduled set is exactly the commands with a job, and no command has two. */
  ghost predicate FlightInv(s: State) {
    && (forall j | j in s.jobs :: s.jobs[j].key in s.scheduled)
    && (forall k | k in s.scheduled :: HasJob(s, k))
    && (forall i, j | i in s.jobs && j in s.jobs && s.jobs[i].key == s.jobs[j].key :: i == j)
  }

  lemma NextFlight(s: State, step: Step)
    requires FlightInv(s) && Enabled(s, step)
    ensures FlightInv(Apply(s, step))
  {
    var s' := Apply(s, step);
    forall j | j in s'.jobs ensures s'.jobs[j].key in s'.scheduled { OthersStay(s, step, j); }
    forall k | k in s'.scheduled ensures HasJob(s', k) { NextHasJob(s, step, k); }
    forall i, j | i in s'.jobs && j in s'.jobs && s'.jobs[i].key == s'.jobs[j].key ensures i == j {
      OthersStay(s, step, i);
      OthersStay(s, step, j);
    }
  }

  lemma Enters(s: State, step: Step, k: Key)
    requires Enabled(s, step) && k in Apply(s, step).scheduled && k !in s.scheduled
    ensures HasJob(Apply(s, step), k)
  {
    assert step.Schedule?;
    assert Apply(s, step).jobs[step.j].key == k;
  }

  lemma NextHasJob(s: State, step: Step, k: Key)
    requires FlightInv(s) && Enabled(s, step) && k in Apply(s, step).scheduled
    ensures HasJob(Apply(s, step), k)
  {
    var s' := Apply(s, step);
    if k in s.scheduled {
      var j :| j in s.jobs && s.jobs[j].key == k;
      if j in s'.jobs { OthersStay(s, step, j); } else { Leaves(s, step, j); }
    } else {
      Enters(s, step, k);
    }
  }

  // ---------------------------------------------------------------- together

  /** Only accepted commands have run or been given up. */
  ghost predicate TraceKnown(s: State) {
    (forall i | 0 <= i < |s.trace| :: s.trace[i].entry in s.history) && s.interrupted <= s.history
  }

  lemma InterruptedGrowsBy(s: State, step: Step)
    requires Enabled(s, step)
    ensures Apply(s, step).interrupted ==
            if step.Crash? then {}
            else if step.Interrupt? && Open(s, RowKey(step.r)) then s.interrupted + {RowEntry(s.tables.rows[RowKey(step.r)])}
            else s.interrupted
  {
    hide Receive, MarkTerminal, MarkExecuting, Confirm, Purge, SupersedingFence;
  }

  lemma NextInterrupted(s: State, step: Step, e: Entry)
    requires TablesInv(s) && Enabled(s, step) && e in Apply(s, step).interrupted
    ensures e in s.interrupted || (step.Interrupt? && e in s.history && RowKey(step.r) == EntryKey(e))
  {
    InterruptedGrowsBy(s, step);
    hide Apply, Enabled;
    if step.Interrupt? && RowKey(step.r) in s.tables.rows { assert RowOk(RowKey(step.r), s.tables.rows[RowKey(step.r)], s.history); }
    hide TablesOk;
  }

  lemma NextTraceKnown(s: State, step: Step)
    requires TablesInv(s) && RecordsInv(s) && TraceKnown(s) && Enabled(s, step) && s.history <= Apply(s, step).history
    ensures TraceKnown(Apply(s, step))
  {
    TraceGrows(s, step);
    if step.Begin? { assert JobRecord(s.jobs[step.j], s); }
    hide Apply, RecordsInv, TablesInv;
    forall e | e in Apply(s, step).interrupted ensures e in Apply(s, step).history { NextInterrupted(s, step, e); }
  }

  ghost predicate Inv(s: State) {
    TablesInv(s) && RecordsInv(s) && FlightInv(s) && TraceKnown(s)
  }

  lemma InvInitial()
    ensures Inv(INITIAL)
  {
  }

  /** Every step of every caller, worker, confirmation, purge and crash keeps the invariant. */
  lemma NextInv(s: State, step: Step)
    requires Inv(s) && Enabled(s, step)
    ensures Inv(Apply(s, step)) && Forward(s, Apply(s, step))
  {
    NextTables(s, step);
    NextRecords(s, step);
    NextFlight(s, step);
    NextTraceKnown(s, step);
  }

  lemma {:induction false} RunKeepsInv(s: State, steps: seq<Step>, s': State)
    requires Inv(s) && Leads(s, steps, s')
    ensures Inv(s')
    decreases |steps|
  {
    if steps != [] {
      NextInv(s, steps[0]);
      RunKeepsInv(Apply(s, steps[0]), steps[1..], s');
    }
  }

  lemma ReachableInv(steps: seq<Step>, s: State)
    requires Leads(INITIAL, steps, s)
    ensures Inv(s)
  {
    InvInitial();
    RunKeepsInv(INITIAL, steps, s);
  }
}
