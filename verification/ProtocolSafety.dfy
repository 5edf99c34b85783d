/** What holds over every run of the durable command protocol, from the empty journal on. */
module ProtocolSafety {
  import opened Common
  import opened Journal
  import opened Protocol
  import opened ProtocolSteps
  import opened ProtocolInvariant
  import opened ProtocolReads
  import opened ProtocolFlights

  // ---------------------------------------------------------------- overtaken commands

  /** The last fence of its slot is above that of `e`, and no worker is about to run it. */
  ghost predicate Overtaken(s: State, e: Entry) {
    Outdated(s, EntrySlot(e), e.command.fence) && forall j :: Due(s, j) != Some(e)
  }

  lemma NextOvertaken(s: State, step: Step, e: Entry)
    requires Overtaken(s, e) && Enabled(s, step)
    ensures Overtaken(Apply(s, step), e)
  {
    var s' := Apply(s, step);
    NextFences(s, step);
    forall j ensures Due(s', j) != Some(e) {
      if Due(s', j) == Some(e) { NextDue(s, step, j, e); }
      hide Apply, Due;
    }
  }

  /** The trace has grown by effects of other commands than `e`. */
  ghost predicate GrownWithout(s: State, s': State, e: Entry) {
    && |s.trace| <= |s'.trace| && s.trace == s'.trace[..|s.trace|]
    && forall i | |s.trace| <= i < |s'.trace| :: s'.trace[i].entry != e
  }

  lemma StepWithout(s: State, step: Step, e: Entry)
    requires Overtaken(s, e) && Enabled(s, step)
    ensures GrownWithout(s, Apply(s, step), e)
  {
    TraceGrows(s, step);
    if step.Begin? { BegunWasDue(s, step.j); }
    hide Apply;
  }

  lemma GrownOn(s: State, m: State, s': State, e: Entry)
    requires GrownWithout(s, m, e) && GrownWithout(m, s', e)
    ensures GrownWithout(s, s', e)
  {
    assert s'.trace[..|s.trace|] == m.trace[..|s.trace|];
    forall i | |s.trace| <= i < |s'.trace| ensures s'.trace[i].entry != e {
      if i < |m.trace| { assert s'.trace[i] == m.trace[i]; }
    }
  }

  /** An overtaken command never runs, however the run goes on. */
  lemma {:induction false} OvertakenNeverRuns(s: State, steps: seq<Step>, s': State, e: Entry)
    requires Overtaken(s, e) && Leads(s, steps, s')
    ensures GrownWithout(s, s', e)
    decreases |steps|
  {
    hide Overtaken, GrownWithout, Apply, Enabled;
    if steps != [] {
      var m := Apply(s, steps[0]);
      NextOvertaken(s, steps[0], e);
      StepWithout(s, steps[0], e);
      OvertakenNeverRuns(m, steps[1..], s', e);
      GrownOn(s, m, s', e);
    } else {
      assert GrownWithout(s, s, e) by { NothingGrown(s, e); }
    }
  }

  lemma NothingGrown(s: State, e: Entry)
    ensures GrownWithout(s, s, e)
  {
  }

  /** mark_executing on a finished row hands it out as it is. */
  lemma FinishedToMarked(s: State, j: nat) returns (steps: seq<Step>, t: State)
    requires j in s.jobs && s.jobs[j].pc.Current? && Finished(s, s.jobs[j].key)
    ensures Leads(s, steps, t) && Working(steps)
    ensures t == s.(jobs := s.jobs[j := Job(s.jobs[j].key, Marked(s.tables.rows[s.jobs[j].key]))])
  {
    steps, t := [Enter(j, 0)], Apply(s, Enter(j, 0));
    assert Leads(t, [], t);
  }

  lemma DueToMarked(s: State, j: nat, e: Entry) returns (steps: seq<Step>, t: State)
    requires Due(s, j) == Some(e) && !s.jobs[j].pc.Acked?
    ensures Leads(s, steps, t) && t.trace == s.trace && t.life == s.life
    ensures j in t.jobs && t.jobs[j].pc.Marked? && RowEntry(t.jobs[j].pc.r) == e
  {
    assert Leads(s, [], s);
    var pc := s.jobs[j].pc;
    if pc.Marked? {
      steps, t := [], s;
    } else if pc.Entered? {
      steps, t := [Reread(j)], Apply(s, Reread(j));
      assert Leads(t, [], t);
    } else if Finished(s, s.jobs[j].key) {
      steps, t := FinishedToMarked(s, j);
    } else {
      steps, t := FlyToMarked(s, j, 0);
    }
  }

  /** What is due for a worker runs in some continuation. */
  lemma DueRuns(s: State, j: nat, e: Entry) returns (steps: seq<Step>, t: State)
    requires Due(s, j) == Some(e)
    ensures Leads(s, steps, t) && t.trace == s.trace + [Effect(e, s.life)]
  {
    if s.jobs[j].pc.Acked? {
      OneStep(s, Begin(j));
      steps, t := [Begin(j)], Apply(s, Begin(j));
    } else {
      var p, m := DueToMarked(s, j, e);
      hide Leads, Apply, Enabled;
      var q;
      q, t := FlyToRunning(m, j);
      LeadsJoin(s, p, m, q, t);
      steps := p + q;
    }
  }

  /**
    A command with a lower fence than the last of its slot never runs in any continuation if and only if it is not due
    for a worker: after the re-read of mark_executing in the worker's record, before it in the row of the worker's id.
   */
  lemma OvertakenExactlyWhen(s: State, e: Entry)
    requires Outdated(s, EntrySlot(e), e.command.fence)
    ensures (forall steps, s' | Leads(s, steps, s') :: GrownWithout(s, s', e)) <==> (forall j :: Due(s, j) != Some(e))
  {
    hide Leads, GrownWithout, Due;
    if forall j :: Due(s, j) != Some(e) {
      forall steps, s' | Leads(s, steps, s') ensures GrownWithout(s, s', e) { OvertakenNeverRuns(s, steps, s', e); }
    } else {
      var j :| Due(s, j) == Some(e);
      var steps, t := DueRuns(s, j, e);
      assert !GrownWithout(s, t, e) by { RanIsNotWithout(s, t, e); }
    }
  }

  lemma RanIsNotWithout(s: State, t: State, e: Entry)
    requires t.trace == s.trace + [Effect(e, s.life)]
    ensures !GrownWithout(s, t, e)
  {
    assert t.trace[|s.trace|].entry == e;
  }

  // ---------------------------------------------------------------- rows only go forward

  lemma {:induction false} RunGoesForward(s: State, steps: seq<Step>, s': State, r: Row)
    requires Inv(s) && Leads(s, steps, s') && Earlier(r, s)
    ensures Earlier(r, s')
    ensures s.history <= s'.history && s.acks <= s'.acks
    ensures forall slot | slot in s.tables.fences :: slot in s'.tables.fences && s.tables.fences[slot] <= s'.tables.fences[slot]
    decreases |steps|
  {
    if steps != [] {
      var m := Apply(s, steps[0]);
      NextInv(s, steps[0]);
      EarlierStable(r, s, m);
      AcksStay(s, steps[0]);
      RunGoesForward(m, steps[1..], s', r);
    }
  }

  lemma AcksStay(s: State, step: Step)
    requires Enabled(s, step)
    ensures s.acks <= Apply(s, step).acks
  {
  }

  /**
    As long as a row is of the same command its status rank and confirmed rank never go down, and its first terminal
    state is final. The row of an id may only be of another command when the Hub has used the id again.
   */
  lemma RowsGoForward(s: State, steps: seq<Step>, s': State, k: Key)
    requires Inv(s) && Leads(s, steps, s')
    requires k in s.tables.rows && k in s'.tables.rows
    ensures RowLater(s.tables.rows[k], s'.tables.rows[k]) <==> RowEntry(s.tables.rows[k]) == RowEntry(s'.tables.rows[k])
    ensures RowEntry(s.tables.rows[k]) == RowEntry(s'.tables.rows[k]) ==>
              -1 <= s.tables.rows[k].confirmedRank <= s'.tables.rows[k].confirmedRank <= Rank(s'.tables.rows[k].status)
  {
    StoredIsEarlier(k, s);
    RunGoesForward(s, steps, s', s.tables.rows[k]);
    RunKeepsInv(s, steps, s');
    assert RowOk(k, s.tables.rows[k], s.history) && RowOk(k, s'.tables.rows[k], s'.history);
    hide Inv, Leads;
  }

  // ---------------------------------------------------------------- acknowledgements

  lemma PastConfirms(r: Row, s: State, now: int)
    requires Earlier(r, s) && StillThere(r, s)
    ensures Confirm(s.tables, RowKey(r), r.status, now).result.Ok?
    ensures var row := s.tables.rows[RowKey(r)];
            Confirm(s.tables, RowKey(r), r.status, now).tables.rows[RowKey(r)].confirmedRank == Max(row.confirmedRank, Rank(r.status))
  {
  }

  /**
    An acknowledgement emitted at any time carries a state that was already durable, and the Hub's confirmation of
    it, at any later time and in any order, is accepted as long as the row is of the command.
   */
  lemma AcknowledgementsAreConfirmable(before: seq<Step>, s: State, after: seq<Step>, s': State, ack: Row, now: int)
    requires Leads(INITIAL, before, s) && ack in s.acks && Leads(s, after, s')
    ensures StillThere(ack, s) ==> RowLater(ack, s.tables.rows[RowKey(ack)])
    ensures StillThere(ack, s') ==> Confirm(s'.tables, RowKey(ack), ack.status, now).result.Ok?
    ensures StillThere(ack, s') ==>
              Rank(ack.status) <= Confirm(s'.tables, RowKey(ack), ack.status, now).tables.rows[RowKey(ack)].confirmedRank
  {
    ReachableInv(before, s);
    assert Earlier(ack, s);
    RunGoesForward(s, after, s', ack);
    if StillThere(ack, s') { PastConfirms(ack, s', now); }
  }

  // ---------------------------------------------------------------- nothing accepted is lost, nothing purged comes back

  /** The row of an accepted command is there, or was removed by a purge that found nothing owed for it. */
  ghost predicate Accounted(k: Key, s: State, steps: seq<Step>, s': State)
    requires Leads(s, steps, s')
    decreases |steps|
  {
    if steps == [] then k in s.tables.rows
    else
      || (steps[0].Clean? && k in steps[0].keys && k in s.tables.rows && Purgeable(s.tables.rows[k]))
      || Accounted(k, Apply(s, steps[0]), steps[1..], s')
  }

  lemma RowStays(s: State, step: Step, k: Key)
    requires Inv(s) && Enabled(s, step) && k in s.tables.rows
    ensures k in Apply(s, step).tables.rows || (step.Clean? && k in step.keys && Purgeable(s.tables.rows[k]))
  {
    if !step.Clean? { OnlyCleanRemoves(s, step); }
  }

  lemma OnlyCleanRemoves(s: State, step: Step)
    requires Enabled(s, step) && !step.Clean?
    ensures s.tables.rows.Keys <= Apply(s, step).tables.rows.Keys
  {
  }

  lemma {:induction false} StoredIsAccounted(s: State, steps: seq<Step>, s': State, k: Key)
    requires Inv(s) && Leads(s, steps, s') && k in s.tables.rows
    ensures Accounted(k, s, steps, s')
    decreases |steps|
  {
    if steps != [] {
      RowStays(s, steps[0], k);
      NextInv(s, steps[0]);
      if k in Apply(s, steps[0]).tables.rows { StoredIsAccounted(Apply(s, steps[0]), steps[1..], s', k); }
    }
  }

  lemma AcceptedIsStored(s: State, step: Step, e: Entry)
    requires Enabled(s, step) && e !in s.history && e in Apply(s, step).history
    ensures EntryKey(e) in Apply(s, step).tables.rows
  {
    if !step.Deliver? { HistoryStays(s, step); }
  }

  /** Every command accepted in a run still has its row at the end, unless a purge found it succeeded and confirmed. */
  lemma {:induction false} AcceptedIsAccounted(s: State, steps: seq<Step>, s': State, e: Entry)
    requires Inv(s) && Leads(s, steps, s') && e !in s.history && e in s'.history
    ensures Accounted(EntryKey(e), s, steps, s')
    decreases |steps|
  {
    var m := Apply(s, steps[0]);
    NextInv(s, steps[0]);
    if e in m.history { AcceptedIsStored(s, steps[0], e); }
    hide Inv, Apply, Enabled;
    if e in m.history {
      StoredIsAccounted(m, steps[1..], s', EntryKey(e));
    } else {
      AcceptedIsAccounted(m, steps[1..], s', e);
    }
  }

  /**
    Last fences never fall below an accepted command, so it is never accepted as new again, also when another command has
    taken its id.
   */
  lemma PurgeCannotReopen(before: seq<Step>, s: State, after: seq<Step>, s': State, e: Entry, now: int)
    requires Leads(INITIAL, before, s) && e in s.history && Leads(s, after, s')
    ensures Remembered(e, s'.tables) && !Accepts(s'.tables, e)
    ensures Receive(s'.tables, e, now).tables == s'.tables
    ensures (EntryKey(e) in s'.tables.rows ==> RowEntry(s'.tables.rows[EntryKey(e)]) != e) ==>
              Receive(s'.tables, e, now).result.Err?
  {
    ReachableInv(before, s);
    RunKeepsInv(s, after, s');
    KeptInHistory(s, after, s', e);
    PurgedIsStale(s'.tables, s'.history, e, now);
    ReceiveDuplicate(s'.tables, s'.history, e, now);
  }

  lemma {:induction false} KeptInHistory(s: State, steps: seq<Step>, s': State, e: Entry)
    requires Leads(s, steps, s') && e in s.history
    ensures e in s'.history
    decreases |steps|
  {
    if steps != [] { KeptInHistory(Apply(s, steps[0]), steps[1..], s', e); }
  }

  // ---------------------------------------------------------------- single flight

  /** At every point of every run each command has at most one job, and the scheduled set is exactly their commands. */
  lemma SingleFlight(steps: seq<Step>, s: State)
    requires Leads(INITIAL, steps, s)
    ensures forall i, j | i in s.jobs && j in s.jobs && s.jobs[i].key == s.jobs[j].key :: i == j
    ensures s.scheduled == set j | j in s.jobs :: s.jobs[j].key
  {
    ReachableInv(steps, s);
    forall k | k in s.scheduled ensures k in set j | j in s.jobs :: s.jobs[j].key {
      assert HasJob(s, k);
    }
  }
}
