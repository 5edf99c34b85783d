/** When the Hub never uses an id again: every delivery is calm and fair, and what is said of a row is said of its command. */
module ProtocolIds {
  import opened Journal
  import opened Protocol
  import opened ProtocolSteps
  import opened ProtocolInvariant
  import opened ProtocolCalm
  import opened ProtocolOnce
  import opened ProtocolAccount
  import opened ProtocolEffects

  ghost predicate OneIdOneCommand(history: set<Entry>) {
    forall e, e' | e in history && e' in history && EntryKey(e) == EntryKey(e') :: e == e'
  }

  /** No worker has read a row of an id that is new. */
  lemma NewIdIsUnread(s: State, e: Entry, j: nat)
    requires Inv(s) && NewId(s, e) && Accepts(s.tables, e) && j in s.jobs && HasRow(s.jobs[j].pc)
    ensures s.jobs[j].key != EntryKey(e)
  {
    assert JobRecord(s.jobs[j], s);
    if e in s.history { PurgedIsStale(s.tables, s.history, e, 0); }
    hide TablesInv, RecordsInv, FlightInv, Accepts;
  }

  lemma NewIdIsHarmless(s: State, e: Entry)
    requires Inv(s) && NewId(s, e)
    ensures Calm(s, e) && Fair(s, e)
  {
    if Accepts(s.tables, e) {
      forall j | j in s.jobs && HasRow(s.jobs[j].pc) ensures s.jobs[j].key != EntryKey(e) { NewIdIsUnread(s, e, j); }
    }
    hide Inv, NewId, Accepts;
  }

  lemma NextOneId(s: State, step: Step)
    requires TablesInv(s) && OneIdOneCommand(s.history) && Enabled(s, step) && (step.Deliver? ==> NewId(s, step.e))
    ensures OneIdOneCommand(Apply(s, step).history)
  {
    if !step.Deliver? { HistoryStays(s, step); }
    hide TablesInv;
  }

  lemma {:induction false} NewIdsAreHarmless(s: State, steps: seq<Step>, s': State)
    requires Inv(s) && OneIdOneCommand(s.history) && Leads(s, steps, s') && Each(NewId, s, steps)
    ensures Each(Calm, s, steps) && Each(Fair, s, steps) && Inv(s') && OneIdOneCommand(s'.history)
    decreases |steps|
  {
    hide Inv, OneIdOneCommand, Apply, Enabled, NewId, Calm, Fair;
    if steps != [] {
      var step := steps[0];
      if step.Deliver? { NewIdIsHarmless(s, step.e); }
      assert TablesInv(s) by { InvHasTables(s); }
      NextOneId(s, step);
      NextInv(s, step);
      NewIdsAreHarmless(Apply(s, step), steps[1..], s');
    }
  }

  lemma InvHasTables(s: State)
    requires Inv(s)
    ensures TablesInv(s)
  {
  }

  /** Then the row of an id is always of the command that was read or acknowledged under it. */
  lemma NewIdsKeepCommand(steps: seq<Step>, s: State, r: Row)
    requires Leads(INITIAL, steps, s) && Each(NewId, INITIAL, steps) && RowEntry(r) in s.history && RowKey(r) in s.tables.rows
    ensures StillThere(r, s)
  {
    NewIdsAreHarmless(INITIAL, steps, s);
    StoredIsEarlier(RowKey(r), s);
    assert EntryKey(RowEntry(r)) == EntryKey(RowEntry(s.tables.rows[RowKey(r)]));
    hide Inv, Leads, Each;
  }

  /** Then a replayable effect that is about to run has already run in this lifetime exactly when its record is terminal. */
  lemma NewIdsShowRepeats(steps: seq<Step>, s: State, j: nat)
    requires Leads(INITIAL, steps, s) && Each(NewId, INITIAL, steps)
    requires j in s.jobs && s.jobs[j].pc.Acked? && Replayable(s.jobs[j].pc.r.command.name)
    ensures RanNow(s, RowEntry(s.jobs[j].pc.r)) <==> Terminal(s.jobs[j].pc.r.status)
  {
    hide Leads, Each, RanNow;
    NewIdsAreHarmless(INITIAL, steps, s);
    RepeatsAreVisible(steps, s, j);
    var r := s.jobs[j].pc.r;
    assert JobRecord(s.jobs[j], s);
    forall x | x in s.seen && RowKey(x) == RowKey(r) ensures Replayable(x.command.name) {
      assert Earlier(x, s) && EntryKey(RowEntry(x)) == EntryKey(RowEntry(r));
    }
    assert !ReadAsLost(s, RowKey(r)) by { NoneLost(s, RowKey(r)); }
  }

  lemma NoneLost(s: State, k: Key)
    requires forall x | x in s.seen && RowKey(x) == k :: Replayable(x.command.name)
    ensures !ReadAsLost(s, k)
  {
  }
}
