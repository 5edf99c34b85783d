/**
  How often an effect runs, and why a command is finished.

  Read as it is written, the code does not run an effect at most once per process lifetime: a caller that read a
  command as 'received' may schedule it after another caller's job has finished it, and the worker does not look at
  the status mark_executing gives back. This module keeps, through every step, the facts about one lifetime from
  which ProtocolEffects.dfy says exactly when that happens.
 */
module ProtocolOnce {
  import opened Common
  import opened Journal
  import opened Protocol
  import opened ProtocolSteps
  import opened ProtocolInvariant

  predicate InEffect(pc: Pc) { pc.Running? || pc.Ran? }

  ghost predicate EffectInProgress(s: State, k: Key) {
    exists j :: j in s.jobs && s.jobs[j].key == k && InEffect(s.jobs[j].pc)
  }

  /** The effect of the command has begun in the present lifetime. */
  ghost predicate RanNow(s: State, e: Entry) {
    exists i :: 0 <= i < |s.trace| && s.trace[i] == Effect(e, s.life)
  }

  /** No effect is of a later lifetime. */
  ghost predicate LivesPast(s: State) { forall i | 0 <= i < |s.trace| :: s.trace[i].life <= s.life }

  /** What a lifetime only adds to. */
  lemma MemoryGrows(s: State, step: Step)
    requires Enabled(s, step) && !step.Crash?
    ensures s.seen <= Apply(s, step).seen && s.interrupted <= Apply(s, step).interrupted && Apply(s, step).life == s.life
    ensures !step.Interrupt? ==> Apply(s, step).interrupted == s.interrupted
  {
  }

  lemma NextRan(s: State, step: Step, e: Entry)
    requires Enabled(s, step) && !step.Crash?
    ensures RanNow(Apply(s, step), e) <==> RanNow(s, e) || (step.Begin? && e == RowEntry(s.jobs[step.j].pc.r))
  {
    var s' := Apply(s, step);
    TraceGrows(s, step);
    MemoryGrows(s, step);
    hide Apply;
    if RanNow(s, e) {
      var i :| 0 <= i < |s.trace| && s.trace[i] == Effect(e, s.life);
      assert s'.trace[i] == s.trace[i];
    }
    if step.Begin? { assert s'.trace[|s.trace|] == Effect(RowEntry(s.jobs[step.j].pc.r), s.life); }
  }

  lemma NextLives(s: State, step: Step)
    requires LivesPast(s) && Enabled(s, step)
    ensures LivesPast(Apply(s, step))
    ensures step.Crash? ==> forall e :: !RanNow(Apply(s, step), e)
  {
    TraceGrows(s, step);
    if !step.Crash? { MemoryGrows(s, step); }
  }

  // ---------------------------------------------------------------- a command that has run and is open is running

  predicate HasRecord(pc: Pc) { pc.Marked? || pc.Acked? }

  /** Of a command that has run in this lifetime mark_executing hands out terminal records only. */
  ghost predicate RepeatInv(s: State) {
    && LivesPast(s)
    && (forall e | RanNow(s, e) && OpenAs(s, e) :: EffectInProgress(s, EntryKey(e)))
    && (forall j | j in s.jobs && HasRecord(s.jobs[j].pc) && RanNow(s, RowEntry(s.jobs[j].pc.r)) :: Terminal(s.jobs[j].pc.r.status))
  }

  /** Where a running effect goes: it stays in progress until mark_terminal has been called for it. */
  lemma EffectStays(s: State, step: Step, j: nat)
    requires Enabled(s, step) && !step.Crash? && j in s.jobs && InEffect(s.jobs[j].pc)
    ensures j in Apply(s, step).jobs
    ensures !(step.Finish? && step.j == j) ==> InEffect(Apply(s, step).jobs[j].pc)
  {
  }

  lemma FinishFinishes(s: State, step: Step, j: nat)
    requires Enabled(s, step) && j in s.jobs
    ensures step.Finish? && step.j == j ==> !Open(Apply(s, step), s.jobs[j].key)
  {
  }

  lemma EffectGoesOn(s: State, step: Step, e: Entry)
    requires Inv(s) && RepeatInv(s) && Enabled(s, step) && !step.Crash?
    requires RanNow(Apply(s, step), e) && OpenAs(Apply(s, step), e)
    ensures EffectInProgress(Apply(s, step), EntryKey(e))
  {
    var s' := Apply(s, step);
    NextRan(s, step, e);
    if RanNow(s, e) {
      assert e in s.history;
      if !OpenAs(s, e) { EndedStaysEnded(s, step, e); }
      var j :| j in s.jobs && s.jobs[j].key == EntryKey(e) && InEffect(s.jobs[j].pc);
      EffectStays(s, step, j);
      OthersStay(s, step, j);
      FinishFinishes(s, step, j);
      hide Inv, Apply, Enabled, RepeatInv;
    } else {
      BeginnerRuns(s, step.j);
      hide Inv, RepeatInv;
    }
  }

  lemma BeginnerRuns(s: State, j: nat)
    requires RecordsInv(s) && j in s.jobs && s.jobs[j].pc.Acked?
    ensures EffectInProgress(DoBegin(s, j), RowKey(s.jobs[j].pc.r))
  {
    assert JobRecord(s.jobs[j], s);
    assert DoBegin(s, j).jobs[j].pc.Running?;
  }

  /** Where a record at hand comes from. */
  lemma RecordComes(s: State, step: Step, j: nat)
    requires Enabled(s, step) && j in Apply(s, step).jobs && HasRecord(Apply(s, step).jobs[j].pc)
    ensures j in s.jobs && Apply(s, step).jobs[j].key == s.jobs[j].key
    ensures
      var r := Apply(s, step).jobs[j].pc.r;
      || (HasRecord(s.jobs[j].pc) && s.jobs[j].pc.r == r)
      || (Mover(step) == Some(j) && !step.Begin? && (s.jobs[j].pc.Current? || s.jobs[j].pc.Entered?) && Apply(s, step).tables == s.tables
          && s.jobs[j].key in s.tables.rows && r == s.tables.rows[s.jobs[j].key] && (s.jobs[j].pc.Current? ==> Terminal(r.status)))
  {
    OthersStay(s, step, j);
    JournalSteps(s, step);
    hide MarkTerminal, SupersedingFence;
  }

  /** A record got by mark_executing's re-read of an open row is of a command that has not run. */
  lemma RereadTells(s: State, j: nat)
    requires Inv(s) && RepeatInv(s) && j in s.jobs && (s.jobs[j].pc.Current? || s.jobs[j].pc.Entered?)
    requires s.jobs[j].key in s.tables.rows && RanNow(s, RowEntry(s.tables.rows[s.jobs[j].key]))
    ensures Terminal(s.tables.rows[s.jobs[j].key].status)
  {
    StoredIsEarlier(s.jobs[j].key, s);
    hide TablesInv, RecordsInv, TraceKnown;
  }

  lemma RecordsTell(s: State, step: Step, j: nat)
    requires Inv(s) && RepeatInv(s) && Enabled(s, step) && !step.Crash?
    requires j in Apply(s, step).jobs && HasRecord(Apply(s, step).jobs[j].pc)
    requires RanNow(Apply(s, step), RowEntry(Apply(s, step).jobs[j].pc.r))
    ensures Terminal(Apply(s, step).jobs[j].pc.r.status)
  {
    RecordComes(s, step, j);
    NextRan(s, step, RowEntry(Apply(s, step).jobs[j].pc.r));
    if step.Begin? { BeginnerIsOther(s, step, j); }
    hide Apply, Inv, RanNow, LivesPast;
    if !HasRecord(s.jobs[j].pc) { RereadTells(s, j); }
  }

  /** The command that begins is not one that another worker has the record of. */
  lemma BeginnerIsOther(s: State, step: Step, j: nat)
    requires Inv(s) && Enabled(s, step) && step.Begin? && j in Apply(s, step).jobs && HasRecord(Apply(s, step).jobs[j].pc)
    ensures RowEntry(s.jobs[step.j].pc.r) != RowEntry(Apply(s, step).jobs[j].pc.r)
  {
    var i := step.j;
    assert i != j && Apply(s, step).jobs[j] == s.jobs[j];
    assert JobRecord(s.jobs[i], s) && JobRecord(s.jobs[j], s);
    hide TablesInv, RecordsInv, TraceKnown, Apply;
  }

  lemma NextRepeat(s: State, step: Step)
    requires Inv(s) && RepeatInv(s) && Enabled(s, step)
    ensures RepeatInv(Apply(s, step))
  {
    var s' := Apply(s, step);
    NextLives(s, step);
    if step.Crash? {
      assert s'.jobs == map[];
      hide Inv;
    } else {
      hide Inv, Apply, Enabled, LivesPast, OpenAs, RanNow, RepeatInv;
      forall e | RanNow(s', e) && OpenAs(s', e) ensures EffectInProgress(s', EntryKey(e)) { EffectGoesOn(s, step, e); }
      forall j | j in s'.jobs && HasRecord(s'.jobs[j].pc) && RanNow(s', RowEntry(s'.jobs[j].pc.r)) ensures Terminal(s'.jobs[j].pc.r.status) {
        RecordsTell(s, step, j);
      }
      assert RepeatInv(s') by { RepeatParts(s'); }
    }
  }

  lemma RepeatParts(s: State)
    requires LivesPast(s)
    requires forall e | RanNow(s, e) && OpenAs(s, e) :: EffectInProgress(s, EntryKey(e))
    requires forall j | j in s.jobs && HasRecord(s.jobs[j].pc) && RanNow(s, RowEntry(s.jobs[j].pc.r)) :: Terminal(s.jobs[j].pc.r.status)
    ensures RepeatInv(s)
  {
  }

  lemma {:induction false} RunKeepsRepeat(s: State, steps: seq<Step>, s': State)
    requires Inv(s) && RepeatInv(s) && Leads(s, steps, s')
    ensures Inv(s') && RepeatInv(s')
    decreases |steps|
  {
    hide Inv, RepeatInv, Apply, Enabled;
    if steps != [] {
      NextInv(s, steps[0]);
      NextRepeat(s, steps[0]);
      RunKeepsRepeat(Apply(s, steps[0]), steps[1..], s');
    }
  }
}
