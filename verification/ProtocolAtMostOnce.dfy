/** At-most-once: per lifetime when callers schedule on a current status, and across crashes for non-replayable commands. */
module ProtocolAtMostOnce {
  import opened Common
  import opened Journal
  import opened Protocol
  import opened ProtocolSteps
  import opened ProtocolInvariant
  import opened ProtocolOnce

  // ---------------------------------------------------------------- reading the status and scheduling as one step

  /** A caller that schedules does so while the status it read is still the stored one. */
  predicate FreshStep(s: State, step: Step) {
    step.Schedule? ==>
      RowKey(step.r) in s.tables.rows && s.tables.rows[RowKey(step.r)].status == step.r.status
  }

  ghost predicate AllFresh(s: State, steps: seq<Step>)
    decreases |steps|
  {
    steps != [] && Enabled(s, steps[0]) ==> FreshStep(s, steps[0]) && AllFresh(Apply(s, steps[0]), steps[1..])
  }

  predicate NotYet(pc: Pc) {
    pc.Submitting? || pc.Queued? || pc.Fetched? || pc.Locked? || pc.Superseded? || Cleared(pc)
  }

  /** A command that has run has no worker that could run it again. */
  ghost predicate NoSecond(s: State, e: Entry) {
    forall j | j in s.jobs && s.jobs[j].key == EntryKey(e) && NotYet(s.jobs[j].pc) :: !IsRow(s, e) && Due(s, j) != Some(e)
  }

  /** The stored row of the id is of this command. */
  predicate IsRow(s: State, e: Entry) { EntryKey(e) in s.tables.rows && RowEntry(s.tables.rows[EntryKey(e)]) == e }

  ghost predicate OnceInv(s: State) {
    && (forall e | RanNow(s, e) :: NoSecond(s, e))
    && (forall a, b | 0 <= a < b < |s.trace| && s.trace[a].life == s.trace[b].life :: s.trace[a].entry != s.trace[b].entry)
  }

  lemma NoReturnOf(s: State, step: Step, e: Entry)
    requires TablesInv(s) && Enabled(s, step) && e in s.history && IsRow(Apply(s, step), e)
    ensures IsRow(s, e)
  {
    NextTables(s, step);
    hide Apply, TablesOk;
  }

  lemma StaysNotYet(s: State, step: Step, j: nat)
    requires Enabled(s, step) && j in s.jobs && j in Apply(s, step).jobs && NotYet(Apply(s, step).jobs[j].pc)
    ensures NotYet(s.jobs[j].pc) && !(step.Begin? && step.j == j)
  {
  }

  /** A command that has run and whose id has no worker is not open. */
  lemma RestingIsEnded(s: State, e: Entry)
    requires FlightInv(s) && RepeatInv(s) && RanNow(s, e) && EntryKey(e) !in s.scheduled
    ensures !OpenAs(s, e)
  {
  }

  /** A caller that schedules on a current status does not schedule a command that has run. */
  lemma NewJobIsOther(s: State, step: Step, j: nat, e: Entry)
    requires FlightInv(s) && RepeatInv(s) && RanNow(s, e) && Enabled(s, step) && FreshStep(s, step)
    requires j in Apply(s, step).jobs && j !in s.jobs && Apply(s, step).jobs[j].key == EntryKey(e)
    ensures !IsRow(s, e) && Due(Apply(s, step), j).None?
  {
    OthersStay(s, step, j);
    assert EntryKey(e) !in s.scheduled;
    RestingIsEnded(s, e);
    hide FlightInv, RepeatInv, Apply;
  }

  lemma DueNotAgain(s: State, step: Step, j: nat, e: Entry)
    requires TablesInv(s) && Enabled(s, step) && e in s.history && j in s.jobs && s.jobs[j].key == EntryKey(e)
    requires !IsRow(s, e) && Due(s, j) != Some(e)
    ensures Due(Apply(s, step), j) != Some(e)
  {
    if Due(Apply(s, step), j) == Some(e) {
      NextDue(s, step, j, e);
      if step.Deliver? && step.e == e { PurgedIsStale(s.tables, s.history, e, step.now); }
      hide Apply, Due, TablesInv, Accepts;
      assert false;
    }
  }

  /** What has run before the step has no second worker after it. */
  lemma StaysWithoutSecond(s: State, step: Step, e: Entry)
    requires Inv(s) && RepeatInv(s) && Enabled(s, step) && FreshStep(s, step) && RanNow(s, e) && NoSecond(s, e)
    ensures NoSecond(Apply(s, step), e)
  {
    var s' := Apply(s, step);
    assert TablesInv(s) && FlightInv(s) && e in s.history;
    hide Inv, TablesInv, FlightInv, RepeatInv, RanNow, Due, FreshStep;
    if IsRow(s', e) { NoReturnOf(s, step, e); }
    forall j | j in s'.jobs && s'.jobs[j].key == EntryKey(e) && NotYet(s'.jobs[j].pc) ensures !IsRow(s', e) && Due(s', j) != Some(e) {
      OthersStay(s, step, j);
      if j in s.jobs {
        StaysNotYet(s, step, j);
        hide Apply, Enabled, NotYet;
        DueNotAgain(s, step, j, e);
      } else {
        NewJobIsOther(s, step, j, e);
      }
    }
  }

  /** The worker that begins an effect is the only one of its id. */
  lemma BeginnerIsAlone(s: State, j: nat)
    requires RecordsInv(s) && FlightInv(s) && j in s.jobs && s.jobs[j].pc.Acked?
    ensures NoSecond(DoBegin(s, j), RowEntry(s.jobs[j].pc.r))
  {
    assert JobRecord(s.jobs[j], s);
    assert DoBegin(s, j).jobs[j].pc.Running?;
    hide RecordsInv;
  }

  lemma BeginIsFirst(s: State, j: nat)
    requires RecordsInv(s) && OnceInv(s) && j in s.jobs && s.jobs[j].pc.Acked?
    ensures !RanNow(s, RowEntry(s.jobs[j].pc.r))
  {
    var e := RowEntry(s.jobs[j].pc.r);
    assert JobRecord(s.jobs[j], s);
    BegunWasDue(s, j);
    assert RanNow(s, e) ==> NoSecond(s, e);
    hide RecordsInv, Due;
  }

  lemma NextNoSecond(s: State, step: Step, e: Entry)
    requires Inv(s) && RepeatInv(s) && OnceInv(s) && Enabled(s, step) && FreshStep(s, step) && !step.Crash? && RanNow(Apply(s, step), e)
    ensures NoSecond(Apply(s, step), e)
  {
    NextRan(s, step, e);
    assert RecordsInv(s) && FlightInv(s);
    if RanNow(s, e) {
      assert NoSecond(s, e);
      hide Inv, RepeatInv, OnceInv, NoSecond, RanNow, Apply, Enabled;
      StaysWithoutSecond(s, step, e);
    } else {
      hide Inv, RecordsInv, FlightInv, RepeatInv, OnceInv, NoSecond, RanNow;
      BeginnerIsAlone(s, step.j);
    }
  }

  lemma NextDistinct(s: State, step: Step)
    requires RecordsInv(s) && OnceInv(s) && Enabled(s, step)
    ensures
      var t := Apply(s, step).trace;
      forall a, b | 0 <= a < b < |t| && t[a].life == t[b].life :: t[a].entry != t[b].entry
  {
    TraceGrows(s, step);
    if step.Begin? {
      BeginIsFirst(s, step.j);
      forall a | 0 <= a < |s.trace| && s.trace[a].life == s.life ensures s.trace[a].entry != RowEntry(s.jobs[step.j].pc.r) {
        assert RanNow(s, s.trace[a].entry) by { assert s.trace[a] == Effect(s.trace[a].entry, s.life); }
      }
    }
    hide Apply, RanNow, RecordsInv;
  }

  lemma NextOnce(s: State, step: Step)
    requires Inv(s) && RepeatInv(s) && OnceInv(s) && Enabled(s, step) && FreshStep(s, step)
    ensures OnceInv(Apply(s, step))
  {
    assert RecordsInv(s);
    if step.Crash? { NextLives(s, step); }
    hide Inv, RecordsInv, RepeatInv, FreshStep, Apply, Enabled, NoSecond, RanNow;
    NextDistinct(s, step);
    forall e | RanNow(Apply(s, step), e) ensures NoSecond(Apply(s, step), e) { NextNoSecond(s, step, e); }
  }

  lemma {:induction false} RunKeepsOnce(s: State, steps: seq<Step>, s': State)
    requires Inv(s) && RepeatInv(s) && OnceInv(s) && Leads(s, steps, s') && AllFresh(s, steps)
    ensures OnceInv(s')
    decreases |steps|
  {
    hide Inv, RepeatInv, OnceInv, FreshStep, Apply, Enabled;
    if steps != [] {
      NextInv(s, steps[0]);
      NextRepeat(s, steps[0]);
      NextOnce(s, steps[0]);
      RunKeepsOnce(Apply(s, steps[0]), steps[1..], s');
    }
  }

  /** With "read the status and schedule" taken as one step, an effect runs at most once per process lifetime. */
  lemma AtMostOncePerLifetime(steps: seq<Step>, s: State, a: nat, b: nat)
    requires Leads(INITIAL, steps, s) && AllFresh(INITIAL, steps)
    requires a < b < |s.trace| && s.trace[a].entry == s.trace[b].entry
    ensures s.trace[a].life < s.trace[b].life
  {
    InvInitial();
    RunKeepsOnce(INITIAL, steps, s);
    LivesAscend(INITIAL, steps, s);
  }

  ghost predicate LifeOrdered(s: State) {
    && (forall a, b | 0 <= a <= b < |s.trace| :: s.trace[a].life <= s.trace[b].life)
    && (forall a | 0 <= a < |s.trace| :: s.trace[a].life <= s.life)
  }

  lemma LifeStays(s: State, step: Step)
    requires Enabled(s, step)
    ensures Apply(s, step).life == if step.Crash? then s.life + 1 else s.life
  {
    if !step.Crash? { MemoryGrows(s, step); }
  }

  lemma {:induction false} LivesAscend(s: State, steps: seq<Step>, s': State)
    requires LifeOrdered(s) && Leads(s, steps, s')
    ensures LifeOrdered(s')
    decreases |steps|
  {
    if steps != [] {
      TraceGrows(s, steps[0]);
      LifeStays(s, steps[0]);
      LivesAscend(Apply(s, steps[0]), steps[1..], s');
    }
  }

  // ---------------------------------------------------------------- non-replayable commands

  predicate Lasting(e: Entry) { !Replayable(e.command.name) }

  ghost predicate OnTrace(s: State, e: Entry) { exists i :: 0 <= i < |s.trace| && s.trace[i].entry == e }

  /** The effect began in an earlier lifetime. */
  ghost predicate RanBefore(s: State, e: Entry) { exists i :: 0 <= i < |s.trace| && s.trace[i].entry == e && s.trace[i].life < s.life }

  /** The row of the command, if it is there, is past 'received'. */
  predicate PastReceived(s: State, e: Entry) { IsRow(s, e) ==> Rank(s.tables.rows[EntryKey(e)].status) >= 1 }

  /** Nobody in this lifetime has read the command as one to be scheduled, and no worker has it. */
  ghost predicate Untouchable(s: State, e: Entry) {
    && (IsRow(s, e) ==> EntryKey(e) !in s.scheduled && NotSchedulable(s, EntryKey(e)))
    && forall j :: Due(s, j) != Some(e)
  }

  /** The row of the id is there and has been marked, and nobody has finished it as a success. */
  predicate IsMarked(s: State, k: Key) {
    k in s.tables.rows && (s.tables.rows[k].status.Executing? || s.tables.rows[k].status.Failed?)
  }

  /** A worker about to run a command has marked it, and between the write and the re-read the row cannot be purged. */
  ghost predicate MarkedFirst(s: State) {
    && (forall j | j in s.jobs && HasRecord(s.jobs[j].pc) :: Rank(s.jobs[j].pc.r.status) >= 1)
    && (forall j | j in s.jobs && s.jobs[j].pc.Entered? :: IsMarked(s, s.jobs[j].key))
  }

  ghost predicate OneLifeInv(s: State) {
    && LifeOrdered(s) && MarkedFirst(s)
    && (forall e | OnTrace(s, e) && Lasting(e) :: PastReceived(s, e))
    && (forall e | RanBefore(s, e) && Lasting(e) :: Untouchable(s, e))
    && InOneLife(s)
  }

  /** No non-replayable command has run in two lifetimes. */
  ghost predicate InOneLife(s: State) {
    forall a, b | 0 <= a < |s.trace| && 0 <= b < |s.trace| && s.trace[a].entry == s.trace[b].entry && Lasting(s.trace[a].entry) ::
      s.trace[a].life == s.trace[b].life
  }

  // ---------------------------------------------------------------- what lasts

  lemma OnTraceStays(s: State, step: Step, e: Entry)
    requires Enabled(s, step)
    ensures OnTrace(Apply(s, step), e) <==> OnTrace(s, e) || (step.Begin? && e == RowEntry(s.jobs[step.j].pc.r))
  {
    TraceGrows(s, step);
    var t := Apply(s, step).trace;
    hide Apply;
    if OnTrace(s, e) {
      var i :| 0 <= i < |s.trace| && s.trace[i].entry == e;
      assert t[i].entry == e;
    }
    if step.Begin? { assert t[|s.trace|].entry == RowEntry(s.jobs[step.j].pc.r); }
  }

  lemma RanBeforeGrows(s: State, step: Step, e: Entry)
    requires LifeOrdered(s) && Enabled(s, step) && RanBefore(Apply(s, step), e)
    ensures RanBefore(s, e) || (step.Crash? && OnTrace(s, e))
  {
    TraceGrows(s, step);
    LifeStays(s, step);
    var i :| 0 <= i < |Apply(s, step).trace| && Apply(s, step).trace[i].entry == e && Apply(s, step).trace[i].life < Apply(s, step).life;
    hide Apply;
    assert s.trace[i].entry == e;
  }

  lemma RankStays(s: State, step: Step, e: Entry)
    requires TablesInv(s) && Enabled(s, step) && e in s.history && PastReceived(s, e)
    ensures PastReceived(Apply(s, step), e)
  {
    NextTables(s, step);
    hide Apply, TablesOk;
  }

  /** The row of a command whose worker begins it is past 'received'. */
  lemma BegunIsMarked(s: State, j: nat)
    requires RecordsInv(s) && MarkedFirst(s) && j in s.jobs && s.jobs[j].pc.Acked?
    ensures PastReceived(DoBegin(s, j), RowEntry(s.jobs[j].pc.r))
  {
    assert JobRecord(s.jobs[j], s);
    hide RecordsInv;
  }

  lemma NextPastReceived(s: State, step: Step, e: Entry)
    requires Inv(s) && OneLifeInv(s) && Enabled(s, step) && OnTrace(Apply(s, step), e) && Lasting(e)
    ensures PastReceived(Apply(s, step), e)
  {
    OnTraceStays(s, step, e);
    assert TablesInv(s) && RecordsInv(s) && MarkedFirst(s);
    if OnTrace(s, e) {
      assert e in s.history && PastReceived(s, e);
      hide Inv, OneLifeInv, TablesInv, RecordsInv, MarkedFirst, PastReceived, Apply, Enabled, OnTrace;
      RankStays(s, step, e);
    } else {
      hide Inv, OneLifeInv, TablesInv, RecordsInv, MarkedFirst, PastReceived, OnTrace;
      BegunIsMarked(s, step.j);
    }
  }

  // ---------------------------------------------------------------- marked first

  lemma RecordIsMarked(s: State, step: Step, j: nat)
    requires MarkedFirst(s) && Enabled(s, step) && j in Apply(s, step).jobs && HasRecord(Apply(s, step).jobs[j].pc)
    ensures Rank(Apply(s, step).jobs[j].pc.r.status) >= 1
  {
    RecordComes(s, step, j);
    hide Apply, Enabled;
  }

  lemma EntersMarked(s: State, step: Step, j: nat)
    requires Enabled(s, step) && j in Apply(s, step).jobs && Apply(s, step).jobs[j].pc.Entered? && Mover(step) == Some(j)
    ensures IsMarked(Apply(s, step), Apply(s, step).jobs[j].key)
  {
    JournalSteps(s, step);
    hide MarkTerminal, SupersedingFence;
  }

  lemma MarkedByOther(s: State, step: Step, j: nat)
    requires FlightInv(s) && Enabled(s, step) && Mover(step).Some? && Mover(step) != Some(j) && j in s.jobs && IsMarked(s, s.jobs[j].key)
    ensures IsMarked(Apply(s, step), s.jobs[j].key)
  {
    WorkerTables(s, step);
    hide Apply, HasJob;
  }

  lemma MarkedByNone(s: State, step: Step, k: Key)
    requires Enabled(s, step) && Mover(step).None? && IsMarked(s, k)
    ensures IsMarked(Apply(s, step), k)
  {
    TablesChangeBy(s, step);
    hide Apply;
  }

  lemma EnteredIsMarked(s: State, step: Step, j: nat)
    requires FlightInv(s) && MarkedFirst(s) && Enabled(s, step)
    requires j in Apply(s, step).jobs && Apply(s, step).jobs[j].pc.Entered?
    ensures IsMarked(Apply(s, step), Apply(s, step).jobs[j].key)
  {
    if Mover(step) == Some(j) {
      EntersMarked(s, step, j);
    } else {
      OthersStay(s, step, j);
      assert IsMarked(s, s.jobs[j].key);
      hide Apply, Enabled, FlightInv, IsMarked, MarkedFirst;
      if Mover(step).Some? { MarkedByOther(s, step, j); } else { MarkedByNone(s, step, s.jobs[j].key); }
    }
  }

  lemma NextMarkedFirst(s: State, step: Step)
    requires FlightInv(s) && MarkedFirst(s) && Enabled(s, step)
    ensures MarkedFirst(Apply(s, step))
  {
    var t := Apply(s, step);
    hide FlightInv, Apply, Enabled, IsMarked;
    forall j | j in t.jobs && HasRecord(t.jobs[j].pc) ensures Rank(t.jobs[j].pc.r.status) >= 1 { RecordIsMarked(s, step, j); }
    forall j | j in t.jobs && t.jobs[j].pc.Entered? ensures IsMarked(t, t.jobs[j].key) { EnteredIsMarked(s, step, j); }
  }

  // ---------------------------------------------------------------- untouchable in later lifetimes

  lemma ReadsStay(s: State, step: Step, e: Entry)
    requires TablesInv(s) && Enabled(s, step) && Lasting(e) && PastReceived(Apply(s, step), e) && IsRow(Apply(s, step), e)
    requires NotSchedulable(s, EntryKey(e))
    ensures NotSchedulable(Apply(s, step), EntryKey(e))
  {
    var t := Apply(s, step);
    hide Apply, Enabled, TablesInv;
    forall r | r in t.seen && RowKey(r) == EntryKey(e) ensures !r.status.Received? && !Replayable(r.command.name) {
      if r !in s.seen { SeenIsRow(s, step, r); }
    }
  }

  lemma JobsAreScheduled(s: State, j: nat)
    requires FlightInv(s) && j in s.jobs
    ensures s.jobs[j].key in s.scheduled
  {
  }

  /** What becomes due is a row under an id that is scheduled, or has just been accepted. */
  lemma UntouchableStays(s: State, step: Step, e: Entry)
    requires Inv(s) && Enabled(s, step) && e in s.history && Lasting(e) && Untouchable(s, e) && PastReceived(Apply(s, step), e)
    ensures Untouchable(Apply(s, step), e)
  {
    var t := Apply(s, step);
    assert TablesInv(s) && FlightInv(s);
    if IsRow(t, e) {
      NoReturnOf(s, step, e);
      ReadsStay(s, step, e);
      OnlyScheduleAdds(s, step, EntryKey(e));
    }
    forall j ensures Due(t, j) != Some(e) { NotDueAgain(s, step, e, j); }
    hide Inv, TablesInv, FlightInv, Apply, Due, PastReceived;
  }

  lemma NotDueAgain(s: State, step: Step, e: Entry, j: nat)
    requires TablesInv(s) && FlightInv(s) && Enabled(s, step) && e in s.history && Untouchable(s, e)
    requires forall j | j in s.jobs && s.jobs[j].key in s.tables.rows :: RowKey(s.tables.rows[s.jobs[j].key]) == s.jobs[j].key
    ensures Due(Apply(s, step), j) != Some(e)
  {
    if Due(Apply(s, step), j) == Some(e) {
      NextDue(s, step, j, e);
      if step.Deliver? && step.e == e {
        PurgedIsStale(s.tables, s.history, e, step.now);
      } else {
        JobsAreScheduled(s, j);
      }
      hide Apply, Due, TablesInv, Accepts, FlightInv;
      assert false;
    }
  }

  lemma UntouchableAfterCrash(s: State, e: Entry)
    ensures Untouchable(DoCrash(s), e)
  {
  }

  lemma NextUntouchable(s: State, step: Step, e: Entry)
    requires Inv(s) && OneLifeInv(s) && Enabled(s, step) && Lasting(e) && RanBefore(Apply(s, step), e)
    ensures Untouchable(Apply(s, step), e)
  {
    assert LifeOrdered(s);
    RanBeforeGrows(s, step, e);
    if RanBefore(s, e) {
      assert Untouchable(s, e) && OnTrace(s, e) && e in s.history;
      OnTraceStays(s, step, e);
      hide Inv, OneLifeInv, Untouchable, PastReceived, Apply, Enabled, RanBefore, OnTrace;
      NextPastReceived(s, step, e);
      UntouchableStays(s, step, e);
    } else {
      UntouchableAfterCrash(s, e);
      hide Untouchable, Inv, OneLifeInv;
    }
  }

  lemma BeginsInOneLife(s: State, j: nat)
    requires OneLifeInv(s) && j in s.jobs && s.jobs[j].pc.Acked?
    ensures InOneLife(DoBegin(s, j))
  {
    var e := RowEntry(s.jobs[j].pc.r);
    BegunWasDue(s, j);
    if Lasting(e) {
      assert !RanBefore(s, e);
      forall i | 0 <= i < |s.trace| && s.trace[i].entry == e ensures s.trace[i].life == s.life { assert s.trace[i].life <= s.life; }
    }
    hide Due, Untouchable, PastReceived, MarkedFirst;
  }

  lemma NextInOneLife(s: State, step: Step)
    requires OneLifeInv(s) && Enabled(s, step)
    ensures InOneLife(Apply(s, step))
  {
    if step.Begin? {
      BeginsInOneLife(s, step.j);
    } else {
      TraceStays(s, step);
      hide Apply;
    }
  }

  lemma NextOrdered(s: State, step: Step)
    requires LifeOrdered(s) && Enabled(s, step)
    ensures LifeOrdered(Apply(s, step))
  {
    TraceGrows(s, step);
    LifeStays(s, step);
    hide Apply;
  }

  lemma NextOneLife(s: State, step: Step)
    requires Inv(s) && OneLifeInv(s) && Enabled(s, step)
    ensures OneLifeInv(Apply(s, step))
  {
    var t := Apply(s, step);
    assert FlightInv(s) && LifeOrdered(s) && MarkedFirst(s);
    hide Inv, FlightInv, LifeOrdered, MarkedFirst, InOneLife, OnTrace, RanBefore, Untouchable, PastReceived, OneLifeInv, Apply, Enabled;
    NextOrdered(s, step);
    NextMarkedFirst(s, step);
    NextInOneLife(s, step);
    forall e | OnTrace(t, e) && Lasting(e) ensures PastReceived(t, e) { NextPastReceived(s, step, e); }
    forall e | RanBefore(t, e) && Lasting(e) ensures Untouchable(t, e) { NextUntouchable(s, step, e); }
    OneLifeParts(t);
  }

  lemma OneLifeParts(s: State)
    requires LifeOrdered(s) && MarkedFirst(s) && InOneLife(s)
    requires (forall e | OnTrace(s, e) && Lasting(e) :: PastReceived(s, e)) && (forall e | RanBefore(s, e) && Lasting(e) :: Untouchable(s, e))
    ensures OneLifeInv(s)
  {
  }

  lemma {:induction false} RunKeepsOneLife(s: State, steps: seq<Step>, s': State)
    requires Inv(s) && OneLifeInv(s) && Leads(s, steps, s')
    ensures Inv(s') && OneLifeInv(s')
    decreases |steps|
  {
    hide Inv, OneLifeInv, Apply, Enabled;
    if steps != [] {
      NextInv(s, steps[0]);
      NextOneLife(s, steps[0]);
      RunKeepsOneLife(Apply(s, steps[0]), steps[1..], s');
    }
  }

  lemma ReachableOneLife(steps: seq<Step>, s: State)
    requires Leads(INITIAL, steps, s)
    ensures Inv(s) && OneLifeInv(s)
  {
    hide Leads;
    assert OneLifeInv(INITIAL);
    RunKeepsOneLife(INITIAL, steps, s);
  }

  /** No crash and no replay makes a non-replayable effect run in two process lifetimes, whatever the callers read. */
  lemma NonReplayableInOneLifetime(steps: seq<Step>, s: State)
    requires Leads(INITIAL, steps, s)
    ensures InOneLife(s)
  {
    hide Leads;
    ReachableOneLife(steps, s);
    hide InOneLife;
  }

  /** A Steam update runs at most once across any number of crashes and replays. */
  lemma NonReplayableAtMostOnce(steps: seq<Step>, s: State, a: nat, b: nat)
    requires Leads(INITIAL, steps, s) && AllFresh(INITIAL, steps)
    requires a < b < |s.trace| && !Replayable(s.trace[a].entry.command.name)
    ensures s.trace[a].entry != s.trace[b].entry
  {
    if s.trace[a].entry == s.trace[b].entry {
      AtMostOncePerLifetime(steps, s, a, b);
      NonReplayableInOneLifetime(steps, s);
    }
  }
}
