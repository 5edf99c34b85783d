/**
  DurableCommandCoordinator as an object, over a pool that runs each job at once on the calling thread (Protocol.dfy
  has the pool with any number of workers). Emitting an acknowledgement may raise; the effect's outcome is arbitrary.
 */
module Coordinator {
  import opened Common
  import opened Journal
  import opened JournalStore
  import opened Protocol

  /**
    What one execution leaves: the tables, the effect it ran if any, the acknowledgements emitted, and whether it raised to
    its caller.
   */
  datatype Execution = Execution(tables: Tables, effects: seq<Entry>, acks: seq<Row>, raised: bool)

  /** What a call of mark_terminal and its acknowledgement add to the acknowledgements before. */
  function Closing(effects: seq<Entry>, acks: seq<Row>, r: Receipt): Execution {
    Execution(r.tables, effects, acks + (if r.result.Ok? then [r.result.value] else []), r.result.Err?)
  }

  /** The course of an execution, given whether the 'executing' acknowledgement raised and what the effect gave. */
  function Course(t: Tables, k: Key, now: int, ackRaised: bool, o: Outcome): Execution {
    match SupersedingFence(t, k)
    case Err(_) => Execution(t, [], [], true)
    case Ok(Some(fence)) => Closing([], [], MarkTerminal(t, k, Failed, StaleOutcome(fence), now))
    case Ok(None) =>
      var entered := MarkExecuting(t, k, now);
      if entered.result.Err? then Execution(t, [], [], true)
      else if ackRaised then Execution(entered.tables, [], [entered.result.value], true)
      else Closing([RowEntry(t.rows[k])], [entered.result.value], MarkTerminal(entered.tables, k, FinalStatus(o), o, now))
  }

  /** A stored row is acknowledged; if it is still received and the acknowledgement did not raise, it is executed. */
  function RowCourse(t: Tables, row: Row, now: int, emitRaised: bool, ackRaised: bool, o: Outcome): Execution {
    if emitRaised || !row.status.Received? then Execution(t, [], [row], emitRaised)
    else
      var x := Course(t, RowKey(row), now, ackRaised, o);
      x.(acks := [row] + x.acks)
  }

  /** The course of a delivery: a refused one changes nothing; any other is journalled and acknowledged with its stored row. */
  ghost function DeliveryCourse(t: Tables, e: Entry, now: int, emitRaised: bool, ackRaised: bool, o: Outcome): Execution {
    var received := Journal.Receive(t, e, now);
    match received.result
    case Err(_) => Execution(t, [], [], false)
    case Ok(row) => RowCourse(received.tables, row, now, emitRaised, ackRaised, o)
  }

  ghost predicate OthersUntouched(t: Tables, t': Tables, k: Key) {
    t'.rows.Keys == t.rows.Keys && forall i | i in t.rows && i != k :: t'.rows[i] == t.rows[i]
  }

  lemma TerminalTouchesOne(t: Tables, history: set<Entry>, k: Key, status: Status, o: Outcome, now: int)
    requires TablesOk(t, history) && k in t.rows && Terminal(status)
    ensures
      var r := MarkTerminal(t, k, status, o, now);
      && TablesOk(r.tables, history) && Later(t, r.tables) && OthersUntouched(t, r.tables, k)
      && r.tables.fences == t.fences
      && Terminal(r.tables.rows[k].status)
      && (Incomplete(t.rows[k]) ==> r.result.Ok? && r.tables.rows[k].status == status)
  {
    MarkTerminalKeeps(t, history, k, status, o, now);
  }

  lemma EnterTouchesOne(t: Tables, history: set<Entry>, k: Key, now: int)
    requires TablesOk(t, history) && k in t.rows
    ensures
      var r := MarkExecuting(t, k, now);
      && TablesOk(r.tables, history) && Later(t, r.tables) && OthersUntouched(t, r.tables, k)
      && r.tables.fences == t.fences
      && (Incomplete(t.rows[k]) ==> Incomplete(r.tables.rows[k]))
  {
    hide FencesIdentify, UniqueIdempotencyKeys;
    TransitionKeeps(t, history, k, Executing, now);
  }

  lemma TouchesOneTwice(t: Tables, u: Tables, v: Tables, k: Key)
    requires Later(t, u) && Later(u, v) && OthersUntouched(t, u, k) && OthersUntouched(u, v, k)
    ensures Later(t, v) && OthersUntouched(t, v, k)
  {
  }

  /** What every execution does, whatever the effect gives and whether or not the acknowledgement raises. */
  ghost predicate GoodCourse(t: Tables, history: set<Entry>, k: Key, x: Execution)
    requires k in t.rows && RowSlot(t.rows[k]) in t.fences
  {
    var row := t.rows[k];
    && TablesOk(x.tables, history) && Later(t, x.tables) && OthersUntouched(t, x.tables, k) && x.tables.fences == t.fences
    && (Incomplete(row) && !x.raised ==> Terminal(x.tables.rows[k].status))
    && (x.effects != [] ==> x.effects == [RowEntry(row)] && t.fences[RowSlot(row)] == row.command.fence)
    && (Incomplete(row) && x.effects == [] && !x.raised ==>
          t.fences[RowSlot(row)] > row.command.fence && x.tables.rows[k].status == Failed)
  }

  /**
    An open command that does not meet a raising acknowledgement ends, and runs exactly when it holds the last fence
    of its slot; otherwise it fails as superseded.
   */
  lemma CourseEnds(t: Tables, history: set<Entry>, k: Key, now: int, ackRaised: bool, o: Outcome)
    requires TablesOk(t, history) && k in t.rows
    ensures RowSlot(t.rows[k]) in t.fences && GoodCourse(t, history, k, Course(t, k, now, ackRaised, o))
  {
    assert RowOk(k, t.rows[k], history) && Remembered(RowEntry(t.rows[k]), t);
    hide TablesOk, Later, OthersUntouched, MarkTerminal, MarkExecuting;
    if t.fences[RowSlot(t.rows[k])] > t.rows[k].command.fence {
      TerminalTouchesOne(t, history, k, Failed, StaleOutcome(t.fences[RowSlot(t.rows[k])]), now);
    } else {
      var u := MarkExecuting(t, k, now).tables;
      EnterTouchesOne(t, history, k, now);
      EnterIsOk(t, k, now);
      TerminalTouchesOne(u, history, k, FinalStatus(o), o, now);
      TouchesOneTwice(t, u, MarkTerminal(u, k, FinalStatus(o), o, now).tables, k);
      hide FinalStatus, Incomplete;
    }
  }

  lemma EnterIsOk(t: Tables, k: Key, now: int)
    requires k in t.rows
    ensures MarkExecuting(t, k, now).result.Ok? && k in MarkExecuting(t, k, now).tables.rows
  {
  }

  /** The outcomes that count as success. */
  predicate IsSuccess(o: Outcome) { 200 <= o.statusCode && o.statusCode < 300 }

  /**
    What an execution stores for an open command, and which acknowledgements it emits: it raises exactly when the
    'executing' acknowledgement did. A command that ran ends as a success or a failure by its status code and with its
    outcome, a superseded one as a failure with status 409, and the record of each stage is acknowledged.
   */
  lemma CourseStores(t: Tables, history: set<Entry>, k: Key, now: int, ackRaised: bool, o: Outcome)
    requires TablesOk(t, history) && k in t.rows && t.rows[k].status in {Received, Executing}
    ensures
      var x := Course(t, k, now, ackRaised, o);
      var row := t.rows[k];
      var executing := row.(status := Executing, updatedAt := now);
      && RowSlot(row) in t.fences && k in x.tables.rows
      && (x.raised <==> ackRaised && t.fences[RowSlot(row)] == row.command.fence)
      && (x.raised ==> x.effects == [] && x.acks == [executing] && x.tables.rows[k] == executing)
      && (x.effects != [] ==>
            && x.tables.rows[k] == row.(status := if IsSuccess(o) then Succeeded else Failed, outcome := Some(o), updatedAt := now)
            && x.acks == [executing, x.tables.rows[k]])
      && (!x.raised && x.effects == [] ==>
            && x.tables.rows[k].status == Failed && x.tables.rows[k].outcome.Some? && x.tables.rows[k].outcome.value.statusCode == 409
            && x.tables.rows[k].outcome.value.errorCode == Some("stale_fence") && x.acks == [x.tables.rows[k]])
  {
    assert RowOk(k, t.rows[k], history) && Remembered(RowEntry(t.rows[k]), t);
    hide TablesOk;
  }

  // ---------------------------------------------------------------- what a replay does

  /**
    The course of one record of a replay: it is acknowledged, and then a received or interrupted command is executed, an
    interrupted one that must not be repeated is given up, and any other is left alone.
   */
  function ReplayCourse(t: Tables, k: Key, record: Row, now: int, emitRaised: bool, ackRaised: bool, o: Outcome): Execution {
    if emitRaised then Execution(t, [], [record], true)
    else if record.status.Received? || (record.status.Executing? && Replayable(record.command.name)) then
      var x := Course(t, k, now, ackRaised, o);
      x.(acks := [record] + x.acks)
    else if record.status.Executing? then Closing([], [record], MarkTerminal(t, k, Failed, INTERRUPTED, now))
    else Execution(t, [], [record], false)
  }

  /** An incomplete non-replayable command that was already executing has been interrupted. */
  predicate Interrupted(row: Row) {
    row.status == Executing && (row.command.name == "steam_update" || row.command.name == "update_steam")
  }

  /** An effect a replay of `t` may run: an incomplete, not interrupted command holding the last fence of its slot. */
  ghost predicate MayRun(t: Tables, e: Entry) {
    && EntryKey(e) in t.rows && RowEntry(t.rows[EntryKey(e)]) == e
    && Incomplete(t.rows[EntryKey(e)]) && !Interrupted(t.rows[EntryKey(e)])
    && EntrySlot(e) in t.fences && t.fences[EntrySlot(e)] == e.command.fence
  }

  predicate Ended(row: Row, row': Row) {
    && Terminal(row'.status)
    && (Interrupted(row) ==> row'.status == Failed && row'.outcome == Some(INTERRUPTED))
  }

  /** The effects run so far: allowed ones, of records already treated, none twice. */
  ghost predicate EffectsSoFar(t: Tables, done: set<Key>, run: seq<Entry>) {
    && (forall i | 0 <= i < |run| :: MayRun(t, run[i]) && EntryKey(run[i]) in done)
    && (forall i, j | 0 <= i < j < |run| :: run[i] != run[j])
  }

  /** `u` is `t` with the incomplete commands among `done` ended, and nothing else changed. */
  ghost predicate Treated(t: Tables, u: Tables, done: set<Key>)
    requires done <= t.rows.Keys
  {
    && u.fences == t.fences && u.rows.Keys == t.rows.Keys
    && (forall k | k in t.rows && !(k in done && Incomplete(t.rows[k])) :: u.rows[k] == t.rows[k])
    && (forall k | k in done && Incomplete(t.rows[k]) :: Ended(t.rows[k], u.rows[k]))
  }

  lemma TreatOne(t: Tables, u: Tables, v: Tables, done: set<Key>, k: Key)
    requires done <= t.rows.Keys && Treated(t, u, done) && k in t.rows && k !in done
    requires OthersUntouched(u, v, k) && v.fences == u.fences && Ended(t.rows[k], v.rows[k]) && Incomplete(t.rows[k])
    ensures Treated(t, v, done + {k})
  {
  }

  lemma RunOne(t: Tables, done: set<Key>, run: seq<Entry>, k: Key, e: Entry)
    requires EffectsSoFar(t, done, run) && k !in done && MayRun(t, e) && EntryKey(e) == k
    ensures EffectsSoFar(t, done + {k}, run + [e])
  {
  }

  lemma CourseTreats(t: Tables, history: set<Entry>, u: Tables, done: set<Key>, run: seq<Entry>, k: Key,
                     now: int, ackRaised: bool, o: Outcome)
    requires done <= t.rows.Keys && Treated(t, u, done) && EffectsSoFar(t, done, run)
    requires TablesOk(u, history) && k in t.rows && k !in done
    requires Incomplete(t.rows[k]) && !Interrupted(t.rows[k])
    ensures
      var x := Course(u, k, now, ackRaised, o);
      && EffectsSoFar(t, done + {k}, run + x.effects)
      && (!x.raised ==> Treated(t, x.tables, done + {k}))
  {
    CourseEnds(u, history, k, now, ackRaised, o);
    hide Course, TablesOk, Later;
    var x := Course(u, k, now, ackRaised, o);
    assert u.rows[k] == t.rows[k];
    assert RowKey(u.rows[k]) == k by { StoredUnderItsKey(u, history, k); }
    if x.effects == [] {
      MoreDone(t, done, k, run);
      assert run + x.effects == run;
    } else {
      RunOne(t, done, run, k, RowEntry(t.rows[k]));
    }
    if !x.raised { TreatOne(t, u, x.tables, done, k); }
  }

  lemma CourseTreatsAll(t: Tables, history: set<Entry>, u: Tables, done: set<Key>, run: seq<Entry>, k: Key, now: int)
    requires done <= t.rows.Keys && Treated(t, u, done) && EffectsSoFar(t, done, run)
    requires TablesOk(u, history) && k in t.rows && k !in done
    requires Incomplete(t.rows[k]) && !Interrupted(t.rows[k])
    ensures forall ackRaised, o ::
      var x := Course(u, k, now, ackRaised, o);
      && EffectsSoFar(t, done + {k}, run + x.effects)
      && (!x.raised ==> Treated(t, x.tables, done + {k}))
  {
    forall ackRaised, o
      ensures
        var x := Course(u, k, now, ackRaised, o);
        && EffectsSoFar(t, done + {k}, run + x.effects)
        && (!x.raised ==> Treated(t, x.tables, done + {k}))
    {
      CourseTreats(t, history, u, done, run, k, now, ackRaised, o);
    }
  }

  lemma StoredUnderItsKey(t: Tables, history: set<Entry>, k: Key)
    requires TablesOk(t, history) && k in t.rows
    ensures RowKey(t.rows[k]) == k
  {
    assert RowOk(k, t.rows[k], history);
  }

  lemma InterruptEnds(u: Tables, history: set<Entry>, k: Key, now: int)
    requires TablesOk(u, history) && k in u.rows && Interrupted(u.rows[k])
    ensures
      var v := MarkTerminal(u, k, Failed, INTERRUPTED, now);
      && v.result.Ok? && OthersUntouched(u, v.tables, k) && v.tables.fences == u.fences
      && Ended(u.rows[k], v.tables.rows[k])
  {
    hide TablesOk;
  }

  lemma InterruptTreats(t: Tables, history: set<Entry>, u: Tables, done: set<Key>, k: Key, now: int)
    requires done <= t.rows.Keys && Treated(t, u, done)
    requires TablesOk(u, history) && k in t.rows && k !in done && Interrupted(t.rows[k])
    ensures MarkTerminal(u, k, Failed, INTERRUPTED, now).result.Ok?
    ensures Treated(t, MarkTerminal(u, k, Failed, INTERRUPTED, now).tables, done + {k})
  {
    hide MarkTerminal, TablesOk, Ended, OthersUntouched;
    assert u.rows[k] == t.rows[k];
    InterruptEnds(u, history, k, now);
    hide Treated;
    TreatOne(t, u, MarkTerminal(u, k, Failed, INTERRUPTED, now).tables, done, k);
  }

  lemma SkipTreats(t: Tables, u: Tables, done: set<Key>, k: Key)
    requires done <= t.rows.Keys && Treated(t, u, done) && k in t.rows && !Incomplete(t.rows[k])
    ensures Treated(t, u, done + {k})
  {
  }

  lemma StartTreated(t: Tables)
    ensures Treated(t, t, {}) && EffectsSoFar(t, {}, [])
  {
  }

  lemma MoreDone(t: Tables, done: set<Key>, k: Key, run: seq<Entry>)
    requires EffectsSoFar(t, done, run)
    ensures EffectsSoFar(t, done + {k}, run)
  {
  }

  /** A replay for the hub takes the row: it is open, or its last state is not confirmed. */
  predicate IsOwed(row: Row, k: Key, hub: string) {
    k.hub == hub && (row.status == Received || row.status == Executing || row.confirmedRank < 2)
  }

  ghost function OwedKeys(rows: map<Key, Row>, hub: string): set<Key> {
    set k | k in rows && IsOwed(rows[k], k, hub)
  }

  lemma AllOwed(rows: map<Key, Row>, hub: string, done: set<Key>)
    requires forall k | k in done :: k in rows && IsOwed(rows[k], k, hub)
    requires forall k | k in rows && IsOwed(rows[k], k, hub) :: k in done
    ensures done == OwedKeys(rows, hub)
  {
    hide IsOwed;
  }

  lemma {:induction false} DistinctMembers(records: seq<Key>)
    requires forall i, j | 0 <= i < j < |records| :: records[i] != records[j]
    ensures |Members(records)| == |records|
    decreases |records|
  {
    if records != [] {
      var n := |records| - 1;
      MembersThrough(records, n);
      assert records[..n + 1] == records;
      DistinctMembers(records[..n]);
    }
  }

  /** Neither of the two queries of a replay reaches its limit. */
  ghost predicate WithinLimit(rows: map<Key, Row>, hub: string, limit: int) {
    var most := if limit < 1 then 1 else if limit > 2000 then 2000 else limit;
    && |set k | k in rows && k.hub == hub && rows[k].confirmedRank < Rank(rows[k].status)| <= most
    && |set k | k in rows && k.hub == hub && rows[k].status in {Received, Executing}| <= most
  }

  /** The rows of these commands, as they were, are among the acknowledgements. */
  ghost predicate Emitted(rows: map<Key, Row>, done: set<Key>, acks: seq<Row>) {
    forall k | k in done :: k in rows && rows[k] in acks
  }

  lemma NothingEmitted(rows: map<Key, Row>)
    ensures forall acks :: Emitted(rows, {}, acks)
  {
  }

  lemma EmittedMore(rows: map<Key, Row>, done: set<Key>, k: Key, start: seq<Row>, before: seq<Row>, after: seq<Row>)
    requires start <= before && k in rows && before + [rows[k]] <= after && Emitted(rows, done, before[|start|..])
    ensures start <= after && Emitted(rows, done + {k}, after[|start|..])
  {
    var a, b := before[|start|..], after[|start|..];
    assert b[..|a| + 1] == a + [rows[k]];
    forall r | r in a + [rows[k]] ensures r in b {
      var i :| 0 <= i < |a| + 1 && (a + [rows[k]])[i] == r;
      assert b[i] == r;
    }
  }

  class DurableCommandCoordinator {
    const journal: AgentCommandJournal
    var scheduledCommands: set<Key>
    var heldTargets: set<string>
    ghost var effects: seq<Entry>
    ghost var acks: seq<Row>

    ghost predicate Valid()
      reads this, journal
    {
      journal.Valid()
    }

    /** Between two calls no job is in flight. */
    ghost predicate Idle()
      reads this
    {
      scheduledCommands == {} && heldTargets == {}
    }

    constructor (journal: AgentCommandJournal)
      requires journal.Valid()
      ensures this.journal == journal && Valid() && Idle() && effects == [] && acks == []
    {
      this.journal := journal;
      scheduledCommands, heldTargets, effects, acks := {}, {}, [], [];
    }

    method EmitAck(row: Row) returns (raised: bool)
      modifies this`acks
      ensures acks == old(acks) + [row]
    {
      acks := acks + [row];
      raised := *;
    }

    method AfterTerminal() returns (raised: bool) {
      raised := *;
    }

    /** execute_command: some response; an exception becomes a 500. */
    method RunEffect(row: Row) returns (o: Outcome)
      modifies this`effects
      ensures effects == old(effects) + [RowEntry(row)]
    {
      effects := effects + [RowEntry(row)];
      o := *;
    }

    /** Runs the command of one job under the lock of its target. */
    method Execute(k: Key, now: int) returns (raised: bool, ghost ackRaised: bool, ghost o: Outcome)
      requires Valid() && heldTargets == {}
      modifies this`scheduledCommands, this`heldTargets, this`effects, this`acks, journal`rows
      ensures Valid() && heldTargets == {} && scheduledCommands == old(scheduledCommands) - {k}
      ensures var x := Course(old(journal.Now()), k, now, ackRaised, o);
              journal.Now() == x.tables && effects == old(effects) + x.effects && acks == old(acks) + x.acks && raised == x.raised
      ensures k in old(journal.rows) && old(journal.rows)[k].status in {Received, Executing} && !raised && |effects| > |old(effects)| ==>
                && k in journal.rows && journal.rows[k].outcome == Some(o)
                && journal.rows[k].status == if 200 <= o.statusCode && o.statusCode < 300 then Succeeded else Failed
    {
      ackRaised, o := false, INTERRUPTED;
      var got := journal.Get(k);
      if got.Err? {
        scheduledCommands := scheduledCommands - {k};
        return true, ackRaised, o;
      }
      ghost var t, history := journal.Now(), journal.history;
      var target := TargetKey(got.value.command.instance);
      heldTargets := heldTargets + {target};
      raised, ackRaised, o := ExecuteLocked(k, now);
      if t.rows[k].status in {Received, Executing} { CourseStores(t, history, k, now, ackRaised, o); }
      hide Course, TablesOk;
      heldTargets := heldTargets - {target};
      scheduledCommands := scheduledCommands - {k};
    }

    method ExecuteLocked(k: Key, now: int) returns (raised: bool, ghost ackRaised: bool, ghost o: Outcome)
      requires Valid() && k in journal.rows
      modifies this`effects, this`acks, journal`rows
      ensures Valid()
      ensures var x := Course(old(journal.Now()), k, now, ackRaised, o);
              journal.Now() == x.tables && effects == old(effects) + x.effects && acks == old(acks) + x.acks && raised == x.raised
    {
      ackRaised, o := false, INTERRUPTED;
      hide TablesOk;
      TransitionKeeps(old(journal.Now()), journal.history, k, Executing, now);
      var superseding := journal.SupersedingFence(k);
      if superseding.value.Some? {
        var failed := journal.MarkTerminal(k, Failed, StaleOutcome(superseding.value.value), now);
        if failed.Err? { return true, ackRaised, o; }
        raised := EmitAck(failed.value);
        if !raised { raised := AfterTerminal(); }
        return false, ackRaised, o;
      }
      var entered := journal.MarkExecuting(k, now);
      var record := entered.value;
      assert RowEntry(record) == RowEntry(old(journal.rows[k]));
      raised := EmitAck(record);
      if raised { return true, true, o; }
      var outcome := RunEffect(record);
      o := outcome;
      var finished := journal.MarkTerminal(k, FinalStatus(outcome), outcome, now);
      if finished.Err? { return true, ackRaised, o; }
      raised := EmitAck(finished.value);
      if !raised { raised := AfterTerminal(); }
      raised := false;
    }

    method Schedule(k: Key, now: int) returns (raised: bool, ghost ackRaised: bool, ghost o: Outcome)
      requires Valid() && Idle()
      modifies this`scheduledCommands, this`heldTargets, this`effects, this`acks, journal`rows
      ensures Valid() && Idle()
      ensures var x := Course(old(journal.Now()), k, now, ackRaised, o);
              journal.Now() == x.tables && effects == old(effects) + x.effects && acks == old(acks) + x.acks && raised == x.raised
    {
      scheduledCommands := scheduledCommands + {k};
      raised, ackRaised, o := Execute(k, now);
    }

    /**
      A delivery: a refused one changes nothing; any other is journalled and its stored row acknowledged. Then a command
      that is still received is executed, unless the acknowledgement raised.
     */
    method Receive(hub: string, m: Message, now: int)
        returns (r: Result<Row, Refusal>, raised: bool, ghost emitRaised: bool, ghost ackRaised: bool, ghost o: Outcome)
      requires Valid() && Idle()
      modifies this`scheduledCommands, this`heldTargets, this`effects, this`acks, journal
      ensures Valid() && Idle()
      ensures r.Err? ==> journal.Now() == old(journal.Now()) && effects == old(effects) && acks == old(acks) && !raised
      ensures Normalize(hub, m).Ok? ==>
                var x := DeliveryCourse(old(journal.Now()), Normalize(hub, m).value, now, emitRaised, ackRaised, o);
                && r == Journal.Receive(old(journal.Now()), Normalize(hub, m).value, now).result
                && journal.Now() == x.tables && effects == old(effects) + x.effects && raised == x.raised
                && acks == old(acks) + x.acks
                && (r.Ok? ==> old(acks) + [r.value] <= acks)
    {
      raised, emitRaised, ackRaised, o := false, false, false, INTERRUPTED;
      var created;
      r, created := journal.Receive(hub, m, now);
      hide Normalize, Journal.Receive, Accepts, TablesOk;
      if r.Err? { return; }
      raised, emitRaised, ackRaised, o := AcknowledgeAndSchedule(r.value, now);
    }

    method AcknowledgeAndSchedule(row: Row, now: int)
        returns (raised: bool, ghost emitRaised: bool, ghost ackRaised: bool, ghost o: Outcome)
      requires Valid() && Idle()
      modifies this`scheduledCommands, this`heldTargets, this`effects, this`acks, journal`rows
      ensures Valid() && Idle() && old(acks) + [row] <= acks
      ensures var x := RowCourse(old(journal.Now()), row, now, emitRaised, ackRaised, o);
              journal.Now() == x.tables && effects == old(effects) + x.effects && acks == old(acks) + x.acks && raised == x.raised
    {
      hide TablesOk, Course;
      ackRaised, o := false, INTERRUPTED;
      raised := EmitAck(row);
      emitRaised := raised;
      if raised { return; }
      if row.status.Received? {
        raised, ackRaised, o := Schedule(RowKey(row), now);
      }
    }

    /** The records of both queries, each command once, unconfirmed ones first. */
    method Records(hub: string, limit: int) returns (records: seq<Key>)
      ensures forall i | 0 <= i < |records| :: records[i] in journal.rows && IsOwed(journal.rows[records[i]], records[i], hub)
      ensures forall i, j | 0 <= i < j < |records| :: records[i] != records[j]
      ensures WithinLimit(journal.rows, hub, limit) ==>
                forall k | k in journal.rows && IsOwed(journal.rows[k], k, hub) :: k in records
    {
      records := journal.PendingAcknowledgements(hub, limit);
      var incomplete := journal.IncompleteCommands(hub, limit);
      ghost var first := records;
      assert forall j, l | 0 <= j < l < |records| :: records[j] != records[l];
      hide OldestFirst;
      var i := 0;
      while i < |incomplete|
        invariant 0 <= i <= |incomplete| && first <= records
        invariant forall j | 0 <= j < |records| :: records[j] in first || records[j] in incomplete
        invariant forall j, l | 0 <= j < l < |records| :: records[j] != records[l]
        invariant forall j | 0 <= j < i :: incomplete[j] in records
      {
        if incomplete[i] !in records { records := records + [incomplete[i]]; }
        i := i + 1;
      }
      assert forall k | k in first :: k in records;
      assert forall k | k in incomplete :: k in records;
    }

    /** One record of the replay loop; `done` are the records treated before it. */
    method ReplayRecord(k: Key, record: Row, now: int, ghost t: Tables, ghost done: set<Key>, ghost run: seq<Entry>)
        returns (raised: bool, ghost more: seq<Entry>, ghost emitRaised: bool, ghost ackRaised: bool, ghost o: Outcome)
      requires Valid() && Idle()
      requires k in t.rows && record == t.rows[k] && k !in done && done <= t.rows.Keys
      requires Treated(t, journal.Now(), done) && EffectsSoFar(t, done, run)
      modifies this`scheduledCommands, this`heldTargets, this`effects, this`acks, journal`rows
      ensures Valid() && Idle() && effects == old(effects) + more && old(acks) + [record] <= acks
      ensures var x := ReplayCourse(old(journal.Now()), k, record, now, emitRaised, ackRaised, o);
              && journal.Now() == x.tables && more == x.effects && acks == old(acks) + x.acks && (x.raised ==> raised)
      ensures EffectsSoFar(t, done + {k}, run + more)
      ensures !raised ==> Treated(t, journal.Now(), done + {k})
    {
      hide TablesOk, Treated, EffectsSoFar, MarkTerminal, Course;
      more, emitRaised, ackRaised, o := [], false, false, INTERRUPTED;
      assert run + more == run;
      MoreDone(t, done, k, run);
      ghost var u, history := journal.Now(), journal.history;
      var scheduled := k in scheduledCommands;
      if !scheduled || record.confirmedRank < Rank(record.status) {
        raised := EmitAck(record);
        emitRaised := raised;
        if raised { return; }
      }
      if record.status.Received? && !scheduled {
        CourseTreatsAll(t, history, u, done, run, k, now);
        raised, ackRaised, o := Schedule(k, now);
        more := Course(u, k, now, ackRaised, o).effects;
      } else if record.status.Executing? && !scheduled {
        if !Replayable(record.command.name) {
          InterruptTreats(t, history, u, done, k, now);
          var failed := journal.MarkTerminal(k, Failed, INTERRUPTED, now);
          raised := EmitAck(failed.value);
          if raised { return; }
          raised := AfterTerminal();
        } else {
          CourseTreatsAll(t, history, u, done, run, k, now);
          raised, ackRaised, o := Schedule(k, now);
          more := Course(u, k, now, ackRaised, o).effects;
        }
      } else {
        SkipTreats(t, u, done, k);
      }
    }

    /**
      Replay after a restart. If nothing raises and the query limit is not reached, every incomplete command of the
      hub has ended, the interrupted non-replayable ones as failed without running; whatever raises, only commands
      holding the last fence of their slot have run, none of them twice.
     */
    method ReplayPending(hub: string, limit: int, now: int)
        returns (count: nat, raised: bool, ghost done: set<Key>, ghost run: seq<Entry>)
      requires Valid() && Idle()
      modifies this`scheduledCommands, this`heldTargets, this`effects, this`acks, journal`rows
      ensures Valid() && Idle()
      ensures effects == old(effects) + run && EffectsSoFar(old(journal.Now()), done, run)
      ensures old(acks) <= acks
      ensures forall k | k in done :: k in old(journal.rows) && IsOwed(old(journal.rows)[k], k, hub)
      ensures Emitted(old(journal.rows), done, acks[|old(acks)|..])
      ensures !raised ==> Treated(old(journal.Now()), journal.Now(), done) && count == |done|
      ensures !raised && WithinLimit(old(journal.rows), hub, limit) ==>
                && (forall k | k in old(journal.rows) && IsOwed(old(journal.rows)[k], k, hub) :: k in done)
                && count == |OwedKeys(old(journal.rows), hub)|
    {
      hide TablesOk, Treated, EffectsSoFar, Emitted, IsOwed, OwedKeys, WithinLimit;
      StartTreated(journal.Now());
      NothingEmitted(journal.rows);
      var records := Records(hub, limit);
      var snapshot := journal.rows;
      count, raised := |records|, false;
      ghost var t := journal.Now();
      done, run := {}, [];
      var i := 0;
      while i < |records|
        invariant 0 <= i <= |records| && !raised
        invariant Valid() && Idle() && effects == old(effects) + run
        invariant done == Members(records[..i]) && done <= t.rows.Keys
        invariant old(acks) <= acks && Emitted(t.rows, done, acks[|old(acks)|..])
        invariant Treated(t, journal.Now(), done)
        invariant EffectsSoFar(t, done, run)
      {
        MembersThrough(records, i);
        ghost var more;
        ghost var before := acks;
        ghost var emitRaised, ackRaised, o;
        raised, more, emitRaised, ackRaised, o := ReplayRecord(records[i], snapshot[records[i]], now, t, done, run);
        EmittedMore(t.rows, done, records[i], old(acks), before, acks);
        done, run := done + {records[i]}, run + more;
        if raised { return; }
        i := i + 1;
      }
      assert records[..i] == records;
      DistinctMembers(records);
      if WithinLimit(t.rows, hub, limit) { AllOwed(t.rows, hub, done); }
    }
  }
}
