/** What the callers of the coordinator do, and the purge, are runs of the protocol when nobody else moves. */
module CallerRefinement {
  import opened Common
  import opened Journal
  import opened JournalStore
  import opened Protocol
  import opened ProtocolInvariant
  import opened Coordinator
  import opened CoordinatorRefinement

  /** No worker is there, and nothing is held. */
  predicate Resting(s: State) {
    s.jobs == map[] && s.scheduled == {} && s.locks == map[]
  }

  /** What the course of a caller leaves, seen from the state before it. */
  ghost predicate Called(s: State, s': State, x: Execution) {
    && Resting(s') && s'.tables == x.tables && s'.acks == s.acks + (set r | r in x.acks)
    && |x.effects| <= 1
    && s'.trace == s.trace + (if x.effects == [] then [] else [Effect(x.effects[0], s.life)])
    && s'.life == s.life
  }

  /** A record that was read is given to the pool, and its execution comes to its end. */
  lemma ScheduledRuns(s: State, r: Row, now: int, ackRaised: bool, o: Outcome) returns (steps: seq<Step>, s': State)
    requires Resting(s) && r in s.seen && RowKey(r) in s.tables.rows
    requires r.status.Received? || (r in s.idle && r.status.Executing? && Replayable(r.command.name))
    ensures Leads(s, steps, s') && Called(s, s', Course(s.tables, RowKey(r), now, ackRaised, o))
    ensures s'.history == s.history && RowKey(r) in s'.handled
  {
    var p, m := [Schedule(r, 0)], Apply(s, Schedule(r, 0));
    OneStep(s, Schedule(r, 0));
    LeadsThen(s, p, m, Submit(0, true));
    p, m := p + [Submit(0, true)], Apply(m, Submit(0, true));
    hide Leads, Course;
    var q;
    q, s' := ExecutionIsRun(m, 0, now, ackRaised, o);
    LeadsJoin(s, p, m, q, s');
    steps := p + q;
  }

  lemma CalledAfter(s: State, m: State, s': State, x: Execution, y: Execution, r: Row)
    requires m.trace == s.trace && m.acks == s.acks + {r} && m.life == s.life
    requires Called(m, s', y) && x == y.(acks := [r] + y.acks)
    ensures Called(s, s', x)
  {
    assert (set a | a in x.acks) == {r} + (set a | a in y.acks);
  }

  /** A stored row is acknowledged and, if it is still received, executed. */
  lemma RowIsRun(s: State, r: Row, now: int, emitRaised: bool, ackRaised: bool, o: Outcome) returns (steps: seq<Step>, s': State)
    requires Resting(s) && r in s.seen && RowKey(r) in s.tables.rows
    ensures Leads(s, steps, s') && Called(s, s', RowCourse(s.tables, r, now, emitRaised, ackRaised, o)) && s'.history == s.history
  {
    steps, s' := [Emit(r)], Apply(s, Emit(r));
    OneStep(s, Emit(r));
    hide Leads, Course;
    if !emitRaised && r.status.Received? {
      var q, n := ScheduledRuns(s', r, now, ackRaised, o);
      LeadsJoin(s, steps, s', q, n);
      var x := RowCourse(s.tables, r, now, emitRaised, ackRaised, o);
      CalledAfter(s, s', n, x, Course(s.tables, RowKey(r), now, ackRaised, o), r);
      steps, s' := steps + q, n;
    }
  }

  /** A delivery while nobody else moves. */
  lemma DeliveryIsRun(s: State, e: Entry, now: int, emitRaised: bool, ackRaised: bool, o: Outcome) returns (steps: seq<Step>, s': State)
    requires TablesInv(s) && Resting(s)
    ensures Leads(s, steps, s') && Called(s, s', DeliveryCourse(s.tables, e, now, emitRaised, ackRaised, o))
    ensures s'.history == if Accepts(s.tables, e) then s.history + {e} else s.history
  {
    var received := Journal.Receive(s.tables, e, now);
    steps, s' := [Deliver(e, now)], Apply(s, Deliver(e, now));
    OneStep(s, Deliver(e, now));
    ReceiveDuplicate(s.tables, s.history, e, now);
    if received.result.Ok? {
      ReceivedIsStored(s.tables, s.history, e, now);
      var r := received.result.value;
      hide Journal.Receive, Accepts, Leads, TablesInv, RowCourse;
      var q, n := RowIsRun(s', r, now, emitRaised, ackRaised, o);
      LeadsJoin(s, steps, s', q, n);
      steps, s' := steps + q, n;
    }
  }

  /** A caller gives an interrupted command up and acknowledges that. */
  lemma InterruptRuns(s: State, record: Row, now: int) returns (steps: seq<Step>, s': State)
    requires Resting(s) && record in s.idle && record.status.Executing? && !Replayable(record.command.name)
    ensures Leads(s, steps, s') && s'.history == s.history && RowKey(record) in s'.handled
    ensures Called(s, s', Closing([], [], MarkTerminal(s.tables, RowKey(record), Failed, INTERRUPTED, now)))
  {
    var t := MarkTerminal(s.tables, RowKey(record), Failed, INTERRUPTED, now);
    hide Leads, MarkTerminal;
    OneStep(s, Interrupt(record, now));
    steps, s' := [Interrupt(record, now)], Apply(s, Interrupt(record, now));
    if t.result.Ok? {
      LeadsThen(s, steps, s', Emit(t.result.value));
      steps, s' := steps + [Emit(t.result.value)], Apply(s', Emit(t.result.value));
    }
  }

  /** One record of a replay, read in this lifetime, while nobody else moves. */
  lemma ReplayIsRun(s: State, record: Row, now: int, emitRaised: bool, ackRaised: bool, o: Outcome) returns (steps: seq<Step>, s': State)
    requires TablesInv(s) && Resting(s) && record in s.seen && RowKey(record) in s.tables.rows
    ensures Leads(s, steps, s') && Called(s, s', ReplayCourse(s.tables, RowKey(record), record, now, emitRaised, ackRaised, o))
    ensures !emitRaised && record.status in {Received, Executing} ==> RowKey(record) in s'.handled
    ensures s'.history == s.history
  {
    var k := RowKey(record);
    var x := ReplayCourse(s.tables, k, record, now, emitRaised, ackRaised, o);
    steps := [LookUp(record)];
    var m := Apply(s, LookUp(record));
    OneStep(s, LookUp(record));
    hide Leads, TablesInv, TablesOk, Course, MarkTerminal;
    LeadsThen(s, steps, m, Emit(record));
    steps, m := steps + [Emit(record)], Apply(m, Emit(record));
    s' := m;
    hide Apply, Enabled;
    if emitRaised {
    } else if record.status.Received? || (record.status.Executing? && Replayable(record.command.name)) {
      var q, n := ScheduledRuns(m, record, now, ackRaised, o);
      LeadsJoin(s, steps, m, q, n);
      steps, s' := steps + q, n;
      CalledAfter(s, m, n, x, Course(s.tables, k, now, ackRaised, o), record);
    } else if record.status.Executing? {
      var q, n := InterruptRuns(m, record, now);
      LeadsJoin(s, steps, m, q, n);
      steps, s' := steps + q, n;
      CalledAfter(s, m, n, x, Closing([], [], MarkTerminal(s.tables, k, Failed, INTERRUPTED, now)), record);
    }
  }

  /** Clean takes only successes that the Hub has confirmed and that were not updated for a day. */
  lemma CleanTakesOnlyOld(s: State, keys: set<Key>, now: int)
    ensures Enabled(s, Clean(keys, now)) <==>
            forall k | k in keys ::
              k in s.tables.rows && s.tables.rows[k].status == Succeeded && s.tables.rows[k].confirmedRank >= 2
              && now - s.tables.rows[k].updatedAt >= 86400
  {
  }

  /** A purge that deletes is one step of the protocol: of the successes it may take, Clean may take all. */
  lemma PurgeIsClean(s: State, retentionDays: int, now: int, picked: seq<Key>)
    requires forall k | k in picked ::
               && k in s.tables.rows
               && IsOldSuccess(s.tables.rows[k], now - (if retentionDays < 1 then 1 else retentionDays) * 86400)
    ensures Enabled(s, Clean(Members(picked), now))
    ensures Apply(s, Clean(Members(picked), now)) == s.(tables := Purge(s.tables, Members(picked)))
  {
  }
}
