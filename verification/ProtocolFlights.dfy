/** The stretches of a worker's way that runs are put together from. */
module ProtocolFlights {
  import opened Common
  import opened Journal
  import opened Protocol
  import opened ProtocolSteps
  import opened ProtocolInvariant
  import opened ProtocolProgress
  import opened ProtocolReads

  /** `r` was read as received, its command has no job, its target is free and nothing newer has arrived for it. */
  ghost predicate CanFly(s: State, r: Row, j: nat) {
    && r in s.seen && r.status.Received? && j !in s.jobs
    && RowKey(r) !in s.scheduled && TargetKey(r.command.instance) !in s.locks
    && RowKey(r) in s.tables.rows
    && !Outdated(s, RowSlot(r), r.command.fence)
  }

  /** From scheduling to the worker's first read. */
  lemma FlyToFetched(s: State, r: Row, j: nat) returns (steps: seq<Step>, s': State)
    requires CanFly(s, r, j)
    ensures OneFlight(steps, r)
    ensures Leads(s, steps, s')
    ensures s' == s.(
      scheduled := s.scheduled + {RowKey(r)}, handled := s.handled + {RowKey(r)},
      jobs := s.jobs[j := Job(RowKey(r), Fetched(s.tables.rows[RowKey(r)]))])
  {
    steps := [Schedule(r, j)];
    s' := Apply(s, Schedule(r, j));
    assert Leads(s', [], s');
    LeadsThen(s, steps, s', Submit(j, true));
    steps, s' := steps + [Submit(j, true)], Apply(s', Submit(j, true));
    LeadsThen(s, steps, s', Fetch(j));
    steps, s' := steps + [Fetch(j)], Apply(s', Fetch(j));
    assert s'.jobs == s.jobs[j := Job(RowKey(r), Fetched(s.tables.rows[RowKey(r)]))];
  }

  /** Through the target lock and the fence check. */
  lemma FlyToCurrent(s: State, j: nat) returns (steps: seq<Step>, s': State)
    requires j in s.jobs && s.jobs[j].pc.Fetched? && LockTarget(s.jobs[j].pc) !in s.locks
    requires SupersedingFence(s.tables, s.jobs[j].key) == Ok(None)
    ensures Working(steps)
    ensures Leads(s, steps, s')
    ensures s' == s.(jobs := s.jobs[j := Job(s.jobs[j].key, Current(s.jobs[j].pc.r))],
                     locks := s.locks[LockTarget(s.jobs[j].pc) := j])
  {
    steps := [Lock(j)];
    s' := Apply(s, Lock(j));
    assert Leads(s', [], s');
    LeadsThen(s, steps, s', Check(j));
    steps, s' := steps + [Check(j)], Apply(s', Check(j));
    assert s'.jobs == s.jobs[j := Job(s.jobs[j].key, Current(s.jobs[j].pc.r))];
  }

  /** From the 'executing' acknowledgement to the effect. */
  lemma FlyToRunning(s: State, j: nat) returns (steps: seq<Step>, s': State)
    requires j in s.jobs && s.jobs[j].pc.Marked?
    ensures Working(steps)
    ensures Leads(s, steps, s')
    ensures s' == s.(
      jobs := s.jobs[j := Job(s.jobs[j].key, Running(s.jobs[j].pc.r))], acks := s.acks + {s.jobs[j].pc.r},
      trace := s.trace + [Effect(RowEntry(s.jobs[j].pc.r), s.life)])
  {
    steps := [AckExecuting(j, false)];
    s' := Apply(s, AckExecuting(j, false));
    assert Leads(s', [], s');
    LeadsThen(s, steps, s', Begin(j));
    steps, s' := steps + [Begin(j)], Apply(s', Begin(j));
    assert s'.jobs == s.jobs[j := Job(s.jobs[j].key, Running(s.jobs[j].pc.r))];
  }

  /** mark_executing on an open row, and the re-read after it. */
  lemma FlyToMarked(s: State, j: nat, now: int) returns (steps: seq<Step>, s': State)
    requires j in s.jobs && s.jobs[j].pc.Current? && Open(s, s.jobs[j].key)
    ensures Working(steps)
    ensures Leads(s, steps, s')
    ensures
      var k := s.jobs[j].key;
      var row := s.tables.rows[k].(status := Executing, updatedAt := now);
      s' == s.(jobs := s.jobs[j := Job(k, Marked(row))], tables := s.tables.(rows := s.tables.rows[k := row]))
  {
    steps := [Enter(j, now)];
    s' := Apply(s, Enter(j, now));
    assert Leads(s', [], s');
    LeadsThen(s, steps, s', Reread(j));
    steps, s' := steps + [Reread(j)], Apply(s', Reread(j));
    var k := s.jobs[j].key;
    assert s'.jobs == s.jobs[j := Job(k, Marked(s.tables.rows[k].(status := Executing, updatedAt := now)))];
  }

  const DONE := Outcome("{}", 200, None)

  /** A successful effect is recorded. */
  lemma FlyToSettled(s: State, j: nat, now: int) returns (steps: seq<Step>, s': State)
    requires j in s.jobs && s.jobs[j].pc.Running? && Open(s, s.jobs[j].key)
    ensures Working(steps)
    ensures Leads(s, steps, s')
    ensures
      var k := s.jobs[j].key;
      var row := s.tables.rows[k].(status := Succeeded, outcome := Some(DONE), updatedAt := now);
      s' == s.(jobs := s.jobs[j := Job(k, Settled(s.jobs[j].pc.r, Some(row)))], tables := s.tables.(rows := s.tables.rows[k := row]))
  {
    var k := s.jobs[j].key;
    steps := [End(j, DONE)];
    s' := Apply(s, End(j, DONE));
    assert Leads(s', [], s');
    LeadsThen(s, steps, s', Finish(j, now));
    steps, s' := steps + [Finish(j, now)], Apply(s', Finish(j, now));
    assert s'.jobs[j] == Job(k, Closed(s.jobs[j].pc.r));
    LeadsThen(s, steps, s', Reread(j));
    steps, s' := steps + [Reread(j)], Apply(s', Reread(j));
    assert s'.jobs == s.jobs[j := Job(k, Settled(s.jobs[j].pc.r, Some(s'.tables.rows[k])))];
  }

  /** The worker acknowledges, releases its lock and leaves. */
  lemma FlyHome(s: State, j: nat) returns (steps: seq<Step>, s': State)
    requires j in s.jobs && s.jobs[j].pc.Settled? && s.jobs[j].pc.ack.Some?
    ensures Working(steps)
    ensures Leads(s, steps, s')
    ensures s' == s.(jobs := s.jobs - {j}, scheduled := s.scheduled - {s.jobs[j].key},
                     locks := map target | target in s.locks && s.locks[target] != j :: s.locks[target],
                     acks := s.acks + {s.jobs[j].pc.ack.value})
  {
    steps := [Release(j)];
    s' := Apply(s, Release(j));
    assert Leads(s', [], s');
    LeadsThen(s, steps, s', Discard(j));
    steps, s' := steps + [Discard(j)], Apply(s', Discard(j));
    assert s'.jobs == s.jobs - {j};
  }

  /** What a flight leaves as it was, so that the same record can fly again. */
  ghost predicate Again(s: State, s': State, r: Row) {
    && s'.seen == s.seen && s'.scheduled == s.scheduled && s'.jobs == s.jobs && s'.locks == s.locks
    && s'.tables.fences == s.tables.fences && s'.life == s.life
    && s'.trace == s.trace + [Effect(RowEntry(r), s.life)]
    && s'.history == s.history && s'.tables.rows.Keys == s.tables.rows.Keys
    && Finished(s', RowKey(r))
    && s'.tables.rows[RowKey(r)].status == Succeeded && RowEntry(s'.tables.rows[RowKey(r)]) == RowEntry(r)
  }

  /** `s'` is `s` with the command's worker `j` in the middle of a first effect. */
  ghost predicate Airborne(s: State, s': State, r: Row, j: nat) {
    && s'.seen == s.seen && s'.tables.fences == s.tables.fences && s'.life == s.life
    && j !in s.jobs && RowKey(r) !in s.scheduled && TargetKey(r.command.instance) !in s.locks
    && s'.scheduled == s.scheduled + {RowKey(r)}
    && s'.locks == s.locks[TargetKey(r.command.instance) := j]
    && j in s'.jobs && s'.jobs[j].key == RowKey(r) && s'.jobs[j].pc.Running?
    && RowEntry(s'.jobs[j].pc.r) == RowEntry(r)
    && s'.history == s.history && s'.tables.rows.Keys == s.tables.rows.Keys
    && s'.jobs == s.jobs[j := s'.jobs[j]]
    && s'.trace == s.trace + [Effect(RowEntry(r), s.life)]
    && Open(s', RowKey(r)) && RowEntry(s'.tables.rows[RowKey(r)]) == RowEntry(r)
  }

  lemma TakeOff(s: State, r: Row, j: nat, now: int) returns (steps: seq<Step>, s': State)
    requires CanFly(s, r, j) && StillThere(r, s) && Open(s, RowKey(r))
    ensures OneFlight(steps, r)
    ensures Leads(s, steps, s') && Airborne(s, s', r, j)
  {
    hide Leads, Apply, Enabled;
    var p, m := FlyToFetched(s, r, j);
    var q, n := FlyToCurrent(m, j);
    LeadsJoin(s, p, m, q, n);
    var o, w := FlyToMarked(n, j, now);
    LeadsJoin(s, p + q, n, o, w);
    var t, x := FlyToRunning(w, j);
    LeadsJoin(s, p + q + o, w, t, x);
    steps, s' := p + q + o + t, x;
    assert s'.jobs == s.jobs[j := s'.jobs[j]];
  }

  lemma Land(s: State, s': State, r: Row, j: nat, now: int) returns (steps: seq<Step>, s'': State)
    requires Airborne(s, s', r, j)
    requires forall target | target in s.locks :: s.locks[target] in s.jobs
    ensures Working(steps)
    ensures Leads(s', steps, s'') && Again(s, s'', r)
  {
    hide Leads, Apply, Enabled;
    var p, m := FlyToSettled(s', j, now);
    var q, n := FlyHome(m, j);
    LeadsJoin(s', p, m, q, n);
    steps, s'' := p + q, n;
    assert s''.scheduled == s.scheduled;
    assert s''.jobs == s.jobs;
    assert s''.locks == s.locks;
  }

  /** An open command read as received is scheduled, run and finished, and the system is ready for the next one. */
  lemma WholeFlight(s: State, r: Row, j: nat, now: int) returns (steps: seq<Step>, s': State)
    requires CanFly(s, r, j) && StillThere(r, s) && LocksHeld(s) && Open(s, RowKey(r))
    ensures OneFlight(steps, r)
    ensures Leads(s, steps, s') && Again(s, s', r)
  {
    hide Leads, Apply, Enabled;
    var p, m := TakeOff(s, r, j, now);
    var q, n := Land(s, m, r, j, now);
    LeadsJoin(s, p, m, q, n);
    steps, s' := p + q, n;
  }
}
