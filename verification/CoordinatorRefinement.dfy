/** An execution of the coordinator is a run of one worker of the protocol, when nobody else moves. */
module CoordinatorRefinement {
  import opened Common
  import opened Journal
  import opened Protocol
  import opened ProtocolSteps
  import opened ProtocolInvariant
  import opened ProtocolFlights
  import opened Coordinator

  /** The worker stands at pc. */
  ghost function With(s: State, j: nat, pc: Pc): State
    requires j in s.jobs
  {
    s.(jobs := s.jobs[j := Job(s.jobs[j].key, pc)])
  }

  /** Reading the record, taking the lock, looking for a higher fence. */
  lemma RunToCheck(s: State, j: nat) returns (steps: seq<Step>, s': State)
    requires j in s.jobs && s.jobs[j].pc.Queued? && s.jobs[j].key in s.tables.rows
    requires TargetKey(s.tables.rows[s.jobs[j].key].command.instance) !in s.locks
    ensures Leads(s, steps, s')
    ensures
      var r := s.tables.rows[s.jobs[j].key];
      var fence := SupersedingFence(s.tables, s.jobs[j].key);
      && fence.Ok?
      && s' == With(s, j, if fence.value.Some? then Superseded(r, fence.value.value) else Current(r)).(
           locks := s.locks[TargetKey(r.command.instance) := j])
  {
    steps := [Fetch(j)];
    s' := Apply(s, Fetch(j));
    assert Leads(s', [], s');
    LeadsThen(s, steps, s', Lock(j));
    steps, s' := steps + [Lock(j)], Apply(s', Lock(j));
    LeadsThen(s, steps, s', Check(j));
    steps, s' := steps + [Check(j)], Apply(s', Check(j));
    assert s'.jobs == s.jobs[j := s'.jobs[j]];
  }

  /** The row to acknowledge after a call, unless it raised. */
  function Answer(r: Result<Row, Refusal>): Option<Row> { if r.Ok? then Some(r.value) else None }

  /** What a call of mark_terminal leaves its worker with. */
  lemma TerminalCall(s: State, j: nat, status: Status, o: Outcome, now: int)
    requires j in s.jobs && HasRow(s.jobs[j].pc) && Terminal(status) && s.jobs[j].key in s.tables.rows
    ensures
      var t := MarkTerminal(s.tables, s.jobs[j].key, status, o, now);
      var m := DoTerminal(s, j, status, o, now);
      && j in m.jobs && m == With(s, j, m.jobs[j].pc).(tables := t.tables) && s.jobs[j].key in t.tables.rows
      && if m.jobs[j].pc.Closed? then t.result == Ok(t.tables.rows[s.jobs[j].key])
         else m.jobs[j].pc.Settled? && m.jobs[j].pc.ack == Answer(t.result)
  {
  }

  lemma RereadClosed(s: State, j: nat)
    requires j in s.jobs && s.jobs[j].pc.Closed? && s.jobs[j].key in s.tables.rows
    ensures
      Enabled(s, Reread(j)) && Apply(s, Reread(j)) == With(s, j, Settled(s.jobs[j].pc.r, Some(s.tables.rows[s.jobs[j].key])))
  {
    JournalSteps(s, Reread(j));
    hide Apply;
  }

  /** From a call of mark_terminal to its end, whether it wrote, found the row terminal, or raised. */
  lemma RunTerminal(s: State, j: nat, status: Status, o: Outcome, now: int, step: Step) returns (steps: seq<Step>, s': State)
    requires j in s.jobs && HasRow(s.jobs[j].pc) && Terminal(status) && s.jobs[j].key in s.tables.rows
    requires Enabled(s, step) && Apply(s, step) == DoTerminal(s, j, status, o, now)
    ensures Leads(s, steps, s')
    ensures j in s'.jobs && s'.jobs[j].pc.Settled?
    ensures
      && s'.jobs[j].pc.ack == Answer(MarkTerminal(s.tables, s.jobs[j].key, status, o, now).result)
      && s' == With(s, j, s'.jobs[j].pc).(tables := MarkTerminal(s.tables, s.jobs[j].key, status, o, now).tables)
  {
    hide Apply, Enabled, MarkTerminal, DoTerminal;
    TerminalCall(s, j, status, o, now);
    steps := [step];
    s' := Apply(s, step);
    assert Leads(s', [], s');
    assert Leads(s, steps, s');
    hide Leads;
    if s'.jobs[j].pc.Closed? {
      RereadClosed(s', j);
      LeadsThen(s, steps, s', Reread(j));
      steps, s' := steps + [Reread(j)], Apply(s', Reread(j));
    }
    assert s'.jobs == s.jobs[j := s'.jobs[j]];
  }

  /** mark_executing and the re-read after it; a terminal row is returned as it is. */
  lemma RunToMarked(s: State, j: nat, now: int) returns (steps: seq<Step>, s': State)
    requires j in s.jobs && s.jobs[j].pc.Current? && s.jobs[j].key in s.tables.rows
    ensures Leads(s, steps, s')
    ensures
      var t := MarkExecuting(s.tables, s.jobs[j].key, now).tables;
      && s.jobs[j].key in t.rows && t.rows[s.jobs[j].key].command == s.tables.rows[s.jobs[j].key].command
      && t.rows[s.jobs[j].key].hub == s.tables.rows[s.jobs[j].key].hub
      && s' == With(s, j, Marked(t.rows[s.jobs[j].key])).(tables := t)
  {
    steps := [Enter(j, now)];
    s' := Apply(s, Enter(j, now));
    assert Leads(s', [], s');
    assert Leads(s, steps, s');
    if s'.jobs[j].pc.Entered? {
      LeadsThen(s, steps, s', Reread(j));
      steps, s' := steps + [Reread(j)], Apply(s', Reread(j));
    }
    assert s'.jobs == s.jobs[j := s'.jobs[j]];
  }

  /** The 'executing' acknowledgement raises. */
  lemma RunRaised(s: State, j: nat) returns (steps: seq<Step>, s': State)
    requires j in s.jobs && s.jobs[j].pc.Marked?
    ensures Leads(s, steps, s')
    ensures s' == With(s, j, Settled(s.jobs[j].pc.r, None)).(acks := s.acks + {s.jobs[j].pc.r})
  {
    steps := [AckExecuting(j, true)];
    s' := Apply(s, AckExecuting(j, true));
    assert Leads(s', [], s');
  }

  /** The effect ends with o. */
  lemma RunEffect(s: State, j: nat, o: Outcome) returns (steps: seq<Step>, s': State)
    requires j in s.jobs && s.jobs[j].pc.Marked?
    ensures Leads(s, steps, s')
    ensures s' == With(s, j, Ran(s.jobs[j].pc.r, o)).(acks := s.acks + {s.jobs[j].pc.r},
                    trace := s.trace + [Effect(RowEntry(s.jobs[j].pc.r), s.life)])
  {
    var p, m := FlyToRunning(s, j);
    s' := Apply(m, End(j, o));
    LeadsThen(s, p, m, End(j, o));
    steps := p + [End(j, o)];
    assert s'.jobs == s.jobs[j := s'.jobs[j]];
  }

  /** Release, and leave the scheduled set. */
  lemma RunHome(s: State, j: nat) returns (steps: seq<Step>, s': State)
    requires j in s.jobs && s.jobs[j].pc.Settled?
    ensures Leads(s, steps, s')
    ensures s' == s.(jobs := s.jobs - {j}, scheduled := s.scheduled - {s.jobs[j].key},
                     locks := map target | target in s.locks && s.locks[target] != j :: s.locks[target],
                     acks := s.acks + (if s.jobs[j].pc.ack.Some? then {s.jobs[j].pc.ack.value} else {}))
  {
    steps := [Release(j)];
    s' := Apply(s, Release(j));
    assert Leads(s', [], s');
    LeadsThen(s, steps, s', Discard(j));
    steps, s' := steps + [Discard(j)], Apply(s', Discard(j));
    assert s'.jobs == s.jobs - {j};
  }

  /** What the course of an execution leaves, seen from the state before it. */
  ghost predicate Executed(s: State, s': State, j: nat, x: Execution)
    requires j in s.jobs
  {
    && s'.tables == x.tables
    && s'.jobs == s.jobs - {j} && s'.scheduled == s.scheduled - {s.jobs[j].key} && s'.locks == s.locks
    && |x.effects| <= 1
    && s'.trace == s.trace + (if x.effects == [] then [] else [Effect(x.effects[0], s.life)])
    && s'.acks == s.acks + (set r | r in x.acks)
    && s'.history == s.history && s'.seen == s.seen && s'.handled == s.handled && s'.life == s.life
  }

  /** The middle of an execution, with the lock held. */
  ghost predicate Midway(s: State, m: State, j: nat, x: Execution)
    requires j in s.jobs
  {
    && j in m.jobs && m.jobs[j].key == s.jobs[j].key && m.jobs[j].pc.Settled?
    && m == s.(jobs := s.jobs[j := m.jobs[j]], tables := x.tables, acks := m.acks,
               trace := s.trace + (if x.effects == [] then [] else [Effect(x.effects[0], s.life)]))
    && |x.effects| <= 1
    && m.acks + (if m.jobs[j].pc.ack.Some? then {m.jobs[j].pc.ack.value} else {}) == s.acks + (set r | r in x.acks)
  }

  lemma RunSuperseded(s: State, j: nat, now: int, ackRaised: bool, o: Outcome) returns (steps: seq<Step>, s': State)
    requires j in s.jobs && s.jobs[j].pc.Superseded? && s.jobs[j].key in s.tables.rows
    requires SupersedingFence(s.tables, s.jobs[j].key) == Ok(Some(s.jobs[j].pc.above))
    ensures Leads(s, steps, s') && Midway(s, s', j, Course(s.tables, s.jobs[j].key, now, ackRaised, o))
  {
    steps, s' := RunTerminal(s, j, Failed, StaleOutcome(s.jobs[j].pc.above), now, MarkStale(j, now));
  }

  lemma RunCurrentRaised(s: State, j: nat, now: int, o: Outcome) returns (steps: seq<Step>, s': State)
    requires j in s.jobs && s.jobs[j].pc.Current? && s.jobs[j].key in s.tables.rows
    requires SupersedingFence(s.tables, s.jobs[j].key) == Ok(None)
    ensures Leads(s, steps, s') && Midway(s, s', j, Course(s.tables, s.jobs[j].key, now, true, o))
  {
    var p, m := RunToMarked(s, j, now);
    EnterGives(s.tables, s.jobs[j].key, now);
    hide Leads, Enabled, MarkTerminal, MarkExecuting, Apply;
    var q, n := RunRaised(m, j);
    LeadsJoin(s, p, m, q, n);
    steps, s' := p + q, n;
    assert s'.jobs == s.jobs[j := s'.jobs[j]];
  }

  lemma RunCurrentEffect(s: State, j: nat, now: int, o: Outcome) returns (steps: seq<Step>, s': State)
    requires j in s.jobs && s.jobs[j].pc.Current? && s.jobs[j].key in s.tables.rows
    requires SupersedingFence(s.tables, s.jobs[j].key) == Ok(None)
    ensures Leads(s, steps, s') && Midway(s, s', j, Course(s.tables, s.jobs[j].key, now, false, o))
  {
    var p, m := RunToMarked(s, j, now);
    EnterGives(s.tables, s.jobs[j].key, now);
    hide Leads, Enabled, MarkTerminal, MarkExecuting, Apply;
    var q, n := RunEffect(m, j, o);
    LeadsJoin(s, p, m, q, n);
    FinishIsTerminal(n, j, now);
    var t, u := RunTerminal(n, j, FinalStatus(o), o, now, Finish(j, now));
    LeadsJoin(s, p + q, n, t, u);
    steps, s' := p + q + t, u;
    EffectMidway(s, m, n, u, j, now, o);
  }

  lemma EnterGives(t: Tables, k: Key, now: int)
    requires k in t.rows
    ensures
      var entered := MarkExecuting(t, k, now);
      && k in entered.tables.rows && entered.result == Ok(entered.tables.rows[k])
      && RowEntry(entered.result.value) == RowEntry(t.rows[k])
  {
  }

  lemma EffectMidway(s: State, m: State, n: State, u: State, j: nat, now: int, o: Outcome)
    requires j in s.jobs && s.jobs[j].key in s.tables.rows && SupersedingFence(s.tables, s.jobs[j].key) == Ok(None)
    requires
      var k := s.jobs[j].key;
      var entered := MarkExecuting(s.tables, k, now);
      var t := MarkTerminal(entered.tables, k, FinalStatus(o), o, now);
      && entered.result.Ok? && RowEntry(entered.result.value) == RowEntry(s.tables.rows[k])
      && m == With(s, j, Marked(entered.result.value)).(tables := entered.tables)
      && n == With(m, j, Ran(entered.result.value, o)).(acks := m.acks + {entered.result.value},
                     trace := m.trace + [Effect(RowEntry(entered.result.value), m.life)])
      && j in u.jobs && u.jobs[j].pc.Settled? && u.jobs[j].pc.ack == Answer(t.result)
      && u == With(n, j, u.jobs[j].pc).(tables := t.tables)
    ensures Midway(s, u, j, Course(s.tables, s.jobs[j].key, now, false, o))
  {
    hide MarkTerminal, MarkExecuting, SupersedingFence;
    assert u.jobs == s.jobs[j := u.jobs[j]];
  }

  lemma FinishIsTerminal(s: State, j: nat, now: int)
    requires j in s.jobs && s.jobs[j].pc.Ran?
    ensures Enabled(s, Finish(j, now))
    ensures Apply(s, Finish(j, now)) == DoTerminal(s, j, FinalStatus(s.jobs[j].pc.outcome), s.jobs[j].pc.outcome, now)
  {
  }

  /** From the pool to the end, a worker alone does what the coordinator's execution does. */
  lemma ExecutionIsRun(s: State, j: nat, now: int, ackRaised: bool, o: Outcome) returns (steps: seq<Step>, s': State)
    requires j in s.jobs && s.jobs[j].pc.Queued? && s.jobs[j].key in s.tables.rows
    requires TargetKey(s.tables.rows[s.jobs[j].key].command.instance) !in s.locks
    requires forall target | target in s.locks :: s.locks[target] != j
    ensures Leads(s, steps, s') && Executed(s, s', j, Course(s.tables, s.jobs[j].key, now, ackRaised, o))
    ensures TablesInv(s) && s.tables.rows[s.jobs[j].key].status in {Received, Executing} && s'.trace != s.trace ==>
              && s.jobs[j].key in s'.tables.rows
              && s'.tables.rows[s.jobs[j].key].outcome == Some(o)
              && s'.tables.rows[s.jobs[j].key].status == if 200 <= o.statusCode && o.statusCode < 300 then Succeeded else Failed
  {
    var p, m := RunToCheck(s, j);
    if TablesInv(s) && s.tables.rows[s.jobs[j].key].status in {Received, Executing} {
      CourseStores(s.tables, s.history, s.jobs[j].key, now, ackRaised, o);
    }
    hide TablesInv, Leads, Enabled, Apply, Course, SupersedingFence, Midway, Executed;
    var q, n;
    if m.jobs[j].pc.Superseded? {
      q, n := RunSuperseded(m, j, now, ackRaised, o);
    } else if ackRaised {
      q, n := RunCurrentRaised(m, j, now, o);
    } else {
      q, n := RunCurrentEffect(m, j, now, o);
    }
    LeadsJoin(s, p, m, q, n);
    var x := Course(s.tables, s.jobs[j].key, now, ackRaised, o);
    MidwayStands(m, n, j, x);
    var t, u := RunHome(n, j);
    LeadsJoin(s, p + q, n, t, u);
    steps, s' := p + q + t, u;
    Landed(s, m, n, u, j, x);
    TraceSays(s, s', j, x);
  }

  lemma TraceSays(s: State, s': State, j: nat, x: Execution)
    requires j in s.jobs && Executed(s, s', j, x)
    ensures s'.tables == x.tables && (s'.trace != s.trace ==> x.effects != [])
  {
  }

  lemma MidwayStands(m: State, n: State, j: nat, x: Execution)
    requires j in m.jobs && Midway(m, n, j, x)
    ensures j in n.jobs && n.jobs[j].pc.Settled?
  {
  }

  lemma Landed(s: State, m: State, n: State, u: State, j: nat, x: Execution)
    requires j in s.jobs && j in m.jobs && Midway(m, n, j, x)
    requires m == With(s, j, m.jobs[j].pc).(locks := m.locks)
    requires forall target | target in s.locks :: s.locks[target] != j
    requires exists target :: target !in s.locks && m.locks == s.locks[target := j]
    requires u == n.(jobs := n.jobs - {j}, scheduled := n.scheduled - {n.jobs[j].key},
                     locks := map target | target in n.locks && n.locks[target] != j :: n.locks[target],
                     acks := n.acks + (if n.jobs[j].pc.ack.Some? then {n.jobs[j].pc.ack.value} else {}))
    ensures Executed(s, u, j, x)
  {
    assert u.jobs == s.jobs - {j};
    assert u.locks == s.locks;
  }
}
