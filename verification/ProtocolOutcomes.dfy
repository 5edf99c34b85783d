/** Where the stored outcomes come from, and which of them are successes. */
module ProtocolOutcomes {
  import opened Common
  import opened Journal
  import opened Protocol
  import opened ProtocolSteps

  /** The outcomes of the effects that end during the run, with the ids of their workers. */
  ghost function Endings(s: State, steps: seq<Step>): set<(Key, Outcome)>
    decreases |steps|
  {
    if steps == [] || !Enabled(s, steps[0]) then {}
    else
      var step := steps[0];
      (if step.End? then {(s.jobs[step.j].key, step.outcome)} else {}) + Endings(Apply(s, step), steps[1..])
  }

  /** The two outcomes the agent makes up itself: a superseded command and an interrupted one. */
  predicate MadeUp(o: Outcome) {
    || (o.statusCode == 409 && o.errorCode == Some("stale_fence"))
    || (o.statusCode == 500 && o.errorCode == Some("execution_interrupted"))
  }

  /**
    An unfinished row has no outcome. A success is one by the status code of an effect that ended; a failure has such an
    outcome with any other code, or a made-up one.
   */
  ghost predicate Told(k: Key, row: Row, ended: set<(Key, Outcome)>) {
    match row.outcome
    case None => row.status in {Received, Executing}
    case Some(o) =>
      && row.status == (if 200 <= o.statusCode && o.statusCode < 300 then Succeeded else Failed)
      && ((k, o) in ended || MadeUp(o))
  }

  ghost predicate AllTold(s: State, ended: set<(Key, Outcome)>) {
    && (forall k | k in s.tables.rows :: Told(k, s.tables.rows[k], ended))
    && (forall j | j in s.jobs && s.jobs[j].pc.Ran? :: (s.jobs[j].key, s.jobs[j].pc.outcome) in ended)
  }

  lemma MarkTells(t: Tables, k: Key, o: Outcome, now: int, ended: set<(Key, Outcome)>)
    requires forall i | i in t.rows :: Told(i, t.rows[i], ended)
    requires (k, o) in ended || MadeUp(o)
    ensures forall i | i in MarkTerminal(t, k, FinalStatus(o), o, now).tables.rows ::
              Told(i, MarkTerminal(t, k, FinalStatus(o), o, now).tables.rows[i], ended)
  {
  }

  lemma WorkerTells(s: State, step: Step, ended: set<(Key, Outcome)>)
    requires AllTold(s, ended) && Enabled(s, step) && Mover(step).Some?
    ensures forall k | k in Apply(s, step).tables.rows :: Told(k, Apply(s, step).tables.rows[k], ended)
  {
    WorkerTables(s, step);
    hide Apply, MarkTerminal;
    if step.MarkStale? {
      MarkTells(s.tables, s.jobs[step.j].key, StaleOutcome(s.jobs[step.j].pc.above), step.now, ended);
    } else if step.Finish? {
      MarkTells(s.tables, s.jobs[step.j].key, s.jobs[step.j].pc.outcome, step.now, ended);
    }
  }

  lemma OtherTells(s: State, step: Step, ended: set<(Key, Outcome)>)
    requires AllTold(s, ended) && Enabled(s, step) && Mover(step).None?
    ensures forall k | k in Apply(s, step).tables.rows :: Told(k, Apply(s, step).tables.rows[k], ended)
  {
    TablesChangeBy(s, step);
    hide Apply, MarkTerminal;
    if step.Interrupt? { MarkTells(s.tables, RowKey(step.r), INTERRUPTED, step.now, ended); }
  }

  lemma RanTells(s: State, step: Step, j: nat)
    requires Enabled(s, step) && j in Apply(s, step).jobs && Apply(s, step).jobs[j].pc.Ran?
    ensures j in s.jobs && Apply(s, step).jobs[j].key == s.jobs[j].key
    ensures s.jobs[j].pc == Apply(s, step).jobs[j].pc || (step.End? && step.j == j && step.outcome == Apply(s, step).jobs[j].pc.outcome)
  {
    OthersStay(s, step, j);
  }

  lemma NextTells(s: State, step: Step, ended: set<(Key, Outcome)>)
    requires AllTold(s, ended) && Enabled(s, step)
    ensures AllTold(Apply(s, step), ended + if step.End? then {(s.jobs[step.j].key, step.outcome)} else {})
  {
    if Mover(step).Some? { WorkerTells(s, step, ended); } else { OtherTells(s, step, ended); }
    forall j | j in Apply(s, step).jobs && Apply(s, step).jobs[j].pc.Ran?
      ensures (Apply(s, step).jobs[j].key, Apply(s, step).jobs[j].pc.outcome)
              in ended + if step.End? then {(s.jobs[step.j].key, step.outcome)} else {}
    {
      RanTells(s, step, j);
    }
    hide Apply, Enabled;
  }

  lemma {:induction false} RunTells(s: State, steps: seq<Step>, s': State, ended: set<(Key, Outcome)>)
    requires AllTold(s, ended) && Leads(s, steps, s')
    ensures AllTold(s', ended + Endings(s, steps))
    decreases |steps|
  {
    if steps != [] {
      NextTells(s, steps[0], ended);
      hide AllTold, Apply, Enabled;
      var one := if steps[0].End? then {(s.jobs[steps[0].j].key, steps[0].outcome)} else {};
      RunTells(Apply(s, steps[0]), steps[1..], s', ended + one);
      assert ended + Endings(s, steps) == ended + one + Endings(Apply(s, steps[0]), steps[1..]);
    } else {
      assert ended + Endings(s, steps) == ended;
    }
  }

  /**
    In every run a stored command has succeeded exactly when its outcome has a status code from 200 to 299, and every
    stored outcome is that of an effect which ended in the run under this id, or one of the two made up.
   */
  lemma SucceededExactlyWhen(steps: seq<Step>, s: State, k: Key)
    requires Leads(INITIAL, steps, s) && k in s.tables.rows
    ensures
      var row := s.tables.rows[k];
      && (row.outcome.Some? <==> row.status !in {Received, Executing})
      && (row.outcome.Some? ==>
            && (row.status == Succeeded <==> 200 <= row.outcome.value.statusCode && row.outcome.value.statusCode < 300)
            && ((k, row.outcome.value) in Endings(INITIAL, steps) || (row.status == Failed && MadeUp(row.outcome.value))))
  {
    RunTells(INITIAL, steps, s, {});
    assert Told(k, s.tables.rows[k], {} + Endings(INITIAL, steps));
  }

  /** The worker whose effect has ended with o stores it in its open row; a finished row stays as it is. */
  lemma FinishStores(s: State, j: nat, now: int)
    requires j in s.jobs && s.jobs[j].pc.Ran? && s.jobs[j].key in s.tables.rows
    ensures
      var k, o := s.jobs[j].key, s.jobs[j].pc.outcome;
      var row := s.tables.rows[k];
      && Enabled(s, Finish(j, now))
      && Apply(s, Finish(j, now)).tables.rows ==
           s.tables.rows[k :=
             if row.status !in {Received, Executing} then row
             else row.(status := if 200 <= o.statusCode && o.statusCode < 300 then Succeeded else Failed,
                       outcome := Some(o), updatedAt := now)]
  {
  }
}
