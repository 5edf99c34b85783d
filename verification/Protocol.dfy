/**
  The durable command protocol as a transition system.

  Any number of callers (message handlers and replays), any number of workers, the Hub's confirmations, the purge
  and crashes interleave. A step is one journal transaction, one operation on the scheduled set or on a target
  lock, or one end of an effect; nothing larger is atomic. A caller's decision to schedule is taken on a record it
  read at some earlier moment of the same process lifetime, so the record may be out of date: the callers are kept
  as the set of records read in this lifetime, on each of which any caller may still act.

  Some components only record what happened: history, acks, trace, interrupted, handled and life. No guard
  reads them.

  The Hub may use the id of a purged command again for another one. The theorems that need more say so.
 */
module Protocol {
  import opened Common
  import opened Journal

  /** Where a worker stands. `r` is the record it works on. */
  datatype Pc =
    | Submitting                            // key added to the scheduled set, not yet given to the pool
    | Queued                                // in the pool
    | Fetched(r: Row)                       // journal.get returned; waits for the target lock
    | Locked(r: Row)                        // holds the target lock
    | Superseded(r: Row, above: int)          // a higher fence was found
    | Current(r: Row)                       // no higher fence was found
    | Entered(r: Row)                       // mark_executing has written; the row is about to be re-read
    | Marked(r: Row)                        // mark_executing has returned `r`
    | Acked(r: Row)                         // the 'executing' acknowledgement is out
    | Running(r: Row)                       // the effect has begun
    | Ran(r: Row, outcome: Outcome)         // the effect has ended
    | Closed(r: Row)                        // mark_terminal has written; the row is about to be re-read
    | Settled(r: Row, ack: Option<Row>)     // about to acknowledge (unless something raised) and release the lock
    | Unwinding                             // lock released (or never taken); about to leave the scheduled set

  datatype Job = Job(key: Key, pc: Pc)

  datatype Effect = Effect(entry: Entry, life: nat)

  datatype State = State(
    tables: Tables,
    scheduled: set<Key>,
    jobs: map<nat, Job>,
    locks: map<string, nat>,
    seen: set<Row>,
    idle: set<Row>,
    history: set<Entry>,
    acks: set<Row>,
    trace: seq<Effect>,
    interrupted: set<Entry>,
    handled: set<Key>,
    life: nat)

  const INITIAL := State(EMPTY, {}, map[], map[], {}, {}, {}, {}, [], {}, {}, 0)

  datatype Step =
    | Deliver(e: Entry, now: int)                    // journal.receive
    | Read(k: Key)                                   // one row returned by a query or by get
    | Emit(r: Row)                                   // a caller acknowledges the record it read
    | LookUp(r: Row)                                 // is_scheduled
    | Schedule(r: Row, j: nat)                       // test-and-add on the scheduled set
    | Submit(j: nat, accepted: bool)                 // executor.submit, which may raise
    | Interrupt(r: Row, now: int)                    // replay gives up an interrupted non-replayable command
    | Fetch(j: nat)
    | Lock(j: nat)
    | Check(j: nat)
    | MarkStale(j: nat, now: int)
    | Enter(j: nat, now: int)                        // mark_executing
    | Reread(j: nat)
    | AckExecuting(j: nat, raised: bool)
    | Begin(j: nat)
    | End(j: nat, outcome: Outcome)
    | Finish(j: nat, now: int)                       // mark_terminal with the effect's outcome
    | Release(j: nat)
    | Discard(j: nat)
    | HubConfirms(k: Key, status: Status, now: int)
    | Clean(keys: set<Key>, now: int)                // purge of confirmed successes that are a day old or more
    | Crash

  const NON_REPLAYABLE := {"steam_update", "update_steam"}

  predicate Replayable(name: string) { name !in NON_REPLAYABLE }

  const INTERRUPTED := Outcome("execution_interrupted", 500, Some("execution_interrupted"))

  function StaleOutcome(above: int): Outcome { Outcome("stale_fence", 409, Some("stale_fence")) }

  predicate Succeeds(o: Outcome) { 200 <= o.statusCode < 300 }

  function FinalStatus(o: Outcome): Status { if Succeeds(o) then Succeeded else Failed }

  predicate HasRow(pc: Pc) { !pc.Submitting? && !pc.Queued? && !pc.Unwinding? }

  predicate HoldsLock(pc: Pc) { HasRow(pc) && !pc.Fetched? }

  function LockTarget(pc: Pc): string
    requires HasRow(pc)
  {
    TargetKey(pc.r.command.instance)
  }

  predicate At(s: State, j: nat) { j in s.jobs }

  predicate Enabled(s: State, step: Step) {
    match step
    case Deliver(e, now) => true
    case Read(k) => k in s.tables.rows
    case Emit(r) => r in s.seen
    case LookUp(r) => r in s.seen
    case Schedule(r, j) =>
      && j !in s.jobs
      && r in s.seen
      && (r.status.Received? || (r in s.idle && r.status.Executing? && Replayable(r.command.name)))
    case Submit(j, accepted) => At(s, j) && s.jobs[j].pc.Submitting?
    case Interrupt(r, now) => r in s.idle && r.status.Executing? && !Replayable(r.command.name)
    case Fetch(j) => At(s, j) && s.jobs[j].pc.Queued?
    case Lock(j) => At(s, j) && s.jobs[j].pc.Fetched? && LockTarget(s.jobs[j].pc) !in s.locks
    case Check(j) => At(s, j) && s.jobs[j].pc.Locked?
    case MarkStale(j, now) => At(s, j) && s.jobs[j].pc.Superseded?
    case Enter(j, now) => At(s, j) && s.jobs[j].pc.Current?
    case Reread(j) => At(s, j) && (s.jobs[j].pc.Entered? || s.jobs[j].pc.Closed?)
    case AckExecuting(j, raised) => At(s, j) && s.jobs[j].pc.Marked?
    case Begin(j) => At(s, j) && s.jobs[j].pc.Acked?
    case End(j, outcome) => At(s, j) && s.jobs[j].pc.Running?
    case Finish(j, now) => At(s, j) && s.jobs[j].pc.Ran?
    case Release(j) => At(s, j) && s.jobs[j].pc.Settled?
    case Discard(j) => At(s, j) && s.jobs[j].pc.Unwinding?
    case HubConfirms(k, status, now) => true
    case Clean(keys, now) =>
      forall k | k in keys :: k in s.tables.rows && Purgeable(s.tables.rows[k]) && s.tables.rows[k].updatedAt <= now - DAY
    case Crash => true
  }

  function Move(s: State, j: nat, pc: Pc): State
    requires At(s, j)
  {
    s.(jobs := s.jobs[j := s.jobs[j].(pc := pc)])
  }

  /** mark_terminal by worker `j`: it writes the row, finds it already terminal, or raises. */
  function DoTerminal(s: State, j: nat, status: Status, outcome: Outcome, now: int): State
    requires At(s, j) && HasRow(s.jobs[j].pc) && Terminal(status)
  {
    var k := s.jobs[j].key;
    var r := s.jobs[j].pc.r;
    var t := MarkTerminal(s.tables, k, status, outcome, now);
    if t.result.Err? then Move(s, j, Settled(r, None))
    else if Terminal(s.tables.rows[k].status) then Move(s, j, Settled(r, Some(t.result.value)))
    else Move(s, j, Closed(r)).(tables := t.tables)
  }

  /** mark_executing by worker `j`: a terminal record is returned as it is, and the worker goes on. */
  function DoEnter(s: State, j: nat, now: int): State
    requires At(s, j) && HasRow(s.jobs[j].pc)
  {
    var k := s.jobs[j].key;
    var r := s.jobs[j].pc.r;
    var t := MarkExecuting(s.tables, k, now);
    if t.result.Err? then Move(s, j, Settled(r, None))
    else if Terminal(s.tables.rows[k].status) then Move(s, j, Marked(t.result.value))
    else Move(s, j, Entered(r)).(tables := t.tables)
  }

  ghost function DoDeliver(s: State, e: Entry, now: int): State {
    var t := Receive(s.tables, e, now);
    s.(tables := t.tables,
       history := if Accepts(s.tables, e) then s.history + {e} else s.history,
       seen := if t.result.Ok? then s.seen + {t.result.value} else s.seen)
  }

  function DoLookUp(s: State, r: Row): State {
    if RowKey(r) in s.scheduled then s.(handled := s.handled + {RowKey(r)}) else s.(idle := s.idle + {r})
  }

  function DoSchedule(s: State, r: Row, j: nat): State {
    var s' := s.(handled := s.handled + {RowKey(r)});
    if RowKey(r) in s.scheduled then s'
    else s'.(scheduled := s.scheduled + {RowKey(r)}, jobs := s.jobs[j := Job(RowKey(r), Submitting)])
  }

  function Leave(s: State, j: nat): State
    requires At(s, j)
  {
    s.(scheduled := s.scheduled - {s.jobs[j].key}, jobs := s.jobs - {j})
  }

  function DoInterrupt(s: State, r: Row, now: int): State {
    var k := RowKey(r);
    var t := MarkTerminal(s.tables, k, Failed, INTERRUPTED, now);
    s.(tables := t.tables,
       handled := s.handled + {k},
       interrupted := if k in s.tables.rows && !Terminal(s.tables.rows[k].status) then s.interrupted + {RowEntry(s.tables.rows[k])}
                      else s.interrupted,
       seen := if t.result.Ok? then s.seen + {t.result.value} else s.seen)
  }

  function DoFetch(s: State, j: nat): State
    requires At(s, j)
  {
    var k := s.jobs[j].key;
    Move(s, j, if k in s.tables.rows then Fetched(s.tables.rows[k]) else Unwinding)
  }

  function DoLock(s: State, j: nat): State
    requires At(s, j) && s.jobs[j].pc.Fetched?
  {
    var r := s.jobs[j].pc.r;
    Move(s, j, Locked(r)).(locks := s.locks[TargetKey(r.command.instance) := j])
  }

  function DoCheck(s: State, j: nat): State
    requires At(s, j) && s.jobs[j].pc.Locked?
  {
    var r := s.jobs[j].pc.r;
    match SupersedingFence(s.tables, s.jobs[j].key)
    case Err(_) => Move(s, j, Settled(r, None))
    case Ok(None) => Move(s, j, Current(r))
    case Ok(Some(fence)) => Move(s, j, Superseded(r, fence))
  }

  function DoReread(s: State, j: nat): State
    requires At(s, j) && (s.jobs[j].pc.Entered? || s.jobs[j].pc.Closed?)
  {
    var k := s.jobs[j].key;
    var r := s.jobs[j].pc.r;
    if k !in s.tables.rows then Move(s, j, Settled(r, None))
    else if s.jobs[j].pc.Entered? then Move(s, j, Marked(s.tables.rows[k]))
    else Move(s, j, Settled(r, Some(s.tables.rows[k])))
  }

  function DoAckExecuting(s: State, j: nat, raised: bool): State
    requires At(s, j) && s.jobs[j].pc.Marked?
  {
    var r := s.jobs[j].pc.r;
    Move(s, j, if raised then Settled(r, None) else Acked(r)).(acks := s.acks + {r})
  }

  function DoBegin(s: State, j: nat): State
    requires At(s, j) && s.jobs[j].pc.Acked?
  {
    var r := s.jobs[j].pc.r;
    Move(s, j, Running(r)).(trace := s.trace + [Effect(RowEntry(r), s.life)])
  }

  function DoRelease(s: State, j: nat): State
    requires At(s, j) && s.jobs[j].pc.Settled?
  {
    var ack := s.jobs[j].pc.ack;
    Move(s, j, Unwinding).(
      locks := map target | target in s.locks && s.locks[target] != j :: s.locks[target],
      acks := if ack.Some? then s.acks + {ack.value} else s.acks)
  }

  /** The tables survive; everything in memory is gone. */
  function DoCrash(s: State): State {
    s.(scheduled := {}, jobs := map[], locks := map[], seen := {}, idle := {},
       interrupted := {}, handled := {}, life := s.life + 1)
  }

  ghost function Apply(s: State, step: Step): State
    requires Enabled(s, step)
  {
    match step
    case Deliver(e, now) => DoDeliver(s, e, now)
    case Read(k) => s.(seen := s.seen + {s.tables.rows[k]})
    case Emit(r) => s.(acks := s.acks + {r})
    case LookUp(r) => DoLookUp(s, r)
    case Schedule(r, j) => DoSchedule(s, r, j)
    case Submit(j, accepted) => if accepted then Move(s, j, Queued) else Leave(s, j)
    case Interrupt(r, now) => DoInterrupt(s, r, now)
    case Fetch(j) => DoFetch(s, j)
    case Lock(j) => DoLock(s, j)
    case Check(j) => DoCheck(s, j)
    case MarkStale(j, now) => DoTerminal(s, j, Failed, StaleOutcome(s.jobs[j].pc.above), now)
    case Enter(j, now) => DoEnter(s, j, now)
    case Reread(j) => DoReread(s, j)
    case AckExecuting(j, raised) => DoAckExecuting(s, j, raised)
    case Begin(j) => DoBegin(s, j)
    case End(j, outcome) => Move(s, j, Ran(s.jobs[j].pc.r, outcome))
    case Finish(j, now) => DoTerminal(s, j, FinalStatus(s.jobs[j].pc.outcome), s.jobs[j].pc.outcome, now)
    case Release(j) => DoRelease(s, j)
    case Discard(j) => Leave(s, j)
    case HubConfirms(k, status, now) => s.(tables := Confirm(s.tables, k, status, now).tables)
    case Clean(keys, now) => s.(tables := Purge(s.tables, keys))
    case Crash => DoCrash(s)
  }

  // ---------------------------------------------------------------- runs

  /** `steps` leads from `s` to `s'`, each step enabled where it is taken. */
  ghost predicate Leads(s: State, steps: seq<Step>, s': State)
    decreases |steps|
  {
    if steps == [] then s' == s
    else Enabled(s, steps[0]) && Leads(Apply(s, steps[0]), steps[1..], s')
  }

  lemma {:induction false} LeadsJoin(s: State, p: seq<Step>, m: State, q: seq<Step>, s': State)
    requires Leads(s, p, m) && Leads(m, q, s')
    ensures Leads(s, p + q, s')
    decreases |p|
  {
    if p == [] {
      assert p + q == q;
    } else {
      LeadsJoin(Apply(s, p[0]), p[1..], m, q, s');
      assert (p + q)[1..] == p[1..] + q;
    }
  }

  // ---------------------------------------------------------------- conditions on the deliveries of a run

  /** Every delivery of the run meets the condition where it comes. */
  ghost predicate Each(p: (State, Entry) -> bool, s: State, steps: seq<Step>)
    decreases |steps|
  {
    steps != [] && Enabled(s, steps[0]) ==>
      && (steps[0].Deliver? ==> p(s, steps[0].e))
      && Each(p, Apply(s, steps[0]), steps[1..])
  }

  lemma {:induction false} EachJoin(p: (State, Entry) -> bool, s: State, a: seq<Step>, m: State, b: seq<Step>)
    requires Leads(s, a, m) && Each(p, s, a) && Each(p, m, b)
    ensures Each(p, s, a + b)
    decreases |a|
  {
    hide Enabled, Apply;
    if a == [] {
      assert a + b == b;
    } else {
      EachJoin(p, Apply(s, a[0]), a[1..], m, b);
      assert (a + b)[1..] == a[1..] + b;
    }
  }

  lemma EachFirst(p: (State, Entry) -> bool, s: State, step: Step, rest: seq<Step>)
    requires Enabled(s, step) && (step.Deliver? ==> p(s, step.e)) && Each(p, Apply(s, step), rest)
    ensures Each(p, s, [step] + rest)
  {
    hide Enabled, Apply;
    assert ([step] + rest)[1..] == rest;
  }

  predicate NoDelivery(steps: seq<Step>) { forall i | 0 <= i < |steps| :: !steps[i].Deliver? }

  lemma {:induction false} NoDeliveryIsEach(p: (State, Entry) -> bool, s: State, steps: seq<Step>)
    requires NoDelivery(steps)
    ensures Each(p, s, steps)
    decreases |steps|
  {
    hide Enabled, Apply;
    if steps != [] && Enabled(s, steps[0]) { NoDeliveryIsEach(p, Apply(s, steps[0]), steps[1..]); }
  }

  lemma OneStep(s: State, step: Step)
    requires Enabled(s, step)
    ensures Leads(s, [step], Apply(s, step))
  {
    hide Enabled, Apply;
    assert [step][1..] == [] && Leads(Apply(s, step), [], Apply(s, step));
  }

  lemma LeadsThen(s: State, p: seq<Step>, m: State, step: Step)
    requires Leads(s, p, m) && Enabled(m, step)
    ensures Leads(s, p + [step], Apply(m, step))
  {
    assert Leads(m, [step], Apply(m, step));
    LeadsJoin(s, p, m, [step], Apply(m, step));
  }
}
