/** What each step of the protocol does to the parts of the state, whatever holds of it. */
module ProtocolSteps {
  import opened Common
  import opened Journal
  import opened Protocol

  /** The worker a step moves. */
  function Mover(step: Step): Option<nat> {
    match step
    case Schedule(r, j) => Some(j)
    case Submit(j, accepted) => Some(j)
    case Fetch(j) => Some(j)
    case Lock(j) => Some(j)
    case Check(j) => Some(j)
    case MarkStale(j, now) => Some(j)
    case Enter(j, now) => Some(j)
    case Reread(j) => Some(j)
    case AckExecuting(j, raised) => Some(j)
    case Begin(j) => Some(j)
    case End(j, outcome) => Some(j)
    case Finish(j, now) => Some(j)
    case Release(j) => Some(j)
    case Discard(j) => Some(j)
    case _ => None
  }

  /**
    What nothing can prevent, at any moment: deliveries, confirmations, reading a stored row, acting on a record that was
    read, and a crash, which leaves nothing but the tables and the record of the past.
   */
  lemma CallersAreFree(s: State, e: Entry, k: Key, r: Row, status: Status, now: int)
    ensures Enabled(s, Deliver(e, now)) && Enabled(s, HubConfirms(k, status, now)) && Enabled(s, Crash)
    ensures k in s.tables.rows ==> Enabled(s, Read(k)) && s.tables.rows[k] in Apply(s, Read(k)).seen
    ensures r in s.seen ==>
              && Enabled(s, Emit(r)) && r in Apply(s, Emit(r)).acks
              && Enabled(s, LookUp(r))
              && if RowKey(r) in s.scheduled then RowKey(r) in Apply(s, LookUp(r)).handled else r in Apply(s, LookUp(r)).idle
    ensures r in s.seen && r.status.Received? ==> forall j | j !in s.jobs :: Enabled(s, Schedule(r, j))
    ensures
      var v := Apply(s, Crash);
      && v.tables == s.tables && v.history == s.history && v.acks == s.acks && v.trace == s.trace && v.life == s.life + 1
      && v.scheduled == {} && v.jobs == map[] && v.locks == map[] && v.seen == {} && v.idle == {}
  {
    hide Receive, MarkTerminal, Confirm;
  }

  /** What a step that moves no worker does to the tables. */
  lemma TablesChangeBy(s: State, step: Step)
    requires Enabled(s, step) && Mover(step).None?
    ensures Apply(s, step).tables == match step
      case Deliver(e, now) => Receive(s.tables, e, now).tables
      case Interrupt(r, now) => MarkTerminal(s.tables, RowKey(r), Failed, INTERRUPTED, now).tables
      case HubConfirms(k, status, now) => Confirm(s.tables, k, status, now).tables
      case Clean(keys, now) => Purge(s.tables, keys)
      case _ => s.tables
  {
    hide Receive, MarkTerminal, MarkExecuting, Confirm, Purge, SupersedingFence;
  }

  /** What a worker's step does to the tables. */
  lemma WorkerTables(s: State, step: Step)
    requires Enabled(s, step) && Mover(step).Some?
    ensures step.MarkStale? ==> Apply(s, step) == DoTerminal(s, step.j, Failed, StaleOutcome(s.jobs[step.j].pc.above), step.now)
    ensures step.Finish? ==>
              Apply(s, step) == DoTerminal(s, step.j, FinalStatus(s.jobs[step.j].pc.outcome), s.jobs[step.j].pc.outcome, step.now)
    ensures step.Enter? ==> Apply(s, step) == DoEnter(s, step.j, step.now)
    ensures !step.MarkStale? && !step.Finish? && !step.Enter? ==> Apply(s, step).tables == s.tables
  {
    hide DoTerminal, DoEnter, SupersedingFence;
  }

  lemma JournalSteps(s: State, step: Step)
    requires Enabled(s, step)
    ensures step.Check? ==> Apply(s, step) == DoCheck(s, step.j)
    ensures step.Enter? ==> Apply(s, step) == DoEnter(s, step.j, step.now)
    ensures step.Reread? ==> Apply(s, step) == DoReread(s, step.j)
  {
    hide DoCheck, DoEnter, DoReread;
  }

  lemma HistoryStays(s: State, step: Step)
    requires Enabled(s, step) && !step.Deliver?
    ensures Apply(s, step).history == s.history
  {
    hide Receive, MarkTerminal, MarkExecuting, Confirm, Purge, SupersedingFence;
  }

  /** Only the moving worker changes, and it keeps its command. */
  lemma OthersStay(s: State, step: Step, j: nat)
    requires Enabled(s, step) && j in Apply(s, step).jobs
    ensures Mover(step) != Some(j) ==> j in s.jobs && Apply(s, step).jobs[j] == s.jobs[j]
    ensures j in s.jobs ==> Apply(s, step).jobs[j].key == s.jobs[j].key
    ensures j !in s.jobs ==> step.Schedule? && Apply(s, step).jobs[j] == Job(RowKey(step.r), Submitting)
  {
  }

  lemma Leaves(s: State, step: Step, j: nat)
    requires Enabled(s, step) && j in s.jobs && j !in Apply(s, step).jobs
    ensures step.Crash? || (!HasRow(s.jobs[j].pc) && Apply(s, step).scheduled == s.scheduled - {s.jobs[j].key})
  {
  }

  lemma LocksStay(s: State, step: Step)
    requires Enabled(s, step) && !step.Lock? && !step.Release? && !step.Crash?
    ensures Apply(s, step).locks == s.locks
  {
  }

  lemma TraceStays(s: State, step: Step)
    requires Enabled(s, step) && !step.Begin?
    ensures Apply(s, step).trace == s.trace
  {
  }

  /** A step appends at most one effect: the one its worker was cleared for. */
  lemma TraceGrows(s: State, step: Step)
    requires Enabled(s, step)
    ensures Apply(s, step).trace == s.trace + (if step.Begin? then [Effect(RowEntry(s.jobs[step.j].pc.r), s.life)] else [])
  {
    if !step.Begin? { TraceStays(s, step); }
  }

  /** Past the fence check and before the effect. */
  predicate Cleared(pc: Pc) { pc.Current? || pc.Entered? || pc.Marked? || pc.Acked? }

  predicate Open(s: State, k: Key) { k in s.tables.rows && !Terminal(s.tables.rows[k].status) }

  predicate Finished(s: State, k: Key) { k in s.tables.rows && Terminal(s.tables.rows[k].status) }

  ghost predicate Outdated(s: State, slot: Slot, fence: int) {
    slot in s.tables.fences && s.tables.fences[slot] > fence
  }

  /** How one step may move the worker it moves. */
  ghost predicate MovesAs(s: State, step: Step, j: nat)
    requires Enabled(s, step) && j in s.jobs && j in Apply(s, step).jobs
  {
    var pc, pc' := s.jobs[j].pc, Apply(s, step).jobs[j].pc;
    && (HoldsLock(pc') ==> HoldsLock(pc) || (step.Lock? && step.j == j))
    && (HoldsLock(pc) ==> HoldsLock(pc') || (step.Release? && step.j == j))
    && (Cleared(pc') ==> Cleared(pc) || (step.Check? && step.j == j && pc.Locked?))
  }

  /** The steps of a worker that call the journal. */
  predicate JournalStep(step: Step) {
    step.Fetch? || step.Check? || step.MarkStale? || step.Enter? || step.Reread? || step.Finish?
  }

  lemma MovesJournal(s: State, step: Step, j: nat)
    requires Enabled(s, step) && j in s.jobs && j in Apply(s, step).jobs && Mover(step) == Some(j) && JournalStep(step)
    ensures MovesAs(s, step, j)
  {
    hide MarkTerminal, MarkExecuting, SupersedingFence;
  }

  lemma MovesOther(s: State, step: Step, j: nat)
    requires Enabled(s, step) && j in s.jobs && j in Apply(s, step).jobs && Mover(step) == Some(j) && !JournalStep(step)
    ensures MovesAs(s, step, j)
  {
    hide Receive, DoTerminal, DoEnter, DoDeliver;
  }

  lemma Moves(s: State, step: Step, j: nat)
    requires Enabled(s, step) && j in s.jobs && j in Apply(s, step).jobs
    ensures MovesAs(s, step, j)
  {
    OthersStay(s, step, j);
    if Mover(step) == Some(j) {
      hide MovesAs, Apply, Enabled;
      if JournalStep(step) { MovesJournal(s, step, j); } else { MovesOther(s, step, j); }
    } else {
      hide Apply, Enabled;
    }
  }

  /** No crash, and nothing that may raise does so before the effect. */
  predicate NoFault(step: Step) {
    !step.Crash? && !(step.Submit? && !step.accepted) && !(step.AckExecuting? && step.raised)
  }

  /** A move of an existing worker. */
  predicate WorkerStep(step: Step) { Mover(step).Some? && !step.Schedule? }

  // ---------------------------------------------------------------- rows and fences

  /** The row of an id is the one it had, of the same command, unless the step has just accepted it. */
  ghost predicate RowComes(s: State, step: Step, t: Tables, k: Key) {
    k in t.rows ==>
      || (k in s.tables.rows && RowEntry(t.rows[k]) == RowEntry(s.tables.rows[k]))
      || (step.Deliver? && Accepts(s.tables, step.e) && k == EntryKey(step.e) && t.rows[k] == NewRow(step.e, step.now))
  }

  lemma DeliverRowComes(s: State, e: Entry, now: int, k: Key)
    ensures RowComes(s, Deliver(e, now), Receive(s.tables, e, now).tables, k)
  {
  }

  lemma NextRowComes(s: State, step: Step, k: Key)
    requires Enabled(s, step)
    ensures RowComes(s, step, Apply(s, step).tables, k)
  {
    if Mover(step).Some? {
      WorkerTables(s, step);
      hide Apply, Enabled, Accepts;
    } else {
      TablesChangeBy(s, step);
      hide Apply, Enabled;
      if step.Deliver? {
        hide Receive, Accepts;
        DeliverRowComes(s, step.e, step.now, k);
      } else {
        hide Receive, Accepts;
      }
    }
  }

  ghost predicate FencesUp(f: map<Slot, int>, g: map<Slot, int>) {
    forall slot | slot in f :: slot in g && f[slot] <= g[slot]
  }

  /** Only an accepted delivery changes a fence: it raises that of its slot. */
  lemma NextFences(s: State, step: Step)
    requires Enabled(s, step)
    ensures FencesUp(s.tables.fences, Apply(s, step).tables.fences)
    ensures
      Apply(s, step).tables.fences ==
      if step.Deliver? && Accepts(s.tables, step.e) then s.tables.fences[EntrySlot(step.e) := step.e.command.fence]
      else s.tables.fences
  {
    if Mover(step).Some? {
      WorkerTables(s, step);
      hide Apply, Enabled, Accepts;
    } else {
      TablesChangeBy(s, step);
      hide Apply, Enabled;
      if !step.Deliver? { hide Receive, Accepts; }
    }
  }

  // ---------------------------------------------------------------- what a worker is going to run

  /**
    The command worker `j` will run if nothing disturbs it: before the re-read of mark_executing the one its row then
    holds, afterwards the one of the record it got.
   */
  function Due(s: State, j: nat): Option<Entry> {
    if j !in s.jobs then None
    else
      var job := s.jobs[j];
      match job.pc
      case Current(_) => if job.key in s.tables.rows then Some(RowEntry(s.tables.rows[job.key])) else None
      case Entered(_) => if job.key in s.tables.rows then Some(RowEntry(s.tables.rows[job.key])) else None
      case Marked(r) => Some(RowEntry(r))
      case Acked(r) => Some(RowEntry(r))
      case _ => None
  }

  /** A step makes a worker ready for a command by clearing it, or by accepting the command under the worker's id. */
  ghost predicate DueFrom(s: State, step: Step, j: nat, e: Entry)
    requires Enabled(s, step)
  {
    || Due(s, j) == Some(e)
    || (step.Check? && step.j == j && s.jobs[j].key in s.tables.rows && RowEntry(s.tables.rows[s.jobs[j].key]) == e
        && SupersedingFence(s.tables, s.jobs[j].key) == Ok(None))
    || (step.Deliver? && step.e == e && Accepts(s.tables, e))
  }

  lemma MoverDue(s: State, step: Step, j: nat, e: Entry)
    requires Enabled(s, step) && Mover(step) == Some(j) && Due(Apply(s, step), j) == Some(e)
    ensures DueFrom(s, step, j, e)
  {
    hide MarkTerminal, Accepts;
  }

  lemma NextDue(s: State, step: Step, j: nat, e: Entry)
    requires Enabled(s, step) && Due(Apply(s, step), j) == Some(e)
    ensures DueFrom(s, step, j, e)
  {
    if Mover(step) == Some(j) {
      MoverDue(s, step, j, e);
    } else {
      OthersStay(s, step, j);
      NextRowComes(s, step, s.jobs[j].key);
      hide Apply, Accepts;
    }
  }

  /** An effect is one that was due. */
  lemma BegunWasDue(s: State, j: nat)
    requires j in s.jobs && s.jobs[j].pc.Acked?
    ensures Due(s, j) == Some(RowEntry(s.jobs[j].pc.r))
  {
  }

  // ---------------------------------------------------------------- the records read

  /** What a step adds to the records that callers have read. */
  lemma SeenGrowsBy(s: State, step: Step, r: Row)
    requires Enabled(s, step) && r in Apply(s, step).seen && r !in s.seen
    ensures step.Deliver? || step.Read? || step.Interrupt?
    ensures step.Read? ==> r == s.tables.rows[step.k]
    ensures step.Deliver? ==> Receive(s.tables, step.e, step.now).result == Ok(r)
    ensures step.Interrupt? ==> MarkTerminal(s.tables, RowKey(step.r), Failed, INTERRUPTED, step.now).result == Ok(r)
  {
    hide Receive, MarkTerminal, MarkExecuting, Confirm, Purge, SupersedingFence;
  }

  /** A record a caller gets is the row as the step leaves it. */
  lemma SeenIsRow(s: State, step: Step, r: Row)
    requires TablesOk(s.tables, s.history) && Enabled(s, step) && r in Apply(s, step).seen && r !in s.seen
    ensures RowKey(r) in Apply(s, step).tables.rows && Apply(s, step).tables.rows[RowKey(r)] == r
  {
    SeenGrowsBy(s, step, r);
    TablesChangeBy(s, step);
    var t := Apply(s, step).tables;
    hide Apply, Receive;
    if step.Deliver? {
      ReceivedIsStored(s.tables, s.history, step.e, step.now);
      ReceiveDuplicate(s.tables, s.history, step.e, step.now);
      hide TablesOk;
    } else {
      var k := if step.Read? then step.k else RowKey(step.r);
      assert RowOk(k, s.tables.rows[k], s.history);
      hide TablesOk;
    }
  }

  /** No caller has read command `k` as received, or as one that may be replayed. */
  ghost predicate NotSchedulable(s: State, k: Key) {
    forall r | r in s.seen && RowKey(r) == k :: !r.status.Received? && !Replayable(r.command.name)
  }

  lemma OnlyScheduleAdds(s: State, step: Step, k: Key)
    requires Enabled(s, step) && k !in s.scheduled
    ensures k in Apply(s, step).scheduled ==> step.Schedule? && RowKey(step.r) == k
  {
  }
}
