/**
  Mutual exclusion and the order of the fences, when the Hub may use the id of a purged command again.

  A worker takes the lock of the record it read first, and from the re-read of mark_executing on it goes by the row that
  is then there. A delivery is calm if it does not put a command for another instance under the id of such a worker.
 */
module ProtocolCalm {
  import opened Common
  import opened Journal
  import opened Protocol
  import opened ProtocolSteps
  import opened ProtocolInvariant

  /** Between the first read of the row and the re-read of mark_executing. */
  predicate Waiting(pc: Pc) { pc.Fetched? || pc.Locked? || pc.Current? || pc.Entered? }

  /** If the command is accepted, no worker waits under its id with a record for another instance. */
  ghost predicate Calm(s: State, e: Entry) {
    Accepts(s.tables, e) ==>
      forall j | j in s.jobs && s.jobs[j].key == EntryKey(e) && Waiting(s.jobs[j].pc) ::
        s.jobs[j].pc.r.command.instance == e.command.instance
  }

  ghost predicate CalmStep(s: State, step: Step) { step.Deliver? ==> Calm(s, step.e) }

  /** The row of a waiting worker is for the instance it took, or will take, the lock of. */
  ghost predicate WaitAgrees(s: State) {
    forall j | j in s.jobs && Waiting(s.jobs[j].pc) && s.jobs[j].key in s.tables.rows ::
      s.tables.rows[s.jobs[j].key].command.instance == s.jobs[j].pc.r.command.instance
  }

  lemma RereadTargetStays(s: State, step: Step, j: nat)
    requires WaitAgrees(s) && Enabled(s, step) && Mover(step) == Some(j) && (step.Enter? || step.Reread?)
    requires j in s.jobs && j in Apply(s, step).jobs
    ensures HasRow(s.jobs[j].pc) && HasRow(Apply(s, step).jobs[j].pc)
    ensures Apply(s, step).jobs[j].pc.r.command.instance == s.jobs[j].pc.r.command.instance
  {
    JournalSteps(s, step);
    hide Apply, Enabled;
  }

  /** A worker works for one instance from its first read to its end. */
  lemma TargetStays(s: State, step: Step, j: nat)
    requires WaitAgrees(s) && Enabled(s, step) && j in s.jobs && j in Apply(s, step).jobs
    requires HasRow(s.jobs[j].pc) && HasRow(Apply(s, step).jobs[j].pc)
    ensures Apply(s, step).jobs[j].pc.r.command.instance == s.jobs[j].pc.r.command.instance
  {
    if Mover(step) != Some(j) {
      OthersStay(s, step, j);
      hide Apply;
    } else if step.Enter? || step.Reread? {
      RereadTargetStays(s, step, j);
    } else {
      hide WaitAgrees, MarkTerminal, SupersedingFence;
    }
  }

  lemma BecomesWaiting(s: State, step: Step, j: nat)
    requires Enabled(s, step) && j in Apply(s, step).jobs && Waiting(Apply(s, step).jobs[j].pc)
    ensures j in s.jobs && Apply(s, step).jobs[j].key == s.jobs[j].key
    ensures Waiting(s.jobs[j].pc) || (step.Fetch? && step.j == j)
    ensures step.Fetch? && step.j == j ==>
              s.jobs[j].key in s.tables.rows && Apply(s, step).jobs[j].pc.r == s.tables.rows[s.jobs[j].key]
              && Apply(s, step).tables == s.tables
  {
    OthersStay(s, step, j);
    JournalSteps(s, step);
    if Mover(step) == Some(j) { hide MarkTerminal, MarkExecuting, SupersedingFence; } else { hide Apply, Enabled; }
  }

  lemma WaitsFor(s: State, step: Step, j: nat)
    requires WaitAgrees(s) && Enabled(s, step) && CalmStep(s, step)
    requires j in Apply(s, step).jobs && Waiting(Apply(s, step).jobs[j].pc) && Apply(s, step).jobs[j].key in Apply(s, step).tables.rows
    ensures
      var s' := Apply(s, step);
      s'.tables.rows[s'.jobs[j].key].command.instance == s'.jobs[j].pc.r.command.instance
  {
    BecomesWaiting(s, step, j);
    if Waiting(s.jobs[j].pc) {
      TargetStays(s, step, j);
      NextRowComes(s, step, s.jobs[j].key);
      hide Apply, Enabled, Accepts;
    }
  }

  lemma NextWaits(s: State, step: Step)
    requires WaitAgrees(s) && Enabled(s, step) && CalmStep(s, step)
    ensures WaitAgrees(Apply(s, step))
  {
    var s' := Apply(s, step);
    hide Apply, Enabled, CalmStep;
    forall j | j in s'.jobs && Waiting(s'.jobs[j].pc) && s'.jobs[j].key in s'.tables.rows
      ensures s'.tables.rows[s'.jobs[j].key].command.instance == s'.jobs[j].pc.r.command.instance
    {
      WaitsFor(s, step, j);
    }
  }

  // ---------------------------------------------------------------- target locks

  ghost predicate Holds(s: State, j: nat, target: string) {
    j in s.jobs && HoldsLock(s.jobs[j].pc) && LockTarget(s.jobs[j].pc) == target
  }

  /** A target's lock is held by the one worker that stands between its lock and its release. */
  ghost predicate LockInv(s: State) {
    && (forall target | target in s.locks :: Holds(s, s.locks[target], target))
    && (forall j, target | Holds(s, j, target) :: target in s.locks && s.locks[target] == j)
  }

  lemma NextHolds(s: State, step: Step, j: nat, target: string)
    requires WaitAgrees(s) && Enabled(s, step)
    requires !step.Crash? && !(step.Lock? && step.j == j) && !(step.Release? && step.j == j)
    ensures Holds(Apply(s, step), j, target) <==> Holds(s, j, target)
  {
    var s' := Apply(s, step);
    if j in s'.jobs { OthersStay(s, step, j); }
    if j in s.jobs {
      if j !in s'.jobs {
        Leaves(s, step, j);
      } else {
        Moves(s, step, j);
        if HasRow(s.jobs[j].pc) && HasRow(s'.jobs[j].pc) { TargetStays(s, step, j); }
      }
    }
    hide Apply, WaitAgrees;
  }

  lemma NextLocks(s: State, step: Step)
    requires WaitAgrees(s) && LockInv(s) && Enabled(s, step)
    ensures LockInv(Apply(s, step))
  {
    var s' := Apply(s, step);
    if step.Lock? {
      LockKeeps(s, step);
    } else if step.Release? {
      ReleaseKeeps(s, step);
    } else if !step.Crash? {
      forall j, target | true ensures Holds(s', j, target) <==> Holds(s, j, target) { NextHolds(s, step, j, target); }
      LocksStay(s, step);
    }
  }

  lemma LockKeeps(s: State, step: Step)
    requires LockInv(s) && Enabled(s, step) && step.Lock?
    ensures LockInv(Apply(s, step))
  {
    var s' := Apply(s, step);
    var mine := LockTarget(s.jobs[step.j].pc);
    forall j, target | Holds(s', j, target) ensures target in s'.locks && s'.locks[target] == j {
      if j != step.j { assert Holds(s, j, target); }
    }
    forall target | target in s'.locks ensures Holds(s', s'.locks[target], target) {
      if target != mine { assert Holds(s, s.locks[target], target); }
    }
  }

  lemma ReleaseKeeps(s: State, step: Step)
    requires LockInv(s) && Enabled(s, step) && step.Release?
    ensures LockInv(Apply(s, step))
  {
    var s' := Apply(s, step);
    forall j, target | Holds(s', j, target) ensures target in s'.locks && s'.locks[target] == j {
      assert Holds(s, j, target);
    }
    forall target | target in s'.locks ensures Holds(s', s'.locks[target], target) {
      assert Holds(s, s.locks[target], target);
    }
  }

  // ---------------------------------------------------------------- the effects and their fences

  ghost predicate NoneAbove(trace: seq<Effect>, slot: Slot, fence: int) {
    forall i | 0 <= i < |trace| && EntrySlot(trace[i].entry) == slot :: trace[i].entry.command.fence <= fence
  }

  ghost predicate FenceOrdered(trace: seq<Effect>) {
    forall a, b | 0 <= a <= b < |trace| && EntrySlot(trace[a].entry) == EntrySlot(trace[b].entry) ::
      trace[a].entry.command.fence <= trace[b].entry.command.fence
  }

  /** No effect of the slot so far has a fence above that of a command that is due. */
  ghost predicate FenceInv(s: State) {
    && FenceOrdered(s.trace)
    && forall j, e | Due(s, j) == Some(e) :: NoneAbove(s.trace, EntrySlot(e), e.command.fence)
  }

  /** A worker that has a command due holds the lock of its instance. */
  lemma DueHolds(s: State, j: nat, e: Entry)
    requires WaitAgrees(s) && Due(s, j) == Some(e)
    ensures Holds(s, j, TargetKey(e.command.instance))
  {
  }

  /** An effect is the only one due for its instance, so it outdates no other. */
  lemma BeginKeepsFences(s: State, j: nat)
    requires WaitAgrees(s) && LockInv(s) && FenceInv(s) && j in s.jobs && s.jobs[j].pc.Acked?
    ensures FenceInv(DoBegin(s, j))
  {
    var s' := DoBegin(s, j);
    var x := RowEntry(s.jobs[j].pc.r);
    BegunWasDue(s, j);
    DueHolds(s, j, x);
    forall i, e | Due(s', i) == Some(e) ensures NoneAbove(s'.trace, EntrySlot(e), e.command.fence) {
      assert i != j && Due(s, i) == Some(e);
      DueHolds(s, i, e);
      hide LockInv;
      assert EntrySlot(e) != EntrySlot(x);
    }
  }

  /** What becomes due is not below anything that has run. */
  lemma DueIsNotBelow(s: State, step: Step, j: nat, e: Entry)
    requires TablesInv(s) && TraceKnown(s) && FenceInv(s) && Enabled(s, step) && Due(Apply(s, step), j) == Some(e)
    ensures NoneAbove(s.trace, EntrySlot(e), e.command.fence)
  {
    NextDue(s, step, j, e);
    hide Apply, Due, FenceOrdered, Accepts;
    forall i | 0 <= i < |s.trace| && EntrySlot(s.trace[i].entry) == EntrySlot(e) ensures s.trace[i].entry.command.fence <= e.command.fence {
      assert Remembered(s.trace[i].entry, s.tables);
      if step.Deliver? && step.e == e && Accepts(s.tables, e) { AcceptsOnlyHigherFences(s.tables, s.history, e); }
    }
  }

  lemma NextFenceInv(s: State, step: Step)
    requires TablesInv(s) && TraceKnown(s) && WaitAgrees(s) && LockInv(s) && FenceInv(s) && Enabled(s, step)
    ensures FenceInv(Apply(s, step))
  {
    if step.Begin? {
      BeginKeepsFences(s, step.j);
    } else {
      TraceStays(s, step);
      hide Apply, Enabled, TablesInv, TraceKnown, WaitAgrees, LockInv, Due, NoneAbove;
      forall j, e | Due(Apply(s, step), j) == Some(e) ensures NoneAbove(s.trace, EntrySlot(e), e.command.fence) {
        DueIsNotBelow(s, step, j, e);
      }
    }
  }

  // ---------------------------------------------------------------- together

  ghost predicate CalmInv(s: State) {
    Inv(s) && WaitAgrees(s) && LockInv(s) && FenceInv(s)
  }

  /** Every step that is not an uncalm delivery keeps locks and fences in order. */
  lemma NextCalm(s: State, step: Step)
    requires CalmInv(s) && Enabled(s, step) && CalmStep(s, step)
    ensures CalmInv(Apply(s, step))
  {
    NextInv(s, step);
    NextWaits(s, step);
    NextLocks(s, step);
    NextFenceInv(s, step);
  }

  lemma {:induction false} RunKeepsCalm(s: State, steps: seq<Step>, s': State)
    requires CalmInv(s) && Leads(s, steps, s') && Each(Calm, s, steps)
    ensures CalmInv(s')
    decreases |steps|
  {
    hide CalmInv, Enabled, Apply, CalmStep;
    if steps != [] {
      NextCalm(s, steps[0]);
      RunKeepsCalm(Apply(s, steps[0]), steps[1..], s');
    }
  }

  lemma ReachableCalm(steps: seq<Step>, s: State)
    requires Leads(INITIAL, steps, s) && Each(Calm, INITIAL, steps)
    ensures CalmInv(s)
  {
    RunKeepsCalm(INITIAL, steps, s);
  }

  // ---------------------------------------------------------------- what follows

  /** At most one effect is running per instance, across all hubs. */
  ghost predicate Excludes(s: State) {
    forall i, j | i in s.jobs && j in s.jobs && s.jobs[i].pc.Running? && s.jobs[j].pc.Running?
                  && s.jobs[i].pc.r.command.instance == s.jobs[j].pc.r.command.instance :: i == j
  }

  lemma CalmExcludes(s: State)
    requires CalmInv(s)
    ensures Excludes(s)
  {
    hide Inv, WaitAgrees, FenceInv;
    forall i, j | i in s.jobs && j in s.jobs && s.jobs[i].pc.Running? && s.jobs[j].pc.Running?
                  && s.jobs[i].pc.r.command.instance == s.jobs[j].pc.r.command.instance
      ensures i == j
    {
      var target := LockTarget(s.jobs[i].pc);
      assert Holds(s, i, target) && Holds(s, j, target);
    }
  }

  /** At every point of every run of calm deliveries at most one effect is running per target, across all hubs. */
  lemma MutualExclusion(steps: seq<Step>, s: State)
    requires Leads(INITIAL, steps, s) && Each(Calm, INITIAL, steps)
    ensures Excludes(s)
  {
    hide CalmInv, Excludes;
    ReachableCalm(steps, s);
    CalmExcludes(s);
  }

  /**
    In every run of calm deliveries, under any interleaving of deliveries, duplicates, replays, workers, purges and
    crashes, the fences of the effects run for one hub and target never decrease, and equal fences mean the same command.
   */
  lemma EffectsFollowFences(steps: seq<Step>, s: State)
    requires Leads(INITIAL, steps, s) && Each(Calm, INITIAL, steps)
    ensures FenceOrdered(s.trace)
    ensures forall a, b | 0 <= a < |s.trace| && 0 <= b < |s.trace| && EntrySlot(s.trace[a].entry) == EntrySlot(s.trace[b].entry) ::
              s.trace[a].entry.command.fence == s.trace[b].entry.command.fence <==> s.trace[a].entry == s.trace[b].entry
  {
    hide Leads, Each;
    ReachableCalm(steps, s);
    hide RecordsInv, FlightInv, WaitAgrees, LockInv;
  }
}
