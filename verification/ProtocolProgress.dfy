/** Workers always come to rest: some worker can always move, and every move of a worker uses up work. */
module ProtocolProgress {
  import opened Common
  import opened Journal
  import opened Protocol
  import opened ProtocolSteps

  /** The moves a worker has left at most. */
  function Left(pc: Pc): nat {
    match pc
    case Submitting => 13
    case Queued => 12
    case Fetched(_) => 11
    case Locked(_) => 10
    case Superseded(_, _) => 9
    case Current(_) => 9
    case Entered(_) => 8
    case Marked(_) => 7
    case Acked(_) => 6
    case Running(_) => 5
    case Ran(_, _) => 4
    case Closed(_) => 3
    case Settled(_, _) => 2
    case Unwinding => 1
  }

  ghost function Work(jobs: map<nat, Job>): nat {
    if jobs == map[] then 0
    else
      var j :| j in jobs;
      Left(jobs[j].pc) + Work(jobs - {j})
  }

  lemma {:induction false} WorkWithout(jobs: map<nat, Job>, j: nat)
    requires j in jobs
    ensures Work(jobs) == Left(jobs[j].pc) + Work(jobs - {j})
  {
    var i :| i in jobs && Work(jobs) == Left(jobs[i].pc) + Work(jobs - {i});
    if i != j {
      WorkWithout(jobs - {i}, j);
      WorkWithout(jobs - {j}, i);
      assert jobs - {i} - {j} == jobs - {j} - {i};
    }
  }

  lemma OneLeft(s: State, step: Step)
    requires Enabled(s, step) && WorkerStep(step)
    ensures
      var j := Mover(step).value;
      j in s.jobs
      && (Apply(s, step).jobs == s.jobs - {j}
          || (j in Apply(s, step).jobs && Apply(s, step).jobs == s.jobs[j := Apply(s, step).jobs[j]]
              && Left(Apply(s, step).jobs[j].pc) < Left(s.jobs[j].pc)))
  {
  }

  /** Every worker move uses up work, so no schedule of the workers goes on forever. */
  lemma WorkDecreases(s: State, step: Step)
    requires Enabled(s, step) && WorkerStep(step)
    ensures Work(Apply(s, step).jobs) < Work(s.jobs)
  {
    var j := Mover(step).value;
    var s' := Apply(s, step);
    OneLeft(s, step);
    WorkWithout(s.jobs, j);
    if j in s'.jobs {
      WorkWithout(s'.jobs, j);
      assert s'.jobs - {j} == s.jobs - {j};
    }
  }

  /** A move worker `j` can make when it does not wait for a lock. */
  function Move1(j: nat, pc: Pc): Step {
    match pc
    case Submitting => Submit(j, true)
    case Queued => Fetch(j)
    case Fetched(_) => Lock(j)
    case Locked(_) => Check(j)
    case Superseded(_, _) => MarkStale(j, 0)
    case Current(_) => Enter(j, 0)
    case Entered(_) => Reread(j)
    case Marked(_) => AckExecuting(j, false)
    case Acked(_) => Begin(j)
    case Running(_) => End(j, Outcome("{}", 200, None))
    case Ran(_, _) => Finish(j, 0)
    case Closed(_) => Reread(j)
    case Settled(_, _) => Release(j)
    case Unwinding => Discard(j)
  }

  lemma CanMove(s: State, j: nat)
    requires j in s.jobs && (s.jobs[j].pc.Fetched? ==> LockTarget(s.jobs[j].pc) !in s.locks)
    ensures Enabled(s, Move1(j, s.jobs[j].pc)) && WorkerStep(Move1(j, s.jobs[j].pc)) && NoFault(Move1(j, s.jobs[j].pc))
  {
  }

  /** Every lock is held by a worker between taking and releasing one. */
  ghost predicate LocksHeld(s: State) {
    forall target | target in s.locks :: s.locks[target] in s.jobs && HoldsLock(s.jobs[s.locks[target]].pc)
  }

  lemma HolderStays(s: State, step: Step, j: nat)
    requires Enabled(s, step) && !step.Crash? && !(step.Release? && step.j == j) && j in s.jobs && HoldsLock(s.jobs[j].pc)
    ensures j in Apply(s, step).jobs && HoldsLock(Apply(s, step).jobs[j].pc)
  {
    if j !in Apply(s, step).jobs {
      Leaves(s, step, j);
    } else {
      Moves(s, step, j);
    }
    hide Apply;
  }

  lemma NextLocksHeld(s: State, step: Step)
    requires LocksHeld(s) && Enabled(s, step)
    ensures LocksHeld(Apply(s, step))
  {
    var s' := Apply(s, step);
    if !step.Lock? && !step.Release? && !step.Crash? { LocksStay(s, step); }
    forall target | target in s'.locks ensures s'.locks[target] in s'.jobs && HoldsLock(s'.jobs[s'.locks[target]].pc) {
      if target in s.locks && s.locks[target] == s'.locks[target] { HolderStays(s, step, s.locks[target]); }
    }
  }

  lemma {:induction false} RunKeepsLocksHeld(s: State, steps: seq<Step>, s': State)
    requires LocksHeld(s) && Leads(s, steps, s')
    ensures LocksHeld(s')
    decreases |steps|
  {
    hide LocksHeld, Enabled, Apply;
    if steps != [] {
      NextLocksHeld(s, steps[0]);
      RunKeepsLocksHeld(Apply(s, steps[0]), steps[1..], s');
    }
  }

  /** There is no deadlock: a worker that waits for a target waits for one that can move. */
  lemma SomeWorkerMoves(s: State)
    requires LocksHeld(s) && s.jobs != map[]
    ensures exists step :: Enabled(s, step) && WorkerStep(step) && NoFault(step)
  {
    var j :| j in s.jobs;
    if s.jobs[j].pc.Fetched? && LockTarget(s.jobs[j].pc) in s.locks {
      CanMove(s, s.locks[LockTarget(s.jobs[j].pc)]);
    } else {
      CanMove(s, j);
    }
  }

  ghost predicate AllWorkers(steps: seq<Step>) {
    forall i | 0 <= i < |steps| :: WorkerStep(steps[i]) && NoFault(steps[i])
  }

  lemma {:induction false} FinishFrom(s: State) returns (steps: seq<Step>, s': State)
    requires LocksHeld(s)
    ensures Leads(s, steps, s') && AllWorkers(steps) && s'.jobs == map[] && |steps| <= Work(s.jobs)
    decreases Work(s.jobs)
  {
    hide Apply, Enabled, LocksHeld, Work, WorkerStep, NoFault;
    if s.jobs == map[] {
      steps, s' := [], s;
    } else {
      SomeWorkerMoves(s);
      var step :| Enabled(s, step) && WorkerStep(step) && NoFault(step);
      WorkDecreases(s, step);
      NextLocksHeld(s, step);
      var m := Apply(s, step);
      var rest;
      rest, s' := FinishFrom(m);
      steps := [step] + rest;
      assert steps[1..] == rest;
    }
  }

  /** From every reachable state the workers can run until none is left, and in no more moves than their work. */
  lemma WorkersCanFinish(before: seq<Step>, s: State)
    requires Leads(INITIAL, before, s)
    ensures exists steps, s' :: Leads(s, steps, s') && AllWorkers(steps) && s'.jobs == map[] && |steps| <= Work(s.jobs)
  {
    hide Leads;
    RunKeepsLocksHeld(INITIAL, before, s);
    var steps, s' := FinishFrom(s);
  }

  /** However long the workers run by themselves, their moves are bounded by the work there was. */
  lemma {:induction false} WorkersMustFinish(s: State, steps: seq<Step>, s': State)
    requires Leads(s, steps, s') && forall i | 0 <= i < |steps| :: WorkerStep(steps[i])
    ensures |steps| + Work(s'.jobs) <= Work(s.jobs)
    decreases |steps|
  {
    if steps != [] {
      WorkDecreases(s, steps[0]);
      WorkersMustFinish(Apply(s, steps[0]), steps[1..], s');
    }
  }
}
