/**
  Exactly when a delivery endangers mutual exclusion and the order of the fences: after an uncalm one some run of calm
  deliveries breaks both, and after a calm one none does.
 */
module ProtocolReuse {
  import opened Common
  import opened Strings
  import opened Journal
  import opened Protocol
  import opened ProtocolSteps
  import opened ProtocolInvariant
  import opened ProtocolCalm
  import opened ProtocolProgress
  import opened ProtocolReads
  import opened ProtocolFlights

  // ---------------------------------------------------------------- a worker gives back its lock

  /** Worker `h` has moved, and its row may have changed; all else is as it was. */
  ghost predicate OnlyMoved(s: State, t: State, h: nat) {
    && h in s.jobs && h in t.jobs && t.jobs == s.jobs[h := t.jobs[h]] && t.jobs[h].key == s.jobs[h].key
    && t.scheduled == s.scheduled && t.history == s.history && t.tables.fences == s.tables.fences
    && (forall k | k != s.jobs[h].key ::
          (k in t.tables.rows <==> k in s.tables.rows) && (k in s.tables.rows ==> t.tables.rows[k] == s.tables.rows[k]))
    && (s.jobs[h].key in t.tables.rows <==> s.jobs[h].key in s.tables.rows)
  }

  lemma OnlyMovedOn(s: State, m: State, t: State, h: nat)
    requires OnlyMoved(s, m, h) && OnlyMoved(m, t, h)
    ensures OnlyMoved(s, t, h)
  {
    assert t.jobs == s.jobs[h := t.jobs[h]];
  }

  lemma WorkerRows(s: State, step: Step, h: nat)
    requires Enabled(s, step) && WorkerStep(step) && Mover(step) == Some(h)
    ensures
      var t := Apply(s, step).tables;
      && h in s.jobs && t.rows.Keys == s.tables.rows.Keys
      && forall k | k in s.tables.rows && k != s.jobs[h].key :: t.rows[k] == s.tables.rows[k]
  {
    WorkerTables(s, step);
    hide Apply;
  }

  lemma HolderStaysScheduled(s: State, step: Step, h: nat)
    requires Enabled(s, step) && WorkerStep(step) && Mover(step) == Some(h) && HoldsLock(s.jobs[h].pc)
    ensures Apply(s, step).scheduled == s.scheduled
  {
    hide MarkTerminal, MarkExecuting, SupersedingFence;
  }

  lemma HolderMoves(s: State, h: nat)
    requires h in s.jobs && HoldsLock(s.jobs[h].pc) && !s.jobs[h].pc.Settled?
    ensures Enabled(s, Move1(h, s.jobs[h].pc)) && WorkerStep(Move1(h, s.jobs[h].pc)) && Mover(Move1(h, s.jobs[h].pc)) == Some(h)
    ensures
      var m := Apply(s, Move1(h, s.jobs[h].pc));
      && OnlyMoved(s, m, h) && m.locks == s.locks && HoldsLock(m.jobs[h].pc) && Left(m.jobs[h].pc) < Left(s.jobs[h].pc)
  {
    var step := Move1(h, s.jobs[h].pc);
    CanMove(s, h);
    assert Mover(step) == Some(h) && !step.Lock? && !step.Release?;
    hide Move1;
    WorkerRows(s, step, h);
    HolderStaysScheduled(s, step, h);
    HistoryStays(s, step);
    NextFences(s, step);
    OneLeft(s, step);
    LocksStay(s, step);
    hide Apply, Enabled, Left;
    if h in Apply(s, step).jobs { Moves(s, step, h); } else { Leaves(s, step, h); }
    OthersStay(s, step, h);
  }

  lemma HolderReleases(s: State, h: nat) returns (t: State)
    requires h in s.jobs && s.jobs[h].pc.Settled?
    ensures Enabled(s, Release(h)) && t == Apply(s, Release(h))
    ensures OnlyMoved(s, t, h) && t.jobs[h].pc.Unwinding?
    ensures t.locks == map target | target in s.locks && s.locks[target] != h :: s.locks[target]
  {
    t := Apply(s, Release(h));
  }

  predicate OnlyWorker(steps: seq<Step>, h: nat) { forall i | 0 <= i < |steps| :: Mover(steps[i]) == Some(h) && WorkerStep(steps[i]) }

  lemma {:induction false} RunOff(s: State, h: nat) returns (steps: seq<Step>, t: State)
    requires h in s.jobs && HoldsLock(s.jobs[h].pc)
    ensures Leads(s, steps, t) && Working(steps) && OnlyWorker(steps, h)
    ensures OnlyMoved(s, t, h) && t.jobs[h].pc.Unwinding?
    ensures t.locks == map target | target in s.locks && s.locks[target] != h :: s.locks[target]
    decreases Left(s.jobs[h].pc)
  {
    var rest, m;
    var step := Move1(h, s.jobs[h].pc);
    if s.jobs[h].pc.Settled? {
      m := HolderReleases(s, h);
      rest, t := [], m;
    } else {
      HolderMoves(s, h);
      m := Apply(s, step);
      rest, t := RunOff(m, h);
      hide Enabled, Apply, Left;
      OnlyMovedOn(s, m, t, h);
    }
    hide Enabled, Apply, OnlyMoved;
    steps := [step] + rest;
    assert steps[1..] == rest;
  }

  /** The target is free, with no more than its holder having moved. */
  lemma FreeTarget(s: State, target: string, j: nat) returns (steps: seq<Step>, t: State)
    requires (forall x | x in s.locks :: Holds(s, s.locks[x], x)) && FlightInv(s)
    requires j in s.jobs && (target in s.locks ==> s.locks[target] != j)
    ensures Leads(s, steps, t) && Working(steps)
    ensures target !in t.locks && (forall x | x in t.locks :: x in s.locks && t.locks[x] == s.locks[x] && Holds(t, t.locks[x], x))
    ensures j in t.jobs && t.jobs[j] == s.jobs[j] && t.jobs.Keys == s.jobs.Keys && t.scheduled == s.scheduled
    ensures t.history == s.history && t.tables.fences == s.tables.fences && t.tables.rows.Keys == s.tables.rows.Keys && FlightInv(t)
    ensures s.jobs[j].key in s.tables.rows ==> t.tables.rows[s.jobs[j].key] == s.tables.rows[s.jobs[j].key]
  {
    if target in s.locks {
      var h := s.locks[target];
      steps, t := RunOff(s, h);
      FlightAgain(s, t, h);
      HoldAgain(s, t, h);
    } else {
      steps, t := [], s;
    }
  }

  lemma FlightAgain(s: State, t: State, h: nat)
    requires FlightInv(s) && OnlyMoved(s, t, h)
    ensures FlightInv(t) && t.tables.rows.Keys == s.tables.rows.Keys
  {
    forall k | k in t.scheduled ensures HasJob(t, k) {
      var j :| j in s.jobs && s.jobs[j].key == k;
      assert j in t.jobs && t.jobs[j].key == k;
    }
  }

  lemma HoldAgain(s: State, t: State, h: nat)
    requires OnlyMoved(s, t, h) && forall x | x in s.locks :: Holds(s, s.locks[x], x)
    requires t.locks == map target | target in s.locks && s.locks[target] != h :: s.locks[target]
    ensures forall x | x in t.locks :: x in s.locks && t.locks[x] == s.locks[x] && Holds(t, t.locks[x], x)
  {
    forall x | x in t.locks ensures x in s.locks && t.locks[x] == s.locks[x] && Holds(t, t.locks[x], x) {
      assert Holds(s, s.locks[x], x);
    }
  }

  // ---------------------------------------------------------------- a waiting worker goes by the row it finds

  lemma ToCurrent(s: State, j: nat) returns (steps: seq<Step>, t: State)
    requires j in s.jobs && (s.jobs[j].pc.Fetched? || s.jobs[j].pc.Locked?)
    requires s.jobs[j].pc.Fetched? ==> LockTarget(s.jobs[j].pc) !in s.locks
    requires SupersedingFence(s.tables, s.jobs[j].key) == Ok(None)
    ensures Working(steps) && Leads(s, steps, t)
    ensures j in t.jobs && t.jobs[j].pc.Current? && t.tables == s.tables && OnlyMoved(s, t, j)
    ensures forall x | x in t.locks :: x in s.locks || x == LockTarget(s.jobs[j].pc)
  {
    if s.jobs[j].pc.Fetched? {
      steps, t := FlyToCurrent(s, j);
    } else {
      steps, t := [Check(j)], Apply(s, Check(j));
      assert Leads(t, [], t);
    }
  }

  lemma ToMarked(s: State, j: nat, now: int) returns (steps: seq<Step>, t: State)
    requires j in s.jobs && (s.jobs[j].pc.Current? || s.jobs[j].pc.Entered?) && Open(s, s.jobs[j].key)
    ensures Working(steps) && Leads(s, steps, t)
    ensures OnlyMoved(s, t, j) && t.locks == s.locks
    ensures t.jobs[j].pc.Marked? && RowEntry(t.jobs[j].pc.r) == RowEntry(s.tables.rows[s.jobs[j].key])
  {
    if s.jobs[j].pc.Current? {
      steps, t := FlyToMarked(s, j, now);
    } else {
      steps, t := [Reread(j)], Apply(s, Reread(j));
      assert Leads(t, [], t);
    }
  }

  lemma Adopts(s: State, j: nat, now: int) returns (steps: seq<Step>, t: State)
    requires j in s.jobs && Waiting(s.jobs[j].pc) && Open(s, s.jobs[j].key)
    requires s.jobs[j].pc.Fetched? ==> LockTarget(s.jobs[j].pc) !in s.locks
    requires SupersedingFence(s.tables, s.jobs[j].key) == Ok(None)
    ensures Working(steps) && Leads(s, steps, t)
    ensures OnlyMoved(s, t, j)
    ensures t.jobs[j].pc.Marked? && RowEntry(t.jobs[j].pc.r) == RowEntry(s.tables.rows[s.jobs[j].key])
    ensures forall x | x in t.locks :: x in s.locks || x == LockTarget(s.jobs[j].pc)
  {
    hide Leads, Apply, Enabled, SupersedingFence;
    if s.jobs[j].pc.Fetched? || s.jobs[j].pc.Locked? {
      var p, m := ToCurrent(s, j);
      var q;
      q, t := ToMarked(m, j, now);
      LeadsJoin(s, p, m, q, t);
      OnlyMovedOn(s, m, t, j);
      steps := p + q;
    } else {
      steps, t := ToMarked(s, j, now);
    }
  }

  // ---------------------------------------------------------------- after an uncalm delivery

  /** Worker `j` waits under the id of `e`, just accepted, with a record for another instance. */
  ghost predicate Caught(s: State, j: nat, e: Entry) {
    && j in s.jobs && s.jobs[j].key == EntryKey(e) && Waiting(s.jobs[j].pc)
    && s.jobs[j].pc.r.command.instance != e.command.instance
    && EntryKey(e) in s.tables.rows && RowEntry(s.tables.rows[EntryKey(e)]) == e && s.tables.rows[EntryKey(e)].status.Received?
    && EntrySlot(e) in s.tables.fences && s.tables.fences[EntrySlot(e)] == e.command.fence
    && FlightInv(s)
    && (forall x | x in s.locks :: Holds(s, s.locks[x], x))
  }

  lemma UncalmCatches(s: State, e: Entry, now: int) returns (j: nat)
    requires FlightInv(s) && LockInv(s) && !Calm(s, e)
    ensures Caught(Apply(s, Deliver(e, now)), j, e)
  {
    j :| j in s.jobs && s.jobs[j].key == EntryKey(e) && Waiting(s.jobs[j].pc) && s.jobs[j].pc.r.command.instance != e.command.instance;
    var m := Apply(s, Deliver(e, now));
    assert m.jobs == s.jobs && m.scheduled == s.scheduled && m.locks == s.locks;
    assert m.tables.rows == s.tables.rows[EntryKey(e) := NewRow(e, now)];
    hide Apply, Accepts, Calm, Receive;
    forall k | k in m.scheduled ensures HasJob(m, k) { assert HasJob(s, k); }
    forall x | x in m.locks ensures Holds(m, m.locks[x], x) { assert Holds(s, s.locks[x], x); }
  }

  /** The target of a caught worker that has no lock yet. */
  lemma FreeOwn(s: State, j: nat, e: Entry) returns (steps: seq<Step>, t: State)
    requires Caught(s, j, e)
    ensures Leads(s, steps, t) && Working(steps) && Caught(t, j, e) && t.jobs[j] == s.jobs[j]
    ensures t.jobs[j].pc.Fetched? ==> LockTarget(t.jobs[j].pc) !in t.locks
  {
    assert Leads(s, [], s);
    hide Leads;
    if s.jobs[j].pc.Fetched? {
      var target := LockTarget(s.jobs[j].pc);
      if target in s.locks { assert Holds(s, s.locks[target], target); }
      steps, t := FreeTarget(s, target, j);
    } else {
      steps, t := [], s;
    }
  }

  lemma FreeOther(s: State, j: nat, e: Entry) returns (steps: seq<Step>, t: State)
    requires Caught(s, j, e) && (s.jobs[j].pc.Fetched? ==> LockTarget(s.jobs[j].pc) !in s.locks)
    ensures Leads(s, steps, t) && Working(steps) && Caught(t, j, e)
    ensures t.jobs[j].pc.Fetched? ==> LockTarget(t.jobs[j].pc) !in t.locks
    ensures TargetKey(e.command.instance) !in t.locks
  {
    var target := TargetKey(e.command.instance);
    TargetKeyIdentifiesInstance(s.jobs[j].pc.r.command.instance, e.command.instance);
    if target in s.locks { assert Holds(s, s.locks[target], target); }
    hide Leads;
    steps, t := FreeTarget(s, target, j);
  }

  /** Worker `j` holds the wrong lock, has the record of `e`, and the instance of `e` is free. */
  ghost predicate Misled(s: State, j: nat, e: Entry) {
    && j in s.jobs && s.jobs[j].pc.Marked? && RowEntry(s.jobs[j].pc.r) == e
    && TargetKey(e.command.instance) !in s.locks
    && EntrySlot(e) in s.tables.fences && s.tables.fences[EntrySlot(e)] == e.command.fence
    && FlightInv(s)
  }

  lemma NotSuperseded(s: State, j: nat, e: Entry)
    requires Caught(s, j, e)
    ensures SupersedingFence(s.tables, s.jobs[j].key) == Ok(None) && Open(s, s.jobs[j].key)
  {
  }

  lemma MisledNow(s: State, j: nat, e: Entry, now: int) returns (steps: seq<Step>, t: State)
    requires Caught(s, j, e) && TargetKey(e.command.instance) !in s.locks
    requires s.jobs[j].pc.Fetched? ==> LockTarget(s.jobs[j].pc) !in s.locks
    ensures Leads(s, steps, t) && Working(steps) && Misled(t, j, e)
  {
    hide Leads;
    NotSuperseded(s, j, e);
    TargetKeyIdentifiesInstance(s.jobs[j].pc.r.command.instance, e.command.instance);
    steps, t := Adopts(s, j, now);
    FlightAgain(s, t, j);
  }

  lemma Misleads(s: State, j: nat, e: Entry, now: int) returns (steps: seq<Step>, t: State)
    requires Caught(s, j, e)
    ensures Leads(s, steps, t) && Working(steps) && Misled(t, j, e)
  {
    hide Leads, Caught, Misled;
    var p, a := FreeOwn(s, j, e);
    var q, b := FreeOther(a, j, e);
    LeadsJoin(s, p, a, q, b);
    var o, c := MisledNow(b, j, e, now);
    LeadsJoin(s, p + q, b, o, c);
    steps, t := p + q + o, c;
  }

  // ---------------------------------------------------------------- a newer command for the same instance

  /** A command of the same Hub for the same instance, with the next fence. */
  function Newer(e: Entry, id: string, key: string): Entry {
    Entry(e.hub, Command(id, key, "stop_instance", e.command.instance, e.command.fence + 1, "{}"))
  }

  lemma NewerComes(s: State, e: Entry) returns (x: Entry)
    requires EntrySlot(e) in s.tables.fences && s.tables.fences[EntrySlot(e)] == e.command.fence
    ensures EntrySlot(x) == EntrySlot(e) && x.command.instance == e.command.instance && x.command.fence == e.command.fence + 1
    ensures Accepts(s.tables, x) && EntryKey(x) !in s.scheduled
  {
    var id := FreshName((set k | k in s.tables.rows :: k.id) + (set k | k in s.scheduled :: k.id));
    var key := FreshName(set k | k in s.tables.rows :: s.tables.rows[k].command.idempotencyKey);
    x := Newer(e, id, key);
    assert EntryKey(x) !in s.tables.rows && EntryKey(x) !in s.scheduled;
    forall k ensures !HasIdempotencyKey(s.tables.rows, e.hub, key, k) { }
  }

  /** It is accepted, calmly, and can be scheduled. */
  lemma NewerCanFly(s: State, e: Entry, x: Entry, j: nat, n: nat, now: int)
    requires Misled(s, j, e) && n !in s.jobs
    requires EntrySlot(x) == EntrySlot(e) && x.command.instance == e.command.instance
    requires Accepts(s.tables, x) && EntryKey(x) !in s.scheduled
    ensures
      var d := Deliver(x, now);
      var u, r := Apply(s, d), NewRow(x, now);
      && Calm(s, x) && Returns(s, d, r) && CanFly(u, r, n) && StillThere(r, u) && Open(u, RowKey(r))
      && u.jobs == s.jobs && u.trace == s.trace
  {
    assert Apply(s, Deliver(x, now)).tables == Tables(s.tables.rows[EntryKey(x) := NewRow(x, now)], s.tables.fences[EntrySlot(x) := x.command.fence]);
    hide Accepts, Receive;
  }

  /** Two effects for one instance, the later one with the lower fence. */
  ghost predicate Broken(s: State) { !Excludes(s) && !FenceOrdered(s.trace) }

  lemma BothRun(u: State, v: State, w: State, j: nat, n: nat, r: Row, e: Entry)
    requires Airborne(u, v, r, n) && j in u.jobs && u.jobs[j].pc.Marked? && RowEntry(u.jobs[j].pc.r) == e
    requires RowSlot(r) == EntrySlot(e) && r.command.instance == e.command.instance && r.command.fence > e.command.fence
    requires j in v.jobs && w.jobs == v.jobs[j := Job(v.jobs[j].key, Running(v.jobs[j].pc.r))]
    requires w.trace == v.trace + [Effect(RowEntry(v.jobs[j].pc.r), v.life)]
    ensures Broken(w)
  {
    assert w.jobs[j].pc.Running? && w.jobs[n].pc.Running? && j != n;
    assert w.jobs[n].pc.r.command == r.command;
    var a := |u.trace|;
    assert w.trace[a].entry == RowEntry(r) && w.trace[a + 1].entry == e;
  }

  lemma FreshNumber(used: set<nat>) returns (n: nat)
    ensures n !in used
    decreases used
  {
    n := 0;
    var rest := used;
    while rest != {}
      invariant rest <= used && forall u | u in used && u !in rest :: u < n
    {
      var u :| u in rest;
      n, rest := if u < n then n else u + 1, rest - {u};
    }
  }

  /** A delivery of the newer command and its flight, then the misled worker begins. */
  lemma NewerOvertakes(s: State, j: nat, e: Entry, now: int) returns (steps: seq<Step>, w: State)
    requires Misled(s, j, e)
    ensures Leads(s, steps, w) && Each(Calm, s, steps) && Balanced(s, steps) && Broken(w)
  {
    hide Leads, Enabled, Apply, Each, Calm, CanFly, Returns, Broken, Accepts, Balanced, FlightInv;
    var x := NewerComes(s, e);
    var n := FreshNumber(s.jobs.Keys);
    NewerCanFly(s, e, x, j, n, now);
    var d, r := Deliver(x, now), NewRow(x, now);
    DeliverIsEnabled(s, x, now);
    var u := Apply(s, d);
    var p, v := TakeOff(u, r, n, now);
    var q;
    q, w := FlyToRunning(v, j);
    BothRun(u, v, w, j, n, r, e);
    hide Misled, Airborne;
    OneStep(s, d);
    LeadsJoin(s, [d], u, p, v);
    LeadsJoin(s, [d] + p, v, q, w);
    DeliveryThenFlight(s, d, p, v, r);
    QuietIsBalanced(v, q, w);
    BalancedJoin(s, [d] + p, v, q, w);
    FlightThenWork(p, q, r);
    NoDeliveryIsEach(Calm, u, p + q);
    EachFirst(Calm, s, d, p + q);
    steps := [d] + p + q;
    assert steps == [d] + (p + q);
  }

  lemma DeliverIsEnabled(s: State, e: Entry, now: int)
    ensures Enabled(s, Deliver(e, now))
  {
  }

  lemma FlightThenWork(p: seq<Step>, q: seq<Step>, r: Row)
    requires OneFlight(p, r) && Working(q)
    ensures NoDelivery(p + q)
  {
    forall i | 0 <= i < |p + q| ensures !(p + q)[i].Deliver? {
      if 0 < i < |p| { assert (p + q)[i] == p[1..][i - 1]; }
    }
  }

  lemma CalmParts(s: State)
    requires CalmInv(s)
    ensures FlightInv(s) && LockInv(s)
  {
  }

  /** After an uncalm delivery some run of calm deliveries, each read used once, breaks both properties. */
  lemma UncalmBreaks(s: State, e: Entry, now: int) returns (steps: seq<Step>, t: State)
    requires CalmInv(s) && !Calm(s, e)
    ensures Leads(Apply(s, Deliver(e, now)), steps, t) && Each(Calm, Apply(s, Deliver(e, now)), steps)
    ensures Balanced(Apply(s, Deliver(e, now)), steps) && Broken(t)
  {
    hide Apply, Enabled, Calm, CalmInv, FlightInv, LockInv, Caught, Misled, Broken, Leads, Each, Balanced;
    DeliverIsEnabled(s, e, now);
    var m := Apply(s, Deliver(e, now));
    CalmParts(s);
    var j := UncalmCatches(s, e, now);
    var p, a := Misleads(m, j, e, now);
    var q;
    q, t := NewerOvertakes(a, j, e, now);
    LeadsJoin(m, p, a, q, t);
    NoDeliveryIsEach(Calm, m, p);
    EachJoin(Calm, m, p, a, q);
    QuietIsBalanced(m, p, a);
    BalancedJoin(m, p, a, q, t);
    steps := p + q;
  }

  /**
    From every state that calm deliveries lead to: a delivery is calm if and only if after it every run of calm
    deliveries keeps at most one effect running per instance.
   */
  lemma ExclusionExactlyWhen(before: seq<Step>, s: State, e: Entry, now: int)
    requires Leads(INITIAL, before, s) && Each(Calm, INITIAL, before)
    ensures
      var m := Apply(s, Deliver(e, now));
      Calm(s, e) <==> forall steps, t | Leads(m, steps, t) && Each(Calm, m, steps) :: Excludes(t)
  {
    hide Leads, Each, CalmInv, Excludes, FenceOrdered, Apply, Enabled;
    ReachableCalm(before, s);
    if Calm(s, e) {
      CalmStaysCalm(s, e, now);
    } else {
      var steps, t := UncalmBreaks(s, e, now);
    }
  }

  lemma CalmStaysCalm(s: State, e: Entry, now: int)
    requires CalmInv(s) && Calm(s, e)
    ensures
      var m := Apply(s, Deliver(e, now));
      forall steps, t | Leads(m, steps, t) && Each(Calm, m, steps) :: Excludes(t) && FenceOrdered(t.trace)
  {
    var m := Apply(s, Deliver(e, now));
    NextCalm(s, Deliver(e, now));
    hide Leads, Each, Apply, Excludes, FenceOrdered;
    forall steps, t | Leads(m, steps, t) && Each(Calm, m, steps) ensures Excludes(t) && FenceOrdered(t.trace) {
      RunKeepsCalm(m, steps, t);
      CalmExcludes(t);
    }
  }

  /** The same for the order of the fences. */
  lemma FenceOrderExactlyWhen(before: seq<Step>, s: State, e: Entry, now: int)
    requires Leads(INITIAL, before, s) && Each(Calm, INITIAL, before)
    ensures
      var m := Apply(s, Deliver(e, now));
      Calm(s, e) <==> forall steps, t | Leads(m, steps, t) && Each(Calm, m, steps) :: FenceOrdered(t.trace)
  {
    hide Leads, Each, CalmInv, Excludes, FenceOrdered, Apply, Enabled;
    ReachableCalm(before, s);
    if Calm(s, e) {
      CalmStaysCalm(s, e, now);
    } else {
      var steps, t := UncalmBreaks(s, e, now);
    }
  }
}
