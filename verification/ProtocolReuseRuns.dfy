/**
  Runs in which the id of a purged command is used again: a delivery that is not calm can come, and the theorems that
  need more than calm deliveries fail.
 */
module ProtocolReuseRuns {
  import opened Common
  import opened Journal
  import opened Protocol
  import opened ProtocolSteps
  import opened ProtocolInvariant
  import opened ProtocolCalm
  import opened ProtocolProgress
  import opened ProtocolReads
  import opened ProtocolFlights
  import opened ProtocolSample
  import opened ProtocolReuse
  import opened ProtocolSafety
  import opened ProtocolAccount
  import opened ProtocolEffects
  import opened ProtocolIds

  const REUSED := Entry("hub", Command("c", "k2", "stop_instance", Some("j"), 1, "{}"))

  /** A run from the empty journal, of calm deliveries, in which no caller acts twice on what it read once. */
  ghost predicate CalmRun(steps: seq<Step>, s: State) {
    Leads(INITIAL, steps, s) && Each(Calm, INITIAL, steps) && EachReadUsedOnce(steps)
  }

  lemma CalmRunLeads(steps: seq<Step>, s: State)
    requires CalmRun(steps, s)
    ensures Leads(INITIAL, steps, s)
  {
  }

  lemma MoreCalm(before: seq<Step>, s: State, steps: seq<Step>, s': State)
    requires CalmRun(before, s) && Leads(s, steps, s') && NoDelivery(steps) && Quiet(steps)
    ensures CalmRun(before + steps, s')
  {
    hide Leads, Each, EachReadUsedOnce, Quiet;
    LeadsJoin(INITIAL, before, s, steps, s');
    NoDeliveryIsEach(Calm, s, steps);
    EachJoin(Calm, INITIAL, before, s, steps);
    QuietIsUsedOnce(before, s, steps, s');
  }

  lemma Confirmed(s: State) returns (t: State)
    requires s.tables.rows.Keys == {SAMPLE_KEY} && s.tables.rows[SAMPLE_KEY].status == Succeeded
    ensures Enabled(s, HubConfirms(SAMPLE_KEY, Succeeded, 0)) && t == Apply(s, HubConfirms(SAMPLE_KEY, Succeeded, 0))
    ensures t == s.(tables := t.tables) && t.tables.fences == s.tables.fences
    ensures t.tables.rows.Keys == {SAMPLE_KEY} && Purgeable(t.tables.rows[SAMPLE_KEY]) && t.tables.rows[SAMPLE_KEY].updatedAt == 0
  {
    t := Apply(s, HubConfirms(SAMPLE_KEY, Succeeded, 0));
  }

  lemma Cleaned(s: State) returns (t: State)
    requires s.tables.rows.Keys == {SAMPLE_KEY} && Purgeable(s.tables.rows[SAMPLE_KEY]) && s.tables.rows[SAMPLE_KEY].updatedAt == 0
    ensures Enabled(s, Clean({SAMPLE_KEY}, DAY)) && t == Apply(s, Clean({SAMPLE_KEY}, DAY))
    ensures t == s.(tables := Tables(map[], s.tables.fences))
  {
    t := Apply(s, Clean({SAMPLE_KEY}, DAY));
    assert t.tables.rows == map[];
  }

  const TIDY: seq<Step> := [HubConfirms(SAMPLE_KEY, Succeeded, 0)] + [Clean({SAMPLE_KEY}, DAY)]

  /** SAMPLE is confirmed, and purged a day later. */
  lemma Purged(before: seq<Step>, s: State) returns (t: State)
    requires CalmRun(before, s)
    requires s.tables.rows.Keys == {SAMPLE_KEY} && s.tables.rows[SAMPLE_KEY].status == Succeeded
    ensures CalmRun(before + TIDY, t) && t == s.(tables := Tables(map[], s.tables.fences))
  {
    hide Leads, Apply, Enabled, CalmRun;
    var m := Confirmed(s);
    t := Cleaned(m);
    OneStep(s, TIDY[0]);
    OneStep(m, TIDY[1]);
    LeadsJoin(s, [TIDY[0]], m, [TIDY[1]], t);
    MoreCalm(before, s, TIDY, t);
  }

  /** That happens while a worker that read its row waits for the lock of instance i. */
  lemma PurgedUnderWorker() returns (steps: seq<Step>, s: State)
    ensures CalmRun(steps, s)
    ensures s.tables == Tables(map[], map[EntrySlot(SAMPLE) := 1]) && s.history == {SAMPLE}
    ensures s.locks == map[] && s.jobs.Keys == {0} && s.scheduled == {SAMPLE_KEY}
    ensures s.jobs[0].key == SAMPLE_KEY && s.jobs[0].pc.Fetched? && RowEntry(s.jobs[0].pc.r) == SAMPLE
  {
    hide Leads, Apply, Enabled, EachReadUsedOnce, HeldBy, Each;
    var p, m := FinishedWithOneRead();
    var r := NewRow(SAMPLE, 0);
    var q, n := FlyToFetched(m, r, 0);
    LeadsJoin(INITIAL, p, m, q, n);
    FlightIsUsedOnce(p, m, q, n, r);
    FlightThenWork(q, [], r);
    assert q + [] == q;
    NoDeliveryIsEach(Calm, m, q);
    EachJoin(Calm, INITIAL, p, m, q);
    s := Purged(p + q, n);
    steps := p + q + TIDY;
    assert Leads(INITIAL, steps, s) by { CalmRunLeads(steps, s); }
    SingleFlight(steps, s);
  }

  lemma ReusedIsAccepted(s: State)
    requires s.tables == Tables(map[], map[EntrySlot(SAMPLE) := 1])
    ensures Accepts(s.tables, REUSED)
  {
    assert EntrySlot(REUSED) != EntrySlot(SAMPLE) by { TargetKeyIdentifiesInstance(Some("i"), Some("j")); }
  }

  /**
    A delivery that is not calm can come, and then a run of calm deliveries ends with two effects running for one
    instance, the later one with the lower fence; no caller acts twice on what it read once.
   */
  lemma ReuseBreaksMutualExclusion()
    ensures exists before, s, after, t :: CalmRun(before, s) && !Calm(s, REUSED)
              && Leads(Apply(s, Deliver(REUSED, DAY)), after, t) && Each(Calm, Apply(s, Deliver(REUSED, DAY)), after)
              && EachReadUsedOnce(before + [Deliver(REUSED, DAY)] + after) && !Excludes(t) && !FenceOrdered(t.trace)
  {
    var before, s := PurgedUnderWorker();
    ReusedIsAccepted(s);
    assert !Calm(s, REUSED);
    hide Leads, Apply, Enabled, EachReadUsedOnce, Each, Calm, Accepts, Balanced, CalmInv;
    ReachableCalm(before, s);
    var after, t := UncalmBreaks(s, REUSED, DAY);
    var d := Deliver(REUSED, DAY);
    DeliverIsEnabled(s, REUSED, DAY);
    OneStep(s, d);
    QuietIsUsedOnce(before, s, [d], Apply(s, d));
    LeadsJoin(INITIAL, before, s, [d], Apply(s, d));
    assert forall r :: Matched(Apply(s, d), after, r, 0) by { BalancedIsMatched(Apply(s, d), after); }
    FollowsUsedOnce(before + [d], Apply(s, d), after);
  }

  lemma BalancedIsMatched(s: State, steps: seq<Step>)
    requires Balanced(s, steps)
    ensures forall r :: Matched(s, steps, r, 0)
  {
  }

  // ---------------------------------------------------------------- a cleared worker adopts an overtaken command

  lemma ReusedComes(s: State) returns (t: State)
    requires s.tables == Tables(map[], map[EntrySlot(SAMPLE) := 1])
    ensures t == Apply(s, Deliver(REUSED, DAY)) && t.jobs == s.jobs && t.locks == s.locks
    ensures t.tables == Tables(map[SAMPLE_KEY := NewRow(REUSED, DAY)], map[EntrySlot(SAMPLE) := 1, EntrySlot(REUSED) := 1])
    ensures SupersedingFence(t.tables, SAMPLE_KEY) == Ok(None)
  {
    ReusedIsAccepted(s);
    assert EntrySlot(REUSED) != EntrySlot(SAMPLE) by { TargetKeyIdentifiesInstance(Some("i"), Some("j")); }
    t := Apply(s, Deliver(REUSED, DAY));
  }

  const NEWER := Newer(REUSED, "d", "k3")

  lemma NewerFollows(s: State) returns (t: State)
    requires s.tables == Tables(map[SAMPLE_KEY := NewRow(REUSED, DAY)], map[EntrySlot(SAMPLE) := 1, EntrySlot(REUSED) := 1])
    ensures t == Apply(s, Deliver(NEWER, DAY)) && t.jobs == s.jobs
    ensures Outdated(t, EntrySlot(REUSED), 1) && SAMPLE_KEY in t.tables.rows && t.tables.rows[SAMPLE_KEY] == NewRow(REUSED, DAY)
  {
    assert Accepts(s.tables, NEWER) by {
      forall k ensures !HasIdempotencyKey(s.tables.rows, "hub", "k3", k) { }
    }
    t := Apply(s, Deliver(NEWER, DAY));
  }

  /**
    Not its record but the row of its id tells what a worker between its fence check and the re-read will run: here each
    such worker has the record of another command than REUSED, which is out of date, and yet REUSED runs.
   */
  lemma OvertakenByRecordRuns()
    ensures exists steps, s, rest, t :: Leads(INITIAL, steps, s) && Outdated(s, EntrySlot(REUSED), REUSED.command.fence)
              && (forall j | j in s.jobs && Cleared(s.jobs[j].pc) :: RowEntry(s.jobs[j].pc.r) != REUSED)
              && Leads(s, rest, t) && !GrownWithout(s, t, REUSED)
  {
    hide Leads, Apply, Enabled, EachReadUsedOnce, Each, CalmRun, GrownWithout, Outdated;
    var p, a := PurgedUnderWorker();
    assert Leads(INITIAL, p, a) by { CalmRunLeads(p, a); }
    var b := ReusedComes(a);
    DeliverIsEnabled(a, REUSED, DAY);
    LeadsThen(INITIAL, p, a, Deliver(REUSED, DAY));
    var q, c := FlyToCurrent(b, 0);
    LeadsJoin(INITIAL, p + [Deliver(REUSED, DAY)], b, q, c);
    var s := NewerFollows(c);
    DeliverIsEnabled(c, NEWER, DAY);
    LeadsThen(INITIAL, p + [Deliver(REUSED, DAY)] + q, c, Deliver(NEWER, DAY));
    assert Due(s, 0) == Some(REUSED);
    var rest, t := DueRuns(s, 0, REUSED);
    RanIsNotWithout(s, t, REUSED);
  }

  // ---------------------------------------------------------------- a worker finishes another command's row

  /** SAMPLE is being run a second time while its row is purged. */
  lemma PurgedUnderEffect() returns (steps: seq<Step>, s: State)
    ensures CalmRun(steps, s) && Each(NewId, INITIAL, steps)
    ensures s.tables == Tables(map[], map[EntrySlot(SAMPLE) := 1])
    ensures s.jobs.Keys == {0} && s.jobs[0].key == SAMPLE_KEY && s.jobs[0].pc.Running?
  {
    hide Leads, Apply, Enabled, EachReadUsedOnce, HeldBy, Each;
    var p, m := FinishedWithOneRead();
    var r := NewRow(SAMPLE, 0);
    var q, n := SecondFlight(m, r, 0);
    LeadsJoin(INITIAL, p, m, q, n);
    FlightIsUsedOnce(p, m, q, n, r);
    FlightThenWork(q, [], r);
    assert q + [] == q;
    NoDeliveryIsEach(Calm, m, q);
    EachJoin(Calm, INITIAL, p, m, q);
    NoDeliveryIsEach(NewId, m, q);
    EachJoin(NewId, INITIAL, p, m, q);
    s := Purged(p + q, n);
    NoDeliveryIsEach(NewId, n, TIDY);
    EachJoin(NewId, INITIAL, p + q, n, TIDY);
    steps := p + q + TIDY;
  }

  /**
    A delivery that is not fair can come: the worker will finish the row of the new command, and then another worker is
    about to run a command with a terminal record although nobody has run it or given it up.
   */
  lemma ReuseHidesRepeats()
    ensures exists before, s, after, t :: Leads(INITIAL, before, s) && Each(Fair, INITIAL, before) && !Fair(s, REUSED)
              && Leads(Apply(s, Deliver(REUSED, DAY)), after, t) && Each(Fair, Apply(s, Deliver(REUSED, DAY)), after) && !TellsRepeats(t)
  {
    var before, s := PurgedUnderEffect();
    ReusedIsAccepted(s);
    assert !Fair(s, REUSED);
    assert Leads(INITIAL, before, s) by { CalmRunLeads(before, s); }
    hide Leads, Apply, Enabled, Each, Fair, Accepts, CalmRun, TellsRepeats;
    NewIdsAreHarmless(INITIAL, before, s);
    RunKeepsLocksHeld(INITIAL, before, s);
    var after, t := UnfairMisleads(s, REUSED, DAY);
    NoDeliveryIsEach(Fair, Apply(s, Deliver(REUSED, DAY)), after);
  }
}
