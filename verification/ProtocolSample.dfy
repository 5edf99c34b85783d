/** A run that several of the concrete ones begin with. */
module ProtocolSample {
  import opened Common
  import opened Journal
  import opened Protocol
  import opened ProtocolSteps
  import opened ProtocolInvariant
  import opened ProtocolCalm
  import opened ProtocolProgress
  import opened ProtocolReads
  import opened ProtocolFlights

  const SAMPLE := Entry("hub", Command("c", "k", "stop_instance", Some("i"), 1, "{}"))

  const SAMPLE_KEY := EntryKey(SAMPLE)

  const TWICE: seq<Step> := [Deliver(SAMPLE, 0)] + [Deliver(SAMPLE, 0)]

  lemma SampleAccepted() returns (m: State)
    ensures Enabled(INITIAL, Deliver(SAMPLE, 0)) && m == Apply(INITIAL, Deliver(SAMPLE, 0)) && Accepts(EMPTY, SAMPLE)
    ensures m == INITIAL.(tables := m.tables, history := {SAMPLE}, seen := {NewRow(SAMPLE, 0)})
    ensures m.tables == Tables(map[EntryKey(SAMPLE) := NewRow(SAMPLE, 0)], map[EntrySlot(SAMPLE) := 1])
  {
    assert Accepts(EMPTY, SAMPLE);
    m := Apply(INITIAL, Deliver(SAMPLE, 0));
  }

  lemma SampleAnswered(m: State)
    requires m == INITIAL.(tables := m.tables, history := {SAMPLE}, seen := {NewRow(SAMPLE, 0)})
    requires m.tables == Tables(map[EntryKey(SAMPLE) := NewRow(SAMPLE, 0)], map[EntrySlot(SAMPLE) := 1])
    ensures Enabled(m, Deliver(SAMPLE, 0)) && Apply(m, Deliver(SAMPLE, 0)) == m
    ensures Receive(m.tables, SAMPLE, 0) == Receipt(m.tables, Ok(NewRow(SAMPLE, 0)))
  {
    UniqueExisting(m.tables.rows, "hub", "k", EntryKey(SAMPLE));
  }

  /** The journal has accepted SAMPLE, and it has been delivered again: two callers hold the same record. */
  lemma SampleDelivered() returns (s: State)
    ensures Leads(INITIAL, TWICE, s)
    ensures CanFly(s, NewRow(SAMPLE, 0), 0) && Open(s, RowKey(NewRow(SAMPLE, 0)))
    ensures s.trace == [] && s.jobs == map[] && s.locks == map[] && s.history == {SAMPLE}
    ensures s.tables == Tables(map[EntryKey(SAMPLE) := NewRow(SAMPLE, 0)], map[EntrySlot(SAMPLE) := 1])
    ensures Each(NewId, INITIAL, TWICE) && Each(Calm, INITIAL, TWICE)
    ensures EachReadUsedOnce(TWICE) && Matched(INITIAL, TWICE, NewRow(SAMPLE, 0), 0)
    ensures HeldBy(INITIAL, TWICE, NewRow(SAMPLE, 0), 0) == 2
  {
    var r, step := NewRow(SAMPLE, 0), Deliver(SAMPLE, 0);
    s := SampleAccepted();
    SampleAnswered(s);
    assert TWICE[0] == step && TWICE[1..] == [step] && [step][1..] == [];
    hide Apply;
    assert Leads(s, [], s) && Leads(s, [step], s);
    assert NewId(INITIAL, SAMPLE) && NewId(s, SAMPLE) && Each(NewId, s, []) && Each(NewId, s, [step]);
    assert Calm(INITIAL, SAMPLE) && Calm(s, SAMPLE) && Each(Calm, s, []) && Each(Calm, s, [step]);
    assert HeldAfter(INITIAL, step, r, 0) == 1 && HeldAfter(s, step, r, 1) == 2;
    assert HeldBy(s, [], r, 2) == 2 && HeldBy(s, [step], r, 1) == 2;
    forall x ensures Matched(INITIAL, TWICE, x, 0) { QuietIsMatched(INITIAL, TWICE, s, x, 0); }
  }

  /** SAMPLE has been run and finished, and a second caller still holds the record it was answered with before. */
  lemma FinishedWithOneRead() returns (steps: seq<Step>, s: State)
    ensures
      var r := NewRow(SAMPLE, 0);
      && Leads(INITIAL, steps, s) && Each(NewId, INITIAL, steps) && Each(Calm, INITIAL, steps) && EachReadUsedOnce(steps) && HeldBy(INITIAL, steps, r, 0) > 0
      && CanFly(s, r, 0) && Finished(s, RowKey(r)) && s.trace == [Effect(SAMPLE, s.life)]
      && s.tables.rows[RowKey(r)].status == Succeeded && RowEntry(s.tables.rows[RowKey(r)]) == SAMPLE
      && s.jobs == map[] && s.locks == map[] && s.history == {SAMPLE}
      && s.tables.rows.Keys == {RowKey(r)} && s.tables.fences == map[EntrySlot(SAMPLE) := 1]
  {
    hide Leads, Apply, Enabled, EachReadUsedOnce, HeldBy, Each;
    var r := NewRow(SAMPLE, 0);
    var t := SampleDelivered();
    RunKeepsLocksHeld(INITIAL, TWICE, t);
    var p, m := WholeFlight(t, r, 0, 0);
    LeadsJoin(INITIAL, TWICE, t, p, m);
    NoDeliveryIsEach(Calm, t, p);
    EachJoin(Calm, INITIAL, TWICE, t, p);
    NoDeliveryIsEach(NewId, t, p);
    EachJoin(NewId, INITIAL, TWICE, t, p);
    FlightIsUsedOnce(TWICE, t, p, m, r);
    FlightIsMatched(t, p, m, r, r, 2);
    MatchedJoin(INITIAL, TWICE, t, p, r, 0);
    steps, s := TWICE + p, m;
  }
}
