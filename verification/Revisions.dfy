/**
  The semantic signature of a runtime state, the revision counter, and the sessions that send states to their hubs.
  JSON text with sorted keys is taken as the value it stands for.
 */
module Revisions {
  import opened Common
  import opened Sorting
  import opened Strings

  /** The fields of one instance; values are JSON texts. */
  type Instance = map<string, string>

  datatype State = State(instances: seq<Instance>, rest: map<string, string>)

  const Dropped: set<string> := {"drivers_seen_at", "log_drivers_seen_at"}

  function Stripped(i: Instance): Instance { i - Dropped }

  function IdOf(i: Instance): string { if "id" in i then i["id"] else "" }

  const BY_ID: Order<Instance> := (i: Instance, j: Instance) => AtMost(IdOf(i), IdOf(j))

  /** Stripped and sorted by id; equal ids keep their order. */
  function Comparable(s: seq<Instance>): seq<Instance>
    decreases |s|
  {
    if s == [] then [] else Insert(BY_ID, Stripped(s[0]), Comparable(s[1..]))
  }

  datatype Signature = Signature(instances: seq<Instance>, rest: map<string, string>)

  function SignatureOf(s: State): Signature { Signature(Comparable(s.instances), s.rest) }

  function AllStripped(s: seq<Instance>): (r: seq<Instance>)
    ensures |r| == |s| && forall i | 0 <= i < |s| :: r[i] == Stripped(s[i])
  {
    seq(|s|, i requires 0 <= i < |s| => Stripped(s[i]))
  }

  /** Two instances count as the same when they agree on everything but the two times at which drivers were seen. */
  lemma StrippedSame(i: Instance, j: Instance)
    ensures Stripped(i) == Stripped(j) <==>
            forall k: string | k != "drivers_seen_at" && k != "log_drivers_seen_at" ::
              (k in i <==> k in j) && (k in i && k in j ==> i[k] == j[k])
  {
    if Stripped(i) == Stripped(j) {
      forall k: string | k != "drivers_seen_at" && k != "log_drivers_seen_at"
        ensures (k in i <==> k in j) && (k in i && k in j ==> i[k] == j[k])
      {
        assert (k in i <==> k in Stripped(i)) && (k in j <==> k in Stripped(j));
        assert k in i && k in j ==> Stripped(i)[k] == Stripped(j)[k];
      }
    }
  }

  ghost predicate DistinctIds(s: seq<Instance>) {
    forall i, j | 0 <= i < j < |s| :: IdOf(s[i]) != IdOf(s[j])
  }

  /** The id is the field of that name. */
  lemma IdIsField(i: Instance, id: string)
    ensures IdOf(i[ "id" := id ]) == id && IdOf(i - {"id"}) == ""
  {
  }

  lemma IdsOrder(s: seq<Instance>)
    ensures Orders(BY_ID, s)
  {
    forall x, y ensures BY_ID(x, y) || BY_ID(y, x) { AtMostIsTotal(IdOf(x), IdOf(y)); }
    forall x, y, z | BY_ID(x, y) && BY_ID(y, z) ensures BY_ID(x, z) { AtMostIsTransitive(IdOf(x), IdOf(y), IdOf(z)); }
  }

  lemma {:induction false} ComparableSorts(s: seq<Instance>)
    ensures Ascending(BY_ID, Comparable(s)) && multiset(Comparable(s)) == multiset(AllStripped(s))
    decreases |s|
  {
    hide IdOf;
    if s != [] {
      ComparableSorts(s[1..]);
      IdsOrder([Stripped(s[0])] + Comparable(s[1..]));
      InsertSorts(BY_ID, Stripped(s[0]), Comparable(s[1..]));
      InsertAdds(BY_ID, Stripped(s[0]), Comparable(s[1..]));
      assert AllStripped(s) == [Stripped(s[0])] + AllStripped(s[1..]);
    }
  }

  lemma DistinctOrder(a: seq<Instance>)
    requires DistinctIds(a)
    ensures forall x, y | x in a && y in a && BY_ID(x, y) && BY_ID(y, x) :: x == y
  {
    forall x, y | x in a && y in a && BY_ID(x, y) && BY_ID(y, x) ensures x == y {
      AtMostIsTotal(IdOf(x), IdOf(y));
    }
  }

  lemma DistinctInAnyOrder(a: seq<Instance>, b: seq<Instance>)
    requires DistinctIds(a) && multiset(a) == multiset(b)
    ensures DistinctIds(b)
  {
    hide IdOf;
    assert |a| == |multiset(a)| == |multiset(b)| == |b|;
    forall i, j | 0 <= i < j < |b| ensures IdOf(b[i]) != IdOf(b[j]) {
      if IdOf(b[i]) == IdOf(b[j]) {
        TwiceIn(b, i, j);
        assert b[i] in multiset(a) && b[j] in multiset(a);
        var k :| 0 <= k < |a| && a[k] == b[i];
        var l :| 0 <= l < |a| && a[l] == b[j];
        assert k == l;
        OnceIn(a, k);
        assert false;
      }
    }
  }

  lemma TwiceIn(s: seq<Instance>, i: nat, j: nat)
    requires i < j < |s|
    ensures s[i] == s[j] ==> multiset(s)[s[i]] >= 2
  {
    assert s == s[..j] + s[j..] && s[j..] == [s[j]] + s[j + 1..];
    assert s[i] in s[..j];
  }

  lemma OnceIn(s: seq<Instance>, k: nat)
    requires DistinctIds(s) && k < |s|
    ensures multiset(s)[s[k]] == 1
  {
    hide IdOf;
    assert s == s[..k] + [s[k]] + s[k + 1..];
    assert s[k] !in s[..k] && s[k] !in s[k + 1..];
  }

  /**
    With distinct ids, two states have the same signature exactly when they have the same instances, whatever their
    order and whatever the two timestamps, and the same other facts.
   */
  lemma SignatureSays(a: State, b: State)
    requires DistinctIds(a.instances)
    ensures SignatureOf(a) == SignatureOf(b) <==>
            multiset(AllStripped(a.instances)) == multiset(AllStripped(b.instances)) && a.rest == b.rest
  {
    ComparableSorts(a.instances);
    ComparableSorts(b.instances);
    StrippedIds(a.instances);
    if multiset(AllStripped(a.instances)) == multiset(AllStripped(b.instances)) {
      DistinctInAnyOrder(AllStripped(a.instances), Comparable(a.instances));
      DistinctOrder(Comparable(a.instances));
      SortedIsUnique(BY_ID, Comparable(a.instances), Comparable(b.instances));
    }
  }

  lemma StrippedIds(s: seq<Instance>)
    requires DistinctIds(s)
    ensures DistinctIds(AllStripped(s))
  {
    forall i | 0 <= i < |s| ensures IdOf(AllStripped(s)[i]) == IdOf(s[i]) { assert "id" !in Dropped; }
  }

  /** Reordering the instances and sampling again do not change the signature. */
  lemma SignatureIgnores(a: State, b: State, order: seq<nat>)
    requires DistinctIds(a.instances) && a.rest == b.rest
    requires |order| == |a.instances| == |b.instances|
    requires forall i | 0 <= i < |order| :: order[i] < |order|
    requires forall i, j | 0 <= i < j < |order| :: order[i] != order[j]
    requires forall i | 0 <= i < |order| :: Stripped(b.instances[i]) == Stripped(a.instances[order[i]])
    ensures SignatureOf(a) == SignatureOf(b)
  {
    Shuffled(AllStripped(a.instances), AllStripped(b.instances), order);
    SignatureSays(a, b);
  }

  lemma {:induction false} Shuffled(a: seq<Instance>, b: seq<Instance>, order: seq<nat>)
    requires |order| == |a| == |b|
    requires forall i | 0 <= i < |order| :: order[i] < |order|
    requires forall i, j | 0 <= i < j < |order| :: order[i] != order[j]
    requires forall i | 0 <= i < |order| :: b[i] == a[order[i]]
    ensures multiset(a) == multiset(b)
    decreases |a|
  {
    if a != [] {
      var n, m := |a| - 1, order[|a| - 1];
      var fewer := a[..m] + a[m + 1..];
      var rest := seq(n, i requires 0 <= i < n => if order[i] < m then order[i] else order[i] - 1);
      forall i | 0 <= i < n ensures rest[i] < n && b[..n][i] == fewer[rest[i]] { }
      Shuffled(fewer, b[..n], rest);
      assert a == a[..m] + [a[m]] + a[m + 1..];
      assert b == b[..n] + [b[n]];
    }
  }

  // ---------------------------------------------------------------- the revision

  datatype Tracker = Tracker(revision: nat, signature: Option<Signature>, state: Option<State>)
  datatype Snapshot = Snapshot(revision: nat, payload: State)

  const NewTracker := Tracker(0, None, None)

  function Observed(t: Tracker, s: State): Tracker {
    var sig := SignatureOf(s);
    Tracker(if t.state.None? || t.signature != Some(sig) then t.revision + 1 else t.revision, Some(sig), Some(s))
  }

  /** How often the signature differs from the one before; the first one counts. */
  function Changes(h: seq<Signature>): nat
    decreases |h|
  {
    if h == [] then 0
    else Changes(h[..|h| - 1]) + if |h| >= 2 && h[|h| - 2] == h[|h| - 1] then 0 else 1
  }

  lemma {:induction false} ChangesGrow(h: seq<Signature>, i: nat, j: nat)
    requires i <= j <= |h|
    ensures Changes(h[..i]) <= Changes(h[..j])
    ensures 0 < i && Changes(h[..i]) == Changes(h[..j]) ==> h[i - 1] == h[j - 1]
    decreases j - i
  {
    if i < j {
      ChangesGrow(h, i, j - 1);
      assert h[..j][..j - 1] == h[..j - 1];
    }
  }

  /** The tracker after observing states with these signatures, in this order. */
  ghost predicate Tracks(t: Tracker, h: seq<Signature>) {
    && t.revision == Changes(h)
    && (h == [] <==> t.state.None?)
    && (h != [] ==> t.signature == Some(h[|h| - 1]) && SignatureOf(t.state.value) == h[|h| - 1])
  }

  lemma ObservedTracks(t: Tracker, h: seq<Signature>, s: State)
    requires Tracks(t, h)
    ensures Tracks(Observed(t, s), h + [SignatureOf(s)])
  {
    assert (h + [SignatureOf(s)])[..|h|] == h;
  }

  /** The snapshot was taken at some moment of the history. */
  ghost predicate From(h: seq<Signature>, m: Snapshot) {
    exists i :: 0 < i <= |h| && At(h, m, i)
  }

  ghost predicate At(h: seq<Signature>, m: Snapshot, i: nat)
    requires 0 < i <= |h|
  {
    m.revision == Changes(h[..i]) && SignatureOf(m.payload) == h[i - 1]
  }

  /** Equal revisions mean equal signatures. */
  lemma RevisionIdentifies(h: seq<Signature>, a: Snapshot, b: Snapshot)
    requires From(h, a) && From(h, b) && a.revision == b.revision
    ensures SignatureOf(a.payload) == SignatureOf(b.payload)
  {
    hide SignatureOf, Changes;
    var i :| 0 < i <= |h| && At(h, a, i);
    var j :| 0 < j <= |h| && At(h, b, j);
    ChangesGrow(h, if i <= j then i else j, if i <= j then j else i);
  }

  lemma FromLater(h: seq<Signature>, sig: Signature, m: Snapshot)
    requires From(h, m)
    ensures From(h + [sig], m)
  {
    var i :| 0 < i <= |h| && At(h, m, i);
    assert (h + [sig])[..i] == h[..i];
    assert At(h + [sig], m, i);
  }

  // ---------------------------------------------------------------- sessions

  datatype Mode = Sync | Change
  datatype Message = Message(mode: Mode, snapshot: Snapshot)

  /** One connection: what it holds between its observation and its send, and what its hub was sent. */
  datatype Session = Session(lastSent: nat, pending: Option<Message>, sent: seq<Message>)

  datatype World = World(tracker: Tracker, sessions: map<nat, Session>, history: seq<Signature>)

  datatype Step =
    | Connect(id: nat)
    | Observe(id: nat, mode: Mode, state: State)
    | Send(id: nat, raises: bool)

  predicate Enabled(w: World, s: Step) {
    match s
    case Connect(id) => id !in w.sessions
    case Observe(id, mode, state) => id in w.sessions && w.sessions[id].pending.None?
    case Send(id, raises) => id in w.sessions && w.sessions[id].pending.Some?
  }

  function Holding(x: Session, mode: Mode, m: Snapshot): Session {
    if mode == Change && m.revision <= x.lastSent then x else x.(pending := Some(Message(mode, m)))
  }

  function SentOr(x: Session, raises: bool): Session
    requires x.pending.Some?
  {
    if raises then x.(pending := None)
    else Session(x.pending.value.snapshot.revision, None, x.sent + [x.pending.value])
  }

  function Apply(w: World, s: Step): World
    requires Enabled(w, s)
  {
    match s
    case Connect(id) => w.(sessions := w.sessions[id := Session(0, None, [])])
    case Observe(id, mode, state) =>
      var t := Observed(w.tracker, state);
      World(t, w.sessions[id := Holding(w.sessions[id], mode, Snapshot(t.revision, state))], w.history + [SignatureOf(state)])
    case Send(id, raises) => w.(sessions := w.sessions[id := SentOr(w.sessions[id], raises)])
  }

  /** A session connects, and what its object does in one call is a step that observes and, with something to send, one that sends. */
  lemma CallsAreSteps(w: World, id: nat, mode: Mode, state: State, raises: bool)
    ensures id !in w.sessions ==> Enabled(w, Connect(id)) && Apply(w, Connect(id)) == w.(sessions := w.sessions[id := Session(0, None, [])])
    ensures id in w.sessions && w.sessions[id].pending.None? ==>
              var x, t := w.sessions[id], Observed(w.tracker, state);
              var quiet := mode == Change && t.revision <= x.lastSent;
              && Enabled(w, Observe(id, mode, state))
              && var v := Apply(w, Observe(id, mode, state));
                 && v.tracker == t && v.history == w.history + [SignatureOf(state)]
                 && (quiet ==> v.sessions == w.sessions)
                 && (!quiet ==>
                       && Enabled(v, Send(id, raises))
                       && Apply(v, Send(id, raises)).sessions ==
                          w.sessions[id := if raises then x
                                           else Session(t.revision, None, x.sent + [Message(mode, Snapshot(t.revision, state))])])
  {
    hide SignatureOf, Observed;
  }

  ghost predicate Rising(sent: seq<Message>) {
    && (forall i, j | 0 <= i < j < |sent| :: sent[i].snapshot.revision <= sent[j].snapshot.revision)
    && (forall i, j | 0 <= i < j < |sent| && sent[j].mode == Change :: sent[i].snapshot.revision < sent[j].snapshot.revision)
  }

  ghost predicate SessionInv(x: Session, revision: nat, h: seq<Signature>) {
    && Rising(x.sent)
    && x.lastSent == (if x.sent == [] then 0 else x.sent[|x.sent| - 1].snapshot.revision)
    && x.lastSent <= revision
    && (forall m | m in x.sent :: From(h, m.snapshot))
    && (x.pending.Some? ==>
          var m := x.pending.value;
          && x.lastSent <= m.snapshot.revision <= revision && From(h, m.snapshot)
          && (m.mode == Change ==> x.lastSent < m.snapshot.revision))
  }

  ghost predicate Inv(w: World) {
    Tracks(w.tracker, w.history) && forall id | id in w.sessions :: SessionInv(w.sessions[id], w.tracker.revision, w.history)
  }

  lemma SessionLater(x: Session, t: Tracker, h: seq<Signature>, s: State)
    requires Tracks(t, h) && SessionInv(x, t.revision, h)
    ensures SessionInv(x, Observed(t, s).revision, h + [SignatureOf(s)])
  {
    hide SignatureOf, From;
    forall m | m in x.sent ensures From(h + [SignatureOf(s)], m.snapshot) { FromLater(h, SignatureOf(s), m.snapshot); }
    if x.pending.Some? { FromLater(h, SignatureOf(s), x.pending.value.snapshot); }
  }

  lemma ObserveKeeps(w: World, id: nat, mode: Mode, state: State)
    requires Inv(w) && Enabled(w, Observe(id, mode, state))
    ensures Inv(Apply(w, Observe(id, mode, state)))
  {
    var v := Apply(w, Observe(id, mode, state));
    ObservedTracks(w.tracker, w.history, state);
    forall j | j in w.sessions ensures SessionInv(w.sessions[j], v.tracker.revision, v.history) {
      SessionLater(w.sessions[j], w.tracker, w.history, state);
    }
    assert v.history[..|v.history|] == v.history;
    assert At(v.history, Snapshot(v.tracker.revision, state), |v.history|);
  }

  lemma SendKeeps(x: Session, raises: bool, revision: nat, h: seq<Signature>)
    requires SessionInv(x, revision, h) && x.pending.Some?
    ensures SessionInv(SentOr(x, raises), revision, h)
  {
    hide From;
  }

  lemma StepKeeps(w: World, s: Step)
    requires Inv(w) && Enabled(w, s)
    ensures Inv(Apply(w, s))
  {
    hide SessionInv, Tracks;
    if s.Observe? {
      ObserveKeeps(w, s.id, s.mode, s.state);
    } else if s.Send? {
      SendKeeps(w.sessions[s.id], s.raises, w.tracker.revision, w.history);
    } else {
      NewSession(w.tracker.revision, w.history);
    }
  }

  lemma NewSession(revision: nat, h: seq<Signature>)
    ensures SessionInv(Session(0, None, []), revision, h)
  {
  }

  predicate Legal(w: World, run: seq<Step>)
    decreases |run|
  {
    run == [] || (Enabled(w, run[0]) && Legal(Apply(w, run[0]), run[1..]))
  }

  function After(w: World, run: seq<Step>): World
    requires Legal(w, run)
    decreases |run|
  {
    if run == [] then w else After(Apply(w, run[0]), run[1..])
  }

  const Boot := World(NewTracker, map[], [])

  lemma {:induction false} RunKeeps(w: World, run: seq<Step>)
    requires Inv(w) && Legal(w, run)
    ensures Inv(After(w, run))
    decreases |run|
  {
    hide Inv, Enabled, Apply;
    if run != [] {
      StepKeeps(w, run[0]);
      RunKeeps(Apply(w, run[0]), run[1..]);
    }
  }

  /** In every run the revision is the number of signature changes, whoever observed them. */
  lemma RevisionCountsChanges(run: seq<Step>)
    requires Legal(Boot, run)
    ensures After(Boot, run).tracker.revision == Changes(After(Boot, run).history)
  {
    hide Legal, After;
    RunKeeps(Boot, run);
  }

  /** Two messages with one revision, to whatever hubs, carry states with one signature. */
  lemma MessagesAgree(run: seq<Step>, a: nat, b: nat, i: nat, j: nat)
    requires Legal(Boot, run)
    requires var w := After(Boot, run); a in w.sessions && b in w.sessions && i < |w.sessions[a].sent| && j < |w.sessions[b].sent|
    ensures
      var w := After(Boot, run);
      var m, n := w.sessions[a].sent[i].snapshot, w.sessions[b].sent[j].snapshot;
      m.revision == n.revision ==> SignatureOf(m.payload) == SignatureOf(n.payload)
  {
    hide Legal, After, SignatureOf;
    RunKeeps(Boot, run);
    var w := After(Boot, run);
    var m, n := w.sessions[a].sent[i].snapshot, w.sessions[b].sent[j].snapshot;
    assert SessionInv(w.sessions[a], w.tracker.revision, w.history) && SessionInv(w.sessions[b], w.tracker.revision, w.history);
    if m.revision == n.revision { RevisionIdentifies(w.history, m, n); }
  }

  /** What one hub is sent never goes back, and every change message goes forward. */
  lemma SentRises(run: seq<Step>, id: nat, i: nat, j: nat)
    requires Legal(Boot, run) && id in After(Boot, run).sessions && i < j < |After(Boot, run).sessions[id].sent|
    ensures
      var sent := After(Boot, run).sessions[id].sent;
      && sent[i].snapshot.revision <= sent[j].snapshot.revision
      && (sent[j].mode == Change ==> sent[i].snapshot.revision < sent[j].snapshot.revision)
  {
    hide Legal, After;
    RunKeeps(Boot, run);
    assert SessionInv(After(Boot, run).sessions[id], After(Boot, run).tracker.revision, After(Boot, run).history);
  }

  /** When a session finds nothing to send, its hub already has a state with the signature just observed. */
  lemma QuietMeansCurrent(run: seq<Step>, id: nat, state: State)
    requires Legal(Boot, run) && Enabled(After(Boot, run), Observe(id, Change, state))
    ensures
      var w := After(Boot, run);
      var x := Apply(w, Observe(id, Change, state)).sessions[id];
      x.pending.None? ==> x.sent != [] && SignatureOf(x.sent[|x.sent| - 1].snapshot.payload) == SignatureOf(state)
  {
    assert Inv(Boot);
    hide Legal, After, Inv;
    RunKeeps(Boot, run);
    QuietStep(After(Boot, run), id, state);
  }

  lemma QuietStep(w: World, id: nat, state: State)
    requires Inv(w) && Enabled(w, Observe(id, Change, state))
    ensures
      var x := Apply(w, Observe(id, Change, state)).sessions[id];
      x.pending.None? ==> x.sent != [] && SignatureOf(x.sent[|x.sent| - 1].snapshot.payload) == SignatureOf(state)
  {
    hide SignatureOf, SessionInv, Tracks, From;
    ObserveKeeps(w, id, Change, state);
    var v := Apply(w, Observe(id, Change, state));
    if v.sessions[id].pending.None? { QuietSession(v.sessions[id], v.tracker, v.history); }
  }

  lemma QuietSession(x: Session, t: Tracker, h: seq<Signature>)
    requires Tracks(t, h) && h != [] && SessionInv(x, t.revision, h) && t.state.Some? && x.lastSent >= t.revision
    ensures x.sent != [] && SignatureOf(x.sent[|x.sent| - 1].snapshot.payload) == SignatureOf(t.state.value)
  {
    hide SignatureOf;
    var now := Snapshot(t.revision, t.state.value);
    assert h[..|h|] == h && At(h, now, |h|);
    ChangesPositive(h);
    RevisionIdentifies(h, now, x.sent[|x.sent| - 1].snapshot);
  }

  lemma ChangesPositive(h: seq<Signature>)
    requires h != []
    ensures Changes(h) > 0
  {
    ChangesGrow(h, 1, |h|);
    assert h[..|h|] == h && h[..1][..0] == [];
  }

  // ---------------------------------------------------------------- the objects

  class RuntimeStateTracker {
    var revision: nat
    var signature: Option<Signature>
    var state: Option<State>
    ghost var history: seq<Signature>

    function Now(): Tracker reads this { Tracker(revision, signature, state) }

    ghost predicate Valid() reads this { Tracks(Now(), history) }

    constructor ()
      ensures Valid() && Now() == NewTracker && history == []
    {
      revision, signature, state, history := 0, None, None, [];
    }

    method Observe(s: State) returns (m: Snapshot)
      requires Valid()
      modifies this
      ensures Valid() && history == old(history) + [SignatureOf(s)]
      ensures Now() == Observed(old(Now()), s)
      ensures m == Snapshot(revision, s) && revision == Changes(history)
    {
      hide SignatureOf;
      ObservedTracks(Now(), history, s);
      var sig := SignatureOf(s);
      if state.None? || signature != Some(sig) {
        revision := revision + 1;
        signature := Some(sig);
      }
      state := Some(s);
      history := history + [sig];
      m := Snapshot(revision, s);
    }

    method Current() returns (m: Option<Snapshot>)
      requires Valid()
      ensures m == if history == [] then None else Some(Snapshot(Changes(history), state.value))
    {
      hide SignatureOf;
      if state.None? { return None; }
      return Some(Snapshot(revision, state.value));
    }
  }

  class RuntimeStateSession {
    const tracker: RuntimeStateTracker
    var lastSent: nat
    ghost var sent: seq<Message>

    ghost predicate Valid() reads this, tracker {
      tracker.Valid() && SessionInv(Session(lastSent, None, sent), tracker.revision, tracker.history)
    }

    constructor (t: RuntimeStateTracker)
      requires t.Valid()
      ensures Valid() && tracker == t && lastSent == 0 && sent == []
    {
      tracker, lastSent, sent := t, 0, [];
    }

    /** Observes and sends; when the send raises, nothing is recorded as sent. */
    method SendSync(state: State, raises: bool) returns (m: Snapshot)
      requires Valid()
      modifies this, tracker
      ensures Valid() && tracker.history == old(tracker.history) + [SignatureOf(state)]
      ensures m == Snapshot(Changes(tracker.history), state)
      ensures sent == if raises then old(sent) else old(sent) + [Message(Sync, m)]
    {
      hide SignatureOf, SessionInv, Tracks;
      SessionLater(Session(lastSent, None, sent), tracker.Now(), tracker.history, state);
      m := tracker.Observe(state);
      HoldKeeps(Session(lastSent, None, sent), Sync, tracker.Now(), tracker.history);
      SendKeeps(Holding(Session(lastSent, None, sent), Sync, m), raises, tracker.revision, tracker.history);
      if !raises {
        sent := sent + [Message(Sync, m)];
        lastSent := m.revision;
      }
    }

    /** Sends only what is newer than the last message sent. */
    method SendIfChanged(state: State, raises: bool) returns (changed: bool, m: Snapshot)
      requires Valid()
      modifies this, tracker
      ensures Valid() && tracker.history == old(tracker.history) + [SignatureOf(state)]
      ensures m == Snapshot(Changes(tracker.history), state)
      ensures changed <==> Changes(tracker.history) > old(lastSent)
      ensures sent == if raises || !changed then old(sent) else old(sent) + [Message(Change, m)]
    {
      hide SignatureOf, SessionInv, Tracks;
      SessionLater(Session(lastSent, None, sent), tracker.Now(), tracker.history, state);
      m := tracker.Observe(state);
      HoldKeeps(Session(lastSent, None, sent), Change, tracker.Now(), tracker.history);
      if m.revision <= lastSent { return false, m; }
      SendKeeps(Holding(Session(lastSent, None, sent), Change, m), raises, tracker.revision, tracker.history);
      changed := true;
      if !raises {
        sent := sent + [Message(Change, m)];
        lastSent := m.revision;
      }
    }
  }

  lemma HoldKeeps(x: Session, mode: Mode, t: Tracker, h: seq<Signature>)
    requires Tracks(t, h) && h != [] && SessionInv(x, t.revision, h) && x.pending.None?
    ensures SessionInv(Holding(x, mode, Snapshot(t.revision, t.state.value)), t.revision, h)
    ensures t.state.Some?
  {
    assert h[..|h|] == h;
    assert At(h, Snapshot(t.revision, t.state.value), |h|);
  }
}
