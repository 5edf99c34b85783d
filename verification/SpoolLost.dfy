/**
  Files that no launch of an instance ever takes: the clock is read before the baseline is listed, so a file that
  appears in between is too late for the launches before and too early for the one that opens.
 */
module SpoolLost {
  import opened Common
  import opened Strings
  import opened Spool
  import opened SpoolStore
  import opened SpoolWindows

  /** Launch `i` is one of this instance. */
  predicate IsOf(w: World, i: nat, instance: string) { Known(w, i) && LaunchAt(w, i).instance == instance }

  /** The file appeared before the launch's baseline was listed, or not before the launch was closed. */
  ghost predicate OutOfReach(w: World, uid: nat, i: nat)
    requires uid < |w.births| && Known(w, i)
  {
    uid < w.order[i].listed || (LaunchAt(w, i).closedAt.Some? && LaunchAt(w, i).closedAt.value <= w.births[uid])
  }

  ghost predicate NotTaken(w: World, uid: nat, instance: string) {
    forall t | t in w.taken && t.uid == uid :: !IsOf(w, t.at, instance)
  }

  /** No launch of the instance has taken the file, is taking it, or can. */
  ghost predicate Lost(w: World, uid: nat, instance: string) {
    && uid < |w.births|
    && (forall i: nat | IsOf(w, i, instance) :: OutOfReach(w, uid, i))
    && NotTaken(w, uid, instance)
    && (w.phase.Listed? && w.phase.req.instance == instance ==> uid < w.phase.listed)
    && ((w.phase.Taking? || w.phase.Telling?) && w.phase.uid == uid ==> !IsOf(w, w.phase.at, instance))
  }

  /** The same launches, closed or not as before. */
  ghost predicate SameReach(w: World, v: World) {
    && v.order == w.order && w.births <= v.births && v.disk.launches.Keys == w.disk.launches.Keys
    && forall k | k in w.disk.launches ::
         && v.disk.launches[k].instance == w.disk.launches[k].instance
         && (w.disk.launches[k].closedAt.Some? ==> v.disk.launches[k].closedAt == w.disk.launches[k].closedAt)
  }

  lemma ReachStays(w: World, v: World, uid: nat, instance: string)
    requires SameReach(w, v) && uid < |w.births|
    requires forall i: nat | IsOf(w, i, instance) :: OutOfReach(w, uid, i)
    ensures forall i: nat :: IsOf(v, i, instance) <==> IsOf(w, i, instance)
    ensures forall i: nat | IsOf(v, i, instance) :: OutOfReach(v, uid, i)
  {
    forall i: nat ensures IsOf(v, i, instance) <==> IsOf(w, i, instance) {
      if Known(w, i) { assert Known(v, i); }
    }
    forall i: nat | IsOf(v, i, instance) ensures OutOfReach(v, uid, i) {
      assert IsOf(w, i, instance) && OutOfReach(w, uid, i);
    }
  }

  lemma OutsideReach(w: World, s: Step)
    requires FilesInv(w) && Enabled(w, s) && IsOutside(s)
    ensures SameReach(w, Apply(w, s)) && Apply(w, s).taken == w.taken && Apply(w, s).phase == w.phase
  {
    StepsOutside(w, s);
    hide Apply, Enabled, FilesInv;
  }

  lemma CloseReach(w: World, key: LaunchKey)
    requires Enabled(w, CloseOne(key))
    ensures
      var v := Apply(w, CloseOne(key));
      SameReach(w, v) && v.taken == w.taken && v.phase == w.phase
  {
    hide Safe;
  }

  lemma PhaseReach(w: World, s: Step)
    requires Enabled(w, s) && (s.Register? || s.OnlyClosed? || s.ListBaseline? || s.Crash?)
    ensures SameReach(w, Apply(w, s)) && Apply(w, s).taken == w.taken
    ensures var p := Apply(w, s).phase;
            !p.Taking? && !p.Telling? && (p.Listed? ==> p.listed == |w.births|)
  {
    hide Safe;
  }

  /** Steps outside, registrations up to the listing, and crashes. */
  lemma QuietKeepsLost(w: World, s: Step, uid: nat, instance: string)
    requires Inv(w) && Lost(w, uid, instance) && Enabled(w, s)
    requires IsOutside(s) || s.Register? || s.CloseOne? || s.OnlyClosed? || s.ListBaseline? || s.Crash?
    ensures Lost(Apply(w, s), uid, instance)
  {
    hide WriteAhead, Safe, FilesInv, OrderInv, WindowsInv, TakenInv, PhaseInv, SameReach;
    if IsOutside(s) { OutsideReach(w, s); } else if s.CloseOne? { CloseReach(w, s.key); } else { PhaseReach(w, s); }
    hide Apply, Enabled, Inv;
    ReachStays(w, Apply(w, s), uid, instance);
  }

  lemma OpenKeepsLost(w: World, uid: nat, instance: string)
    requires Inv(w) && Lost(w, uid, instance) && Enabled(w, OpenLaunch)
    ensures Lost(Apply(w, OpenLaunch), uid, instance)
  {
    var v := Apply(w, OpenLaunch);
    OpenLast(w);
    assert v.births == w.births && v.phase == Idle && v.taken == w.taken;
    assert forall t | t in w.taken :: t.at < |w.order|;
    hide Apply, Inv, Safe;
    forall i: nat | IsOf(v, i, instance) ensures OutOfReach(v, uid, i) {
      if i < |w.order| {
        OpenSame(w, i);
        assert IsOf(w, i, instance);
      }
    }
    forall t | t in v.taken && t.uid == uid ensures !IsOf(v, t.at, instance) {
      OpenSame(w, t.at);
    }
  }

  /** A file in the reach of a launch was last written before the launch was closed, so it had appeared by then. */
  lemma TakeIsInReach(w: World, at: nat, name: string, next: Option<real>)
    requires Inv(w) && Enabled(w, Take(at, name, next))
    ensures
      var uid := w.folders[LaunchAt(w, at).resultsPath][name].uid;
      uid < |w.births| && !OutOfReach(w, uid, at)
  {
    CandidatesBelong(w, at, name, next);
    hide WriteAhead, OrderInv, WindowsInv, TakenInv, PhaseInv;
    KnownAll(w);
    var l := LaunchAt(w, at);
    var f := w.folders[l.resultsPath][name];
    assert At(w, l.resultsPath, name) && f.src.mtime >= w.births[f.uid];
    assert Early(f.src.mtime, l.closedAt);
  }

  lemma TakeKeepsLost(w: World, at: nat, name: string, next: Option<real>, uid: nat, instance: string)
    requires Inv(w) && Lost(w, uid, instance) && Enabled(w, Take(at, name, next))
    ensures Lost(Apply(w, Take(at, name, next)), uid, instance)
  {
    hide WriteAhead, Safe, Inv;
    TakeIsInReach(w, at, name, next);
    var v := Apply(w, Take(at, name, next));
    assert SameReach(w, v) && v.taken == w.taken;
    assert v.phase.Taking? && v.phase.at == at && v.phase.uid == w.folders[LaunchAt(w, at).resultsPath][name].uid;
    hide Apply, Enabled, SameReach, OutOfReach;
    ReachStays(w, v, uid, instance);
  }

  lemma AnnounceKeepsLost(w: World, uid: nat, instance: string)
    requires Lost(w, uid, instance) && Enabled(w, Announce)
    ensures Lost(Apply(w, Announce), uid, instance)
  {
    hide Safe;
    var v := Apply(w, Announce);
    var t := v.taken[|w.taken|];
    assert SameReach(w, v) && v.taken == w.taken + [t] && t.uid == w.phase.uid && t.at == w.phase.at;
    assert v.phase.Telling? && v.phase.uid == w.phase.uid && v.phase.at == w.phase.at;
    hide Apply, Enabled, SameReach, OutOfReach;
    ReachStays(w, v, uid, instance);
  }

  lemma ObserveKeepsLost(w: World, uid: nat, instance: string)
    requires Inv(w) && Lost(w, uid, instance) && Enabled(w, Observe)
    ensures Lost(Apply(w, Observe), uid, instance)
  {
    hide WriteAhead, Safe, WindowsInv, TakenInv, PhaseInv, FilesInv;
    var v := Apply(w, Observe);
    assert Key(LaunchAt(w, w.phase.at)) == w.order[w.phase.at].key;
    assert SameReach(w, v) && v.taken == w.taken && v.phase == Idle;
    hide Apply, Enabled, Inv, SameReach, OutOfReach;
    ReachStays(w, v, uid, instance);
  }

  lemma StepKeepsLost(w: World, s: Step, uid: nat, instance: string)
    requires Inv(w) && Lost(w, uid, instance) && Enabled(w, s)
    ensures Lost(Apply(w, s), uid, instance)
  {
    hide Inv, Lost, Enabled, Apply;
    if s.OpenLaunch? {
      OpenKeepsLost(w, uid, instance);
    } else if s.Take? {
      TakeKeepsLost(w, s.at, s.name, s.next, uid, instance);
    } else if s.Announce? {
      AnnounceKeepsLost(w, uid, instance);
    } else if s.Observe? {
      ObserveKeepsLost(w, uid, instance);
    } else {
      QuietKeepsLost(w, s, uid, instance);
    }
  }

  /** What is lost stays lost in every continuation. */
  lemma {:induction false} LostForGood(w: World, run: seq<Step>, uid: nat, instance: string)
    requires Inv(w) && Lost(w, uid, instance) && Legal(w, run)
    ensures NotTaken(After(w, run), uid, instance) && Lost(After(w, run), uid, instance)
    decreases |run|
  {
    hide Inv, Enabled, Apply, NotTaken, OutOfReach;
    if run != [] {
      StepKeeps(w, run[0]);
      StepKeepsLost(w, run[0], uid, instance);
      LostForGood(Apply(w, run[0]), run[1..], uid, instance);
    }
  }

  // ---------------------------------------------------------------- between the clock and the listing

  /** While a registration is under way, every file taken so far had appeared when it read the clock. */
  ghost predicate TakenByNow(w: World) {
    w.phase.Closing? || w.phase.Listed? ==> forall t | t in w.taken :: t.uid < |w.births| && w.births[t.uid] <= w.phase.now
  }

  lemma StepKeepsNow(w: World, s: Step)
    requires Inv(w) && TakenByNow(w) && Enabled(w, s)
    ensures TakenByNow(Apply(w, s))
  {
    hide WriteAhead, Safe, OrderInv;
    var v := Apply(w, s);
    KnownAll(w);
    assert w.births <= v.births;
    assert v.phase.Closing? || v.phase.Listed? ==> v.taken == w.taken && (s.Register? || v.phase.now == w.phase.now);
    assert s.Register? ==> v.phase.now == w.clock && v.births == w.births;
    assert forall t | t in w.taken :: Belongs(w, t.uid, t.at);
  }

  lemma {:induction false} RunKeepsNow(w: World, run: seq<Step>)
    requires Inv(w) && TakenByNow(w) && Legal(w, run)
    ensures Inv(After(w, run)) && TakenByNow(After(w, run))
    decreases |run|
  {
    hide Inv, Enabled, Apply, TakenByNow;
    if run != [] {
      StepKeeps(w, run[0]);
      StepKeepsNow(w, run[0]);
      RunKeepsNow(Apply(w, run[0]), run[1..]);
    }
  }

  /** A file that appeared after the clock was read and before the baseline was listed is lost. */
  lemma BetweenIsLost(w: World, uid: nat)
    requires Inv(w) && TakenByNow(w) && w.phase.Listed? && uid < w.phase.listed
    requires uid < |w.births| && w.births[uid] > w.phase.now
    ensures Lost(w, uid, w.phase.req.instance)
  {
    hide WriteAhead, Safe;
    assert AllClosed(w, w.phase.req.instance) && BeforeNow(w, w.phase.now);
  }

  /**
    In every run: a file that appears between the clock reading and the listing of a registration is taken by no
    launch of this instance, however the run goes on.
   */
  lemma LostBetweenClockAndListing(w: World, before: seq<Step>, uid: nat, run: seq<Step>)
    requires Fresh(w) && Legal(w, before) && After(w, before).phase.Listed?
    requires
      var m := After(w, before);
      uid < m.phase.listed && uid < |m.births| && m.births[uid] > m.phase.now && Legal(m, run)
    ensures NotTaken(After(After(w, before), run), uid, After(w, before).phase.req.instance)
  {
    FreshIsGood(w);
    hide Legal, After, Inv, Lost, NotTaken;
    RunKeepsNow(w, before);
    var m := After(w, before);
    BetweenIsLost(m, uid);
    LostForGood(m, run, uid, m.phase.req.instance);
  }

  // ---------------------------------------------------------------- a run that loses a file

  const START := World(0.0, [], map["results" := map[]], Disk(map[], map[], map[]), Idle, [], [])

  const REQUEST := Request("server", 1, Server(true, "a", "url", "results"))

  const LOSING: seq<Step> :=
    [Register(REQUEST)] + [Tick(1.0)] + [Appear("results", "race.json", Source("{}", 1.0, true))] + [ListBaseline]

  lemma LegalStep(w: World, run: seq<Step>, m: World, s: Step)
    requires Legal(w, run) && After(w, run) == m && Enabled(m, s)
    ensures Legal(w, run + [s]) && After(w, run + [s]) == Apply(m, s)
    decreases |run|
  {
    hide Enabled, Apply;
    if run == [] {
      assert run + [s] == [s] && [s][1..] == [];
      assert After(Apply(m, s), []) == Apply(m, s);
    } else {
      LegalStep(Apply(w, run[0]), run[1..], m, s);
      assert (run + [s])[1..] == run[1..] + [s];
    }
  }

  lemma RequestIsGood()
    ensures Refusal(REQUEST.launchId, Some(REQUEST.server)).None?
  {
    assert Lower("a") == "a";
    assert HexOnly("a") == "a" + HexOnly("a"[1..]);
  }

  /** A first registration, and a result that is written before its baseline is listed: nobody will ever collect it. */
  lemma FileCanBeLost()
    ensures Fresh(START) && Legal(START, LOSING)
    ensures
      var m := After(START, LOSING);
      && m.phase.Listed? && m.phase.listed == 1 && m.phase.now == 0.0 && m.births == [1.0] && At(m, "results", "race.json")
      && forall run | Legal(m, run) :: NotTaken(After(m, run), 0, "server")
  {
    RequestIsGood();
    hide Refusal, Safe;
    var a := Apply(START, Register(REQUEST));
    var b := Apply(a, Tick(1.0));
    var c := Apply(b, Appear("results", "race.json", Source("{}", 1.0, true)));
    assert AllClosed(c, "server");
    var m := Apply(c, ListBaseline);
    LegalStep(START, [], START, Register(REQUEST));
    LegalStep(START, [Register(REQUEST)], a, Tick(1.0));
    LegalStep(START, [Register(REQUEST)] + [Tick(1.0)], b, Appear("results", "race.json", Source("{}", 1.0, true)));
    LegalStep(START, [Register(REQUEST)] + [Tick(1.0)] + [Appear("results", "race.json", Source("{}", 1.0, true))], c, ListBaseline);
    assert [] + [Register(REQUEST)] == [Register(REQUEST)];
    hide Legal, After, Apply, NotTaken;
    forall run | Legal(m, run) ensures NotTaken(After(m, run), 0, "server") {
      LostBetweenClockAndListing(START, LOSING, 0, run);
    }
  }

  // ---------------------------------------------------------------- exactly which files a launch can take

  /**
    A file that is there is a candidate of a launch, for some end of its window, if and only if it appeared after the
    baseline was listed under a name that was free then, is not observed yet, and was last written before the launch was
    closed. The start of the window, with its 2 seconds of slack, never decides.
   */
  lemma CandidateExactlyWhen(w: World, i: nat, name: string)
    requires Inv(w) && Known(w, i) && At(w, LaunchAt(w, i).resultsPath, name)
    ensures
      var l := LaunchAt(w, i);
      var f := w.folders[l.resultsPath][name];
      && (f.uid < w.order[i].listed ==> name in l.baseline)
      && ((exists next :: Candidate(l, next, name, f.src.mtime)) <==>
          w.order[i].listed <= f.uid && name !in l.baseline && name !in l.observed && Early(f.src.mtime, l.closedAt))
  {
    hide WriteAhead, Safe, WindowsInv, TakenInv, PhaseInv;
    var l := LaunchAt(w, i);
    var f := w.folders[l.resultsPath][name];
    assert EntryInv(w, i);
    if w.order[i].listed <= f.uid && name !in l.baseline && name !in l.observed && Early(f.src.mtime, l.closedAt) {
      assert w.births[f.uid] >= l.registeredAt;
      assert Candidate(l, None, name, f.src.mtime);
    }
  }
}
