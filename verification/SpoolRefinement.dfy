/** The scans and registrations of the spool are runs of the machine of windows. */
module SpoolRefinement {
  import opened Common
  import opened Spool
  import opened SpoolScan
  import opened SpoolStore
  import W = SpoolWindows

  function Sources(folder: map<string, W.File>): Folder {
    map n | n in folder :: folder[n].src
  }

  /** What the spool sees of the results directories. */
  function FoldersOf(w: W.World): Folders {
    map p | p in w.folders :: Sources(w.folders[p])
  }

  /** The order of registration of every launch is known, so each has a place in it. */
  ghost predicate Ready(w: W.World) {
    && w.phase == W.Idle && WriteAhead(w.disk)
    && (forall i | 0 <= i < |w.order| :: W.Known(w, i))
    && (forall k | k in w.disk.launches :: exists i :: 0 <= i < |w.order| && w.order[i].key == k)
  }

  /** Only the spool has moved, and it is at rest again. */
  ghost predicate Stays(w: W.World, v: W.World) {
    v == w.(disk := v.disk, taken := v.taken) && v.disk.launches.Keys == w.disk.launches.Keys
  }

  ghost predicate Reaches(w: W.World, run: seq<W.Step>, v: W.World) {
    W.Legal(w, run) && W.After(w, run) == v
  }

  lemma {:induction false} ReachesJoin(w: W.World, p: seq<W.Step>, m: W.World, q: seq<W.Step>, v: W.World)
    requires Reaches(w, p, m) && Reaches(m, q, v)
    ensures Reaches(w, p + q, v)
    decreases |p|
  {
    hide W.Enabled, W.Apply;
    if p == [] {
      assert p + q == q;
    } else {
      assert Reaches(W.Apply(w, p[0]), p[1..], m);
      ReachesJoin(W.Apply(w, p[0]), p[1..], m, q, v);
      assert (p + q)[1..] == p[1..] + q;
    }
  }

  lemma ReachesStep(w: W.World, s: W.Step)
    requires W.Enabled(w, s)
    ensures Reaches(w, [s], W.Apply(w, s))
  {
    hide W.Enabled, W.Apply;
    assert [s][1..] == [] && W.Legal(W.Apply(w, s), []);
    assert W.After(W.Apply(w, s), []) == W.Apply(w, s);
  }

  // ---------------------------------------------------------------- scans

  /** Enqueueing one file is a take, an announcement and an observation. */
  lemma EnqueueIsRun(w: W.World, at: nat, name: string, next: Option<real>) returns (run: seq<W.Step>, v: W.World)
    requires Ready(w) && W.Enabled(w, W.Take(at, name, next))
    ensures
      var l := W.LaunchAt(w, at);
      && Reaches(w, run, v) && Ready(v) && Stays(w, v)
      && v.disk == Enqueued(w.disk, l, name, w.folders[l.resultsPath][name].src)
  {
    TakeGuard(w, at, name, next);
    hide WriteAhead, Reaches, Ready, W.Enabled;
    Takes(w, at, name, next);
    var l := W.LaunchAt(w, at);
    var f := w.folders[l.resultsPath][name];
    KeyKept(w, at);
    EnqueueKeepsOrder(w.disk, l, name, f.src);
    var a := w.(disk := CopyWritten(w.disk, l, name, f.src), phase := W.Taking(at, name, f.uid, f.src));
    var b := w.(disk := ManifestWritten(w.disk, l, name, f.src), phase := W.Telling(at, name, f.uid, f.src),
                taken := w.taken + [W.Taken(f.uid, at, IdOf(l, name, f.src.raw))]);
    v := w.(disk := Enqueued(w.disk, l, name, f.src), taken := b.taken);
    Announces(w, a, at, name, f);
    Observes(w, b, at, name, f);
    run := [W.Take(at, name, next)] + [W.Announce] + [W.Observe];
    ReachesJoin(w, [W.Take(at, name, next)], a, [W.Announce], b);
    ReachesJoin(w, [W.Take(at, name, next)] + [W.Announce], b, [W.Observe], v);
    assert v.disk.launches.Keys == w.disk.launches.Keys;
    ReadyStays(w, v);
  }

  lemma ReadyStays(w: W.World, v: W.World)
    requires Ready(w) && Stays(w, v) && WriteAhead(v.disk)
    ensures Ready(v)
  {
    hide WriteAhead;
    forall i | 0 <= i < |v.order| ensures W.Known(v, i) { assert W.Known(w, i); }
    forall k | k in v.disk.launches ensures exists i :: 0 <= i < |v.order| && v.order[i].key == k {
      assert k in w.disk.launches;
      var i :| 0 <= i < |w.order| && w.order[i].key == k;
      assert v.order[i].key == k;
    }
  }

  lemma TakeGuard(w: W.World, at: nat, name: string, next: Option<real>)
    requires W.Enabled(w, W.Take(at, name, next))
    ensures W.Known(w, at) && W.At(w, W.LaunchAt(w, at).resultsPath, name)
  {
    hide Candidate;
  }

  lemma Takes(w: W.World, at: nat, name: string, next: Option<real>)
    requires W.Known(w, at) && W.At(w, W.LaunchAt(w, at).resultsPath, name)
    requires W.Enabled(w, W.Take(at, name, next)) && Ready(w)
    ensures w.phase == W.Idle && WriteAhead(w.disk)
    ensures
      var l := W.LaunchAt(w, at);
      var f := w.folders[l.resultsPath][name];
      Reaches(w, [W.Take(at, name, next)],
              w.(disk := CopyWritten(w.disk, l, name, f.src), phase := W.Taking(at, name, f.uid, f.src)))
  {
    hide WriteAhead;
    ReachesStep(w, W.Take(at, name, next));
  }

  lemma KeyKept(w: W.World, at: nat)
    requires WriteAhead(w.disk) && W.Known(w, at)
    ensures Key(W.LaunchAt(w, at)) == w.order[at].key
  {
  }

  lemma Announces(w: W.World, a: W.World, at: nat, name: string, f: W.File)
    requires W.Known(w, at)
    requires a == w.(disk := CopyWritten(w.disk, W.LaunchAt(w, at), name, f.src), phase := W.Taking(at, name, f.uid, f.src))
    ensures
      var l := W.LaunchAt(w, at);
      Reaches(a, [W.Announce], w.(disk := ManifestWritten(w.disk, l, name, f.src), phase := W.Telling(at, name, f.uid, f.src),
                                  taken := w.taken + [W.Taken(f.uid, at, IdOf(l, name, f.src.raw))]))
  {
    ReachesStep(a, W.Announce);
  }

  lemma Observes(w: W.World, b: W.World, at: nat, name: string, f: W.File)
    requires W.Known(w, at) && w.phase == W.Idle
    requires b == w.(disk := ManifestWritten(w.disk, W.LaunchAt(w, at), name, f.src), phase := W.Telling(at, name, f.uid, f.src), taken := b.taken)
    ensures Reaches(b, [W.Observe], w.(disk := Enqueued(w.disk, W.LaunchAt(w, at), name, f.src), taken := b.taken))
  {
    ReachesStep(b, W.Observe);
  }

  /** Looking at one file is one such run, or none. */
  lemma VisitIsRun(w: W.World, stable: nat, nexts: Nexts, s: Scan, v: Visit) returns (run: seq<W.Step>, u: W.World)
    requires Ready(w) && s.disk == w.disk
    ensures Reaches(w, run, u) && Ready(u) && Stays(w, u)
    ensures u.disk == VisitFile(stable, FoldersOf(w), nexts, s, v).disk
  {
    var t := VisitFile(stable, FoldersOf(w), nexts, s, v);
    if t.disk == w.disk {
      run, u := [], w;
    } else {
      var l := w.disk.launches[v.key];
      var at :| 0 <= at < |w.order| && w.order[at].key == v.key;
      assert W.Enabled(w, W.Take(at, v.name, nexts[v.key]));
      run, u := EnqueueIsRun(w, at, v.name, nexts[v.key]);
    }
  }

  /** A whole scan is a run: what holds over all runs holds of the class that scans. */
  lemma {:induction false} ScanIsRun(w: W.World, stable: nat, nexts: Nexts, s: Scan, vs: seq<Visit>) returns (run: seq<W.Step>, u: W.World)
    requires Ready(w) && s.disk == w.disk
    ensures Reaches(w, run, u) && Ready(u) && Stays(w, u)
    ensures u.disk == Visits(stable, FoldersOf(w), nexts, s, vs).disk
    decreases |vs|
  {
    hide VisitFile, Ready;
    if vs == [] {
      run, u := [], w;
    } else {
      var p, m := ScanIsRun(w, stable, nexts, s, vs[..|vs| - 1]);
      var q, x := VisitIsRun(m, stable, nexts, Visits(stable, FoldersOf(w), nexts, s, vs[..|vs| - 1]), vs[|vs| - 1]);
      ReachesJoin(w, p, m, q, x);
      run, u := p + q, x;
    }
  }

  // ---------------------------------------------------------------- registrations

  ghost function Open(launches: map<LaunchKey, Launch>, instance: string): set<LaunchKey> {
    set k | k in launches && launches[k].instance == instance && launches[k].closedAt.None?
  }

  lemma {:induction false} ClosingIsRun(w: W.World) returns (run: seq<W.Step>)
    requires w.phase.Closing?
    ensures Reaches(w, run, w.(disk := w.disk.(launches := Closed(w.disk.launches, w.phase.req.instance, w.phase.now))))
    decreases |Open(w.disk.launches, w.phase.req.instance)|
  {
    var instance, now := w.phase.req.instance, w.phase.now;
    if Open(w.disk.launches, instance) == {} {
      run := [];
      assert forall k | k in w.disk.launches :: k !in Open(w.disk.launches, instance);
      assert Closed(w.disk.launches, instance, now) == w.disk.launches;
    } else {
      var k :| k in Open(w.disk.launches, instance);
      var m := W.Apply(w, W.CloseOne(k));
      assert Open(m.disk.launches, instance) == Open(w.disk.launches, instance) - {k};
      var rest := ClosingIsRun(m);
      assert Closed(m.disk.launches, instance, now) == Closed(w.disk.launches, instance, now);
      run := [W.CloseOne(k)] + rest;
      ReachesStep(w, W.CloseOne(k));
      ReachesJoin(w, [W.CloseOne(k)], m, rest, m.(disk := m.disk.(launches := Closed(m.disk.launches, instance, now))));
    }
  }

  /** The second half of a registration: reading the clock, closing, listing, and writing the manifest. */
  lemma RegistrationIsRun(w: W.World, req: W.Request) returns (run: seq<W.Step>, u: W.World)
    requires w.phase.Idle? && Refusal(req.launchId, Some(req.server)).None?
    requires req.server.collectResults ==> W.KeyOf(req) !in w.disk.launches
    ensures Reaches(w, run, u) && u.phase.Idle? && u.folders == w.folders && u.clock == w.clock
    ensures
      var closed := Closed(w.disk.launches, req.instance, w.clock);
      u.disk == w.disk.(launches := if req.server.collectResults
                                    then closed[W.KeyOf(req) := Opened(req.instance, req.launchId, req.server, FoldersOf(w), w.clock)]
                                    else closed)
  {
    hide Safe;
    var a := W.Apply(w, W.Register(req));
    ReachesStep(w, W.Register(req));
    var closing := ClosingIsRun(a);
    var b := a.(disk := a.disk.(launches := Closed(a.disk.launches, req.instance, w.clock)));
    ReachesJoin(w, [W.Register(req)], a, closing, b);
    assert W.AllClosed(b, req.instance);
    run := [W.Register(req)] + closing;
    if req.server.collectResults {
      var c := W.Apply(b, W.ListBaseline);
      u := W.Apply(c, W.OpenLaunch);
      ListedIsOpened(w, req);
      ReachesStep(b, W.ListBaseline);
      ReachesStep(c, W.OpenLaunch);
      ReachesJoin(w, run, b, [W.ListBaseline], c);
      ReachesJoin(w, run + [W.ListBaseline], c, [W.OpenLaunch], u);
      run := run + [W.ListBaseline] + [W.OpenLaunch];
    } else {
      u := W.Apply(b, W.OnlyClosed);
      ReachesStep(b, W.OnlyClosed);
      ReachesJoin(w, run, b, [W.OnlyClosed], u);
      run := run + [W.OnlyClosed];
    }
  }

  lemma ListedIsOpened(w: W.World, req: W.Request)
    ensures
      var path := req.server.resultsPath;
      Opened(req.instance, req.launchId, req.server, FoldersOf(w), w.clock).baseline ==
      if path in w.folders then w.folders[path].Keys else {}
  {
    var path := req.server.resultsPath;
    if path in w.folders { assert Sources(w.folders[path]).Keys == w.folders[path].Keys; }
  }
}
