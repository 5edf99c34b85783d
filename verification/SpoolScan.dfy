/**
  One scan as a fold over the files it visits, and why a crash in the middle of a scan makes no difference once the
  sources have been scanned often enough again.
 */
module SpoolScan {
  import opened Common
  import opened Spool

  datatype Place = Place(path: string, name: string)
  datatype Seen = Seen(size: nat, mtime: real, count: nat)

  /** The disk, the counters kept in memory, and the artifacts made so far. */
  datatype Scan = Scan(disk: Disk, seen: map<Place, Seen>, made: seq<ArtifactId>)

  /** One file of one launch. */
  datatype Visit = Visit(key: LaunchKey, name: string)

  /** For each launch, when the next launch of its instance was registered. */
  type Nexts = map<LaunchKey, Option<real>>

  predicate There(folders: Folders, l: Launch, name: string) {
    l.resultsPath in folders && name in folders[l.resultsPath]
  }

  function SourceOf(folders: Folders, l: Launch, name: string): Source
    requires There(folders, l, name)
  {
    folders[l.resultsPath][name]
  }

  /** How often in a row the file was found as it is now. */
  function Streak(seen: map<Place, Seen>, at: Place, src: Source): nat {
    if at in seen && seen[at].size == |src.raw| && seen[at].mtime == src.mtime then seen[at].count else 0
  }

  function PlaceOf(l: Launch, name: string): Place { Place(l.resultsPath, name) }

  function Counted(seen: map<Place, Seen>, l: Launch, name: string, src: Source): map<Place, Seen> {
    var at := PlaceOf(l, name);
    seen[at := Seen(|src.raw|, src.mtime, Streak(seen, at, src) + 1)]
  }

  function VisitFile(stable: nat, folders: Folders, nexts: Nexts, s: Scan, v: Visit): Scan {
    if v.key !in s.disk.launches || v.key !in nexts || !There(folders, s.disk.launches[v.key], v.name) then s
    else
      var l := s.disk.launches[v.key];
      var src := SourceOf(folders, l, v.name);
      if !Candidate(l, nexts[v.key], v.name, src.mtime) then s
      else
        var seen := Counted(s.seen, l, v.name, src);
        if seen[PlaceOf(l, v.name)].count < stable || !src.isObject then s.(seen := seen)
        else Scan(Enqueued(s.disk, l, v.name, src), seen, s.made + [IdOf(l, v.name, src.raw)])
  }

  function Visits(stable: nat, folders: Folders, nexts: Nexts, s: Scan, vs: seq<Visit>): Scan
    decreases |vs|
  {
    if vs == [] then s
    else VisitFile(stable, folders, nexts, Visits(stable, folders, nexts, s, vs[..|vs| - 1]), vs[|vs| - 1])
  }

  /** Every file of every launch is visited. */
  ghost predicate Covers(vs: seq<Visit>, launches: map<LaunchKey, Launch>, folders: Folders) {
    forall k, n | k in launches && There(folders, launches[k], n) :: Visit(k, n) in vs
  }

  // ---------------------------------------------------------------- what a scan may do to the disk

  /** The files that enough scans turn into artifacts. */
  predicate Wanted(folders: Folders, next: Option<real>, l: Launch, name: string) {
    There(folders, l, name) && SourceOf(folders, l, name).isObject && Candidate(l, next, name, SourceOf(folders, l, name).mtime)
  }

  ghost predicate TargetOf(d: Disk, folders: Folders, nexts: Nexts, k: LaunchKey, id: ArtifactId) {
    && k in d.launches && k in nexts
    && Wanted(folders, nexts[k], d.launches[k], id.filename)
    && id == IdOf(d.launches[k], id.filename, SourceOf(folders, d.launches[k], id.filename).raw)
  }

  /** The artifacts still to be made. */
  ghost predicate IsTarget(d: Disk, folders: Folders, nexts: Nexts, id: ArtifactId) {
    exists k :: TargetOf(d, folders, nexts, k, id)
  }

  /** The launch has only observed more of the wanted files, and their manifests and copies are written. */
  ghost predicate LaunchBetween(d: Disk, e: Disk, folders: Folders, nexts: Nexts, k: LaunchKey)
    requires k in d.launches && k in e.launches && k in nexts
  {
    var l, m := d.launches[k], e.launches[k];
    && m == l.(observed := m.observed)
    && l.observed <= m.observed
    && forall n | n in m.observed && n !in l.observed ::
         && Wanted(folders, nexts[k], l, n)
         && IdOf(l, n, SourceOf(folders, l, n).raw) in e.artifacts
         && IdOf(l, n, SourceOf(folders, l, n).raw) in e.files
  }

  ghost predicate LaunchesBetween(d: Disk, e: Disk, folders: Folders, nexts: Nexts)
    requires d.launches.Keys <= nexts.Keys
  {
    && d.launches.Keys == e.launches.Keys
    && forall k | k in d.launches :: LaunchBetween(d, e, folders, nexts, k)
  }

  /** e is a disk on the way from d to the end of scanning these sources. */
  ghost predicate Between(d: Disk, e: Disk, folders: Folders, nexts: Nexts) {
    && WriteAhead(e)
    && d.launches.Keys <= nexts.Keys
    && LaunchesBetween(d, e, folders, nexts)
    && d.artifacts.Keys <= e.artifacts.Keys
    && d.files.Keys <= e.files.Keys
    && (forall id | id in e.artifacts && id !in d.artifacts :: IsTarget(d, folders, nexts, id))
    && (forall id | id in e.files && id !in d.files :: IsTarget(d, folders, nexts, id))
  }

  /** Nothing more is wanted. */
  ghost predicate Settled(d: Disk, e: Disk, folders: Folders, nexts: Nexts) {
    && Between(d, e, folders, nexts)
    && forall k, n | k in d.launches && Wanted(folders, nexts[k], d.launches[k], n) :: n in e.launches[k].observed
  }

  /** What was wanted in d is, in e, wanted or observed; nothing new is wanted. */
  lemma WantedBetween(d: Disk, e: Disk, folders: Folders, nexts: Nexts, k: LaunchKey, n: string)
    requires Between(d, e, folders, nexts) && k in d.launches
    ensures Wanted(folders, nexts[k], d.launches[k], n)
            <==> Wanted(folders, nexts[k], e.launches[k], n) || (n in e.launches[k].observed && n !in d.launches[k].observed)
  {
    assert LaunchBetween(d, e, folders, nexts, k);
  }

  lemma TargetBetween(d: Disk, e: Disk, folders: Folders, nexts: Nexts, id: ArtifactId)
    requires Between(d, e, folders, nexts) && IsTarget(e, folders, nexts, id)
    ensures IsTarget(d, folders, nexts, id)
  {
    var k :| TargetOf(e, folders, nexts, k, id);
    assert LaunchBetween(d, e, folders, nexts, k);
    WantedBetween(d, e, folders, nexts, k, id.filename);
    assert TargetOf(d, folders, nexts, k, id);
  }

  lemma BetweenRefl(d: Disk, folders: Folders, nexts: Nexts)
    requires WriteAhead(d) && d.launches.Keys <= nexts.Keys
    ensures Between(d, d, folders, nexts)
  {
  }

  lemma LaunchBetweenTrans(d: Disk, e: Disk, f: Disk, folders: Folders, nexts: Nexts, k: LaunchKey)
    requires Between(d, e, folders, nexts) && Between(e, f, folders, nexts) && k in d.launches
    ensures LaunchBetween(d, f, folders, nexts, k)
  {
    hide WriteAhead;
    assert LaunchBetween(d, e, folders, nexts, k) && LaunchBetween(e, f, folders, nexts, k);
    var l, m, o := d.launches[k], e.launches[k], f.launches[k];
    forall n | n in o.observed && n !in l.observed
      ensures && Wanted(folders, nexts[k], l, n)
              && IdOf(l, n, SourceOf(folders, l, n).raw) in f.artifacts
              && IdOf(l, n, SourceOf(folders, l, n).raw) in f.files
    {
      WantedBetween(d, e, folders, nexts, k, n);
    }
  }

  lemma BetweenTrans(d: Disk, e: Disk, f: Disk, folders: Folders, nexts: Nexts)
    requires Between(d, e, folders, nexts) && Between(e, f, folders, nexts)
    ensures Between(d, f, folders, nexts)
  {
    hide WriteAhead, IsTarget, LaunchBetween;
    forall k | k in d.launches ensures LaunchBetween(d, f, folders, nexts, k) {
      LaunchBetweenTrans(d, e, f, folders, nexts, k);
    }
    forall id | id in f.artifacts && id !in d.artifacts ensures IsTarget(d, folders, nexts, id) {
      if id !in e.artifacts { TargetBetween(d, e, folders, nexts, id); }
    }
    forall id | id in f.files && id !in d.files ensures IsTarget(d, folders, nexts, id) {
      if id !in e.files { TargetBetween(d, e, folders, nexts, id); }
    }
  }

  /** A disk that differs from d by the copy or the manifest of a wanted file is on the way. */
  lemma TargetsAreBetween(d: Disk, e: Disk, folders: Folders, nexts: Nexts, id: ArtifactId)
    requires WriteAhead(e) && d.launches.Keys <= nexts.Keys && IsTarget(d, folders, nexts, id)
    requires LaunchesBetween(d, e, folders, nexts)
    requires d.artifacts.Keys <= e.artifacts.Keys <= d.artifacts.Keys + {id}
    requires d.files.Keys <= e.files.Keys <= d.files.Keys + {id}
    ensures Between(d, e, folders, nexts)
  {
    hide WriteAhead, IsTarget, Wanted, LaunchesBetween;
  }

  lemma LaunchesStay(d: Disk, e: Disk, folders: Folders, nexts: Nexts)
    requires d.launches.Keys <= nexts.Keys && e.launches == d.launches
    ensures LaunchesBetween(d, e, folders, nexts)
  {
  }

  lemma ObservingBetween(d: Disk, e: Disk, folders: Folders, nexts: Nexts, k: LaunchKey, name: string)
    requires d.launches.Keys <= nexts.Keys && k in d.launches && Wanted(folders, nexts[k], d.launches[k], name)
    requires e.launches == d.launches[k := Observing(d.launches[k], name)]
    requires var id := IdOf(d.launches[k], name, SourceOf(folders, d.launches[k], name).raw); id in e.artifacts && id in e.files
    ensures LaunchesBetween(d, e, folders, nexts)
  {
    hide Wanted;
    forall j | j in d.launches ensures LaunchBetween(d, e, folders, nexts, j) {
      if j != k { assert e.launches[j] == d.launches[j]; }
    }
  }

  /** Each of the three writes of an enqueued file is on the way. */
  lemma EnqueueIsBetween(d: Disk, folders: Folders, nexts: Nexts, k: LaunchKey, name: string)
    requires WriteAhead(d) && d.launches.Keys <= nexts.Keys && k in d.launches && Wanted(folders, nexts[k], d.launches[k], name)
    ensures
      var l := d.launches[k];
      var src := SourceOf(folders, l, name);
      && Between(d, CopyWritten(d, l, name, src), folders, nexts)
      && Between(d, ManifestWritten(d, l, name, src), folders, nexts)
      && Between(d, Enqueued(d, l, name, src), folders, nexts)
  {
    var l := d.launches[k];
    var src := SourceOf(folders, l, name);
    var id := IdOf(l, name, src.raw);
    assert Key(l) == k;
    EnqueueKeepsOrder(d, l, name, src);
    assert TargetOf(d, folders, nexts, k, id);
    assert IsTarget(d, folders, nexts, id);
    hide WriteAhead, Wanted, IsTarget, TargetOf, Between, LaunchesBetween;
    LaunchesStay(d, CopyWritten(d, l, name, src), folders, nexts);
    TargetsAreBetween(d, CopyWritten(d, l, name, src), folders, nexts, id);
    LaunchesStay(d, ManifestWritten(d, l, name, src), folders, nexts);
    TargetsAreBetween(d, ManifestWritten(d, l, name, src), folders, nexts, id);
    ObservingBetween(d, Enqueued(d, l, name, src), folders, nexts, k, name);
    TargetsAreBetween(d, Enqueued(d, l, name, src), folders, nexts, id);
  }

  lemma VisitIsBetween(stable: nat, folders: Folders, nexts: Nexts, s: Scan, v: Visit)
    requires WriteAhead(s.disk) && s.disk.launches.Keys <= nexts.Keys
    ensures Between(s.disk, VisitFile(stable, folders, nexts, s, v).disk, folders, nexts)
  {
    BetweenRefl(s.disk, folders, nexts);
    if v.key in s.disk.launches && Wanted(folders, nexts[v.key], s.disk.launches[v.key], v.name) {
      EnqueueIsBetween(s.disk, folders, nexts, v.key, v.name);
    }
  }

  lemma {:induction false} VisitsAreBetween(stable: nat, folders: Folders, nexts: Nexts, s: Scan, vs: seq<Visit>)
    requires WriteAhead(s.disk) && s.disk.launches.Keys <= nexts.Keys
    ensures Between(s.disk, Visits(stable, folders, nexts, s, vs).disk, folders, nexts)
    decreases |vs|
  {
    hide VisitFile, Between;
    BetweenRefl(s.disk, folders, nexts);
    if vs != [] {
      var t := Visits(stable, folders, nexts, s, vs[..|vs| - 1]);
      VisitsAreBetween(stable, folders, nexts, s, vs[..|vs| - 1]);
      BetweenKeeps(s.disk, t.disk, folders, nexts);
      VisitIsBetween(stable, folders, nexts, t, vs[|vs| - 1]);
      BetweenTrans(s.disk, t.disk, VisitFile(stable, folders, nexts, t, vs[|vs| - 1]).disk, folders, nexts);
    }
  }

  lemma BetweenKeeps(d: Disk, e: Disk, folders: Folders, nexts: Nexts)
    requires Between(d, e, folders, nexts)
    ensures WriteAhead(e) && e.launches.Keys == d.launches.Keys && d.launches.Keys <= nexts.Keys
    ensures forall k | k in d.launches :: e.launches[k].resultsPath == d.launches[k].resultsPath
  {
    assert forall k | k in d.launches :: LaunchBetween(d, e, folders, nexts, k);
  }

  // ---------------------------------------------------------------- what a scan reports

  ghost predicate MadeFor(d: Disk, folders: Folders, nexts: Nexts, s: Scan, k: LaunchKey, id: ArtifactId) {
    TargetOf(d, folders, nexts, k, id) && k in s.disk.launches && id.filename in s.disk.launches[k].observed
  }

  /** The artifacts reported are the wanted files observed since d, each once. */
  ghost predicate MadeExactly(d: Disk, folders: Folders, nexts: Nexts, s: Scan) {
    && (forall i, j | 0 <= i < j < |s.made| :: s.made[i] != s.made[j])
    && (forall id | id in s.made :: exists k :: MadeFor(d, folders, nexts, s, k, id))
    && (forall k, id | MadeFor(d, folders, nexts, s, k, id) :: id in s.made)
  }

  /** A target is of one launch. */
  lemma TargetOfOne(d: Disk, folders: Folders, nexts: Nexts, j: LaunchKey, k: LaunchKey, id: ArtifactId)
    requires WriteAhead(d) && TargetOf(d, folders, nexts, j, id) && TargetOf(d, folders, nexts, k, id)
    ensures j == k
  {
    hide Wanted, Safe;
    assert Key(d.launches[j]) == j && Key(d.launches[k]) == k;
  }

  /** A target whose file is not observed yet is reported for no launch. */
  lemma NotMadeYet(d: Disk, folders: Folders, nexts: Nexts, s: Scan, k: LaunchKey, id: ArtifactId, j: LaunchKey)
    requires WriteAhead(d) && TargetOf(d, folders, nexts, k, id) && k in s.disk.launches && id.filename !in s.disk.launches[k].observed
    ensures !MadeFor(d, folders, nexts, s, j, id)
  {
    hide WriteAhead, TargetOf;
    if MadeFor(d, folders, nexts, s, j, id) {
      TargetOfOne(d, folders, nexts, j, k, id);
      assert false;
    }
  }

  /** What a scan that has just observed this target reports, against what it reported before. */
  lemma MadeForMore(d: Disk, folders: Folders, nexts: Nexts, s: Scan, k: LaunchKey, id: ArtifactId, t: Scan, j: LaunchKey, x: ArtifactId)
    requires TargetOf(d, folders, nexts, k, id) && k in s.disk.launches
    requires t.disk.launches == s.disk.launches[k := Observing(s.disk.launches[k], id.filename)]
    ensures MadeFor(d, folders, nexts, t, j, x) <==> MadeFor(d, folders, nexts, s, j, x) || (j == k && x == id)
  {
    if j == k && TargetOf(d, folders, nexts, k, x) && x.filename == id.filename { assert x == id; }
    hide TargetOf;
  }

  lemma OneMoreMade(d: Disk, folders: Folders, nexts: Nexts, s: Scan, k: LaunchKey, id: ArtifactId, t: Scan)
    requires MadeExactly(d, folders, nexts, s) && TargetOf(d, folders, nexts, k, id)
    requires (forall j :: !MadeFor(d, folders, nexts, s, j, id)) && k in s.disk.launches
    requires t.disk.launches == s.disk.launches[k := Observing(s.disk.launches[k], id.filename)] && t.made == s.made + [id]
    ensures MadeExactly(d, folders, nexts, t)
  {
    hide TargetOf, MadeFor;
    forall j, x ensures MadeFor(d, folders, nexts, t, j, x) <==> MadeFor(d, folders, nexts, s, j, x) || (j == k && x == id) {
      MadeForMore(d, folders, nexts, s, k, id, t, j, x);
    }
    assert id !in s.made;
    forall x | x in t.made ensures exists j :: MadeFor(d, folders, nexts, t, j, x) {
      if x == id {
        assert MadeFor(d, folders, nexts, t, k, x);
      } else {
        var j :| MadeFor(d, folders, nexts, s, j, x);
        assert MadeFor(d, folders, nexts, t, j, x);
      }
    }
  }

  lemma EnqueueMakes(d: Disk, folders: Folders, nexts: Nexts, s: Scan, k: LaunchKey, n: string, t: Scan)
    requires WriteAhead(d) && Between(d, s.disk, folders, nexts) && MadeExactly(d, folders, nexts, s)
    requires k in s.disk.launches && Wanted(folders, nexts[k], s.disk.launches[k], n)
    requires
      var l := s.disk.launches[k];
      var src := SourceOf(folders, l, n);
      t.disk == Enqueued(s.disk, l, n, src) && t.made == s.made + [IdOf(l, n, src.raw)]
    ensures MadeExactly(d, folders, nexts, t)
  {
    hide MadeExactly, Safe, MadeFor;
    var l := s.disk.launches[k];
    var id := IdOf(l, n, SourceOf(folders, l, n).raw);
    assert Key(l) == k;
    assert LaunchBetween(d, s.disk, folders, nexts, k);
    WantedBetween(d, s.disk, folders, nexts, k, n);
    assert TargetOf(d, folders, nexts, k, id) && n !in l.observed;
    hide Between, WriteAhead, TargetOf, Wanted;
    forall j ensures !MadeFor(d, folders, nexts, s, j, id) { NotMadeYet(d, folders, nexts, s, k, id, j); }
    OneMoreMade(d, folders, nexts, s, k, id, t);
  }

  lemma {:induction false} VisitsMake(stable: nat, folders: Folders, nexts: Nexts, s: Scan, vs: seq<Visit>)
    requires WriteAhead(s.disk) && s.disk.launches.Keys <= nexts.Keys && s.made == []
    ensures MadeExactly(s.disk, folders, nexts, Visits(stable, folders, nexts, s, vs))
    decreases |vs|
  {
    if vs == [] {
      hide WriteAhead;
    } else {
      var rest, v := vs[..|vs| - 1], vs[|vs| - 1];
      var t := Visits(stable, folders, nexts, s, rest);
      VisitsMake(stable, folders, nexts, s, rest);
      VisitsAreBetween(stable, folders, nexts, s, rest);
      hide WriteAhead, Between, MadeExactly;
      BetweenKeeps(s.disk, t.disk, folders, nexts);
      var u := VisitFile(stable, folders, nexts, t, v);
      if u.disk == t.disk && u.made == t.made {
        MadeStays(s.disk, folders, nexts, t, u);
      } else {
        EnqueueMakes(s.disk, folders, nexts, t, v.key, v.name, u);
      }
    }
  }

  lemma MadeStays(d: Disk, folders: Folders, nexts: Nexts, s: Scan, t: Scan)
    requires MadeExactly(d, folders, nexts, s) && t.disk == s.disk && t.made == s.made
    ensures MadeExactly(d, folders, nexts, t)
  {
    hide TargetOf;
    forall id | id in t.made ensures exists k :: MadeFor(d, folders, nexts, t, k, id) {
      var k :| MadeFor(d, folders, nexts, s, k, id);
      assert MadeFor(d, folders, nexts, t, k, id);
    }
    forall k, id | MadeFor(d, folders, nexts, t, k, id) ensures id in t.made { assert MadeFor(d, folders, nexts, s, k, id); }
  }

  // ---------------------------------------------------------------- enough scans

  /** The file of launch k is observed, or has been found unchanged at least m times. */
  ghost predicate SeenFor(s: Scan, folders: Folders, l: Launch, k: LaunchKey, n: string, m: nat)
    requires There(folders, l, n)
  {
    k in s.disk.launches && (n in s.disk.launches[k].observed || Streak(s.seen, PlaceOf(l, n), SourceOf(folders, l, n)) >= m)
  }

  /** No visit makes the spool forget a file that has not changed. */
  lemma VisitKeepsSeen(stable: nat, folders: Folders, nexts: Nexts, s: Scan, v: Visit, l: Launch, k: LaunchKey, n: string, m: nat)
    requires WriteAhead(s.disk) && s.disk.launches.Keys <= nexts.Keys && There(folders, l, n) && SeenFor(s, folders, l, k, n, m)
    ensures SeenFor(VisitFile(stable, folders, nexts, s, v), folders, l, k, n, m)
  {
    VisitIsBetween(stable, folders, nexts, s, v);
    assert LaunchBetween(s.disk, VisitFile(stable, folders, nexts, s, v).disk, folders, nexts, k);
  }

  /** The visit of the file itself counts one more, and at the limit it is enqueued. */
  lemma VisitCounts(stable: nat, folders: Folders, nexts: Nexts, s: Scan, k: LaunchKey, n: string, m: nat)
    requires WriteAhead(s.disk) && k in s.disk.launches && k in nexts && Wanted(folders, nexts[k], s.disk.launches[k], n)
    requires SeenFor(s, folders, s.disk.launches[k], k, n, m) && m < stable
    ensures
      var t := VisitFile(stable, folders, nexts, s, Visit(k, n));
      SeenFor(t, folders, s.disk.launches[k], k, n, m + 1) && (m + 1 == stable ==> n in t.disk.launches[k].observed)
  {
    assert Key(s.disk.launches[k]) == k;
  }

  lemma {:induction false} VisitsKeepSeen(stable: nat, folders: Folders, nexts: Nexts, s: Scan, vs: seq<Visit>, l: Launch, k: LaunchKey, n: string, m: nat)
    requires WriteAhead(s.disk) && s.disk.launches.Keys <= nexts.Keys && There(folders, l, n) && SeenFor(s, folders, l, k, n, m)
    ensures SeenFor(Visits(stable, folders, nexts, s, vs), folders, l, k, n, m)
    decreases |vs|
  {
    hide VisitFile, SeenFor, WriteAhead;
    if vs != [] {
      var t := Visits(stable, folders, nexts, s, vs[..|vs| - 1]);
      VisitsKeepSeen(stable, folders, nexts, s, vs[..|vs| - 1], l, k, n, m);
      VisitsAreBetween(stable, folders, nexts, s, vs[..|vs| - 1]);
      BetweenKeeps(s.disk, t.disk, folders, nexts);
      VisitKeepsSeen(stable, folders, nexts, t, vs[|vs| - 1], l, k, n, m);
    }
  }

  /** The launch is as it was, and the file is observed or still wanted and counted m times. */
  ghost predicate Counting(s: Scan, folders: Folders, nexts: Nexts, l: Launch, k: LaunchKey, n: string, m: nat)
    requires There(folders, l, n)
  {
    && k in s.disk.launches && k in nexts && s.disk.launches[k].resultsPath == l.resultsPath
    && (n !in s.disk.launches[k].observed ==> Wanted(folders, nexts[k], s.disk.launches[k], n))
    && SeenFor(s, folders, l, k, n, m)
  }

  lemma VisitCountsOrDone(stable: nat, folders: Folders, nexts: Nexts, s: Scan, l: Launch, k: LaunchKey, n: string, m: nat)
    requires WriteAhead(s.disk) && s.disk.launches.Keys <= nexts.Keys && There(folders, l, n)
    requires Counting(s, folders, nexts, l, k, n, m) && m < stable
    ensures
      var t := VisitFile(stable, folders, nexts, s, Visit(k, n));
      SeenFor(t, folders, l, k, n, m + 1) && (m + 1 == stable ==> n in t.disk.launches[k].observed)
  {
    hide WriteAhead, Wanted;
    if n in s.disk.launches[k].observed {
      VisitKeepsObserved(stable, folders, nexts, s, Visit(k, n), k, n);
    } else {
      VisitCounts(stable, folders, nexts, s, k, n, m);
    }
  }

  lemma VisitKeepsObserved(stable: nat, folders: Folders, nexts: Nexts, s: Scan, v: Visit, k: LaunchKey, n: string)
    requires WriteAhead(s.disk) && s.disk.launches.Keys <= nexts.Keys && k in s.disk.launches && n in s.disk.launches[k].observed
    ensures
      var t := VisitFile(stable, folders, nexts, s, v);
      k in t.disk.launches && n in t.disk.launches[k].observed
  {
    hide VisitFile;
    VisitIsBetween(stable, folders, nexts, s, v);
    assert LaunchBetween(s.disk, VisitFile(stable, folders, nexts, s, v).disk, folders, nexts, k);
  }

  lemma VisitNothing(stable: nat, folders: Folders, nexts: Nexts, s: Scan)
    ensures Visits(stable, folders, nexts, s, []) == s
  {
  }

  lemma {:induction false} VisitsJoin(stable: nat, folders: Folders, nexts: Nexts, s: Scan, vs: seq<Visit>, ws: seq<Visit>)
    ensures Visits(stable, folders, nexts, s, vs + ws) == Visits(stable, folders, nexts, Visits(stable, folders, nexts, s, vs), ws)
    decreases |ws|
  {
    hide VisitFile;
    if ws == [] {
      assert vs + ws == vs;
    } else {
      VisitsJoin(stable, folders, nexts, s, vs, ws[..|ws| - 1]);
      assert (vs + ws)[..|vs + ws| - 1] == vs + ws[..|ws| - 1];
    }
  }

  /** A scan that visits the file counts it at least once. */
  lemma ScanCounts(stable: nat, folders: Folders, nexts: Nexts, s: Scan, vs: seq<Visit>, k: LaunchKey, n: string, m: nat)
    requires WriteAhead(s.disk) && s.disk.launches.Keys <= nexts.Keys && k in s.disk.launches
    requires Wanted(folders, nexts[k], s.disk.launches[k], n) && Visit(k, n) in vs
    requires SeenFor(s, folders, s.disk.launches[k], k, n, m) && m < stable
    ensures
      var t := Visits(stable, folders, nexts, s, vs);
      && SeenFor(t, folders, s.disk.launches[k], k, n, m + 1)
      && (m + 1 == stable ==> k in t.disk.launches && n in t.disk.launches[k].observed)
  {
    var l := s.disk.launches[k];
    assert There(folders, l, n);
    hide *;
    var before, after := SplitAt(vs, Visit(k, n));
    VisitThen(stable, folders, nexts, s, before, Visit(k, n), after);
    CountsBefore(stable, folders, nexts, s, before, k, n, m);
    var t := Visits(stable, folders, nexts, s, before);
    CountsAfter(stable, folders, nexts, VisitFile(stable, folders, nexts, t, Visit(k, n)), after, l, k, n, m + 1, m + 1 == stable);
  }

  lemma SplitAt(vs: seq<Visit>, v: Visit) returns (before: seq<Visit>, after: seq<Visit>)
    requires v in vs
    ensures vs == before + [v] + after
  {
    var i :| 0 <= i < |vs| && vs[i] == v;
    before, after := vs[..i], vs[i + 1..];
  }

  lemma CountsBefore(stable: nat, folders: Folders, nexts: Nexts, s: Scan, vs: seq<Visit>, k: LaunchKey, n: string, m: nat)
    requires WriteAhead(s.disk) && s.disk.launches.Keys <= nexts.Keys && k in s.disk.launches
    requires Wanted(folders, nexts[k], s.disk.launches[k], n)
    requires SeenFor(s, folders, s.disk.launches[k], k, n, m) && m < stable
    ensures
      var t := VisitFile(stable, folders, nexts, Visits(stable, folders, nexts, s, vs), Visit(k, n));
      && WriteAhead(t.disk) && t.disk.launches.Keys == s.disk.launches.Keys
      && SeenFor(t, folders, s.disk.launches[k], k, n, m + 1)
      && (m + 1 == stable ==> n in t.disk.launches[k].observed)
  {
    var l := s.disk.launches[k];
    assert There(folders, l, n);
    hide VisitFile, Visits, Wanted, WriteAhead, SeenFor, There, Between;
    var t := Visits(stable, folders, nexts, s, vs);
    VisitsAreBetween(stable, folders, nexts, s, vs);
    BetweenKeeps(s.disk, t.disk, folders, nexts);
    VisitsKeepSeen(stable, folders, nexts, s, vs, l, k, n, m);
    WantedBetween(s.disk, t.disk, folders, nexts, k, n);
    VisitCountsOrDone(stable, folders, nexts, t, l, k, n, m);
    VisitIsBetween(stable, folders, nexts, t, Visit(k, n));
    BetweenKeeps(t.disk, VisitFile(stable, folders, nexts, t, Visit(k, n)).disk, folders, nexts);
  }

  lemma CountsAfter(stable: nat, folders: Folders, nexts: Nexts, s: Scan, vs: seq<Visit>, l: Launch, k: LaunchKey, n: string, m: nat, done: bool)
    requires WriteAhead(s.disk) && s.disk.launches.Keys <= nexts.Keys && k in s.disk.launches
    requires There(folders, l, n) && SeenFor(s, folders, l, k, n, m) && (done ==> n in s.disk.launches[k].observed)
    ensures
      var t := Visits(stable, folders, nexts, s, vs);
      SeenFor(t, folders, l, k, n, m) && (done ==> k in t.disk.launches && n in t.disk.launches[k].observed)
  {
    hide Visits, WriteAhead, SeenFor, There;
    VisitsKeepSeen(stable, folders, nexts, s, vs, l, k, n, m);
    if done { VisitsKeepObserved(stable, folders, nexts, s, vs, k, n); }
  }

  lemma VisitsKeepObserved(stable: nat, folders: Folders, nexts: Nexts, s: Scan, vs: seq<Visit>, k: LaunchKey, n: string)
    requires WriteAhead(s.disk) && s.disk.launches.Keys <= nexts.Keys && k in s.disk.launches && n in s.disk.launches[k].observed
    ensures
      var t := Visits(stable, folders, nexts, s, vs);
      k in t.disk.launches && n in t.disk.launches[k].observed
  {
    hide Visits;
    VisitsAreBetween(stable, folders, nexts, s, vs);
    assert LaunchBetween(s.disk, Visits(stable, folders, nexts, s, vs).disk, folders, nexts, k);
  }

  lemma VisitThen(stable: nat, folders: Folders, nexts: Nexts, s: Scan, before: seq<Visit>, v: Visit, after: seq<Visit>)
    ensures Visits(stable, folders, nexts, s, before + [v] + after) ==
            Visits(stable, folders, nexts, VisitFile(stable, folders, nexts, Visits(stable, folders, nexts, s, before), v), after)
  {
    hide VisitFile;
    VisitsJoin(stable, folders, nexts, s, before + [v], after);
    assert (before + [v])[..|before|] == before;
  }

  /** Scans of the same sources, each visiting everything. */
  function Scans(stable: nat, folders: Folders, nexts: Nexts, s: Scan, rounds: seq<seq<Visit>>): Scan
    decreases |rounds|
  {
    if rounds == [] then s
    else Visits(stable, folders, nexts, Scans(stable, folders, nexts, s, rounds[..|rounds| - 1]), rounds[|rounds| - 1])
  }

  /** Every round visits every file of every launch. */
  ghost predicate Complete(rounds: seq<seq<Visit>>, launches: map<LaunchKey, Launch>, folders: Folders) {
    forall i | 0 <= i < |rounds| :: Covers(rounds[i], launches, folders)
  }

  lemma {:induction false} ScansAreBetween(stable: nat, folders: Folders, nexts: Nexts, s: Scan, rounds: seq<seq<Visit>>)
    requires WriteAhead(s.disk) && s.disk.launches.Keys <= nexts.Keys
    ensures Between(s.disk, Scans(stable, folders, nexts, s, rounds).disk, folders, nexts)
    decreases |rounds|
  {
    hide Visits, Between;
    BetweenRefl(s.disk, folders, nexts);
    if rounds != [] {
      var rest, vs := rounds[..|rounds| - 1], rounds[|rounds| - 1];
      var t := Scans(stable, folders, nexts, s, rest);
      ScansAreBetween(stable, folders, nexts, s, rest);
      BetweenKeeps(s.disk, t.disk, folders, nexts);
      VisitsAreBetween(stable, folders, nexts, t, vs);
      BetweenTrans(s.disk, t.disk, Visits(stable, folders, nexts, t, vs).disk, folders, nexts);
    }
  }

  /** After r scans a wanted file is observed or has been counted r times; after enough it is observed. */
  lemma {:induction false} EnoughScans(stable: nat, folders: Folders, nexts: Nexts, s: Scan, rounds: seq<seq<Visit>>, k: LaunchKey, n: string)
    requires WriteAhead(s.disk) && s.disk.launches.Keys <= nexts.Keys && k in s.disk.launches
    requires Wanted(folders, nexts[k], s.disk.launches[k], n) && Complete(rounds, s.disk.launches, folders) && stable > 0
    ensures
      var t := Scans(stable, folders, nexts, s, rounds);
      && SeenFor(t, folders, s.disk.launches[k], k, n, if |rounds| < stable then |rounds| else stable)
      && (|rounds| >= stable ==> n in t.disk.launches[k].observed)
    decreases |rounds|
  {
    var l := s.disk.launches[k];
    assert There(folders, l, n);
    hide Visits, Wanted, WriteAhead;
    if rounds != [] {
      var rest, vs := rounds[..|rounds| - 1], rounds[|rounds| - 1];
      var t := Scans(stable, folders, nexts, s, rest);
      EnoughScans(stable, folders, nexts, s, rest, k, n);
      ScansAreBetween(stable, folders, nexts, s, rest);
      BetweenKeeps(s.disk, t.disk, folders, nexts);
      assert LaunchBetween(s.disk, t.disk, folders, nexts, k);
      WantedBetween(s.disk, t.disk, folders, nexts, k, n);
      VisitsAreBetween(stable, folders, nexts, t, vs);
      BetweenKeeps(t.disk, Visits(stable, folders, nexts, t, vs).disk, folders, nexts);
      assert LaunchBetween(t.disk, Visits(stable, folders, nexts, t, vs).disk, folders, nexts, k);
      if n !in t.disk.launches[k].observed {
        assert Covers(vs, s.disk.launches, folders);
        assert Visit(k, n) in vs;
        ScanCounts(stable, folders, nexts, t, vs, k, n, |rest|);
      }
    }
  }

  lemma ScansSettle(stable: nat, folders: Folders, nexts: Nexts, s: Scan, rounds: seq<seq<Visit>>)
    requires WriteAhead(s.disk) && s.disk.launches.Keys <= nexts.Keys
    requires Complete(rounds, s.disk.launches, folders) && |rounds| >= stable > 0
    ensures Settled(s.disk, Scans(stable, folders, nexts, s, rounds).disk, folders, nexts)
  {
    hide Between, Wanted, WriteAhead, Scans, Complete;
    ScansAreBetween(stable, folders, nexts, s, rounds);
    BetweenKeeps(s.disk, Scans(stable, folders, nexts, s, rounds).disk, folders, nexts);
    forall k, n | k in s.disk.launches && Wanted(folders, nexts[k], s.disk.launches[k], n)
      ensures n in Scans(stable, folders, nexts, s, rounds).disk.launches[k].observed
    {
      EnoughScans(stable, folders, nexts, s, rounds, k, n);
    }
  }

  /** A target is made in every settled disk. */
  lemma SettledHasTargets(d: Disk, e: Disk, folders: Folders, nexts: Nexts, id: ArtifactId)
    requires Settled(d, e, folders, nexts) && IsTarget(d, folders, nexts, id)
    ensures id in e.artifacts && id in e.files
  {
    var k :| TargetOf(d, folders, nexts, k, id);
    assert LaunchBetween(d, e, folders, nexts, k);
    assert id.filename in e.launches[k].observed && id.filename !in d.launches[k].observed;
  }

  lemma SettledLaunches(d: Disk, e: Disk, f: Disk, folders: Folders, nexts: Nexts, k: LaunchKey)
    requires Settled(d, e, folders, nexts) && Settled(d, f, folders, nexts) && k in d.launches
    ensures e.launches[k] == f.launches[k]
  {
    hide WriteAhead, IsTarget, Wanted;
    assert LaunchBetween(d, e, folders, nexts, k) && LaunchBetween(d, f, folders, nexts, k);
    forall n ensures n in e.launches[k].observed <==> n in f.launches[k].observed {
      if n in e.launches[k].observed && n !in d.launches[k].observed {
        assert Wanted(folders, nexts[k], d.launches[k], n);
      }
      if n in f.launches[k].observed && n !in d.launches[k].observed {
        assert Wanted(folders, nexts[k], d.launches[k], n);
      }
    }
    assert e.launches[k].observed == f.launches[k].observed;
  }

  /** The settled disk is determined up to the delivery states. */
  lemma SettledIsUnique(d: Disk, e: Disk, f: Disk, folders: Folders, nexts: Nexts)
    requires Settled(d, e, folders, nexts) && Settled(d, f, folders, nexts)
    ensures e.launches == f.launches && e.artifacts.Keys == f.artifacts.Keys && e.files == f.files
  {
    assert CopiesAreIntact(e) && CopiesAreIntact(f);
    hide WriteAhead, IsTarget, LaunchesBetween;
    forall id ensures (id in e.artifacts <==> id in f.artifacts) && (id in e.files <==> id in f.files) {
      if IsTarget(d, folders, nexts, id) {
        SettledHasTargets(d, e, folders, nexts, id);
        SettledHasTargets(d, f, folders, nexts, id);
      }
    }
    BetweenKeeps(d, e, folders, nexts);
    BetweenKeeps(d, f, folders, nexts);
    forall k | k in d.launches ensures e.launches[k] == f.launches[k] { SettledLaunches(d, e, f, folders, nexts, k); }
    assert e.artifacts.Keys == f.artifacts.Keys;
    assert e.files.Keys == f.files.Keys;
    forall id | id in e.files ensures e.files[id] == f.files[id] { assert Sha256(e.files[id]) == Sha256(f.files[id]); }
  }

  lemma SettledAfterCrash(d: Disk, e: Disk, f: Disk, folders: Folders, nexts: Nexts)
    requires Between(d, e, folders, nexts) && Settled(e, f, folders, nexts)
    ensures Settled(d, f, folders, nexts)
  {
    hide WriteAhead, IsTarget, Wanted;
    BetweenTrans(d, e, f, folders, nexts);
    forall k, n | k in d.launches && Wanted(folders, nexts[k], d.launches[k], n) ensures n in f.launches[k].observed {
      WantedBetween(d, e, folders, nexts, k, n);
      assert LaunchBetween(e, f, folders, nexts, k);
    }
  }

  /**
    A crash at any point of scanning unchanged sources (the counters lost with it), followed by enough scans, ends
    with the same observed names, the same artifact ids and the same copies as enough scans with no crash.
   */
  lemma CrashMakesNoDifference(stable: nat, folders: Folders, nexts: Nexts, s: Scan, rounds: seq<seq<Visit>>,
                               crashed: Disk, again: seq<seq<Visit>>)
    requires WriteAhead(s.disk) && s.disk.launches.Keys <= nexts.Keys && stable > 0
    requires Complete(rounds, s.disk.launches, folders) && |rounds| >= stable
    requires Between(s.disk, crashed, folders, nexts)
    requires Complete(again, crashed.launches, folders) && |again| >= stable
    ensures
      var e := Scans(stable, folders, nexts, s, rounds).disk;
      var f := Scans(stable, folders, nexts, Scan(crashed, map[], []), again).disk;
      e.launches == f.launches && e.artifacts.Keys == f.artifacts.Keys && e.files == f.files
  {
    hide Between, Settled, WriteAhead, Scans, Complete;
    ScansSettle(stable, folders, nexts, s, rounds);
    BetweenKeeps(s.disk, crashed, folders, nexts);
    ScansSettle(stable, folders, nexts, Scan(crashed, map[], []), again);
    SettledAfterCrash(s.disk, crashed, Scans(stable, folders, nexts, Scan(crashed, map[], []), again).disk, folders, nexts);
    SettledIsUnique(s.disk, Scans(stable, folders, nexts, s, rounds).disk,
                    Scans(stable, folders, nexts, Scan(crashed, map[], []), again).disk, folders, nexts);
  }
}
