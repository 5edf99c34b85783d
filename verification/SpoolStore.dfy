/**
  The spool as a class over its three directories. The ghost list of disks holds the durable state after every single
  write, so whatever holds of all of them holds of every crash point.
 */
module SpoolStore {
  import opened Common
  import opened Spool
  import opened Sorting
  import opened SpoolScan
  import opened SpoolSightings

  /** The Server section of a runtime configuration; strings are trimmed, and empty when results are not collected. */
  datatype Server = Server(collectResults: bool, correlation: string, uploadUrl: string, resultsPath: string)

  datatype LaunchError = ServerMissing | MetadataIncomplete | CorrelationInvalid

  // ---------------------------------------------------------------- the order of the launches

  function ByTime(launches: map<LaunchKey, Launch>): Order<LaunchKey> {
    (j: LaunchKey, k: LaunchKey) => j in launches && k in launches && Before(launches[j], launches[k])
  }

  ghost predicate Partly(launches: map<LaunchKey, Launch>, order: seq<LaunchKey>) {
    && (forall k | k in order :: k in launches)
    && (forall i, j | 0 <= i < j < |order| :: order[i] != order[j])
    && Ascending(ByTime(launches), order)
  }

  lemma TimesOrder(launches: map<LaunchKey, Launch>, order: seq<LaunchKey>)
    requires forall k | k in order :: k in launches
    ensures Orders(ByTime(launches), order)
  {
    var le := ByTime(launches);
    forall x, y | x in order && y in order ensures le(x, y) || le(y, x) { BeforeIsTotal(launches[x], launches[y]); }
    forall x, y, z | x in order && y in order && z in order && le(x, y) && le(y, z) ensures le(x, z) {
      BeforeIsTransitive(launches[x], launches[y], launches[z]);
    }
  }

  lemma InsertedIsSorted(launches: map<LaunchKey, Launch>, order: seq<LaunchKey>, k: LaunchKey)
    requires k in launches && k !in order && Partly(launches, order)
    ensures Partly(launches, Insert(ByTime(launches), k, order))
    ensures forall j :: j in Insert(ByTime(launches), k, order) <==> j in order || j == k
  {
    var le := ByTime(launches);
    TimesOrder(launches, [k] + order);
    InsertSorts(le, k, order);
    forall j ensures j in Insert(le, k, order) <==> j in order || j == k { InsertedElement(le, k, order, j); }
    InsertedIsDistinct(le, k, order);
  }

  lemma DistinctFrom(k: LaunchKey, order: seq<LaunchKey>)
    requires k !in order && forall i, j | 0 <= i < j < |order| :: order[i] != order[j]
    ensures forall i, j | 0 <= i < j < |[k] + order| :: ([k] + order)[i] != ([k] + order)[j]
  {
    forall i | 0 <= i < |order| ensures order[i] != k { assert order[i] in order; }
  }

  lemma {:induction false} InsertedIsDistinct(le: Order<LaunchKey>, k: LaunchKey, order: seq<LaunchKey>)
    requires k !in order && forall i, j | 0 <= i < j < |order| :: order[i] != order[j]
    ensures var r := Insert(le, k, order); forall i, j | 0 <= i < j < |r| :: r[i] != r[j]
    decreases |order|
  {
    if order != [] && !le(k, order[0]) {
      InsertedIsDistinct(le, k, order[1..]);
      InsertedElement(le, k, order[1..], order[0]);
      assert order[0] !in order[1..] && order[0] != k;
      DistinctFrom(order[0], Insert(le, k, order[1..]));
    } else {
      DistinctFrom(k, order);
    }
  }

  /** For each launch, the time its successor in this order was registered. */
  function NextsOf(launches: map<LaunchKey, Launch>, order: seq<LaunchKey>): (nexts: Nexts)
    requires Sorted(launches, order)
    ensures nexts.Keys == launches.Keys
  {
    map k | k in launches :: NextOf(launches, order, k)
  }

  function NextOf(launches: map<LaunchKey, Launch>, order: seq<LaunchKey>, k: LaunchKey): Option<real>
    requires (forall j | j in order :: j in launches) && k in order
  {
    Next(launches, order, IndexOf(order, k))
  }

  function IndexOf(order: seq<LaunchKey>, k: LaunchKey): (i: nat)
    requires k in order
    ensures i < |order| && order[i] == k && forall j | 0 <= j < i :: order[j] != k
    decreases |order|
  {
    if order[0] == k then 0 else 1 + IndexOf(order[1..], k)
  }

  ghost predicate Follows(launches: map<LaunchKey, Launch>, nexts: Nexts) {
    exists order :: Sorted(launches, order) && nexts == NextsOf(launches, order)
  }

  /** No two launches of one instance were registered at the same time. */
  ghost predicate NoTies(launches: map<LaunchKey, Launch>) {
    forall j, k | j in launches && k in launches && j != k && launches[j].instance == launches[k].instance ::
      launches[j].registeredAt != launches[k].registeredAt
  }

  ghost predicate SameTimes(a: map<LaunchKey, Launch>, b: map<LaunchKey, Launch>) {
    a.Keys == b.Keys && forall k | k in a :: a[k].instance == b[k].instance && a[k].registeredAt == b[k].registeredAt
  }

  /** Without ties the order, and so every window, is determined. */
  lemma NextsAgree(a: map<LaunchKey, Launch>, m: Nexts, b: map<LaunchKey, Launch>, n: Nexts)
    requires NoTies(a) && SameTimes(a, b) && Follows(a, m) && Follows(b, n)
    ensures m == n
  {
    hide Sorted, NoTies, SameTimes, NextOf;
    var o :| Sorted(a, o) && m == NextsOf(a, o);
    var p :| Sorted(b, p) && n == NextsOf(b, p);
    SameKeys(a, b);
    forall k | k in a ensures m[k] == n[k] {
      InOrder(a, o, k);
      InOrder(b, p, k);
      NextsAgreeAt(a, o, b, p, k);
    }
  }

  lemma SameKeys(a: map<LaunchKey, Launch>, b: map<LaunchKey, Launch>)
    requires SameTimes(a, b)
    ensures a.Keys == b.Keys
  {
  }

  lemma InOrder(a: map<LaunchKey, Launch>, o: seq<LaunchKey>, k: LaunchKey)
    requires Sorted(a, o) && k in a
    ensures k in o && forall j | j in o :: j in a
  {
  }

  lemma NextsAgreeAt(a: map<LaunchKey, Launch>, o: seq<LaunchKey>, b: map<LaunchKey, Launch>, p: seq<LaunchKey>, k: LaunchKey)
    requires NoTies(a) && SameTimes(a, b) && Sorted(a, o) && Sorted(b, p) && k in o && k in p
    ensures NextOf(a, o, k) == NextOf(b, p, k)
  {
    hide InTime, NoTies, Next;
    var i, j := IndexOf(o, k), IndexOf(p, k);
    if Next(a, o, i).Some? { NextIsNearestAlso(a, o, i, b, p, j); }
    if Next(b, p, j).Some? {
      NoTiesEither(a, b);
      NextIsNearestAlso(b, p, j, a, o, i);
    }
  }

  lemma NoTiesEither(a: map<LaunchKey, Launch>, b: map<LaunchKey, Launch>)
    requires NoTies(a) && SameTimes(a, b)
    ensures NoTies(b) && SameTimes(b, a)
  {
  }

  lemma NextsAt(launches: map<LaunchKey, Launch>, order: seq<LaunchKey>, i: nat)
    requires Sorted(launches, order) && i < |order|
    ensures order[i] in launches && NextsOf(launches, order)[order[i]] == Next(launches, order, i)
  {
    hide InTime;
  }

  lemma NextIsNearestAlso(a: map<LaunchKey, Launch>, o: seq<LaunchKey>, i: nat, b: map<LaunchKey, Launch>, p: seq<LaunchKey>, j: nat)
    requires NoTies(a) && SameTimes(a, b) && Sorted(a, o) && Sorted(b, p) && i < |o| && j < |p| && o[i] == p[j]
    requires Next(a, o, i).Some?
    ensures Next(b, p, j).Some? && Next(b, p, j).value <= Next(a, o, i).value
  {
    var k := o[i + 1];
    assert k != o[i] && Before(a[o[i]], a[k]);
    NextIsNearest(b, p, j, k);
  }

  // ---------------------------------------------------------------- writes over many manifests

  /** All open launches of the instance, closed at the same time. */
  function Closed(launches: map<LaunchKey, Launch>, instance: string, at: real): map<LaunchKey, Launch> {
    map k | k in launches :: ClosedOne(launches[k], instance, at)
  }

  function ClosedOne(l: Launch, instance: string, at: real): Launch {
    if l.instance == instance && l.closedAt.None? then l.(closedAt := Some(at)) else l
  }

  predicate Matches(a: Artifact, id: ArtifactId, instance: Option<string>, launchId: Option<int>, correlation: Option<string>) {
    && (instance.None? || instance.value == a.instance)
    && (launchId.None? || launchId.value == id.launchId)
    && (correlation.None? || correlation.value == id.correlation)
  }

  function Requeued(a: Artifact): Artifact {
    if a.status == Delivered then a.(status := Pending, nextAttemptAt := 0.0) else a
  }

  function MatchesOf(artifacts: map<ArtifactId, Artifact>, ids: set<ArtifactId>,
                     instance: Option<string>, launchId: Option<int>, correlation: Option<string>): set<ArtifactId>
  {
    set id | id in ids && id in artifacts && Matches(artifacts[id], id, instance, launchId, correlation)
  }

  function DeliveredOf(artifacts: map<ArtifactId, Artifact>, ids: set<ArtifactId>): set<ArtifactId> {
    set id | id in ids && id in artifacts && artifacts[id].status == Delivered
  }

  function RequeuedOf(artifacts: map<ArtifactId, Artifact>, ids: set<ArtifactId>): map<ArtifactId, Artifact> {
    map id | id in artifacts :: if id in ids then Requeued(artifacts[id]) else artifacts[id]
  }

  function MarkedDelivered(a: Artifact): Artifact { a.(status := Delivered, nextAttemptAt := 0.0) }

  function Pow2(n: nat): nat { if n == 0 then 1 else 2 * Pow2(n - 1) }

  function Least(a: nat, b: nat): nat { if a <= b then a else b }

  function Delay(attempts: nat): nat { Least(Pow2(Least(attempts, 8)), 300) }

  function MarkedFailed(a: Artifact, now: real): Artifact {
    a.(status := Pending, attempts := a.attempts + 1, nextAttemptAt := now + Delay(a.attempts + 1) as real)
  }

  lemma {:induction false} Pow2Grows(m: nat, n: nat)
    requires m <= n
    ensures Pow2(m) <= Pow2(n) && (m < n ==> 2 * Pow2(m) <= Pow2(n))
    decreases n - m
  {
    if m < n { Pow2Grows(m, n - 1); }
  }

  /** The wait doubles until the eighth attempt and then stays at 256 seconds: the cap of 300 is never reached. */
  lemma DelayDoublesThenStays(attempts: nat)
    ensures attempts < 8 ==> Delay(attempts + 1) == 2 * Delay(attempts)
    ensures attempts >= 8 ==> Delay(attempts) == 256
    ensures Delay(attempts) <= 256
  {
    Pow2Grows(Least(attempts, 8), 8);
    Pow2Grows(Least(attempts + 1, 8), 8);
    assert Pow2(8) == 256;
  }

  /** Each launch as it was, or already closed. */
  ghost predicate PartlyClosed(a: map<LaunchKey, Launch>, b: map<LaunchKey, Launch>, instance: string, at: real) {
    a.Keys == b.Keys && forall k | k in a :: b[k] == a[k] || b[k] == ClosedOne(a[k], instance, at)
  }

  ghost predicate SameButObserved(a: map<LaunchKey, Launch>, b: map<LaunchKey, Launch>) {
    && a.Keys == b.Keys
    && forall k | k in a :: b[k] == a[k].(observed := b[k].observed) && a[k].observed <= b[k].observed
  }

  /** Why a registration is refused. */
  function Refusal(launchId: int, server: Option<Server>): Option<LaunchError> {
    if server.None? then Some(ServerMissing)
    else if !server.value.collectResults then None
    else if launchId <= 0 || server.value.correlation == "" || server.value.uploadUrl == "" || server.value.resultsPath == ""
    then Some(MetadataIncomplete)
    else if Safe(server.value.correlation) == "" then Some(CorrelationInvalid)
    else None
  }

  function Opened(instance: string, launchId: int, s: Server, folders: Folders, now: real): Launch {
    Launch(instance, launchId, s.correlation, s.uploadUrl, s.resultsPath, now, None,
           if s.resultsPath in folders then folders[s.resultsPath].Keys else {}, {})
  }

  // ---------------------------------------------------------------- purge

  datatype Summary = Summary(
    dryRun: bool, requested: nat, eligible: nat, purged: nat, bytes: nat, missingFiles: nat, protected: nat, notFound: nat)

  datatype Verdict = NotFound | Protected | Removable

  predicate Eligible(d: Disk, id: ArtifactId, instance: Option<string>) {
    && id in d.artifacts
    && (instance.None? || instance.value == d.artifacts[id].instance)
    && d.artifacts[id].status == Delivered
    && Purgeable(id.filename)
  }

  function EligibleOf(d: Disk, ids: seq<ArtifactId>, instance: Option<string>): set<ArtifactId> {
    set id | id in ids && Eligible(d, id, instance)
  }

  function Unknown(d: Disk, ids: seq<ArtifactId>): set<ArtifactId> {
    set id | id in ids && id !in d.artifacts
  }

  function PurgedOf(d: Disk, gone: set<ArtifactId>): Disk {
    d.(artifacts := map id | id in d.artifacts ::
                      if id in gone then d.artifacts[id].(status := Purged, nextAttemptAt := 0.0) else d.artifacts[id],
       files := d.files - gone)
  }

  /** The bytes of the copies of the eligible artifacts. */
  function Bytes(d: Disk, ids: seq<ArtifactId>, instance: Option<string>): nat
    decreases |ids|
  {
    if ids == [] then 0
    else
      var id := ids[|ids| - 1];
      Bytes(d, ids[..|ids| - 1], instance) + if Eligible(d, id, instance) && id in d.files then |d.files[id]| else 0
  }

  /** What the counters say about the ids handled so far. */
  predicate Tallied(d: Disk, ids: seq<ArtifactId>, instance: Option<string>, execute: bool, s: Summary) {
    && |ids| == s.eligible + s.protected + s.notFound
    && s.eligible == |EligibleOf(d, ids, instance)|
    && s.notFound == |Unknown(d, ids)|
    && s.purged == (if execute then s.eligible else 0)
    && s.missingFiles == |EligibleOf(d, ids, instance) - d.files.Keys|
    && s.bytes == Bytes(d, ids, instance)
  }

  function Added(s: Summary, verdict: Verdict, stored: Option<nat>, execute: bool): Summary {
    match verdict
    case NotFound => s.(notFound := s.notFound + 1)
    case Protected => s.(protected := s.protected + 1)
    case Removable =>
      var t := s.(eligible := s.eligible + 1, purged := if execute then s.purged + 1 else s.purged);
      if stored.Some? then t.(bytes := t.bytes + stored.value) else t.(missingFiles := t.missingFiles + 1)
  }

  predicate Distinct<T(==)>(s: seq<T>) {
    forall i, j | 0 <= i < j < |s| :: s[i] != s[j]
  }

  /** Every durable state since the disk was d, the present one e included, is on the way from d. */
  ghost predicate Grown(before: seq<Disk>, d: Disk, disks: seq<Disk>, e: Disk, folders: Folders, nexts: Nexts) {
    && before <= disks && Between(d, e, folders, nexts)
    && forall i | |before| <= i < |disks| :: Between(d, disks[i], folders, nexts)
  }

  lemma GrownNot(disks: seq<Disk>, d: Disk, folders: Folders, nexts: Nexts)
    requires WriteAhead(d) && d.launches.Keys <= nexts.Keys
    ensures Grown(disks, d, disks, d, folders, nexts)
  {
    hide Between, WriteAhead;
    BetweenRefl(d, folders, nexts);
  }

  lemma GrownTrans(a: seq<Disk>, d: Disk, b: seq<Disk>, e: Disk, c: seq<Disk>, f: Disk, folders: Folders, nexts: Nexts)
    requires Grown(a, d, b, e, folders, nexts) && Grown(b, e, c, f, folders, nexts)
    ensures Grown(a, d, c, f, folders, nexts)
  {
    hide Between;
    BetweenTrans(d, e, f, folders, nexts);
    forall i | |a| <= i < |c| ensures Between(d, c[i], folders, nexts) {
      if i >= |b| { BetweenTrans(d, e, c[i], folders, nexts); }
    }
  }

  lemma GrownManifests(a: seq<Disk>, d: Disk, b: seq<Disk>, e: Disk, folders: Folders, nexts: Nexts)
    requires Grown(a, d, b, e, folders, nexts)
    ensures SameButObserved(d.launches, e.launches) && a <= b && d.launches.Keys <= nexts.Keys
  {
    hide WriteAhead;
    SameManifests(d, e, folders, nexts);
  }

  // ---------------------------------------------------------------- the spool

  class ResultArtifactSpool {
    const stableScans: nat
    var launches: map<LaunchKey, Launch>
    var artifacts: map<ArtifactId, Artifact>
    var files: map<ArtifactId, string>
    var seen: map<Place, Seen>
    ghost var disks: seq<Disk>
    ghost var looks: seq<Look>

    function Now(): Disk reads this { Disk(launches, artifacts, files) }

    /** Every durable state since the start, the present one last, keeps the write-ahead order; the counters come from the looks. */
    ghost predicate Valid() reads this {
      && stableScans >= 2
      && disks != [] && disks[|disks| - 1] == Now()
      && seen == Counters(looks)
      && forall i | 0 <= i < |disks| :: WriteAhead(disks[i])
    }

    /** Restarts on what an earlier process left, at whatever point it stopped. */
    constructor (left: Disk, stable: int)
      requires WriteAhead(left)
      ensures Valid() && Now() == left && seen == map[] && disks == [left] && looks == []
      ensures stableScans == if stable >= 2 then stable else 2
    {
      stableScans := if stable >= 2 then stable else 2;
      launches, artifacts, files := left.launches, left.artifacts, left.files;
      seen := map[];
      disks, looks := [left], [];
    }

    method LaunchManifests() returns (order: seq<LaunchKey>)
      ensures Sorted(launches, order)
    {
      order := [];
      var todo := launches.Keys;
      while todo != {}
        invariant todo <= launches.Keys
        invariant Partly(launches, order)
        invariant forall k | k in launches :: k in todo <==> k !in order
        decreases todo
      {
        var k :| k in todo;
        InsertedIsSorted(launches, order, k);
        order := Insert(ByTime(launches), k, order);
        todo := todo - {k};
      }
    }

    /** Copy, then artifact manifest, then launch manifest. */
    method Enqueue(k: LaunchKey, name: string, src: Source) returns (id: ArtifactId)
      requires Valid() && k in launches
      modifies this`launches, this`artifacts, this`files, this`disks
      ensures Valid() && old(disks) <= disks
      ensures id == IdOf(old(launches)[k], name, src.raw)
      ensures Now() == Enqueued(old(Now()), old(launches)[k], name, src)
      ensures forall i | |old(disks)| <= i < |disks| ::
                disks[i] in {CopyWritten(old(Now()), old(launches)[k], name, src),
                             ManifestWritten(old(Now()), old(launches)[k], name, src),
                             Enqueued(old(Now()), old(launches)[k], name, src)}
    {
      hide WriteAhead, Counters;
      var l := launches[k];
      assert Key(l) == k by { KeyOfManifest(Now(), k); }
      EnqueueKeepsOrder(Now(), l, name, src);
      id := IdOf(l, name, src.raw);
      if id !in files {
        files := files[id := src.raw];
        disks := disks + [Now()];
      }
      artifacts := artifacts[id := NewArtifact(l, src)];
      disks := disks + [Now()];
      launches := launches[k := Observing(l, name)];
      disks := disks + [Now()];
    }

    /** Looks at one file of one launch: a fresh one is counted, and enqueued when it has been stable long enough. */
    method ScanFile(folders: Folders, ghost nexts: Nexts, k: LaunchKey, cutoff: Option<real>, n: string, made: seq<ArtifactId>)
      returns (created: seq<ArtifactId>)
      requires Valid() && k in launches && launches.Keys <= nexts.Keys && There(folders, launches[k], n)
      requires cutoff == Cutoff(nexts[k], launches[k].closedAt)
      modifies this
      ensures Valid()
      ensures Scan(Now(), seen, created) == VisitFile(stableScans, folders, nexts, Scan(old(Now()), old(seen), made), Visit(k, n))
      ensures looks == old(looks) + [Look(old(Now()), folders, nexts, Visit(k, n))]
      ensures Grown(old(disks), old(Now()), disks, Now(), folders, nexts)
    {
      hide WriteAhead, Between, Counters;
      assert WriteAhead(Now());
      looks := looks + [Look(Now(), folders, nexts, Visit(k, n))];
      CountersThen(old(looks), looks[|old(looks)|]);
      VisitIsBetween(stableScans, folders, nexts, Scan(Now(), seen, made), Visit(k, n));
      created := made;
      var l := launches[k];
      var src := folders[l.resultsPath][n];
      if n !in l.baseline && n !in l.observed && src.mtime >= l.registeredAt - 2.0 && Early(src.mtime, cutoff) {
        var at := Place(l.resultsPath, n);
        var count := 1;
        if at in seen && seen[at].size == |src.raw| && seen[at].mtime == src.mtime { count := seen[at].count + 1; }
        seen := seen[at := Seen(|src.raw|, src.mtime, count)];
        if count >= stableScans && src.isObject {
          EnqueueIsBetween(Now(), folders, nexts, k, n);
          var id := Enqueue(k, n, src);
          created := created + [id];
        }
      }
    }

    /** Looks at every file of one launch once. */
    method ScanLaunch(folders: Folders, ghost nexts: Nexts, k: LaunchKey, next: Option<real>, made: seq<ArtifactId>)
      returns (created: seq<ArtifactId>, ghost vs: seq<Visit>)
      requires Valid() && k in launches && launches.Keys <= nexts.Keys && nexts[k] == next
      modifies this
      ensures Valid()
      ensures Scan(Now(), seen, created) == Visits(stableScans, folders, nexts, Scan(old(Now()), old(seen), made), vs)
      ensures looks == old(looks) + LooksOf(stableScans, folders, nexts, Scan(old(Now()), old(seen), made), vs)
      ensures forall n | There(folders, old(launches)[k], n) :: Visit(k, n) in vs
      ensures Grown(old(disks), old(Now()), disks, Now(), folders, nexts)
    {
      hide WriteAhead, VisitFile, Grown;
      created, vs := made, [];
      ghost var start := Scan(Now(), seen, made);
      GrownNot(disks, Now(), folders, nexts);
      var path := launches[k].resultsPath;
      if path !in folders { return; }
      var cutoff := Cutoff(next, launches[k].closedAt);
      var todo := folders[path].Keys;
      while todo != {}
        invariant Valid()
        invariant todo <= folders[path].Keys
        invariant Scan(Now(), seen, created) == Visits(stableScans, folders, nexts, start, vs)
        invariant looks == old(looks) + LooksOf(stableScans, folders, nexts, start, vs)
        invariant Grown(old(disks), old(Now()), disks, Now(), folders, nexts)
        invariant SameButObserved(old(launches), launches)
        invariant forall n | n in folders[path] :: n in todo || Visit(k, n) in vs
        decreases todo
      {
        var n :| n in todo;
        todo := todo - {n};
        ghost var was, before := Now(), disks;
        created := ScanFile(folders, nexts, k, cutoff, n, created);
        GrownTrans(old(disks), old(Now()), before, was, disks, Now(), folders, nexts);
        GrownManifests(old(disks), old(Now()), disks, Now(), folders, nexts);
        assert (vs + [Visit(k, n)])[..|vs|] == vs;
        vs := vs + [Visit(k, n)];
      }
    }

    /** Scans every launch; each sees the files up to the registration of the next launch of its instance. */
    method ScanOnce(folders: Folders) returns (created: seq<ArtifactId>, ghost nexts: Nexts, ghost vs: seq<Visit>)
      requires Valid()
      modifies this
      ensures Valid()
      ensures Follows(old(launches), nexts) && Covers(vs, old(launches), folders)
      ensures Scan(Now(), seen, created) == Visits(stableScans, folders, nexts, Scan(old(Now()), old(seen), []), vs)
      ensures Grown(old(disks), old(Now()), disks, Now(), folders, nexts)
      ensures MadeExactly(old(Now()), folders, nexts, Scan(Now(), seen, created))
      ensures var now := LooksOf(stableScans, folders, nexts, Scan(old(Now()), old(seen), []), vs);
              looks == old(looks) + now && created == RipeIds(stableScans, old(looks), now)
    {
      hide WriteAhead, VisitFile, Visits, LooksOf, RipeIds, Counters, InTime, NextsOf, Follows, Grown, MadeExactly, Sorted;
      assert WriteAhead(Now());
      var order := LaunchManifests();
      nexts := NextsOf(launches, order);
      ghost var start := Scan(Now(), seen, []);
      FollowsFrom(launches, order);
      created, vs := ScanInOrder(folders, order, nexts);
      OrderCovers(old(launches), order, folders, vs);
      VisitsMake(stableScans, folders, nexts, start, vs);
      ScanMakesRipe(stableScans, folders, nexts, start, vs, old(looks));
    }

    method ScanInOrder(folders: Folders, order: seq<LaunchKey>, ghost nexts: Nexts) returns (created: seq<ArtifactId>, ghost vs: seq<Visit>)
      requires Valid() && Sorted(launches, order) && nexts == NextsOf(launches, order)
      modifies this
      ensures Valid()
      ensures forall j, n | 0 <= j < |order| && There(folders, old(launches)[order[j]], n) :: Visit(order[j], n) in vs
      ensures Scan(Now(), seen, created) == Visits(stableScans, folders, nexts, Scan(old(Now()), old(seen), []), vs)
      ensures looks == old(looks) + LooksOf(stableScans, folders, nexts, Scan(old(Now()), old(seen), []), vs)
      ensures Grown(old(disks), old(Now()), disks, Now(), folders, nexts)
    {
      SameAgain(launches, launches, launches);
      hide WriteAhead, VisitFile, Visits, LooksOf, Counters, InTime, NextsOf, Next, Grown, There, SameButObserved;
      created, vs := [], [];
      ghost var start := Scan(Now(), seen, []);
      GrownNot(disks, Now(), folders, nexts);
      VisitNothing(stableScans, folders, nexts, start);
      LookAtNothing(stableScans, folders, nexts, start, looks);
      var i := 0;
      while i < |order|
        invariant 0 <= i <= |order|
        invariant Valid()
        invariant Scan(Now(), seen, created) == Visits(stableScans, folders, nexts, start, vs)
        invariant looks == old(looks) + LooksOf(stableScans, folders, nexts, start, vs)
        invariant Grown(old(disks), old(Now()), disks, Now(), folders, nexts)
        invariant SameButObserved(old(launches), launches)
        invariant forall j, n | 0 <= j < i && There(folders, old(launches)[order[j]], n) :: Visit(order[j], n) in vs
      {
        NextsAt(old(launches), order, i);
        ThereStays(folders, old(launches), launches, order[i]);
        NextStays(old(launches), launches, order, i);
        var next := Next(launches, order, i);
        ghost var was, before := Now(), disks;
        ghost var ws;
        created, ws := ScanLaunch(folders, nexts, order[i], next, created);
        GrownTrans(old(disks), old(Now()), before, was, disks, Now(), folders, nexts);
        GrownManifests(old(disks), old(Now()), disks, Now(), folders, nexts);
        VisitsJoin(stableScans, folders, nexts, start, vs, ws);
        LooksJoin(stableScans, folders, nexts, start, vs, ws);
        CoversMore(folders, old(launches), order, i, vs, ws);
        vs := vs + ws;
        i := i + 1;
      }
    }

    /** Scans the same sources as often as a file must be found unchanged. */
    method Rescan(folders: Folders) returns (ghost nexts: Nexts)
      requires Valid()
      modifies this
      ensures Valid() && old(disks) <= disks && old(looks) <= looks
      ensures SameButObserved(old(launches), launches)
      ensures NoTies(old(launches)) ==> Follows(old(launches), nexts) && Settled(old(Now()), Now(), folders, nexts)
    {
      assert Complete([], launches, folders);
      hide WriteAhead, Between, Visits, NoTies, Follows, Settled, Scans, Covers, Complete, SameButObserved, SameTimes;
      SameAgain(launches, launches, launches);
      ghost var start := Scan(Now(), seen, []);
      assert WriteAhead(Now());
      ghost var rounds: seq<seq<Visit>> := [];
      nexts := map[];
      var i := 0;
      while i < stableScans
        invariant i <= stableScans && |rounds| == i
        invariant Valid() && old(disks) <= disks && old(looks) <= looks
        invariant SameButObserved(old(launches), launches)
        invariant Complete(rounds, old(launches), folders)
        invariant i > 0 ==> Follows(old(launches), nexts) && nexts.Keys == launches.Keys
        invariant i == 0 ==> Now() == start.disk && seen == start.seen
        invariant i > 0 && NoTies(old(launches)) ==>
                    Scans(stableScans, folders, nexts, start, rounds) ==
                    Scan(Now(), seen, Scans(stableScans, folders, nexts, start, rounds).made)
      {
        ghost var was := Scan(Now(), seen, []);
        var created;
        ghost var mine, vs;
        created, mine, vs := ScanOnce(folders);
        SameManifests(was.disk, Now(), folders, mine);
        FollowsHasKeys(was.disk.launches, mine);
        SameAgain(old(launches), was.disk.launches, launches);
        CompleteMore(rounds, vs, old(launches), was.disk.launches, folders);
        if i == 0 {
          nexts := mine;
        } else if NoTies(old(launches)) {
          NextsAgree(old(launches), nexts, was.disk.launches, mine);
        }
        ghost var before := Scans(stableScans, folders, nexts, start, rounds);
        MadeDoesNotMatter(stableScans, folders, mine, was, vs, before.made);
        ScansMore(stableScans, folders, nexts, start, rounds, vs);
        rounds := rounds + [vs];
        i := i + 1;
      }
      SameAgain(old(launches), launches, launches);
      if NoTies(old(launches)) { ScansSettle(stableScans, folders, nexts, start, rounds); }
    }

    method CloseOpenLaunches(instance: string, at: real)
      requires Valid()
      modifies this`launches, this`disks
      ensures Valid() && old(disks) <= disks
      ensures launches == Closed(old(launches), instance, at)
      ensures forall i | |old(disks)| <= i < |disks| ::
                disks[i].artifacts == artifacts && disks[i].files == files && PartlyClosed(old(launches), disks[i].launches, instance, at)
    {
      hide WriteAhead, Counters;
      assert WriteAhead(Now());
      var todo := launches.Keys;
      while todo != {}
        invariant Valid() && old(disks) <= disks
        invariant todo <= old(launches).Keys == launches.Keys
        invariant forall k | k in launches ::
                    launches[k] == if k in todo then old(launches)[k] else ClosedOne(old(launches)[k], instance, at)
        invariant forall i | |old(disks)| <= i < |disks| ::
                    disks[i].artifacts == artifacts && disks[i].files == files && PartlyClosed(old(launches), disks[i].launches, instance, at)
        decreases todo
      {
        var k :| k in todo;
        todo := todo - {k};
        var l := launches[k];
        if l.instance == instance && l.closedAt.None? {
          ClosingKeepsOrder(Now(), k, at);
          launches := launches[k := l.(closedAt := Some(at))];
          disks := disks + [Now()];
        }
      }
    }

    /**
      Registers a launch: finishes the open windows, closes them, and takes what is there already as the baseline. A
      launch registered before is returned as it is; one that does not collect results only closes.
     */
    method RegisterLaunch(instance: string, launchId: int, server: Option<Server>, folders: Folders, now: real)
      returns (r: Result<Option<Launch>, LaunchError>, ghost scanned: Disk, ghost nexts: Nexts)
      requires Valid()
      modifies this
      ensures Valid() && old(disks) <= disks && old(looks) <= looks
      ensures r.Err? ==> Now() == old(Now()) && disks == old(disks)
      ensures r.Err? <==> Refusal(launchId, server).Some?
      ensures r.Err? ==> r.error == Refusal(launchId, server).value
      ensures r.Ok? ==>
                var s := server.value;
                var key := LaunchKey(launchId, Safe(s.correlation));
                if s.collectResults && key in old(launches) then
                  r.value == Some(old(launches)[key]) && disks == old(disks)
                else
                  && SameButObserved(old(launches), scanned.launches)
                  && (NoTies(old(launches)) ==> Follows(old(launches), nexts) && Settled(old(Now()), scanned, folders, nexts))
                  && artifacts == scanned.artifacts && files == scanned.files
                  && r.value == (if s.collectResults then Some(Opened(instance, launchId, s, folders, now)) else None)
                  && launches == (if s.collectResults
                                  then Closed(scanned.launches, instance, now)[key := Opened(instance, launchId, s, folders, now)]
                                  else Closed(scanned.launches, instance, now))
    {
      hide WriteAhead, Between, Settled, NoTies, Safe;
      scanned := Now();
      nexts := map[];
      if server.None? { return Err(ServerMissing), scanned, nexts; }
      var s := server.value;
      if s.collectResults && (launchId <= 0 || s.correlation == "" || s.uploadUrl == "" || s.resultsPath == "") {
        return Err(MetadataIncomplete), scanned, nexts;
      }
      var key := LaunchKey(launchId, Safe(s.correlation));
      if s.collectResults {
        if key.safe == "" { return Err(CorrelationInvalid), scanned, nexts; }
        if key in launches { return Ok(Some(launches[key])), scanned, nexts; }
      }
      nexts := Rescan(folders);
      scanned := Now();
      CloseOpenLaunches(instance, now);
      if !s.collectResults { return Ok(None), scanned, nexts; }
      var baseline := if s.resultsPath in folders then folders[s.resultsPath].Keys else {};
      var l := Launch(instance, launchId, s.correlation, s.uploadUrl, s.resultsPath, now, None, baseline, {});
      assert WriteAhead(Now());
      LaunchKeepsOrder(Now(), l);
      assert Key(l) == key;
      launches := launches[key := l];
      disks := disks + [Now()];
      r := Ok(Some(l));
    }

    method CloseResultWindow(instance: string, folders: Folders, now: real) returns (ghost scanned: Disk, ghost nexts: Nexts)
      requires Valid()
      modifies this
      ensures Valid() && old(disks) <= disks && old(looks) <= looks
      ensures SameButObserved(old(launches), scanned.launches)
      ensures NoTies(old(launches)) ==> Follows(old(launches), nexts) && Settled(old(Now()), scanned, folders, nexts)
      ensures Now() == scanned.(launches := Closed(scanned.launches, instance, now))
    {
      hide WriteAhead, Between, Settled, NoTies;
      nexts := Rescan(folders);
      scanned := Now();
      CloseOpenLaunches(instance, now);
    }

    /** The artifacts to deliver now, each once. */
    method Pending(now: real) returns (due: seq<ArtifactId>)
      ensures Distinct(due)
      ensures forall id :: id in due <==> id in artifacts && artifacts[id].status == Status.Pending && artifacts[id].nextAttemptAt <= now
    {
      due := [];
      var todo := artifacts.Keys;
      while todo != {}
        invariant todo <= artifacts.Keys && Distinct(due)
        invariant forall id | id in due :: id !in todo
        invariant forall id :: id in due <==> id in artifacts && id !in todo
                                              && artifacts[id].status == Status.Pending && artifacts[id].nextAttemptAt <= now
        decreases todo
      {
        var id :| id in todo;
        todo := todo - {id};
        if artifacts[id].status == Status.Pending && artifacts[id].nextAttemptAt <= now { due := due + [id]; }
      }
    }

    method MarkDelivered(id: ArtifactId)
      requires Valid()
      modifies this`artifacts, this`disks
      ensures Valid() && old(disks) <= disks
      ensures artifacts == if id in old(artifacts) then old(artifacts)[id := MarkedDelivered(old(artifacts)[id])] else old(artifacts)
    {
      hide WriteAhead, Purgeable;
      if id in artifacts {
        RewriteKeepsOrder(Now(), id, MarkedDelivered(artifacts[id]));
        artifacts := artifacts[id := MarkedDelivered(artifacts[id])];
        disks := disks + [Now()];
      }
    }

    method MarkFailed(id: ArtifactId, now: real)
      requires Valid()
      modifies this`artifacts, this`disks
      ensures Valid() && old(disks) <= disks
      ensures artifacts == if id in old(artifacts) then old(artifacts)[id := MarkedFailed(old(artifacts)[id], now)] else old(artifacts)
    {
      hide WriteAhead, Purgeable;
      if id in artifacts {
        RewriteKeepsOrder(Now(), id, MarkedFailed(artifacts[id], now));
        artifacts := artifacts[id := MarkedFailed(artifacts[id], now)];
        disks := disks + [Now()];
      }
    }

    /** Scans, then makes the delivered artifacts that match pending again; purged ones stay purged. */
    method Resync(instance: Option<string>, launchId: Option<int>, correlation: Option<string>, folders: Folders)
      returns (total: nat, reset: nat, ghost scanned: Disk, ghost nexts: Nexts)
      requires Valid()
      modifies this
      ensures Valid() && old(disks) <= disks && old(looks) <= looks
      ensures Follows(old(launches), nexts) && Between(old(Now()), scanned, folders, nexts)
      ensures launches == scanned.launches && files == scanned.files
      ensures artifacts == RequeuedOf(scanned.artifacts, MatchesOf(scanned.artifacts, artifacts.Keys, instance, launchId, correlation))
      ensures total == |MatchesOf(scanned.artifacts, artifacts.Keys, instance, launchId, correlation)|
      ensures reset == |DeliveredOf(scanned.artifacts, MatchesOf(scanned.artifacts, artifacts.Keys, instance, launchId, correlation))|
    {
      hide WriteAhead, Between, Visits, Purgeable, Matches;
      var created;
      ghost var vs;
      created, nexts, vs := ScanOnce(folders);
      scanned := Now();
      total, reset := RequeueMatching(instance, launchId, correlation);
    }

    method RequeueMatching(instance: Option<string>, launchId: Option<int>, correlation: Option<string>)
      returns (total: nat, reset: nat)
      requires Valid()
      modifies this`artifacts, this`disks
      ensures Valid() && old(disks) <= disks
      ensures artifacts == RequeuedOf(old(artifacts), MatchesOf(old(artifacts), artifacts.Keys, instance, launchId, correlation))
      ensures total == |MatchesOf(old(artifacts), artifacts.Keys, instance, launchId, correlation)|
      ensures reset == |DeliveredOf(old(artifacts), MatchesOf(old(artifacts), artifacts.Keys, instance, launchId, correlation))|
    {
      hide WriteAhead, Purgeable, Matches, RequeuedOf, DeliveredOf, MatchesOf;
      total, reset := 0, 0;
      ghost var was := artifacts;
      ghost var matched: set<ArtifactId> := {};
      RequeuedNothing(was, instance, launchId, correlation);
      var todo := artifacts.Keys;
      while todo != {}
        invariant Valid() && old(disks) <= disks
        invariant todo <= was.Keys == artifacts.Keys
        invariant matched == MatchesOf(was, was.Keys - todo, instance, launchId, correlation)
        invariant artifacts == RequeuedOf(was, matched)
        invariant total == |matched| && reset == |DeliveredOf(was, matched)|
        decreases todo
      {
        var id :| id in todo;
        MatchStep(was, todo, id, instance, launchId, correlation);
        RequeueStep(was, matched, id);
        todo := todo - {id};
        if Matches(artifacts[id], id, instance, launchId, correlation) {
          total := total + 1;
          matched := matched + {id};
          if artifacts[id].status == Delivered {
            Requeue(id);
            reset := reset + 1;
          }
        }
      }
      assert was.Keys - todo == artifacts.Keys;
    }

    method Requeue(id: ArtifactId)
      requires Valid() && id in artifacts
      modifies this`artifacts, this`disks
      ensures Valid() && old(disks) <= disks
      ensures artifacts == old(artifacts)[id := Requeued(old(artifacts)[id])]
    {
      hide WriteAhead, Purgeable;
      StaysPurgeable(Now(), id);
      RewriteKeepsOrder(Now(), id, Requeued(artifacts[id]));
      artifacts := artifacts[id := Requeued(artifacts[id])];
      disks := disks + [Now()];
    }

    /** The two writes of the purge of one artifact. */
    method Purge(id: ArtifactId)
      requires Valid() && id in artifacts && Purgeable(id.filename)
      modifies this`artifacts, this`files, this`disks
      ensures Valid() && old(disks) <= disks
      ensures Now() == PurgedOf(old(Now()), {id})
    {
      hide WriteAhead, Purgeable;
      assert WriteAhead(Now());
      PurgeKeepsOrder(Now(), id);
      if id in files {
        files := files - {id};
        disks := disks + [Now()];
      }
      assert Now() == WithoutCopy(old(Now()), id);
      artifacts := artifacts[id := artifacts[id].(status := Purged, nextAttemptAt := 0.0)];
      disks := disks + [Now()];
    }

    method PurgeOne(id: ArtifactId, instance: Option<string>, execute: bool) returns (verdict: Verdict, stored: Option<nat>)
      requires Valid()
      modifies this`artifacts, this`files, this`disks
      ensures Valid() && old(disks) <= disks
      ensures verdict == if id !in old(artifacts) then NotFound
                         else if Eligible(old(Now()), id, instance) then Removable else Protected
      ensures verdict == Removable ==> stored == if id in old(files) then Some(|old(files)[id]|) else None
      ensures Now() == if verdict == Removable && execute then PurgedOf(old(Now()), {id}) else old(Now())
      ensures verdict != Removable || !execute ==> disks == old(disks)
    {
      hide WriteAhead, Purgeable, PurgedOf;
      stored := None;
      if id !in artifacts { return NotFound, stored; }
      if instance.Some? && instance.value != artifacts[id].instance { return Protected, stored; }
      if artifacts[id].status != Delivered || !Purgeable(id.filename) { return Protected, stored; }
      if id in files { stored := Some(|files[id]|); }
      if execute { Purge(id); }
      verdict := Removable;
    }

    /** Deletes the copy, then rewrites the manifest, of each delivered PRACTICE or WARMUP artifact asked for. */
    method PurgeDelivered(requested: seq<ArtifactId>, instance: Option<string>, execute: bool) returns (r: Option<Summary>)
      requires Valid() && Distinct(requested)
      modifies this`artifacts, this`files, this`disks
      ensures Valid() && old(disks) <= disks
      ensures r.None? <==> |requested| > 1000
      ensures r.None? || !execute ==> Now() == old(Now()) && disks == old(disks)
      ensures r.Some? && execute ==> Now() == PurgedOf(old(Now()), EligibleOf(old(Now()), requested, instance))
      ensures r.Some? ==> r.value.dryRun == !execute && r.value.requested == |requested| && Tallied(old(Now()), requested, instance, execute, r.value)
    {
      hide WriteAhead, Purgeable, PurgedOf, EligibleOf, Eligible, Tallied, Added, Bytes, Unknown;
      if |requested| > 1000 { return None; }
      var summary := Summary(!execute, |requested|, 0, 0, 0, 0, 0, 0);
      ghost var was := Now();
      NothingTallied(was, requested[..0], instance, execute, summary);
      var i := 0;
      while i < |requested|
        invariant 0 <= i <= |requested|
        invariant Valid() && old(disks) <= disks
        invariant Now() == if execute then PurgedOf(was, EligibleOf(was, requested[..i], instance)) else was
        invariant !execute ==> disks == old(disks)
        invariant summary.dryRun == !execute && summary.requested == |requested|
        invariant Tallied(was, requested[..i], instance, execute, summary)
      {
        var id := requested[i];
        PurgeStep(was, requested, i, instance, execute, Now());
        var verdict, stored := PurgeOne(id, instance, execute);
        TallyStep(was, requested, i, instance, execute, summary, verdict, stored);
        summary := Added(summary, verdict, stored, execute);
        i := i + 1;
      }
      assert requested[..i] == requested;
      r := Some(summary);
    }
  }

  lemma FollowsFrom(launches: map<LaunchKey, Launch>, order: seq<LaunchKey>)
    requires Sorted(launches, order)
    ensures Follows(launches, NextsOf(launches, order))
  {
    hide Sorted, NextsOf;
  }

  lemma LookAtNothing(stable: nat, folders: Folders, nexts: Nexts, s: Scan, looks: seq<Look>)
    ensures looks + LooksOf(stable, folders, nexts, s, []) == looks
  {
  }

  lemma ThereStays(folders: Folders, a: map<LaunchKey, Launch>, b: map<LaunchKey, Launch>, k: LaunchKey)
    requires SameButObserved(a, b) && k in a
    ensures a.Keys == b.Keys && forall n :: There(folders, a[k], n) <==> There(folders, b[k], n)
  {
  }

  lemma NextStays(a: map<LaunchKey, Launch>, b: map<LaunchKey, Launch>, order: seq<LaunchKey>, i: nat)
    requires SameButObserved(a, b) && i < |order| && forall k | k in order :: k in a
    ensures Next(a, order, i) == Next(b, order, i)
  {
    assert i + 1 < |order| ==> order[i + 1] in a && b[order[i + 1]].registeredAt == a[order[i + 1]].registeredAt;
  }

  lemma CoversMore(folders: Folders, launches: map<LaunchKey, Launch>, order: seq<LaunchKey>, i: nat, vs: seq<Visit>, ws: seq<Visit>)
    requires i < |order| && forall k | k in order :: k in launches
    requires forall j, n | 0 <= j < i && There(folders, launches[order[j]], n) :: Visit(order[j], n) in vs
    requires forall n | There(folders, launches[order[i]], n) :: Visit(order[i], n) in ws
    ensures forall j, n | 0 <= j < i + 1 && There(folders, launches[order[j]], n) :: Visit(order[j], n) in vs + ws
  {
    hide There;
  }

  lemma OrderCovers(launches: map<LaunchKey, Launch>, order: seq<LaunchKey>, folders: Folders, vs: seq<Visit>)
    requires Sorted(launches, order)
    requires forall j, n | 0 <= j < |order| && There(folders, launches[order[j]], n) :: Visit(order[j], n) in vs
    ensures Covers(vs, launches, folders)
  {
    hide There, InTime;
  }

  /** Scanning never changes a manifest except for its observed names. */
  lemma SameManifests(d: Disk, e: Disk, folders: Folders, nexts: Nexts)
    requires Between(d, e, folders, nexts)
    ensures d.launches.Keys == e.launches.Keys
    ensures forall k | k in d.launches :: e.launches[k] == d.launches[k].(observed := e.launches[k].observed)
    ensures SameButObserved(d.launches, e.launches)
  {
    assert forall k | k in d.launches :: LaunchBetween(d, e, folders, nexts, k);
  }

  lemma KeyOfManifest(d: Disk, k: LaunchKey)
    requires WriteAhead(d) && k in d.launches
    ensures Key(d.launches[k]) == k
  {
  }

  lemma NothingTallied(d: Disk, none: seq<ArtifactId>, instance: Option<string>, execute: bool, s: Summary)
    requires none == [] && s == Summary(s.dryRun, s.requested, 0, 0, 0, 0, 0, 0)
    ensures EligibleOf(d, none, instance) == {} && PurgedOf(d, {}) == d && Tallied(d, none, instance, execute, s)
  {
    assert EligibleOf(d, none, instance) == {} && Unknown(d, none) == {};
  }

  lemma TallyStep(d: Disk, ids: seq<ArtifactId>, i: nat, instance: Option<string>, execute: bool, s: Summary, verdict: Verdict, stored: Option<nat>)
    requires i < |ids| && Distinct(ids) && Tallied(d, ids[..i], instance, execute, s)
    requires verdict == if ids[i] !in d.artifacts then NotFound else if Eligible(d, ids[i], instance) then Removable else Protected
    requires verdict == Removable ==> stored == if ids[i] in d.files then Some(|d.files[ids[i]]|) else None
    ensures Tallied(d, ids[..i + 1], instance, execute, Added(s, verdict, stored, execute))
    ensures Added(s, verdict, stored, execute).dryRun == s.dryRun && Added(s, verdict, stored, execute).requested == s.requested
  {
    hide EligibleOf, Unknown, Bytes, Eligible;
    CountStep(d, ids, i, instance);
    if Eligible(d, ids[i], instance) { EligibleIsKnown(d, ids[i], instance); }
  }

  /** How the numbers behind the counters grow. */
  lemma CountStep(d: Disk, ids: seq<ArtifactId>, i: nat, instance: Option<string>)
    requires i < |ids| && Distinct(ids)
    ensures
      var e, f := EligibleOf(d, ids[..i], instance), EligibleOf(d, ids[..i + 1], instance);
      var one := if Eligible(d, ids[i], instance) then 1 else 0;
      && |f| == |e| + one
      && |f - d.files.Keys| == |e - d.files.Keys| + (if ids[i] in d.files then 0 else one)
      && |Unknown(d, ids[..i + 1])| == |Unknown(d, ids[..i])| + (if ids[i] in d.artifacts then 0 else 1)
    ensures Bytes(d, ids[..i + 1], instance) ==
            Bytes(d, ids[..i], instance) + if Eligible(d, ids[i], instance) && ids[i] in d.files then |d.files[ids[i]]| else 0
  {
    hide EligibleOf, Unknown, Bytes, Eligible;
    EligibleStep(d, ids, i, instance);
    var e, f := EligibleOf(d, ids[..i], instance), EligibleOf(d, ids[..i + 1], instance);
    Grows(e, f, {}, ids[i], Eligible(d, ids[i], instance));
    Grows(e, f, d.files.Keys, ids[i], Eligible(d, ids[i], instance));
    Grows(Unknown(d, ids[..i]), Unknown(d, ids[..i + 1]), {}, ids[i], ids[i] !in d.artifacts);
  }

  lemma Grows<T>(a: set<T>, b: set<T>, without: set<T>, x: T, more: bool)
    requires x !in a && b == a + if more then {x} else {}
    ensures |b - without| == |a - without| + if more && x !in without then 1 else 0
    ensures without == {} ==> |b| == |a| + if more then 1 else 0
  {
    if more {
      assert b - without == (a - without) + if x in without then {} else {x};
    } else {
      assert b == a;
    }
  }

  lemma EligibleIsKnown(d: Disk, id: ArtifactId, instance: Option<string>)
    requires Eligible(d, id, instance)
    ensures id in d.artifacts
  {
  }

  lemma PurgedJoins(d: Disk, gone: set<ArtifactId>, id: ArtifactId)
    ensures PurgedOf(PurgedOf(d, gone), {id}) == PurgedOf(d, gone + {id})
  {
  }

  lemma OthersAreKept(d: Disk, gone: set<ArtifactId>, id: ArtifactId)
    requires id !in gone
    ensures
      var e := PurgedOf(d, gone);
      && (id in e.artifacts <==> id in d.artifacts) && (id in e.files <==> id in d.files)
      && (id in d.artifacts ==> e.artifacts[id] == d.artifacts[id]) && (id in d.files ==> e.files[id] == d.files[id])
  {
  }

  /** After the first i artifacts the next one is judged as at the start, and purging it extends what is purged. */
  lemma PurgeStep(d: Disk, ids: seq<ArtifactId>, i: nat, instance: Option<string>, execute: bool, e: Disk)
    requires i < |ids| && Distinct(ids)
    requires e == if execute then PurgedOf(d, EligibleOf(d, ids[..i], instance)) else d
    ensures Eligible(e, ids[i], instance) == Eligible(d, ids[i], instance)
    ensures (ids[i] in e.artifacts <==> ids[i] in d.artifacts) && (ids[i] in e.files <==> ids[i] in d.files)
    ensures ids[i] in d.files ==> e.files[ids[i]] == d.files[ids[i]]
    ensures (if execute && Eligible(d, ids[i], instance) then PurgedOf(e, {ids[i]}) else e) ==
            if execute then PurgedOf(d, EligibleOf(d, ids[..i + 1], instance)) else d
    ensures Eligible(d, ids[i], instance) ==> ids[i] in d.artifacts
  {
    hide EligibleOf, Unknown, Bytes, PurgedOf, Purgeable;
    var gone := EligibleOf(d, ids[..i], instance);
    EligibleStep(d, ids, i, instance);
    OthersAreKept(d, gone, ids[i]);
    PurgedJoins(d, gone, ids[i]);
    if !Eligible(d, ids[i], instance) { assert EligibleOf(d, ids[..i + 1], instance) == gone; }
  }

  lemma StaysPurgeable(d: Disk, id: ArtifactId)
    requires WriteAhead(d) && id in d.artifacts
    ensures d.artifacts[id].status == Purged ==> Purgeable(id.filename)
  {
    hide Purgeable;
  }

  lemma RequeuedNothing(artifacts: map<ArtifactId, Artifact>, instance: Option<string>, launchId: Option<int>, correlation: Option<string>)
    ensures RequeuedOf(artifacts, {}) == artifacts && DeliveredOf(artifacts, {}) == {}
    ensures MatchesOf(artifacts, artifacts.Keys - artifacts.Keys, instance, launchId, correlation) == {}
  {
  }

  lemma MatchStep(artifacts: map<ArtifactId, Artifact>, todo: set<ArtifactId>, id: ArtifactId,
                  instance: Option<string>, launchId: Option<int>, correlation: Option<string>)
    requires id in todo && todo <= artifacts.Keys
    ensures
      var m := MatchesOf(artifacts, artifacts.Keys - todo, instance, launchId, correlation);
      && id !in m
      && MatchesOf(artifacts, artifacts.Keys - (todo - {id}), instance, launchId, correlation) ==
         m + if Matches(artifacts[id], id, instance, launchId, correlation) then {id} else {}
  {
    hide Matches;
  }

  lemma RequeueStep(artifacts: map<ArtifactId, Artifact>, ids: set<ArtifactId>, id: ArtifactId)
    requires id in artifacts && id !in ids
    ensures
      var r := RequeuedOf(artifacts, ids);
      && RequeuedOf(artifacts, ids + {id}) == r[id := Requeued(r[id])]
      && (artifacts[id].status != Delivered ==> RequeuedOf(artifacts, ids + {id}) == r)
      && DeliveredOf(artifacts, ids + {id}) == DeliveredOf(artifacts, ids) + (if artifacts[id].status == Delivered then {id} else {})
      && id !in DeliveredOf(artifacts, ids)
      && r.Keys == artifacts.Keys && r[id] == artifacts[id]
  {
    var r := RequeuedOf(artifacts, ids);
    assert artifacts[id].status != Delivered ==> r[id := Requeued(r[id])] == r;
  }

  lemma EligibleStep(d: Disk, ids: seq<ArtifactId>, i: nat, instance: Option<string>)
    requires i < |ids| && Distinct(ids)
    ensures
      var more := if Eligible(d, ids[i], instance) then {ids[i]} else {};
      && ids[i] !in EligibleOf(d, ids[..i], instance) && ids[i] !in Unknown(d, ids[..i])
      && EligibleOf(d, ids[..i + 1], instance) == EligibleOf(d, ids[..i], instance) + more
      && Unknown(d, ids[..i + 1]) == Unknown(d, ids[..i]) + (if ids[i] in d.artifacts then {} else {ids[i]})
    ensures Bytes(d, ids[..i + 1], instance) ==
            Bytes(d, ids[..i], instance) + if Eligible(d, ids[i], instance) && ids[i] in d.files then |d.files[ids[i]]| else 0
  {
    hide Purgeable;
    assert ids[..i + 1] == ids[..i] + [ids[i]];
    assert ids[..i + 1][..i] == ids[..i];
  }

  lemma RewriteKeepsOrder(d: Disk, id: ArtifactId, a: Artifact)
    requires WriteAhead(d) && id in d.artifacts && a.size == d.artifacts[id].size && (a.status == Purged ==> Purgeable(id.filename))
    ensures WriteAhead(WithArtifact(d, id, a))
  {
    ManifestKeepsOrder(d, id, a);
  }

  lemma ClosingKeepsOrder(d: Disk, k: LaunchKey, at: real)
    requires WriteAhead(d) && k in d.launches
    ensures Key(d.launches[k]) == k && WriteAhead(d.(launches := d.launches[k := d.launches[k].(closedAt := Some(at))]))
  {
    var l := d.launches[k].(closedAt := Some(at));
    forall n | n in l.observed ensures Announced(d, l, n) { assert Announced(d, d.launches[k], n); }
    LaunchKeepsOrder(d, l);
  }

  /** The disk after each of the two writes of a purge. */
  lemma PurgeKeepsOrder(d: Disk, id: ArtifactId)
    requires WriteAhead(d) && id in d.artifacts && Purgeable(id.filename)
    ensures WriteAhead(WithoutCopy(d, id))
    ensures WriteAhead(WithArtifact(WithoutCopy(d, id), id, d.artifacts[id].(status := Purged, nextAttemptAt := 0.0)))
  {
    hide Purgeable;
    DeletionKeepsOrder(d, id);
    RewriteKeepsOrder(WithoutCopy(d, id), id, d.artifacts[id].(status := Purged, nextAttemptAt := 0.0));
  }

  lemma FollowsHasKeys(launches: map<LaunchKey, Launch>, nexts: Nexts)
    requires Follows(launches, nexts)
    ensures nexts.Keys == launches.Keys
  {
    hide Sorted, NextOf;
  }

  lemma SameAgain(a: map<LaunchKey, Launch>, b: map<LaunchKey, Launch>, c: map<LaunchKey, Launch>)
    ensures SameButObserved(a, a)
    ensures SameButObserved(a, b) ==> a.Keys == b.Keys && SameTimes(a, b)
    ensures SameButObserved(a, b) && SameButObserved(b, c) ==> SameButObserved(a, c)
  {
  }

  lemma CompleteMore(rounds: seq<seq<Visit>>, vs: seq<Visit>, a: map<LaunchKey, Launch>, b: map<LaunchKey, Launch>, folders: Folders)
    requires Complete(rounds, a, folders) && SameButObserved(a, b) && Covers(vs, b, folders)
    ensures Complete(rounds + [vs], a, folders)
  {
    assert Covers(vs, a, folders);
    hide Covers;
  }

  lemma ScansMore(stable: nat, folders: Folders, nexts: Nexts, s: Scan, rounds: seq<seq<Visit>>, vs: seq<Visit>)
    ensures
      var before := Scans(stable, folders, nexts, s, rounds);
      && (rounds == [] ==> before == s)
      && Scans(stable, folders, nexts, s, rounds + [vs]) == Visits(stable, folders, nexts, before, vs)
  {
    hide Visits;
    assert (rounds + [vs])[..|rounds|] == rounds;
  }

  /** The list of artifacts made so far has no influence on a scan. */
  lemma {:induction false} MadeDoesNotMatter(stable: nat, folders: Folders, nexts: Nexts, s: Scan, vs: seq<Visit>, made: seq<ArtifactId>)
    ensures
      var a, b := Visits(stable, folders, nexts, s, vs), Visits(stable, folders, nexts, s.(made := made), vs);
      a.disk == b.disk && a.seen == b.seen
    decreases |vs|
  {
    hide Candidate, Enqueued, Counted, There;
    if vs != [] { MadeDoesNotMatter(stable, folders, nexts, s, vs[..|vs| - 1], made); }
  }
}
