/**
  Launch windows against a clock and against results directories that change at any moment, also in the middle of a
  registration, and a crash between any two writes. A scan may take a file as soon as its filter lets it.
 */
module SpoolWindows {
  import opened Common
  import opened Spool
  import opened SpoolStore

  /** A file with the number it got when it appeared. */
  datatype File = File(uid: nat, src: Source)

  datatype Request = Request(instance: string, launchId: int, server: Server)

  /** What the holder of the spool's lock is doing. */
  datatype Phase =
    | Idle
    | Closing(req: Request, now: real)
    | Listed(req: Request, now: real, listed: nat, baseline: set<string>)
    | Taking(at: nat, name: string, uid: nat, src: Source)
    | Telling(at: nat, name: string, uid: nat, src: Source)

  /** A registered launch, and how many files had ever appeared when its baseline was listed. */
  datatype Entry = Entry(key: LaunchKey, listed: nat)

  /** A file that was made into an artifact for a launch. */
  datatype Taken = Taken(uid: nat, at: nat, id: ArtifactId)

  datatype World = World(
    clock: real, births: seq<real>, folders: map<string, map<string, File>>,
    disk: Disk, phase: Phase, order: seq<Entry>, taken: seq<Taken>)

  datatype Step =
    | Tick(to: real)
    | NewFolder(path: string)
    | Appear(path: string, name: string, src: Source)
    | Rewrite(path: string, name: string, src: Source)
    | Remove(path: string, name: string)
    | Register(req: Request)
    | CloseOne(key: LaunchKey)
    | OnlyClosed
    | ListBaseline
    | OpenLaunch
    | Take(at: nat, name: string, next: Option<real>)
    | Announce
    | Observe
    | Crash

  function KeyOf(req: Request): LaunchKey { LaunchKey(req.launchId, Safe(req.server.correlation)) }

  predicate At(w: World, path: string, name: string) { path in w.folders && name in w.folders[path] }

  predicate Known(w: World, i: nat) { i < |w.order| && w.order[i].key in w.disk.launches }

  function LaunchAt(w: World, i: nat): Launch
    requires Known(w, i)
  {
    w.disk.launches[w.order[i].key]
  }

  predicate AllClosed(w: World, instance: string) {
    forall k | k in w.disk.launches && w.disk.launches[k].instance == instance :: w.disk.launches[k].closedAt.Some?
  }

  predicate Enabled(w: World, s: Step) {
    match s
    case Tick(to) => to >= w.clock
    case NewFolder(path) => path !in w.folders
    case Appear(path, name, src) => path in w.folders && name !in w.folders[path] && src.mtime >= w.clock
    case Rewrite(path, name, src) =>
      At(w, path, name) && w.folders[path][name].uid < |w.births| && src.mtime >= w.births[w.folders[path][name].uid]
    case Remove(path, name) => At(w, path, name)
    case Register(req) =>
      && w.phase.Idle? && Refusal(req.launchId, Some(req.server)).None?
      && (req.server.collectResults ==> KeyOf(req) !in w.disk.launches)
    case CloseOne(key) =>
      && w.phase.Closing? && key in w.disk.launches
      && w.disk.launches[key].instance == w.phase.req.instance && w.disk.launches[key].closedAt.None?
    case OnlyClosed => w.phase.Closing? && AllClosed(w, w.phase.req.instance) && !w.phase.req.server.collectResults
    case ListBaseline => w.phase.Closing? && AllClosed(w, w.phase.req.instance) && w.phase.req.server.collectResults
    case OpenLaunch => w.phase.Listed?
    case Take(at, name, next) =>
      && w.phase.Idle? && Known(w, at) && At(w, LaunchAt(w, at).resultsPath, name)
      && Candidate(LaunchAt(w, at), next, name, w.folders[LaunchAt(w, at).resultsPath][name].src.mtime)
    case Announce => w.phase.Taking? && Known(w, w.phase.at)
    case Observe => w.phase.Telling? && Known(w, w.phase.at)
    case Crash => true
  }

  function WithFile(w: World, path: string, name: string, f: File): World
    requires path in w.folders
  {
    w.(folders := w.folders[path := w.folders[path][name := f]])
  }

  function Apply(w: World, s: Step): World
    requires Enabled(w, s)
  {
    match s
    case Tick(to) => w.(clock := to)
    case NewFolder(path) => w.(folders := w.folders[path := map[]])
    case Appear(path, name, src) => WithFile(w, path, name, File(|w.births|, src)).(births := w.births + [w.clock])
    case Rewrite(path, name, src) => WithFile(w, path, name, File(w.folders[path][name].uid, src))
    case Remove(path, name) => w.(folders := w.folders[path := w.folders[path] - {name}])
    case Register(req) => w.(phase := Closing(req, w.clock))
    case CloseOne(key) =>
      w.(disk := w.disk.(launches := w.disk.launches[key := ClosedOne(w.disk.launches[key], w.phase.req.instance, w.phase.now)]))
    case OnlyClosed => w.(phase := Idle)
    case ListBaseline =>
      var path := w.phase.req.server.resultsPath;
      w.(phase := Listed(w.phase.req, w.phase.now, |w.births|, if path in w.folders then w.folders[path].Keys else {}))
    case OpenLaunch =>
      var req := w.phase.req;
      var l := Launch(req.instance, req.launchId, req.server.correlation, req.server.uploadUrl, req.server.resultsPath,
                      w.phase.now, None, w.phase.baseline, {});
      w.(disk := WithLaunch(w.disk, l), order := w.order + [Entry(Key(l), w.phase.listed)], phase := Idle)
    case Take(at, name, next) =>
      var l := LaunchAt(w, at);
      var f := w.folders[l.resultsPath][name];
      w.(disk := CopyWritten(w.disk, l, name, f.src), phase := Taking(at, name, f.uid, f.src))
    case Announce =>
      var l, p := LaunchAt(w, w.phase.at), w.phase;
      w.(disk := WithArtifact(w.disk, IdOf(l, p.name, p.src.raw), NewArtifact(l, p.src)),
         taken := w.taken + [Taken(p.uid, p.at, IdOf(l, p.name, p.src.raw))],
         phase := Telling(p.at, p.name, p.uid, p.src))
    case Observe =>
      var l, p := LaunchAt(w, w.phase.at), w.phase;
      w.(disk := WithLaunch(w.disk, Observing(l, p.name)), phase := Idle)
    case Crash => w.(phase := Idle)
  }

  /**
    The world outside is free: time may stand still or go on, directories and files may come, change and go at any moment of
    a registration or a take, as long as no file is dated before it appeared; and the agent may crash at any moment.
   */
  lemma OutsideIsFree(w: World, to: real, path: string, name: string, src: Source)
    ensures to >= w.clock ==> Enabled(w, Tick(to)) && Apply(w, Tick(to)).clock == to
    ensures path !in w.folders ==> Enabled(w, NewFolder(path)) && Apply(w, NewFolder(path)).folders == w.folders[path := map[]]
    ensures path in w.folders && name !in w.folders[path] && src.mtime >= w.clock ==>
              && Enabled(w, Appear(path, name, src))
              && At(Apply(w, Appear(path, name, src)), path, name)
              && Apply(w, Appear(path, name, src)).folders[path][name] == File(|w.births|, src)
    ensures At(w, path, name) && w.folders[path][name].uid < |w.births| && src.mtime >= w.births[w.folders[path][name].uid] ==>
              && Enabled(w, Rewrite(path, name, src))
              && Apply(w, Rewrite(path, name, src)).folders[path][name] == File(w.folders[path][name].uid, src)
    ensures At(w, path, name) ==> Enabled(w, Remove(path, name)) && !At(Apply(w, Remove(path, name)), path, name)
    ensures Enabled(w, Crash) && Apply(w, Crash) == w.(phase := Idle)
  {
  }

  // ---------------------------------------------------------------- the invariant

  ghost predicate FilesInv(w: World) {
    && (forall u | 0 <= u < |w.births| :: w.births[u] <= w.clock)
    && forall p, n | p in w.folders && n in w.folders[p] ::
         w.folders[p][n].uid < |w.births| && w.folders[p][n].src.mtime >= w.births[w.folders[p][n].uid]
  }

  /** Files that were there when a baseline was listed, and still are, are in it. */
  ghost predicate Covered(w: World, path: string, listed: nat, baseline: set<string>) {
    forall n | At(w, path, n) && w.folders[path][n].uid < listed :: n in baseline
  }

  ghost predicate BornSince(w: World, listed: nat, since: real) {
    listed <= |w.births| && forall u | listed <= u < |w.births| :: w.births[u] >= since
  }

  ghost predicate TimesInv(w: World, l: Launch) {
    l.registeredAt <= w.clock && (l.closedAt.Some? ==> l.registeredAt <= l.closedAt.value <= w.clock)
  }

  ghost predicate EntryInv(w: World, i: nat)
    requires Known(w, i)
  {
    var l := LaunchAt(w, i);
    && TimesInv(w, l)
    && BornSince(w, w.order[i].listed, l.registeredAt)
    && Covered(w, l.resultsPath, w.order[i].listed, l.baseline)
  }

  ghost predicate OrderInv(w: World) {
    && (forall i | 0 <= i < |w.order| :: Known(w, i))
    && (forall i, j | 0 <= i < j < |w.order| :: w.order[i].key != w.order[j].key)
    && (forall k | k in w.disk.launches :: exists i :: 0 <= i < |w.order| && w.order[i].key == k)
    && (forall k | k in w.disk.launches :: Key(w.disk.launches[k]) == k)
    && forall i | 0 <= i < |w.order| :: EntryInv(w, i)
  }

  /** The earlier of two launches of an instance was closed before the later was registered. */
  ghost predicate Apart(w: World, i: nat, j: nat)
    requires Known(w, i) && Known(w, j)
  {
    LaunchAt(w, i).instance == LaunchAt(w, j).instance ==>
      LaunchAt(w, i).closedAt.Some? && LaunchAt(w, i).closedAt.value <= LaunchAt(w, j).registeredAt
  }

  ghost predicate WindowsInv(w: World)
    requires forall i | 0 <= i < |w.order| :: Known(w, i)
  {
    forall i, j | 0 <= i < j < |w.order| :: Apart(w, i, j)
  }

  /** The file appeared after the baseline of launch i and before those of all later launches of its instance. */
  ghost predicate Belongs(w: World, uid: nat, i: nat)
    requires forall j | 0 <= j < |w.order| :: Known(w, j)
  {
    && i < |w.order| && uid < |w.births| && w.order[i].listed <= uid
    && forall j | i < j < |w.order| && LaunchAt(w, j).instance == LaunchAt(w, i).instance :: uid < w.order[j].listed
  }

  /** The file belongs to the launch it was taken for, and its artifact is there under the launch's names. */
  ghost predicate TakenOk(w: World, t: Taken)
    requires forall i | 0 <= i < |w.order| :: Known(w, i)
  {
    && Belongs(w, t.uid, t.at) && t.id in w.disk.artifacts
    && t.id.launchId == LaunchAt(w, t.at).launchId && t.id.correlation == LaunchAt(w, t.at).correlation
  }

  ghost predicate ArtifactsTaken(w: World) {
    forall id | id in w.disk.artifacts :: exists t :: t in w.taken && t.id == id
  }

  ghost predicate TakenInv(w: World)
    requires forall i | 0 <= i < |w.order| :: Known(w, i)
  {
    (forall t | t in w.taken :: TakenOk(w, t)) && ArtifactsTaken(w)
  }

  /** All launches were registered, and closed, by the time the registration read the clock. */
  ghost predicate BeforeNow(w: World, now: real) {
    now <= w.clock
    && forall k | k in w.disk.launches ::
         w.disk.launches[k].registeredAt <= now && (w.disk.launches[k].closedAt.Some? ==> w.disk.launches[k].closedAt.value <= now)
  }

  ghost predicate PhaseInv(w: World)
    requires forall i | 0 <= i < |w.order| :: Known(w, i)
  {
    match w.phase
    case Idle => true
    case Closing(req, now) => BeforeNow(w, now) && (req.server.collectResults ==> KeyOf(req) !in w.disk.launches)
    case Listed(req, now, listed, baseline) =>
      && BeforeNow(w, now) && KeyOf(req) !in w.disk.launches && AllClosed(w, req.instance)
      && BornSince(w, listed, now) && Covered(w, req.server.resultsPath, listed, baseline)
      && forall t | t in w.taken :: t.uid < listed
    case Taking(at, name, uid, src) =>
      Belongs(w, uid, at) && IdOf(LaunchAt(w, at), name, src.raw) in w.disk.files
    case Telling(at, name, uid, src) =>
      Belongs(w, uid, at) && IdOf(LaunchAt(w, at), name, src.raw) in w.disk.artifacts
  }

  ghost predicate Inv(w: World) {
    WriteAhead(w.disk) && FilesInv(w) && OrderInv(w) && WindowsInv(w) && TakenInv(w) && PhaseInv(w)
  }

  // ---------------------------------------------------------------- the world outside the spool

  /** Time goes on and files come, change and go. */
  ghost predicate Outside(w: World, v: World) {
    && v.disk == w.disk && v.phase == w.phase && v.order == w.order && v.taken == w.taken
    && w.clock <= v.clock && w.births <= v.births
    && (forall u | |w.births| <= u < |v.births| :: v.births[u] >= w.clock)
    && FilesInv(v)
    && forall p, n | At(v, p, n) && v.folders[p][n].uid < |w.births| ::
         At(w, p, n) && w.folders[p][n].uid == v.folders[p][n].uid
  }

  predicate IsOutside(s: Step) { s.Tick? || s.NewFolder? || s.Appear? || s.Rewrite? || s.Remove? }

  lemma AppearOutside(w: World, path: string, name: string, src: Source)
    requires FilesInv(w) && Enabled(w, Appear(path, name, src))
    ensures Outside(w, Apply(w, Appear(path, name, src)))
  {
    var v := Apply(w, Appear(path, name, src));
    assert w.births <= v.births;
    assert v.folders == w.folders[path := w.folders[path][name := File(|w.births|, src)]];
    hide Apply, Enabled;
  }

  lemma RewriteOutside(w: World, path: string, name: string, src: Source)
    requires FilesInv(w) && Enabled(w, Rewrite(path, name, src))
    ensures Outside(w, Apply(w, Rewrite(path, name, src)))
  {
    var v := Apply(w, Rewrite(path, name, src));
    assert v.births == w.births;
    assert v.folders == w.folders[path := w.folders[path][name := File(w.folders[path][name].uid, src)]];
    hide Apply, WithFile;
  }

  lemma OthersOutside(w: World, s: Step)
    requires FilesInv(w) && Enabled(w, s) && (s.Tick? || s.NewFolder? || s.Remove?)
    ensures Outside(w, Apply(w, s))
  {
  }

  lemma StepsOutside(w: World, s: Step)
    requires FilesInv(w) && Enabled(w, s) && IsOutside(s)
    ensures Outside(w, Apply(w, s))
  {
    if s.Appear? {
      AppearOutside(w, s.path, s.name, s.src);
    } else if s.Rewrite? {
      RewriteOutside(w, s.path, s.name, s.src);
    } else {
      OthersOutside(w, s);
    }
    hide Apply, Outside, FilesInv;
  }

  lemma CoveredOutside(w: World, v: World, path: string, listed: nat, baseline: set<string>)
    requires Outside(w, v) && Covered(w, path, listed, baseline) && listed <= |w.births|
    ensures Covered(v, path, listed, baseline)
  {
  }

  lemma BornOutside(w: World, v: World, listed: nat, since: real)
    requires Outside(w, v) && BornSince(w, listed, since) && since <= w.clock
    ensures BornSince(v, listed, since)
  {
  }

  lemma OutsideKeepsOrder(w: World, v: World)
    requires Outside(w, v) && OrderInv(w)
    ensures OrderInv(v)
  {
    hide Outside;
    SameSpool(w, v);
    forall i | 0 <= i < |v.order| ensures Known(v, i) && EntryInv(v, i) {
      assert Known(w, i) && EntryInv(w, i);
      var l := LaunchAt(w, i);
      CoveredOutside(w, v, l.resultsPath, w.order[i].listed, l.baseline);
      BornOutside(w, v, w.order[i].listed, l.registeredAt);
    }
  }

  lemma SameSpool(w: World, v: World)
    requires Outside(w, v)
    ensures v.disk == w.disk && v.phase == w.phase && v.order == w.order && v.taken == w.taken
    ensures w.clock <= v.clock && |w.births| <= |v.births|
  {
  }

  lemma OutsideKeepsWindows(w: World, v: World)
    requires v.disk == w.disk && v.order == w.order && v.taken == w.taken && |w.births| <= |v.births|
    requires OrderInv(w) && OrderInv(v) && WindowsInv(w) && TakenInv(w)
    ensures WindowsInv(v) && TakenInv(v)
    ensures forall u, i | Belongs(w, u, i) :: Belongs(v, u, i)
  {
    KnownAll(w);
    KnownAll(v);
    hide OrderInv;
    forall i, j | 0 <= i < j < |v.order| ensures Apart(v, i, j) { assert Apart(w, i, j); }
    forall t | t in v.taken ensures TakenOk(v, t) { assert TakenOk(w, t); }
  }

  lemma OutsideKeepsPhase(w: World, v: World)
    requires Outside(w, v) && OrderInv(w) && OrderInv(v) && PhaseInv(w)
    requires forall u, i | Belongs(w, u, i) :: Belongs(v, u, i)
    ensures PhaseInv(v)
  {
    KnownAll(w);
    KnownAll(v);
    SameSpool(w, v);
    if w.phase.Listed? {
      var p := w.phase;
      CoveredOutside(w, v, p.req.server.resultsPath, p.listed, p.baseline);
      BornOutside(w, v, p.listed, p.now);
    }
    hide Outside, OrderInv, Belongs, Safe;
  }

  lemma OutsideKeeps(w: World, v: World)
    requires Inv(w) && Outside(w, v)
    ensures Inv(v)
  {
    hide WriteAhead, FilesInv, OrderInv, WindowsInv, TakenInv, PhaseInv;
    OutsideKeepsOrder(w, v);
    SameSpool(w, v);
    OutsideKeepsWindows(w, v);
    OutsideKeepsPhase(w, v);
  }

  lemma KnownAll(w: World)
    requires OrderInv(w)
    ensures forall i | 0 <= i < |w.order| :: Known(w, i)
  {
  }

  // ---------------------------------------------------------------- the steps of the spool

  /** The launch as it was, except for observed names and for being closed now. */
  ghost predicate CalmLaunch(w: World, l: Launch, m: Launch) {
    && m == l.(observed := m.observed, closedAt := m.closedAt)
    && (m.closedAt == l.closedAt || (l.closedAt.None? && m.closedAt.Some? && l.registeredAt <= m.closedAt.value <= w.clock))
  }

  /** A step of the spool that registers nothing. */
  ghost predicate Calm(w: World, v: World) {
    && v.births == w.births && v.folders == w.folders && v.clock == w.clock && v.order == w.order
    && v.disk.launches.Keys == w.disk.launches.Keys
    && forall k | k in w.disk.launches :: CalmLaunch(w, w.disk.launches[k], v.disk.launches[k])
  }

  lemma CalmKeepsOrder(w: World, v: World)
    requires Calm(w, v) && OrderInv(w)
    ensures OrderInv(v)
  {
    hide Safe;
    forall k | k in v.disk.launches
      ensures Key(v.disk.launches[k]) == k && exists i :: 0 <= i < |v.order| && v.order[i].key == k
    {
      assert k in w.disk.launches && CalmLaunch(w, w.disk.launches[k], v.disk.launches[k]);
    }
    forall i | 0 <= i < |v.order| ensures Known(v, i) && EntryInv(v, i) {
      assert Known(w, i) && EntryInv(w, i);
      assert CalmLaunch(w, LaunchAt(w, i), LaunchAt(v, i));
    }
  }

  lemma CalmKeepsWindows(w: World, v: World)
    requires Calm(w, v) && OrderInv(w) && OrderInv(v) && WindowsInv(w)
    ensures WindowsInv(v)
    ensures forall u, i | Belongs(w, u, i) :: Belongs(v, u, i)
  {
    KnownAll(w);
    KnownAll(v);
    hide OrderInv;
    forall i | 0 <= i < |w.order| ensures CalmLaunch(w, LaunchAt(w, i), LaunchAt(v, i)) { assert Known(w, i) && Known(v, i); }
    forall i, j | 0 <= i < j < |v.order| ensures Apart(v, i, j) { assert Apart(w, i, j); }
  }

  lemma CalmLaunchAt(w: World, v: World, i: nat)
    requires Calm(w, v) && Known(w, i)
    ensures Known(v, i) && CalmLaunch(w, LaunchAt(w, i), LaunchAt(v, i))
  {
  }

  lemma CalmTaken(w: World, v: World, t: Taken)
    requires (forall i | 0 <= i < |w.order| :: Known(w, i)) && (forall i | 0 <= i < |v.order| :: Known(v, i))
    requires Calm(w, v) && v.disk.artifacts.Keys == w.disk.artifacts.Keys
    requires TakenOk(w, t) && Belongs(v, t.uid, t.at)
    ensures TakenOk(v, t)
  {
    CalmLaunchAt(w, v, t.at);
    hide Calm, Belongs;
  }

  lemma ArtifactsStayTaken(w: World, v: World)
    requires ArtifactsTaken(w) && v.taken == w.taken && v.disk.artifacts.Keys == w.disk.artifacts.Keys
    ensures ArtifactsTaken(v)
  {
    forall id | id in v.disk.artifacts ensures exists t :: t in v.taken && t.id == id { assert id in w.disk.artifacts; }
  }

  lemma CalmKeepsTaken(w: World, v: World)
    requires Calm(w, v) && OrderInv(w) && OrderInv(v) && WindowsInv(w) && TakenInv(w)
    requires v.taken == w.taken && v.disk.artifacts.Keys == w.disk.artifacts.Keys
    ensures TakenInv(v)
  {
    CalmKeepsWindows(w, v);
    KnownAll(w);
    KnownAll(v);
    ArtifactsStayTaken(w, v);
    hide OrderInv, WindowsInv, Calm, ArtifactsTaken;
    forall t | t in v.taken ensures TakenOk(v, t) {
      assert TakenOk(w, t);
      CalmTaken(w, v, t);
    }
  }

  lemma CalmKeeps(w: World, v: World)
    requires Inv(w) && Calm(w, v)
    ensures FilesInv(v) && OrderInv(v) && WindowsInv(v)
    ensures forall u, i | Belongs(w, u, i) :: Belongs(v, u, i)
    ensures v.taken == w.taken && v.disk.artifacts.Keys == w.disk.artifacts.Keys ==> TakenInv(v)
  {
    hide WriteAhead;
    assert FilesInv(v);
    hide FilesInv, PhaseInv;
    CalmKeepsOrder(w, v);
    CalmKeepsWindows(w, v);
    if v.taken == w.taken && v.disk.artifacts.Keys == w.disk.artifacts.Keys { CalmKeepsTaken(w, v); }
  }

  lemma TimesOk(w: World)
    requires Inv(w)
    ensures BeforeNow(w, w.clock)
  {
    hide WriteAhead, Safe;
    forall k | k in w.disk.launches ensures TimesInv(w, w.disk.launches[k]) {
      var i :| 0 <= i < |w.order| && w.order[i].key == k;
      assert EntryInv(w, i);
    }
  }

  lemma RegisterKeeps(w: World, s: Step)
    requires Inv(w) && Enabled(w, s) && (s.Register? || s.OnlyClosed? || s.Crash?)
    ensures Inv(Apply(w, s))
  {
    CalmKeeps(w, Apply(w, s));
    TimesOk(w);
    hide WriteAhead, Safe, OrderInv, WindowsInv, TakenInv, FilesInv, BeforeNow;
    assert BeforeNow(Apply(w, s), w.clock) by { SameTimesLater(w, Apply(w, s), w.clock); }
  }

  lemma SameTimesLater(w: World, v: World, now: real)
    requires BeforeNow(w, now) && v.disk == w.disk && v.clock == w.clock
    ensures BeforeNow(v, now)
  {
  }

  lemma ListKeeps(w: World)
    requires Inv(w) && Enabled(w, ListBaseline)
    ensures Inv(Apply(w, ListBaseline))
  {
    var v := Apply(w, ListBaseline);
    CalmKeeps(w, v);
    hide WriteAhead, Safe, OrderInv, WindowsInv, FilesInv;
    forall t | t in v.taken ensures t.uid < |w.births| { assert Belongs(w, t.uid, t.at); }
    hide TakenInv;
  }

  lemma CloseIsCalm(w: World, key: LaunchKey)
    requires Inv(w) && Enabled(w, CloseOne(key))
    ensures
      var v := Apply(w, CloseOne(key));
      && Calm(w, v) && BeforeNow(v, v.phase.now)
      && v.phase == w.phase && v.taken == w.taken && v.disk.artifacts == w.disk.artifacts
  {
    hide WriteAhead, OrderInv, WindowsInv, TakenInv, FilesInv, Safe;
  }

  lemma CloseKeeps(w: World, key: LaunchKey)
    requires Inv(w) && Enabled(w, CloseOne(key))
    ensures Inv(Apply(w, CloseOne(key)))
  {
    var v := Apply(w, CloseOne(key));
    assert WriteAhead(v.disk) by { ClosingKeepsOrder(w.disk, key, w.phase.now); }
    CloseIsCalm(w, key);
    assert w.phase.req.server.collectResults ==> KeyOf(w.phase.req) !in v.disk.launches;
    hide Apply, Enabled;
    CalmKeeps(w, v);
    hide WriteAhead, OrderInv, WindowsInv, TakenInv, FilesInv, Calm, BeforeNow, KeyOf;
  }

  lemma OpenKeepsOrder(w: World)
    requires Inv(w) && Enabled(w, OpenLaunch)
    ensures OrderInv(Apply(w, OpenLaunch))
  {
    hide WriteAhead, Safe, FilesInv, WindowsInv, TakenInv;
    var v := Apply(w, OpenLaunch);
    var n := |w.order|;
    var l := v.disk.launches[KeyOf(w.phase.req)];
    assert v.order[n] == Entry(Key(l), w.phase.listed) && Key(l) == KeyOf(w.phase.req);
    forall i | 0 <= i < |v.order| ensures Known(v, i) && EntryInv(v, i) {
      if i < n { assert v.order[i] == w.order[i] && Known(w, i) && EntryInv(w, i); }
    }
    forall i, j | 0 <= i < j < |v.order| ensures v.order[i].key != v.order[j].key {
      assert v.order[i] == w.order[i] && Known(w, i);
    }
    forall k | k in v.disk.launches ensures exists i :: 0 <= i < |v.order| && v.order[i].key == k {
      if k == Key(l) { assert v.order[n].key == k; }
      else {
        var i :| 0 <= i < n && w.order[i].key == k;
        assert v.order[i].key == k;
      }
    }
  }

  ghost predicate SameAt(w: World, v: World, i: nat) {
    Known(w, i) && Known(v, i) && v.order[i] == w.order[i] && LaunchAt(v, i) == LaunchAt(w, i)
  }

  /** Opening appends the launch to the order and changes no other. */
  lemma OpenSame(w: World, i: nat)
    requires Inv(w) && Enabled(w, OpenLaunch) && i < |w.order|
    ensures SameAt(w, Apply(w, OpenLaunch), i)
  {
    hide WriteAhead, Safe, FilesInv, WindowsInv, TakenInv;
    assert Known(w, i);
  }

  lemma OpenLast(w: World)
    requires Inv(w) && Enabled(w, OpenLaunch)
    ensures
      var v := Apply(w, OpenLaunch);
      var n := |w.order|;
      && |v.order| == n + 1 && Known(v, n) && v.order[n].listed == w.phase.listed
      && LaunchAt(v, n).registeredAt == w.phase.now && LaunchAt(v, n).instance == w.phase.req.instance
  {
    hide WriteAhead, Safe, FilesInv, WindowsInv, TakenInv, OrderInv, PhaseInv;
  }

  lemma OpenApart(w: World, i: nat, j: nat)
    requires Inv(w) && Enabled(w, OpenLaunch) && i < j <= |w.order|
    ensures
      var v := Apply(w, OpenLaunch);
      Known(v, i) && Known(v, j) && Apart(v, i, j)
  {
    assert w.phase.Listed?;
    hide WriteAhead, Safe, FilesInv, OrderInv, TakenInv, Apply, Enabled;
    OpenSame(w, i);
    OpenLast(w);
    if j < |w.order| {
      OpenSame(w, j);
      hide PhaseInv;
      assert Apart(w, i, j);
    } else {
      hide WindowsInv;
      assert w.order[i].key in w.disk.launches;
    }
  }

  lemma OpenTaken(w: World, t: Taken)
    requires Inv(w) && Enabled(w, OpenLaunch) && OrderInv(Apply(w, OpenLaunch)) && t in w.taken
    ensures TakenOk(Apply(w, OpenLaunch), t)
  {
    hide WriteAhead, FilesInv, WindowsInv, Safe;
    var v := Apply(w, OpenLaunch);
    assert TakenOk(w, t) && t.uid < w.phase.listed;
    assert v.births == w.births && v.disk.artifacts == w.disk.artifacts;
    OpenLast(w);
    OpenSame(w, t.at);
    KnownAll(v);
    hide Inv, Apply, OrderInv;
    forall j | t.at < j < |v.order| && LaunchAt(v, j).instance == LaunchAt(v, t.at).instance ensures t.uid < v.order[j].listed {
      if j < |w.order| { OpenSame(w, j); }
    }
  }

  lemma OpenKeepsTaken(w: World)
    requires Inv(w) && Enabled(w, OpenLaunch) && OrderInv(Apply(w, OpenLaunch))
    ensures WindowsInv(Apply(w, OpenLaunch)) && TakenInv(Apply(w, OpenLaunch))
  {
    var v := Apply(w, OpenLaunch);
    assert v.taken == w.taken;
    assert ArtifactsTaken(v);
    OpenLast(w);
    KnownAll(v);
    hide Inv, Apply, OrderInv, Apart, TakenOk, ArtifactsTaken;
    forall i, j | 0 <= i < j < |v.order| ensures Apart(v, i, j) { OpenApart(w, i, j); }
    forall t | t in v.taken ensures TakenOk(v, t) { OpenTaken(w, t); }
  }

  lemma OpenKeeps(w: World)
    requires Inv(w) && Enabled(w, OpenLaunch)
    ensures Inv(Apply(w, OpenLaunch))
  {
    var v := Apply(w, OpenLaunch);
    LaunchKeepsOrder(w.disk, v.disk.launches[KeyOf(w.phase.req)]);
    assert FilesInv(v);
    OpenKeepsOrder(w);
    OpenKeepsTaken(w);
    hide WriteAhead, Safe, OrderInv, WindowsInv, TakenInv, FilesInv;
  }

  /** The 2 seconds of slack give nothing away: a file a launch may take appeared after its baseline was listed. */
  lemma CandidatesBelong(w: World, at: nat, name: string, next: Option<real>)
    requires Inv(w) && Enabled(w, Take(at, name, next))
    ensures Belongs(w, w.folders[LaunchAt(w, at).resultsPath][name].uid, at)
  {
    hide WriteAhead;
    var l := LaunchAt(w, at);
    var f := w.folders[l.resultsPath][name];
    assert EntryInv(w, at) && At(w, l.resultsPath, name);
    forall j | at < j < |w.order| && LaunchAt(w, j).instance == l.instance ensures f.uid < w.order[j].listed {
      assert Apart(w, at, j);
      assert Early(f.src.mtime, l.closedAt);
      assert w.births[f.uid] < LaunchAt(w, j).registeredAt;
      assert EntryInv(w, j);
    }
  }

  lemma TakeKeeps(w: World, at: nat, name: string, next: Option<real>)
    requires Inv(w) && Enabled(w, Take(at, name, next))
    ensures Inv(Apply(w, Take(at, name, next)))
  {
    hide Safe, FilesInv, OrderInv, WindowsInv, TakenInv, Belongs, Candidate, PhaseInv;
    KnownAll(w);
    CandidatesBelong(w, at, name, next);
    var l := LaunchAt(w, at);
    var f := w.folders[l.resultsPath][name];
    CopyKeepsOrder(w.disk, IdOf(l, name, f.src.raw), f.src.raw);
    hide WriteAhead;
    var v := Apply(w, Take(at, name, next));
    CalmKeeps(w, v);
    KnownAll(v);
    assert v.disk.launches == w.disk.launches && v.disk.artifacts == w.disk.artifacts;
    assert v.phase == Taking(at, name, f.uid, f.src) && IdOf(l, name, f.src.raw) in v.disk.files;
    assert LaunchAt(v, at) == l && Belongs(v, f.uid, at);
    hide Apply, Calm, Enabled;
    TakingIsGood(v);
  }

  lemma TakingIsGood(w: World)
    requires (forall i | 0 <= i < |w.order| :: Known(w, i)) && w.phase.Taking?
    requires Belongs(w, w.phase.uid, w.phase.at) && IdOf(LaunchAt(w, w.phase.at), w.phase.name, w.phase.src.raw) in w.disk.files
    ensures PhaseInv(w)
  {
  }

  lemma OneMoreTaken(w: World, v: World, t: Taken)
    requires OrderInv(w) && OrderInv(v) && TakenInv(w)
    requires v.taken == w.taken + [t] && v.disk.launches == w.disk.launches && v.order == w.order
    requires v.disk.artifacts.Keys == w.disk.artifacts.Keys + {t.id}
    requires forall u, i | Belongs(w, u, i) :: Belongs(v, u, i)
    requires Belongs(w, t.uid, t.at) && Known(w, t.at)
    requires t.id.launchId == LaunchAt(w, t.at).launchId && t.id.correlation == LaunchAt(w, t.at).correlation
    ensures TakenInv(v)
  {
    KnownAll(w);
    KnownAll(v);
    hide OrderInv, Belongs, ArtifactsTaken;
    assert ArtifactsTaken(v) by { OneMoreArtifact(w, v, t); }
    assert TakenOk(v, t);
    forall y | y in v.taken ensures TakenOk(v, y) {
      if y in w.taken { assert TakenOk(w, y) && TakenOk(v, y); } else { assert y == t; }
    }
  }

  lemma OneMoreArtifact(w: World, v: World, t: Taken)
    requires ArtifactsTaken(w) && v.taken == w.taken + [t] && v.disk.artifacts.Keys == w.disk.artifacts.Keys + {t.id}
    ensures ArtifactsTaken(v)
  {
    assert v.taken[|w.taken|] == t;
    forall x | x in v.disk.artifacts ensures exists y :: y in v.taken && y.id == x {
      if x == t.id { assert t in v.taken; }
      else {
        var y :| y in w.taken && y.id == x;
        assert y in v.taken;
      }
    }
  }

  lemma AnnounceKeeps(w: World)
    requires Inv(w) && Enabled(w, Announce)
    ensures Inv(Apply(w, Announce))
  {
    hide Safe, FilesInv, OrderInv, WindowsInv, TakenInv, Belongs;
    var p := w.phase;
    var l := LaunchAt(w, p.at);
    var id := IdOf(l, p.name, p.src.raw);
    ManifestKeepsOrder(w.disk, id, NewArtifact(l, p.src));
    hide WriteAhead;
    var v := Apply(w, Announce);
    CalmKeeps(w, v);
    KnownAll(w);
    KnownAll(v);
    assert Belongs(w, p.uid, p.at) && Belongs(v, p.uid, p.at);
    assert v.disk.artifacts.Keys == w.disk.artifacts.Keys + {id} && v.taken == w.taken + [Taken(p.uid, p.at, id)];
    assert v.disk.launches == w.disk.launches && v.order == w.order && v.phase == Telling(p.at, p.name, p.uid, p.src);
    assert LaunchAt(v, p.at) == l;
    hide Apply, Calm;
    OneMoreTaken(w, v, Taken(p.uid, p.at, id));
  }

  lemma ObserveKeepsWrites(w: World)
    requires WriteAhead(w.disk) && Enabled(w, Observe)
    requires IdOf(LaunchAt(w, w.phase.at), w.phase.name, w.phase.src.raw) in w.disk.artifacts
    ensures
      var l := LaunchAt(w, w.phase.at);
      var v := Apply(w, Observe);
      && WriteAhead(v.disk)
      && v.disk == w.disk.(launches := w.disk.launches[w.order[w.phase.at].key := Observing(l, w.phase.name)])
  {
    hide Safe, Purgeable;
    var p := w.phase;
    var l := LaunchAt(w, p.at);
    var m := Observing(l, p.name);
    assert Key(l) == w.order[p.at].key;
    forall n | n in m.observed ensures Announced(w.disk, m, n) {
      if n == p.name { assert IdOf(l, p.name, p.src.raw) in w.disk.artifacts; } else { assert Announced(w.disk, l, n); }
    }
    LaunchKeepsOrder(w.disk, m);
  }

  lemma ObserveKeeps(w: World)
    requires Inv(w) && Enabled(w, Observe)
    ensures Inv(Apply(w, Observe))
  {
    hide WriteAhead, Safe, OrderInv, WindowsInv, TakenInv, FilesInv;
    var p := w.phase;
    var l := LaunchAt(w, p.at);
    ObserveKeepsWrites(w);
    var v := Apply(w, Observe);
    assert CalmLaunch(w, l, Observing(l, p.name));
    hide PhaseInv, CalmLaunch;
    CalmAt(w, v, w.order[p.at].key);
    CalmKeeps(w, v);
    hide Apply;
    IdleIsGood(v);
  }

  lemma CalmAt(w: World, v: World, k: LaunchKey)
    requires v.births == w.births && v.folders == w.folders && v.clock == w.clock && v.order == w.order
    requires k in w.disk.launches && k in v.disk.launches && v.disk.launches == w.disk.launches[k := v.disk.launches[k]]
    requires CalmLaunch(w, w.disk.launches[k], v.disk.launches[k])
    ensures Calm(w, v)
  {
    forall j | j in w.disk.launches ensures CalmLaunch(w, w.disk.launches[j], v.disk.launches[j]) {
      if j != k { assert v.disk.launches[j] == w.disk.launches[j]; }
    }
  }

  lemma IdleIsGood(w: World)
    requires OrderInv(w) && w.phase == Idle
    ensures PhaseInv(w)
  {
  }

  lemma StepKeeps(w: World, s: Step)
    requires Inv(w) && Enabled(w, s)
    ensures Inv(Apply(w, s))
  {
    hide Apply, Enabled;
    if IsOutside(s) {
      hide Inv;
      FilesOk(w);
      StepsOutside(w, s);
      OutsideKeeps(w, Apply(w, s));
    } else if s.CloseOne? {
      CloseKeeps(w, s.key);
    } else if s.ListBaseline? {
      ListKeeps(w);
    } else if s.OpenLaunch? {
      OpenKeeps(w);
    } else if s.Take? {
      TakeKeeps(w, s.at, s.name, s.next);
    } else if s.Announce? {
      AnnounceKeeps(w);
    } else if s.Observe? {
      ObserveKeeps(w);
    } else {
      RegisterKeeps(w, s);
    }
  }

  lemma FilesOk(w: World)
    requires Inv(w)
    ensures FilesInv(w)
  {
  }

  // ---------------------------------------------------------------- runs

  predicate Legal(w: World, run: seq<Step>)
    decreases |run|
  {
    run == [] || (Enabled(w, run[0]) && Legal(Apply(w, run[0]), run[1..]))
  }

  function After(w: World, run: seq<Step>): World
    requires Legal(w, run)
    decreases |run|
  {
    if run == [] then w else After(Apply(w, run[0]), run[1..])
  }

  /** An empty spool beside any results directories whose files are no older than they appeared. */
  ghost predicate Fresh(w: World) {
    FilesInv(w) && w.disk == Disk(map[], map[], map[]) && w.phase == Idle && w.order == [] && w.taken == []
  }

  lemma {:induction false} RunKeeps(w: World, run: seq<Step>)
    requires Inv(w) && Legal(w, run)
    ensures Inv(After(w, run))
    decreases |run|
  {
    hide Inv, Enabled, Apply;
    if run != [] {
      StepKeeps(w, run[0]);
      RunKeeps(Apply(w, run[0]), run[1..]);
    }
  }

  lemma FreshIsGood(w: World)
    requires Fresh(w)
    ensures Inv(w)
  {
  }

  /** Every crash point of every run keeps the write-ahead order. */
  lemma RunsKeepWriteAhead(w: World, run: seq<Step>)
    requires Fresh(w) && Legal(w, run)
    ensures WriteAhead(After(w, run).disk)
  {
    FreshIsGood(w);
    hide Enabled, Apply, Legal, After;
    RunKeeps(w, run);
  }

  /** No result file is made into artifacts of two launches of one instance, and there is no other artifact. */
  lemma OneLaunchPerFile(w: World, run: seq<Step>)
    requires Fresh(w) && Legal(w, run)
    ensures
      var v := After(w, run);
      && (forall s, t | s in v.taken && t in v.taken && s.uid == t.uid && Known(v, s.at) && Known(v, t.at) ::
            LaunchAt(v, s.at).instance == LaunchAt(v, t.at).instance ==> s.at == t.at)
      && (forall t | t in v.taken :: Known(v, t.at) && t.id.launchId == LaunchAt(v, t.at).launchId
                                     && t.id.correlation == LaunchAt(v, t.at).correlation)
      && (forall id :: id in v.disk.artifacts <==> exists t :: t in v.taken && t.id == id)
  {
    FreshIsGood(w);
    hide Enabled, Apply, Legal, After, WriteAhead;
    RunKeeps(w, run);
    var v := After(w, run);
    forall s, t | s in v.taken && t in v.taken && s.uid == t.uid && LaunchAt(v, s.at).instance == LaunchAt(v, t.at).instance
      ensures s.at == t.at
    {
      assert Belongs(v, s.uid, s.at) && Belongs(v, t.uid, t.at);
    }
  }

  /** Per instance at most one launch is open, and of two launches one was closed before the other was registered. */
  lemma WindowsAreDisjoint(w: World, run: seq<Step>, j: LaunchKey, k: LaunchKey)
    requires Fresh(w) && Legal(w, run) && j != k
    requires
      var m := After(w, run).disk.launches;
      j in m && k in m && m[j].instance == m[k].instance
    ensures
      var m := After(w, run).disk.launches;
      || (m[j].closedAt.Some? && m[j].registeredAt <= m[j].closedAt.value <= m[k].registeredAt)
      || (m[k].closedAt.Some? && m[k].registeredAt <= m[k].closedAt.value <= m[j].registeredAt)
  {
    FreshIsGood(w);
    hide Enabled, Apply, Legal, After, WriteAhead;
    RunKeeps(w, run);
    var v := After(w, run);
    var a :| 0 <= a < |v.order| && v.order[a].key == j;
    var b :| 0 <= b < |v.order| && v.order[b].key == k;
    assert EntryInv(v, a) && EntryInv(v, b);
    if a < b { assert Apart(v, a, b); } else { assert Apart(v, b, a); }
  }
}
