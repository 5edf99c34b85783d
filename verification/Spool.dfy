/**
  The files of the result spool: one manifest per launch, one manifest and one copy per artifact. Every write replaces
  one file at once. SHA-256 and name-based UUIDs are injective constructors.
 */
module Spool {
  import opened Common
  import opened Strings

  datatype Digest = Sha256(raw: string)

  /** A file in a results directory; isObject says that its bytes are a JSON object in UTF-8. */
  datatype Source = Source(raw: string, mtime: real, isObject: bool)

  type Folder = map<string, Source>

  /** The results directories that exist, by path. */
  type Folders = map<string, Folder>

  datatype LaunchKey = LaunchKey(launchId: int, safe: string)

  datatype Launch = Launch(
    instance: string, launchId: int, correlation: string, uploadUrl: string, resultsPath: string,
    registeredAt: real, closedAt: Option<real>, baseline: set<string>, observed: set<string>)

  datatype ArtifactId = ArtifactId(launchId: int, correlation: string, filename: string, sha: Digest)

  datatype Status = Pending | Delivered | Purged

  datatype Artifact = Artifact(
    instance: string, uploadUrl: string, size: nat, createdAt: real, status: Status, attempts: nat, nextAttemptAt: real)

  datatype Disk = Disk(
    launches: map<LaunchKey, Launch>, artifacts: map<ArtifactId, Artifact>, files: map<ArtifactId, string>)

  // ---------------------------------------------------------------- names

  function HexOnly(s: string): (r: string)
    ensures forall c | c in r :: c in "0123456789abcdef"
    decreases |s|
  {
    if s == "" then "" else (if s[0] in "0123456789abcdef" then [s[0]] else []) + HexOnly(s[1..])
  }

  /** The part of the correlation id that goes into the name of the manifest. */
  function Safe(correlation: string): string { HexOnly(Lower(correlation)) }

  function Key(l: Launch): LaunchKey { LaunchKey(l.launchId, Safe(l.correlation)) }

  predicate Contains(s: string, part: string) {
    exists i | 0 <= i <= |s| :: StartsWith(s[i..], part)
  }

  predicate StartsWith(s: string, part: string) {
    |part| <= |s| && s[..|part|] == part
  }

  lemma ContainsSomewhere(s: string, part: string)
    ensures Contains(s, part) <==> exists pre: string, post: string :: s == pre + part + post
  {
    if Contains(s, part) {
      var i :| 0 <= i <= |s| && StartsWith(s[i..], part);
      assert s == s[..i] + part + s[i + |part|..];
    }
    if pre: string, post: string :| s == pre + part + post {
      assert s[|pre|..] == part + post;
      assert StartsWith(s[|pre|..], part);
    }
  }

  datatype Hint = Practice | Qualifying | Warmup | Race | NoHint

  /** The first marker found in the name, not the first in the order of the name. */
  function SessionHint(filename: string): Hint {
    var name := Lower(filename);
    if Contains(name, "_practice.") then Practice
    else if Contains(name, "_qualify.") || Contains(name, "_qualifying.") then Qualifying
    else if Contains(name, "_warmup.") then Warmup
    else if Contains(name, "_race.") then Race
    else NoHint
  }

  /** A practice marker anywhere in the name decides first, then qualifying, warm-up and race. */
  lemma HintMeans(filename: string)
    ensures
      var name := Lower(filename);
      var practice, warmup, race := Contains(name, "_practice."), Contains(name, "_warmup."), Contains(name, "_race.");
      var qualifying := Contains(name, "_qualify.") || Contains(name, "_qualifying.");
      && (SessionHint(filename) == Practice <==> practice)
      && (SessionHint(filename) == Qualifying <==> qualifying && !practice)
      && (SessionHint(filename) == Warmup <==> warmup && !practice && !qualifying)
      && (SessionHint(filename) == Race <==> race && !practice && !qualifying && !warmup)
  {
    hide Contains, Lower;
  }

  /** Only these may lose their copy. */
  predicate Purgeable(filename: string) {
    SessionHint(filename) in {Practice, Warmup}
  }

  function IdOf(l: Launch, name: string, raw: string): ArtifactId {
    ArtifactId(l.launchId, l.correlation, name, Sha256(raw))
  }

  function NewArtifact(l: Launch, src: Source): Artifact {
    Artifact(l.instance, l.uploadUrl, |src.raw|, src.mtime, Pending, 0, 0.0)
  }

  // ---------------------------------------------------------------- atomic writes

  function WithCopy(d: Disk, id: ArtifactId, raw: string): Disk {
    if id in d.files then d else d.(files := d.files[id := raw])
  }

  function WithArtifact(d: Disk, id: ArtifactId, a: Artifact): Disk {
    d.(artifacts := d.artifacts[id := a])
  }

  function WithLaunch(d: Disk, l: Launch): Disk {
    d.(launches := d.launches[Key(l) := l])
  }

  function WithoutCopy(d: Disk, id: ArtifactId): Disk {
    d.(files := d.files - {id})
  }

  function Observing(l: Launch, name: string): Launch { l.(observed := l.observed + {name}) }

  /** The three writes of one enqueued file, in their order. */
  function CopyWritten(d: Disk, l: Launch, name: string, src: Source): Disk {
    WithCopy(d, IdOf(l, name, src.raw), src.raw)
  }

  function ManifestWritten(d: Disk, l: Launch, name: string, src: Source): Disk {
    WithArtifact(CopyWritten(d, l, name, src), IdOf(l, name, src.raw), NewArtifact(l, src))
  }

  function Enqueued(d: Disk, l: Launch, name: string, src: Source): Disk {
    WithLaunch(ManifestWritten(d, l, name, src), Observing(l, name))
  }

  // ---------------------------------------------------------------- write-ahead order

  /** Some artifact manifest tells of this file of this launch. */
  ghost predicate Announced(d: Disk, l: Launch, name: string) {
    exists id :: id in d.artifacts && id.launchId == l.launchId && id.correlation == l.correlation && id.filename == name
  }

  ghost predicate ObservedAreAnnounced(d: Disk) {
    forall k, n | k in d.launches && n in d.launches[k].observed :: Announced(d, d.launches[k], n)
  }

  ghost predicate CopiesAreIntact(d: Disk) {
    forall id | id in d.files :: Sha256(d.files[id]) == id.sha
  }

  ghost predicate ManifestsHaveCopies(d: Disk) {
    forall id | id in d.artifacts && !Purgeable(id.filename) :: id in d.files
  }

  ghost predicate ManifestsAreSound(d: Disk) {
    && (forall k | k in d.launches :: Key(d.launches[k]) == k)
    && (forall id | id in d.artifacts :: d.artifacts[id].size == |id.sha.raw|)
    && (forall id | id in d.artifacts && d.artifacts[id].status == Purged :: Purgeable(id.filename))
  }

  /**
    An observed name has its artifact manifest; a manifest has an intact copy unless its name may be purged; only
    such manifests are purged.
   */
  ghost predicate WriteAhead(d: Disk) {
    ObservedAreAnnounced(d) && CopiesAreIntact(d) && ManifestsHaveCopies(d) && ManifestsAreSound(d)
  }

  lemma CopyKeepsOrder(d: Disk, id: ArtifactId, raw: string)
    requires WriteAhead(d) && id.sha == Sha256(raw)
    ensures WriteAhead(WithCopy(d, id, raw)) && id in WithCopy(d, id, raw).files
  {
    hide Purgeable, Safe;
    forall k, n | k in d.launches && n in d.launches[k].observed
      ensures Announced(WithCopy(d, id, raw), d.launches[k], n)
    {
      assert Announced(d, d.launches[k], n);
    }
  }

  /** The copy must already be there, unless it may be purged. */
  lemma ManifestKeepsOrder(d: Disk, id: ArtifactId, a: Artifact)
    requires WriteAhead(d) && (id in d.files || Purgeable(id.filename)) && a.size == |id.sha.raw|
    requires a.status == Purged ==> Purgeable(id.filename)
    ensures WriteAhead(WithArtifact(d, id, a))
  {
    hide Purgeable, Safe;
    var e := WithArtifact(d, id, a);
    forall k, n | k in e.launches && n in e.launches[k].observed ensures Announced(e, e.launches[k], n) {
      var w :| w in d.artifacts && w.launchId == e.launches[k].launchId && w.correlation == e.launches[k].correlation && w.filename == n;
      assert w in e.artifacts;
    }
  }

  /** The artifact manifests of the observed names must already be there. */
  lemma LaunchKeepsOrder(d: Disk, l: Launch)
    requires WriteAhead(d) && forall n | n in l.observed :: Announced(d, l, n)
    ensures WriteAhead(WithLaunch(d, l))
  {
    hide Purgeable, Safe;
    var e := WithLaunch(d, l);
    forall k, n | k in e.launches && n in e.launches[k].observed ensures Announced(e, e.launches[k], n) {
      assert Announced(d, e.launches[k], n);
    }
  }

  /** Only a copy that may be purged can be deleted. */
  lemma DeletionKeepsOrder(d: Disk, id: ArtifactId)
    requires WriteAhead(d)
    ensures WriteAhead(WithoutCopy(d, id)) <==> (Purgeable(id.filename) || id !in d.artifacts)
  {
    hide Purgeable, Safe;
    forall k, n | k in d.launches && n in d.launches[k].observed ensures Announced(WithoutCopy(d, id), d.launches[k], n) {
      assert Announced(d, d.launches[k], n);
    }
    assert id !in WithoutCopy(d, id).files;
  }

  /** The disk after each of the three writes of an enqueued file. */
  lemma EnqueueKeepsOrder(d: Disk, l: Launch, name: string, src: Source)
    requires WriteAhead(d) && Key(l) in d.launches && d.launches[Key(l)] == l
    ensures WriteAhead(CopyWritten(d, l, name, src))
    ensures WriteAhead(ManifestWritten(d, l, name, src))
    ensures WriteAhead(Enqueued(d, l, name, src))
  {
    hide Purgeable, Safe;
    var id := IdOf(l, name, src.raw);
    CopyKeepsOrder(d, id, src.raw);
    ManifestKeepsOrder(CopyWritten(d, l, name, src), id, NewArtifact(l, src));
    var e := ManifestWritten(d, l, name, src);
    forall n | n in Observing(l, name).observed ensures Announced(e, Observing(l, name), n) {
      if n == name {
        assert id in e.artifacts;
      } else {
        assert Announced(e, e.launches[Key(l)], n);
      }
    }
    LaunchKeepsOrder(e, Observing(l, name));
  }

  /** The order of the writes matters: any other first write can leave a crash point that breaks it. */
  lemma OtherOrdersBreak(l: Launch, name: string, src: Source)
    requires !Purgeable(name) && l.observed == {}
    ensures
      var d := Disk(map[Key(l) := l], map[], map[]);
      && WriteAhead(d)
      && !WriteAhead(WithArtifact(d, IdOf(l, name, src.raw), NewArtifact(l, src)))
      && !WriteAhead(WithLaunch(d, Observing(l, name)))
  {
    hide Purgeable, Safe;
    var d := Disk(map[Key(l) := l], map[], map[]);
    var e := WithLaunch(d, Observing(l, name));
    assert name in e.launches[Key(l)].observed && !Announced(e, e.launches[Key(l)], name);
    var id := IdOf(l, name, src.raw);
    assert id in WithArtifact(d, id, NewArtifact(l, src)).artifacts && id.filename == name;
  }

  // ---------------------------------------------------------------- windows

  /** Every window is 2 seconds wider at its start. */
  predicate InWindow(l: Launch, next: Option<real>, mtime: real) {
    mtime >= l.registeredAt - 2.0 && Early(mtime, Cutoff(next, l.closedAt))
  }

  /** The end of the window, when it has one. */
  function Cutoff(next: Option<real>, closed: Option<real>): (c: Option<real>)
    ensures c.None? <==> next.None? && closed.None?
    ensures c.Some? ==> forall t: real | true :: Early(t, c) <==> Early(t, next) && Early(t, closed)
  {
    if next.None? then closed else if closed.None? || next.value <= closed.value then next else closed
  }

  predicate Early(t: real, limit: Option<real>) { limit.Some? ==> t < limit.value }

  /** What the scan asks of a file before it counts how often it has seen it. */
  predicate Candidate(l: Launch, next: Option<real>, name: string, mtime: real) {
    name !in l.baseline && name !in l.observed && InWindow(l, next, mtime)
  }

  predicate Before(a: Launch, b: Launch) {
    if a.instance == b.instance then a.registeredAt <= b.registeredAt else AtMost(a.instance, b.instance)
  }

  lemma BeforeIsTotal(a: Launch, b: Launch)
    ensures Before(a, b) || Before(b, a)
  {
    AtMostIsTotal(a.instance, b.instance);
  }

  lemma BeforeIsTransitive(a: Launch, b: Launch, c: Launch)
    requires Before(a, b) && Before(b, c)
    ensures Before(a, c)
  {
    if a.instance != b.instance && b.instance != c.instance {
      AtMostIsTransitive(a.instance, b.instance, c.instance);
      AtMostIsTotal(a.instance, b.instance);
    }
  }

  predicate InTime(launches: map<LaunchKey, Launch>, order: seq<LaunchKey>)
    requires forall k | k in order :: k in launches
  {
    forall i, j | 0 <= i < j < |order| :: Before(launches[order[i]], launches[order[j]])
  }

  /** All the manifests, each once, by instance and time of registration; ties in any order. */
  predicate Sorted(launches: map<LaunchKey, Launch>, order: seq<LaunchKey>) {
    && (forall k | k in order :: k in launches)
    && (forall k | k in launches :: k in order)
    && (forall i, j | 0 <= i < j < |order| :: order[i] != order[j])
    && InTime(launches, order)
  }

  /** When the next launch of the same instance was registered. */
  function Next(launches: map<LaunchKey, Launch>, order: seq<LaunchKey>, i: nat): Option<real>
    requires (forall k | k in order :: k in launches) && i < |order|
  {
    if i + 1 < |order| && launches[order[i + 1]].instance == launches[order[i]].instance
    then Some(launches[order[i + 1]].registeredAt) else None
  }

  /** Only the neighbour in the list is looked at, but no launch of the instance was registered in between. */
  lemma NextIsNearest(launches: map<LaunchKey, Launch>, order: seq<LaunchKey>, i: nat, k: LaunchKey)
    requires Sorted(launches, order) && i < |order| && k in launches
    requires launches[k].instance == launches[order[i]].instance && launches[k].registeredAt > launches[order[i]].registeredAt
    ensures Next(launches, order, i).Some?
    ensures launches[order[i]].registeredAt <= Next(launches, order, i).value <= launches[k].registeredAt
  {
    var j :| 0 <= j < |order| && order[j] == k;
    assert !Before(launches[k], launches[order[i]]);
    assert i < j;
    if i + 1 < j {
      var a, b := launches[order[i]], launches[order[i + 1]];
      assert Before(a, b) && Before(b, launches[k]);
      AtMostIsTotal(a.instance, b.instance);
    }
  }
}
