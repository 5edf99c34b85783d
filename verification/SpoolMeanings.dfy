/** What the values of the spool mean for its files: windows, retries, the purge and the resync, each spelled out. */
module SpoolMeanings {
  import opened Common
  import opened Strings
  import opened Spool
  import opened SpoolStore
  import opened SpoolPipeline

  // ---------------------------------------------------------------- windows

  /** A launch takes the names it has neither found at its start nor taken, dated 2 seconds before its start up to both ends. */
  lemma WindowBounds(l: Launch, next: Option<real>, name: string, mtime: real)
    ensures
      Candidate(l, next, name, mtime) <==>
      && name !in l.baseline && name !in l.observed
      && l.registeredAt - mtime <= 2.0
      && !(next.Some? && mtime >= next.value) && !(l.closedAt.Some? && mtime >= l.closedAt.value)
  {
  }

  /** A new launch is open, and takes of its directory exactly what is not there yet when it is registered. */
  lemma RegisteredTakesOnlyNew(instance: string, launchId: int, s: Server, folders: Folders, now: real, name: string, mtime: real)
    ensures
      var l := Opened(instance, launchId, s, folders, now);
      var there := s.resultsPath in folders && name in folders[s.resultsPath];
      && l.closedAt == None && l.instance == instance && l.resultsPath == s.resultsPath && l.uploadUrl == s.uploadUrl
      && Key(l) == LaunchKey(launchId, Safe(s.correlation)) && l.correlation == s.correlation
      && (Candidate(l, None, name, mtime) <==> !there && mtime >= now - 2.0)
  {
  }

  /** Closing an instance ends each of its open windows at that time, and changes nothing else. */
  lemma ClosedTakesNothingLater(launches: map<LaunchKey, Launch>, instance: string, at: real, k: LaunchKey)
    requires k in launches
    ensures
      var l, m := launches[k], Closed(launches, instance, at)[k];
      && m == l.(closedAt := m.closedAt)
      && (l.instance != instance || l.closedAt.Some? ==> m == l)
      && (l.instance == instance && l.closedAt.None? ==>
            forall next, name, mtime :: Candidate(m, next, name, mtime) <==> Candidate(l, next, name, mtime) && mtime < at)
  {
  }

  /** Why a registration is refused, and when it is not. */
  lemma RefusedExactlyWhen(launchId: int, server: Option<Server>)
    ensures Refusal(launchId, server) == Some(ServerMissing) <==> server == None
    ensures Refusal(launchId, server) == Some(MetadataIncomplete) <==>
              server.Some? && server.value.collectResults
              && (launchId < 1 || |server.value.correlation| == 0 || |server.value.uploadUrl| == 0 || |server.value.resultsPath| == 0)
    ensures Refusal(launchId, server) == Some(CorrelationInvalid) <==>
              server.Some? && server.value.collectResults
              && launchId >= 1 && |server.value.correlation| > 0 && |server.value.uploadUrl| > 0 && |server.value.resultsPath| > 0
              && forall i | 0 <= i < |server.value.correlation| :: server.value.correlation[i] !in "0123456789abcdefABCDEF"
  {
    if server.Some? { SafeIsEmpty(server.value.correlation); }
  }

  // ---------------------------------------------------------------- names

  /** The hexadecimal digits of a text are those of its parts; with HexOnlyOne this fixes HexOnly for all texts. */
  lemma {:induction false} HexOnlyJoins(a: string, b: string)
    ensures HexOnly(a + b) == HexOnly(a) + HexOnly(b)
    decreases |a|
  {
    if a == "" {
      assert a + b == b;
    } else {
      HexOnlyJoins(a[1..], b);
      assert (a + b)[1..] == a[1..] + b;
      var first := if a[0] in "0123456789abcdef" then [a[0]] else [];
      assert first + (HexOnly(a[1..]) + HexOnly(b)) == first + HexOnly(a[1..]) + HexOnly(b);
    }
  }

  lemma HexOnlyOne(c: char)
    ensures HexOnly([c]) == if '0' <= c <= '9' || 'a' <= c <= 'f' then [c] else ""
  {
    HexDigits(c);
    assert [c][1..] == "";
  }

  lemma {:induction false} HexOnlyIsEmpty(s: string)
    ensures HexOnly(s) == "" <==> forall i | 0 <= i < |s| :: s[i] !in "0123456789abcdef"
    decreases |s|
  {
    if s != "" {
      HexOnlyIsEmpty(s[1..]);
      assert s == [s[0]] + s[1..];
    }
  }

  lemma SafeIsEmpty(correlation: string)
    ensures Safe(correlation) == "" <==> forall i | 0 <= i < |correlation| :: correlation[i] !in "0123456789abcdefABCDEF"
  {
    HexOnlyIsEmpty(Lower(correlation));
    forall i | 0 <= i < |correlation|
      ensures Lower(correlation)[i] in "0123456789abcdef" <==> correlation[i] in "0123456789abcdefABCDEF"
    {
      LowerHex(correlation[i]);
    }
  }

  lemma LowerHex(c: char)
    ensures LowerChar(c) in "0123456789abcdef" <==> c in "0123456789abcdefABCDEF"
  {
    var a, b := "0123456789abcdef", "0123456789abcdefABCDEF";
    assert LowerChar(c) in a <==> ('0' <= LowerChar(c) <= '9' || 'a' <= LowerChar(c) <= 'f') by { HexDigits(LowerChar(c)); }
    assert c in b <==> ('0' <= c <= '9' || 'a' <= c <= 'f' || 'A' <= c <= 'F') by { HexDigits(c); }
  }

  lemma HexDigits(c: char)
    ensures c in "0123456789abcdef" <==> '0' <= c <= '9' || 'a' <= c <= 'f'
    ensures c in "0123456789abcdefABCDEF" <==> '0' <= c <= '9' || 'a' <= c <= 'f' || 'A' <= c <= 'F'
  {
    var n := c as int;
    assert '0' <= c <= '9' ==> c == "0123456789"[n - 48];
    assert 'a' <= c <= 'f' ==> c == "abcdef"[n - 97];
    assert 'A' <= c <= 'F' ==> c == "ABCDEF"[n - 65];
  }

  /** Only the results of practice and of warm-up may lose their copies. */
  predicate Expendable(filename: string) {
    var name := Lower(filename);
    || Contains(name, "_practice.")
    || (Contains(name, "_warmup.") && !Contains(name, "_qualify.") && !Contains(name, "_qualifying."))
  }

  // ---------------------------------------------------------------- deliveries

  /** Only an intact copy is sent, also of a disk that was tampered with. */
  lemma SentIsChecked(d: Disk, id: ArtifactId, upload: ArtifactId -> Option<nat>)
    requires id in d.artifacts
    ensures Sent(d, id, upload) <==>
            id in d.files && |d.files[id]| == d.artifacts[id].size && id.sha == Sha256(d.files[id]) && upload(id) != None
  {
  }

  /** A new artifact is due at once, with no attempt made, and tells of its file and of its launch's instance and address. */
  lemma NewIsDue(l: Launch, src: Source, now: real)
    requires now >= 0.0
    ensures
      var a := NewArtifact(l, src);
      && Due(a, now) && a.nextAttemptAt == 0.0 && a.attempts == 0
      && a.size == |src.raw| && a.createdAt == src.mtime && a.instance == l.instance && a.uploadUrl == l.uploadUrl
  {
  }

  /** A delivered artifact is due no more; a failed one is tried again after 2, 4, 8, ... and at last 256 seconds. */
  lemma AttemptMeans(a: Artifact, now: real, time: real)
    ensures MarkedDelivered(a) == a.(status := Status.Delivered, nextAttemptAt := 0.0) && !Due(MarkedDelivered(a), time)
    ensures
      var f := MarkedFailed(a, now);
      var wait := [1, 2, 4, 8, 16, 32, 64, 128, 256][if a.attempts + 1 < 8 then a.attempts + 1 else 8];
      && f.attempts == a.attempts + 1 && (Due(f, time) <==> time - now >= wait as real)
      && f == a.(status := f.status, attempts := f.attempts, nextAttemptAt := f.nextAttemptAt)
  {
    assert Pow2(3) == 8 && Pow2(6) == 8 * Pow2(3);
  }

  // ---------------------------------------------------------------- the resync

  /** A resync makes due exactly the delivered artifacts that meet every condition given; the others stay as they are. */
  lemma ResyncTouchesOnly(artifacts: map<ArtifactId, Artifact>, instance: Option<string>, launchId: Option<int>,
                          correlation: Option<string>, id: ArtifactId, now: real)
    requires id in artifacts && now >= 0.0
    ensures
      var r := RequeuedOf(artifacts, MatchesOf(artifacts, artifacts.Keys, instance, launchId, correlation));
      var chosen := && artifacts[id].status == Status.Delivered
                    && instance in {None, Some(artifacts[id].instance)}
                    && launchId in {None, Some(id.launchId)} && correlation in {None, Some(id.correlation)};
      && r.Keys == artifacts.Keys
      && (!chosen ==> r[id] == artifacts[id])
      && (chosen ==> Due(r[id], now) && r[id] == artifacts[id].(status := Status.Pending, nextAttemptAt := 0.0))
  {
  }

  // ---------------------------------------------------------------- the purge

  /** What a purge removes: the copy of a delivered practice or warm-up artifact that was asked for, and nothing else. */
  lemma PurgeTouchesOnly(d: Disk, ids: seq<ArtifactId>, instance: Option<string>, id: ArtifactId)
    ensures
      var e := PurgedOf(d, EligibleOf(d, ids, instance));
      var chosen := && id in ids && id in d.artifacts && d.artifacts[id].status == Status.Delivered
                    && instance in {None, Some(d.artifacts[id].instance)} && Expendable(id.filename);
      && e.launches == d.launches && e.artifacts.Keys == d.artifacts.Keys
      && (chosen ==> id !in e.files && e.artifacts[id] == d.artifacts[id].(status := Status.Purged, nextAttemptAt := 0.0))
      && (!chosen ==> (id in e.files <==> id in d.files) && (id in e.artifacts ==> e.artifacts[id] == d.artifacts[id]))
      && (id in e.files ==> e.files[id] == d.files[id])
  {
    hide Contains, Lower;
  }

  /** All bytes of the copies. */
  ghost function Stored(files: map<ArtifactId, string>): nat
    decreases |files|
  {
    if files == map[] then 0
    else
      var id :| id in files;
      |files[id]| + Stored(files - {id})
  }

  lemma {:induction false} StoredWithout(files: map<ArtifactId, string>, id: ArtifactId)
    requires id in files
    ensures Stored(files) == |files[id]| + Stored(files - {id})
    decreases |files|
  {
    var j :| j in files && Stored(files) == |files[j]| + Stored(files - {j});
    if j != id {
      assert |files - {j}| < |files| && |files - {id}| < |files| by { Smaller(files, j); Smaller(files, id); }
      StoredWithout(files - {j}, id);
      StoredWithout(files - {id}, j);
      assert files - {j} - {id} == files - {id} - {j};
    }
  }

  lemma Smaller(files: map<ArtifactId, string>, id: ArtifactId)
    requires id in files
    ensures |files - {id}| < |files|
  {
    assert (files - {id}).Keys == files.Keys - {id};
  }

  /** The bytes a purge reports are those its copies took: what it frees and what is left make up what was stored. */
  lemma {:induction false} BytesAreFreed(d: Disk, ids: seq<ArtifactId>, instance: Option<string>)
    requires Distinct(ids)
    ensures Stored(d.files) == Bytes(d, ids, instance) + Stored(PurgedOf(d, EligibleOf(d, ids, instance)).files)
    decreases |ids|
  {
    hide Eligible, Stored;
    if ids == [] {
      assert d.files - EligibleOf(d, ids, instance) == d.files;
    } else {
      var n := |ids| - 1;
      BytesAreFreed(d, ids[..n], instance);
      EligibleStep(d, ids, n, instance);
      assert ids[..n + 1] == ids;
      var left := d.files - EligibleOf(d, ids[..n], instance);
      if Eligible(d, ids[n], instance) {
        assert d.files - EligibleOf(d, ids, instance) == left - {ids[n]};
        if ids[n] in d.files { StoredWithout(left, ids[n]); } else { assert left - {ids[n]} == left; }
      } else {
        assert EligibleOf(d, ids, instance) == EligibleOf(d, ids[..n], instance);
      }
    }
  }
}
