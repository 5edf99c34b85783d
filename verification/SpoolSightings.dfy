/**
  When a file is stable: what the counters of the scans say about all that was seen since the process began, whatever
  happened to the directories, the manifests and the order of the launches from one look to the next.
 */
module SpoolSightings {
  import opened Spool
  import opened SpoolScan

  /** One visit, with the disk and the directories it found. */
  datatype Look = Look(disk: Disk, folders: Folders, nexts: Nexts, visit: Visit)

  datatype Sighting = Sighting(size: nat, mtime: real)

  /** The file was there and passed the filter. */
  predicate Passed(x: Look) {
    && x.visit.key in x.disk.launches && x.visit.key in x.nexts
    && There(x.folders, x.disk.launches[x.visit.key], x.visit.name)
    && Candidate(x.disk.launches[x.visit.key], x.nexts[x.visit.key], x.visit.name, FileOf(x).mtime)
  }

  function FileOf(x: Look): Source
    requires x.visit.key in x.disk.launches && There(x.folders, x.disk.launches[x.visit.key], x.visit.name)
  {
    x.folders[x.disk.launches[x.visit.key].resultsPath][x.visit.name]
  }

  function At(x: Look): Place
    requires Passed(x)
  {
    Place(x.disk.launches[x.visit.key].resultsPath, x.visit.name)
  }

  /** The sizes and times with which the file of this path and name passed the filter, in their order. */
  function Sightings(looks: seq<Look>, at: Place): seq<Sighting>
    decreases |looks|
  {
    if looks == [] then []
    else
      var x := looks[|looks| - 1];
      Sightings(looks[..|looks| - 1], at) + if Passed(x) && At(x) == at then [Sighting(|FileOf(x).raw|, FileOf(x).mtime)] else []
  }

  /** The last n sightings are the same, and there are as many. */
  predicate Unchanged(sightings: seq<Sighting>, n: nat) {
    n <= |sightings| && forall i | |sightings| - n <= i < |sightings| :: sightings[i] == sightings[|sightings| - 1]
  }

  /** This look, after these, may make an artifact: the file is a JSON object and was the same `stable` times in a row. */
  predicate Ripe(stable: nat, before: seq<Look>, x: Look) {
    Passed(x) && FileOf(x).isObject && Unchanged(Sightings(before + [x], At(x)), stable)
  }

  /** The artifacts of the ripe looks, in their order. */
  function RipeIds(stable: nat, before: seq<Look>, looks: seq<Look>): seq<ArtifactId>
    decreases |looks|
  {
    if looks == [] then []
    else
      var n := |looks| - 1;
      RipeIds(stable, before, looks[..n])
      + if Ripe(stable, before + looks[..n], looks[n])
        then [ArtifactId(looks[n].visit.key.launchId, looks[n].disk.launches[looks[n].visit.key].correlation,
                         looks[n].visit.name, Sha256(FileOf(looks[n]).raw))]
        else []
  }

  // ---------------------------------------------------------------- the counters

  function CountedBy(seen: map<Place, Seen>, x: Look): map<Place, Seen> {
    if Passed(x) then Counted(seen, x.disk.launches[x.visit.key], x.visit.name, FileOf(x)) else seen
  }

  /** The counters after these looks. */
  function Counters(looks: seq<Look>): map<Place, Seen>
    decreases |looks|
  {
    if looks == [] then map[] else CountedBy(Counters(looks[..|looks| - 1]), looks[|looks| - 1])
  }

  lemma CountersThen(looks: seq<Look>, x: Look)
    ensures Counters(looks + [x]) == CountedBy(Counters(looks), x)
  {
    assert (looks + [x])[..|looks|] == looks;
  }

  /** A counter holds the last sighting of its file and how long the last run of equal sightings is. */
  ghost predicate Tells(seen: map<Place, Seen>, at: Place, sightings: seq<Sighting>) {
    && (at in seen <==> sightings != [])
    && (at in seen ==>
          && sightings[|sightings| - 1] == Sighting(seen[at].size, seen[at].mtime)
          && forall n: nat | true :: Unchanged(sightings, n) <==> n <= seen[at].count)
  }

  lemma OneMoreSighting(sightings: seq<Sighting>, one: Sighting, count: nat)
    requires sightings != [] ==> forall n: nat | true :: Unchanged(sightings, n) <==> n <= count
    ensures
      var same := if sightings != [] && sightings[|sightings| - 1] == one then count else 0;
      forall n: nat | true :: Unchanged(sightings + [one], n) <==> n <= same + 1
  {
    var more := sightings + [one];
    forall n: nat
      ensures Unchanged(more, n) <==> n <= (if sightings != [] && sightings[|sightings| - 1] == one then count else 0) + 1
    {
      if n >= 2 {
        if Unchanged(more, n) {
          assert more[|sightings| - 1] == one;
          assert forall i | |sightings| - (n - 1) <= i < |sightings| :: more[i] == sightings[i];
          assert Unchanged(sightings, n - 1);
        } else if sightings != [] && sightings[|sightings| - 1] == one {
          assert !Unchanged(sightings, n - 1);
        }
      }
    }
  }

  lemma CountTells(seen: map<Place, Seen>, x: Look, at: Place, sightings: seq<Sighting>)
    requires Passed(x) && Tells(seen, at, sightings)
    ensures Tells(CountedBy(seen, x), at, sightings + if At(x) == at then [Sighting(|FileOf(x).raw|, FileOf(x).mtime)] else [])
  {
    if At(x) == at {
      OneMoreSighting(sightings, Sighting(|FileOf(x).raw|, FileOf(x).mtime), if at in seen then seen[at].count else 0);
    } else {
      assert sightings + [] == sightings;
    }
  }

  /** Starting from none, the counters tell of all sightings. */
  lemma {:induction false} CountersTell(looks: seq<Look>, at: Place)
    ensures Tells(Counters(looks), at, Sightings(looks, at))
    decreases |looks|
  {
    if looks != [] {
      var n := |looks| - 1;
      CountersTell(looks[..n], at);
      hide Tells, Passed;
      if Passed(looks[n]) {
        CountTells(Counters(looks[..n]), looks[n], at, Sightings(looks[..n], at));
      } else {
        assert Sightings(looks[..n], at) + [] == Sightings(looks[..n], at);
      }
    }
  }

  // ---------------------------------------------------------------- when an artifact is made

  /** The counter of a look that passed has reached the limit exactly when the file was unchanged that often. */
  lemma CountSays(stable: nat, before: seq<Look>, x: Look)
    ensures
      var seen := CountedBy(Counters(before), x);
      Ripe(stable, before, x) <==> Passed(x) && At(x) in seen && seen[At(x)].count >= stable && FileOf(x).isObject
  {
    if Passed(x) {
      CountersTell(before + [x], At(x));
      CountersThen(before, x);
      hide Unchanged, Sightings, Passed;
    }
  }

  /** What a visit does, by the counters after it. */
  lemma VisitSays(stable: nat, seen: map<Place, Seen>, x: Look, made: seq<ArtifactId>)
    requires WriteAhead(x.disk)
    ensures
      var t := VisitFile(stable, x.folders, x.nexts, Scan(x.disk, seen, made), x.visit);
      && t.seen == CountedBy(seen, x)
      && if Passed(x) && At(x) in t.seen && t.seen[At(x)].count >= stable && FileOf(x).isObject then
           t.made == made + [ArtifactId(x.visit.key.launchId, x.disk.launches[x.visit.key].correlation, x.visit.name, Sha256(FileOf(x).raw))]
         else
           t.made == made && t.disk == x.disk
  {
    assert Passed(x) ==> Key(x.disk.launches[x.visit.key]) == x.visit.key;
    hide Candidate, WriteAhead, There, Enqueued, Safe;
  }

  lemma RipeOne(stable: nat, before: seq<Look>, x: Look)
    ensures
      RipeIds(stable, before, [x]) ==
      if Ripe(stable, before, x) then
        [ArtifactId(x.visit.key.launchId, x.disk.launches[x.visit.key].correlation, x.visit.name, Sha256(FileOf(x).raw))]
      else []
  {
    assert [x][..0] == [] && before + [] == before;
  }

  /**
    A visit makes an artifact exactly when the file is a JSON object and passes the filter, and the last `stable` times
    it did, this one included, it had the same size and the same time.
   */
  lemma MadeExactlyWhenStable(stable: nat, before: seq<Look>, x: Look, made: seq<ArtifactId>)
    requires WriteAhead(x.disk)
    ensures
      var t := VisitFile(stable, x.folders, x.nexts, Scan(x.disk, Counters(before), made), x.visit);
      && t.seen == Counters(before + [x])
      && t.made == made + RipeIds(stable, before, [x])
      && (t.made != made <==> Ripe(stable, before, x))
      && (t.disk != x.disk ==> Ripe(stable, before, x))
  {
    hide VisitFile, WriteAhead, Unchanged, Sightings, Passed, Counters, CountedBy, RipeIds, Ripe;
    CountersThen(before, x);
    VisitSays(stable, Counters(before), x, made);
    RipeOne(stable, before, x);
    CountSays(stable, before, x);
    assert made + [] == made;
  }

  /** The looks of a scan. */
  function LooksOf(stable: nat, folders: Folders, nexts: Nexts, s: Scan, vs: seq<Visit>): seq<Look>
    decreases |vs|
  {
    if vs == [] then []
    else
      LooksOf(stable, folders, nexts, s, vs[..|vs| - 1])
      + [Look(Visits(stable, folders, nexts, s, vs[..|vs| - 1]).disk, folders, nexts, vs[|vs| - 1])]
  }

  lemma RipeJoin(stable: nat, before: seq<Look>, looks: seq<Look>, x: Look)
    ensures RipeIds(stable, before, looks + [x]) == RipeIds(stable, before, looks) + RipeIds(stable, before + looks, [x])
  {
    assert (looks + [x])[..|looks|] == looks;
    assert [x][..0] == [] && before + looks + [] == before + looks;
  }

  lemma ScanStep(stable: nat, folders: Folders, nexts: Nexts, t: Scan, v: Visit, before: seq<Look>, looks: seq<Look>, made: seq<ArtifactId>)
    requires WriteAhead(t.disk) && t.seen == Counters(before + looks) && t.made == made + RipeIds(stable, before, looks)
    ensures
      var x := Look(t.disk, folders, nexts, v);
      var u := VisitFile(stable, folders, nexts, t, v);
      u.seen == Counters(before + (looks + [x])) && u.made == made + RipeIds(stable, before, looks + [x])
  {
    hide WriteAhead, VisitFile, Ripe, Counters, RipeIds;
    var x := Look(t.disk, folders, nexts, v);
    MadeExactlyWhenStable(stable, before + looks, x, t.made);
    RipeJoin(stable, before, looks, x);
    assert before + (looks + [x]) == before + looks + [x];
    var a, b := RipeIds(stable, before, looks), RipeIds(stable, before + looks, [x]);
    assert made + a + b == made + (a + b);
  }

  /** A scan makes the artifacts of its ripe looks, also when the scans before it saw other directories. */
  lemma {:induction false} ScanMakesRipe(stable: nat, folders: Folders, nexts: Nexts, s: Scan, vs: seq<Visit>, before: seq<Look>)
    requires WriteAhead(s.disk) && s.disk.launches.Keys <= nexts.Keys && s.seen == Counters(before)
    ensures
      var t, looks := Visits(stable, folders, nexts, s, vs), LooksOf(stable, folders, nexts, s, vs);
      t.seen == Counters(before + looks) && t.made == s.made + RipeIds(stable, before, looks)
    decreases |vs|
  {
    hide WriteAhead, VisitFile, Ripe, Counters, Between;
    if vs == [] {
      assert before + [] == before && s.made + [] == s.made;
    } else {
      hide RipeIds;
      var n := |vs| - 1;
      var t, looks := Visits(stable, folders, nexts, s, vs[..n]), LooksOf(stable, folders, nexts, s, vs[..n]);
      ScanMakesRipe(stable, folders, nexts, s, vs[..n], before);
      VisitsAreBetween(stable, folders, nexts, s, vs[..n]);
      BetweenKeeps(s.disk, t.disk, folders, nexts);
      ScanStep(stable, folders, nexts, t, vs[n], before, looks, s.made);
    }
  }

  lemma {:induction false} LooksJoin(stable: nat, folders: Folders, nexts: Nexts, s: Scan, vs: seq<Visit>, ws: seq<Visit>)
    ensures
      var t := Visits(stable, folders, nexts, s, vs);
      LooksOf(stable, folders, nexts, s, vs + ws) == LooksOf(stable, folders, nexts, s, vs) + LooksOf(stable, folders, nexts, t, ws)
    decreases |ws|
  {
    hide VisitFile;
    if ws == [] {
      assert vs + ws == vs;
    } else {
      LooksJoin(stable, folders, nexts, s, vs, ws[..|ws| - 1]);
      VisitsJoin(stable, folders, nexts, s, vs, ws[..|ws| - 1]);
      assert (vs + ws)[..|vs + ws| - 1] == vs + ws[..|ws| - 1];
    }
  }
}
