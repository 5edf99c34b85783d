/**
  What becomes of an artifact whose copy is gone, over any later run of scans, resyncs, deliveries and purges while the
  results directories and the launch windows stay as they are.
 */
module SpoolResend {
  import opened Common
  import opened Spool
  import opened SpoolScan
  import opened SpoolStore
  import opened SpoolPipeline

  datatype Step =
    | Look(v: Visit)                                                  // a scan looks at one file of one launch
    | Resync(id: ArtifactId)                                          // a resync reaches one manifest
    | Deliver(id: ArtifactId, status: Option<nat>, now: real)         // the pipeline takes one pending artifact
    | Purge(id: ArtifactId)                                           // a purge reaches one manifest

  predicate Enabled(s: Scan, step: Step) {
    match step
    case Look(v) => true
    case Resync(id) => id in s.disk.artifacts
    case Deliver(id, status, now) => id in s.disk.artifacts && Due(s.disk.artifacts[id], now)
    case Purge(id) => Eligible(s.disk, id, None)
  }

  /** The delivery finds an intact copy and the upload succeeds. */
  predicate Sends(s: Scan, step: Step, id: ArtifactId) {
    step.Deliver? && step.id == id && Enabled(s, step) && Sent(s.disk, id, (x: ArtifactId) => step.status)
  }

  function Apply(stable: nat, folders: Folders, nexts: Nexts, s: Scan, step: Step): Scan
    requires Enabled(s, step)
  {
    match step
    case Look(v) => VisitFile(stable, folders, nexts, s, v)
    case Resync(id) => s.(disk := WithArtifact(s.disk, id, Requeued(s.disk.artifacts[id])))
    case Deliver(id, status, now) =>
      s.(disk := WithArtifact(s.disk, id, if Sends(s, step, id) then MarkedDelivered(s.disk.artifacts[id])
                                          else MarkedFailed(s.disk.artifacts[id], now)))
    case Purge(id) => s.(disk := PurgedOf(s.disk, {id}))
  }

  predicate Legal(stable: nat, folders: Folders, nexts: Nexts, s: Scan, run: seq<Step>)
    decreases |run|
  {
    run == [] || (Enabled(s, run[0]) && Legal(stable, folders, nexts, Apply(stable, folders, nexts, s, run[0]), run[1..]))
  }

  /** The artifact is sent at some step of the run. */
  predicate SentIn(stable: nat, folders: Folders, nexts: Nexts, s: Scan, run: seq<Step>, id: ArtifactId)
    requires Legal(stable, folders, nexts, s, run)
    decreases |run|
  {
    run != [] && (Sends(s, run[0], id) || SentIn(stable, folders, nexts, Apply(stable, folders, nexts, s, run[0]), run[1..], id))
  }

  ghost predicate Good(s: Scan, nexts: Nexts) {
    WriteAhead(s.disk) && s.disk.launches.Keys <= nexts.Keys
  }

  /** Without a copy, and with no file that a scan could make one from. */
  ghost predicate Stranded(s: Scan, folders: Folders, nexts: Nexts, id: ArtifactId) {
    Good(s, nexts) && id !in s.disk.files && !IsTarget(s.disk, folders, nexts, id)
  }

  lemma SameTargets(d: Disk, e: Disk, folders: Folders, nexts: Nexts, id: ArtifactId)
    requires d.launches == e.launches
    ensures IsTarget(d, folders, nexts, id) <==> IsTarget(e, folders, nexts, id)
  {
    if IsTarget(d, folders, nexts, id) {
      var k :| TargetOf(d, folders, nexts, k, id);
      assert TargetOf(e, folders, nexts, k, id);
    }
    if IsTarget(e, folders, nexts, id) {
      var k :| TargetOf(e, folders, nexts, k, id);
      assert TargetOf(d, folders, nexts, k, id);
    }
  }

  /** A step that rewrites or purges one manifest leaves the launches alone and makes no copy. */
  lemma ManifestStep(stable: nat, folders: Folders, nexts: Nexts, s: Scan, step: Step)
    requires Good(s, nexts) && Enabled(s, step) && !step.Look?
    ensures
      var t := Apply(stable, folders, nexts, s, step);
      Good(t, nexts) && t.disk.launches == s.disk.launches && t.disk.files.Keys <= s.disk.files.Keys
  {
    hide Purgeable, Sends;
    if step.Purge? {
      PurgeKeepsOrder(s.disk, step.id);
      assert PurgedOf(s.disk, {step.id}) ==
             WithArtifact(WithoutCopy(s.disk, step.id), step.id, s.disk.artifacts[step.id].(status := Purged, nextAttemptAt := 0.0));
    } else {
      StaysPurgeable(s.disk, step.id);
      RewriteKeepsOrder(s.disk, step.id, Apply(stable, folders, nexts, s, step).disk.artifacts[step.id]);
    }
    hide WriteAhead;
  }

  lemma StrandedStays(stable: nat, folders: Folders, nexts: Nexts, s: Scan, step: Step, id: ArtifactId)
    requires Stranded(s, folders, nexts, id) && Enabled(s, step)
    ensures Stranded(Apply(stable, folders, nexts, s, step), folders, nexts, id) && !Sends(s, step, id)
  {
    hide WriteAhead, IsTarget;
    var t := Apply(stable, folders, nexts, s, step);
    if step.Look? {
      VisitIsBetween(stable, folders, nexts, s, step.v);
      BetweenKeeps(s.disk, t.disk, folders, nexts);
      if IsTarget(t.disk, folders, nexts, id) { TargetBetween(s.disk, t.disk, folders, nexts, id); }
    } else {
      ManifestStep(stable, folders, nexts, s, step);
      SameTargets(s.disk, t.disk, folders, nexts, id);
    }
  }

  /** Nothing brings it back. */
  lemma {:induction false} StrandedIsNeverSent(stable: nat, folders: Folders, nexts: Nexts, s: Scan, run: seq<Step>, id: ArtifactId)
    requires Stranded(s, folders, nexts, id) && Legal(stable, folders, nexts, s, run)
    ensures !SentIn(stable, folders, nexts, s, run, id)
    decreases |run|
  {
    hide Stranded, Enabled, Apply, Sends;
    if run != [] {
      StrandedStays(stable, folders, nexts, s, run[0], id);
      StrandedIsNeverSent(stable, folders, nexts, Apply(stable, folders, nexts, s, run[0]), run[1..], id);
    }
  }

  // ---------------------------------------------------------------- and when something can

  /** The copy is there and the artifact is due, so one successful upload sends it. */
  lemma OneDelivery(stable: nat, folders: Folders, nexts: Nexts, s: Scan, id: ArtifactId)
    requires WriteAhead(s.disk) && id in s.disk.artifacts && id in s.disk.files && s.disk.artifacts[id].status == Status.Pending
    ensures
      var run := [Deliver(id, Some(200), s.disk.artifacts[id].nextAttemptAt)];
      Legal(stable, folders, nexts, s, run) && SentIn(stable, folders, nexts, s, run, id)
  {
    SentExactlyWhen(s.disk, id, (x: ArtifactId) => Some(200));
    var step := Deliver(id, Some(200), s.disk.artifacts[id].nextAttemptAt);
    SentExactlyWhen(s.disk, id, (x: ArtifactId) => step.status);
    assert Sends(s, step, id);
    assert [step][1..] == [];
  }

  /** The visit that enqueues the wanted file brings the copy back and makes the artifact pending. */
  lemma LastLook(stable: nat, folders: Folders, nexts: Nexts, s: Scan, k: LaunchKey, id: ArtifactId)
    requires Good(s, nexts) && TargetOf(s.disk, folders, nexts, k, id)
    requires Streak(s.seen, PlaceOf(s.disk.launches[k], id.filename), SourceOf(folders, s.disk.launches[k], id.filename)) + 1 >= stable
    ensures
      var t := VisitFile(stable, folders, nexts, s, Visit(k, id.filename));
      && WriteAhead(t.disk) && id in t.disk.artifacts && id in t.disk.files && t.disk.artifacts[id].status == Status.Pending
  {
    hide WriteAhead;
    EnqueueIsBetween(s.disk, folders, nexts, k, id.filename);
    BetweenKeeps(s.disk, VisitFile(stable, folders, nexts, s, Visit(k, id.filename)).disk, folders, nexts);
  }

  /** An earlier one only counts. */
  lemma EarlierLook(stable: nat, folders: Folders, nexts: Nexts, s: Scan, k: LaunchKey, id: ArtifactId)
    requires Good(s, nexts) && TargetOf(s.disk, folders, nexts, k, id)
    requires Streak(s.seen, PlaceOf(s.disk.launches[k], id.filename), SourceOf(folders, s.disk.launches[k], id.filename)) + 1 < stable
    ensures
      var t := VisitFile(stable, folders, nexts, s, Visit(k, id.filename));
      && t.disk == s.disk
      && Streak(t.seen, PlaceOf(t.disk.launches[k], id.filename), SourceOf(folders, t.disk.launches[k], id.filename))
         == Streak(s.seen, PlaceOf(s.disk.launches[k], id.filename), SourceOf(folders, s.disk.launches[k], id.filename)) + 1
  {
    hide WriteAhead;
  }

  lemma {:induction false} TargetIsSent(stable: nat, folders: Folders, nexts: Nexts, s: Scan, k: LaunchKey, id: ArtifactId)
      returns (run: seq<Step>)
    requires Good(s, nexts) && TargetOf(s.disk, folders, nexts, k, id)
    ensures Legal(stable, folders, nexts, s, run) && SentIn(stable, folders, nexts, s, run, id)
    decreases stable - Streak(s.seen, PlaceOf(s.disk.launches[k], id.filename), SourceOf(folders, s.disk.launches[k], id.filename))
  {
    var look := Look(Visit(k, id.filename));
    var t := Apply(stable, folders, nexts, s, look);
    var rest;
    if Streak(s.seen, PlaceOf(s.disk.launches[k], id.filename), SourceOf(folders, s.disk.launches[k], id.filename)) + 1 >= stable {
      LastLook(stable, folders, nexts, s, k, id);
      rest := [Deliver(id, Some(200), t.disk.artifacts[id].nextAttemptAt)];
      OneDelivery(stable, folders, nexts, t, id);
    } else {
      EarlierLook(stable, folders, nexts, s, k, id);
      rest := TargetIsSent(stable, folders, nexts, t, k, id);
    }
    hide Good, TargetOf, Apply, Sends;
    run := [look] + rest;
    assert run[1..] == rest;
  }

  /**
    An artifact without its copy can be sent in some later run if and only if a file of its name and bytes is still
    wanted: there, not in the baseline, not observed, and in the window of its launch.
   */
  lemma SentAgainExactlyWhen(stable: nat, folders: Folders, nexts: Nexts, s: Scan, id: ArtifactId)
    requires Good(s, nexts) && id !in s.disk.files
    ensures
      (exists run :: Legal(stable, folders, nexts, s, run) && SentIn(stable, folders, nexts, s, run, id)) <==>
      IsTarget(s.disk, folders, nexts, id)
  {
    if IsTarget(s.disk, folders, nexts, id) {
      var k :| TargetOf(s.disk, folders, nexts, k, id);
      var run := TargetIsSent(stable, folders, nexts, s, k, id);
    } else {
      hide Legal, SentIn, IsTarget, WriteAhead;
      forall run | Legal(stable, folders, nexts, s, run) ensures !SentIn(stable, folders, nexts, s, run, id) {
        StrandedIsNeverSent(stable, folders, nexts, s, run, id);
      }
    }
  }

  /**
    A crash between the two writes of a purge leaves a delivered artifact without its copy, and a resync makes it
    pending again. From there it is sent in some run if and only if its file is still wanted. That is so when the crash
    that came before it kept the file from being observed, and never once the file is observed.
   */
  lemma InterruptedPurgeThenResync(stable: nat, folders: Folders, nexts: Nexts, s: Scan, id: ArtifactId)
    requires Good(s, nexts) && Eligible(s.disk, id, None)
    ensures
      var left := WithoutCopy(s.disk, id);
      var t := s.(disk := WithArtifact(left, id, Requeued(left.artifacts[id])));
      && WriteAhead(t.disk) && t.disk.artifacts[id].status == Status.Pending && id !in t.disk.files
      && ((exists run :: Legal(stable, folders, nexts, t, run) && SentIn(stable, folders, nexts, t, run, id)) <==>
          IsTarget(s.disk, folders, nexts, id))
  {
    hide Purgeable, WriteAhead, IsTarget;
    var left := WithoutCopy(s.disk, id);
    var t := s.(disk := WithArtifact(left, id, Requeued(left.artifacts[id])));
    PurgeKeepsOrder(s.disk, id);
    SameSize(left, id);
    RewriteKeepsOrder(left, id, Requeued(left.artifacts[id]));
    SameTargets(s.disk, t.disk, folders, nexts, id);
    hide Legal, SentIn;
    SentAgainExactlyWhen(stable, folders, nexts, t, id);
  }

  /** Once every launch that could make it has observed its name, it is no target. */
  lemma ObservedIsNoTarget(d: Disk, folders: Folders, nexts: Nexts, id: ArtifactId)
    requires forall k | k in d.launches && d.launches[k].launchId == id.launchId && d.launches[k].correlation == id.correlation ::
               id.filename in d.launches[k].observed
    ensures !IsTarget(d, folders, nexts, id)
  {
    forall k ensures !TargetOf(d, folders, nexts, k, id) { }
  }
}
