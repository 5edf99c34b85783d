/** One round of the pipeline: scan, then deliver what is due. */
module SpoolPipeline {
  import opened Common
  import opened Spool
  import opened SpoolScan
  import opened SpoolStore

  predicate Due(a: Artifact, now: real) { a.status == Status.Pending && a.nextAttemptAt <= now }

  /** The copy is there, has the size of the manifest, and its hash is that of the manifest. */
  predicate Intact(d: Disk, id: ArtifactId) {
    id in d.artifacts && id in d.files && |d.files[id]| == d.artifacts[id].size && Sha256(d.files[id]) == id.sha
  }

  predicate Sent(d: Disk, id: ArtifactId, upload: ArtifactId -> Option<nat>) {
    Intact(d, id) && upload(id).Some?
  }

  function Attempted(d: Disk, ids: set<ArtifactId>, upload: ArtifactId -> Option<nat>, later: real): map<ArtifactId, Artifact> {
    map id | id in d.artifacts ::
      if id !in ids then d.artifacts[id]
      else if Sent(d, id, upload) then MarkedDelivered(d.artifacts[id])
      else MarkedFailed(d.artifacts[id], later)
  }

  function DueOf(d: Disk, now: real): set<ArtifactId> {
    set id | id in d.artifacts && Due(d.artifacts[id], now)
  }

  function SentOf(d: Disk, ids: set<ArtifactId>, upload: ArtifactId -> Option<nat>): set<ArtifactId> {
    set id | id in ids && Sent(d, id, upload)
  }

  function Elements(s: seq<ArtifactId>): set<ArtifactId> { set id | id in s }

  lemma AttemptStep(d: Disk, done: set<ArtifactId>, id: ArtifactId, upload: ArtifactId -> Option<nat>, later: real)
    requires id in d.artifacts && id !in done
    ensures
      var a, b := Attempted(d, done, upload, later), Attempted(d, done + {id}, upload, later);
      && id in a && a[id] == d.artifacts[id]
      && b == a[id := if Sent(d, id, upload) then MarkedDelivered(a[id]) else MarkedFailed(a[id], later)]
      && id !in SentOf(d, done, upload)
      && SentOf(d, done + {id}, upload) == SentOf(d, done, upload) + if Sent(d, id, upload) then {id} else {}
  {
    hide Sent;
  }

  lemma NothingAttempted(d: Disk, upload: ArtifactId -> Option<nat>, later: real)
    ensures Attempted(d, {}, upload, later) == d.artifacts && SentOf(d, {}, upload) == {}
  {
  }

  class ResultPipeline {
    const spool: ResultArtifactSpool

    constructor (s: ResultArtifactSpool)
      ensures spool == s
    {
      spool := s;
    }

    method Deliver(id: ArtifactId, upload: ArtifactId -> Option<nat>, later: real) returns (sent: bool)
      requires spool.Valid() && id in spool.artifacts
      modifies spool`artifacts, spool`disks
      ensures spool.Valid() && old(spool.disks) <= spool.disks
      ensures sent == Sent(old(spool.Now()), id, upload)
      ensures spool.artifacts == old(spool.artifacts)[id := if sent then MarkedDelivered(old(spool.artifacts)[id])
                                                            else MarkedFailed(old(spool.artifacts)[id], later)]
    {
      hide WriteAhead;
      var status := upload(id);
      sent := id in spool.files && |spool.files[id]| == spool.artifacts[id].size && Sha256(spool.files[id]) == id.sha && status.Some?;
      if sent { spool.MarkDelivered(id); } else { spool.MarkFailed(id, later); }
    }

    /** A failed or corrupt delivery never stops the others; upload gives the status of a successful POST. */
    method RunOnce(folders: Folders, now: real, upload: ArtifactId -> Option<nat>, later: real)
      returns (created: nat, delivered: nat, ghost scanned: Disk, ghost nexts: Nexts, ghost ids: seq<ArtifactId>)
      requires spool.Valid()
      modifies spool
      ensures spool.Valid() && old(spool.disks) <= spool.disks && old(spool.looks) <= spool.looks
      ensures Follows(old(spool.launches), nexts) && Between(old(spool.Now()), scanned, folders, nexts)
      ensures spool.Now() == scanned.(artifacts := Attempted(scanned, DueOf(scanned, now), upload, later))
      ensures delivered == |SentOf(scanned, DueOf(scanned, now), upload)|
      ensures created == |ids| && MadeExactly(old(spool.Now()), folders, nexts, Scan(scanned, spool.seen, ids))
    {
      hide WriteAhead, Between, Visits, Attempted, SentOf, Follows, MadeExactly;
      var made;
      ghost var vs;
      made, nexts, vs := spool.ScanOnce(folders);
      ids := made;
      created := |made|;
      scanned := spool.Now();
      var due := spool.Pending(now);
      delivered := DeliverAll(due, upload, later);
      assert Elements(due) == DueOf(scanned, now);
    }

    method DeliverAll(due: seq<ArtifactId>, upload: ArtifactId -> Option<nat>, later: real) returns (delivered: nat)
      requires spool.Valid() && Distinct(due) && forall id | id in due :: id in spool.artifacts
      modifies spool`artifacts, spool`disks
      ensures spool.Valid() && old(spool.disks) <= spool.disks
      ensures spool.artifacts == Attempted(old(spool.Now()), Elements(due), upload, later)
      ensures delivered == |SentOf(old(spool.Now()), Elements(due), upload)|
    {
      hide WriteAhead, Attempted, SentOf, Sent;
      ghost var was := spool.Now();
      delivered := 0;
      ghost var done: set<ArtifactId> := {};
      NothingAttempted(was, upload, later);
      var i := 0;
      while i < |due|
        invariant 0 <= i <= |due|
        invariant spool.Valid() && old(spool.disks) <= spool.disks
        invariant forall j | 0 <= j < |due| :: due[j] in done <==> j < i
        invariant done <= Elements(due)
        invariant spool.artifacts == Attempted(was, done, upload, later)
        invariant delivered == |SentOf(was, done, upload)|
      {
        var id := due[i];
        AttemptStep(was, done, id, upload, later);
        SentDependsOn(was, spool.Now(), id, upload);
        var sent := Deliver(id, upload, later);
        if sent { delivered := delivered + 1; }
        done := done + {id};
        i := i + 1;
      }
      assert done == Elements(due);
    }
  }

  lemma SentDependsOn(d: Disk, e: Disk, id: ArtifactId, upload: ArtifactId -> Option<nat>)
    requires d.files == e.files && id in d.artifacts && id in e.artifacts && d.artifacts[id] == e.artifacts[id]
    ensures Sent(d, id, upload) == Sent(e, id, upload)
  {
  }

  /**
    A stored copy is never corrupt, so a delivery fails only when the upload does or the copy is gone; and only the
    copy of a PRACTICE or WARMUP artifact can be gone.
   */
  lemma SentExactlyWhen(d: Disk, id: ArtifactId, upload: ArtifactId -> Option<nat>)
    requires WriteAhead(d) && id in d.artifacts
    ensures Sent(d, id, upload) <==> upload(id).Some? && id in d.files
    ensures !Purgeable(id.filename) ==> (Sent(d, id, upload) <==> upload(id).Some?)
  {
    hide Purgeable;
  }

  lemma SameSize(d: Disk, id: ArtifactId)
    requires WriteAhead(d) && id in d.artifacts
    ensures d.artifacts[id].size == |id.sha.raw|
  {
    hide Purgeable;
  }
}
