/** The archive object pair in S3 and the storage job that writes it (archive.sh).
    tar, zstd and sha256 are uninterpreted and injective: a blob is the home it packs
    plus everything else that may differ between two packings, a digest names its blob. */
module Archive {
  import opened Domain

  datatype Blob = Blob(home: Home, nonce: nat)

  datatype Digest = Sha256(of: Blob)

  /** The two objects under one archive key: home.tar.zst and home.tar.zst.meta. */
  datatype Slot = Slot(tar: Option<Blob>, meta: Option<Digest>)

  const EMPTY_SLOT := Slot(None, None)

  /** The HEAD check of the job: both objects are there. */
  predicate BothPresent(slot: Slot) {
    slot.tar.Some? && slot.meta.Some?
  }

  /** What the restore job accepts. */
  predicate Committed(slot: Slot) {
    BothPresent(slot) && slot.meta.value == Sha256(slot.tar.value)
  }

  /** `.meta` is a commit marker: it never vouches for anything but the tar beside it. */
  predicate MetaVouches(slot: Slot) {
    slot.meta.Some? ==> Committed(slot)
  }

  /** One run of archive.sh, cut off after `cut` uploads: `blob` is what it packs, `headFails`
      that a HEAD request fails, which the script takes for an object that is not there. The
      result says whether the job exited with code 0. */
  datatype Job = Job(blob: Blob, headFails: bool, cut: nat)

  function JobRun(slot: Slot, job: Job): (Slot, bool) {
    if BothPresent(slot) && !job.headFails then (slot, true)
    else if job.cut == 0 then (slot, false)
    else if job.cut == 1 then (slot.(tar := Some(job.blob)), false)
    else (Slot(Some(job.blob), Some(Sha256(job.blob))), true)
  }

  function JobRuns(slot: Slot, jobs: seq<Job>): Slot {
    if jobs == [] then slot else JobRun(JobRuns(slot, jobs[..|jobs| - 1]), jobs[|jobs| - 1]).0
  }

  /** A job that packs again over a whole archive and dies before it has replaced the marker. */
  predicate Breaks(slot: Slot, job: Job) {
    BothPresent(slot) && job.headFails && job.cut == 1 && job.blob != slot.tar.value
  }

  /** One run keeps the marker truthful exactly if it is not of that kind. */
  lemma MetaVouchesIff(slot: Slot, job: Job)
    requires MetaVouches(slot)
    ensures MetaVouches(JobRun(slot, job).0) <==> !Breaks(slot, job)
  {
  }

  /** The exit code. 0 means that the pair was found whole, and is as it was, or that it is now
      this run's blob and its digest; after anything else the marker is as it was. */
  lemma ExitCodeIff(slot: Slot, job: Job)
    ensures var (after, ok) := JobRun(slot, job);
            && (ok <==> job.cut >= 2 || (slot.tar.Some? && slot.meta.Some? && !job.headFails))
            && (ok ==> after.tar.Some? && after.meta.Some?)
            && (ok ==> after == (if slot.tar.Some? && slot.meta.Some? && !job.headFails then slot
                                 else Slot(Some(job.blob), Some(Sha256(job.blob)))))
            && (!ok ==> after.meta == slot.meta && after.tar == (if job.cut == 0 then slot.tar else Some(job.blob)))
  {
  }

  /** What the objects are before run i, and whether run i is of that kind. */
  function Before(jobs: seq<Job>, i: nat): Slot
    requires i <= |jobs|
  {
    JobRuns(EMPTY_SLOT, jobs[..i])
  }

  lemma BeforeNext(jobs: seq<Job>, i: nat)
    requires i < |jobs|
    ensures Before(jobs, i + 1) == JobRun(Before(jobs, i), jobs[i]).0
  {
    assert jobs[..i + 1][..i] == jobs[..i];
  }

  lemma {:induction false} VouchesUpTo(jobs: seq<Job>, n: nat)
    requires n <= |jobs| && forall i :: 0 <= i < n ==> !Breaks(Before(jobs, i), jobs[i])
    ensures MetaVouches(Before(jobs, n))
  {
    if n > 0 {
      VouchesUpTo(jobs, n - 1);
      BeforeNext(jobs, n - 1);
      MetaVouchesIff(Before(jobs, n - 1), jobs[n - 1]);
    }
  }

  /** Over any sequence of cut-off runs the marker vouches for the tar beside it at every
      moment, exactly if none of them is of that kind. */
  lemma CrashOnly(jobs: seq<Job>)
    ensures (forall n :: 0 <= n <= |jobs| ==> MetaVouches(Before(jobs, n))) <==>
            (forall i :: 0 <= i < |jobs| ==> !Breaks(Before(jobs, i), jobs[i]))
  {
    if forall n :: 0 <= n <= |jobs| ==> MetaVouches(Before(jobs, n)) {
      forall i | 0 <= i < |jobs| ensures !Breaks(Before(jobs, i), jobs[i]) {
        BeforeNext(jobs, i);
        assert MetaVouches(Before(jobs, i)) && MetaVouches(Before(jobs, i + 1));
      }
    } else if forall i :: 0 <= i < |jobs| ==> !Breaks(Before(jobs, i), jobs[i]) {
      forall n | 0 <= n <= |jobs| ensures MetaVouches(Before(jobs, n)) {
        VouchesUpTo(jobs, n);
      }
    }
  }

  /** If no run is of that kind, a run that exits with 0 leaves a whole archive that verifies. */
  lemma ExitZeroCommits(jobs: seq<Job>, n: nat)
    requires n < |jobs| && forall i :: 0 <= i <= n ==> !Breaks(Before(jobs, i), jobs[i])
    requires JobRun(Before(jobs, n), jobs[n]).1
    ensures Committed(Before(jobs, n + 1))
  {
    VouchesUpTo(jobs, n + 1);
    BeforeNext(jobs, n);
    ExitCodeIff(Before(jobs, n), jobs[n]);
  }

  /** Both objects are there exactly if some run got as far as both uploads. */
  lemma {:induction false} PresentIff(jobs: seq<Job>)
    ensures JobRuns(EMPTY_SLOT, jobs).meta.Some? ==> JobRuns(EMPTY_SLOT, jobs).tar.Some?
    ensures BothPresent(JobRuns(EMPTY_SLOT, jobs)) <==> exists i :: 0 <= i < |jobs| && jobs[i].cut >= 2
  {
    if jobs != [] {
      var before := jobs[..|jobs| - 1];
      PresentIff(before);
      assert forall i :: 0 <= i < |before| ==> before[i] == jobs[i];
      if i :| 0 <= i < |before| && before[i].cut >= 2 {
        assert jobs[i].cut >= 2;
      }
    }
  }

  /** As long as HEAD answers, no run is of that kind and the pair is that of the first run
      that got as far as both uploads. */
  lemma {:induction false} HonestHeads(jobs: seq<Job>, first: nat)
    requires first < |jobs| && jobs[first].cut >= 2 && forall k :: 0 <= k < first ==> jobs[k].cut < 2
    requires forall k :: 0 <= k < |jobs| ==> !jobs[k].headFails
    ensures JobRuns(EMPTY_SLOT, jobs) == Slot(Some(jobs[first].blob), Some(Sha256(jobs[first].blob)))
  {
    var before := jobs[..|jobs| - 1];
    if first < |before| {
      HonestHeads(before, first);
    } else {
      PresentIff(before);
    }
  }

  /** One run that is not cut off commits, whatever came before it; and while HEAD answers,
      running again, cut off or not and whatever is mounted by then, changes nothing. */
  lemma FullRunCommits(slot: Slot, full: Job, later: seq<Job>)
    requires full.cut >= 2 && MetaVouches(slot)
    requires forall job :: job in later ==> !job.headFails
    ensures var committed := JobRun(slot, full).0;
            Committed(committed) && JobRuns(committed, later) == committed
    decreases |later|
  {
    if later != [] {
      FullRunCommits(slot, full, later[..|later| - 1]);
      assert later[|later| - 1] in later;
    }
  }

  /** The bucket objects of one archive key as archive.sh leaves them. */
  class ArchiveObjects {
    var tar: Option<Blob>
    var meta: Option<Digest>

    ghost function Contents(): Slot
      reads this
    {
      Slot(tar, meta)
    }

    constructor ()
      ensures Contents() == EMPTY_SLOT
    {
      tar, meta := None, None;
    }

    /** archive.sh. `tarred` is what tar gets to write if it fails: the pipe into zstd hides its
        exit status, and the script goes on. */
    method RunJob(data: Home, tarred: Option<Home>, nonce: nat, headFails: bool, cut: nat) returns (ok: bool)
      modifies this
      ensures var packed := Blob(if tarred.Some? then tarred.value else data, nonce);
              (Contents(), ok) == JobRun(old(Contents()), Job(packed, headFails, cut))
    {
      var tarThere := tar.Some? && !headFails;
      if tarThere && meta.Some? {
        return true;
      }
      var packed := Blob(data, nonce);
      if tarred.Some? {
        packed := Blob(tarred.value, nonce);
      }
      var checksum := Sha256(packed);
      if cut == 0 {
        return false;
      }
      tar := Some(packed);
      if cut == 1 {
        return false;
      }
      meta := Some(checksum);
      return true;
    }
  }
}
