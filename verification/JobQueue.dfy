/** The job queue's tables and the statements that change them, one function a statement. */
module JobQueue {
  import opened Contract
  import opened Records

  // ---- enqueue ------------------------------------------------------------

  predicate For(job: Job, account: Id, asset: Id, intent: Intent) {
    job.account == account && job.asset == asset && job.intent == intent
  }

  /** `j` is a newest job of this (account, asset, intent). */
  predicate IsNewest(jobs: map<Id, Job>, j: Id, account: Id, asset: Id, intent: Intent) {
    && j in jobs && For(jobs[j], account, asset, intent)
    && forall k | k in jobs && For(jobs[k], account, asset, intent) :: jobs[k].created <= jobs[j].created
  }

  function FreshJob(account: Id, asset: Id, intent: Intent, mode: JobMode, sourceKey: Option<string>, now: int): Job {
    Job(account, asset, intent, Queued, 0, None, now, None, mode, sourceKey)
  }

  function Inserted(t: Tables, id: Id, job: Job): Tables {
    t.(jobs := t.jobs[id := job])
  }

  function Repointed(t: Tables, id: Id, sourceKey: string): Tables {
    if id !in t.jobs then t
    else t.(jobs := t.jobs[id := t.jobs[id].(sourceKey := Some(sourceKey), mode := Remux)])
  }

  // ---- claim and lease ----------------------------------------------------

  predicate Runnable(job: Job, staleBefore: int) {
    || job.status == Queued
    || (job.status == Running && job.heartbeat.Some? && job.heartbeat.value < staleBefore)
  }

  /** Short work first: stream copies and posters, then loops, then transcoded details. */
  function Tier(job: Job): nat {
    if job.mode == Remux || job.intent == Poster then 0
    else if job.intent == Loop then 1
    else 2
  }

  predicate NoLaterThan(a: Job, b: Job) {
    Tier(a) < Tier(b) || (Tier(a) == Tier(b) && a.created <= b.created)
  }

  /** `j` is a first choice among the runnable rows nobody else holds locked. */
  predicate IsNext(jobs: map<Id, Job>, j: Id, staleBefore: int, locked: set<Id>) {
    && j in jobs && j !in locked && Runnable(jobs[j], staleBefore)
    && forall k | k in jobs && k !in locked && Runnable(jobs[k], staleBefore) :: NoLaterThan(jobs[j], jobs[k])
  }

  function Claimed(t: Tables, id: Id, now: int): Tables
    requires id in t.jobs
  {
    var job := t.jobs[id];
    t.(jobs := t.jobs[id := job.(status := Running, heartbeat := Some(now), retries := job.retries + 1)])
  }

  function Beaten(t: Tables, id: Id, now: int): Tables {
    if id in t.jobs && t.jobs[id].status == Running
    then t.(jobs := t.jobs[id := t.jobs[id].(heartbeat := Some(now))])
    else t
  }

  // ---- outcomes -----------------------------------------------------------

  /** Job and rendition in one transaction; no answer when the job is not running. */
  function Completed(t: Tables, id: Id, record: RenditionRecord): Option<Tables> {
    if id !in t.jobs || t.jobs[id].status != Running then None
    else
      var job := t.jobs[id];
      Some(t.(renditions := t.renditions[(job.asset, job.intent) := Rendition(Ready, None, Some(record))],
              jobs := t.jobs[id := job.(status := Succeeded)]))
  }

  /** Deliberately unguarded: whatever the status, the row becomes succeeded. */
  function Closed(t: Tables, id: Id): Tables {
    if id !in t.jobs then t
    else t.(jobs := t.jobs[id := t.jobs[id].(status := Succeeded)])
  }

  /** The second half of recording a failure: unguarded too, and decided by the attempts read before. */
  function FailureWritten(t: Tables, id: Id, attempts: nat, maxAttempts: nat, reason: ReasonCode): Tables {
    if id !in t.jobs then t
    else if attempts < maxAttempts then
      t.(jobs := t.jobs[id := t.jobs[id].(status := Queued, heartbeat := None)])
    else
      t.(jobs := t.jobs[id := t.jobs[id].(status := Failed, reason := Some(reason))])
  }

  /** No answer when the asset row is gone (foreign key). */
  function RefusalWritten(t: Tables, asset: Id, intent: Intent, reason: ReasonCode): Option<Tables> {
    if asset !in t.assets then None
    else
      var record := if (asset, intent) in t.renditions then t.renditions[(asset, intent)].record else None;
      Some(t.(renditions := t.renditions[(asset, intent) := Rendition(Refused, Some(reason), record)]))
  }

  function Declined(t: Tables, asset: Id, intent: Intent): Option<Tables> {
    if asset !in t.assets then None
    else if (asset, intent) in t.renditions then Some(t)
    else Some(t.(renditions := t.renditions[(asset, intent) := Rendition(NotDerived, None, None)]))
  }

  /** Removing a marked asset takes its jobs and renditions with it. */
  function Purged(t: Tables, asset: Id): Tables {
    if asset !in t.assets || t.assets[asset].deletedAt.None? then t
    else Tables(
        t.assets - {asset},
        map j | j in t.jobs && t.jobs[j].asset != asset :: t.jobs[j],
        map r | r in t.renditions && r.0 != asset :: t.renditions[r])
  }

  // ---- the store ----------------------------------------------------------

  datatype ClaimOutcome =
    | NoJob
    | LoadFailed(job: Id)
    | Taken(job: Id, row: Job, vaultKey: string, vaultSize: int)

  datatype EnqueueOutcome =
    | Existing(job: Id, status: JobStatus)
    | Enqueued(job: Id)
    | Violation

  class JobStore {
    var assets: map<Id, Asset>
    var jobs: map<Id, Job>
    var renditions: map<(Id, Intent), Rendition>

    constructor ()
      ensures State() == Tables(map[], map[], map[])
    {
      assets, jobs, renditions := map[], map[], map[];
    }

    function State(): Tables
      reads this
    {
      Tables(assets, jobs, renditions)
    }

    /** A newest job of the triple answers unless it failed; then a new one is queued. */
    method EnqueueJob(account: Id, asset: Id, intent: Intent, id: Id, now: int) returns (r: EnqueueOutcome)
      requires id !in jobs
      modifies this`jobs
      ensures r.Existing? ==> IsNewest(old(jobs), r.job, account, asset, intent) && old(jobs)[r.job].status != Failed
      ensures r.Existing? ==>
                forall k | k in old(jobs) && For(old(jobs)[k], account, asset, intent) ::
                  old(jobs)[k].created <= old(jobs)[r.job].created
      ensures r.Existing? ==> State() == old(State()) && r.status == jobs[r.job].status
      ensures !r.Existing? ==> MayRequeue(old(jobs), account, asset, intent)
      ensures !r.Existing? ==> (r == if asset in assets then Enqueued(id) else Violation)
      ensures r.Enqueued? ==> State() == Inserted(old(State()), id, FreshJob(account, asset, intent, Derive, None, now))
      ensures r.Violation? ==> State() == old(State())
    {
      if exists j :: j in jobs && For(jobs[j], account, asset, intent) {
        NewestExists(jobs, account, asset, intent);
        var j :| j in jobs && IsNewest(jobs, j, account, asset, intent);
        if jobs[j].status != Failed {
          return Existing(j, jobs[j].status);
        }
      }
      if asset !in assets {
        return Violation;
      }
      jobs := jobs[id := FreshJob(account, asset, intent, Derive, None, now)];
      return Enqueued(id);
    }

    /** Like EnqueueJob, except that a job still in play is re-pointed at the new file and reported queued. */
    method EnqueueRemuxJob(account: Id, asset: Id, intent: Intent, sourceKey: string, id: Id, now: int)
      returns (r: EnqueueOutcome)
      requires id !in jobs
      modifies this`jobs
      ensures r.Existing? ==> IsNewest(old(jobs), r.job, account, asset, intent) && old(jobs)[r.job].status != Failed
      ensures r.Existing? ==>
                forall k | k in old(jobs) && For(old(jobs)[k], account, asset, intent) ::
                  old(jobs)[k].created <= old(jobs)[r.job].created
      ensures r.Existing? ==> State() == Repointed(old(State()), r.job, sourceKey) && r.status == Queued
      ensures !r.Existing? ==> MayRequeue(old(jobs), account, asset, intent)
      ensures !r.Existing? ==> (r == if asset in assets then Enqueued(id) else Violation)
      ensures r.Enqueued? ==>
                State() == Inserted(old(State()), id, FreshJob(account, asset, intent, Remux, Some(sourceKey), now))
      ensures r.Violation? ==> State() == old(State())
    {
      if exists j :: j in jobs && For(jobs[j], account, asset, intent) {
        NewestExists(jobs, account, asset, intent);
        var j :| j in jobs && IsNewest(jobs, j, account, asset, intent);
        if jobs[j].status != Failed {
          jobs := jobs[j := jobs[j].(sourceKey := Some(sourceKey), mode := Remux)];
          return Existing(j, Queued);
        }
      }
      if asset !in assets {
        return Violation;
      }
      jobs := jobs[id := FreshJob(account, asset, intent, Remux, Some(sourceKey), now)];
      return Enqueued(id);
    }

    method ClaimNextJob(now: int, leaseTtl: int, locked: set<Id>) returns (r: ClaimOutcome)
      modifies this`jobs
      ensures r.NoJob? <==> forall k | k in old(jobs) && k !in locked :: !Runnable(old(jobs)[k], now - leaseTtl)
      ensures r.NoJob? ==> State() == old(State())
      ensures !r.NoJob? ==> IsNext(old(jobs), r.job, now - leaseTtl, locked)
      ensures !r.NoJob? ==> State() == Claimed(old(State()), r.job, now)
      ensures !r.NoJob? ==>
                || old(jobs)[r.job].status == Queued
                || (old(jobs)[r.job].status == Running && old(jobs)[r.job].heartbeat.Some?
                    && old(jobs)[r.job].heartbeat.value + leaseTtl < now)
      ensures r.Taken? ==> r.row == jobs[r.job] && OwnAsset(assets, r.row)
      ensures r.Taken? ==> r.vaultKey == assets[r.row.asset].vaultKey && r.vaultSize == assets[r.row.asset].vaultSize
      ensures r.LoadFailed? ==> !OwnAsset(assets, jobs[r.job])
    {
      if forall k | k in jobs && k !in locked :: !Runnable(jobs[k], now - leaseTtl) {
        return NoJob;
      }
      NextExists(jobs, now - leaseTtl, locked);
      var j :| j in jobs && IsNext(jobs, j, now - leaseTtl, locked);
      var job := jobs[j];
      jobs := jobs[j := job.(status := Running, heartbeat := Some(now), retries := job.retries + 1)];
      if job.asset !in assets || assets[job.asset].account != job.account {
        return LoadFailed(j);
      }
      return Taken(j, jobs[j], assets[job.asset].vaultKey, assets[job.asset].vaultSize);
    }

    method Heartbeat(id: Id, now: int)
      modifies this`jobs
      ensures State() == Beaten(old(State()), id, now)
    {
      if id in jobs && jobs[id].status == Running {
        jobs := jobs[id := jobs[id].(heartbeat := Some(now))];
      }
    }

    method CompleteJob(id: Id, record: RenditionRecord) returns (ok: bool)
      modifies this`jobs, this`renditions
      ensures ok == Completed(old(State()), id, record).Some?
      ensures State() == if ok then Completed(old(State()), id, record).value else old(State())
    {
      if id !in jobs || jobs[id].status != Running {
        return false;
      }
      var job := jobs[id];
      renditions := renditions[(job.asset, job.intent) := Rendition(Ready, None, Some(record))];
      jobs := jobs[id := job.(status := Succeeded)];
      return true;
    }

    method CompleteJobNoRendition(id: Id)
      modifies this`jobs
      ensures State() == Closed(old(State()), id)
    {
      if id in jobs {
        jobs := jobs[id := jobs[id].(status := Succeeded)];
      }
    }

    /** The two statements in a row; other workers' statements may fall between them (see Workers). */
    method FailJob(id: Id, maxAttempts: nat, reason: ReasonCode) returns (ok: bool)
      modifies this`jobs
      ensures ok == (id in old(jobs))
      ensures State() == if ok then FailureWritten(old(State()), id, old(jobs)[id].retries, maxAttempts, reason)
                         else old(State())
    {
      if id !in jobs {
        return false;
      }
      var attempts := jobs[id].retries;
      if attempts < maxAttempts {
        jobs := jobs[id := jobs[id].(status := Queued, heartbeat := None)];
      } else {
        jobs := jobs[id := jobs[id].(status := Failed, reason := Some(reason))];
      }
      return true;
    }

    method FailedRenditionForCeiling(asset: Id, intent: Intent, reason: ReasonCode) returns (ok: bool)
      modifies this`renditions
      ensures ok == RefusalWritten(old(State()), asset, intent, reason).Some?
      ensures State() == if ok then RefusalWritten(old(State()), asset, intent, reason).value else old(State())
    {
      if asset !in assets {
        return false;
      }
      if (asset, intent) in renditions {
        var row := renditions[(asset, intent)];
        renditions := renditions[(asset, intent) := row.(status := Refused, reason := Some(reason))];
      } else {
        renditions := renditions[(asset, intent) := Rendition(Refused, Some(reason), None)];
      }
      return true;
    }

    method MarkNotDerived(asset: Id, intent: Intent) returns (ok: bool)
      modifies this`renditions
      ensures ok == Declined(old(State()), asset, intent).Some?
      ensures State() == if ok then Declined(old(State()), asset, intent).value else old(State())
    {
      if asset !in assets {
        return false;
      }
      if (asset, intent) !in renditions {
        renditions := renditions[(asset, intent) := Rendition(NotDerived, None, None)];
      }
      return true;
    }

    method PurgeDeletedAsset(asset: Id)
      modifies this
      ensures State() == Purged(old(State()), asset)
    {
      if asset in assets && assets[asset].deletedAt.Some? {
        assets := assets - {asset};
        jobs := map j | j in jobs && jobs[j].asset != asset :: jobs[j];
        renditions := map r | r in renditions && r.0 != asset :: renditions[r];
      }
    }
  }

  /** The asset a job names is there and is its own account's. */
  predicate OwnAsset(assets: map<Id, Asset>, job: Job) {
    job.asset in assets && assets[job.asset].account == job.account
  }

  /** No job stands for the triple, or a newest one has failed. */
  predicate MayRequeue(jobs: map<Id, Job>, account: Id, asset: Id, intent: Intent) {
    || (forall j | j in jobs :: !For(jobs[j], account, asset, intent))
    || (exists j :: j in jobs && IsNewest(jobs, j, account, asset, intent) && jobs[j].status == Failed)
  }

  predicate CopyOrPoster(job: Job) {
    job.mode == Remux || job.intent == Poster
  }

  /** What the claim prefers: among the rows it may have, stream copies and posters come before everything, loops before
      everything else, and within each of the three the oldest first. */
  lemma FirstChoice(jobs: map<Id, Job>, j: Id, staleBefore: int, locked: set<Id>, k: Id)
    requires IsNext(jobs, j, staleBefore, locked) && k in jobs && k !in locked
    requires jobs[k].status == Queued
          || (jobs[k].status == Running && jobs[k].heartbeat.Some? && jobs[k].heartbeat.value < staleBefore)
    ensures CopyOrPoster(jobs[k]) ==> CopyOrPoster(jobs[j])
    ensures jobs[k].intent == Loop ==> CopyOrPoster(jobs[j]) || jobs[j].intent == Loop
    ensures CopyOrPoster(jobs[k]) && CopyOrPoster(jobs[j]) ==> jobs[j].created <= jobs[k].created
    ensures
      !CopyOrPoster(jobs[k]) && !CopyOrPoster(jobs[j]) && (jobs[k].intent == Loop <==> jobs[j].intent == Loop) ==>
        jobs[j].created <= jobs[k].created
  {
  }

  // ---- a first choice always exists -----------------------------------------

  lemma {:induction false} FirstOf(jobs: map<Id, Job>, some: set<Id>) returns (j: Id)
    requires some != {} && some <= jobs.Keys
    ensures j in some && forall k | k in some :: NoLaterThan(jobs[j], jobs[k])
    decreases some
  {
    j :| j in some;
    if some != {j} {
      var i := FirstOf(jobs, some - {j});
      if !NoLaterThan(jobs[j], jobs[i]) {
        j := i;
      }
    }
  }

  lemma NextExists(jobs: map<Id, Job>, staleBefore: int, locked: set<Id>)
    requires exists k :: k in jobs && k !in locked && Runnable(jobs[k], staleBefore)
    ensures exists j :: j in jobs && IsNext(jobs, j, staleBefore, locked)
  {
    var some := set k | k in jobs && k !in locked && Runnable(jobs[k], staleBefore);
    var k :| k in jobs && k !in locked && Runnable(jobs[k], staleBefore);
    assert k in some;
    var j := FirstOf(jobs, some);
  }

  lemma {:induction false} NewestOf(jobs: map<Id, Job>, some: set<Id>) returns (j: Id)
    requires some != {} && some <= jobs.Keys
    ensures j in some && forall k | k in some :: jobs[k].created <= jobs[j].created
    decreases some
  {
    j :| j in some;
    if some != {j} {
      var i := NewestOf(jobs, some - {j});
      if jobs[i].created > jobs[j].created {
        j := i;
      }
    }
  }

  lemma NewestExists(jobs: map<Id, Job>, account: Id, asset: Id, intent: Intent)
    requires exists j :: j in jobs && For(jobs[j], account, asset, intent)
    ensures exists j :: j in jobs && IsNewest(jobs, j, account, asset, intent)
  {
    var some := set j | j in jobs && For(jobs[j], account, asset, intent);
    var k :| k in jobs && For(jobs[k], account, asset, intent);
    assert k in some;
    var j := NewestOf(jobs, some);
  }
}
