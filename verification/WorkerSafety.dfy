/** What every interleaving keeps, with any number of workers, crashes, re-claims and stale writes. */
module WorkerSafety {
  import opened Contract
  import opened Records
  import opened JobQueue
  import opened Workers
  import Keys

  // ---- the invariant --------------------------------------------------------

  /** The work on this (asset, intent) has an outcome on record. */
  predicate Settled(t: Tables, asset: Id, intent: Intent) {
    (asset, intent) in t.renditions && t.renditions[(asset, intent)].status in {Ready, Refused}
  }

  function DeliveryKey(t: Tables, asset: Id, intent: Intent): string
    requires asset in t.assets
  {
    Keys.RenditionKey(t.assets[asset].vaultKey, IntentName(intent))
  }

  predicate RowOk(cfg: Config, t: Tables, row: Job) {
    && OwnAsset(t.assets, row)
    && (row.status == Running ==> row.heartbeat.Some?)
    && (row.status == Failed ==> row.reason.Some? && row.retries >= cfg.maxAttempts)
    && (row.status == Succeeded ==> Settled(t, row.asset, row.intent))
  }

  /** A rendition belongs to a stored asset, and a ready one names exactly the object that was uploaded for it. */
  predicate RenditionOk(t: Tables, objects: set<string>, key: (Id, Intent)) {
    && key in t.renditions && key.0 in t.assets
    && (t.renditions[key].status == Ready ==>
          && t.renditions[key].record.Some?
          && t.renditions[key].record.value.key == DeliveryKey(t, key.0, key.1)
          && t.renditions[key].record.value.key in objects)
  }

  ghost predicate TablesOk(cfg: Config, t: Tables, issued: set<Id>, objects: set<string>) {
    && t.jobs.Keys <= issued
    && (forall j | j in t.jobs :: RowOk(cfg, t, t.jobs[j]))
    && (forall r | r in t.renditions :: RenditionOk(t, objects, r))
  }

  /** While its job row exists, what a busy worker remembers of it is still true. */
  predicate WorkerOk(t: Tables, issued: set<Id>, objects: set<string>, worker: Worker) {
    worker.Busy? ==>
      var c := worker.claim;
      && c.job in issued
      && (c.job in t.jobs ==>
            var row := t.jobs[c.job];
            && row.asset == c.asset && row.intent == c.intent
            && c.asset in t.assets && t.assets[c.asset].vaultKey == c.vaultKey
            && (worker.phase.Closing? ==> Settled(t, c.asset, c.intent))
            && (worker.phase.Recording? ==>
                  worker.phase.record.key == DeliveryKey(t, c.asset, c.intent) && worker.phase.record.key in objects)
            && (worker.phase.WritingFailure? ==> worker.phase.attempts <= row.retries))
  }

  ghost predicate Inv(cfg: Config, s: System) {
    && TablesOk(cfg, s.t, s.issued, s.objects)
    && forall w | 0 <= w < |s.workers| :: WorkerOk(s.t, s.issued, s.objects, s.workers[w])
  }

  // ---- how tables may change --------------------------------------------------

  /** Rows keep their identity, attempts never shrink, settled work stays settled, and no removed job comes back. */
  ghost predicate Evolves(t: Tables, t': Tables, issued: set<Id>) {
    && (forall a | a in t.assets && a in t'.assets ::
          t'.assets[a].vaultKey == t.assets[a].vaultKey && t'.assets[a].account == t.assets[a].account)
    && (forall j | j in t'.jobs && j in issued :: j in t.jobs && SameWork(t.jobs[j], t'.jobs[j]))
    && (forall j | j in t'.jobs :: t'.jobs[j].asset in t'.assets)
    && (forall a, i | Settled(t, a, i) && a in t'.assets :: Settled(t', a, i))
  }

  predicate SameWork(row: Job, row': Job) {
    && row'.account == row.account && row'.asset == row.asset && row'.intent == row.intent
    && row'.retries >= row.retries
  }

  lemma WorkersFollow(t: Tables, t': Tables, issued: set<Id>, issued': set<Id>,
                      objects: set<string>, objects': set<string>, worker: Worker)
    requires Evolves(t, t', issued) && issued <= issued' && objects <= objects'
    requires WorkerOk(t, issued, objects, worker)
    ensures WorkerOk(t', issued', objects', worker)
  {
  }

  // ---- each statement keeps the tables sound -------------------------------------

  lemma AssetAdded(cfg: Config, s: System, a: Id, row: Asset)
    requires Inv(cfg, s) && a !in s.t.assets
    ensures var t := s.t.(assets := s.t.assets[a := row]);
      TablesOk(cfg, t, s.issued, s.objects) && Evolves(s.t, t, s.issued)
  {
    var t := s.t.(assets := s.t.assets[a := row]);
    forall j | j in t.jobs ensures RowOk(cfg, t, t.jobs[j]) { assert RowOk(cfg, s.t, s.t.jobs[j]); }
    forall r | r in t.renditions ensures RenditionOk(t, s.objects, r) { assert RenditionOk(s.t, s.objects, r); }
  }

  lemma AssetMarked(cfg: Config, s: System, a: Id)
    requires Inv(cfg, s) && a in s.t.assets
    ensures var t := s.t.(assets := s.t.assets[a := s.t.assets[a].(deletedAt := Some(s.now))]);
      TablesOk(cfg, t, s.issued, s.objects) && Evolves(s.t, t, s.issued)
  {
    var t := s.t.(assets := s.t.assets[a := s.t.assets[a].(deletedAt := Some(s.now))]);
    forall j | j in t.jobs ensures RowOk(cfg, t, t.jobs[j]) { assert RowOk(cfg, s.t, s.t.jobs[j]); }
    forall r | r in t.renditions ensures RenditionOk(t, s.objects, r) { assert RenditionOk(s.t, s.objects, r); }
  }

  lemma AssetPurged(cfg: Config, s: System, a: Id)
    requires Inv(cfg, s)
    ensures TablesOk(cfg, Purged(s.t, a), s.issued, s.objects) && Evolves(s.t, Purged(s.t, a), s.issued)
  {
    var t := Purged(s.t, a);
    forall j | j in t.jobs ensures RowOk(cfg, t, t.jobs[j]) { assert RowOk(cfg, s.t, s.t.jobs[j]); }
    forall r | r in t.renditions ensures RenditionOk(t, s.objects, r) { assert RenditionOk(s.t, s.objects, r); }
  }

  lemma JobInserted(cfg: Config, s: System, id: Id, row: Job)
    requires Inv(cfg, s) && id !in s.issued && OwnAsset(s.t.assets, row) && row.status == Queued
    ensures var t := Inserted(s.t, id, row);
      TablesOk(cfg, t, s.issued + {id}, s.objects) && Evolves(s.t, t, s.issued)
  {
    var t := Inserted(s.t, id, row);
    forall j | j in t.jobs ensures RowOk(cfg, t, t.jobs[j]) {
      if j != id { assert RowOk(cfg, s.t, s.t.jobs[j]); }
    }
    forall r | r in t.renditions ensures RenditionOk(t, s.objects, r) { assert RenditionOk(s.t, s.objects, r); }
  }

  /** Rewriting one row, with the renditions left alone. */
  lemma RowRewritten(cfg: Config, s: System, id: Id, row: Job)
    requires Inv(cfg, s) && id in s.t.jobs
    requires SameWork(s.t.jobs[id], row) && RowOk(cfg, s.t, row)
    ensures var t := s.t.(jobs := s.t.jobs[id := row]);
      TablesOk(cfg, t, s.issued, s.objects) && Evolves(s.t, t, s.issued)
  {
    var t := s.t.(jobs := s.t.jobs[id := row]);
    forall j | j in t.jobs ensures RowOk(cfg, t, t.jobs[j]) {
      assert RowOk(cfg, s.t, s.t.jobs[j]);
    }
    forall r | r in t.renditions ensures RenditionOk(t, s.objects, r) { assert RenditionOk(s.t, s.objects, r); }
  }

  /** Writing one outcome, with the jobs left alone. */
  lemma RenditionWritten(cfg: Config, s: System, key: (Id, Intent), r: Rendition)
    requires Inv(cfg, s) && key.0 in s.t.assets
    requires r.status in {Ready, Refused} || key !in s.t.renditions
    requires RenditionOk(s.t.(renditions := s.t.renditions[key := r]), s.objects, key)
    ensures var t := s.t.(renditions := s.t.renditions[key := r]);
      TablesOk(cfg, t, s.issued, s.objects) && Evolves(s.t, t, s.issued)
  {
    var t := s.t.(renditions := s.t.renditions[key := r]);
    forall j | j in t.jobs ensures RowOk(cfg, t, t.jobs[j]) { assert RowOk(cfg, s.t, s.t.jobs[j]); }
    forall k | k in t.renditions ensures RenditionOk(t, s.objects, k) {
      if k != key { assert RenditionOk(s.t, s.objects, k); }
    }
  }

  lemma JobCompleted(cfg: Config, s: System, c: Claim, record: RenditionRecord)
    requires Inv(cfg, s) && Completed(s.t, c.job, record).Some?
    requires WorkerOk(s.t, s.issued, s.objects, Busy(c, Recording(record), 0))
    ensures var t := Completed(s.t, c.job, record).value;
      TablesOk(cfg, t, s.issued, s.objects) && Evolves(s.t, t, s.issued)
  {
    var key := (c.asset, c.intent);
    var r := Rendition(Ready, None, Some(record));
    assert RowOk(cfg, s.t, s.t.jobs[c.job]);
    RenditionWritten(cfg, s, key, r);
    var s1 := s.(t := s.t.(renditions := s.t.renditions[key := r]));
    InvFromTables(cfg, s, s1);
    RowRewritten(cfg, s1, c.job, s.t.jobs[c.job].(status := Succeeded));
    EvolvesThrough(s.t, s1.t, Completed(s.t, c.job, record).value, s.issued);
  }

  lemma InvFromTables(cfg: Config, s: System, s': System)
    requires Inv(cfg, s) && s'.workers == s.workers && s.issued <= s'.issued && s.objects <= s'.objects
    requires TablesOk(cfg, s'.t, s'.issued, s'.objects) && Evolves(s.t, s'.t, s.issued)
    ensures Inv(cfg, s')
  {
    forall w | 0 <= w < |s'.workers| ensures WorkerOk(s'.t, s'.issued, s'.objects, s'.workers[w]) {
      WorkersFollow(s.t, s'.t, s.issued, s'.issued, s.objects, s'.objects, s.workers[w]);
    }
  }

  lemma EvolvesThrough(t: Tables, t1: Tables, t2: Tables, issued: set<Id>)
    requires Evolves(t, t1, issued) && Evolves(t1, t2, issued)
    requires t2.assets == t1.assets == t.assets
    ensures Evolves(t, t2, issued)
  {
  }

  // ---- each step keeps the invariant ---------------------------------------------

  /** The tables part of a step, for every step but the worker's own bookkeeping. */
  lemma TablesStep(cfg: Config, s: System, step: Step)
    requires Inv(cfg, s) && Enabled(cfg, s, step)
    ensures var s' := Apply(cfg, s, step);
      && TablesOk(cfg, s'.t, s'.issued, s'.objects)
      && Evolves(s.t, s'.t, s.issued) && s.issued <= s'.issued && s.objects <= s'.objects
  {
    NothingChanged(cfg, s);
    match step {
      case NewAsset(a, row) => AssetAdded(cfg, s, a, row);
      case MarkDeleted(a) => AssetMarked(cfg, s, a);
      case Purge(a) => AssetPurged(cfg, s, a);
      case Enqueue(id, row) => JobInserted(cfg, s, id, row);
      case Repoint(id, key) => RowStep(cfg, s, id, Repointed(s.t, id, key));
      case StrayBeat(id) => RowStep(cfg, s, id, Beaten(s.t, id, s.now));
      case Decline(a, i) => DeclineStep(cfg, s, a, i);
      case Take(w, id) => RowStep(cfg, s, id, Claimed(s.t, id, s.now));
      case HeartBeat(w) => RowStep(cfg, s, s.workers[w].claim.job, Beaten(s.t, s.workers[w].claim.job, s.now));
      case Refuse(w, ok) => RefuseStep(cfg, s, w);
      case Close(w, ok) =>
        assert WorkerOk(s.t, s.issued, s.objects, s.workers[w]);
        RowStep(cfg, s, s.workers[w].claim.job, Closed(s.t, s.workers[w].claim.job));
      case Record(w, ok) => RecordStep(cfg, s, w);
      case WriteFailure(w) => FailureStep(cfg, s, w);
      case Store(w, ok, facts) => MoreObjects(cfg, s, Apply(cfg, s, step).objects);
      case _ =>
    }
  }

  lemma NothingChanged(cfg: Config, s: System)
    requires Inv(cfg, s)
    ensures Evolves(s.t, s.t, s.issued)
  {
    forall j | j in s.t.jobs ensures s.t.jobs[j].asset in s.t.assets { assert RowOk(cfg, s.t, s.t.jobs[j]); }
  }

  /** A statement that touches at most the row of `id` and leaves it sound. */
  lemma RowStep(cfg: Config, s: System, id: Id, t: Tables)
    requires Inv(cfg, s)
    requires t == s.t || (id in s.t.jobs && id in t.jobs && t == s.t.(jobs := s.t.jobs[id := t.jobs[id]]))
    requires t != s.t ==> SameWork(s.t.jobs[id], t.jobs[id])
    requires t != s.t && RowOk(cfg, s.t, s.t.jobs[id]) ==> RowOk(cfg, s.t, t.jobs[id])
    ensures TablesOk(cfg, t, s.issued, s.objects) && Evolves(s.t, t, s.issued)
  {
    NothingChanged(cfg, s);
    if t != s.t {
      assert RowOk(cfg, s.t, s.t.jobs[id]);
      RowRewritten(cfg, s, id, t.jobs[id]);
    }
  }

  lemma DeclineStep(cfg: Config, s: System, a: Id, i: Intent)
    requires Inv(cfg, s)
    ensures var t := Declined(s.t, a, i);
      t.Some? ==> TablesOk(cfg, t.value, s.issued, s.objects) && Evolves(s.t, t.value, s.issued)
  {
    NothingChanged(cfg, s);
    if a in s.t.assets && (a, i) !in s.t.renditions {
      RenditionWritten(cfg, s, (a, i), Rendition(NotDerived, None, None));
    }
  }

  lemma RefuseStep(cfg: Config, s: System, w: nat)
    requires Inv(cfg, s) && At(s, w) && s.workers[w].phase.Refusing?
    ensures
      var t := RefusalWritten(s.t, s.workers[w].claim.asset, s.workers[w].claim.intent, s.workers[w].phase.reason);
      t.Some? ==>
        && TablesOk(cfg, t.value, s.issued, s.objects) && Evolves(s.t, t.value, s.issued)
        && Settled(t.value, s.workers[w].claim.asset, s.workers[w].claim.intent)
  {
    var c := s.workers[w].claim;
    if c.asset in s.t.assets {
      var record := if (c.asset, c.intent) in s.t.renditions then s.t.renditions[(c.asset, c.intent)].record else None;
      RenditionWritten(cfg, s, (c.asset, c.intent), Rendition(Refused, Some(s.workers[w].phase.reason), record));
    }
  }

  lemma RecordStep(cfg: Config, s: System, w: nat)
    requires Inv(cfg, s) && At(s, w) && s.workers[w].phase.Recording?
    ensures
      var t := Completed(s.t, s.workers[w].claim.job, s.workers[w].phase.record);
      t.Some? ==> TablesOk(cfg, t.value, s.issued, s.objects) && Evolves(s.t, t.value, s.issued)
  {
    assert WorkerOk(s.t, s.issued, s.objects, s.workers[w]);
    if Completed(s.t, s.workers[w].claim.job, s.workers[w].phase.record).Some? {
      JobCompleted(cfg, s, s.workers[w].claim, s.workers[w].phase.record);
    }
  }

  lemma FailureStep(cfg: Config, s: System, w: nat)
    requires Inv(cfg, s) && At(s, w) && s.workers[w].phase.WritingFailure?
    ensures
      var t := FailureWritten(s.t, s.workers[w].claim.job, s.workers[w].phase.attempts, cfg.maxAttempts, FailedReason);
      TablesOk(cfg, t, s.issued, s.objects) && Evolves(s.t, t, s.issued)
  {
    NothingChanged(cfg, s);
    var id := s.workers[w].claim.job;
    if id in s.t.jobs {
      assert WorkerOk(s.t, s.issued, s.objects, s.workers[w]);
      assert RowOk(cfg, s.t, s.t.jobs[id]);
      var t := FailureWritten(s.t, id, s.workers[w].phase.attempts, cfg.maxAttempts, FailedReason);
      RowRewritten(cfg, s, id, t.jobs[id]);
    }
  }

  lemma MoreObjects(cfg: Config, s: System, objects: set<string>)
    requires Inv(cfg, s) && s.objects <= objects
    ensures TablesOk(cfg, s.t, s.issued, objects)
  {
    forall r | r in s.t.renditions ensures RenditionOk(s.t, objects, r) { assert RenditionOk(s.t, s.objects, r); }
  }

  /** The worker that steps remembers only what is true. */
  lemma ActorStep(cfg: Config, s: System, step: Step, w: nat)
    requires Inv(cfg, s) && Enabled(cfg, s, step) && w < |s.workers|
    requires Apply(cfg, s, step).workers[w] != s.workers[w]
    ensures var s' := Apply(cfg, s, step); WorkerOk(s'.t, s'.issued, s'.objects, s'.workers[w])
  {
    TablesStep(cfg, s, step);
    var s' := Apply(cfg, s, step);
    WorkersFollow(s.t, s'.t, s.issued, s'.issued, s.objects, s'.objects, s.workers[w]);
    match step {
      case Refuse(_, ok) => RefuseStep(cfg, s, w);
      case _ =>
    }
  }

  /** One step, whichever it is and whoever takes it. */
  lemma StepKeepsInv(cfg: Config, s: System, step: Step)
    requires Inv(cfg, s) && Enabled(cfg, s, step)
    ensures Inv(cfg, Apply(cfg, s, step))
  {
    var s' := Apply(cfg, s, step);
    TablesStep(cfg, s, step);
    forall w | 0 <= w < |s'.workers| ensures WorkerOk(s'.t, s'.issued, s'.objects, s'.workers[w]) {
      if s'.workers[w] == s.workers[w] {
        WorkersFollow(s.t, s'.t, s.issued, s'.issued, s.objects, s'.objects, s.workers[w]);
      } else {
        ActorStep(cfg, s, step, w);
      }
    }
  }

  lemma {:induction false} RunKeepsInv(cfg: Config, s: System, steps: seq<Step>)
    requires Inv(cfg, s) && Legal(cfg, s, steps)
    ensures Inv(cfg, After(cfg, s, steps))
  {
    if steps != [] {
      var before := steps[..|steps| - 1];
      RunKeepsInv(cfg, s, before);
      StepKeepsInv(cfg, After(cfg, s, before), steps[|steps| - 1]);
    }
  }

  // ---- the main results -----------------------------------------------------------

  /** Outcome records never split: in every run, stale workers included, a succeeded job has its ready or
      refused rendition (never an absent or declined one), a failed job has a reason and used its attempts,
      and a ready rendition names the very object some worker uploaded. */
  lemma OutcomesNeverSplit(cfg: Config, s: System, steps: seq<Step>, j: Id)
    requires Init(s) && Legal(cfg, s, steps) && j in After(cfg, s, steps).t.jobs
    ensures
      var t := After(cfg, s, steps).t;
      var row := t.jobs[j];
      && row.asset in t.assets
      && (row.status == Succeeded ==>
            && (row.asset, row.intent) in t.renditions
            && t.renditions[(row.asset, row.intent)].status in {Ready, Refused})
      && (row.status == Failed ==> row.reason.Some? && row.retries >= cfg.maxAttempts)
    ensures
      var s' := After(cfg, s, steps);
      forall a, i | (a, i) in s'.t.renditions && s'.t.renditions[(a, i)].status == Ready ::
        && a in s'.t.assets && s'.t.renditions[(a, i)].record.Some?
        && s'.t.renditions[(a, i)].record.value.key == Keys.RenditionKey(s'.t.assets[a].vaultKey, IntentName(i))
        && s'.t.renditions[(a, i)].record.value.key in s'.objects
  {
    RunKeepsInv(cfg, s, steps);
    var s' := After(cfg, s, steps);
    assert RowOk(cfg, s'.t, s'.t.jobs[j]);
    forall a, i | (a, i) in s'.t.renditions && s'.t.renditions[(a, i)].status == Ready
      ensures a in s'.t.assets && s'.t.renditions[(a, i)].record.Some?
      ensures s'.t.renditions[(a, i)].record.value.key == Keys.RenditionKey(s'.t.assets[a].vaultKey, IntentName(i))
      ensures s'.t.renditions[(a, i)].record.value.key in s'.objects
    {
      assert RenditionOk(s'.t, s'.objects, (a, i));
    }
  }

  /** No job is lost: an unfinished job is claimable now, or will be as soon as its lease has been silent too long. */
  lemma UnfinishedJobIsClaimable(cfg: Config, s: System, steps: seq<Step>, j: Id, later: int)
    requires Init(s) && Legal(cfg, s, steps) && j in After(cfg, s, steps).t.jobs
    requires !Terminal(After(cfg, s, steps).t.jobs[j].status)
    ensures
      var row := After(cfg, s, steps).t.jobs[j];
      || row.status == Queued
      || (row.heartbeat.Some? && (later > row.heartbeat.value + cfg.leaseTtl ==> Runnable(row, later - cfg.leaseTtl)))
  {
    RunKeepsInv(cfg, s, steps);
    assert RowOk(cfg, After(cfg, s, steps).t, After(cfg, s, steps).t.jobs[j]);
  }

  // ---- counting claims ---------------------------------------------------------------

  function Claims(steps: seq<Step>, j: Id): nat {
    if steps == [] then 0
    else
      var last := steps[|steps| - 1];
      Claims(steps[..|steps| - 1], j) + (if last.Take? && last.id == j then 1 else 0)
  }

  /** The retries column counts claims, one for one, in every run. */
  lemma {:induction false} RetriesCountClaims(cfg: Config, s: System, steps: seq<Step>, j: Id)
    requires Init(s) && Legal(cfg, s, steps)
    ensures j in After(cfg, s, steps).t.jobs ==> After(cfg, s, steps).t.jobs[j].retries == Claims(steps, j)
    ensures j !in After(cfg, s, steps).issued ==> Claims(steps, j) == 0
  {
    if steps != [] {
      var before := steps[..|steps| - 1];
      RetriesCountClaims(cfg, s, before, j);
      RunKeepsInv(cfg, s, before);
      RunKeepsInv(cfg, s, steps);
      RetriesStep(cfg, After(cfg, s, before), steps[|steps| - 1], j);
    }
  }

  lemma RetriesStep(cfg: Config, s: System, step: Step, j: Id)
    requires Inv(cfg, s) && Enabled(cfg, s, step)
    ensures
      var s' := Apply(cfg, s, step);
      var claim := if step.Take? && step.id == j then 1 else 0;
      && (j in s'.t.jobs && j in s.t.jobs ==> s'.t.jobs[j].retries == s.t.jobs[j].retries + claim)
      && (j in s'.t.jobs && j !in s.t.jobs ==> j !in s.issued && s'.t.jobs[j].retries == 0 && claim == 0)
      && (j !in s'.issued ==> j !in s.issued && claim == 0)
  {
  }

  // ---- when finished jobs stop being finished ------------------------------------------

  lemma GuardedWritesSpareFinished(cfg: Config, s: System, step: Step, j: Id)
    requires s.t.jobs.Keys <= s.issued && Enabled(cfg, s, step) && j in s.t.jobs && Terminal(s.t.jobs[j].status)
    requires !step.Close? && !step.WriteFailure? && j in Apply(cfg, s, step).t.jobs
    ensures Apply(cfg, s, step).t.jobs[j].status == s.t.jobs[j].status
  {
  }

  lemma UnguardedWrites(cfg: Config, s: System, step: Step, j: Id)
    requires Enabled(cfg, s, step) && (step.Close? || step.WriteFailure?) && j in s.t.jobs
    ensures
      var row, s' := s.t.jobs[j], Apply(cfg, s, step);
      && j in s'.t.jobs
      && s'.t.jobs[j].status ==
         if s.workers[step.w].claim.job != j then row.status
         else if step.Close? then if step.ok then Succeeded else row.status
         else if s.workers[step.w].phase.attempts < cfg.maxAttempts then Queued
         else Failed
  {
  }

  /** The unguarded writes, exactly: a finished job leaves its status in one step if and only if a worker that
      still believes it owns the job closes it as succeeded after a failure, or writes down a failure of its own. */
  lemma FinishedJobDisturbedIff(cfg: Config, s: System, step: Step, j: Id)
    requires Inv(cfg, s) && Enabled(cfg, s, step) && j in s.t.jobs && Terminal(s.t.jobs[j].status)
    requires j in Apply(cfg, s, step).t.jobs
    ensures
      Apply(cfg, s, step).t.jobs[j].status != s.t.jobs[j].status <==>
      || (step.Close? && step.ok && s.workers[step.w].claim.job == j && s.t.jobs[j].status == Failed)
      || (step.WriteFailure? && s.workers[step.w].claim.job == j
          && (s.workers[step.w].phase.attempts < cfg.maxAttempts || s.t.jobs[j].status == Succeeded))
  {
    if step.Close? || step.WriteFailure? {
      UnguardedWrites(cfg, s, step, j);
    } else {
      GuardedWritesSpareFinished(cfg, s, step, j);
    }
  }
}
