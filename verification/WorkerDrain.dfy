/** Attempts are bounded and the queue drains: how much work can still be done, counted. */
module WorkerDrain {
  import opened Contract
  import opened Records
  import opened JobQueue
  import opened Workers
  import opened WorkerSafety
  import opened WorkerLease

  // ---- attempts --------------------------------------------------------------

  function Drops(steps: seq<Step>, j: Id): nat {
    if steps == [] then 0
    else
      var last := steps[|steps| - 1];
      Drops(steps[..|steps| - 1], j) + (if last.Drop? && last.id == j then 1 else 0)
  }

  ghost predicate Held(s: System, j: Id) {
    exists w: nat :: At(s, w) && s.workers[w].claim.job == j
  }

  /** A queued job has an attempt left; a running job nobody holds was dropped and has used no more than the drops
      allow. */
  ghost predicate Headroom(cfg: Config, s: System, j: Id, drops: nat) {
    j in s.t.jobs ==>
      var row := s.t.jobs[j];
      && row.retries <= cfg.maxAttempts + drops
      && (row.status == Queued ==> row.retries < cfg.maxAttempts)
      && (row.status == Running && !Held(s, j) ==> row.retries < cfg.maxAttempts + drops)
  }

  lemma HolderStays(cfg: Config, s: System, step: Step, j: Id)
    requires Enabled(cfg, s, step) && Held(s, j) && !Held(Apply(cfg, s, step), j)
    requires j in s.t.jobs && j in Apply(cfg, s, step).t.jobs
    ensures Apply(cfg, s, step).t.jobs[j].status != Running || (step.Drop? && step.id == j)
  {
    var s' := Apply(cfg, s, step);
    var w: nat :| At(s, w) && s.workers[w].claim.job == j;
    assert !At(s', w);
  }

  lemma HeadroomStep(cfg: Config, s: System, step: Step, j: Id, drops: nat)
    requires Sane(cfg) && Inv(cfg, s) && Exclusive(cfg, s) && Enabled(cfg, s, step)
    requires Headroom(cfg, s, j, drops)
    ensures Headroom(cfg, Apply(cfg, s, step), j, drops + (if step.Drop? && step.id == j then 1 else 0))
  {
    var s' := Apply(cfg, s, step);
    if j in s'.t.jobs {
      RetriesStep(cfg, s, step, j);
      if step.Take? && step.id == j {
        TakenHeadroom(cfg, s, step.w, j, drops);
      } else if j in s.t.jobs {
        if s'.t.jobs[j].status == Running && !Held(s', j) && Held(s, j) {
          HolderStays(cfg, s, step, j);
        }
        OtherStatus(cfg, s, step, j);
      }
    }
  }

  lemma TakenHeadroom(cfg: Config, s: System, w: nat, j: Id, drops: nat)
    requires Sane(cfg) && Inv(cfg, s) && Exclusive(cfg, s) && Enabled(cfg, s, Take(w, j)) && Headroom(cfg, s, j, drops)
    ensures Headroom(cfg, Apply(cfg, s, Take(w, j)), j, drops)
  {
    var s' := Apply(cfg, s, Take(w, j));
    assert RowOk(cfg, s.t, s.t.jobs[j]);
    assert At(s', w) && s'.workers[w].claim.job == j;
    forall v: nat | At(s, v) ensures s.workers[v].claim.job != j {
      RunnableIsUnheld(cfg, s, j, v);
    }
  }

  /** Every other write of a standing row either leaves its status alone or makes it succeeded. */
  lemma StatusElsewhere(cfg: Config, s: System, step: Step, j: Id)
    requires s.t.jobs.Keys <= s.issued && Enabled(cfg, s, step) && !step.WriteFailure? && !(step.Take? && step.id == j)
    requires j in s.t.jobs && j in Apply(cfg, s, step).t.jobs
    ensures Apply(cfg, s, step).t.jobs[j].status in {s.t.jobs[j].status, Succeeded}
  {
  }

  /** Outside its claim, a job becomes queued only by a failure with attempts left, and running never. */
  lemma OtherStatus(cfg: Config, s: System, step: Step, j: Id)
    requires Inv(cfg, s) && Exclusive(cfg, s) && Enabled(cfg, s, step) && !(step.Take? && step.id == j)
    requires j in s.t.jobs && j in Apply(cfg, s, step).t.jobs
    ensures
      var row, row' := s.t.jobs[j], Apply(cfg, s, step).t.jobs[j];
      && (row'.status == Queued && row.status != Queued ==> row.retries < cfg.maxAttempts)
      && (row'.status == Running ==> row.status == Running)
  {
    if step.WriteFailure? {
      assert HoldsLease(cfg, s, s.workers[step.w]);
      UnguardedWrites(cfg, s, step, j);
    } else {
      StatusElsewhere(cfg, s, step, j);
    }
  }

  /** Every job is claimed at most maxAttempts times, plus once for each time a worker dropped it mid-way. */
  lemma {:induction false} ClaimsBounded(cfg: Config, s: System, steps: seq<Step>, j: Id)
    requires Sane(cfg) && Init(s) && Legal(cfg, s, steps) && LeaseRun(cfg, s, steps)
    ensures Headroom(cfg, After(cfg, s, steps), j, Drops(steps, j))
    ensures j in After(cfg, s, steps).t.jobs ==> Claims(steps, j) <= cfg.maxAttempts + Drops(steps, j)
  {
    RetriesCountClaims(cfg, s, steps, j);
    if steps != [] {
      var before := steps[..|steps| - 1];
      PrefixIsLeaseRun(cfg, s, steps);
      ClaimsBounded(cfg, s, before, j);
      RunKeepsInv(cfg, s, before);
      RunKeepsExclusion(cfg, s, before);
      HeadroomStep(cfg, After(cfg, s, before), steps[|steps| - 1], j, Drops(before, j));
    }
  }

  // ---- the measure -------------------------------------------------------------

  /** Transitions left in a job: each remaining attempt is one claim and one outcome. */
  function Weight(row: Job, maxAttempts: nat): nat {
    var left := if row.retries <= maxAttempts then maxAttempts - row.retries else 0;
    match row.status
    case Queued => 2 * left
    case Running => 2 * left + 1
    case _ => 0
  }

  ghost function JobsLeft(jobs: map<Id, Job>, maxAttempts: nat): nat {
    if jobs == map[] then 0
    else
      var j :| j in jobs;
      Weight(jobs[j], maxAttempts) + JobsLeft(jobs - {j}, maxAttempts)
  }

  lemma {:induction false} JobsLeftSplit(jobs: map<Id, Job>, m: nat, j: Id)
    requires j in jobs
    ensures JobsLeft(jobs, m) == Weight(jobs[j], m) + JobsLeft(jobs - {j}, m)
    decreases jobs
  {
    var k :| k in jobs && JobsLeft(jobs, m) == Weight(jobs[k], m) + JobsLeft(jobs - {k}, m);
    if k != j {
      JobsLeftSplit(jobs - {k}, m, j);
      JobsLeftSplit(jobs - {j}, m, k);
      assert jobs - {k} - {j} == jobs - {j} - {k};
    }
  }

  lemma JobsLeftUpdate(jobs: map<Id, Job>, m: nat, j: Id, row: Job)
    requires j in jobs
    ensures JobsLeft(jobs[j := row], m) + Weight(jobs[j], m) == JobsLeft(jobs, m) + Weight(row, m)
  {
    JobsLeftSplit(jobs, m, j);
    JobsLeftSplit(jobs[j := row], m, j);
    assert jobs[j := row] - {j} == jobs - {j};
  }

  lemma {:induction false} JobsLeftShrinks(jobs: map<Id, Job>, fewer: map<Id, Job>, m: nat)
    requires fewer.Keys <= jobs.Keys && forall j | j in fewer :: fewer[j] == jobs[j]
    ensures JobsLeft(fewer, m) <= JobsLeft(jobs, m)
    decreases jobs
  {
    if jobs != map[] {
      var j :| j in jobs;
      JobsLeftSplit(jobs, m, j);
      if j in fewer {
        JobsLeftSplit(fewer, m, j);
      }
      JobsLeftShrinks(jobs - {j}, fewer - {j}, m);
      if j !in fewer {
        assert fewer - {j} == fewer;
      }
    }
  }

  function Rank(worker: Worker): nat {
    if worker.Idle? then 0
    else
      match worker.phase
      case Pulling => 8
      case Probing => 7
      case Transcoding => 6
      case Uploading => 5
      case Recording(_) => 4
      case Refusing(_) => 4
      case Closing => 3
      case Failing => 2
      case WritingFailure(_) => 1
  }

  function RanksLeft(workers: seq<Worker>): nat {
    if workers == [] then 0 else Rank(workers[0]) + RanksLeft(workers[1..])
  }

  lemma {:induction false} RanksLeftUpdate(workers: seq<Worker>, w: nat, worker: Worker)
    requires w < |workers|
    ensures RanksLeft(workers[w := worker]) + Rank(workers[w]) == RanksLeft(workers) + Rank(worker)
  {
    if w == 0 {
      assert workers[w := worker][1..] == workers[1..];
    } else {
      RanksLeftUpdate(workers[1..], w - 1, worker);
      assert workers[w := worker][1..] == workers[1..][w - 1 := worker];
    }
  }

  ghost function Measure(cfg: Config, s: System): nat {
    9 * JobsLeft(s.t.jobs, cfg.maxAttempts) + RanksLeft(s.workers)
  }

  // ---- draining -----------------------------------------------------------------

  /** Steps that move work along, as against time, heartbeats, arrivals, drops and edits. */
  predicate Work(step: Step) {
    || step.Take? || step.Pull? || step.Examine? || step.Refuse? || step.Close? || step.Transcode?
    || step.Store? || step.Record? || step.ReadAttempts? || step.WriteFailure?
  }

  /** Attempts remain wherever they are needed, and every running job is in somebody's hands. */
  ghost predicate OnTrack(cfg: Config, s: System) {
    forall j | j in s.t.jobs :: TrackedRow(cfg, s, j)
  }

  ghost predicate TrackedRow(cfg: Config, s: System, j: Id)
    requires j in s.t.jobs
  {
    && s.t.jobs[j].retries <= cfg.maxAttempts
    && (s.t.jobs[j].status == Queued ==> s.t.jobs[j].retries < cfg.maxAttempts)
    && (s.t.jobs[j].status == Running ==> Held(s, j))
  }

  lemma OnTrackStep(cfg: Config, s: System, step: Step)
    requires Sane(cfg) && Inv(cfg, s) && Exclusive(cfg, s) && OnTrack(cfg, s) && Enabled(cfg, s, step) && !step.Drop?
    ensures OnTrack(cfg, Apply(cfg, s, step))
  {
    var s' := Apply(cfg, s, step);
    forall j | j in s'.t.jobs ensures TrackedRow(cfg, s', j) {
      assert Headroom(cfg, s, j, 0) by {
        if j in s.t.jobs { assert TrackedRow(cfg, s, j); }
      }
      HeadroomStep(cfg, s, step, j, 0);
      if s'.t.jobs[j].status == Running {
        RunningStaysHeld(cfg, s, step, j);
      }
    }
  }

  lemma RunningStaysHeld(cfg: Config, s: System, step: Step, j: Id)
    requires Inv(cfg, s) && Exclusive(cfg, s) && OnTrack(cfg, s) && Enabled(cfg, s, step) && !step.Drop?
    requires j in Apply(cfg, s, step).t.jobs && Apply(cfg, s, step).t.jobs[j].status == Running
    ensures Held(Apply(cfg, s, step), j)
  {
    var s' := Apply(cfg, s, step);
    RetriesStep(cfg, s, step, j);
    if step.Take? && step.id == j {
      assert RowOk(cfg, s.t, s.t.jobs[j]);
      assert At(s', step.w) && s'.workers[step.w].claim.job == j;
    } else if j in s.t.jobs {
      OtherStatus(cfg, s, step, j);
      assert TrackedRow(cfg, s, j);
      if !Held(s', j) {
        HolderStays(cfg, s, step, j);
      }
    }
  }

  lemma WorkerMoves(cfg: Config, s: System, w: nat, worker: Worker)
    requires w < |s.workers|
    ensures RanksLeft(Put(s, w, worker).workers) + Rank(s.workers[w]) == RanksLeft(s.workers) + Rank(worker)
  {
    RanksLeftUpdate(s.workers, w, worker);
  }

  /** A claim spends nine and hands out eight. */
  lemma TakeSpends(cfg: Config, s: System, w: nat, j: Id)
    requires Sane(cfg) && Inv(cfg, s) && Exclusive(cfg, s) && OnTrack(cfg, s) && Enabled(cfg, s, Take(w, j))
    ensures Measure(cfg, Apply(cfg, s, Take(w, j))) < Measure(cfg, s)
  {
    var s' := Apply(cfg, s, Take(w, j));
    assert TrackedRow(cfg, s, j) && RowOk(cfg, s.t, s.t.jobs[j]);
    if s.t.jobs[j].status == Running {
      var v: nat :| At(s, v) && s.workers[v].claim.job == j;
      RunnableIsUnheld(cfg, s, j, v);
      assert false;
    }
    JobsLeftUpdate(s.t.jobs, cfg.maxAttempts, j, s'.t.jobs[j]);
    RanksLeftUpdate(s.workers, w, s'.workers[w]);
  }

  lemma RankFalls(cfg: Config, s: System, step: Step, w: nat)
    requires Enabled(cfg, s, step) && Work(step) && !step.Take? && step.w == w
    ensures var s' := Apply(cfg, s, step);
      s'.workers == s.workers[w := s'.workers[w]] && Rank(s'.workers[w]) < Rank(s.workers[w])
  {
  }

  lemma OnlyOwnJob(cfg: Config, s: System, step: Step, w: nat)
    requires Enabled(cfg, s, step) && Work(step) && !step.Take? && step.w == w
    ensures
      var j, s' := s.workers[w].claim.job, Apply(cfg, s, step);
      s'.t.jobs == s.t.jobs || (j in s.t.jobs && j in s'.t.jobs && s'.t.jobs == s.t.jobs[j := s'.t.jobs[j]])
  {
  }

  /** A worker's own step never adds to its job, and always lowers its rank. */
  lemma WorkerSpends(cfg: Config, s: System, step: Step, w: nat)
    requires Sane(cfg) && Inv(cfg, s) && Exclusive(cfg, s) && Enabled(cfg, s, step)
    requires Work(step) && !step.Take? && step.w == w
    ensures Measure(cfg, Apply(cfg, s, step)) < Measure(cfg, s)
  {
    var s', j := Apply(cfg, s, step), s.workers[w].claim.job;
    RankFalls(cfg, s, step, w);
    RanksLeftUpdate(s.workers, w, s'.workers[w]);
    OnlyOwnJob(cfg, s, step, w);
    assert JobsLeft(s'.t.jobs, cfg.maxAttempts) <= JobsLeft(s.t.jobs, cfg.maxAttempts) by {
      if s'.t.jobs != s.t.jobs {
        assert HoldsLease(cfg, s, s.workers[w]);
        HeldWeight(cfg, s, step, w);
        JobsLeftUpdate(s.t.jobs, cfg.maxAttempts, j, s'.t.jobs[j]);
      }
    }
  }

  /** What a worker's step may make of the row it holds. */
  lemma OwnOutcome(cfg: Config, s: System, step: Step, w: nat)
    requires Enabled(cfg, s, step) && Work(step) && !step.Take? && step.w == w
    requires s.workers[w].claim.job in s.t.jobs
    ensures
      var j, s' := s.workers[w].claim.job, Apply(cfg, s, step);
      && j in s'.t.jobs && s'.t.jobs[j].retries == s.t.jobs[j].retries
      && (|| s'.t.jobs[j].status == s.t.jobs[j].status || Terminal(s'.t.jobs[j].status)
          || (s'.t.jobs[j].status == Queued && step.WriteFailure? && s.workers[w].phase.attempts < cfg.maxAttempts))
  {
  }

  lemma HeldWeight(cfg: Config, s: System, step: Step, w: nat)
    requires Enabled(cfg, s, step) && Work(step) && !step.Take? && step.w == w && HoldsLease(cfg, s, s.workers[w])
    requires s.workers[w].claim.job in s.t.jobs
    ensures
      var j, s' := s.workers[w].claim.job, Apply(cfg, s, step);
      j in s'.t.jobs && Weight(s'.t.jobs[j], cfg.maxAttempts) <= Weight(s.t.jobs[j], cfg.maxAttempts)
  {
    OwnOutcome(cfg, s, step, w);
  }

  lemma WorkSpends(cfg: Config, s: System, step: Step)
    requires Sane(cfg) && Inv(cfg, s) && Exclusive(cfg, s) && OnTrack(cfg, s) && Enabled(cfg, s, step) && Work(step)
    ensures Measure(cfg, Apply(cfg, s, step)) < Measure(cfg, s)
  {
    if step.Take? {
      TakeSpends(cfg, s, step.w, step.id);
    } else {
      WorkerSpends(cfg, s, step, step.w);
    }
  }

  lemma OthersDoNotAdd(cfg: Config, s: System, step: Step)
    requires Enabled(cfg, s, step) && !Work(step) && !step.Drop? && !step.Enqueue?
    ensures Measure(cfg, Apply(cfg, s, step)) <= Measure(cfg, s)
  {
    match step {
      case Purge(a) => JobsLeftShrinks(s.t.jobs, Purged(s.t, a).jobs, cfg.maxAttempts);
      case Repoint(id, key) => EditedRow(cfg, s, id, Repointed(s.t, id, key));
      case StrayBeat(id) => EditedRow(cfg, s, id, Beaten(s.t, id, s.now));
      case HeartBeat(w) =>
        EditedRow(cfg, s, s.workers[w].claim.job, Beaten(s.t, s.workers[w].claim.job, s.now));
        WorkerMoves(cfg, s, w, s.workers[w].(beat := s.now));
      case _ =>
    }
  }

  lemma EditedRow(cfg: Config, s: System, id: Id, t: Tables)
    requires t == s.t || (id in s.t.jobs && id in t.jobs && t.jobs == s.t.jobs[id := t.jobs[id]])
    requires t != s.t ==> t.jobs[id].status == s.t.jobs[id].status && t.jobs[id].retries == s.t.jobs[id].retries
    ensures JobsLeft(t.jobs, cfg.maxAttempts) == JobsLeft(s.t.jobs, cfg.maxAttempts)
  {
    if t != s.t {
      JobsLeftUpdate(s.t.jobs, cfg.maxAttempts, id, t.jobs[id]);
    }
  }

  function WorkDone(steps: seq<Step>): nat {
    if steps == [] then 0
    else WorkDone(steps[..|steps| - 1]) + (if Work(steps[|steps| - 1]) then 1 else 0)
  }

  predicate Undisturbed(steps: seq<Step>) {
    forall n | 0 <= n < |steps| :: !steps[n].Drop? && !steps[n].Enqueue?
  }

  /** The states from which draining is promised: sound, exclusive, nothing running unattended. */
  ghost predicate Settling(cfg: Config, s: System) {
    Inv(cfg, s) && Exclusive(cfg, s) && OnTrack(cfg, s)
  }

  /** The queue drains: without arrivals and crashes, no schedule does more work than the measure it starts from. */
  lemma {:induction false} WorkIsBounded(cfg: Config, s: System, steps: seq<Step>)
    requires Sane(cfg) && Settling(cfg, s) && Legal(cfg, s, steps) && LeaseRun(cfg, s, steps) && Undisturbed(steps)
    ensures Settling(cfg, After(cfg, s, steps))
    ensures WorkDone(steps) + Measure(cfg, After(cfg, s, steps)) <= Measure(cfg, s)
  {
    if steps != [] {
      var before, last := steps[..|steps| - 1], steps[|steps| - 1];
      PrefixIsLeaseRun(cfg, s, steps);
      WorkIsBounded(cfg, s, before);
      var mid := After(cfg, s, before);
      StepKeepsInv(cfg, mid, last);
      StepKeepsExclusion(cfg, mid, last);
      OnTrackStep(cfg, mid, last);
      if Work(last) {
        WorkSpends(cfg, mid, last);
      } else {
        OthersDoNotAdd(cfg, mid, last);
      }
    }
  }

  /** A busy worker always has its next step. */
  lemma BusyMeansWork(cfg: Config, s: System, w: nat) returns (step: Step)
    requires At(s, w)
    ensures Work(step) && Enabled(cfg, s, step)
  {
    step := match s.workers[w].phase
      case Pulling => Pull(w, true)
      case Probing => Examine(w, None)
      case Refusing(_) => Refuse(w, true)
      case Closing => Close(w, true)
      case Transcoding => Transcode(w, true)
      case Uploading => Store(w, false, RenditionRecord("", None, None, None, None))
      case Recording(_) => Record(w, true)
      case Failing => ReadAttempts(w)
      case WritingFailure(_) => WriteFailure(w);
  }

  /** And it never stops early: while any job is unfinished, some worker has work it can do now. */
  lemma UnfinishedMeansWork(cfg: Config, s: System, j: Id) returns (step: Step)
    requires Sane(cfg) && Settling(cfg, s) && |s.workers| > 0
    requires j in s.t.jobs && !Terminal(s.t.jobs[j].status)
    ensures Work(step) && Enabled(cfg, s, step)
  {
    assert TrackedRow(cfg, s, j);
    if w: nat :| At(s, w) {
      step := BusyMeansWork(cfg, s, w);
    } else {
      assert !Held(s, j);
      assert !At(s, 0);
      step := Take(0, j);
    }
  }

  /** Every crash-free history reaches only such states, so the bound applies wherever arrivals stop. */
  lemma {:induction false} CrashFreeIsSettling(cfg: Config, s: System, steps: seq<Step>)
    requires Sane(cfg) && Init(s) && Legal(cfg, s, steps) && LeaseRun(cfg, s, steps)
    requires forall n | 0 <= n < |steps| :: !steps[n].Drop?
    ensures Settling(cfg, After(cfg, s, steps))
  {
    RunKeepsInv(cfg, s, steps);
    RunKeepsExclusion(cfg, s, steps);
    if steps != [] {
      var before := steps[..|steps| - 1];
      PrefixIsLeaseRun(cfg, s, steps);
      CrashFreeIsSettling(cfg, s, before);
      OnTrackStep(cfg, After(cfg, s, before), steps[|steps| - 1]);
    }
  }

  /** No worker has anything it could do now. */
  ghost predicate Stuck(cfg: Config, s: System) {
    forall step | Work(step) :: !Enabled(cfg, s, step)
  }

  lemma {:induction false} SameWorkers(cfg: Config, s: System, steps: seq<Step>)
    requires Legal(cfg, s, steps)
    ensures |After(cfg, s, steps).workers| == |s.workers|
  {
    if steps != [] {
      SameWorkers(cfg, s, steps[..|steps| - 1]);
    }
  }

  /** From a state in which no running job is unattended, whatever the schedule: once no worker has anything it could do
      now, every job is finished, after no more work than the measure it started from. */
  lemma AttendedQueueDrains(cfg: Config, s: System, steps: seq<Step>)
    requires Sane(cfg) && Settling(cfg, s) && |s.workers| > 0
    requires Legal(cfg, s, steps) && LeaseRun(cfg, s, steps) && Undisturbed(steps)
    requires Stuck(cfg, After(cfg, s, steps))
    ensures forall j | j in After(cfg, s, steps).t.jobs :: Terminal(After(cfg, s, steps).t.jobs[j].status)
    ensures WorkDone(steps) <= Measure(cfg, s)
  {
    var end := After(cfg, s, steps);
    WorkIsBounded(cfg, s, steps);
    SameWorkers(cfg, s, steps);
    forall j | j in end.t.jobs ensures Terminal(end.t.jobs[j].status) {
      if !Terminal(end.t.jobs[j].status) {
        var step := UnfinishedMeansWork(cfg, end, j);
        assert false;
      }
    }
  }
}
