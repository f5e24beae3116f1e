/** Draining after crashes: jobs left running by nobody are claimed again once their leases run out. */
module WorkerRecovery {
  import opened Collections
  import opened Contract
  import opened Records
  import opened JobQueue
  import opened Workers
  import opened WorkerSafety
  import opened WorkerLease
  import opened WorkerDrain

  // ---- the states crashes leave -----------------------------------------------

  /** Running, and in nobody's hands: its worker dropped it. */
  ghost function Abandoned(s: System): set<Id> {
    set j | j in s.t.jobs && s.t.jobs[j].status == Running && !Held(s, j)
  }

  predicate HasAttempt(cfg: Config, row: Job) {
    row.status == Queued ==> row.retries < cfg.maxAttempts
  }

  /** What is asked of a state for it to drain: sound, exclusive, and an attempt left in every queued job. */
  ghost predicate Recoverable(cfg: Config, s: System) {
    Inv(cfg, s) && Exclusive(cfg, s) && forall j | j in s.t.jobs :: HasAttempt(cfg, s.t.jobs[j])
  }

  lemma AttemptStays(cfg: Config, s: System, step: Step, j: Id)
    requires Sane(cfg) && Recoverable(cfg, s) && Enabled(cfg, s, step) && j in Apply(cfg, s, step).t.jobs
    ensures HasAttempt(cfg, Apply(cfg, s, step).t.jobs[j])
  {
    var drops := if j in s.t.jobs then s.t.jobs[j].retries + 1 else 0;
    assert j in s.t.jobs ==> HasAttempt(cfg, s.t.jobs[j]);
    HeadroomStep(cfg, s, step, j, drops);
  }

  lemma RecoverableStep(cfg: Config, s: System, step: Step)
    requires Sane(cfg) && Recoverable(cfg, s) && Enabled(cfg, s, step) && LeaseKept(cfg, s, step)
    ensures Recoverable(cfg, Apply(cfg, s, step))
  {
    var s' := Apply(cfg, s, step);
    StepKeepsInv(cfg, s, step);
    StepKeepsExclusion(cfg, s, step);
    forall j | j in s'.t.jobs ensures HasAttempt(cfg, s'.t.jobs[j]) {
      AttemptStays(cfg, s, step, j);
    }
  }

  /** Every history that keeps its leases, crashes and arrivals included, reaches only such states. */
  lemma {:induction false} EveryHistoryIsRecoverable(cfg: Config, s: System, steps: seq<Step>)
    requires Sane(cfg) && Init(s) && Legal(cfg, s, steps) && LeaseRun(cfg, s, steps)
    ensures Recoverable(cfg, After(cfg, s, steps))
  {
    RunKeepsInv(cfg, s, steps);
    RunKeepsExclusion(cfg, s, steps);
    if steps != [] {
      PrefixIsLeaseRun(cfg, s, steps);
      EveryHistoryIsRecoverable(cfg, s, steps[..|steps| - 1]);
      RecoverableStep(cfg, After(cfg, s, steps[..|steps| - 1]), steps[|steps| - 1]);
    }
  }

  // ---- the measure --------------------------------------------------------------

  /** The work left, and one claim more for each abandoned job. */
  ghost function Potential(cfg: Config, s: System): nat {
    Measure(cfg, s) + 9 * |Abandoned(s)|
  }

  lemma TakenIsHeld(cfg: Config, s: System, w: nat, j: Id)
    requires Inv(cfg, s) && Enabled(cfg, s, Take(w, j))
    ensures Held(Apply(cfg, s, Take(w, j)), j)
  {
    var s' := Apply(cfg, s, Take(w, j));
    assert RowOk(cfg, s.t, s.t.jobs[j]);
    assert At(s', w) && s'.workers[w].claim.job == j;
  }

  /** Only a crash abandons a job, and a claim takes it up again. */
  lemma OnlyCrashesAbandon(cfg: Config, s: System, step: Step, j: Id)
    requires Inv(cfg, s) && Exclusive(cfg, s) && Enabled(cfg, s, step) && !step.Drop?
    requires j in Abandoned(Apply(cfg, s, step))
    ensures j in Abandoned(s) && !(step.Take? && step.id == j)
  {
    var s' := Apply(cfg, s, step);
    RetriesStep(cfg, s, step, j);
    if step.Take? && step.id == j {
      TakenIsHeld(cfg, s, step.w, j);
    } else {
      OtherStatus(cfg, s, step, j);
      if Held(s, j) {
        HolderStays(cfg, s, step, j);
        assert false;
      }
    }
  }

  lemma FewerAbandoned(cfg: Config, s: System, step: Step)
    requires Inv(cfg, s) && Exclusive(cfg, s) && Enabled(cfg, s, step) && !step.Drop?
    ensures |Abandoned(Apply(cfg, s, step))| <= |Abandoned(s)|
    ensures step.Take? && step.id in Abandoned(s) ==> |Abandoned(Apply(cfg, s, step))| < |Abandoned(s)|
  {
    var after, before := Abandoned(Apply(cfg, s, step)), Abandoned(s);
    forall j | j in after ensures j in before && !(step.Take? && step.id == j) {
      OnlyCrashesAbandon(cfg, s, step, j);
    }
    SubsetSize(after, before);
    if step.Take? && step.id in before {
      SubsetSize(after, before - {step.id});
    }
  }

  /** A claim hands out eight: a queued job pays with an attempt, an abandoned one by no longer being abandoned. */
  lemma TakeSpendsPotential(cfg: Config, s: System, w: nat, j: Id)
    requires Sane(cfg) && Recoverable(cfg, s) && Enabled(cfg, s, Take(w, j))
    ensures Potential(cfg, Apply(cfg, s, Take(w, j))) < Potential(cfg, s)
  {
    var s' := Apply(cfg, s, Take(w, j));
    assert RowOk(cfg, s.t, s.t.jobs[j]) && HasAttempt(cfg, s.t.jobs[j]);
    FewerAbandoned(cfg, s, Take(w, j));
    if s.t.jobs[j].status == Running {
      forall v: nat | At(s, v) ensures s.workers[v].claim.job != j {
        RunnableIsUnheld(cfg, s, j, v);
      }
      assert j in Abandoned(s);
    }
    JobsLeftUpdate(s.t.jobs, cfg.maxAttempts, j, s'.t.jobs[j]);
    RanksLeftUpdate(s.workers, w, s'.workers[w]);
  }

  lemma WorkSpendsPotential(cfg: Config, s: System, step: Step)
    requires Sane(cfg) && Recoverable(cfg, s) && Enabled(cfg, s, step) && Work(step)
    ensures Potential(cfg, Apply(cfg, s, step)) < Potential(cfg, s)
  {
    if step.Take? {
      TakeSpendsPotential(cfg, s, step.w, step.id);
    } else {
      WorkerSpends(cfg, s, step, step.w);
      FewerAbandoned(cfg, s, step);
    }
  }

  /** From any state crashes leave, no schedule without further crashes and arrivals does more work than the
      potential. */
  lemma {:induction false} RecoveryIsBounded(cfg: Config, s: System, steps: seq<Step>)
    requires Sane(cfg) && Recoverable(cfg, s) && Legal(cfg, s, steps) && LeaseRun(cfg, s, steps) && Undisturbed(steps)
    ensures Recoverable(cfg, After(cfg, s, steps))
    ensures WorkDone(steps) + Potential(cfg, After(cfg, s, steps)) <= Potential(cfg, s)
  {
    if steps != [] {
      var before, last := steps[..|steps| - 1], steps[|steps| - 1];
      PrefixIsLeaseRun(cfg, s, steps);
      RecoveryIsBounded(cfg, s, before);
      var mid := After(cfg, s, before);
      RecoverableStep(cfg, mid, last);
      if Work(last) {
        WorkSpendsPotential(cfg, mid, last);
      } else {
        OthersDoNotAdd(cfg, mid, last);
        FewerAbandoned(cfg, mid, last);
      }
    }
  }

  // ---- draining -----------------------------------------------------------------

  /** No worker has anything to do now, nor after any wait the lease assumption allows. */
  ghost predicate StuckForGood(cfg: Config, s: System) {
    forall d: nat | LeaseKept(cfg, s, Tick(d)) :: Stuck(cfg, Apply(cfg, s, Tick(d)))
  }

  lemma StuckMeansIdle(cfg: Config, s: System, w: nat)
    requires Exclusive(cfg, s) && StuckForGood(cfg, s)
    ensures !At(s, w)
  {
    if At(s, w) {
      forall v: nat | At(s, v) ensures s.now - s.workers[v].beat <= cfg.leaseTtl {
        assert HoldsLease(cfg, s, s.workers[v]);
      }
      assert LeaseKept(cfg, s, Tick(0)) && Stuck(cfg, Apply(cfg, s, Tick(0)));
      var step := BusyMeansWork(cfg, Apply(cfg, s, Tick(0)), w);
      assert false;
    }
  }

  lemma StuckMeansFinished(cfg: Config, s: System, j: Id)
    requires Sane(cfg) && Recoverable(cfg, s) && |s.workers| > 0 && StuckForGood(cfg, s) && j in s.t.jobs
    ensures Terminal(s.t.jobs[j].status)
  {
    forall w: nat ensures !At(s, w) {
      StuckMeansIdle(cfg, s, w);
    }
    assert RowOk(cfg, s.t, s.t.jobs[j]);
    if !Terminal(s.t.jobs[j].status) {
      var silent := if s.t.jobs[j].heartbeat.Some? then s.t.jobs[j].heartbeat.value + cfg.leaseTtl + 1 - s.now else 0;
      var d: nat := if silent > 0 then silent else 0;
      assert LeaseKept(cfg, s, Tick(d)) && !At(s, 0);
      assert Work(Take(0, j)) && Enabled(cfg, Apply(cfg, s, Tick(d)), Take(0, j));
      assert false;
    }
  }

  /** The queue drains: whatever the schedule, once arrivals and crashes have stopped, a run after which no worker has
      anything to do, now or after any wait, has finished every job, those that crashes left behind included, and took
      no more work steps than the potential it started from. */
  lemma QueueDrains(cfg: Config, s: System, steps: seq<Step>)
    requires Sane(cfg) && Recoverable(cfg, s) && |s.workers| > 0
    requires Legal(cfg, s, steps) && LeaseRun(cfg, s, steps) && Undisturbed(steps)
    requires StuckForGood(cfg, After(cfg, s, steps))
    ensures forall j | j in After(cfg, s, steps).t.jobs :: Terminal(After(cfg, s, steps).t.jobs[j].status)
    ensures WorkDone(steps) <= Potential(cfg, s)
  {
    RecoveryIsBounded(cfg, s, steps);
    SameWorkers(cfg, s, steps);
    forall j | j in After(cfg, s, steps).t.jobs ensures Terminal(After(cfg, s, steps).t.jobs[j].status) {
      StuckMeansFinished(cfg, After(cfg, s, steps), j);
    }
  }

  /** So it is after any history at all: whatever crashed before, the rest of the run finishes every job. */
  lemma QueueDrainsAfterAnyHistory(cfg: Config, s: System, history: seq<Step>, rest: seq<Step>)
    requires Sane(cfg) && Init(s) && |s.workers| > 0
    requires Legal(cfg, s, history) && LeaseRun(cfg, s, history)
    requires Legal(cfg, After(cfg, s, history), rest) && LeaseRun(cfg, After(cfg, s, history), rest)
    requires Undisturbed(rest)
    requires StuckForGood(cfg, After(cfg, After(cfg, s, history), rest))
    ensures
      var end := After(cfg, After(cfg, s, history), rest);
      forall j | j in end.t.jobs :: Terminal(end.t.jobs[j].status)
    ensures WorkDone(rest) <= Potential(cfg, After(cfg, s, history))
  {
    EveryHistoryIsRecoverable(cfg, s, history);
    SameWorkers(cfg, s, history);
    QueueDrains(cfg, After(cfg, s, history), rest);
  }
}
