/** The lease argument: workers that renew in time exclude each other, and the queue drains. */
module WorkerLease {
  import opened Contract
  import opened Records
  import opened JobQueue
  import opened Workers
  import opened WorkerSafety
  import Keys

  // ---- the assumption -------------------------------------------------------

  /** Time passes only while every working worker's last lease write is recent enough. Heartbeats cover the
      transcode alone, so this also bounds the phases around it. */
  ghost predicate LeaseKept(cfg: Config, s: System, step: Step) {
    step.Tick? ==> forall w: nat | At(s, w) :: s.now + step.d - s.workers[w].beat <= cfg.leaseTtl
  }

  ghost predicate LeaseRun(cfg: Config, s: System, steps: seq<Step>)
    requires Legal(cfg, s, steps)
  {
    forall n | 0 <= n < |steps| :: LegalPrefix(cfg, s, steps, n) && LeaseKept(cfg, After(cfg, s, steps[..n]), steps[n])
  }

  ghost predicate LegalPrefix(cfg: Config, s: System, steps: seq<Step>, n: nat)
    requires n <= |steps|
  {
    Legal(cfg, s, steps[..n])
  }

  // ---- exclusion --------------------------------------------------------------

  /** The row of a job some worker holds: running, its lease no older than that worker's last write, attempts as
      read. */
  predicate HoldsLease(cfg: Config, s: System, worker: Worker) {
    worker.Busy? ==>
      && worker.beat <= s.now && s.now - worker.beat <= cfg.leaseTtl
      && (worker.claim.job in s.t.jobs ==>
            var row := s.t.jobs[worker.claim.job];
            && row.status == Running && row.heartbeat.Some? && worker.beat <= row.heartbeat.value
            && (worker.phase.WritingFailure? ==> worker.phase.attempts == row.retries))
  }

  /** No two workers work on one job, and each holds its lease. */
  ghost predicate Exclusive(cfg: Config, s: System) {
    && (forall w | 0 <= w < |s.workers| :: HoldsLease(cfg, s, s.workers[w]))
    && (forall v: nat, w: nat | At(s, v) && At(s, w) && s.workers[v].claim.job == s.workers[w].claim.job :: v == w)
  }

  lemma RunnableIsUnheld(cfg: Config, s: System, id: Id, w: nat)
    requires Exclusive(cfg, s) && id in s.t.jobs && Runnable(s.t.jobs[id], s.now - cfg.leaseTtl) && At(s, w)
    ensures s.workers[w].claim.job != id
  {
    assert HoldsLease(cfg, s, s.workers[w]);
  }

  /** A step leaves a held job's row alone unless its holder takes it, or a heartbeat renews it. */
  lemma HeldRowUntouched(cfg: Config, s: System, step: Step, w: nat)
    requires Inv(cfg, s) && Exclusive(cfg, s) && Enabled(cfg, s, step) && At(s, w)
    requires s.workers[w] == Apply(cfg, s, step).workers[w]
    requires s.workers[w].claim.job in Apply(cfg, s, step).t.jobs
    ensures
      var j, s' := s.workers[w].claim.job, Apply(cfg, s, step);
      && j in s.t.jobs
      && s'.t.jobs[j].status == s.t.jobs[j].status && s'.t.jobs[j].retries == s.t.jobs[j].retries
      && (s.t.jobs[j].heartbeat.Some? ==>
            s'.t.jobs[j].heartbeat == s.t.jobs[j].heartbeat || s'.t.jobs[j].heartbeat == Some(s.now))
  {
    assert HoldsLease(cfg, s, s.workers[w]);
    assert WorkerOk(s.t, s.issued, s.objects, s.workers[w]);
    if step.Take? {
      RunnableIsUnheld(cfg, s, step.id, w);
    }
  }

  lemma BystanderKeepsLease(cfg: Config, s: System, step: Step, w: nat)
    requires Inv(cfg, s) && Exclusive(cfg, s) && Enabled(cfg, s, step) && LeaseKept(cfg, s, step)
    requires At(s, w) && Apply(cfg, s, step).workers[w] == s.workers[w]
    ensures HoldsLease(cfg, Apply(cfg, s, step), s.workers[w])
  {
    var s' := Apply(cfg, s, step);
    assert HoldsLease(cfg, s, s.workers[w]);
    assert s'.now == s.now || step.Tick?;
    if s.workers[w].claim.job in s'.t.jobs {
      HeldRowUntouched(cfg, s, step, w);
    }
  }

  lemma ActorKeepsLease(cfg: Config, s: System, step: Step, w: nat)
    requires Sane(cfg) && Inv(cfg, s) && Exclusive(cfg, s) && Enabled(cfg, s, step)
    requires w < |s.workers| && Apply(cfg, s, step).workers[w] != s.workers[w]
    ensures HoldsLease(cfg, Apply(cfg, s, step), Apply(cfg, s, step).workers[w])
  {
    assert HoldsLease(cfg, s, s.workers[w]);
  }

  lemma StepKeepsExclusion(cfg: Config, s: System, step: Step)
    requires Sane(cfg) && Inv(cfg, s) && Exclusive(cfg, s) && Enabled(cfg, s, step) && LeaseKept(cfg, s, step)
    ensures Exclusive(cfg, Apply(cfg, s, step))
  {
    var s' := Apply(cfg, s, step);
    forall w | 0 <= w < |s'.workers| ensures HoldsLease(cfg, s', s'.workers[w]) {
      if s'.workers[w] != s.workers[w] {
        ActorKeepsLease(cfg, s, step, w);
      } else if At(s, w) {
        BystanderKeepsLease(cfg, s, step, w);
      }
    }
    forall v: nat, w: nat | At(s', v) && At(s', w) && s'.workers[v].claim.job == s'.workers[w].claim.job
      ensures v == w
    {
      OneHolder(cfg, s, step, v, w);
    }
  }

  /** Only a claim makes a worker busy, and it never takes a job somebody holds. */
  lemma BusyBefore(cfg: Config, s: System, step: Step, w: nat)
    requires Enabled(cfg, s, step) && At(Apply(cfg, s, step), w)
    ensures
      if step.Take? && step.w == w then Apply(cfg, s, step).workers[w].claim.job == step.id
      else At(s, w) && s.workers[w].claim.job == Apply(cfg, s, step).workers[w].claim.job
  {
  }

  lemma OneHolder(cfg: Config, s: System, step: Step, v: nat, w: nat)
    requires Exclusive(cfg, s) && Enabled(cfg, s, step)
    requires At(Apply(cfg, s, step), v) && At(Apply(cfg, s, step), w)
    requires Apply(cfg, s, step).workers[v].claim.job == Apply(cfg, s, step).workers[w].claim.job
    ensures v == w
  {
    BusyBefore(cfg, s, step, v);
    BusyBefore(cfg, s, step, w);
    if step.Take? && v != w {
      if step.w == v {
        RunnableIsUnheld(cfg, s, step.id, w);
      } else if step.w == w {
        RunnableIsUnheld(cfg, s, step.id, v);
      }
    }
  }

  lemma {:induction false} RunKeepsExclusion(cfg: Config, s: System, steps: seq<Step>)
    requires Sane(cfg) && Init(s) && Legal(cfg, s, steps) && LeaseRun(cfg, s, steps)
    ensures Exclusive(cfg, After(cfg, s, steps))
  {
    if steps != [] {
      var before, last := steps[..|steps| - 1], steps[|steps| - 1];
      PrefixIsLeaseRun(cfg, s, steps);
      RunKeepsExclusion(cfg, s, before);
      RunKeepsInv(cfg, s, before);
      StepKeepsExclusion(cfg, After(cfg, s, before), last);
    }
  }

  lemma PrefixIsLeaseRun(cfg: Config, s: System, steps: seq<Step>)
    requires steps != [] && Legal(cfg, s, steps) && LeaseRun(cfg, s, steps)
    ensures Legal(cfg, s, steps[..|steps| - 1]) && LeaseRun(cfg, s, steps[..|steps| - 1])
    ensures LeaseKept(cfg, After(cfg, s, steps[..|steps| - 1]), steps[|steps| - 1])
  {
    var before := steps[..|steps| - 1];
    assert LegalPrefix(cfg, s, steps, |steps| - 1);
    forall n | 0 <= n < |before|
      ensures LegalPrefix(cfg, s, before, n) && LeaseKept(cfg, After(cfg, s, before[..n]), before[n])
    {
      assert LegalPrefix(cfg, s, steps, n) && LeaseKept(cfg, After(cfg, s, steps[..n]), steps[n]);
      assert before[..n] == steps[..n];
    }
  }

  /** Lease exclusion over whole runs: whatever crashes and re-claims happen, no job has two workers. */
  lemma LeaseExcludes(cfg: Config, s: System, steps: seq<Step>, v: nat, w: nat)
    requires Sane(cfg) && Init(s) && Legal(cfg, s, steps) && LeaseRun(cfg, s, steps)
    requires At(After(cfg, s, steps), v) && At(After(cfg, s, steps), w) && v != w
    ensures After(cfg, s, steps).workers[v].claim.job != After(cfg, s, steps).workers[w].claim.job
  {
    RunKeepsExclusion(cfg, s, steps);
  }

  /** Succeeded and failed are final: one more step never moves a job out of either. */
  lemma FinishedStaysFinished(cfg: Config, s: System, steps: seq<Step>, last: Step, j: Id)
    requires Sane(cfg) && Init(s) && Legal(cfg, s, steps) && LeaseRun(cfg, s, steps)
    requires Enabled(cfg, After(cfg, s, steps), last)
    requires j in After(cfg, s, steps).t.jobs && Terminal(After(cfg, s, steps).t.jobs[j].status)
    requires j in Apply(cfg, After(cfg, s, steps), last).t.jobs
    ensures Apply(cfg, After(cfg, s, steps), last).t.jobs[j].status == After(cfg, s, steps).t.jobs[j].status
  {
    RunKeepsExclusion(cfg, s, steps);
    RunKeepsInv(cfg, s, steps);
    FinishedJobDisturbedIff(cfg, After(cfg, s, steps), last, j);
    var s' := After(cfg, s, steps);
    if last.Close? || last.WriteFailure? {
      assert HoldsLease(cfg, s', s'.workers[last.w]);
    }
  }

  // ---- the assumption is needed -----------------------------------------------------

  const DEMO := Config(1, 3, 720.0)
  const DEMO_ASSET := Asset("acct", Video, "vault/acct/a", 1, None, None, "", false, None, 0, None)
  const DEMO_CLAIM := Claim("job", "a", Detail, "vault/acct/a", Derive, None)

  function DemoRow(status: JobStatus, retries: nat, heartbeat: Option<int>): Job {
    FreshJob("acct", "a", Detail, Derive, None, 0).(status := status, retries := retries, heartbeat := heartbeat)
  }

  function DemoStart(): System {
    System(0, Tables(map["a" := DEMO_ASSET], map[], map[]), {}, {}, [Idle, Idle])
  }

  function DemoState(now: int, row: Job, first: Worker, second: Worker): System {
    System(now, Tables(map["a" := DEMO_ASSET], map["job" := row], map[]), {"job"}, {}, [first, second])
  }

  /** The two claimants' run: one fails early and reads its attempts, then oversleeps; the other finishes the job. */
  function DemoTrace(n: nat): (System, Step)
    requires n <= 11
  {
    var late := Busy(DEMO_CLAIM, WritingFailure(1), 0);
    var r1, r2 := DemoRow(Running, 1, Some(0)), DemoRow(Running, 2, Some(2));
    match n
    case 0 => (DemoStart(), Enqueue("job", DemoRow(Queued, 0, None)))
    case 1 => (DemoState(0, DemoRow(Queued, 0, None), Idle, Idle), Take(0, "job"))
    case 2 => (DemoState(0, r1, Busy(DEMO_CLAIM, Pulling, 0), Idle), Pull(0, false))
    case 3 => (DemoState(0, r1, Busy(DEMO_CLAIM, Failing, 0), Idle), ReadAttempts(0))
    case 4 => (DemoState(0, r1, late, Idle), Tick(2))
    case 5 => (DemoState(2, r1, late, Idle), Take(1, "job"))
    case 6 => (DemoState(2, r2, late, Busy(DEMO_CLAIM, Pulling, 2)), Pull(1, true))
    case 7 => (DemoState(2, r2, late, Busy(DEMO_CLAIM, Probing, 2)), Examine(1, Some(Probe(1, 1, 1.0, 1, "h264", ""))))
    case 8 => (DemoState(2, r2, late, Busy(DEMO_CLAIM, Transcoding, 2)), Transcode(1, true))
    case 9 => (DemoState(2, r2, late, Busy(DEMO_CLAIM, Uploading, 2)), Store(1, true, DEMO_RECORD))
    case 10 => (DemoUploaded(), Record(1, true))
    case _ => (DemoRecorded(), WriteFailure(0))
  }

  const DEMO_RECORD := RenditionRecord("", None, None, None, None)

  function DemoUploaded(): System {
    var record := DEMO_RECORD.(key := Keys.RenditionKey("vault/acct/a", "detail"));
    DemoState(2, DemoRow(Running, 2, Some(2)), Busy(DEMO_CLAIM, WritingFailure(1), 0),
              Busy(DEMO_CLAIM, Recording(record), 2))
      .(objects := {record.key})
  }

  function DemoRecorded(): System {
    var record := DEMO_RECORD.(key := Keys.RenditionKey("vault/acct/a", "detail"));
    var s := DemoState(2, DemoRow(Succeeded, 2, Some(2)), Busy(DEMO_CLAIM, WritingFailure(1), 0), Idle);
    s.(objects := {record.key}, t := s.t.(renditions := map[("a", Detail) := Rendition(Ready, None, Some(record))]))
  }

  lemma DemoOpening(n: nat)
    requires n < 6
    ensures Enabled(DEMO, DemoTrace(n).0, DemoTrace(n).1)
    ensures Apply(DEMO, DemoTrace(n).0, DemoTrace(n).1) == DemoTrace(n + 1).0
  {
  }

  lemma DemoMiddle(n: nat)
    requires 6 <= n < 9
    ensures Enabled(DEMO, DemoTrace(n).0, DemoTrace(n).1)
    ensures Apply(DEMO, DemoTrace(n).0, DemoTrace(n).1) == DemoTrace(n + 1).0
  {
  }

  lemma DemoClosing(n: nat)
    requires 9 <= n < 11
    ensures Enabled(DEMO, DemoTrace(n).0, DemoTrace(n).1)
    ensures Apply(DEMO, DemoTrace(n).0, DemoTrace(n).1) == DemoTrace(n + 1).0
  {
  }

  lemma {:induction false} DemoRun(n: nat) returns (steps: seq<Step>)
    requires n <= 11
    ensures Legal(DEMO, DemoStart(), steps) && After(DEMO, DemoStart(), steps) == DemoTrace(n).0
  {
    if n == 0 {
      steps := [];
    } else {
      steps := DemoRun(n - 1);
      if n - 1 < 6 {
        DemoOpening(n - 1);
      } else if n - 1 < 9 {
        DemoMiddle(n - 1);
      } else {
        DemoClosing(n - 1);
      }
      steps := Extend(DEMO, DemoStart(), steps, DemoTrace(n - 1).1);
    }
  }

  /** Without the assumption a stale worker undoes a success: the first claimant loses its lease, the second
      completes the job, and the first one's late failure puts it back in the queue. */
  lemma StaleWorkerRequeues() returns (steps: seq<Step>, last: Step)
    ensures Sane(DEMO) && Init(DemoStart()) && Legal(DEMO, DemoStart(), steps)
    ensures
      var before := After(DEMO, DemoStart(), steps);
      && "job" in before.t.jobs && before.t.jobs["job"].status == Succeeded
      && Enabled(DEMO, before, last)
      && "job" in Apply(DEMO, before, last).t.jobs && Apply(DEMO, before, last).t.jobs["job"].status == Queued
  {
    steps := DemoRun(11);
    last := WriteFailure(0);
    assert After(DEMO, DemoStart(), steps) == DemoRecorded();
  }

  lemma Extend(cfg: Config, s: System, steps: seq<Step>, step: Step) returns (longer: seq<Step>)
    requires Legal(cfg, s, steps) && Enabled(cfg, After(cfg, s, steps), step)
    ensures longer == steps + [step] && Legal(cfg, s, longer)
    ensures After(cfg, s, longer) == Apply(cfg, After(cfg, s, steps), step)
  {
    longer := steps + [step];
    assert longer[..|longer| - 1] == steps;
  }
}
