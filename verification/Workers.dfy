/** N workers over one queue: every statement is a step, and any steps may interleave. */
module Workers {
  import opened Contract
  import opened Records
  import opened JobQueue
  import Keys

  // ---- what a probe can say -----------------------------------------------

  datatype Probe = Probe(width: int, height: int, durationS: real, bitrate: int, codec: string, audioCodec: string)

  const MAX_WIDTH := 1920
  const MAX_HEIGHT := 1080
  const LOOP_MAX_EDGE := 1920
  const LOOP_MAX_DURATION := 30.0
  const DETAIL_MAX_BPS := 8_000_000
  const LOOP_MAX_BPS := 2_000_000
  const MAX_BYTES := 2 * 1024 * 1024 * 1024

  function EstimatedBytes(p: Probe): int {
    (p.bitrate as real / 8.0 * p.durationS).Floor
  }

  /** The first authored limit a file breaks, in the order they are checked. */
  function AuthoredBreach(intent: Intent, p: Probe): Option<ReasonCode> {
    if p.bitrate > 0 && p.durationS > 0.0 && EstimatedBytes(p) > MAX_BYTES then Some(AuthoredTooLarge)
    else
      match intent
      case Detail =>
        if p.codec != "h264" then Some(AuthoredCodecUnsupported)
        else if p.audioCodec != "" && p.audioCodec != "aac" then Some(AuthoredCodecUnsupported)
        else if p.width > MAX_WIDTH || p.height > MAX_HEIGHT then Some(AuthoredResolutionExceeded)
        else if p.bitrate > DETAIL_MAX_BPS then Some(AuthoredBitrateExceeded)
        else None
      case Loop =>
        if p.codec != "h264" then Some(AuthoredCodecUnsupported)
        else if (if p.width > p.height then p.width else p.height) > LOOP_MAX_EDGE then Some(AuthoredResolutionExceeded)
        else if p.durationS > LOOP_MAX_DURATION then Some(AuthoredLoopTooLong)
        else if p.bitrate > LOOP_MAX_BPS then Some(AuthoredBitrateExceeded)
        else None
      case Poster =>
        if p.width > MAX_WIDTH || p.height > MAX_HEIGHT then Some(AuthoredResolutionExceeded) else None
      case _ => None
  }

  /** An accepted loop is always small: its own caps already bound it to seven and a half megabytes. */
  lemma AcceptedLoopIsSmall(p: Probe)
    requires AuthoredBreach(Loop, p) == None && p.bitrate > 0 && p.durationS > 0.0
    ensures EstimatedBytes(p) <= 7_500_000
  {
    var rate := p.bitrate as real / 8.0;
    assert rate <= 250_000.0;
    ScaleUp(rate, 250_000.0, p.durationS);
    assert rate * p.durationS <= 7_500_000.0;
  }

  lemma ScaleUp(x: real, y: real, k: real)
    requires x <= y && k >= 0.0
    ensures x * k <= y * k
  {
  }

  // ---- the system ---------------------------------------------------------

  datatype Config = Config(leaseTtl: int, maxAttempts: nat, detailCeiling: real)

  predicate Sane(cfg: Config) {
    cfg.leaseTtl > 0 && cfg.maxAttempts > 0
  }

  /** What the claim handed the worker; it is never read again from the tables. */
  datatype Claim = Claim(job: Id, asset: Id, intent: Intent, vaultKey: string, mode: JobMode, sourceKey: Option<string>)

  datatype Phase =
    | Pulling
    | Probing
    | Refusing(reason: ReasonCode)
    | Closing
    | Transcoding
    | Uploading
    | Recording(record: RenditionRecord)
    | Failing
    | WritingFailure(attempts: nat)

  datatype Worker = Idle | Busy(claim: Claim, phase: Phase, beat: int)

  datatype System = System(now: int, t: Tables, issued: set<Id>, objects: set<string>, workers: seq<Worker>)

  datatype Step =
    | Tick(d: nat)
    | NewAsset(asset: Id, row: Asset)
    | MarkDeleted(asset: Id)
    | Purge(asset: Id)
    | Enqueue(id: Id, job: Job)
    | Repoint(id: Id, key: string)
    | Decline(asset: Id, intent: Intent)
    | StrayBeat(id: Id)
    | Take(w: nat, id: Id)
    | Pull(w: nat, ok: bool)
    | Examine(w: nat, probe: Option<Probe>)
    | Refuse(w: nat, ok: bool)
    | Close(w: nat, ok: bool)
    | Transcode(w: nat, ok: bool)
    | HeartBeat(w: nat)
    | Store(w: nat, ok: bool, facts: RenditionRecord)
    | Record(w: nat, ok: bool)
    | ReadAttempts(w: nat)
    | WriteFailure(w: nat)
    | Drop(w: nat, id: Id)

  predicate At(s: System, w: nat) {
    w < |s.workers| && s.workers[w].Busy?
  }

  predicate Enabled(cfg: Config, s: System, step: Step) {
    match step
    case Tick(_) => true
    case NewAsset(a, _) => a !in s.t.assets
    case MarkDeleted(a) => a in s.t.assets
    case Purge(_) => true
    case Enqueue(id, row) =>
      && id !in s.issued && OwnAsset(s.t.assets, row)
      && row == FreshJob(row.account, row.asset, row.intent, row.mode, row.sourceKey, s.now)
    case Repoint(_, _) => true
    case Decline(_, _) => true
    case StrayBeat(_) => true
    case Take(w, id) =>
      w < |s.workers| && s.workers[w].Idle? && id in s.t.jobs && Runnable(s.t.jobs[id], s.now - cfg.leaseTtl)
    case Pull(w, _) => At(s, w) && s.workers[w].phase.Pulling?
    case Examine(w, _) => At(s, w) && s.workers[w].phase.Probing?
    case Refuse(w, _) => At(s, w) && s.workers[w].phase.Refusing?
    case Close(w, _) => At(s, w) && s.workers[w].phase.Closing?
    case Transcode(w, _) => At(s, w) && s.workers[w].phase.Transcoding?
    case HeartBeat(w) => At(s, w) && s.workers[w].phase.Transcoding?
    case Store(w, _, _) => At(s, w) && s.workers[w].phase.Uploading?
    case Record(w, _) => At(s, w) && s.workers[w].phase.Recording?
    case ReadAttempts(w) => At(s, w) && s.workers[w].phase.Failing?
    case WriteFailure(w) => At(s, w) && s.workers[w].phase.WritingFailure?
    case Drop(w, id) => At(s, w) && s.workers[w].claim.job == id
  }

  function ClaimOf(t: Tables, id: Id): Claim
    requires id in t.jobs && t.jobs[id].asset in t.assets
  {
    var job := t.jobs[id];
    Claim(id, job.asset, job.intent, t.assets[job.asset].vaultKey, job.mode, job.sourceKey)
  }

  /** Where probing leads: the derived and the authored path refuse for different reasons. A ceiling that is not
      positive is none. */
  function AfterProbe(cfg: Config, c: Claim, probe: Option<Probe>): Phase {
    if c.mode == Remux then
      match probe
      case None => Refusing(AuthoredCodecUnsupported)
      case Some(p) =>
        var breach := AuthoredBreach(c.intent, p);
        if breach.Some? then Refusing(breach.value) else Transcoding
    else
      match probe
      case None => Failing
      case Some(p) =>
        if c.intent == Detail && cfg.detailCeiling > 0.0 && p.durationS > cfg.detailCeiling
        then Refusing(ExceededDurationCeiling) else Transcoding
  }

  function Put(s: System, w: nat, worker: Worker): System
    requires w < |s.workers|
  {
    s.(workers := s.workers[w := worker])
  }

  function Move(s: System, w: nat, phase: Phase): System
    requires At(s, w)
  {
    Put(s, w, s.workers[w].(phase := phase))
  }

  function Apply(cfg: Config, s: System, step: Step): System
    requires Enabled(cfg, s, step)
  {
    match step
    case Tick(d) => s.(now := s.now + d)
    case NewAsset(a, row) => s.(t := s.t.(assets := s.t.assets[a := row]))
    case MarkDeleted(a) => s.(t := s.t.(assets := s.t.assets[a := s.t.assets[a].(deletedAt := Some(s.now))]))
    case Purge(a) => s.(t := Purged(s.t, a))
    case Enqueue(id, row) => s.(t := Inserted(s.t, id, row), issued := s.issued + {id})
    case Repoint(id, key) => s.(t := Repointed(s.t, id, key))
    case Decline(a, i) => var t := Declined(s.t, a, i); if t.Some? then s.(t := t.value) else s
    case StrayBeat(id) => s.(t := Beaten(s.t, id, s.now))
    case Take(w, id) =>
      var t := Claimed(s.t, id, s.now);
      if OwnAsset(t.assets, t.jobs[id]) then Put(s, w, Busy(ClaimOf(t, id), Pulling, s.now)).(t := t) else s.(t := t)
    case Pull(w, ok) =>
      var c := s.workers[w].claim;
      Move(s, w, if ok && !(c.mode == Remux && c.sourceKey.None?) then Probing else Failing)
    case Examine(w, probe) => Move(s, w, AfterProbe(cfg, s.workers[w].claim, probe))
    case Refuse(w, ok) =>
      var c := s.workers[w].claim;
      var t := RefusalWritten(s.t, c.asset, c.intent, s.workers[w].phase.reason);
      if ok && t.Some? then Move(s, w, Closing).(t := t.value) else Move(s, w, Failing)
    case Close(w, ok) =>
      if ok then Put(s, w, Idle).(t := Closed(s.t, s.workers[w].claim.job)) else Move(s, w, Failing)
    case Transcode(w, ok) => Move(s, w, if ok then Uploading else Failing)
    case HeartBeat(w) =>
      Put(s, w, s.workers[w].(beat := s.now)).(t := Beaten(s.t, s.workers[w].claim.job, s.now))
    case Store(w, ok, facts) =>
      var c := s.workers[w].claim;
      var key := Keys.RenditionKey(c.vaultKey, IntentName(c.intent));
      if ok then Move(s, w, Recording(facts.(key := key))).(objects := s.objects + {key}) else Move(s, w, Failing)
    case Record(w, ok) =>
      var t := Completed(s.t, s.workers[w].claim.job, s.workers[w].phase.record);
      if ok && t.Some? then Put(s, w, Idle).(t := t.value) else Move(s, w, Failing)
    case ReadAttempts(w) =>
      var id := s.workers[w].claim.job;
      if id in s.t.jobs then Move(s, w, WritingFailure(s.t.jobs[id].retries)) else Put(s, w, Idle)
    case WriteFailure(w) =>
      var t := FailureWritten(s.t, s.workers[w].claim.job, s.workers[w].phase.attempts, cfg.maxAttempts, FailedReason);
      Put(s, w, Idle).(t := t)
    case Drop(w, _) => Put(s, w, Idle)
  }

  // ---- runs ---------------------------------------------------------------

  predicate Init(s: System) {
    s.t.jobs == map[] && s.t.renditions == map[] && forall w | 0 <= w < |s.workers| :: s.workers[w].Idle?
  }

  ghost predicate Legal(cfg: Config, s: System, steps: seq<Step>)
    decreases |steps|, 0
  {
    steps == [] ||
    (Legal(cfg, s, steps[..|steps| - 1]) && Enabled(cfg, After(cfg, s, steps[..|steps| - 1]), steps[|steps| - 1]))
  }

  ghost function After(cfg: Config, s: System, steps: seq<Step>): System
    requires Legal(cfg, s, steps)
    decreases |steps|, 1
  {
    if steps == [] then s
    else Apply(cfg, After(cfg, s, steps[..|steps| - 1]), steps[|steps| - 1])
  }
}
