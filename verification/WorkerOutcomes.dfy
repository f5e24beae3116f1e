/** What the worker decides about a file, and what becomes of a job one worker sees through. */
module WorkerOutcomes {
  import opened Contract
  import opened Records
  import opened JobQueue
  import opened Workers
  import Keys

  // ---- which authored files are accepted, in numbers ---------------------------

  /** Bits played: one byte past two gibibytes is too many. */
  predicate TooLarge(p: Probe) {
    p.bitrate > 0 && p.durationS > 0.0 && p.bitrate as real * p.durationS >= 17_179_869_192.0
  }

  lemma SizeInBits(p: Probe)
    ensures p.bitrate > 0 && p.durationS > 0.0 && EstimatedBytes(p) > MAX_BYTES <==> TooLarge(p)
  {
    var x := p.bitrate as real / 8.0 * p.durationS;
    assert x * 8.0 == p.bitrate as real * p.durationS;
    assert x.Floor > 2_147_483_648 <==> x >= 2_147_483_649.0;
  }

  predicate FullHd(p: Probe) {
    p.width <= 1920 && p.height <= 1080
  }

  /** An authored detail: H.264 with AAC or no sound, within full HD, at most eight megabits a second, at most two
      gibibytes; and refused for the first of these it breaks, size first. */
  lemma DetailAccepted(p: Probe)
    ensures
      var playable := p.codec == "h264" && p.audioCodec in {"", "aac"};
      var verdict := AuthoredBreach(Detail, p);
      && (verdict == None <==> !TooLarge(p) && playable && FullHd(p) && p.bitrate <= 8_000_000)
      && (verdict == Some(AuthoredTooLarge) <==> TooLarge(p))
      && (verdict == Some(AuthoredCodecUnsupported) <==> !TooLarge(p) && !playable)
      && (verdict == Some(AuthoredResolutionExceeded) <==> !TooLarge(p) && playable && !FullHd(p))
      && (verdict == Some(AuthoredBitrateExceeded) <==>
            !TooLarge(p) && playable && FullHd(p) && p.bitrate > 8_000_000)
  {
    SizeInBits(p);
  }

  /** An authored loop: H.264, neither edge over 1920, at most thirty seconds and two megabits a second. Its sound
      is not looked at. */
  lemma LoopAccepted(p: Probe)
    ensures
      var framed := p.width <= 1920 && p.height <= 1920;
      var verdict := AuthoredBreach(Loop, p);
      && (verdict == None <==>
            !TooLarge(p) && p.codec == "h264" && framed && p.durationS <= 30.0 && p.bitrate <= 2_000_000)
      && (verdict == Some(AuthoredTooLarge) <==> TooLarge(p))
      && (verdict == Some(AuthoredCodecUnsupported) <==> !TooLarge(p) && p.codec != "h264")
      && (verdict == Some(AuthoredResolutionExceeded) <==> !TooLarge(p) && p.codec == "h264" && !framed)
      && (verdict == Some(AuthoredLoopTooLong) <==>
            !TooLarge(p) && p.codec == "h264" && framed && p.durationS > 30.0)
      && (verdict == Some(AuthoredBitrateExceeded) <==>
            !TooLarge(p) && p.codec == "h264" && framed && p.durationS <= 30.0 && p.bitrate > 2_000_000)
  {
    SizeInBits(p);
  }

  /** An authored poster is bounded in size and frame alone. */
  lemma PosterAccepted(p: Probe)
    ensures
      var verdict := AuthoredBreach(Poster, p);
      && (verdict == None <==> !TooLarge(p) && FullHd(p))
      && (verdict == Some(AuthoredTooLarge) <==> TooLarge(p))
      && (verdict == Some(AuthoredResolutionExceeded) <==> !TooLarge(p) && !FullHd(p))
  {
    SizeInBits(p);
  }

  // ---- what the worker does with what it probed ----------------------------------

  /** The file may become the rendition. */
  predicate Passes(cfg: Config, mode: JobMode, intent: Intent, p: Probe) {
    if mode == Derive then !(intent.Detail? && cfg.detailCeiling > 0.0 && p.durationS > cfg.detailCeiling)
    else
      && !TooLarge(p)
      && (intent.Detail? ==>
            p.codec == "h264" && p.audioCodec in {"", "aac"} && FullHd(p) && p.bitrate <= 8_000_000)
      && (intent.Loop? ==>
            && p.codec == "h264" && p.width <= 1920 && p.height <= 1920
            && p.durationS <= 30.0 && p.bitrate <= 2_000_000)
      && (intent.Poster? ==> FullHd(p))
  }

  /** Examining moves the worker on and touches nothing else. A file that passes is worked on; one that does not is
      refused with its reason; one that cannot be probed is refused when it was authored, and a failure when it was
      not. */
  lemma ExamineDecides(cfg: Config, s: System, w: nat, probe: Option<Probe>)
    requires Enabled(cfg, s, Examine(w, probe))
    ensures
      var c, s' := s.workers[w].claim, Apply(cfg, s, Examine(w, probe));
      && s' == Move(s, w, s'.workers[w].phase)
      && match probe
         case None =>
           s'.workers[w].phase == if c.mode == Remux then Refusing(AuthoredCodecUnsupported) else Failing
         case Some(p) =>
           if Passes(cfg, c.mode, c.intent, p) then s'.workers[w].phase == Transcoding
           else if c.mode == Derive then s'.workers[w].phase == Refusing(ExceededDurationCeiling)
           else Some(s'.workers[w].phase) == RefusingFor(AuthoredBreach(c.intent, p))
  {
    if probe.Some? {
      DetailAccepted(probe.value);
      LoopAccepted(probe.value);
      PosterAccepted(probe.value);
      SizeInBits(probe.value);
    }
  }

  function RefusingFor(reason: Option<ReasonCode>): Option<Phase> {
    if reason.None? then None else Some(Refusing(reason.value))
  }

  /** Whatever goes wrong, at whichever point, the worker turns to recording a failure and nothing else has changed. */
  lemma TroubleIsFailure(cfg: Config, s: System, step: Step)
    requires Enabled(cfg, s, step)
    requires
      match step
      case Pull(w, ok) => !ok || (s.workers[w].claim.mode == Remux && s.workers[w].claim.sourceKey.None?)
      case Refuse(w, ok) => !ok || s.workers[w].claim.asset !in s.t.assets
      case Close(_, ok) => !ok
      case Transcode(_, ok) => !ok
      case Store(_, ok, _) => !ok
      case Record(w, ok) =>
        !ok || s.workers[w].claim.job !in s.t.jobs || s.t.jobs[s.workers[w].claim.job].status != Running
      case _ => false
    ensures Apply(cfg, s, step) == Move(s, step.w, Failing)
  {
  }

  /** A heartbeat renews the lease of a job that is running, and touches no other column and no other job; a job that is
      not running is not revived by it. */
  lemma HeartbeatRenews(cfg: Config, s: System, w: nat)
    requires Enabled(cfg, s, HeartBeat(w))
    ensures
      var id, s' := s.workers[w].claim.job, Apply(cfg, s, HeartBeat(w));
      && s'.workers == s.workers[w := s.workers[w].(beat := s.now)]
      && s'.t == if id in s.t.jobs && s.t.jobs[id].status == Running
                 then s.t.(jobs := s.t.jobs[id := s.t.jobs[id].(heartbeat := Some(s.now))]) else s.t
  {
  }

  /** Declining records an intent nothing is on record of, and overwrites nothing. */
  lemma DeclineOverwritesNothing(cfg: Config, s: System, a: Id, i: Intent)
    ensures
      Apply(cfg, s, Decline(a, i)) ==
        if a in s.t.assets && (a, i) !in s.t.renditions
        then s.(t := s.t.(renditions := s.t.renditions[(a, i) := Rendition(NotDerived, None, None)]))
        else s
  {
  }

  // ---- from claim to outcome ----------------------------------------------------------

  /** These steps can be taken one after another. */
  predicate Goes(cfg: Config, s: System, steps: seq<Step>)
    decreases |steps|
  {
    steps == [] || (Enabled(cfg, s, steps[0]) && Goes(cfg, Apply(cfg, s, steps[0]), steps[1..]))
  }

  function Leads(cfg: Config, s: System, steps: seq<Step>): System
    requires Goes(cfg, s, steps)
    decreases |steps|
  {
    if steps == [] then s else Leads(cfg, Apply(cfg, s, steps[0]), steps[1..])
  }

  lemma {:induction false} Onwards(cfg: Config, s: System, first: seq<Step>, rest: seq<Step>)
    requires Goes(cfg, s, first) && Goes(cfg, Leads(cfg, s, first), rest)
    ensures Goes(cfg, s, first + rest)
    ensures Leads(cfg, s, first + rest) == Leads(cfg, Leads(cfg, s, first), rest)
    decreases |first|
  {
    if first == [] {
      assert first + rest == rest;
    } else {
      assert (first + rest)[1..] == first[1..] + rest && (first + rest)[0] == first[0];
      Onwards(cfg, Apply(cfg, s, first[0]), first[1..], rest);
    }
  }

  lemma OneStep(cfg: Config, s: System, step: Step)
    requires Enabled(cfg, s, step)
    ensures Goes(cfg, s, [step]) && Leads(cfg, s, [step]) == Apply(cfg, s, step)
  {
    assert Goes(cfg, Apply(cfg, s, step), []);
  }

  lemma NextStep(cfg: Config, s: System, steps: seq<Step>, step: Step)
    requires Goes(cfg, s, steps) && Enabled(cfg, Leads(cfg, s, steps), step)
    ensures Goes(cfg, s, steps + [step])
    ensures Leads(cfg, s, steps + [step]) == Apply(cfg, Leads(cfg, s, steps), step)
  {
    OneStep(cfg, Leads(cfg, s, steps), step);
    Onwards(cfg, s, steps, [step]);
  }

  /** An idle worker and a job it may have. */
  predicate Offered(cfg: Config, s: System, w: nat, id: Id) {
    && w < |s.workers| && s.workers[w].Idle? && id in s.t.jobs
    && s.t.jobs[id].asset in s.t.assets && s.t.assets[s.t.jobs[id].asset].account == s.t.jobs[id].account
    && (|| s.t.jobs[id].status == Queued
        || (s.t.jobs[id].status == Running && s.t.jobs[id].heartbeat.Some?
            && s.t.jobs[id].heartbeat.value + cfg.leaseTtl < s.now))
  }

  /** A job just queued for an asset of its account is offered to any idle worker. */
  lemma QueuedIsOffered(cfg: Config, s: System, w: nat, id: Id, row: Job)
    requires Enabled(cfg, s, Step.Enqueue(id, row)) && w < |s.workers| && s.workers[w].Idle?
    ensures Offered(cfg, Apply(cfg, s, Step.Enqueue(id, row)), w, id)
    ensures Apply(cfg, s, Step.Enqueue(id, row)).t.jobs[id] == row
  {
  }

  /** Deleting and purging an asset takes its jobs and renditions along and nothing else. */
  lemma DeletedThenPurged(cfg: Config, s: System, a: Id)
    requires a in s.t.assets
    ensures
      var s' := Apply(cfg, Apply(cfg, s, MarkDeleted(a)), Purge(a));
      && s' == s.(t := s'.t) && s'.t.assets == s.t.assets - {a}
      && (forall j :: j in s'.t.jobs <==> j in s.t.jobs && s.t.jobs[j].asset != a)
      && (forall j | j in s'.t.jobs :: s'.t.jobs[j] == s.t.jobs[j])
      && (forall r :: r in s'.t.renditions <==> r in s.t.renditions && r.0 != a)
      && (forall r | r in s'.t.renditions :: s'.t.renditions[r] == s.t.renditions[r])
  {
  }

  /** The row once claimed: one more attempt, a fresh lease. */
  function Begun(s: System, id: Id): Job
    requires id in s.t.jobs
  {
    s.t.jobs[id].(status := Running, heartbeat := Some(s.now), retries := s.t.jobs[id].retries + 1)
  }

  /** The work on a job is at this point, and nothing else has changed since it was offered. */
  ghost predicate WorkingAt(s: System, s': System, w: nat, id: Id, phase: Phase)
    requires w < |s.workers| && id in s.t.jobs && s.t.jobs[id].asset in s.t.assets
  {
    var row := s.t.jobs[id];
    var c := Claim(id, row.asset, row.intent, s.t.assets[row.asset].vaultKey, row.mode, row.sourceKey);
    s' == s.(t := s.t.(jobs := s.t.jobs[id := Begun(s, id)]), workers := s.workers[w := Busy(c, phase, s.now)])
  }

  lemma Taken(cfg: Config, s: System, w: nat, id: Id)
    requires Offered(cfg, s, w, id)
    ensures Enabled(cfg, s, Take(w, id)) && WorkingAt(s, Apply(cfg, s, Take(w, id)), w, id, Pulling)
  {
  }

  lemma MovedOn(s: System, s': System, w: nat, id: Id, phase: Phase, next: Phase)
    requires w < |s.workers| && id in s.t.jobs && s.t.jobs[id].asset in s.t.assets
    requires WorkingAt(s, s', w, id, phase)
    ensures At(s', w) && s'.workers[w].phase == phase && WorkingAt(s, Move(s', w, next), w, id, next)
  {
  }

  /** A job whose asset is not its account's is claimed all the same and handed to nobody: it runs until its lease is
      silent. */
  lemma ClaimedInVain(cfg: Config, s: System, w: nat, id: Id)
    requires Enabled(cfg, s, Take(w, id))
    requires !(&& s.t.jobs[id].asset in s.t.assets
               && s.t.assets[s.t.jobs[id].asset].account == s.t.jobs[id].account)
    ensures Apply(cfg, s, Take(w, id)) == s.(t := s.t.(jobs := s.t.jobs[id := Begun(s, id)]))
  {
  }

  /** Claim, pull and examine, with nobody in between. */
  lemma Examined(cfg: Config, s: System, w: nat, id: Id, probe: Option<Probe>) returns (steps: seq<Step>)
    requires Offered(cfg, s, w, id) && (s.t.jobs[id].mode == Remux ==> s.t.jobs[id].sourceKey.Some?)
    ensures steps == [Take(w, id), Pull(w, true), Examine(w, probe)] && Goes(cfg, s, steps)
    ensures
      var s' := Leads(cfg, s, steps);
      && w < |s'.workers| && s'.workers[w].Busy? && WorkingAt(s, s', w, id, s'.workers[w].phase)
      && match probe
         case None =>
           s'.workers[w].phase == if s.t.jobs[id].mode == Remux then Refusing(AuthoredCodecUnsupported) else Failing
         case Some(p) =>
           if Passes(cfg, s.t.jobs[id].mode, s.t.jobs[id].intent, p) then s'.workers[w].phase == Transcoding
           else if s.t.jobs[id].mode == Derive then s'.workers[w].phase == Refusing(ExceededDurationCeiling)
           else Some(s'.workers[w].phase) == RefusingFor(AuthoredBreach(s.t.jobs[id].intent, p))
  {
    Taken(cfg, s, w, id);
    OneStep(cfg, s, Take(w, id));
    var s1 := Apply(cfg, s, Take(w, id));
    MovedOn(s, s1, w, id, Pulling, Probing);
    NextStep(cfg, s, [Take(w, id)], Pull(w, true));
    var s2 := Apply(cfg, s1, Pull(w, true));
    ExamineDecides(cfg, s2, w, probe);
    MovedOn(s, s2, w, id, Probing, Apply(cfg, s2, Examine(w, probe)).workers[w].phase);
    NextStep(cfg, s, [Take(w, id), Pull(w, true)], Examine(w, probe));
    steps := [Take(w, id), Pull(w, true), Examine(w, probe)];
    assert steps == [Take(w, id), Pull(w, true)] + [Examine(w, probe)];
    assert [Take(w, id), Pull(w, true)] == [Take(w, id)] + [Pull(w, true)];
  }

  /** A job whose file passes, seen through by one worker: the object is stored under the rendition's key, the rendition
      is ready with what was measured of it, the job has succeeded, and nothing else has changed. */
  lemma SeenThrough(cfg: Config, s: System, w: nat, id: Id, p: Probe, facts: RenditionRecord) returns (steps: seq<Step>)
    requires Offered(cfg, s, w, id) && (s.t.jobs[id].mode == Remux ==> s.t.jobs[id].sourceKey.Some?)
    requires Passes(cfg, s.t.jobs[id].mode, s.t.jobs[id].intent, p)
    ensures Goes(cfg, s, steps)
    ensures
      var row, key := s.t.jobs[id],
                      Keys.RenditionKey(s.t.assets[s.t.jobs[id].asset].vaultKey, IntentName(s.t.jobs[id].intent));
      var ready := Rendition(Ready, None, Some(facts.(key := key)));
      Leads(cfg, s, steps) ==
        s.(t := s.t.(jobs := s.t.jobs[id := Begun(s, id).(status := Succeeded)],
                     renditions := s.t.renditions[(row.asset, row.intent) := ready]),
           objects := s.objects + {key})
  {
    var before := Examined(cfg, s, w, id, Some(p));
    steps := before + [Transcode(w, true)] + [Store(w, true, facts)] + [Record(w, true)];
    var s3 := Leads(cfg, s, before);
    NextStep(cfg, s, before, Transcode(w, true));
    var s4 := Apply(cfg, s3, Transcode(w, true));
    MovedOn(s, s3, w, id, Transcoding, Uploading);
    NextStep(cfg, s, before + [Transcode(w, true)], Store(w, true, facts));
    var s5 := Apply(cfg, s4, Store(w, true, facts));
    StoredAndRecorded(cfg, s, s4, w, id, facts);
    NextStep(cfg, s, before + [Transcode(w, true)] + [Store(w, true, facts)], Record(w, true));
  }

  lemma StoredAndRecorded(cfg: Config, s: System, s4: System, w: nat, id: Id, facts: RenditionRecord)
    requires Offered(cfg, s, w, id) && WorkingAt(s, s4, w, id, Uploading)
    ensures Enabled(cfg, s4, Store(w, true, facts))
    ensures
      var row, key := s.t.jobs[id],
                      Keys.RenditionKey(s.t.assets[s.t.jobs[id].asset].vaultKey, IntentName(s.t.jobs[id].intent));
      var ready := Rendition(Ready, None, Some(facts.(key := key)));
      var s5 := Apply(cfg, s4, Store(w, true, facts));
      && Enabled(cfg, s5, Record(w, true))
      && Apply(cfg, s5, Record(w, true)) ==
         s.(t := s.t.(jobs := s.t.jobs[id := Begun(s, id).(status := Succeeded)],
                      renditions := s.t.renditions[(row.asset, row.intent) := ready]),
            objects := s.objects + {key})
  {
    var s5 := Apply(cfg, s4, Store(w, true, facts));
    assert Apply(cfg, s5, Record(w, true)).workers == s.workers;
    assert Apply(cfg, s5, Record(w, true)).t.jobs == s.t.jobs[id := Begun(s, id).(status := Succeeded)];
  }

  /** A job whose file does not pass: the rendition is refused for that reason, whatever record it had is kept, the
      job has succeeded, and no object was stored. */
  lemma RefusedWithReason(cfg: Config, s: System, w: nat, id: Id, probe: Option<Probe>, reason: ReasonCode)
    returns (steps: seq<Step>)
    requires Offered(cfg, s, w, id) && (s.t.jobs[id].mode == Remux ==> s.t.jobs[id].sourceKey.Some?)
    requires
      match probe
      case None => s.t.jobs[id].mode == Remux && reason == AuthoredCodecUnsupported
      case Some(p) =>
        && !Passes(cfg, s.t.jobs[id].mode, s.t.jobs[id].intent, p)
        && (if s.t.jobs[id].mode == Derive then reason == ExceededDurationCeiling
            else AuthoredBreach(s.t.jobs[id].intent, p) == Some(reason))
    ensures Goes(cfg, s, steps)
    ensures
      var row := s.t.jobs[id];
      var record := if (row.asset, row.intent) in s.t.renditions
                    then s.t.renditions[(row.asset, row.intent)].record else None;
      var refused := Rendition(Refused, Some(reason), record);
      Leads(cfg, s, steps) ==
        s.(t := s.t.(jobs := s.t.jobs[id := Begun(s, id).(status := Succeeded)],
                     renditions := s.t.renditions[(row.asset, row.intent) := refused]))
  {
    var before := Examined(cfg, s, w, id, probe);
    steps := before + [Step.Refuse(w, true)] + [Close(w, true)];
    var s3 := Leads(cfg, s, before);
    RefusedAndClosed(cfg, s, s3, w, id, reason);
    NextStep(cfg, s, before, Step.Refuse(w, true));
    NextStep(cfg, s, before + [Step.Refuse(w, true)], Close(w, true));
  }

  lemma RefusedAndClosed(cfg: Config, s: System, s3: System, w: nat, id: Id, reason: ReasonCode)
    requires Offered(cfg, s, w, id) && WorkingAt(s, s3, w, id, Refusing(reason))
    ensures Enabled(cfg, s3, Step.Refuse(w, true))
    ensures
      var row, s4 := s.t.jobs[id], Apply(cfg, s3, Step.Refuse(w, true));
      var record := if (row.asset, row.intent) in s.t.renditions
                    then s.t.renditions[(row.asset, row.intent)].record else None;
      var refused := Rendition(Refused, Some(reason), record);
      && Enabled(cfg, s4, Close(w, true))
      && Apply(cfg, s4, Close(w, true)) ==
         s.(t := s.t.(jobs := s.t.jobs[id := Begun(s, id).(status := Succeeded)],
                      renditions := s.t.renditions[(row.asset, row.intent) := refused]))
  {
    var s4 := Apply(cfg, s3, Step.Refuse(w, true));
    assert Apply(cfg, s4, Close(w, true)).workers == s.workers;
    assert Apply(cfg, s4, Close(w, true)).t.jobs == s.t.jobs[id := Begun(s, id).(status := Succeeded)];
  }

  /** A job whose bytes cannot be pulled: it is queued again without a lease while it has attempts left, and has
      failed for good after the last; no rendition is written. */
  lemma FailedOrRequeued(cfg: Config, s: System, w: nat, id: Id) returns (steps: seq<Step>)
    requires Offered(cfg, s, w, id)
    ensures Goes(cfg, s, steps)
    ensures
      var row := if s.t.jobs[id].retries + 1 < cfg.maxAttempts
                 then Begun(s, id).(status := Queued, heartbeat := None)
                 else Begun(s, id).(status := Failed, reason := Some(FailedReason));
      Leads(cfg, s, steps) == s.(t := s.t.(jobs := s.t.jobs[id := row]))
  {
    Taken(cfg, s, w, id);
    OneStep(cfg, s, Take(w, id));
    var s1 := Apply(cfg, s, Take(w, id));
    MovedOn(s, s1, w, id, Pulling, Failing);
    NextStep(cfg, s, [Take(w, id)], Pull(w, false));
    var s2 := Apply(cfg, s1, Pull(w, false));
    NextStep(cfg, s, [Take(w, id)] + [Pull(w, false)], ReadAttempts(w));
    var s3 := Apply(cfg, s2, ReadAttempts(w));
    NextStep(cfg, s, [Take(w, id)] + [Pull(w, false)] + [ReadAttempts(w)], WriteFailure(w));
    steps := [Take(w, id)] + [Pull(w, false)] + [ReadAttempts(w)] + [WriteFailure(w)];
    var s4 := Apply(cfg, s3, WriteFailure(w));
    assert s4.workers == s.workers;
    assert s4.t.jobs == s.t.jobs[id := s4.t.jobs[id]];
  }
}
