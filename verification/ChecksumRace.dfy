/** Sweeps and derive downloads hashing the same objects at once: a recorded SHA-256 is right, and never changes. */
module ChecksumRace {
  import opened Contract
  import opened Records
  import opened Text
  import opened Checksum
  import JobQueue

  type Bytes = string

  /** What the model does not look into: the bytes an object key holds whenever it holds any (a vault object is
      immutable), and the hash, in lower-case hex. */
  datatype World = World(content: string -> Bytes, sha: Bytes -> string)

  ghost predicate Hashes(w: World) {
    forall b :: |w.sha(b)| == 64
  }

  function Digest(w: World, key: string): string {
    CHECKSUM_PREFIX + w.sha(w.content(key))
  }

  /** A sweep or a derive job, holding what it read from the row when it started. */
  datatype Reader =
    | Idle
    | Reading(asset: Id, key: string, size: int, sweep: bool)
    | Holding(asset: Id, key: string, sum: string)

  /** `born` remembers every asset id ever created: none comes back. */
  datatype System = System(now: int, t: Tables, born: set<Id>, stored: set<string>, readers: seq<Reader>)

  datatype Step =
    | Tick(d: nat)
    | NewAsset(asset: Id, row: Asset)
    | MarkDeleted(asset: Id)
    | Lose(key: string)
    | Purge(asset: Id)
    | SetJob(id: Id, job: Job)
    | Sweep(r: nat, asset: Id, retryBefore: int, locked: set<Id>)
    | Derive(r: nat, asset: Id)
    | ReadAll(r: nat)
    | GiveUp(r: nat, release: bool)
    | Mark(r: nat, ok: bool)

  predicate At(s: System, r: nat) {
    r < |s.readers|
  }

  predicate Enabled(s: System, step: Step) {
    match step
    case Tick(_) => true
    // finalize records an md5 the client claimed, or nothing; never a SHA-256
    case NewAsset(a, row) => a !in s.born && !HasPrefix(row.checksum, CHECKSUM_PREFIX)
    case MarkDeleted(a) => a in s.t.assets
    case Lose(_) => true
    case Purge(_) => true
    case SetJob(_, job) => job.asset in s.t.assets
    case Sweep(r, a, retryBefore, locked) => At(s, r) && s.readers[r].Idle? && IsCandidate(s.t, a, retryBefore, locked)
    case Derive(r, a) => At(s, r) && s.readers[r].Idle? && a in s.t.assets
    case ReadAll(r) =>
      && At(s, r) && s.readers[r].Reading? && s.readers[r].key in s.stored
    case GiveUp(r, release) => At(s, r) && s.readers[r].Reading? && (release ==> s.readers[r].sweep)
    case Mark(r, _) => At(s, r) && s.readers[r].Holding?
  }

  function Put(s: System, r: nat, reader: Reader): System
    requires At(s, r)
  {
    s.(readers := s.readers[r := reader])
  }

  function Apply(w: World, s: System, step: Step): System
    requires Enabled(s, step)
  {
    match step
    case Tick(d) => s.(now := s.now + d)
    case NewAsset(a, row) =>
      s.(t := s.t.(assets := s.t.assets[a := row]), born := s.born + {a}, stored := s.stored + {row.vaultKey})
    case MarkDeleted(a) => s.(t := s.t.(assets := s.t.assets[a := s.t.assets[a].(deletedAt := Some(s.now))]))
    case Lose(key) => s.(stored := s.stored - {key})
    case Purge(a) => s.(t := JobQueue.Purged(s.t, a))
    case SetJob(id, job) => s.(t := s.t.(jobs := s.t.jobs[id := job]))
    case Sweep(r, a, _, _) =>
      Put(s, r, Reading(a, s.t.assets[a].vaultKey, s.t.assets[a].vaultSize, true)).(t := CheckedAt(s.t, a, Some(s.now)))
    case Derive(r, a) => Put(s, r, Reading(a, s.t.assets[a].vaultKey, s.t.assets[a].vaultSize, false))
    case ReadAll(r) =>
      var it := s.readers[r];
      Put(s, r, if |w.content(it.key)| == it.size then Holding(it.asset, it.key, Digest(w, it.key)) else Idle)
    case GiveUp(r, release) =>
      Put(s, r, Idle).(t := if release then CheckedAt(s.t, s.readers[r].asset, None) else s.t)
    case Mark(r, ok) =>
      var it := s.readers[r];
      Put(s, r, Idle).(t := if ok then Marked(s.t, it.asset, it.sum).1 else s.t)
  }

  predicate Init(s: System) {
    s.t.assets == map[] && s.born == {} && forall r | 0 <= r < |s.readers| :: s.readers[r].Idle?
  }

  ghost predicate Legal(w: World, s: System, steps: seq<Step>)
    decreases |steps|, 0
  {
    steps == [] ||
    (Legal(w, s, steps[..|steps| - 1]) && Enabled(After(w, s, steps[..|steps| - 1]), steps[|steps| - 1]))
  }

  ghost function After(w: World, s: System, steps: seq<Step>): System
    requires Legal(w, s, steps)
    decreases |steps|, 1
  {
    if steps == [] then s
    else Apply(w, After(w, s, steps[..|steps| - 1]), steps[|steps| - 1])
  }

  // ---- the invariant ------------------------------------------------------------

  /** A verified SHA-256 is the hash of the object the row names. */
  ghost predicate RowRight(w: World, row: Asset) {
    VerifiedSha(row) ==> row.checksum == Digest(w, row.vaultKey)
  }

  /** A reader's key is its asset's own while the asset lasts, and what it holds is that object's hash. */
  ghost predicate ReaderRight(w: World, t: Tables, born: set<Id>, reader: Reader) {
    && (!reader.Idle? ==> reader.asset in born)
    && (!reader.Idle? && reader.asset in t.assets ==> t.assets[reader.asset].vaultKey == reader.key)
    && (reader.Holding? ==> reader.sum == Digest(w, reader.key))
  }

  ghost predicate Inv(w: World, s: System) {
    && s.t.assets.Keys <= s.born
    && (forall a | a in s.t.assets :: RowRight(w, s.t.assets[a]))
    && (forall r | 0 <= r < |s.readers| :: ReaderRight(w, s.t, s.born, s.readers[r]))
  }

  lemma RowsStayRight(w: World, s: System, step: Step, a: Id)
    requires Inv(w, s) && Enabled(s, step) && a in Apply(w, s, step).t.assets
    ensures RowRight(w, Apply(w, s, step).t.assets[a])
  {
    if step.Mark? {
      assert ReaderRight(w, s.t, s.born, s.readers[step.r]);
    }
    if a in s.t.assets {
      assert RowRight(w, s.t.assets[a]);
    }
  }

  lemma StepKeepsInv(w: World, s: System, step: Step)
    requires Inv(w, s) && Enabled(s, step)
    ensures Inv(w, Apply(w, s, step))
  {
    var s' := Apply(w, s, step);
    forall a | a in s'.t.assets ensures RowRight(w, s'.t.assets[a]) {
      RowsStayRight(w, s, step, a);
    }
    forall r | 0 <= r < |s'.readers| ensures ReaderRight(w, s'.t, s'.born, s'.readers[r]) {
      assert ReaderRight(w, s.t, s.born, s.readers[r]);
    }
  }

  lemma {:induction false} RunKeepsInv(w: World, s: System, steps: seq<Step>)
    requires Init(s) && Legal(w, s, steps)
    ensures Inv(w, After(w, s, steps))
  {
    if steps != [] {
      RunKeepsInv(w, s, steps[..|steps| - 1]);
      StepKeepsInv(w, After(w, s, steps[..|steps| - 1]), steps[|steps| - 1]);
    }
  }

  // ---- the properties -----------------------------------------------------------------

  /** Whatever sweeps and derive jobs interleave, a row that vouches for a SHA-256 vouches for its own bytes. */
  lemma VerifiedIsTrue(w: World, s: System, steps: seq<Step>, a: Id)
    requires Init(s) && Legal(w, s, steps)
    requires a in After(w, s, steps).t.assets && VerifiedSha(After(w, s, steps).t.assets[a])
    ensures After(w, s, steps).t.assets[a].checksum == Digest(w, After(w, s, steps).t.assets[a].vaultKey)
  {
    RunKeepsInv(w, s, steps);
    assert RowRight(w, After(w, s, steps).t.assets[a]);
  }

  /** With immutable bytes no writer ever meets a different verified value, and none is refused for its format. */
  lemma NobodyDisagrees(w: World, s: System, steps: seq<Step>, r: nat)
    requires Hashes(w) && Init(s) && Legal(w, s, steps)
    requires At(After(w, s, steps), r) && After(w, s, steps).readers[r].Holding?
    ensures
      var end := After(w, s, steps);
      Marked(end.t, end.readers[r].asset, end.readers[r].sum).0.Recorded?
  {
    RunKeepsInv(w, s, steps);
    var end := After(w, s, steps);
    assert ReaderRight(w, end.t, end.born, end.readers[r]);
    if end.readers[r].asset in end.t.assets {
      assert RowRight(w, end.t.assets[end.readers[r].asset]);
    }
  }

  /** A verified row keeps its key, its checksum and its flag; a purged id stays gone. */
  predicate Kept(s: System, a: Id, row: Asset) {
    && a in s.born
    && (a in s.t.assets ==> VerifiedSha(s.t.assets[a]) && s.t.assets[a].checksum == row.checksum)
  }

  lemma StepKeepsKept(w: World, s: System, step: Step, a: Id, row: Asset)
    requires Inv(w, s) && Enabled(s, step) && Kept(s, a, row)
    ensures Kept(Apply(w, s, step), a, row)
  {
  }

  /** Once verified, for ever: any continuation of any run leaves the recorded SHA-256 as it was. */
  lemma {:induction false} VerifiedForEver(w: World, s: System, steps: seq<Step>, more: seq<Step>, a: Id)
    requires Init(s) && Legal(w, s, steps) && Legal(w, s, steps + more)
    requires a in After(w, s, steps).t.assets && VerifiedSha(After(w, s, steps).t.assets[a])
    requires a in After(w, s, steps + more).t.assets
    ensures
      var early, late := After(w, s, steps).t.assets[a], After(w, s, steps + more).t.assets[a];
      VerifiedSha(late) && late.checksum == early.checksum
  {
    KeptAlong(w, s, steps, more, a);
  }

  lemma {:induction false} KeptAlong(w: World, s: System, steps: seq<Step>, more: seq<Step>, a: Id)
    requires Init(s) && Legal(w, s, steps) && Legal(w, s, steps + more)
    requires a in After(w, s, steps).t.assets && VerifiedSha(After(w, s, steps).t.assets[a])
    ensures Kept(After(w, s, steps + more), a, After(w, s, steps).t.assets[a])
    decreases |more|
  {
    if more == [] {
      assert steps + more == steps;
      RunKeepsInv(w, s, steps);
    } else {
      var before, last := more[..|more| - 1], more[|more| - 1];
      assert (steps + more)[..|steps + more| - 1] == steps + before;
      KeptAlong(w, s, steps, before, a);
      RunKeepsInv(w, s, steps + before);
      StepKeepsKept(w, After(w, s, steps + before), last, a, After(w, s, steps).t.assets[a]);
    }
  }

  // ---- a reader left to itself --------------------------------------------------

  /** A sweep or a derive job that finds the whole object and is not interrupted records its digest, unless the row
      vouches for one already; a sweep also stamps the row, and an object of another length is left unrecorded. */
  lemma ReadIsRecorded(w: World, s: System, r: nat, a: Id, start: Step)
    requires Hashes(w) && Enabled(s, start)
    requires start == Step.Derive(r, a) || (start.Sweep? && start.r == r && start.asset == a)
    requires s.t.assets[a].vaultKey in s.stored
    ensures
      var s1 := Apply(w, s, start);
      && Enabled(s1, ReadAll(r))
      && var s2 := Apply(w, s1, ReadAll(r));
         && (a in s1.t.assets && s1.t.assets[a].checkedAt ==
               if start.Sweep? then Some(s.now) else s.t.assets[a].checkedAt)
         && (|w.content(s.t.assets[a].vaultKey)| != s.t.assets[a].vaultSize ==>
               s2 == s1.(readers := s1.readers[r := Idle]))
         && (|w.content(s.t.assets[a].vaultKey)| == s.t.assets[a].vaultSize ==>
               && Enabled(s2, Mark(r, true))
               && var row := Apply(w, s2, Mark(r, true)).t.assets[a];
                  && row.checksumVerified && "sha256:" <= row.checksum
                  && (!(s.t.assets[a].checksumVerified && "sha256:" <= s.t.assets[a].checksum) ==>
                        row.checksum == "sha256:" + w.sha(w.content(s.t.assets[a].vaultKey))))
  {
    var b := w.content(s.t.assets[a].vaultKey);
    assert |w.sha(b)| == 64 && |Digest(w, s.t.assets[a].vaultKey)| == 71;
  }

  /** What cannot be read or claimed: an object that was lost, an asset that was deleted, let alone purged, and one
      a derive job is queued for. */
  lemma NothingToHash(w: World, s: System, step: Step, next: Step)
    requires Enabled(s, step)
    requires
      match step
      case Lose(key) => next.ReadAll? && At(s, next.r) && s.readers[next.r].Reading? && s.readers[next.r].key == key
      case MarkDeleted(a) => next.Sweep? && next.asset == a
      case Purge(a) => next.Derive? && next.asset == a && a in s.t.assets && s.t.assets[a].deletedAt.Some?
      case SetJob(_, job) =>
        next.Sweep? && next.asset == job.asset && job.mode == JobMode.Derive && job.status in {Queued, Running}
      case _ => false
    ensures !Enabled(Apply(w, s, step), next)
  {
    if step.SetJob? {
      assert Apply(w, s, step).t.jobs[step.id] == step.job;
      assert DeriveUnderway(Apply(w, s, step).t.jobs, step.job.asset);
    }
  }
}
