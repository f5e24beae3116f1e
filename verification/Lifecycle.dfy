/** Uploads becoming assets while two sweeps delete behind them: every interleaving of the requests' and passes'
    steps. */
module Lifecycle {
  import opened Contract
  import opened Records
  import opened Keys
  import opened AssetStore
  import JobQueue

  // ---- processes ----------------------------------------------------------

  /** A finalize request: it has read the upload row unswept, then found the object there. */
  datatype Finalizer = Waiting | Checked(account: Id, upload: Id) | Headed(account: Id, upload: Id)

  /** A sweep pass: the rows it selected and has not dealt with; `gone` says the first one's object is deleted. */
  datatype Cleaner =
    | Resting
    | OrphanPass(left: seq<(Id, string)>, gone: bool)
    | PurgePass(left: seq<(Id, string)>, gone: bool)

  /** `births` and `purges` are history: every asset creation in order, and whose asset each purge removed. */
  datatype System = System(
    now: int, db: Db, objects: set<string>, finalizers: seq<Finalizer>, cleaners: seq<Cleaner>,
    births: seq<Id>, purges: set<(Id, Id)>)

  datatype Step =
    | Tick(d: nat)
    | Provision(account: Id)
    | CreateUpload(id: Id, row: Upload)
    | PutObject(key: string)
    | Read(f: nat, account: Id, upload: Id)
    | Head(f: nat)
    | Commit(f: nat, v: VaultRecord)
    | Abandon(f: nat)
    | MarkDeleted(account: Id, asset: Id)
    | SelectOrphans(c: nat, ids: seq<Id>, cutoff: int)
    | SelectDeleted(c: nat, ids: seq<Id>, cutoff: int)
    | DeleteObject(c: nat, ok: bool)
    | SettleRow(c: nat, ok: bool)
    | Halt(c: nat)

  predicate Finalizing(s: System, f: nat) {
    f < |s.finalizers|
  }

  predicate Cleaning(s: System, c: nat) {
    c < |s.cleaners| && !s.cleaners[c].Resting? && s.cleaners[c].left != []
  }

  /** The key a brokered original is presigned for names its account and itself; an authored file goes to staging. */
  predicate KeyFits(id: Id, up: Upload) {
    match up.rendition
    case None => up.key == VaultKey(up.account, id)
    case Some((asset, intent)) => up.key == StagingKey(up.account, asset, IntentName(intent))
  }

  predicate Enabled(grace: int, s: System, step: Step) {
    match step
    case Tick(_) => true
    case Provision(_) => true
    case CreateUpload(id, row) =>
      && id !in s.db.uploads && '/' !in id && row.account in s.db.accounts && KeyFits(id, row)
      && row.created == s.now && row.finalizedAt.None? && row.sweptAt.None?
      && (row.rendition.Some? ==> Owns(s.db, row.account, row.rendition.value.0))
    case PutObject(_) => true
    case Read(f, account, upload) =>
      && Finalizing(s, f) && s.finalizers[f].Waiting? && OwnsUpload(s.db, account, upload)
      && s.db.uploads[upload].sweptAt.None? && s.db.uploads[upload].rendition.None?
    case Head(f) => Finalizing(s, f) && s.finalizers[f].Checked? && s.finalizers[f].upload in s.db.uploads
    case Commit(f, _) => Finalizing(s, f) && s.finalizers[f].Headed?
    case Abandon(f) => Finalizing(s, f)
    case MarkDeleted(account, asset) => Owns(s.db, account, asset)
    case SelectOrphans(c, ids, cutoff) =>
      && c < |s.cleaners| && s.cleaners[c].Resting? && cutoff <= s.now - grace
      && forall id | id in ids :: id in s.db.uploads && Reclaimable(s.db.uploads[id], cutoff)
    case SelectDeleted(c, ids, cutoff) =>
      && c < |s.cleaners| && s.cleaners[c].Resting? && cutoff <= s.now - grace
      && forall id | id in ids ::
           id in s.db.t.assets && s.db.t.assets[id].deletedAt.Some? && s.db.t.assets[id].deletedAt.value < cutoff
    case DeleteObject(c, _) => Cleaning(s, c) && !s.cleaners[c].gone
    case SettleRow(c, _) => Cleaning(s, c) && s.cleaners[c].gone
    case Halt(c) => c < |s.cleaners|
  }

  function UploadKeys(db: Db, ids: seq<Id>): seq<(Id, string)>
    requires forall id | id in ids :: id in db.uploads
  {
    seq(|ids|, k requires 0 <= k < |ids| => assert ids[k] in ids; (ids[k], db.uploads[ids[k]].key))
  }

  function VaultKeys(db: Db, ids: seq<Id>): seq<(Id, string)>
    requires forall id | id in ids :: id in db.t.assets
  {
    seq(|ids|, k requires 0 <= k < |ids| => assert ids[k] in ids; (ids[k], db.t.assets[ids[k]].vaultKey))
  }

  function MoveF(s: System, f: nat, to: Finalizer): System
    requires Finalizing(s, f)
  {
    s.(finalizers := s.finalizers[f := to])
  }

  function MoveC(s: System, c: nat, to: Cleaner): System
    requires c < |s.cleaners|
  {
    s.(cleaners := s.cleaners[c := to])
  }

  /** The row's turn after its object is deleted: an orphan is stamped swept, a deleted asset purged. */
  function RowSettled(s: System, cleaner: Cleaner): System
    requires !cleaner.Resting? && cleaner.left != []
  {
    var id := cleaner.left[0].0;
    if cleaner.OrphanPass? then s.(db := Swept(s.db, id, s.now))
    else if id in s.db.t.assets && s.db.t.assets[id].deletedAt.Some? then
      s.(db := s.db.(t := JobQueue.Purged(s.db.t, id)), purges := s.purges + {(s.db.t.assets[id].account, id)})
    else s
  }

  function Apply(grace: int, s: System, step: Step): System
    requires Enabled(grace, s, step)
  {
    match step
    case Tick(d) => s.(now := s.now + d)
    case Provision(account) => s.(db := s.db.(accounts := s.db.accounts + {account}))
    case CreateUpload(id, row) => s.(db := s.db.(uploads := s.db.uploads[id := row]))
    case PutObject(key) => s.(objects := s.objects + {key})
    case Read(f, account, upload) => MoveF(s, f, Checked(account, upload))
    case Head(f) =>
      var p := s.finalizers[f];
      MoveF(s, f, if s.db.uploads[p.upload].key in s.objects then Headed(p.account, p.upload) else Waiting)
    case Commit(f, v) =>
      var p := s.finalizers[f];
      var (answer, db) := Finalize(s.db, p.account, p.upload, v, s.now);
      MoveF(s, f, Waiting).(db := db, births := if answer.Created? then s.births + [p.upload] else s.births)
    case Abandon(f) => MoveF(s, f, Waiting)
    case MarkDeleted(account, asset) => s.(db := MarkedDeleted(s.db, account, asset, s.now).value)
    case SelectOrphans(c, ids, _) => MoveC(s, c, OrphanPass(UploadKeys(s.db, ids), false))
    case SelectDeleted(c, ids, _) => MoveC(s, c, PurgePass(VaultKeys(s.db, ids), false))
    case DeleteObject(c, ok) =>
      var p := s.cleaners[c];
      if ok then MoveC(s, c, p.(gone := true)).(objects := s.objects - {p.left[0].1})
      else MoveC(s, c, p.(left := p.left[1..]))
    case SettleRow(c, ok) =>
      var p := s.cleaners[c];
      var moved := MoveC(s, c, p.(left := p.left[1..], gone := false));
      if ok then RowSettled(moved, p) else moved
    case Halt(c) => MoveC(s, c, Resting)
  }

  // ---- runs -----------------------------------------------------------------

  predicate Init(s: System) {
    && s.db.uploads == map[] && s.db.t.assets == map[] && s.births == [] && s.purges == {}
    && (forall f | 0 <= f < |s.finalizers| :: s.finalizers[f].Waiting?)
    && forall c | 0 <= c < |s.cleaners| :: s.cleaners[c].Resting?
  }

  /** This step creates an asset from an upload the sweep may already consider abandoned. */
  predicate LateCommit(grace: int, s: System, step: Step) {
    && step.Commit? && Enabled(grace, s, step)
    && Finalize(s.db, s.finalizers[step.f].account, s.finalizers[step.f].upload, step.v, s.now).0.Created?
    && s.db.uploads[s.finalizers[step.f].upload].created < s.now - grace
  }

  /** Legal runs; with `prompt`, those in which no finalize commits later than the grace window. */
  ghost predicate Legal(grace: int, prompt: bool, s: System, steps: seq<Step>)
    decreases |steps|, 0
  {
    steps == [] ||
    (var before, last := steps[..|steps| - 1], steps[|steps| - 1];
     && Legal(grace, prompt, s, before) && Enabled(grace, After(grace, prompt, s, before), last)
     && (prompt ==> !LateCommit(grace, After(grace, prompt, s, before), last)))
  }

  ghost function After(grace: int, prompt: bool, s: System, steps: seq<Step>): System
    requires Legal(grace, prompt, s, steps)
    decreases |steps|, 1
  {
    if steps == [] then s
    else Apply(grace, After(grace, prompt, s, steps[..|steps| - 1]), steps[|steps| - 1])
  }
}
