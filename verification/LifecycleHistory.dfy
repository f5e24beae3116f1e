/** What the tables remember: an upload becomes an asset at most once, and the purged test is history. */
module LifecycleHistory {
  import opened Collections
  import opened Contract
  import opened Records
  import opened AssetStore
  import opened Lifecycle

  // ---- the invariant --------------------------------------------------------

  predicate UploadOk(id: Id, up: Upload) {
    && '/' !in id && KeyFits(id, up) && (up.finalizedAt.Some? ==> up.rendition.None?)
  }

  /** An asset is its own account's finalized original upload. */
  predicate AssetOk(db: Db, a: Id) {
    && a in db.uploads && a in db.t.assets
    && var up := db.uploads[a];
       && up.finalizedAt.Some? && up.rendition.None?
       && up.account == db.t.assets[a].account && up.key == db.t.assets[a].vaultKey
  }

  ghost predicate RowsOk(db: Db) {
    && (forall id | id in db.uploads :: UploadOk(id, db.uploads[id]))
    && forall a | a in db.t.assets :: AssetOk(db, a)
  }

  predicate FinalizerOk(db: Db, p: Finalizer) {
    !p.Waiting? ==> OwnsUpload(db, p.account, p.upload) && db.uploads[p.upload].rendition.None?
  }

  /** A listed key is its upload's own; a listed deletion is of a finalized original, still marked if still there. */
  predicate EntryOk(db: Db, purge: bool, e: (Id, string)) {
    && e.0 in db.uploads && e.1 == db.uploads[e.0].key
    && (purge ==>
          && db.uploads[e.0].finalizedAt.Some?
          && (e.0 in db.t.assets ==> db.t.assets[e.0].deletedAt.Some?))
  }

  predicate CleanerOk(db: Db, p: Cleaner) {
    !p.Resting? ==> forall e | e in p.left :: EntryOk(db, p.PurgePass?, e)
  }

  ghost predicate ProcessesOk(s: System) {
    && (forall f | 0 <= f < |s.finalizers| :: FinalizerOk(s.db, s.finalizers[f]))
    && forall c | 0 <= c < |s.cleaners| :: CleanerOk(s.db, s.cleaners[c])
  }

  predicate Finalized(db: Db, id: Id) {
    id in db.uploads && db.uploads[id].finalizedAt.Some?
  }

  /** Births are exactly the finalized uploads, each once; purges those of them whose asset row is gone. */
  ghost predicate HistoryOk(s: System) {
    && Distinct(s.births) && (forall id :: id in s.births <==> Finalized(s.db, id))
    && forall account, id :: (account, id) in s.purges
         <==> Finalized(s.db, id) && s.db.uploads[id].account == account && id !in s.db.t.assets
  }

  ghost predicate Inv(s: System) {
    RowsOk(s.db) && ProcessesOk(s) && HistoryOk(s)
  }

  // ---- every step keeps it ----------------------------------------------------

  /** An upload keeps everything but its stamps, and stays finalized. */
  predicate UploadEvolves(db: Db, db': Db, id: Id) {
    id in db.uploads ==>
      && id in db'.uploads
      && db'.uploads[id]
         == db.uploads[id].(finalizedAt := db'.uploads[id].finalizedAt, sweptAt := db'.uploads[id].sweptAt)
      && (db.uploads[id].finalizedAt.Some? ==> db'.uploads[id].finalizedAt == db.uploads[id].finalizedAt)
  }

  /** No asset of a finalized upload is new, changes hands, or loses its deletion mark. */
  predicate AssetEvolves(db: Db, db': Db, a: Id) {
    a in db'.t.assets && Finalized(db, a) ==>
      && a in db.t.assets && db'.t.assets[a].account == db.t.assets[a].account
      && (db.t.assets[a].deletedAt.Some? ==> db'.t.assets[a].deletedAt.Some?)
  }

  /** How any step may change the rows. */
  ghost predicate Evolves(db: Db, db': Db) {
    (forall id :: UploadEvolves(db, db', id)) && forall a :: AssetEvolves(db, db', a)
  }

  lemma CommitEvolves(db: Db, account: Id, upload: Id, v: VaultRecord, now: int, id: Id)
    ensures UploadEvolves(db, Finalize(db, account, upload, v, now).1, id)
    ensures AssetEvolves(db, Finalize(db, account, upload, v, now).1, id)
  {
  }

  lemma SettleEvolves(s: System, p: Cleaner, id: Id)
    requires !p.Resting? && p.left != []
    ensures UploadEvolves(s.db, RowSettled(s, p).db, id)
    ensures AssetEvolves(s.db, RowSettled(s, p).db, id)
  {
  }

  lemma StepEvolves(grace: int, s: System, step: Step)
    requires Enabled(grace, s, step)
    ensures Evolves(s.db, Apply(grace, s, step).db)
  {
    var db' := Apply(grace, s, step).db;
    forall id ensures UploadEvolves(s.db, db', id) && AssetEvolves(s.db, db', id) {
      if step.Commit? {
        var p := s.finalizers[step.f];
        CommitEvolves(s.db, p.account, p.upload, step.v, s.now, id);
      } else if step.SettleRow? {
        SettleEvolves(s, s.cleaners[step.c], id);
      }
    }
  }

  lemma FinalizerStays(db: Db, db': Db, p: Finalizer)
    requires Evolves(db, db') && FinalizerOk(db, p)
    ensures FinalizerOk(db', p)
  {
    if !p.Waiting? { assert UploadEvolves(db, db', p.upload); }
  }

  lemma CleanerStays(db: Db, db': Db, p: Cleaner)
    requires Evolves(db, db') && CleanerOk(db, p)
    ensures CleanerOk(db', p)
  {
    if !p.Resting? {
      forall e | e in p.left ensures EntryOk(db', p.PurgePass?, e) {
        assert EntryOk(db, p.PurgePass?, e) && UploadEvolves(db, db', e.0) && AssetEvolves(db, db', e.0);
      }
    }
  }

  lemma CleanerShrinks(db: Db, p: Cleaner, gone: bool)
    requires CleanerOk(db, p) && !p.Resting? && p.left != []
    ensures CleanerOk(db, p.(left := p.left[1..], gone := gone)) && EntryOk(db, p.PurgePass?, p.left[0])
  {
    assert p.left[0] in p.left;
    assert forall e | e in p.left[1..] :: e in p.left;
  }

  lemma CommitKeepsRows(db: Db, account: Id, upload: Id, v: VaultRecord, now: int)
    requires RowsOk(db) && OwnsUpload(db, account, upload) && db.uploads[upload].rendition.None?
    ensures RowsOk(Finalize(db, account, upload, v, now).1)
  {
    var db' := Finalize(db, account, upload, v, now).1;
    forall id | id in db'.uploads ensures UploadOk(id, db'.uploads[id]) {
      assert UploadOk(id, db.uploads[id]);
    }
    forall a | a in db'.t.assets ensures AssetOk(db', a) {
      if a in db.t.assets { assert AssetOk(db, a); }
    }
  }

  lemma SettleKeepsRows(s: System, p: Cleaner)
    requires RowsOk(s.db) && !p.Resting? && p.left != []
    ensures RowsOk(RowSettled(s, p).db)
  {
    var db' := RowSettled(s, p).db;
    forall id | id in db'.uploads ensures UploadOk(id, db'.uploads[id]) {
      assert UploadOk(id, s.db.uploads[id]);
    }
    forall a | a in db'.t.assets ensures AssetOk(db', a) {
      assert AssetOk(s.db, a);
    }
  }

  lemma RowsStay(grace: int, s: System, step: Step)
    requires Inv(s) && Enabled(grace, s, step)
    ensures RowsOk(Apply(grace, s, step).db)
  {
    if step.Commit? {
      var p := s.finalizers[step.f];
      assert FinalizerOk(s.db, p);
      CommitKeepsRows(s.db, p.account, p.upload, step.v, s.now);
    } else if step.SettleRow? {
      SettleKeepsRows(s, s.cleaners[step.c]);
    } else {
      OthersKeepRows(grace, s, step);
    }
  }

  lemma OthersKeepRows(grace: int, s: System, step: Step)
    requires RowsOk(s.db) && Enabled(grace, s, step) && !step.Commit? && !step.SettleRow?
    ensures RowsOk(Apply(grace, s, step).db)
  {
    var db' := Apply(grace, s, step).db;
    forall a | a in db'.t.assets ensures AssetOk(db', a) {
      assert AssetOk(s.db, a);
    }
  }

  lemma NewList(s: System, step: Step, grace: int)
    requires Inv(s) && Enabled(grace, s, step) && (step.SelectOrphans? || step.SelectDeleted?)
    ensures CleanerOk(s.db, Apply(grace, s, step).cleaners[step.c])
  {
    if step.SelectDeleted? {
      forall id | id in step.ids ensures AssetOk(s.db, id) { }
    }
  }

  lemma ProcessesStay(grace: int, s: System, step: Step)
    requires Inv(s) && Enabled(grace, s, step)
    ensures ProcessesOk(Apply(grace, s, step))
  {
    var s' := Apply(grace, s, step);
    StepEvolves(grace, s, step);
    forall f | 0 <= f < |s'.finalizers| ensures FinalizerOk(s'.db, s'.finalizers[f]) {
      assert FinalizerOk(s.db, s.finalizers[f]);
      FinalizerStays(s.db, s'.db, s.finalizers[f]);
    }
    forall c | 0 <= c < |s'.cleaners| ensures CleanerOk(s'.db, s'.cleaners[c]) {
      assert CleanerOk(s.db, s.cleaners[c]);
      CleanerStays(s.db, s'.db, s.cleaners[c]);
      if (step.SelectOrphans? || step.SelectDeleted?) && step.c == c {
        NewList(s, step, grace);
      } else if Cleaning(s, c) {
        CleanerShrinks(s'.db, s.cleaners[c], false);
      }
    }
  }

  lemma HistoryStays(grace: int, s: System, step: Step)
    requires Inv(s) && Enabled(grace, s, step)
    ensures HistoryOk(Apply(grace, s, step))
  {
    if step.Commit? {
      CommitIsBirth(grace, s, step);
    } else if step.SettleRow? {
      assert CleanerOk(s.db, s.cleaners[step.c]);
      CleanerShrinks(s.db, s.cleaners[step.c], false);
      SettleIsPurge(grace, s, step);
    }
  }

  lemma CommitIsBirth(grace: int, s: System, step: Step)
    requires Inv(s) && Enabled(grace, s, step) && step.Commit?
    ensures HistoryOk(Apply(grace, s, step))
  {
    assert FinalizerOk(s.db, s.finalizers[step.f]);
    var s', u := Apply(grace, s, step), s.finalizers[step.f].upload;
    assert u in s.db.t.assets ==> AssetOk(s.db, u);
    assert s'.births == s.births || (s'.births == s.births + [u] && u !in s.births);
    assert forall id :: id in s.births + [u] <==> id in s.births || id == u;
  }

  lemma SettleIsPurge(grace: int, s: System, step: Step)
    requires Inv(s) && Enabled(grace, s, step) && step.SettleRow?
    requires EntryOk(s.db, s.cleaners[step.c].PurgePass?, s.cleaners[step.c].left[0])
    ensures HistoryOk(Apply(grace, s, step))
  {
    var s', id := Apply(grace, s, step), s.cleaners[step.c].left[0].0;
    assert id in s.db.t.assets ==> AssetOk(s.db, id);
    assert forall x :: Finalized(s'.db, x) <==> Finalized(s.db, x);
  }

  lemma StepKeepsInv(grace: int, s: System, step: Step)
    requires Inv(s) && Enabled(grace, s, step)
    ensures Inv(Apply(grace, s, step)) && Evolves(s.db, Apply(grace, s, step).db)
  {
    StepEvolves(grace, s, step);
    RowsStay(grace, s, step);
    ProcessesStay(grace, s, step);
    HistoryStays(grace, s, step);
  }

  lemma {:induction false} RunKeepsInv(grace: int, prompt: bool, s: System, steps: seq<Step>)
    requires Init(s) && Legal(grace, prompt, s, steps)
    ensures Inv(After(grace, prompt, s, steps))
  {
    if steps != [] {
      RunKeepsInv(grace, prompt, s, steps[..|steps| - 1]);
      StepKeepsInv(grace, After(grace, prompt, s, steps[..|steps| - 1]), steps[|steps| - 1]);
    }
  }

  // ---- what follows -------------------------------------------------------------

  /** Retried and racing finalizes create at most one asset per upload, however often they commit. */
  lemma OneAssetPerUpload(grace: int, s: System, steps: seq<Step>, i: nat, j: nat)
    requires Init(s) && Legal(grace, false, s, steps)
    requires i < j < |After(grace, false, s, steps).births|
    ensures After(grace, false, s, steps).births[i] != After(grace, false, s, steps).births[j]
  {
    RunKeepsInv(grace, false, s, steps);
  }

  /** The purged test equals history: it holds exactly of the ids that were this account's asset and were purged. */
  lemma PurgedTestIsHistory(grace: int, s: System, steps: seq<Step>, account: Id, id: Id)
    requires Init(s) && Legal(grace, false, s, steps)
    ensures PurgedId(After(grace, false, s, steps).db, account, id)
       <==> (account, id) in After(grace, false, s, steps).purges
  {
    RunKeepsInv(grace, false, s, steps);
    var db := After(grace, false, s, steps).db;
    assert id in db.uploads ==> UploadOk(id, db.uploads[id]);
  }

  /** Another account's id is refused, in every reachable state. */
  lemma ForeignIsRefused(grace: int, s: System, steps: seq<Step>, account: Id, other: Id, id: Id)
    requires Init(s) && Legal(grace, false, s, steps)
    requires account != other && OwnsUpload(After(grace, false, s, steps).db, other, id)
    ensures Classify(After(grace, false, s, steps).db, account, id) == RefusedId
  {
    RunKeepsInv(grace, false, s, steps);
    var db := After(grace, false, s, steps).db;
    assert id in db.t.assets ==> AssetOk(db, id);
  }

  function Rank(c: Class): nat {
    match c
    case RefusedId => 0
    case LiveId => 1
    case GoneId => 2
  }

  /** In a consistent state the class says it all: never this account's asset, its asset still, or its asset once. */
  lemma ClassIsStage(s: System, account: Id, id: Id)
    requires Inv(s)
    ensures Classify(s.db, account, id) ==
      if !Finalized(s.db, id) || s.db.uploads[id].account != account then RefusedId
      else if id in s.db.t.assets && s.db.t.assets[id].deletedAt.None? then LiveId
      else GoneId
  {
    if id in s.db.uploads { assert UploadOk(id, s.db.uploads[id]); }
    if id in s.db.t.assets { assert AssetOk(s.db, id); }
  }

  lemma NewlyFinalizedIsLive(grace: int, s: System, step: Step, id: Id)
    requires Enabled(grace, s, step) && !Finalized(s.db, id) && Finalized(Apply(grace, s, step).db, id)
    ensures id in Apply(grace, s, step).db.t.assets && Apply(grace, s, step).db.t.assets[id].deletedAt.None?
  {
  }

  lemma ClassMovesOn(grace: int, s: System, step: Step, account: Id, id: Id)
    requires Inv(s) && Enabled(grace, s, step)
    ensures Rank(Classify(s.db, account, id)) <= Rank(Classify(Apply(grace, s, step).db, account, id))
         <= Rank(Classify(s.db, account, id)) + 1
  {
    var s' := Apply(grace, s, step);
    StepKeepsInv(grace, s, step);
    ClassIsStage(s, account, id);
    ClassIsStage(s', account, id);
    assert UploadEvolves(s.db, s'.db, id) && AssetEvolves(s.db, s'.db, id);
    if !Finalized(s.db, id) && Finalized(s'.db, id) {
      NewlyFinalizedIsLive(grace, s, step, id);
    }
  }

  /** Refused may become live, live may become gone, and nothing ever moves back: no continuation of any run
      resurrects an id. */
  lemma {:induction false} ClassNeverMovesBack(grace: int, s: System, steps: seq<Step>, more: seq<Step>,
                                               account: Id, id: Id)
    requires Init(s) && Legal(grace, false, s, steps) && Legal(grace, false, s, steps + more)
    ensures Rank(Classify(After(grace, false, s, steps).db, account, id))
         <= Rank(Classify(After(grace, false, s, steps + more).db, account, id))
    decreases |more|
  {
    if more == [] {
      assert steps + more == steps;
    } else {
      var before, last := more[..|more| - 1], more[|more| - 1];
      assert (steps + more)[..|steps + more| - 1] == steps + before;
      ClassNeverMovesBack(grace, s, steps, before, account, id);
      RunKeepsInv(grace, false, s, steps + before);
      ClassMovesOn(grace, After(grace, false, s, steps + before), last, account, id);
    }
  }
}
