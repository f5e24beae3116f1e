/** The sweeps never take a live asset's bytes, provided no finalize commits after the grace window. */
module LifecycleBytes {
  import opened Contract
  import opened Records
  import opened AssetStore
  import opened Lifecycle
  import opened LifecycleHistory
  import Keys

  // ---- the safety invariant -------------------------------------------------

  predicate Old(grace: int, s: System, id: Id) {
    id in s.db.uploads && s.db.uploads[id].created < s.now - grace
  }

  predicate LiveAsset(db: Db, a: Id) {
    a in db.t.assets && db.t.assets[a].deletedAt.None?
  }

  /** An orphan pass only holds old uploads that nobody has finalized. */
  predicate ListedSafely(grace: int, s: System, p: Cleaner) {
    p.OrphanPass? ==> forall e | e in p.left :: Old(grace, s, e.0) && s.db.uploads[e.0].finalizedAt.None?
  }

  /** What a finalizer saw in storage is still there, or its commit will not come to anything. */
  predicate SeenSafely(grace: int, s: System, p: Finalizer) {
    p.Headed? && p.upload in s.db.uploads ==>
      || s.db.uploads[p.upload].key in s.objects
      || Old(grace, s, p.upload) || s.db.uploads[p.upload].finalizedAt.Some?
  }

  predicate HasBytes(s: System, a: Id) {
    LiveAsset(s.db, a) ==> s.db.t.assets[a].vaultKey in s.objects
  }

  predicate NotBoth(db: Db, id: Id) {
    id in db.uploads ==> db.uploads[id].finalizedAt.None? || db.uploads[id].sweptAt.None?
  }

  ghost predicate Safe(grace: int, s: System) {
    && (forall c | 0 <= c < |s.cleaners| :: ListedSafely(grace, s, s.cleaners[c]))
    && (forall f | 0 <= f < |s.finalizers| :: SeenSafely(grace, s, s.finalizers[f]))
    && (forall a :: HasBytes(s, a))
    && forall id :: NotBoth(s.db, id)
  }

  /** A brokered upload shares its key with no other upload. */
  lemma KeyIsOwn(db: Db, id: Id, other: Id)
    requires RowsOk(db) && id in db.uploads && other in db.uploads && db.uploads[id].rendition.None?
    requires db.uploads[id].key == db.uploads[other].key
    ensures id == other
  {
    var up, up' := db.uploads[id], db.uploads[other];
    assert UploadOk(id, up) && UploadOk(other, up');
    match up'.rendition
    case None => Keys.VaultKeyInjective(up.account, id, up'.account, other);
    case Some((a, i)) => Keys.KeySpacesDisjoint(up.account, id, "", "", up'.account, a, IntentName(i));
  }

  lemma FirstEntry(s: System, c: nat)
    requires Inv(s) && Cleaning(s, c)
    ensures EntryOk(s.db, s.cleaners[c].PurgePass?, s.cleaners[c].left[0])
    ensures s.cleaners[c].left[0] in s.cleaners[c].left
  {
    assert CleanerOk(s.db, s.cleaners[c]);
  }

  /** The object a pass deletes belongs to no live asset. */
  lemma DeletedKeyIsNotLive(grace: int, s: System, c: nat, a: Id)
    requires Inv(s) && Safe(grace, s) && Cleaning(s, c) && LiveAsset(s.db, a)
    ensures s.db.t.assets[a].vaultKey != s.cleaners[c].left[0].1
  {
    FirstEntry(s, c);
    assert AssetOk(s.db, a) && ListedSafely(grace, s, s.cleaners[c]);
    if s.db.t.assets[a].vaultKey == s.cleaners[c].left[0].1 {
      KeyIsOwn(s.db, a, s.cleaners[c].left[0].0);
    }
  }

  lemma BytesStay(grace: int, s: System, step: Step, a: Id)
    requires Inv(s) && Safe(grace, s) && Enabled(grace, s, step) && !LateCommit(grace, s, step)
    ensures HasBytes(Apply(grace, s, step), a)
  {
    assert HasBytes(s, a);
    if step.DeleteObject? && LiveAsset(s.db, a) {
      DeletedKeyIsNotLive(grace, s, step.c, a);
    } else if step.Commit? {
      assert SeenSafely(grace, s, s.finalizers[step.f]) && FinalizerOk(s.db, s.finalizers[step.f]);
    }
  }

  lemma SweptIsUnfinalized(grace: int, s: System, step: Step, id: Id)
    requires Inv(s) && Safe(grace, s) && Enabled(grace, s, step)
    ensures NotBoth(Apply(grace, s, step).db, id)
  {
    assert NotBoth(s.db, id);
    if step.SettleRow? {
      FirstEntry(s, step.c);
      assert ListedSafely(grace, s, s.cleaners[step.c]);
    }
  }

  /** A finalizer that saw its object keeps it, unless a pass takes it, and then its upload is old or finalized. */
  lemma SightStays(grace: int, s: System, step: Step, p: Finalizer)
    requires Inv(s) && Safe(grace, s) && Enabled(grace, s, step)
    requires SeenSafely(grace, s, p) && FinalizerOk(s.db, p)
    ensures SeenSafely(grace, Apply(grace, s, step), p)
  {
    StepEvolves(grace, s, step);
    if p.Headed? {
      assert UploadEvolves(s.db, Apply(grace, s, step).db, p.upload);
      if step.DeleteObject? {
        FirstEntry(s, step.c);
        assert ListedSafely(grace, s, s.cleaners[step.c]);
        var e := s.cleaners[step.c].left[0];
        if e.1 == s.db.uploads[p.upload].key {
          KeyIsOwn(s.db, p.upload, e.0);
        }
      }
    }
  }

  lemma ListStays(grace: int, s: System, step: Step, p: Cleaner)
    requires Inv(s) && Enabled(grace, s, step) && !LateCommit(grace, s, step)
    requires ListedSafely(grace, s, p) && CleanerOk(s.db, p)
    ensures ListedSafely(grace, Apply(grace, s, step), p)
  {
    StepEvolves(grace, s, step);
    var s' := Apply(grace, s, step);
    if p.OrphanPass? {
      forall e | e in p.left ensures Old(grace, s', e.0) && s'.db.uploads[e.0].finalizedAt.None? {
        assert Old(grace, s, e.0) && UploadEvolves(s.db, s'.db, e.0);
      }
    }
  }

  lemma NewListIsSafe(grace: int, s: System, step: Step)
    requires Enabled(grace, s, step) && step.SelectOrphans?
    ensures ListedSafely(grace, s, Apply(grace, s, step).cleaners[step.c])
  {
  }

  lemma StepKeepsSafe(grace: int, s: System, step: Step)
    requires Inv(s) && Safe(grace, s) && Enabled(grace, s, step) && !LateCommit(grace, s, step)
    ensures Safe(grace, Apply(grace, s, step))
  {
    var s' := Apply(grace, s, step);
    forall a ensures HasBytes(s', a) { BytesStay(grace, s, step, a); }
    forall id ensures NotBoth(s'.db, id) { SweptIsUnfinalized(grace, s, step, id); }
    forall f | 0 <= f < |s'.finalizers| ensures SeenSafely(grace, s', s'.finalizers[f]) {
      assert SeenSafely(grace, s, s.finalizers[f]) && FinalizerOk(s.db, s.finalizers[f]);
      SightStays(grace, s, step, s.finalizers[f]);
    }
    forall c | 0 <= c < |s'.cleaners| ensures ListedSafely(grace, s', s'.cleaners[c]) {
      assert ListedSafely(grace, s, s.cleaners[c]) && CleanerOk(s.db, s.cleaners[c]);
      ListStays(grace, s, step, s.cleaners[c]);
      if step.SelectOrphans? && step.c == c { NewListIsSafe(grace, s, step); }
    }
  }

  lemma {:induction false} RunKeepsSafe(grace: int, s: System, steps: seq<Step>)
    requires Init(s) && Legal(grace, true, s, steps)
    ensures Inv(After(grace, true, s, steps)) && Safe(grace, After(grace, true, s, steps))
  {
    RunKeepsInv(grace, true, s, steps);
    if steps != [] {
      RunKeepsSafe(grace, s, steps[..|steps| - 1]);
      StepKeepsSafe(grace, After(grace, true, s, steps[..|steps| - 1]), steps[|steps| - 1]);
    }
  }

  /** Finalize against the sweeps: in a run with no late commit every asset not deleted still has its bytes, and no
      upload is both finalized and swept. */
  lemma LiveAssetsKeepTheirBytes(grace: int, s: System, steps: seq<Step>, a: Id)
    requires Init(s) && Legal(grace, true, s, steps)
    ensures
      var end := After(grace, true, s, steps);
      && (LiveAsset(end.db, a) ==> end.db.t.assets[a].vaultKey in end.objects)
      && (a in end.db.uploads && end.db.uploads[a].finalizedAt.Some? ==> end.db.uploads[a].sweptAt.None?)
  {
    RunKeepsSafe(grace, s, steps);
    assert HasBytes(After(grace, true, s, steps), a) && NotBoth(After(grace, true, s, steps).db, a);
  }

  // ---- exactly when the properties are lost -------------------------------------------

  lemma DeletionTakesBytesIff(grace: int, s: System, c: nat)
    requires Inv(s) && (forall a :: HasBytes(s, a)) && Enabled(grace, s, DeleteObject(c, true))
    ensures (exists a :: !HasBytes(Apply(grace, s, DeleteObject(c, true)), a))
       <==> s.cleaners[c].OrphanPass? && LiveAsset(s.db, s.cleaners[c].left[0].0)
  {
    FirstEntry(s, c);
    var s', e := Apply(grace, s, DeleteObject(c, true)), s.cleaners[c].left[0];
    if s.cleaners[c].OrphanPass? && LiveAsset(s.db, e.0) {
      assert AssetOk(s.db, e.0);
      assert !HasBytes(s', e.0);
    }
    forall a | !HasBytes(s', a) ensures s.cleaners[c].OrphanPass? && LiveAsset(s.db, e.0) {
      assert HasBytes(s, a) && AssetOk(s.db, a);
      KeyIsOwn(s.db, a, e.0);
    }
  }

  /** This commit makes an asset of its upload. */
  predicate Creates(s: System, f: nat, v: VaultRecord)
    requires Finalizing(s, f) && s.finalizers[f].Headed?
  {
    Finalize(s.db, s.finalizers[f].account, s.finalizers[f].upload, v, s.now).0.Created?
  }

  /** The two ways to a live asset without bytes: an orphan pass deletes the object of an upload finalized since it was
      listed, or a commit makes an asset of an upload whose object is already gone. */
  predicate LosesBytes(grace: int, s: System, step: Step)
    requires Enabled(grace, s, step)
  {
    match step
    case DeleteObject(c, ok) => ok && s.cleaners[c].OrphanPass? && LiveAsset(s.db, s.cleaners[c].left[0].0)
    case Commit(f, v) =>
      var u := s.finalizers[f].upload;
      Creates(s, f, v) && u in s.db.uploads && s.db.uploads[u].key !in s.objects
    case _ => false
  }

  /** The one way to an upload both finalized and swept: an orphan pass stamps a row finalized since it was listed. */
  predicate StampsFinalized(grace: int, s: System, step: Step)
    requires Enabled(grace, s, step)
  {
    step.SettleRow? && step.ok && s.cleaners[step.c].OrphanPass? && Finalized(s.db, s.cleaners[step.c].left[0].0)
  }

  lemma OthersKeepBytes(grace: int, s: System, step: Step, a: Id)
    requires Enabled(grace, s, step) && HasBytes(s, a) && !LosesBytes(grace, s, step) && !step.DeleteObject?
    ensures HasBytes(Apply(grace, s, step), a)
  {
  }

  /** With no assumption at all: one step leaves some live asset without bytes if and only if it is one of those two. */
  lemma BytesLostIff(grace: int, s: System, step: Step)
    requires Inv(s) && (forall a :: HasBytes(s, a)) && Enabled(grace, s, step)
    ensures (exists a :: !HasBytes(Apply(grace, s, step), a)) <==> LosesBytes(grace, s, step)
  {
    var s' := Apply(grace, s, step);
    if step.DeleteObject? {
      if step.ok {
        DeletionTakesBytesIff(grace, s, step.c);
      } else {
        assert forall a :: HasBytes(s', a) == HasBytes(s, a);
      }
    } else if LosesBytes(grace, s, step) {
      assert !HasBytes(s', s.finalizers[step.f].upload);
    } else {
      forall a ensures HasBytes(s', a) { OthersKeepBytes(grace, s, step, a); }
    }
  }

  lemma OthersKeepApart(grace: int, s: System, step: Step, id: Id)
    requires Enabled(grace, s, step) && NotBoth(s.db, id) && !StampsFinalized(grace, s, step)
    ensures NotBoth(Apply(grace, s, step).db, id)
  {
  }

  /** And one step leaves some upload both finalized and swept if and only if it stamps a finalized row. */
  lemma BothStampsIff(grace: int, s: System, step: Step)
    requires Inv(s) && (forall id :: NotBoth(s.db, id)) && Enabled(grace, s, step)
    ensures (exists id :: !NotBoth(Apply(grace, s, step).db, id)) <==> StampsFinalized(grace, s, step)
  {
    var s' := Apply(grace, s, step);
    if StampsFinalized(grace, s, step) {
      FirstEntry(s, step.c);
      assert !NotBoth(s'.db, s.cleaners[step.c].left[0].0);
    } else {
      forall id ensures NotBoth(s'.db, id) { OthersKeepApart(grace, s, step, id); }
    }
  }

  /** Every live asset has its bytes, and no upload is both finalized and swept. */
  ghost predicate Whole(s: System) {
    (forall a :: HasBytes(s, a)) && forall id :: NotBoth(s.db, id)
  }

  ghost predicate AlwaysWhole(grace: int, s: System, steps: seq<Step>)
    requires Legal(grace, false, s, steps)
  {
    Whole(After(grace, false, s, steps)) && (steps == [] || AlwaysWhole(grace, s, steps[..|steps| - 1]))
  }

  ghost predicate Harmless(grace: int, s: System, steps: seq<Step>)
    requires Legal(grace, false, s, steps)
  {
    steps == [] ||
    (var before, last := steps[..|steps| - 1], steps[|steps| - 1];
     && Harmless(grace, s, before)
     && !LosesBytes(grace, After(grace, false, s, before), last)
     && !StampsFinalized(grace, After(grace, false, s, before), last))
  }

  /** Over whole runs, exactly: both properties hold all along if and only if no step is one of the three. */
  lemma {:induction false} RunsAreWholeIff(grace: int, s: System, steps: seq<Step>)
    requires Init(s) && Legal(grace, false, s, steps)
    ensures AlwaysWhole(grace, s, steps) <==> Harmless(grace, s, steps)
  {
    if steps != [] {
      var before, last := steps[..|steps| - 1], steps[|steps| - 1];
      var mid := After(grace, false, s, before);
      RunsAreWholeIff(grace, s, before);
      RunKeepsInv(grace, false, s, before);
      if AlwaysWhole(grace, s, before) {
        assert Whole(mid);
        BytesLostIff(grace, mid, last);
        BothStampsIff(grace, mid, last);
      }
    }
  }

  // ---- the assumption is needed ---------------------------------------------------------

  const DEMO_UPLOAD := Upload("acct", "vault/acct/u", "image/png", false, None, 0, None, None)
  const DEMO_RECORD := VaultRecord(Image, "", false, 1, None, None)

  function DemoState(now: int, uploads: map<Id, Upload>, assets: map<Id, Asset>, objects: set<string>,
                     f: Finalizer, c: Cleaner, births: seq<Id>): System {
    System(now, Db({"acct"}, uploads, Tables(assets, map[], map[]), map[], map[]), objects, [f], [c], births, {})
  }

  /** A finalize checks the object, stalls past the grace window, and commits between the sweep's listing and delete. */
  function DemoTrace(grace: nat, n: nat): (System, Step)
    requires n <= 8
  {
    var late := grace + 1;
    var begun, done := map["u" := DEMO_UPLOAD], map["u" := DEMO_UPLOAD.(finalizedAt := Some(late))];
    var asset := map["u" := FinalizedAsset(DEMO_UPLOAD, DEMO_RECORD, late)];
    var listed, gone := OrphanPass([("u", "vault/acct/u")], false), OrphanPass([("u", "vault/acct/u")], true);
    match n
    case 0 => (DemoState(0, map[], map[], {}, Waiting, Resting, []), CreateUpload("u", DEMO_UPLOAD))
    case 1 => (DemoState(0, begun, map[], {}, Waiting, Resting, []), PutObject("vault/acct/u"))
    case 2 => (DemoState(0, begun, map[], {"vault/acct/u"}, Waiting, Resting, []), Read(0, "acct", "u"))
    case 3 => (DemoState(0, begun, map[], {"vault/acct/u"}, Checked("acct", "u"), Resting, []), Head(0))
    case 4 => (DemoState(0, begun, map[], {"vault/acct/u"}, Headed("acct", "u"), Resting, []), Tick(late))
    case 5 =>
      (DemoState(late, begun, map[], {"vault/acct/u"}, Headed("acct", "u"), Resting, []), SelectOrphans(0, ["u"], 1))
    case 6 => (DemoState(late, begun, map[], {"vault/acct/u"}, Headed("acct", "u"), listed, []), Commit(0, DEMO_RECORD))
    case 7 => (DemoState(late, done, asset, {"vault/acct/u"}, Waiting, listed, ["u"]), DeleteObject(0, true))
    case 8 => (DemoState(late, done, asset, {}, Waiting, gone, ["u"]), SettleRow(0, true))
  }

  lemma DemoStart(grace: nat)
    ensures Enabled(grace, DemoTrace(grace, 0).0, DemoTrace(grace, 0).1)
    ensures Apply(grace, DemoTrace(grace, 0).0, DemoTrace(grace, 0).1) == DemoTrace(grace, 1).0
  {
    assert Keys.VaultKey("acct", "u") == "vault/acct/u";
  }

  lemma DemoStep(grace: nat, n: nat)
    requires 0 < n < 8
    ensures Enabled(grace, DemoTrace(grace, n).0, DemoTrace(grace, n).1)
    ensures Apply(grace, DemoTrace(grace, n).0, DemoTrace(grace, n).1) == DemoTrace(grace, n + 1).0
  {
    if n == 5 {
      assert UploadKeys(DemoTrace(grace, 5).0.db, ["u"]) == [("u", "vault/acct/u")];
    }
  }

  lemma {:induction false} DemoRun(grace: nat, n: nat) returns (steps: seq<Step>)
    requires n <= 8
    ensures Legal(grace, false, DemoTrace(grace, 0).0, steps)
    ensures After(grace, false, DemoTrace(grace, 0).0, steps) == DemoTrace(grace, n).0
  {
    steps := [];
    if n > 0 {
      var before := DemoRun(grace, n - 1);
      if n == 1 { DemoStart(grace); } else { DemoStep(grace, n - 1); }
      steps := before + [DemoTrace(grace, n - 1).1];
      assert steps[..|steps| - 1] == before;
    }
  }

  /** For every grace window a stalled finalize can lose the race: a live asset without bytes, its upload both
      finalized and swept. */
  lemma LateCommitLosesBytes(grace: nat) returns (s: System, steps: seq<Step>)
    ensures Init(s) && Legal(grace, false, s, steps)
    ensures
      var end := After(grace, false, s, steps);
      && LiveAsset(end.db, "u") && end.db.t.assets["u"].vaultKey !in end.objects
      && !NotBoth(end.db, "u")
  {
    s := DemoTrace(grace, 0).0;
    var before := DemoRun(grace, 8);
    steps := before + [SettleRow(0, true)];
    assert steps[..|steps| - 1] == before;
  }

  lemma DeleteFirst(grace: nat)
    ensures Enabled(grace, DemoTrace(grace, 6).0, DeleteObject(0, true))
    ensures
      var deleted := Apply(grace, DemoTrace(grace, 6).0, DeleteObject(0, true));
      && Enabled(grace, deleted, Commit(0, DEMO_RECORD))
      && var end := Apply(grace, deleted, Commit(0, DEMO_RECORD));
         LiveAsset(end.db, "u") && end.db.t.assets["u"].vaultKey !in end.objects
  {
    var deleted := Apply(grace, DemoTrace(grace, 6).0, DeleteObject(0, true));
    assert deleted.objects == {} && deleted.finalizers[0] == Headed("acct", "u");
  }

  /** The other order loses them too: the object goes first, and the commit then makes an asset of nothing. */
  lemma CommitAfterDeleteLosesBytes(grace: nat) returns (s: System, steps: seq<Step>)
    ensures Init(s) && Legal(grace, false, s, steps) && steps != [] && steps[|steps| - 1].Commit?
    ensures
      var end := After(grace, false, s, steps);
      LiveAsset(end.db, "u") && end.db.t.assets["u"].vaultKey !in end.objects
  {
    s := DemoTrace(grace, 0).0;
    var before := DemoRun(grace, 6);
    DeleteFirst(grace);
    var mid := before + [DeleteObject(0, true)];
    assert mid[..|mid| - 1] == before;
    steps := mid + [Commit(0, DEMO_RECORD)];
    assert steps[..|steps| - 1] == mid;
  }
}
