/** Account isolation as a two-run property: what an account is told, and may change, depends on its own rows only. */
module AccountScope {
  import opened Contract
  import opened Records
  import opened AssetStore
  import opened JobQueue
  import opened TokenApi

  // ---- one account's rows -----------------------------------------------------

  /** The rows of one table that are one account's. */
  function Mine<R>(rows: map<Id, R>, owner: R -> Id, account: Id): map<Id, R> {
    map k | k in rows && owner(rows[k]) == account :: rows[k]
  }

  function UploadOwner(row: Upload): Id { row.account }

  function AssetOwner(row: Asset): Id { row.account }

  function JobOwner(row: Job): Id { row.account }

  function ShareOwner(row: Share): Id { row.account }

  /** The database as it would be with nobody else in it. */
  function View(db: Db, account: Id): Db {
    Db(db.accounts * {account}, Mine(db.uploads, UploadOwner, account),
       Tables(Mine(db.t.assets, AssetOwner, account), Mine(db.t.jobs, JobOwner, account), MyRenditions(db.t, account)),
       Mine(db.grants, ShareOwner, account), Mine(db.exports, ShareOwner, account))
  }

  function MyRenditions(t: Tables, account: Id): map<(Id, Intent), Rendition> {
    map r | r in t.renditions && r.0 in t.assets && t.assets[r.0].account == account :: t.renditions[r]
  }

  /** An asset is its own account's finalized original upload, rendition rows belong to assets, jobs to assets of their
      account, and an authored file is for an asset its account brokered. */
  ghost predicate Consistent(db: Db) {
    && (forall a | a in db.t.assets :: OwnsUpload(db, db.t.assets[a].account, a) && db.uploads[a].finalizedAt.Some?)
    && (forall r | r in db.t.renditions :: r.0 in db.t.assets)
    && (forall j | j in db.t.jobs :: Owns(db, db.t.jobs[j].account, db.t.jobs[j].asset))
    && forall u | u in db.uploads && db.uploads[u].rendition.Some? ::
         OwnsUpload(db, db.uploads[u].account, db.uploads[u].rendition.value.0)
  }

  predicate Unused(db: Db, id: Id) {
    id !in db.uploads && id !in db.t.assets && id !in db.t.jobs && id !in db.grants && id !in db.exports
  }

  // ---- reads agree ----------------------------------------------------------------

  lemma ViewReads(db: Db, account: Id, id: Id)
    ensures
      var mine := View(db, account);
      && (Owns(mine, account, id) <==> Owns(db, account, id)) && (id in mine.t.assets <==> Owns(db, account, id))
      && (OwnsUpload(mine, account, id) <==> OwnsUpload(db, account, id))
      && (id in mine.uploads <==> OwnsUpload(db, account, id))
      && GetUpload(mine, account, id) == GetUpload(db, account, id)
      && GetJob(mine, account, id) == GetJob(db, account, id)
      && GetShare(mine.grants, account, id) == GetShare(db.grants, account, id)
      && GetShare(mine.exports, account, id) == GetShare(db.exports, account, id)
  {
  }

  lemma ViewAsset(db: Db, account: Id, id: Id)
    ensures GetAsset(View(db, account), account, id) == GetAsset(db, account, id)
    ensures Owns(db, account, id) ==> RenditionsFor(View(db, account).t, id) == RenditionsFor(db.t, id)
  {
    ViewReads(db, account, id);
    if Owns(db, account, id) {
      var mine, all := RenditionsFor(View(db, account).t, id), RenditionsFor(db.t, id);
      assert forall i :: i in mine <==> (id, i) in View(db, account).t.renditions;
      assert forall i :: i in all <==> (id, i) in db.t.renditions;
      assert mine == all;
    }
  }

  /** The purged test looks for the id in everybody's assets; an asset sharing its upload's account makes that safe. */
  lemma ViewClass(db: Db, account: Id, id: Id)
    requires Consistent(db)
    ensures Classify(View(db, account), account, id) == Classify(db, account, id)
  {
    ViewReads(db, account, id);
  }

  /** And exactly that: the purged test leaks another account's row precisely when an asset and its upload disagree. */
  lemma PurgedTestNeedsTheTie(db: Db, account: Id, id: Id)
    ensures (PurgedId(View(db, account), account, id) <==> PurgedId(db, account, id))
       <==> !(&& id in db.t.assets && db.t.assets[id].account != account
              && OwnsUpload(db, account, id) && db.uploads[id].finalizedAt.Some? && db.uploads[id].rendition.None?)
  {
    ViewReads(db, account, id);
  }

  lemma ViewClasses(db: Db, account: Id, ids: seq<Id>)
    requires Consistent(db)
    ensures AnyRefused(View(db, account), account, ids) <==> AnyRefused(db, account, ids)
    ensures LiveIds(View(db, account), account, ids) == LiveIds(db, account, ids)
    ensures GoneIds(View(db, account), account, ids) == GoneIds(db, account, ids)
    ensures ClassifyAssetSet(View(db, account), account, ids) == ClassifyAssetSet(db, account, ids)
  {
    forall id ensures Classify(View(db, account), account, id) == Classify(db, account, id) {
      ViewClass(db, account, id);
    }
    assert IdsOf(View(db, account), account, ids, LiveId) == IdsOf(db, account, ids, LiveId);
    assert IdsOf(View(db, account), account, ids, GoneId) == IdsOf(db, account, ids, GoneId);
  }

  lemma {:induction false} ViewPage(db: Db, account: Id, ids: seq<Id>)
    ensures Views(View(db, account), account, ids) == Views(db, account, ids)
  {
    if ids != [] {
      ViewAsset(db, account, ids[0]);
      ViewPage(db, account, ids[1..]);
    }
  }

  lemma ViewIsNewest(db: Db, account: Id, asset: Id, intent: Intent, j: Id)
    ensures
      var mine := View(db, account).t.jobs;
      (j in mine && IsNewest(mine, j, account, asset, intent)) ==
      (j in db.t.jobs && IsNewest(db.t.jobs, j, account, asset, intent))
  {
    var mine := View(db, account).t.jobs;
    assert forall k :: k in mine <==> k in db.t.jobs && db.t.jobs[k].account == account;
  }

  lemma ViewNewest(db: Db, account: Id, asset: Id, intent: Intent)
    ensures NewestJob(View(db, account).t.jobs, account, asset, intent) == NewestJob(db.t.jobs, account, asset, intent)
  {
    var mine := View(db, account).t.jobs;
    forall j
      ensures j in mine && IsNewest(mine, j, account, asset, intent)
         <==> j in db.t.jobs && IsNewest(db.t.jobs, j, account, asset, intent)
    {
      ViewIsNewest(db, account, asset, intent, j);
    }
    assert (set j | j in mine && IsNewest(mine, j, account, asset, intent))
        == (set j | j in db.t.jobs && IsNewest(db.t.jobs, j, account, asset, intent));
  }

  lemma NewestIsOwn(db: Db, account: Id, asset: Id, intent: Intent)
    requires NewestJob(db.t.jobs, account, asset, intent).Some?
    ensures
      var j := NewestJob(db.t.jobs, account, asset, intent).value;
      j in db.t.jobs && For(db.t.jobs[j], account, asset, intent)
  {
  }

  lemma ViewEnqueue(db: Db, account: Id, asset: Id, intent: Intent, out: Outside)
    ensures Enqueue(View(db, account), account, asset, intent, out) == Enqueue(db, account, asset, intent, out)
  {
    ViewNewest(db, account, asset, intent);
    if NewestJob(db.t.jobs, account, asset, intent).Some? { NewestIsOwn(db, account, asset, intent); }
  }

  // ---- writes stay at home ------------------------------------------------------------

  /** Every row written is the account's, and replaces none of another's. */
  predicate OwnTable<R>(rows: map<Id, R>, added: map<Id, R>, owner: R -> Id, account: Id) {
    forall k | k in added :: owner(added[k]) == account && (k in rows ==> owner(rows[k]) == account)
  }

  predicate OwnRows(db: Db, account: Id, rows: Db) {
    && rows.accounts <= {account}
    && OwnTable(db.uploads, rows.uploads, UploadOwner, account)
    && OwnTable(db.t.assets, rows.t.assets, AssetOwner, account)
    && OwnTable(db.t.jobs, rows.t.jobs, JobOwner, account)
    && OwnTable(db.grants, rows.grants, ShareOwner, account)
    && OwnTable(db.exports, rows.exports, ShareOwner, account)
    && forall r | r in rows.t.renditions :: Owns(Applied(db, rows), account, r.0)
  }

  lemma MineMerges<R>(rows: map<Id, R>, added: map<Id, R>, owner: R -> Id, account: Id, other: Id)
    requires OwnTable(rows, added, owner, account)
    ensures Mine(rows + added, owner, account) == Mine(rows, owner, account) + added
    ensures other != account ==> Mine(rows + added, owner, other) == Mine(rows, owner, other)
  {
  }

  lemma AppliedOwns(db: Db, account: Id, rows: Db, other: Id, a: Id)
    requires OwnRows(db, account, rows)
    ensures Owns(Applied(db, rows), account, a) <==> a in rows.t.assets || Owns(db, account, a)
    ensures other != account ==> (Owns(Applied(db, rows), other, a) <==> Owns(db, other, a))
  {
    assert a in rows.t.assets ==> AssetOwner(rows.t.assets[a]) == account;
    assert a in rows.t.assets && a in db.t.assets ==> AssetOwner(db.t.assets[a]) == account;
  }

  lemma RenditionMerge(db: Db, account: Id, rows: Db, other: Id, r: (Id, Intent))
    requires Consistent(db) && OwnRows(db, account, rows)
    ensures r in MyRenditions(Applied(db, rows).t, account) <==> r in MyRenditions(db.t, account) + rows.t.renditions
    ensures r in MyRenditions(Applied(db, rows).t, account) ==>
              MyRenditions(Applied(db, rows).t, account)[r] == (MyRenditions(db.t, account) + rows.t.renditions)[r]
    ensures other != account ==> (r in MyRenditions(Applied(db, rows).t, other) <==> r in MyRenditions(db.t, other))
    ensures other != account && r in MyRenditions(db.t, other) ==> r !in rows.t.renditions
  {
    AppliedOwns(db, account, rows, other, r.0);
    assert r in rows.t.renditions ==> Owns(Applied(db, rows), account, r.0);
  }

  lemma OwnRenditions(db: Db, account: Id, rows: Db)
    requires Consistent(db) && OwnRows(db, account, rows)
    ensures MyRenditions(Applied(db, rows).t, account) == MyRenditions(db.t, account) + rows.t.renditions
  {
    var after, merged := MyRenditions(Applied(db, rows).t, account), MyRenditions(db.t, account) + rows.t.renditions;
    forall r ensures (r in after <==> r in merged) && (r in after ==> after[r] == merged[r]) {
      RenditionMerge(db, account, rows, account, r);
    }
    SameMap(after, merged);
  }

  lemma SameMap<K, V>(a: map<K, V>, b: map<K, V>)
    requires forall k :: (k in a <==> k in b) && (k in a ==> a[k] == b[k])
    ensures a == b
  {
  }

  lemma OthersRenditions(db: Db, account: Id, rows: Db, other: Id)
    requires Consistent(db) && OwnRows(db, account, rows) && other != account
    ensures MyRenditions(Applied(db, rows).t, other) == MyRenditions(db.t, other)
  {
    var after, before := MyRenditions(Applied(db, rows).t, other), MyRenditions(db.t, other);
    forall r ensures (r in after <==> r in before) && (r in before ==> r !in rows.t.renditions) {
      RenditionMerge(db, account, rows, other, r);
    }
    assert after == before;
  }

  lemma OwnView(db: Db, account: Id, rows: Db, other: Id)
    requires Consistent(db) && OwnRows(db, account, rows)
    ensures View(Applied(db, rows), account) == Applied(View(db, account), rows)
    ensures other != account ==> View(Applied(db, rows), other) == View(db, other)
  {
    MineMerges(db.uploads, rows.uploads, UploadOwner, account, other);
    MineMerges(db.t.assets, rows.t.assets, AssetOwner, account, other);
    MineMerges(db.t.jobs, rows.t.jobs, JobOwner, account, other);
    MineMerges(db.grants, rows.grants, ShareOwner, account, other);
    MineMerges(db.exports, rows.exports, ShareOwner, account, other);
    OwnRenditions(db, account, rows);
    if other != account { OthersRenditions(db, account, rows, other); }
    assert (db.accounts + rows.accounts) * {account} == db.accounts * {account} + rows.accounts;
    assert other != account ==> (db.accounts + rows.accounts) * {other} == db.accounts * {other};
  }

  // ---- each endpoint is local ------------------------------------------------------------

  lemma FinalizeLocal(db: Db, account: Id, id: Id, v: VaultRecord, now: int)
    requires Consistent(db)
    ensures Finalize(View(db, account), account, id, v, now).0 == Finalize(db, account, id, v, now).0
    ensures FinalizeRows(View(db, account), account, id, v, now) == FinalizeRows(db, account, id, v, now)
  {
    ViewReads(db, account, id);
  }

  lemma FinalizeOwn(db: Db, account: Id, id: Id, v: VaultRecord, now: int)
    requires Consistent(db)
    ensures OwnRows(db, account, FinalizeRows(db, account, id, v, now))
    ensures Finalize(db, account, id, v, now).0.Created? ==>
              Owns(Applied(db, FinalizeRows(db, account, id, v, now)), account, id)
    ensures Finalize(db, account, id, v, now).0.Already? ==> Owns(db, account, id)
  {
  }

  lemma EnqueueOwn(db: Db, account: Id, asset: Id, intent: Intent, out: Outside)
    requires Unused(db, out.id)
    ensures OwnRows(db, account, Enqueue(db, account, asset, intent, out).1)
  {
    if NewestJob(db.t.jobs, account, asset, intent).Some? { NewestIsOwn(db, account, asset, intent); }
  }

  lemma RemuxLocal(db: Db, account: Id, asset: Id, intent: Intent, key: string, out: Outside)
    requires Consistent(db) && OwnsUpload(db, account, asset)
    ensures EnqueueRemux(View(db, account), account, asset, intent, key, out)
         == EnqueueRemux(db, account, asset, intent, key, out)
  {
    ViewNewest(db, account, asset, intent);
    ViewReads(db, account, asset);
    if NewestJob(db.t.jobs, account, asset, intent).Some? { NewestIsOwn(db, account, asset, intent); }
  }

  lemma RemuxOwn(db: Db, account: Id, asset: Id, intent: Intent, key: string, out: Outside)
    requires Unused(db, out.id)
    ensures OwnRows(db, account, EnqueueRemux(db, account, asset, intent, key, out).1)
  {
    if NewestJob(db.t.jobs, account, asset, intent).Some? { NewestIsOwn(db, account, asset, intent); }
  }

  /** The rows a finalize leaves: its transaction's, and then a job or the opt-out marks. */
  lemma AfterFinalizeOwn(db: Db, account: Id, id: Id, kind: Kind, skip: bool, row: Asset, rows: Db, out: Outside)
    requires Unused(db, out.id) && OwnRows(db, account, rows) && Owns(Applied(db, rows), account, id)
    requires rows.t.renditions == map[] && rows.t.jobs == map[]
    ensures OwnRows(db, account, AfterFinalize(db, account, id, kind, skip, row, rows, out).1)
  {
    EnqueueOwn(db, account, id, Detail, out);
    var marks, jobs := OptOut(db, id, kind), Enqueue(db, account, id, Detail, out).1.t.jobs;
    assert forall r | r in marks :: r.0 == id;
    WithMore(db, account, rows, jobs, marks, id);
  }

  /** Adding own jobs, or marks on an own asset, to own rows leaves them own. */
  lemma WithMore(db: Db, account: Id, rows: Db, jobs: map<Id, Job>, marks: map<(Id, Intent), Rendition>, id: Id)
    requires OwnRows(db, account, rows) && rows.t.renditions == map[] && Owns(Applied(db, rows), account, id)
    requires OwnTable(db.t.jobs, jobs, JobOwner, account) && forall r | r in marks :: r.0 == id
    ensures OwnRows(db, account, rows.(t := rows.t.(jobs := jobs)))
    ensures OwnRows(db, account, rows.(t := rows.t.(renditions := marks)))
  {
  }

  lemma OptOutLocal(db: Db, account: Id, id: Id, kind: Kind)
    requires Consistent(db) && (Owns(db, account, id) || id !in db.t.assets)
    ensures OptOut(View(db, account), id, kind) == OptOut(db, id, kind)
  {
    assert forall i :: (id, i) in View(db, account).t.renditions <==> (id, i) in db.t.renditions;
  }

  lemma AfterFinalizeLocal(db: Db, account: Id, id: Id, kind: Kind, skip: bool, row: Asset, rows: Db, out: Outside)
    requires Consistent(db) && Unused(db, out.id) && OwnRows(db, account, rows) && Owns(Applied(db, rows), account, id)
    requires rows.t.renditions == map[] && rows.t.jobs == map[]
    ensures AfterFinalize(View(db, account), account, id, kind, skip, row, rows, out)
         == AfterFinalize(db, account, id, kind, skip, row, rows, out)
  {
    ViewEnqueue(db, account, id, Detail, out);
    OptOutLocal(db, account, id, kind);
    if (kind.Video? || kind.Audio?) && skip {
      var all := rows.(t := rows.t.(renditions := OptOut(db, id, kind)));
      AfterFinalizeOwn(db, account, id, kind, skip, row, rows, out);
      OwnView(db, account, all, account);
      ViewAsset(Applied(db, all), account, id);
      assert Owns(Applied(db, all), account, id);
    }
  }

  /** The original's branch, once storage has shown the object. */
  lemma FoundLocal(db: Db, account: Id, id: Id, v: VaultRecord, skip: bool, out: Outside)
    requires Consistent(db) && Unused(db, out.id)
    ensures
      var answer := Finalize(db, account, id, v, out.now).0;
      var rows := if answer.Created? then FinalizeRows(db, account, id, v, out.now) else NOTHING;
      answer.Created? || answer.Already? ==>
        && AfterFinalize(View(db, account), account, id, v.kind, skip, answer.row, rows, out)
           == AfterFinalize(db, account, id, v.kind, skip, answer.row, rows, out)
        && OwnRows(db, account, AfterFinalize(db, account, id, v.kind, skip, answer.row, rows, out).1)
  {
    var answer := Finalize(db, account, id, v, out.now).0;
    FinalizeOwn(db, account, id, v, out.now);
    var rows := if answer.Created? then FinalizeRows(db, account, id, v, out.now) else NOTHING;
    if answer.Created? || answer.Already? {
      NothingApplied(db);
      AfterFinalizeLocal(db, account, id, v.kind, skip, answer.row, rows, out);
      AfterFinalizeOwn(db, account, id, v.kind, skip, answer.row, rows, out);
    }
  }

  lemma FinalizeCallLocal(db: Db, account: Id, id: Id, out: Outside)
    requires Consistent(db) && Unused(db, out.id)
    ensures FinalizeCall(View(db, account), account, id, out) == FinalizeCall(db, account, id, out)
  {
    ViewReads(db, account, id);
    if OwnsUpload(db, account, id) {
      var up := db.uploads[id];
      var seen := out.stored(up.key);
      if up.rendition.Some? {
        RemuxLocal(db, account, up.rendition.value.0, up.rendition.value.1, up.key, out);
      } else if seen.Found? {
        var v := seen.facts.(kind := KindOf(up.contentType));
        FinalizeLocal(db, account, id, v, out.now);
        FoundLocal(db, account, id, v, up.skipDerivations, out);
      }
    }
  }

  lemma FinalizeCallOwn(db: Db, account: Id, id: Id, out: Outside)
    requires Consistent(db) && Unused(db, out.id)
    ensures OwnRows(db, account, FinalizeCall(db, account, id, out).1)
  {
    NothingOwn(db, account);
    if OwnsUpload(db, account, id) {
      var up := db.uploads[id];
      var seen := out.stored(up.key);
      if up.rendition.Some? {
        RemuxOwn(db, account, up.rendition.value.0, up.rendition.value.1, up.key, out);
      } else if seen.Found? {
        FoundLocal(db, account, id, seen.facts.(kind := KindOf(up.contentType)), up.skipDerivations, out);
      }
    }
  }

  lemma NothingApplied(db: Db)
    ensures Applied(db, NOTHING) == db
  {
    OtherTables(db);
    NoRows(db.uploads);
    NoRows(db.t.assets);
  }

  lemma BrokerLocal(db: Db, account: Id, contentType: string, skip: bool, rendition: Option<(Id, Intent)>, out: Outside)
    requires Unused(db, out.id)
    ensures Broker(View(db, account), account, contentType, skip, rendition, out)
         == Broker(db, account, contentType, skip, rendition, out)
    ensures OwnRows(db, account, Broker(db, account, contentType, skip, rendition, out).1)
  {
    if rendition.Some? { ViewReads(db, account, rendition.value.0); }
  }

  lemma ListLocal(db: Db, account: Id, cursor: Id, limit: int, out: Outside)
    ensures Serve(View(db, account), account, ListPage(cursor, limit), out)
         == Serve(db, account, ListPage(cursor, limit), out)
  {
    assert AssetsOf(View(db, account), account) == AssetsOf(db, account);
    ViewPage(db, account, PageOf(AssetsOf(db, account), cursor, PageLimit(limit)).items);
  }

  lemma RevokeOneLocal(shares: map<Id, Share>, account: Id, id: Id, now: int)
    ensures
      var mine := Mine(shares, ShareOwner, account);
      && Revoked(mine, account, id, now) == Revoked(shares, account, id, now)
      && ShareOf(mine + Revoked(mine, account, id, now), account, id)
         == ShareOf(shares + Revoked(shares, account, id, now), account, id)
  {
  }

  lemma RevokeLocal(db: Db, account: Id, id: Id, out: Outside)
    ensures Serve(View(db, account), account, RevokeGrant(id), out) == Serve(db, account, RevokeGrant(id), out)
    ensures Serve(View(db, account), account, RevokeExport(id), out) == Serve(db, account, RevokeExport(id), out)
  {
    RevokeOneLocal(db.grants, account, id, out.now);
    RevokeOneLocal(db.exports, account, id, out.now);
  }

  lemma AssetRowLocal(db: Db, account: Id, id: Id, out: Outside)
    ensures Serve(View(db, account), account, ReadAsset(id), out) == Serve(db, account, ReadAsset(id), out)
    ensures Serve(View(db, account), account, DeleteAsset(id), out) == Serve(db, account, DeleteAsset(id), out)
  {
    ViewAsset(db, account, id);
  }

  lemma AssetWorkLocal(db: Db, account: Id, id: Id, intent: Intent, device: Device, out: Outside)
    ensures UrlCall(View(db, account), account, id, intent, device, out)
         == UrlCall(db, account, id, intent, device, out)
    ensures AskCall(View(db, account), account, id, intent, out) == AskCall(db, account, id, intent, out)
  {
    ViewAsset(db, account, id);
    ViewEnqueue(db, account, id, intent, out);
  }

  lemma IssueLocal(db: Db, account: Id, assets: seq<Id>, expires: int, out: Outside)
    requires Consistent(db)
    ensures IssueGrantCall(View(db, account), account, assets, expires, out)
         == IssueGrantCall(db, account, assets, expires, out)
    ensures IssueExportCall(View(db, account), account, assets, expires, out)
         == IssueExportCall(db, account, assets, expires, out)
  {
    ViewClasses(db, account, assets);
  }

  /** Any endpoint, any account: the answer and the rows written are what they would be with nobody else there. */
  lemma ServeIsLocal(db: Db, account: Id, call: Call, out: Outside)
    requires Consistent(db) && Unused(db, out.id)
    ensures Serve(View(db, account), account, call, out) == Serve(db, account, call, out)
  {
    match call
    case ReadAsset(id) => AssetRowLocal(db, account, id, out);
    case ListPage(cursor, limit) => ListLocal(db, account, cursor, limit, out);
    case DeleteAsset(id) => AssetRowLocal(db, account, id, out);
    case ResolveUrl(id, intent, device) => AssetWorkLocal(db, account, id, intent, device, out);
    case AskRendition(id, intent) => AssetWorkLocal(db, account, id, intent, Mobile, out);
    case ReadJob(id) => ViewReads(db, account, id);
    case BrokerUpload(contentType, skip, rendition) => BrokerLocal(db, account, contentType, skip, rendition, out);
    case FinalizeUpload(id) => FinalizeCallLocal(db, account, id, out);
    case IssueGrant(assets, expires) => IssueLocal(db, account, assets, expires, out);
    case ReadGrant(id) => ViewReads(db, account, id);
    case RevokeGrant(id) => RevokeLocal(db, account, id, out);
    case IssueExport(assets, expires) => IssueLocal(db, account, assets, expires, out);
    case ReadExport(id) => ViewReads(db, account, id);
    case RevokeExport(id) => RevokeLocal(db, account, id, out);
    case ProvisionAccount =>
  }

  lemma NothingOwn(db: Db, account: Id)
    ensures OwnRows(db, account, NOTHING) && OwnRows(db, account, NOTHING.(accounts := {account}))
  {
  }

  lemma DeleteOwn(db: Db, account: Id, id: Id, out: Outside)
    ensures OwnRows(db, account, Serve(db, account, DeleteAsset(id), out).1)
  {
  }

  lemma RevokeOwn(db: Db, account: Id, id: Id, now: int)
    ensures OwnRows(db, account, NOTHING.(grants := Revoked(db.grants, account, id, now)))
    ensures OwnRows(db, account, NOTHING.(exports := Revoked(db.exports, account, id, now)))
  {
  }

  lemma ShareRowOwn(db: Db, account: Id, id: Id, row: Share)
    requires Unused(db, id) && row.account == account
    ensures OwnRows(db, account, NOTHING.(grants := map[id := row]))
    ensures OwnRows(db, account, NOTHING.(exports := map[id := row]))
  {
  }

  lemma IssueOwn(db: Db, account: Id, assets: seq<Id>, expires: int, out: Outside)
    requires Unused(db, out.id)
    ensures OwnRows(db, account, IssueGrantCall(db, account, assets, expires, out).1)
    ensures OwnRows(db, account, IssueExportCall(db, account, assets, expires, out).1)
  {
    NothingOwn(db, account);
    ShareRowOwn(db, account, out.id, Share(account, assets, out.now, expires, None));
    ShareRowOwn(db, account, out.id, Share(account, LiveIds(db, account, assets), out.now, expires, None));
  }

  predicate OnlyReads(call: Call) {
    call.ReadAsset? || call.ListPage? || call.ResolveUrl? || call.ReadJob? || call.ReadGrant? || call.ReadExport?
  }

  lemma ReadsWriteNothing(db: Db, account: Id, call: Call, out: Outside)
    requires OnlyReads(call)
    ensures Serve(db, account, call, out).1 == NOTHING
  {
  }

  lemma AskOwn(db: Db, account: Id, id: Id, intent: Intent, out: Outside)
    requires Unused(db, out.id)
    ensures OwnRows(db, account, AskCall(db, account, id, intent, out).1)
  {
    NothingOwn(db, account);
    EnqueueOwn(db, account, id, intent, out);
  }

  lemma ServeWritesOwn(db: Db, account: Id, call: Call, out: Outside)
    requires Consistent(db) && Unused(db, out.id)
    ensures OwnRows(db, account, Serve(db, account, call, out).1)
  {
    if OnlyReads(call) || call.ProvisionAccount? {
      NothingOwn(db, account);
      if OnlyReads(call) { ReadsWriteNothing(db, account, call, out); }
    } else {
      match call
      case DeleteAsset(id) => DeleteOwn(db, account, id, out);
      case AskRendition(id, intent) => AskOwn(db, account, id, intent, out);
      case BrokerUpload(contentType, skip, rendition) => BrokerLocal(db, account, contentType, skip, rendition, out);
      case FinalizeUpload(id) => FinalizeCallOwn(db, account, id, out);
      case IssueGrant(assets, expires) => IssueOwn(db, account, assets, expires, out);
      case RevokeGrant(id) => RevokeOwn(db, account, id, out.now);
      case IssueExport(assets, expires) => IssueOwn(db, account, assets, expires, out);
      case RevokeExport(id) => RevokeOwn(db, account, id, out.now);
    }
  }

  // ---- consistency is kept --------------------------------------------------------------------

  predicate KeepsUpload(db: Db, rows: Db, u: Id)
    requires u in rows.uploads
  {
    var row := rows.uploads[u];
    && (u in db.uploads ==>
          && row.account == db.uploads[u].account && row.rendition == db.uploads[u].rendition
          && (db.uploads[u].finalizedAt.Some? ==> row.finalizedAt.Some?))
    && (row.rendition.Some? ==> OwnsUpload(db, row.account, row.rendition.value.0))
  }

  /** Upload rows keep owner, binding and finalization; asset rows are of finalized uploads of their account; job rows
      are for assets of theirs. */
  ghost predicate KeepsTies(db: Db, rows: Db) {
    && (forall u | u in rows.uploads :: KeepsUpload(db, rows, u))
    && (forall a | a in rows.t.assets ::
          OwnsUpload(Applied(db, rows), rows.t.assets[a].account, a) && Applied(db, rows).uploads[a].finalizedAt.Some?)
    && forall j | j in rows.t.jobs :: Owns(Applied(db, rows), rows.t.jobs[j].account, rows.t.jobs[j].asset)
  }

  lemma JobTieStays(db: Db, account: Id, rows: Db, j: Id)
    requires Consistent(db) && OwnRows(db, account, rows) && KeepsTies(db, rows) && j in Applied(db, rows).t.jobs
    ensures
      var after := Applied(db, rows);
      Owns(after, after.t.jobs[j].account, after.t.jobs[j].asset)
  {
    if j !in rows.t.jobs {
      var row := db.t.jobs[j];
      AppliedOwns(db, account, rows, row.account, row.asset);
    }
  }

  lemma TiesKeepConsistency(db: Db, account: Id, rows: Db)
    requires Consistent(db) && OwnRows(db, account, rows) && KeepsTies(db, rows)
    ensures Consistent(Applied(db, rows))
  {
    var after := Applied(db, rows);
    forall a | a in after.t.assets
      ensures OwnsUpload(after, after.t.assets[a].account, a) && after.uploads[a].finalizedAt.Some?
    {
      if a !in rows.t.assets { assert OwnsUpload(db, db.t.assets[a].account, a); }
      if a in rows.uploads { assert KeepsUpload(db, rows, a); }
    }
    forall r | r in after.t.renditions ensures r.0 in after.t.assets {
      if r in rows.t.renditions { assert Owns(after, account, r.0); }
    }
    forall j | j in after.t.jobs ensures Owns(after, after.t.jobs[j].account, after.t.jobs[j].asset) {
      JobTieStays(db, account, rows, j);
    }
    forall u | u in after.uploads && after.uploads[u].rendition.Some?
      ensures OwnsUpload(after, after.uploads[u].account, after.uploads[u].rendition.value.0)
    {
      UploadTieStays(db, rows, u);
    }
  }

  lemma UploadTieStays(db: Db, rows: Db, u: Id)
    requires Consistent(db) && KeepsTies(db, rows)
    requires u in Applied(db, rows).uploads && Applied(db, rows).uploads[u].rendition.Some?
    ensures
      var up := Applied(db, rows).uploads[u];
      OwnsUpload(Applied(db, rows), up.account, up.rendition.value.0)
  {
    var up := Applied(db, rows).uploads[u];
    var target := up.rendition.value.0;
    if u in rows.uploads { assert KeepsUpload(db, rows, u); }
    assert OwnsUpload(db, up.account, target);
    if target in rows.uploads { assert KeepsUpload(db, rows, target); }
  }

  /** Rows that touch neither uploads nor assets can only loosen a job's tie. */
  lemma NoTies(db: Db, rows: Db)
    requires rows.uploads == map[] && rows.t.assets == map[]
    requires forall j | j in rows.t.jobs :: Owns(db, rows.t.jobs[j].account, rows.t.jobs[j].asset)
    ensures KeepsTies(db, rows)
  {
  }

  lemma EnqueueTies(db: Db, account: Id, asset: Id, intent: Intent, out: Outside)
    requires Owns(db, account, asset)
    ensures KeepsTies(db, Enqueue(db, account, asset, intent, out).1)
  {
    NoTies(db, Enqueue(db, account, asset, intent, out).1);
  }

  lemma RemuxTies(db: Db, account: Id, asset: Id, intent: Intent, key: string, out: Outside)
    requires Consistent(db) && OwnsUpload(db, account, asset)
    ensures KeepsTies(db, EnqueueRemux(db, account, asset, intent, key, out).1)
  {
    if NewestJob(db.t.jobs, account, asset, intent).Some? {
      NewestIsOwn(db, account, asset, intent);
    }
    NoTies(db, EnqueueRemux(db, account, asset, intent, key, out).1);
  }

  lemma FinalizeTies(db: Db, account: Id, id: Id, v: VaultRecord, now: int)
    requires Consistent(db)
    ensures KeepsTies(db, FinalizeRows(db, account, id, v, now))
  {
  }

  /** What follows the transaction adds a job for the finalized asset, or marks. */
  lemma AfterFinalizeTies(db: Db, account: Id, id: Id, kind: Kind, skip: bool, row: Asset, rows: Db, out: Outside)
    requires KeepsTies(db, rows) && Owns(Applied(db, rows), account, id) && rows.t.jobs == map[]
    ensures KeepsTies(db, AfterFinalize(db, account, id, kind, skip, row, rows, out).1)
  {
    var all := AfterFinalize(db, account, id, kind, skip, row, rows, out).1;
    assert all.uploads == rows.uploads && all.t.assets == rows.t.assets;
    assert forall j | j in all.t.jobs :: all.t.jobs[j].account == account && all.t.jobs[j].asset == id;
    SameRows(db, rows, all);
  }

  lemma SameRows(db: Db, rows: Db, all: Db)
    requires KeepsTies(db, rows) && all.uploads == rows.uploads && all.t.assets == rows.t.assets
    requires forall j | j in all.t.jobs :: Owns(Applied(db, rows), all.t.jobs[j].account, all.t.jobs[j].asset)
    ensures KeepsTies(db, all)
  {
    assert Applied(db, all).uploads == Applied(db, rows).uploads;
    assert Applied(db, all).t.assets == Applied(db, rows).t.assets;
    forall u | u in all.uploads ensures KeepsUpload(db, all, u) {
      assert KeepsUpload(db, rows, u);
    }
  }

  lemma FinalizeCallTies(db: Db, account: Id, id: Id, out: Outside)
    requires Consistent(db)
    ensures KeepsTies(db, FinalizeCall(db, account, id, out).1)
  {
    NoTies(db, NOTHING);
    if OwnsUpload(db, account, id) {
      var up := db.uploads[id];
      var seen := out.stored(up.key);
      if up.rendition.Some? {
        RemuxTies(db, account, up.rendition.value.0, up.rendition.value.1, up.key, out);
      } else if seen.Found? {
        FoundTies(db, account, id, seen.facts.(kind := KindOf(up.contentType)), up.skipDerivations, out);
      }
    }
  }

  lemma FoundTies(db: Db, account: Id, id: Id, v: VaultRecord, skip: bool, out: Outside)
    requires Consistent(db)
    ensures
      var answer := Finalize(db, account, id, v, out.now).0;
      var rows := if answer.Created? then FinalizeRows(db, account, id, v, out.now) else NOTHING;
      answer.Created? || answer.Already? ==>
        KeepsTies(db, AfterFinalize(db, account, id, v.kind, skip, answer.row, rows, out).1)
  {
    var answer := Finalize(db, account, id, v, out.now).0;
    FinalizeOwn(db, account, id, v, out.now);
    FinalizeTies(db, account, id, v, out.now);
    NoTies(db, NOTHING);
    NothingApplied(db);
    var rows := if answer.Created? then FinalizeRows(db, account, id, v, out.now) else NOTHING;
    if answer.Created? || answer.Already? {
      AfterFinalizeTies(db, account, id, v.kind, skip, answer.row, rows, out);
    }
  }

  lemma DeleteTies(db: Db, account: Id, id: Id, out: Outside)
    requires Consistent(db)
    ensures KeepsTies(db, Serve(db, account, DeleteAsset(id), out).1)
  {
  }

  lemma BrokerTies(db: Db, account: Id, contentType: string, skip: bool, rendition: Option<(Id, Intent)>, out: Outside)
    requires Consistent(db) && Unused(db, out.id)
    ensures KeepsTies(db, Broker(db, account, contentType, skip, rendition, out).1)
  {
    if rendition.Some? && Owns(db, account, rendition.value.0) {
      assert OwnsUpload(db, account, rendition.value.0);
    }
  }

  lemma AskTies(db: Db, account: Id, id: Id, intent: Intent, out: Outside)
    ensures KeepsTies(db, AskCall(db, account, id, intent, out).1)
  {
    NoTies(db, NOTHING);
    if Owns(db, account, id) { EnqueueTies(db, account, id, intent, out); }
  }

  lemma ServeTies(db: Db, account: Id, call: Call, out: Outside)
    requires Consistent(db) && Unused(db, out.id)
    ensures KeepsTies(db, Serve(db, account, call, out).1)
  {
    match call
    case FinalizeUpload(id) => FinalizeCallTies(db, account, id, out);
    case BrokerUpload(contentType, skip, rendition) => BrokerTies(db, account, contentType, skip, rendition, out);
    case DeleteAsset(id) => DeleteTies(db, account, id, out);
    case AskRendition(id, intent) => AskTies(db, account, id, intent, out);
    case _ => NoTies(db, Serve(db, account, call, out).1);
  }

  /** The condition isolation rests on is an invariant: no call breaks it. */
  lemma ConsistencyIsKept(db: Db, account: Id, call: Call, out: Outside)
    requires Consistent(db) && Unused(db, out.id)
    ensures Consistent(After(db, account, call, out))
  {
    ServeWritesOwn(db, account, call, out);
    ServeTies(db, account, call, out);
    TiesKeepConsistency(db, account, Serve(db, account, call, out).1);
  }

  // ---- isolation -----------------------------------------------------------------------------------

  /** Two stores that agree on an account's rows give it the same answer and still agree on them afterwards; every
      other account's rows are untouched. */
  lemma TwoRunIsolation(db1: Db, db2: Db, account: Id, call: Call, out: Outside, other: Id)
    requires Consistent(db1) && Consistent(db2) && Unused(db1, out.id) && Unused(db2, out.id)
    requires View(db1, account) == View(db2, account)
    ensures Serve(db1, account, call, out).0 == Serve(db2, account, call, out).0
    ensures View(After(db1, account, call, out), account) == View(After(db2, account, call, out), account)
    ensures other != account ==> View(After(db1, account, call, out), other) == View(db1, other)
  {
    ServeIsLocal(db1, account, call, out);
    ServeIsLocal(db2, account, call, out);
    ServeWritesOwn(db1, account, call, out);
    ServeWritesOwn(db2, account, call, out);
    OwnView(db1, account, Serve(db1, account, call, out).1, other);
    OwnView(db2, account, Serve(db2, account, call, out).1, other);
  }
}
