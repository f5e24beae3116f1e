/** Uploads, assets, grants and exports: the account-scoped statements of the store. */
module AssetStore {
  import opened Collections
  import opened Contract
  import opened Records
  import opened Ordering

  // ---- account-scoped reads -------------------------------------------------

  predicate Owns(db: Db, account: Id, asset: Id) {
    asset in db.t.assets && db.t.assets[asset].account == account
  }

  predicate OwnsUpload(db: Db, account: Id, upload: Id) {
    upload in db.uploads && db.uploads[upload].account == account
  }

  datatype AssetView = AssetView(row: Asset, contentType: Option<string>, renditions: map<Intent, Rendition>)

  function RenditionsFor(t: Tables, asset: Id): map<Intent, Rendition> {
    map k | k in t.renditions.Keys && k.0 == asset :: k.1 := t.renditions[k]
  }

  function GetAsset(db: Db, account: Id, asset: Id): Option<AssetView> {
    if !Owns(db, account, asset) then None
    else
      var contentType :=
        if OwnsUpload(db, account, asset) && db.uploads[asset].rendition.None?
        then Some(db.uploads[asset].contentType) else None;
      Some(AssetView(db.t.assets[asset], contentType, RenditionsFor(db.t, asset)))
  }

  function GetJob(db: Db, account: Id, job: Id): Option<Job> {
    if job in db.t.jobs && db.t.jobs[job].account == account then Some(db.t.jobs[job]) else None
  }

  function GetUpload(db: Db, account: Id, upload: Id): Option<Upload> {
    if OwnsUpload(db, account, upload) then Some(db.uploads[upload]) else None
  }

  function GetShare(shares: map<Id, Share>, account: Id, id: Id): Option<Share> {
    if id in shares && shares[id].account == account then Some(shares[id]) else None
  }

  // ---- writes -----------------------------------------------------------------

  function MarkedDeleted(db: Db, account: Id, asset: Id, now: int): Option<Db> {
    if !Owns(db, account, asset) then None
    else Some(db.(t := db.t.(assets := db.t.assets[asset := db.t.assets[asset].(deletedAt := Some(now))])))
  }

  /** The first revocation stands. */
  function RevokedShare(share: Share, now: int): Share {
    if share.revokedAt.Some? then share else share.(revokedAt := Some(now))
  }

  /** What finalize learned of the stored object. */
  datatype VaultRecord = VaultRecord(
    kind: Kind, checksum: string, checksumVerified: bool, size: int, width: Option<int>, height: Option<int>)

  datatype FinalizeAnswer = Created(row: Asset) | Already(row: Asset) | NotFound | UploadGone | Conflict

  function FinalizedAsset(up: Upload, v: VaultRecord, now: int): Asset {
    Asset(up.account, v.kind, up.key, v.size, v.width, v.height, v.checksum, v.checksumVerified, None, now, None)
  }

  /** One transaction: a swept upload is refused, a finalized one answers its asset, a fresh one becomes an asset. */
  function Finalize(db: Db, account: Id, upload: Id, v: VaultRecord, now: int): (FinalizeAnswer, Db) {
    if !OwnsUpload(db, account, upload) then (NotFound, db)
    else
      var up := db.uploads[upload];
      if up.sweptAt.Some? then (UploadGone, db)
      else if up.finalizedAt.Some? then
        if Owns(db, account, upload) then (Already(db.t.assets[upload]), db) else (NotFound, db)
      else if upload in db.t.assets then (Conflict, db)
      else
        var row := FinalizedAsset(up, v, now);
        (Created(row),
         db.(t := db.t.(assets := db.t.assets[upload := row]),
             uploads := db.uploads[upload := up.(finalizedAt := Some(now))]))
  }

  /** An orphan: never finalized, not yet swept, created before the cutoff. */
  predicate Reclaimable(up: Upload, cutoff: int) {
    up.finalizedAt.None? && up.sweptAt.None? && up.created < cutoff
  }

  /** Deliberately unguarded: it stamps whatever row has the id. */
  function Swept(db: Db, upload: Id, now: int): Db {
    if upload !in db.uploads then db
    else db.(uploads := db.uploads[upload := db.uploads[upload].(sweptAt := Some(now))])
  }

  // ---- classifying a requested set ------------------------------------------------

  datatype Class = RefusedId | LiveId | GoneId

  /** THE purged test: no asset row anywhere, yet this account's own finalized original upload has the id. */
  predicate PurgedId(db: Db, account: Id, id: Id) {
    && id !in db.t.assets
    && OwnsUpload(db, account, id)
    && db.uploads[id].finalizedAt.Some? && db.uploads[id].rendition.None?
  }

  function Classify(db: Db, account: Id, id: Id): Class {
    if (Owns(db, account, id) && db.t.assets[id].deletedAt.Some?) || PurgedId(db, account, id) then GoneId
    else if Owns(db, account, id) then LiveId
    else RefusedId
  }

  /** Every distinct requested id with its class, ordered by id. */
  function ClassifyAssetSet(db: Db, account: Id, ids: seq<Id>): (rows: seq<(Id, Class)>)
    ensures forall k | 0 <= k < |rows| :: rows[k].0 in ids && rows[k].1 == Classify(db, account, rows[k].0)
    ensures forall id | id in ids :: exists k :: 0 <= k < |rows| && rows[k].0 == id
  {
    var sorted := Sorted(set id | id in ids);
    assert forall k | 0 <= k < |sorted| :: sorted[k] in sorted;
    var rows := seq(|sorted|, k requires 0 <= k < |sorted| => (sorted[k], Classify(db, account, sorted[k])));
    assert forall id | id in ids :: exists k :: 0 <= k < |rows| && rows[k].0 == id by {
      forall id | id in ids ensures exists k :: 0 <= k < |rows| && rows[k].0 == id {
        assert id in sorted;
        var k :| 0 <= k < |sorted| && sorted[k] == id;
        assert rows[k].0 == id;
      }
    }
    rows
  }

  /** The requested ids of one class. */
  function IdsOf(db: Db, account: Id, ids: seq<Id>, c: Class): set<Id> {
    set id | id in ids && Classify(db, account, id) == c
  }

  /** The listed ids that are in the set, in the order of the list. */
  function Keep(ids: seq<Id>, wanted: set<Id>): seq<Id> {
    if ids == [] then []
    else
      var last := ids[|ids| - 1];
      Keep(ids[..|ids| - 1], wanted) + (if last in wanted then [last] else [])
  }

  /** Each id once, where it first occurs. */
  function FirstOccurrences(ids: seq<Id>): seq<Id> {
    if ids == [] then []
    else
      var init, last := ids[..|ids| - 1], ids[|ids| - 1];
      FirstOccurrences(init) + (if last in init then [] else [last])
  }

  predicate AnyRefused(db: Db, account: Id, ids: seq<Id>) {
    exists id :: id in ids && Classify(db, account, id) == RefusedId
  }

  /** The ids of the rows of one class, in row order. */
  function RowIds(rows: seq<(Id, Class)>, c: Class): seq<Id> {
    if rows == [] then []
    else
      var last := rows[|rows| - 1];
      RowIds(rows[..|rows| - 1], c) + (if last.1 == c then [last.0] else [])
  }

  function LiveIds(db: Db, account: Id, ids: seq<Id>): seq<Id> {
    Keep(FirstOccurrences(ids), IdsOf(db, account, ids, LiveId))
  }

  function GoneIds(db: Db, account: Id, ids: seq<Id>): seq<Id> {
    Keep(FirstOccurrences(ids), IdsOf(db, account, ids, GoneId))
  }

  datatype IssueAnswer = Issued(share: Share, gone: seq<Id>) | Foreign | AssetsGone

  // ---- pages --------------------------------------------------------------------------

  datatype Page = Page(items: seq<Id>, next: Option<Id>)

  function PageLimit(limit: int): (n: nat)
    ensures 0 < n <= 200
  {
    if limit <= 0 || limit > 200 then 50 else limit
  }

  function AssetsOf(db: Db, account: Id): set<Id> {
    set a | a in db.t.assets && db.t.assets[a].account == account
  }

  function Beyond(ids: set<Id>, cursor: Id): set<Id> {
    set a | a in ids && (cursor == "" || Before(cursor, a))
  }

  /** What the ordered, limited query answers. */
  function Rows(ids: set<Id>, cursor: Id, n: nat): (rows: seq<Id>)
    ensures |rows| <= n
  {
    var all := Sorted(Beyond(ids, cursor));
    if |all| <= n then all else all[..n]
  }

  function PageFrom(rows: seq<Id>, n: nat): Page
    requires n > 0
  {
    if |rows| > n then Page(rows[..n], Some(rows[n - 1])) else Page(rows, None)
  }

  function PageOf(ids: set<Id>, cursor: Id, n: nat): Page
    requires n > 0
  {
    PageFrom(Rows(ids, cursor, n + 1), n)
  }

  // ---- ordering a finite set ------------------------------------------------------------

  predicate IsLeast(ids: set<Id>, m: Id) {
    m in ids && forall k | k in ids :: k == m || Before(m, k)
  }

  lemma {:induction false} LeastExists(ids: set<Id>)
    requires ids != {}
    ensures exists m :: m in ids && IsLeast(ids, m)
    decreases ids
  {
    var x :| x in ids;
    if ids == {x} {
      assert IsLeast(ids, x);
    } else {
      var rest := ids - {x};
      LeastExists(rest);
      var m :| m in rest && IsLeast(rest, m);
      BeforeTotal(x, m);
      if Before(x, m) {
        forall k | k in ids ensures k == x || Before(x, k) {
          if k != x && k != m { BeforeTransitive(x, m, k); }
        }
        assert IsLeast(ids, x);
      } else {
        assert IsLeast(ids, m);
      }
    }
  }

  lemma LeastUnique(ids: set<Id>, m: Id, n: Id)
    requires IsLeast(ids, m) && IsLeast(ids, n)
    ensures m == n
  {
    if m != n {
      BeforeTransitive(m, n, m);
      BeforeIrreflexive(m);
    }
  }

  function Least(ids: set<Id>): (m: Id)
    requires ids != {}
    ensures IsLeast(ids, m)
  {
    LeastExists(ids);
    assert forall m, n | IsLeast(ids, m) && IsLeast(ids, n) :: m == n by {
      forall m, n | IsLeast(ids, m) && IsLeast(ids, n) ensures m == n { LeastUnique(ids, m, n); }
    }
    var m :| m in ids && IsLeast(ids, m);
    m
  }

  predicate Increasing(ids: seq<Id>) {
    forall i, j | 0 <= i < j < |ids| :: Before(ids[i], ids[j])
  }

  function Sorted(ids: set<Id>): (s: seq<Id>)
    ensures Increasing(s) && |s| == |ids|
    ensures forall id :: id in s <==> id in ids
  {
    if ids == {} then []
    else
      var m := Least(ids);
      var rest := Sorted(ids - {m});
      assert forall k | 0 <= k < |rest| :: rest[k] in rest;
      [m] + rest
  }

  // ---- the store ---------------------------------------------------------------------------

  class Store {
    var db: Db

    constructor (db: Db)
      ensures this.db == db
    {
      this.db := db;
    }

    method MarkAssetDeleted(account: Id, asset: Id, now: int) returns (ok: bool)
      modifies this
      ensures ok == Owns(old(db), account, asset)
      ensures db == if ok then MarkedDeleted(old(db), account, asset, now).value else old(db)
    {
      if !Owns(db, account, asset) {
        return false;
      }
      var row := db.t.assets[asset].(deletedAt := Some(now));
      db := db.(t := db.t.(assets := db.t.assets[asset := row]));
      return true;
    }

    method RevokeGrant(account: Id, id: Id, now: int) returns (r: Option<Share>)
      modifies this
      ensures r.Some? <==> GetShare(old(db).grants, account, id).Some?
      ensures r.Some? ==> r.value == RevokedShare(old(db).grants[id], now)
      ensures r.Some? ==>
                var was := old(db).grants[id].revokedAt;
                r.value.revokedAt == if was.Some? then was else Some(now)
      ensures db == if r.Some? then old(db).(grants := old(db).grants[id := r.value]) else old(db)
    {
      if id !in db.grants || db.grants[id].account != account {
        return None;
      }
      var share := db.grants[id];
      if share.revokedAt.None? {
        share := share.(revokedAt := Some(now));
      }
      db := db.(grants := db.grants[id := share]);
      return Some(share);
    }

    method FinalizeUpload(account: Id, upload: Id, v: VaultRecord, now: int) returns (r: FinalizeAnswer)
      modifies this
      ensures (r, db) == Finalize(old(db), account, upload, v, now)
    {
      if !OwnsUpload(db, account, upload) {
        return NotFound;
      }
      var up := db.uploads[upload];
      if up.sweptAt.Some? {
        return UploadGone;
      }
      if up.finalizedAt.Some? {
        if Owns(db, account, upload) {
          return Already(db.t.assets[upload]);
        }
        return NotFound;
      }
      if upload in db.t.assets {
        return Conflict;
      }
      var row := FinalizedAsset(up, v, now);
      db := db.(t := db.t.(assets := db.t.assets[upload := row]));
      db := db.(uploads := db.uploads[upload := up.(finalizedAt := Some(now))]);
      return Created(row);
    }

    method MarkUploadSwept(upload: Id, now: int)
      modifies this
      ensures db == Swept(old(db), upload, now)
    {
      if upload in db.uploads {
        db := db.(uploads := db.uploads[upload := db.uploads[upload].(sweptAt := Some(now))]);
      }
    }

    /** The grant freezes the whole requested set; the gone ids are reported, ordered by id. */
    method CreateGrant(account: Id, assets: seq<Id>, expires: int, id: Id, now: int) returns (r: IssueAnswer)
      requires id !in db.grants
      modifies this
      ensures r.Foreign? <==> AnyRefused(old(db), account, assets)
      ensures r.Foreign? ==> db == old(db)
      ensures !r.Foreign? ==> r == Issued(Share(account, assets, now, expires, None),
                                          RowIds(ClassifyAssetSet(old(db), account, assets), GoneId))
      ensures !r.Foreign? ==> db == old(db).(grants := old(db).grants[id := r.share])
    {
      var classes := ClassifyAssetSet(db, account, assets);
      RefusedRows(db, account, assets);
      var gone := CollectGone(classes);
      if gone.None? {
        return Foreign;
      }
      var share := Share(account, assets, now, expires, None);
      db := db.(grants := db.grants[id := share]);
      return Issued(share, gone.value);
    }

    /** An export freezes only the live ids, each once, in request order; the rest are reported gone. */
    method CreateExport(account: Id, assets: seq<Id>, expires: int, id: Id, now: int) returns (r: IssueAnswer)
      requires id !in db.exports
      modifies this
      ensures r.Foreign? <==> AnyRefused(old(db), account, assets)
      ensures r.AssetsGone? <==> !r.Foreign? && LiveIds(old(db), account, assets) == []
      ensures !r.Issued? ==> db == old(db)
      ensures r.Issued? ==> r.share == Share(account, LiveIds(old(db), account, assets), now, expires, None)
      ensures r.Issued? ==> r.gone == GoneIds(old(db), account, assets)
      ensures r.Issued? ==> db == old(db).(exports := old(db).exports[id := r.share])
    {
      var classes := ClassifyAssetSet(db, account, assets);
      RefusedRows(db, account, assets);
      var classOf := IndexClasses(classes);
      if classOf.None? {
        return Foreign;
      }
      IndexedClasses(db, account, assets, classes, classOf.value);
      var live, gone := LiveAndGone(assets, classOf.value);
      if |live| == 0 {
        return AssetsGone;
      }
      var share := Share(account, live, now, expires, None);
      db := db.(exports := db.exports[id := share]);
      return Issued(share, gone);
    }

    method ListAssets(account: Id, cursor: Id, limit: int) returns (page: Page)
      ensures page == PageOf(AssetsOf(db, account), cursor, PageLimit(limit))
    {
      var n := PageLimit(limit);
      page := CollectPage(Rows(AssetsOf(db, account), cursor, n + 1), n);
    }
  }

  /** Collect the rows; if one more came than the page holds, trim it and point past the last kept. */
  method CollectPage(rows: seq<Id>, n: nat) returns (page: Page)
    requires n > 0
    ensures page == PageFrom(rows, n)
  {
    var items: seq<Id> := [];
    var k := 0;
    while k < |rows|
      invariant 0 <= k <= |rows|
      invariant items == rows[..k]
    {
      items := items + [rows[k]];
      k := k + 1;
    }
    var next: Option<Id> := None;
    if |items| > n {
      next := Some(items[n - 1]);
      items := items[..n];
    }
    return Page(items, next);
  }

  ghost predicate RefusedRow(rows: seq<(Id, Class)>) {
    exists k :: 0 <= k < |rows| && rows[k].1 == RefusedId
  }

  lemma RefusedRows(db: Db, account: Id, ids: seq<Id>)
    ensures RefusedRow(ClassifyAssetSet(db, account, ids)) <==> AnyRefused(db, account, ids)
  {
  }

  /** The gone rows' ids; nothing if some row is refused. */
  method CollectGone(rows: seq<(Id, Class)>) returns (gone: Option<seq<Id>>)
    ensures gone.None? <==> RefusedRow(rows)
    ensures gone.Some? ==> gone.value == RowIds(rows, GoneId)
  {
    var out: seq<Id> := [];
    var k := 0;
    while k < |rows|
      invariant 0 <= k <= |rows|
      invariant forall i | 0 <= i < k :: rows[i].1 != RefusedId
      invariant out == RowIds(rows[..k], GoneId)
    {
      if rows[k].1 == RefusedId {
        return None;
      }
      assert rows[..k + 1][..k] == rows[..k];
      if rows[k].1 == GoneId {
        out := out + [rows[k].0];
      }
      k := k + 1;
    }
    assert rows[..|rows|] == rows;
    return Some(out);
  }

  /** The rows as a map from id to class; nothing if some row is refused. */
  method IndexClasses(rows: seq<(Id, Class)>) returns (r: Option<map<Id, Class>>)
    ensures r.None? <==> RefusedRow(rows)
    ensures r.Some? ==> forall a | a in r.value :: (a, r.value[a]) in rows
    ensures r.Some? ==> forall k | 0 <= k < |rows| :: rows[k].0 in r.value
  {
    var classOf: map<Id, Class> := map[];
    var k := 0;
    while k < |rows|
      invariant 0 <= k <= |rows|
      invariant forall i | 0 <= i < k :: rows[i].1 != RefusedId && rows[i].0 in classOf
      invariant forall a | a in classOf :: (a, classOf[a]) in rows
    {
      if rows[k].1 == RefusedId {
        return None;
      }
      assert rows[k] in rows;
      classOf := classOf[rows[k].0 := rows[k].1];
      k := k + 1;
    }
    return Some(classOf);
  }

  function WithClass(classOf: map<Id, Class>, c: Class): set<Id> {
    set a | a in classOf && classOf[a] == c
  }

  lemma IndexedClass(db: Db, account: Id, ids: seq<Id>, rows: seq<(Id, Class)>, classOf: map<Id, Class>, a: Id)
    requires rows == ClassifyAssetSet(db, account, ids) && !RefusedRow(rows)
    requires forall a | a in classOf :: (a, classOf[a]) in rows
    requires forall k | 0 <= k < |rows| :: rows[k].0 in classOf
    ensures a in classOf <==> a in ids
    ensures a in classOf ==> classOf[a] == Classify(db, account, a) && classOf[a] != RefusedId
  {
    if a in ids {
      var k :| 0 <= k < |rows| && rows[k].0 == a;
    }
    if a in classOf {
      var k :| 0 <= k < |rows| && rows[k] == (a, classOf[a]);
    }
  }

  lemma IndexedClasses(db: Db, account: Id, ids: seq<Id>, rows: seq<(Id, Class)>, classOf: map<Id, Class>)
    requires rows == ClassifyAssetSet(db, account, ids) && !RefusedRow(rows)
    requires forall a | a in classOf :: (a, classOf[a]) in rows
    requires forall k | 0 <= k < |rows| :: rows[k].0 in classOf
    ensures forall a | a in ids :: a in classOf && classOf[a] != RefusedId
    ensures WithClass(classOf, LiveId) == IdsOf(db, account, ids, LiveId)
    ensures WithClass(classOf, GoneId) == IdsOf(db, account, ids, GoneId)
  {
    forall a
      ensures a in classOf <==> a in ids
      ensures a in classOf ==> classOf[a] == Classify(db, account, a) && classOf[a] != RefusedId
    {
      IndexedClass(db, account, ids, rows, classOf, a);
    }
  }

  /** Live and gone ids of a request, each once, in request order. */
  method LiveAndGone(ids: seq<Id>, classOf: map<Id, Class>) returns (live: seq<Id>, gone: seq<Id>)
    requires forall a | a in ids :: a in classOf && classOf[a] != RefusedId
    ensures live == Keep(FirstOccurrences(ids), WithClass(classOf, LiveId))
    ensures gone == Keep(FirstOccurrences(ids), WithClass(classOf, GoneId))
  {
    ghost var lives, gones := WithClass(classOf, LiveId), WithClass(classOf, GoneId);
    live, gone := [], [];
    var seen: set<Id> := {};
    var k := 0;
    while k < |ids|
      invariant 0 <= k <= |ids|
      invariant seen == Members(ids[..k])
      invariant live == Keep(FirstOccurrences(ids[..k]), lives)
      invariant gone == Keep(FirstOccurrences(ids[..k]), gones)
    {
      var aid := ids[k];
      PrefixStep(ids, k, lives);
      PrefixStep(ids, k, gones);
      k := k + 1;
      if aid in seen {
        continue;
      }
      seen := seen + {aid};
      if classOf[aid] == LiveId {
        live := live + [aid];
      } else {
        gone := gone + [aid];
      }
    }
    assert ids[..|ids|] == ids;
  }

  lemma PrefixStep(ids: seq<Id>, k: nat, wanted: set<Id>)
    requires k < |ids|
    ensures Keep(FirstOccurrences(ids[..k + 1]), wanted)
         == if ids[k] !in ids[..k] && ids[k] in wanted
            then Keep(FirstOccurrences(ids[..k]), wanted) + [ids[k]]
            else Keep(FirstOccurrences(ids[..k]), wanted)
    ensures Members(ids[..k + 1]) == Members(ids[..k]) + {ids[k]}
    ensures ids[k] in Members(ids[..k]) <==> ids[k] in ids[..k]
  {
    assert ids[..k + 1] == ids[..k] + [ids[k]];
    assert ids[..k + 1][..k] == ids[..k];
    var f := FirstOccurrences(ids[..k]);
    if ids[k] in ids[..k] {
      assert f + [] == f;
    } else {
      assert (f + [ids[k]])[..|f|] == f;
    }
  }

  // ---- what an export freezes ------------------------------------------------------------------

  lemma {:induction false} FirstOccurrencesOf(ids: seq<Id>)
    ensures forall id :: id in FirstOccurrences(ids) <==> id in ids
    ensures Distinct(FirstOccurrences(ids))
  {
    if ids != [] {
      FirstOccurrencesOf(ids[..|ids| - 1]);
      assert ids == ids[..|ids| - 1] + [ids[|ids| - 1]];
    }
  }

  lemma {:induction false} KeepOf(ids: seq<Id>, wanted: set<Id>)
    ensures forall id :: id in Keep(ids, wanted) <==> id in ids && id in wanted
    ensures Distinct(ids) ==> Distinct(Keep(ids, wanted))
  {
    if ids != [] {
      var init, last := ids[..|ids| - 1], ids[|ids| - 1];
      KeepOf(init, wanted);
      assert ids == init + [last];
      if Distinct(ids) {
        assert Distinct(init) && last !in init;
        assert last !in Keep(init, wanted);
      }
    }
  }

  /** `x` stands in the list before any `y` does. */
  ghost predicate Precedes(ids: seq<Id>, x: Id, y: Id) {
    exists i :: StandsFirst(ids, i, x, y)
  }

  ghost predicate StandsFirst(ids: seq<Id>, i: int, x: Id, y: Id) {
    0 <= i < |ids| && ids[i] == x && forall k | 0 <= k <= i :: ids[k] != y
  }

  lemma PrecedesInLonger(ids: seq<Id>, more: seq<Id>, x: Id, y: Id)
    requires Precedes(ids, x, y)
    ensures Precedes(ids + more, x, y)
  {
    var i :| StandsFirst(ids, i, x, y);
    assert StandsFirst(ids + more, i, x, y);
  }

  lemma AbsentPrecedes(ids: seq<Id>, x: Id, y: Id)
    requires x in ids && y !in ids
    ensures Precedes(ids, x, y)
  {
    var i :| 0 <= i < |ids| && ids[i] == x;
    assert StandsFirst(ids, i, x, y);
  }

  lemma PrecedesInInit(ids: seq<Id>, x: Id, y: Id)
    requires ids != [] && y in ids && x != y && Precedes(ids, x, y)
    ensures x in ids[..|ids| - 1] && Precedes(ids[..|ids| - 1], x, y)
  {
    var i :| StandsFirst(ids, i, x, y);
    var j :| 0 <= j < |ids| && ids[j] == y;
    assert StandsFirst(ids[..|ids| - 1], i, x, y);
    assert ids[..|ids| - 1][i] == x;
  }

  lemma {:induction false} FirstOccurrencesOrder(ids: seq<Id>, x: Id, y: Id)
    requires y in ids && x != y && Precedes(ids, x, y)
    ensures Precedes(FirstOccurrences(ids), x, y)
  {
    var init, last := ids[..|ids| - 1], ids[|ids| - 1];
    PrecedesInInit(ids, x, y);
    FirstOccurrencesOf(init);
    if y in init {
      FirstOccurrencesOrder(init, x, y);
    } else {
      AbsentPrecedes(FirstOccurrences(init), x, y);
    }
    PrecedesInLonger(FirstOccurrences(init), if last in init then [] else [last], x, y);
  }

  lemma {:induction false} KeepOrder(ids: seq<Id>, wanted: set<Id>, x: Id, y: Id)
    requires y in ids && x != y && Precedes(ids, x, y) && x in wanted
    ensures Precedes(Keep(ids, wanted), x, y)
  {
    var init, last := ids[..|ids| - 1], ids[|ids| - 1];
    PrecedesInInit(ids, x, y);
    KeepOf(init, wanted);
    if y in init {
      KeepOrder(init, wanted, x, y);
    } else {
      AbsentPrecedes(Keep(init, wanted), x, y);
    }
    PrecedesInLonger(Keep(init, wanted), if last in wanted then [last] else [], x, y);
  }

  /** An export splits the request in two: when no id is refused, the live and the gone ids are each listed once,
      share nothing, and together cover everything asked for. */
  lemma ExportPartitions(db: Db, account: Id, ids: seq<Id>)
    requires !AnyRefused(db, account, ids)
    ensures Distinct(LiveIds(db, account, ids)) && Distinct(GoneIds(db, account, ids))
    ensures forall id :: id in LiveIds(db, account, ids) <==> id in ids && Classify(db, account, id) == LiveId
    ensures forall id :: id in GoneIds(db, account, ids) <==> id in ids && Classify(db, account, id) == GoneId
    ensures forall id :: id in LiveIds(db, account, ids) || id in GoneIds(db, account, ids) <==> id in ids
  {
    FirstOccurrencesOf(ids);
    KeepOf(FirstOccurrences(ids), IdsOf(db, account, ids, LiveId));
    KeepOf(FirstOccurrences(ids), IdsOf(db, account, ids, GoneId));
  }

  /** Frozen and gone ids stand in the order in which they were first asked for. */
  lemma ExportKeepsOrder(db: Db, account: Id, ids: seq<Id>, x: Id, y: Id)
    requires x in ids && y in ids && x != y && Precedes(ids, x, y)
    ensures Classify(db, account, x) == LiveId ==> Precedes(LiveIds(db, account, ids), x, y)
    ensures Classify(db, account, x) == GoneId ==> Precedes(GoneIds(db, account, ids), x, y)
  {
    FirstOccurrencesOf(ids);
    FirstOccurrencesOrder(ids, x, y);
    if Classify(db, account, x) == LiveId {
      KeepOrder(FirstOccurrences(ids), IdsOf(db, account, ids, LiveId), x, y);
    }
    if Classify(db, account, x) == GoneId {
      KeepOrder(FirstOccurrences(ids), IdsOf(db, account, ids, GoneId), x, y);
    }
  }
}
