/** One pass of each sweep over tables and storage, object by object, with every deletion and every mark free to
    fail. */
module Reconcile {
  import opened Collections
  import opened Contract
  import opened Records
  import opened AssetStore
  import JobQueue

  // ---- selecting ------------------------------------------------------------

  function DeletedBefore(assets: map<Id, Asset>, cutoff: int): set<Id> {
    set a | a in assets && assets[a].deletedAt.Some? && assets[a].deletedAt.value < cutoff
  }

  function ReclaimableIds(uploads: map<Id, Upload>, cutoff: int): set<Id> {
    set u | u in uploads && Reclaimable(uploads[u], cutoff)
  }

  /** An ordered, limited selection: distinct ids of the set, oldest first, as many as fit. */
  ghost predicate IsBatch(ids: set<Id>, age: Id -> int, limit: nat, batch: seq<Id>) {
    && Distinct(batch) && (forall id | id in batch :: id in ids)
    && (forall i, j | 0 <= i < j < |batch| :: age(batch[i]) <= age(batch[j]))
    && (forall i, id | 0 <= i < |batch| && id in ids && id !in batch :: age(batch[i]) <= age(id))
    && |batch| <= limit && (|batch| < limit ==> forall id | id in ids :: id in batch)
  }

  lemma {:induction false} OldestOf(ids: set<Id>, age: Id -> int) returns (m: Id)
    requires ids != {}
    ensures m in ids && forall id | id in ids :: age(m) <= age(id)
    decreases ids
  {
    m :| m in ids;
    if ids != {m} {
      var n := OldestOf(ids - {m}, age);
      if age(n) < age(m) { m := n; }
    }
  }

  /** The selection query: the oldest rows of the set, one after another, up to the limit. */
  method SelectOldest(ids: set<Id>, age: Id -> int, limit: nat) returns (batch: seq<Id>)
    ensures IsBatch(ids, age, limit, batch)
  {
    batch := [];
    var rest := ids;
    while |batch| < limit && rest != {}
      invariant IsBatch(ids, age, |batch|, batch) && |batch| <= limit
      invariant rest == ids - Members(batch)
      decreases rest
    {
      ghost var oldest := OldestOf(rest, age);
      var next :| next in rest && forall id | id in rest :: age(next) <= age(id);
      ghost var longer := OneLonger(ids, age, |batch|, batch, next);
      rest := rest - {next};
      batch := batch + [next];
    }
    if rest == {} {
      assert forall id | id in ids :: id in rest || id in Members(batch);
    }
  }

  lemma OneLonger(ids: set<Id>, age: Id -> int, limit: nat, batch: seq<Id>, next: Id) returns (longer: seq<Id>)
    requires IsBatch(ids, age, limit, batch) && |batch| == limit && next in ids - Members(batch)
    requires forall id | id in ids - Members(batch) :: age(next) <= age(id)
    ensures longer == batch + [next] && IsBatch(ids, age, limit + 1, longer)
    ensures Members(longer) == Members(batch) + {next}
  {
    longer := batch + [next];
    assert next in ids && next !in batch;
    assert forall id :: id in longer <==> id in batch || id == next;
    forall i, j | 0 <= i < j < |longer| ensures longer[i] != longer[j] && age(longer[i]) <= age(longer[j]) {
      if j == |batch| { assert longer[i] == batch[i] && batch[i] in batch; }
    }
    forall i, id | 0 <= i < |longer| && id in ids && id !in longer ensures age(longer[i]) <= age(id) {
      if i == |batch| { assert id in ids - Members(batch); }
    }
  }

  // ---- what a pass leaves ---------------------------------------------------------

  /** Which of the listed ids a pass gets through: its object's deletion did not fail. */
  function Reached(batch: seq<Id>, deleteFails: set<Id>): set<Id> {
    set id | id in batch && id !in deleteFails
  }

  function UploadKeys(uploads: map<Id, Upload>, ids: set<Id>): set<string> {
    set id | id in ids && id in uploads :: uploads[id].key
  }

  function VaultKeys(assets: map<Id, Asset>, ids: set<Id>): set<string> {
    set id | id in ids && id in assets :: assets[id].vaultKey
  }

  function SweptRows(uploads: map<Id, Upload>, ids: set<Id>, now: int): map<Id, Upload> {
    map u | u in uploads :: if u in ids then uploads[u].(sweptAt := Some(now)) else uploads[u]
  }

  function PurgedTables(t: Tables, ids: set<Id>): Tables {
    Tables(map a | a in t.assets && a !in ids :: t.assets[a],
           map j | j in t.jobs && t.jobs[j].asset !in ids :: t.jobs[j],
           map r | r in t.renditions && r.0 !in ids :: t.renditions[r])
  }

  const DEFAULT_BATCH := 100

  class Reconciler {
    const grace: int
    const batchSize: nat
    var db: Db
    var objects: set<string>

    constructor (db: Db, objects: set<string>, grace: int, batchSize: int)
      ensures this.db == db && this.objects == objects && this.batchSize > 0
      ensures this.grace == (if grace == 0 then 6 * 3600 else grace)
      ensures this.batchSize == (if batchSize > 0 then batchSize else 100)
    {
      this.db, this.objects := db, objects;
      this.grace := if grace == 0 then 6 * 3600 else grace;
      this.batchSize := if batchSize <= 0 then DEFAULT_BATCH else batchSize;
    }

    /** Orphans: an object whose deletion fails keeps its row for the next pass; one that goes is counted, and its row
        stamped unless the stamp fails. */
    method SweepOnce(now: int, deleteFails: set<Id>, markFails: set<Id>) returns (cleaned: nat, ghost batch: seq<Id>)
      modifies this
      ensures IsBatch(ReclaimableIds(old(db).uploads, now - grace), Age(old(db).uploads), batchSize, batch)
      ensures forall u | u in batch ::
                && u in old(db).uploads && old(db).uploads[u].finalizedAt == None
                && old(db).uploads[u].sweptAt == None && now - old(db).uploads[u].created > grace
      ensures |batch| < batchSize ==>
                forall u | u in old(db).uploads && old(db).uploads[u].finalizedAt == None
                           && old(db).uploads[u].sweptAt == None && now - old(db).uploads[u].created > grace ::
                  u in batch
      ensures cleaned == |Reached(batch, deleteFails)|
      ensures objects == old(objects) - UploadKeys(old(db).uploads, Reached(batch, deleteFails))
      ensures db == old(db).(uploads := SweptRows(old(db).uploads, Reached(batch, deleteFails) - markFails, now))
    {
      var orphans := SelectOldest(ReclaimableIds(db.uploads, now - grace), Age(db.uploads), batchSize);
      batch := orphans;
      db, objects, cleaned := CleanOrphans(db, objects, orphans, deleteFails, markFails, now);
    }

    /** Deleted assets: bytes first, then the row; a failure at either keeps the row for the next pass. */
    method SweepDeletedAssets(now: int, deleteFails: set<Id>, purgeFails: set<Id>)
      returns (purged: nat, ghost batch: seq<Id>)
      modifies this
      ensures IsBatch(DeletedBefore(old(db).t.assets, now - grace), DeletionAge(old(db).t.assets), batchSize, batch)
      ensures forall a | a in batch ::
                && a in old(db).t.assets && old(db).t.assets[a].deletedAt.Some?
                && now - old(db).t.assets[a].deletedAt.value > grace
      ensures |batch| < batchSize ==>
                forall a | a in old(db).t.assets && old(db).t.assets[a].deletedAt.Some?
                           && now - old(db).t.assets[a].deletedAt.value > grace :: a in batch
      ensures purged == |Reached(batch, deleteFails + purgeFails)|
      ensures objects == old(objects) - VaultKeys(old(db).t.assets, Reached(batch, deleteFails))
      ensures db == old(db).(t := PurgedTables(old(db).t, Reached(batch, deleteFails + purgeFails)))
    {
      var doomed := SelectOldest(DeletedBefore(db.t.assets, now - grace), DeletionAge(db.t.assets), batchSize);
      batch := doomed;
      db, objects, purged := PurgeDoomed(db, objects, doomed, deleteFails, purgeFails);
    }
  }

  /** Tables and objects once these orphans' objects are gone. */
  function Cleaned(db: Db, objects: set<string>, reached: set<Id>, markFails: set<Id>, now: int): (Db, set<string>) {
    (db.(uploads := SweptRows(db.uploads, reached - markFails, now)), objects - UploadKeys(db.uploads, reached))
  }

  lemma CleanNext(db: Db, objects: set<string>, reached: set<Id>, u: Id, markFails: set<Id>, now: int)
    requires u in db.uploads && u !in reached
    ensures
      var (db', objects') := Cleaned(db, objects, reached, markFails, now);
      && u in db'.uploads
      && Cleaned(db, objects, reached + {u}, markFails, now)
         == (if u in markFails then db' else Swept(db', u, now), objects' - {db'.uploads[u].key})
  {
    SweptNext(db, reached, markFails, u, now);
    OneLess(objects, UploadKeys(db.uploads, reached), db.uploads[u].key);
  }

  lemma OneLess(objects: set<string>, keys: set<string>, key: string)
    ensures objects - (keys + {key}) == objects - keys - {key}
  {
  }

  /** The loop over the selected orphans. */
  method CleanOrphans(db0: Db, objects0: set<string>, orphans: seq<Id>, deleteFails: set<Id>, markFails: set<Id>,
                      now: int)
    returns (db: Db, objects: set<string>, cleaned: nat)
    requires Distinct(orphans) && forall u | u in orphans :: u in db0.uploads
    ensures (db, objects) == Cleaned(db0, objects0, Reached(orphans, deleteFails), markFails, now)
    ensures cleaned == |Reached(orphans, deleteFails)|
  {
    db, objects, cleaned := db0, objects0, 0;
    NoneCleaned(db0, objects0, markFails, now);
    assert Reached(orphans[..0], deleteFails) == {};
    var k := 0;
    while k < |orphans|
      invariant 0 <= k <= |orphans|
      invariant (db, objects) == Cleaned(db0, objects0, Reached(orphans[..k], deleteFails), markFails, now)
      invariant cleaned == |Reached(orphans[..k], deleteFails)|
    {
      var u := orphans[k];
      ReachedNext(orphans, k, deleteFails);
      k := k + 1;
      if u in deleteFails {
        continue;
      }
      CleanNext(db0, objects0, Reached(orphans[..k - 1], deleteFails), u, markFails, now);
      objects := objects - {db.uploads[u].key};
      if u !in markFails {
        db := Swept(db, u, now);
      }
      cleaned := cleaned + 1;
    }
    assert orphans[..|orphans|] == orphans;
  }

  /** Tables and objects once the objects of `reached` are deleted and the rows of `gone` purged. */
  function Doomed(db: Db, objects: set<string>, reached: set<Id>, gone: set<Id>): (Db, set<string>) {
    (db.(t := PurgedTables(db.t, gone)), objects - VaultKeys(db.t.assets, reached))
  }

  lemma PurgeNext(db: Db, objects: set<string>, reached: set<Id>, gone: set<Id>, d: Id)
    requires d in db.t.assets && db.t.assets[d].deletedAt.Some? && d !in gone
    ensures
      var (db', objects') := Doomed(db, objects, reached, gone);
      && d in db'.t.assets
      && Doomed(db, objects, reached + {d}, gone) == (db', objects' - {db'.t.assets[d].vaultKey})
      && Doomed(db, objects, reached + {d}, gone + {d})
         == (db'.(t := JobQueue.Purged(db'.t, d)), objects' - {db'.t.assets[d].vaultKey})
  {
    PurgedNext(db.t, gone, reached, d);
    OneLess(objects, VaultKeys(db.t.assets, reached), db.t.assets[d].vaultKey);
  }

  /** The loop over the selected deletions. */
  method PurgeDoomed(db0: Db, objects0: set<string>, doomed: seq<Id>, deleteFails: set<Id>, purgeFails: set<Id>)
    returns (db: Db, objects: set<string>, purged: nat)
    requires Distinct(doomed) && forall d | d in doomed :: d in db0.t.assets && db0.t.assets[d].deletedAt.Some?
    ensures (db, objects)
         == Doomed(db0, objects0, Reached(doomed, deleteFails), Reached(doomed, deleteFails + purgeFails))
    ensures purged == |Reached(doomed, deleteFails + purgeFails)|
  {
    db, objects, purged := db0, objects0, 0;
    NoneDoomed(db0, objects0);
    assert Reached(doomed[..0], deleteFails) == {} && Reached(doomed[..0], deleteFails + purgeFails) == {};
    var k := 0;
    while k < |doomed|
      invariant 0 <= k <= |doomed|
      invariant (db, objects)
             == Doomed(db0, objects0, Reached(doomed[..k], deleteFails), Reached(doomed[..k], deleteFails + purgeFails))
      invariant purged == |Reached(doomed[..k], deleteFails + purgeFails)|
    {
      var d := doomed[k];
      ReachedNext(doomed, k, deleteFails);
      ReachedNext(doomed, k, deleteFails + purgeFails);
      k := k + 1;
      if d in deleteFails {
        continue;
      }
      PurgeNext(db0, objects0, Reached(doomed[..k - 1], deleteFails),
                Reached(doomed[..k - 1], deleteFails + purgeFails), d);
      objects := objects - {db.t.assets[d].vaultKey};
      if d in purgeFails {
        continue;
      }
      db := db.(t := JobQueue.Purged(db.t, d));
      purged := purged + 1;
    }
    assert doomed[..|doomed|] == doomed;
  }

  function DeletionAge(assets: map<Id, Asset>): Id -> int {
    id => if id in assets && assets[id].deletedAt.Some? then assets[id].deletedAt.value else 0
  }

  lemma SweptNext(db: Db, reached: set<Id>, markFails: set<Id>, u: Id, now: int)
    requires u in db.uploads && u !in reached
    ensures UploadKeys(db.uploads, reached + {u}) == UploadKeys(db.uploads, reached) + {db.uploads[u].key}
    ensures SweptRows(db.uploads, reached - markFails, now)[u].key == db.uploads[u].key
    ensures db.(uploads := SweptRows(db.uploads, (reached + {u}) - markFails, now))
         == var before := db.(uploads := SweptRows(db.uploads, reached - markFails, now));
            if u in markFails then before else Swept(before, u, now)
  {
    var before := SweptRows(db.uploads, reached - markFails, now);
    assert UploadKeys(db.uploads, reached + {u}) == UploadKeys(db.uploads, reached) + {db.uploads[u].key};
    if u in markFails {
      assert (reached + {u}) - markFails == reached - markFails;
    } else {
      assert SweptRows(db.uploads, (reached + {u}) - markFails, now) == before[u := before[u].(sweptAt := Some(now))];
    }
  }

  lemma NoneCleaned(db: Db, objects: set<string>, markFails: set<Id>, now: int)
    ensures Cleaned(db, objects, {}, markFails, now) == (db, objects)
  {
    assert UploadKeys(db.uploads, {}) == {} && objects - {} == objects;
    assert SweptRows(db.uploads, {} - markFails, now) == db.uploads;
  }

  lemma NoneDoomed(db: Db, objects: set<string>)
    ensures Doomed(db, objects, {}, {}) == (db, objects)
  {
    assert VaultKeys(db.t.assets, {}) == {} && objects - {} == objects;
    assert PurgedTables(db.t, {}) == db.t;
  }

  lemma PurgedNext(t: Tables, gone: set<Id>, reached: set<Id>, d: Id)
    requires d in t.assets && t.assets[d].deletedAt.Some? && d !in gone
    ensures VaultKeys(t.assets, reached + {d}) == VaultKeys(t.assets, reached) + {t.assets[d].vaultKey}
    ensures d in PurgedTables(t, gone).assets && PurgedTables(t, gone).assets[d] == t.assets[d]
    ensures PurgedTables(t, gone + {d}) == JobQueue.Purged(PurgedTables(t, gone), d)
  {
    assert VaultKeys(t.assets, reached + {d}) == VaultKeys(t.assets, reached) + {t.assets[d].vaultKey};
    var before, after := PurgedTables(t, gone), PurgedTables(t, gone + {d});
    assert after.assets == before.assets - {d};
    assert after.jobs == JobQueue.Purged(before, d).jobs;
    assert after.renditions == JobQueue.Purged(before, d).renditions;
  }

  function Age(uploads: map<Id, Upload>): Id -> int {
    id => if id in uploads then uploads[id].created else 0
  }

  lemma ReachedNext(ids: seq<Id>, k: nat, deleteFails: set<Id>)
    requires Distinct(ids) && k < |ids|
    ensures Reached(ids[..k + 1], deleteFails)
         == if ids[k] in deleteFails then Reached(ids[..k], deleteFails) else Reached(ids[..k], deleteFails) + {ids[k]}
    ensures ids[k] !in Reached(ids[..k], deleteFails)
  {
    assert ids[..k + 1] == ids[..k] + [ids[k]];
  }

  /** The orphan sweep turns to the oldest first: no upload it could take is older than one it takes before it, or
      instead of it. */
  lemma OldestFirst(uploads: map<Id, Upload>, cutoff: int, limit: nat, batch: seq<Id>, i: nat, u: Id)
    requires IsBatch(ReclaimableIds(uploads, cutoff), Age(uploads), limit, batch) && i < |batch|
    requires u in uploads && uploads[u].finalizedAt == None && uploads[u].sweptAt == None && uploads[u].created < cutoff
    requires u !in batch[..i]
    ensures batch[i] in uploads && uploads[batch[i]].created <= uploads[u].created
  {
    assert batch[i] in batch && u in ReclaimableIds(uploads, cutoff);
    forall k | 0 <= k < i ensures batch[k] in batch[..i] {
      assert batch[..i][k] == batch[k];
    }
  }

  /** And the other sweep to what was deleted longest ago. */
  lemma LongestDeletedFirst(assets: map<Id, Asset>, cutoff: int, limit: nat, batch: seq<Id>, i: nat, a: Id)
    requires IsBatch(DeletedBefore(assets, cutoff), DeletionAge(assets), limit, batch) && i < |batch|
    requires a in assets && assets[a].deletedAt.Some? && assets[a].deletedAt.value < cutoff && a !in batch[..i]
    ensures batch[i] in assets && assets[batch[i]].deletedAt.Some?
    ensures assets[batch[i]].deletedAt.value <= assets[a].deletedAt.value
  {
    assert batch[i] in batch && a in DeletedBefore(assets, cutoff);
    forall k | 0 <= k < i ensures batch[k] in batch[..i] {
      assert batch[..i][k] == batch[k];
    }
  }

  // ---- each row is dealt with once -------------------------------------------------

  /** What a pass marks or purges never comes back in a later selection, and nothing else leaves it. */
  lemma DealtWithOnce(db: Db, reached: set<Id>, gone: set<Id>, markFails: set<Id>, now: int, cutoff: int)
    ensures ReclaimableIds(SweptRows(db.uploads, reached - markFails, now), cutoff)
         == ReclaimableIds(db.uploads, cutoff) - (reached - markFails)
    ensures DeletedBefore(PurgedTables(db.t, gone).assets, cutoff) == DeletedBefore(db.t.assets, cutoff) - gone
  {
    assert forall u | u in db.uploads :: u in SweptRows(db.uploads, reached - markFails, now);
  }
}
