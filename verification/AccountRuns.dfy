/** Isolation over whole runs, with workers and both sweeps at work in the background. */
module AccountRuns {
  import opened Contract
  import opened Records
  import opened AssetStore
  import opened JobQueue
  import opened TokenApi
  import opened AccountScope
  import Checksum

  // ---- the background: worker statements and sweeps ---------------------------------------------

  /** These rows are the account's alone, keep the ties, and make this of the database. */
  ghost predicate Writes(db: Db, account: Id, rows: Db, after: Db) {
    OwnRows(db, account, rows) && KeepsTies(db, rows) && Applied(db, rows) == after
  }

  /** What a worker's statement may do to the job it holds. */
  datatype Statement =
    | Claim(now: int)
    | Beat(now: int)
    | Complete(record: RenditionRecord)
    | Close
    | Fail(attempts: nat, maxAttempts: nat, why: ReasonCode)
    | Refuse(reason: ReasonCode)
    | Decline

  function Done(t: Tables, id: Id, st: Statement): Tables
    requires id in t.jobs
  {
    var row := t.jobs[id];
    match st
    case Claim(now) => Claimed(t, id, now)
    case Beat(now) => Beaten(t, id, now)
    case Complete(record) => if Completed(t, id, record).Some? then Completed(t, id, record).value else t
    case Close => Closed(t, id)
    case Fail(attempts, maxAttempts, why) => FailureWritten(t, id, attempts, maxAttempts, why)
    case Refuse(reason) =>
      var after := RefusalWritten(t, row.asset, row.intent, reason);
      if after.Some? then after.value else t
    case Decline =>
      var after := Declined(t, row.asset, row.intent);
      if after.Some? then after.value else t
  }

  function DoneDb(db: Db, id: Id, st: Statement): Db {
    if id in db.t.jobs then db.(t := Done(db.t, id, st)) else db
  }

  function Outcome(t: Tables, id: Id): map<(Id, Intent), Rendition>
    requires id in t.jobs
  {
    var key := (t.jobs[id].asset, t.jobs[id].intent);
    if key in t.renditions then map[key := t.renditions[key]] else map[]
  }

  /** A statement touches its job's row and the rendition of that job's work, and neither's identity. */
  lemma DoneTouches(t: Tables, id: Id, st: Statement)
    requires id in t.jobs
    ensures
      var after := Done(t, id, st);
      && id in after.jobs && after.assets == t.assets && after.jobs == t.jobs[id := after.jobs[id]]
      && after.jobs[id].account == t.jobs[id].account && after.jobs[id].asset == t.jobs[id].asset
      && after.jobs[id].intent == t.jobs[id].intent
      && after.renditions == t.renditions + Outcome(after, id)
  {
    var after := Done(t, id, st);
    assert t.jobs[id := t.jobs[id]] == t.jobs;
    var key := (t.jobs[id].asset, t.jobs[id].intent);
    assert after.renditions == t.renditions
      || (key in after.renditions && after.renditions == t.renditions[key := after.renditions[key]]);
  }

  function StatementRows(t: Tables, id: Id, st: Statement): Db
    requires id in t.jobs
  {
    DoneTouches(t, id, st);
    var after := Done(t, id, st);
    NOTHING.(t := Tables(map[], map[id := after.jobs[id]], Outcome(after, id)))
  }

  /** Everything a worker's statements do to a job stays with the job's account. */
  lemma WorkersStayHome(db: Db, id: Id, st: Statement)
    requires Consistent(db) && id in db.t.jobs
    ensures Writes(db, db.t.jobs[id].account, StatementRows(db.t, id, st), DoneDb(db, id, st))
  {
    var row, rows := db.t.jobs[id], StatementRows(db.t, id, st);
    DoneTouches(db.t, id, st);
    assert Owns(db, row.account, row.asset);
    NoTies(db, rows);
    OtherTables(db);
    NoRows(db.uploads);
    NoRows(db.t.assets);
    OneRow(db.t.jobs, id, rows.t.jobs[id]);
    assert forall r | r in rows.t.renditions :: r.0 == row.asset;
    assert Owns(Applied(db, rows), row.account, row.asset);
  }

  /** A statement reads nothing but its job's row, the rendition of its work and whether the asset is there. */
  lemma StatementIsLocal(db: Db, id: Id, st: Statement)
    requires Consistent(db) && id in db.t.jobs
    ensures
      var mine := View(db, db.t.jobs[id].account);
      id in mine.t.jobs && StatementRows(mine.t, id, st) == StatementRows(db.t, id, st)
  {
    var row := db.t.jobs[id];
    var mine := View(db, row.account);
    assert Owns(db, row.account, row.asset);
    assert id in mine.t.jobs && mine.t.jobs[id] == row;
    ViewReads(db, row.account, row.asset);
    SameStatement(db.t, mine.t, id, st);
  }

  lemma SameStatement(t: Tables, t': Tables, id: Id, st: Statement)
    requires id in t.jobs && id in t'.jobs && t'.jobs[id] == t.jobs[id]
    requires t.jobs[id].asset in t.assets && t.jobs[id].asset in t'.assets
    requires
      var key := (t.jobs[id].asset, t.jobs[id].intent);
      && (key in t.renditions <==> key in t'.renditions)
      && (key in t.renditions ==> t'.renditions[key] == t.renditions[key])
    ensures StatementRows(t, id, st) == StatementRows(t', id, st)
  {
  }

  // ---- statements about an asset by its id alone -------------------------------------------------

  /** The checksum sweep's claim, release and mark, and the worker's write-back of what it probed. */
  datatype AssetStatement =
    | StampSum(at: Option<int>)
    | MarkSum(sum: string)
    | WriteProbe(width: Option<int>, height: Option<int>)

  function DoneToAsset(t: Tables, a: Id, st: AssetStatement): Tables {
    match st
    case StampSum(at) => Checksum.CheckedAt(t, a, at)
    case MarkSum(sum) => Checksum.Marked(t, a, sum).1
    case WriteProbe(width, height) =>
      if a in t.assets then t.(assets := t.assets[a := t.assets[a].(width := width, height := height)]) else t
  }

  function DoneToAssetDb(db: Db, a: Id, st: AssetStatement): Db {
    db.(t := DoneToAsset(db.t, a, st))
  }

  function AssetRows(t: Tables, a: Id, st: AssetStatement): Db
    requires a in t.assets
  {
    NOTHING.(t := Tables(map[a := DoneToAsset(t, a, st).assets[a]], map[], map[]))
  }

  /** They write nothing but that asset's row, and of it only what was measured and when. */
  lemma AssetStatementTouches(t: Tables, a: Id, st: AssetStatement)
    requires a in t.assets
    ensures a in DoneToAsset(t, a, st).assets
    ensures
      var row, after := t.assets[a], DoneToAsset(t, a, st).assets[a];
      && DoneToAsset(t, a, st) == t.(assets := t.assets[a := after])
      && after == row.(checksum := after.checksum, checksumVerified := after.checksumVerified,
                       checkedAt := after.checkedAt, width := after.width, height := after.height)
  {
    assert t.assets[a := t.assets[a]] == t.assets;
  }

  /** They name no account, and yet stay with the asset's. */
  lemma AssetStatementsStayHome(db: Db, account: Id, a: Id, st: AssetStatement)
    requires Consistent(db) && Owns(db, account, a)
    ensures Writes(db, account, AssetRows(db.t, a, st), DoneToAssetDb(db, a, st))
  {
    AssetStatementTouches(db.t, a, st);
    OtherTables(db);
    NoRows(db.uploads);
    OneRow(db.t.assets, a, AssetRows(db.t, a, st).t.assets[a]);
    assert OwnsUpload(db, account, a);
  }

  /** And they read only that row. */
  lemma AssetStatementIsLocal(db: Db, account: Id, a: Id, st: AssetStatement)
    requires Owns(db, account, a)
    ensures Owns(View(db, account), account, a) && AssetRows(View(db, account).t, a, st) == AssetRows(db.t, a, st)
  {
    ViewReads(db, account, a);
  }

  function SweptRow(db: Db, id: Id, now: int): Db
    requires id in db.uploads
  {
    NOTHING.(uploads := map[id := db.uploads[id].(sweptAt := Some(now))])
  }

  /** The orphan sweep's stamp stays with the upload's account. */
  lemma SweepStaysHome(db: Db, account: Id, id: Id, now: int)
    requires Consistent(db) && OwnsUpload(db, account, id)
    ensures Writes(db, account, SweptRow(db, id, now), Swept(db, id, now))
  {
    OtherTables(db);
    NoRows(db.t.assets);
    OneRow(db.uploads, id, db.uploads[id].(sweptAt := Some(now)));
    assert KeepsUpload(db, SweptRow(db, id, now), id);
  }

  function PurgedDb(db: Db, id: Id): Db {
    db.(t := Purged(db.t, id))
  }

  lemma PurgeKeepsConsistency(db: Db, id: Id)
    requires Consistent(db)
    ensures Consistent(PurgedDb(db, id))
  {
    assert forall a | a in Purged(db.t, id).assets :: a in db.t.assets && Purged(db.t, id).assets[a] == db.t.assets[a];
  }

  /** The condition holds through both sweeps too. */
  lemma SweepsKeepConsistency(db: Db, id: Id, now: int)
    requires Consistent(db)
    ensures Consistent(Swept(db, id, now)) && Consistent(PurgedDb(db, id))
  {
    PurgeKeepsConsistency(db, id);
    if id in db.uploads {
      var account := db.uploads[id].account;
      SweepStaysHome(db, account, id, now);
      TiesKeepConsistency(db, account, SweptRow(db, id, now));
    }
  }

  lemma PurgedJob(db: Db, account: Id, id: Id, who: Id, j: Id)
    requires Consistent(db) && Owns(db, account, id) && db.t.assets[id].deletedAt.Some?
    ensures j in Mine(Purged(db.t, id).jobs, JobOwner, who)
       <==> j in Mine(db.t.jobs, JobOwner, who) && db.t.jobs[j].asset != id
    ensures who != account && j in Mine(db.t.jobs, JobOwner, who) ==> db.t.jobs[j].asset != id
  {
    if j in db.t.jobs {
      assert Owns(db, db.t.jobs[j].account, db.t.jobs[j].asset);
    }
  }

  lemma PurgedJobs(db: Db, account: Id, id: Id, who: Id)
    requires Consistent(db) && Owns(db, account, id) && db.t.assets[id].deletedAt.Some?
    ensures
      var mine := Mine(db.t.jobs, JobOwner, who);
      && Mine(Purged(db.t, id).jobs, JobOwner, who) == (map j | j in mine && mine[j].asset != id :: mine[j])
      && (who != account ==> Mine(Purged(db.t, id).jobs, JobOwner, who) == mine)
  {
    var after, mine := Mine(Purged(db.t, id).jobs, JobOwner, who), Mine(db.t.jobs, JobOwner, who);
    forall j
      ensures j in after <==> j in mine && mine[j].asset != id
      ensures who != account && j in mine ==> mine[j].asset != id
    {
      PurgedJob(db, account, id, who, j);
    }
    SameMap(after, map j | j in mine && mine[j].asset != id :: mine[j]);
  }

  lemma PurgedRenditions(db: Db, account: Id, id: Id, who: Id)
    requires Owns(db, account, id) && db.t.assets[id].deletedAt.Some?
    ensures
      var mine := MyRenditions(db.t, who);
      && MyRenditions(Purged(db.t, id), who) == (map r | r in mine && r.0 != id :: mine[r])
      && (who != account ==> MyRenditions(Purged(db.t, id), who) == mine)
  {
    var after, mine := MyRenditions(Purged(db.t, id), who), MyRenditions(db.t, who);
    assert forall r :: r in after <==> r in mine && r.0 != id;
    SameMap(after, map r | r in mine && r.0 != id :: mine[r]);
    if who != account {
      assert forall r | r in mine :: r.0 != id;
      SameMap(after, mine);
    }
  }

  lemma PurgedAssets(db: Db, account: Id, id: Id, who: Id)
    requires Owns(db, account, id) && db.t.assets[id].deletedAt.Some?
    ensures
      var mine := Mine(db.t.assets, AssetOwner, who);
      && Mine(Purged(db.t, id).assets, AssetOwner, who) == mine - {id}
      && (who != account ==> Mine(Purged(db.t, id).assets, AssetOwner, who) == mine)
  {
    var after, mine := Mine(Purged(db.t, id).assets, AssetOwner, who), Mine(db.t.assets, AssetOwner, who);
    assert forall a :: a in after <==> a in mine && a != id;
    SameMap(after, mine - {id});
    if who != account { SameMap(after, mine); }
  }

  lemma PurgeView(db: Db, account: Id, id: Id, other: Id)
    requires Consistent(db) && Owns(db, account, id)
    ensures View(PurgedDb(db, id), account) == PurgedDb(View(db, account), id)
    ensures other != account ==> View(PurgedDb(db, id), other) == View(db, other)
  {
    if db.t.assets[id].deletedAt.Some? {
      PurgedAssets(db, account, id, account);
      PurgedJobs(db, account, id, account);
      PurgedRenditions(db, account, id, account);
      PurgedAssets(db, account, id, other);
      PurgedJobs(db, account, id, other);
      PurgedRenditions(db, account, id, other);
    }
  }

  // ---- an account's view is a database of its own -------------------------------------------

  lemma ViewIsConsistent(db: Db, account: Id)
    requires Consistent(db)
    ensures Consistent(View(db, account))
  {
    var mine := View(db, account);
    forall a | a in mine.t.assets
      ensures OwnsUpload(mine, mine.t.assets[a].account, a) && mine.uploads[a].finalizedAt.Some?
    {
      assert OwnsUpload(db, account, a);
    }
    forall j | j in mine.t.jobs ensures Owns(mine, mine.t.jobs[j].account, mine.t.jobs[j].asset) {
      assert Owns(db, account, mine.t.jobs[j].asset);
    }
    forall u | u in mine.uploads && mine.uploads[u].rendition.Some?
      ensures OwnsUpload(mine, mine.uploads[u].account, mine.uploads[u].rendition.value.0)
    {
      assert OwnsUpload(db, account, db.uploads[u].rendition.value.0);
    }
  }

  // ---- runs -------------------------------------------------------------------------

  /** A call, a worker's statement on a job or an asset, or a sweep's: each concerns one account's rows. */
  datatype Event =
    | Called(account: Id, call: Call, out: Outside)
    | Worked(account: Id, job: Id, st: Statement)
    | Updated(account: Id, asset: Id, change: AssetStatement)
    | SweptUpload(account: Id, id: Id, now: int)
    | PurgedAsset(account: Id, id: Id)

  /** A call brings an id nobody has used; a worker has a job, and a sweep a row, of the account. */
  ghost predicate Possible(db: Db, e: Event) {
    match e
    case Called(_, _, out) => Unused(db, out.id)
    case Worked(account, job, _) => job in db.t.jobs && db.t.jobs[job].account == account
    case Updated(account, asset, _) => Owns(db, account, asset)
    case SweptUpload(account, id, _) => OwnsUpload(db, account, id)
    case PurgedAsset(account, id) => Owns(db, account, id)
  }

  function Then(db: Db, e: Event): Db {
    match e
    case Called(account, call, out) => After(db, account, call, out)
    case Worked(_, job, st) => DoneDb(db, job, st)
    case Updated(_, asset, change) => DoneToAssetDb(db, asset, change)
    case SweptUpload(_, id, now) => Swept(db, id, now)
    case PurgedAsset(_, id) => PurgedDb(db, id)
  }

  lemma EventKeepsConsistency(db: Db, e: Event)
    requires Consistent(db) && Possible(db, e)
    ensures Consistent(Then(db, e))
  {
    match e
    case Called(account, call, out) => ConsistencyIsKept(db, account, call, out);
    case Worked(account, job, st) =>
      WorkersStayHome(db, job, st);
      TiesKeepConsistency(db, account, StatementRows(db.t, job, st));
    case Updated(account, asset, change) =>
      AssetStatementsStayHome(db, account, asset, change);
      TiesKeepConsistency(db, account, AssetRows(db.t, asset, change));
    case SweptUpload(_, id, now) => SweepsKeepConsistency(db, id, now);
    case PurgedAsset(_, id) => PurgeKeepsConsistency(db, id);
  }

  /** Whatever happens to one account's rows leaves every other account's as they were. */
  lemma EventSparesOthers(db: Db, e: Event, other: Id)
    requires Consistent(db) && Possible(db, e) && other != e.account
    ensures View(Then(db, e), other) == View(db, other)
  {
    match e
    case Called(account, call, out) =>
      ServeWritesOwn(db, account, call, out);
      OwnView(db, account, Serve(db, account, call, out).1, other);
    case Worked(account, job, st) =>
      WorkersStayHome(db, job, st);
      OwnView(db, account, StatementRows(db.t, job, st), other);
    case Updated(account, asset, change) =>
      AssetStatementsStayHome(db, account, asset, change);
      OwnView(db, account, AssetRows(db.t, asset, change), other);
    case SweptUpload(account, id, now) =>
      SweepStaysHome(db, account, id, now);
      OwnView(db, account, SweptRow(db, id, now), other);
    case PurgedAsset(account, id) => PurgeView(db, account, id, other);
  }

  lemma PossibleAlone(db: Db, e: Event)
    requires Possible(db, e)
    ensures Possible(View(db, e.account), e)
  {
    match e
    case Updated(account, asset, _) => ViewReads(db, account, asset);
    case SweptUpload(account, id, _) => ViewReads(db, account, id);
    case PurgedAsset(account, id) => ViewReads(db, account, id);
    case _ =>
  }

  /** What happens to an account's rows is what would happen to them with nobody else there. */
  lemma EventCommutes(db: Db, e: Event)
    requires Consistent(db) && Possible(db, e)
    ensures View(Then(db, e), e.account) == Then(View(db, e.account), e)
  {
    var mine := View(db, e.account);
    match e
    case Called(account, call, out) =>
      ServeIsLocal(db, account, call, out);
      ServeWritesOwn(db, account, call, out);
      OwnView(db, account, Serve(db, account, call, out).1, account);
    case Worked(account, job, st) =>
      ViewIsConsistent(db, account);
      StatementIsLocal(db, job, st);
      WorkersStayHome(db, job, st);
      WorkersStayHome(mine, job, st);
      OwnView(db, account, StatementRows(db.t, job, st), account);
    case Updated(account, asset, change) =>
      ViewIsConsistent(db, account);
      AssetStatementIsLocal(db, account, asset, change);
      AssetStatementsStayHome(db, account, asset, change);
      AssetStatementsStayHome(mine, account, asset, change);
      OwnView(db, account, AssetRows(db.t, asset, change), account);
    case SweptUpload(account, id, now) =>
      ViewIsConsistent(db, account);
      ViewReads(db, account, id);
      SweepStaysHome(db, account, id, now);
      SweepStaysHome(mine, account, id, now);
      OwnView(db, account, SweptRow(db, id, now), account);
    case PurgedAsset(account, id) => PurgeView(db, account, id, account);
  }

  ghost predicate Allowed(db: Db, events: seq<Event>)
    decreases |events|
  {
    events == [] || (Possible(db, events[0]) && Allowed(Then(db, events[0]), events[1..]))
  }

  /** What one account is told over a run. */
  function Told(db: Db, events: seq<Event>, account: Id): seq<Reply>
    decreases |events|
  {
    if events == [] then []
    else
      var e := events[0];
      var rest := Told(Then(db, e), events[1..], account);
      if e.Called? && e.account == account then [Serve(db, account, e.call, e.out).0] + rest else rest
  }

  function Only(events: seq<Event>, account: Id): seq<Event> {
    if events == [] then []
    else if events[0].account == account then [events[0]] + Only(events[1..], account)
    else Only(events[1..], account)
  }

  /** Over whole runs: with everybody else gone, and all that happened to their rows with them, the account's own events
      still make a run, and it is told exactly the same. */
  lemma {:induction false} NobodyElseMatters(db: Db, events: seq<Event>, account: Id)
    requires Consistent(db) && Allowed(db, events)
    ensures Allowed(View(db, account), Only(events, account))
    ensures Told(db, events, account) == Told(View(db, account), Only(events, account), account)
    decreases |events|
  {
    if events != [] {
      var e, own := events[0], Only(events, account);
      EventKeepsConsistency(db, e);
      NobodyElseMatters(Then(db, e), events[1..], account);
      if e.account == account {
        assert own[1..] == Only(events[1..], account) && own[0] == e;
        PossibleAlone(db, e);
        EventCommutes(db, e);
        if e.Called? { ServeIsLocal(db, account, e.call, e.out); }
      } else {
        EventSparesOthers(db, e, account);
      }
    }
  }

  /** Two databases that agree on the account's rows, whatever else they hold and whatever befalls it, tell it the
      same. */
  lemma AgreeingRunsTellAlike(db: Db, other: Db, events: seq<Event>, events': seq<Event>, account: Id)
    requires Consistent(db) && Consistent(other) && View(db, account) == View(other, account)
    requires Allowed(db, events) && Allowed(other, events') && Only(events, account) == Only(events', account)
    ensures Told(db, events, account) == Told(other, events', account)
  {
    NobodyElseMatters(db, events, account);
    NobodyElseMatters(other, events', account);
  }
}
