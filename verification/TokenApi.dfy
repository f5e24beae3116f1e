/** Every endpoint behind a token, as an answer and the rows it inserts or updates. */
module TokenApi {
  import opened Contract
  import opened Records
  import opened AssetStore
  import opened Ordering
  import opened Resolution
  import opened JobQueue
  import Delivery
  import Keys
  import Text

  // ---- requests and answers -------------------------------------------------

  datatype Call =
    | ReadAsset(id: Id)
    | ListPage(cursor: Id, limit: int)
    | DeleteAsset(id: Id)
    | ResolveUrl(id: Id, intent: Intent, device: Device)
    | AskRendition(id: Id, intent: Intent)
    | ReadJob(id: Id)
    | BrokerUpload(contentType: string, skip: bool, rendition: Option<(Id, Intent)>)
    | FinalizeUpload(id: Id)
    | IssueGrant(assets: seq<Id>, expires: int)
    | ReadGrant(id: Id)
    | RevokeGrant(id: Id)
    | IssueExport(assets: seq<Id>, expires: int)
    | ReadExport(id: Id)
    | RevokeExport(id: Id)
    | ProvisionAccount

  /** What storage says of an object: nothing there, an image header that will not parse, or its facts. */
  datatype Stored = Absent | Unreadable | Found(facts: VaultRecord)

  /** Everything a call takes from outside the tables: a fresh id, the clock, storage, the configuration. */
  datatype Outside = Outside(id: Id, now: int, stored: string -> Stored, setup: Setup)

  datatype Denial =
    | Missing | BadRequest | ForeignAsset | NothingToExport | Gone | NotUploaded | Unprobeable
    | RenditionExists | UnknownAccount | Unconfigured | Internal

  datatype Reply =
    | Denied(why: Denial)
    | AssetReply(view: AssetView)
    | PageReply(items: seq<AssetView>, next: Option<Id>)
    | RowReply(row: Asset, renditions: map<Intent, Rendition>)
    | UrlReply(answer: Answer)
    | OriginalReply(key: string)
    | RenditionReply(rendition: Rendition)
    | JobReply(id: Id, job: Job)
    | UploadReply(id: Id, upload: Upload)
    | ShareReply(id: Id, share: Share, gone: seq<Id>)
    | AccountReply(created: bool)

  // ---- rows written ----------------------------------------------------------

  /** A set of rows to insert or update; no token endpoint removes any. */
  const NOTHING := Db({}, map[], Tables(map[], map[], map[]), map[], map[])

  function Applied(db: Db, rows: Db): Db {
    Db(db.accounts + rows.accounts, db.uploads + rows.uploads,
       Tables(db.t.assets + rows.t.assets, db.t.jobs + rows.t.jobs, db.t.renditions + rows.t.renditions),
       db.grants + rows.grants, db.exports + rows.exports)
  }

  function JobRow(id: Id, row: Job): Db {
    NOTHING.(t := Tables(map[], map[id := row], map[]))
  }

  // ---- the queue, seen from a request -------------------------------------------

  /** The newest job of the triple; ties go to the least id. */
  function NewestJob(jobs: map<Id, Job>, account: Id, asset: Id, intent: Intent): Option<Id> {
    var some := set j | j in jobs && IsNewest(jobs, j, account, asset, intent);
    if some == {} then None else Some(Least(some))
  }

  function Enqueue(db: Db, account: Id, asset: Id, intent: Intent, out: Outside): (Reply, Db) {
    var standing := NewestJob(db.t.jobs, account, asset, intent);
    if standing.Some? && standing.value in db.t.jobs && db.t.jobs[standing.value].status != Failed
    then (JobReply(standing.value, db.t.jobs[standing.value]), NOTHING)
    else
      var row := FreshJob(account, asset, intent, Derive, None, out.now);
      (JobReply(out.id, row), JobRow(out.id, row))
  }

  function EnqueueRemux(db: Db, account: Id, asset: Id, intent: Intent, key: string, out: Outside): (Reply, Db) {
    var standing := NewestJob(db.t.jobs, account, asset, intent);
    if standing.Some? && standing.value in db.t.jobs && db.t.jobs[standing.value].status != Failed
    then
      var row := db.t.jobs[standing.value].(sourceKey := Some(key), mode := Remux);
      (JobReply(standing.value, row.(status := Queued)), JobRow(standing.value, row))
    else if asset !in db.t.assets then (Denied(Internal), NOTHING)
    else
      var row := FreshJob(account, asset, intent, Remux, Some(key), out.now);
      (JobReply(out.id, row), JobRow(out.id, row))
  }

  // ---- uploads ---------------------------------------------------------------------

  function KindOf(contentType: string): Kind {
    if Text.HasPrefix(contentType, "image/") then Image
    else if Text.HasPrefix(contentType, "video/") then Video
    else if Text.HasPrefix(contentType, "audio/") then Audio
    else Document
  }

  function Derivable(kind: Kind): set<Intent> {
    match kind
    case Video => {Poster, Loop, Detail}
    case Audio => {Detail}
    case _ => {}
  }

  function Broker(db: Db, account: Id, contentType: string, skip: bool, rendition: Option<(Id, Intent)>,
                  out: Outside): (Reply, Db) {
    var refusal :=
      match rendition
      case None => None
      case Some((a, i)) =>
        if !Owns(db, account, a) then Some(Missing)
        else if i !in {Poster, Loop, Detail} then Some(BadRequest)
        else if (a, i) in db.t.renditions && db.t.renditions[(a, i)].status.Ready? then Some(RenditionExists)
        else None;
    if refusal.Some? then (Denied(refusal.value), NOTHING)
    else if account !in db.accounts then (Denied(UnknownAccount), NOTHING)
    else
      var key := if rendition.None? then Keys.VaultKey(account, out.id)
                 else Keys.StagingKey(account, rendition.value.0, IntentName(rendition.value.1));
      var row := Upload(account, key, contentType, skip, rendition, out.now, None, None);
      (UploadReply(out.id, row), NOTHING.(uploads := map[out.id := row]))
  }

  /** The rows of an opt-out: every derivable intent not yet recorded becomes not_derived. */
  function OptOut(db: Db, asset: Id, kind: Kind): map<(Id, Intent), Rendition> {
    map i | i in Derivable(kind) && (asset, i) !in db.t.renditions :: (asset, i) := Rendition(NotDerived, None, None)
  }

  /** The asset and upload rows a finalize writes, when it creates an asset. */
  function FinalizeRows(db: Db, account: Id, id: Id, v: VaultRecord, now: int): Db {
    if Finalize(db, account, id, v, now).0.Created? && id in db.uploads then
      NOTHING.(t := Tables(map[id := FinalizedAsset(db.uploads[id], v, now)], map[], map[]),
               uploads := map[id := db.uploads[id].(finalizedAt := Some(now))])
    else NOTHING
  }

  /** After the transaction: audio and video either decline every derivation or queue the default one. */
  function AfterFinalize(db: Db, account: Id, id: Id, kind: Kind, skip: bool, row: Asset, rows: Db,
                         out: Outside): (Reply, Db) {
    if kind.Video? || kind.Audio? then
      if skip then
        var all := rows.(t := rows.t.(renditions := OptOut(db, id, kind)));
        (RowReply(row, RenditionsFor(Applied(db, all).t, id)), all)
      else
        (RowReply(row, map[]), rows.(t := rows.t.(jobs := Enqueue(db, account, id, Detail, out).1.t.jobs)))
    else (RowReply(row, map[]), rows)
  }

  function FinalizeCall(db: Db, account: Id, id: Id, out: Outside): (Reply, Db) {
    match GetUpload(db, account, id)
    case None => (Denied(Missing), NOTHING)
    case Some(up) =>
      var seen := out.stored(up.key);
      if up.sweptAt.Some? then (Denied(Gone), NOTHING)
      else if seen.Absent? then (Denied(NotUploaded), NOTHING)
      else if up.rendition.Some? then EnqueueRemux(db, account, up.rendition.value.0, up.rendition.value.1, up.key, out)
      else if seen.Unreadable? then (Denied(Unprobeable), NOTHING)
      else
        var kind := KindOf(up.contentType);
        var v := seen.facts.(kind := kind);
        match Finalize(db, account, id, v, out.now).0
        case NotFound => (Denied(Missing), NOTHING)
        case UploadGone => (Denied(Gone), NOTHING)
        case Conflict => (Denied(Internal), NOTHING)
        case Created(row) =>
          AfterFinalize(db, account, id, kind, up.skipDerivations, row, FinalizeRows(db, account, id, v, out.now), out)
        case Already(row) => AfterFinalize(db, account, id, kind, up.skipDerivations, row, NOTHING, out)
  }

  // ---- capabilities --------------------------------------------------------------------

  function IssueGrantCall(db: Db, account: Id, assets: seq<Id>, expires: int, out: Outside): (Reply, Db) {
    if assets == [] then (Denied(BadRequest), NOTHING)
    else if AnyRefused(db, account, assets) then (Denied(ForeignAsset), NOTHING)
    else
      var row := Share(account, assets, out.now, expires, None);
      var gone := RowIds(ClassifyAssetSet(db, account, assets), GoneId);
      (ShareReply(out.id, row, gone), NOTHING.(grants := map[out.id := row]))
  }

  function IssueExportCall(db: Db, account: Id, assets: seq<Id>, expires: int, out: Outside): (Reply, Db) {
    if !out.setup.downloadSigner then (Denied(Unconfigured), NOTHING)
    else if assets == [] || expires <= out.now || expires > out.now + Delivery.EXPORT_MAX_TTL
    then (Denied(BadRequest), NOTHING)
    else if AnyRefused(db, account, assets) then (Denied(ForeignAsset), NOTHING)
    else if LiveIds(db, account, assets) == [] then (Denied(NothingToExport), NOTHING)
    else
      var row := Share(account, LiveIds(db, account, assets), out.now, expires, None);
      (ShareReply(out.id, row, GoneIds(db, account, assets)), NOTHING.(exports := map[out.id := row]))
  }

  function ShareOf(shares: map<Id, Share>, account: Id, id: Id): Reply {
    match GetShare(shares, account, id)
    case None => Denied(Missing)
    case Some(row) => ShareReply(id, row, [])
  }

  function Revoked(shares: map<Id, Share>, account: Id, id: Id, now: int): map<Id, Share> {
    match GetShare(shares, account, id)
    case None => map[]
    case Some(row) => map[id := RevokedShare(row, now)]
  }

  predicate Alphanumeric(c: char) {
    '0' <= c <= '9' || 'A' <= c <= 'Z' || 'a' <= c <= 'z'
  }

  /** The shape the contract gives account ids; an account that provisions itself must have it. */
  predicate ValidAccountId(account: Id) {
    && 2 <= |account| <= 128 && Alphanumeric(account[0])
    && forall c | c in account :: Alphanumeric(c) || c in {'_', '.', '-'}
  }

  // ---- the endpoints ----------------------------------------------------------------------

  function Views(db: Db, account: Id, ids: seq<Id>): seq<AssetView> {
    if ids == [] then []
    else
      var view := GetAsset(db, account, ids[0]);
      (if view.Some? then [view.value] else []) + Views(db, account, ids[1..])
  }

  function AskCall(db: Db, account: Id, id: Id, intent: Intent, out: Outside): (Reply, Db) {
    match GetAsset(db, account, id)
    case None => (Denied(Missing), NOTHING)
    case Some(view) =>
      var standing := RenditionOf(view.renditions, intent);
      if standing.Some? && !standing.value.status.NotDerived? then (RenditionReply(standing.value), NOTHING)
      else if view.row.kind.Image? || intent.Original? then (RenditionReply(Rendition(Ready, None, None)), NOTHING)
      else Enqueue(db, account, id, intent, out)
  }

  function UrlCall(db: Db, account: Id, id: Id, intent: Intent, device: Device, out: Outside): Reply {
    match GetAsset(db, account, id)
    case None => Denied(Missing)
    case Some(view) =>
      if view.row.deletedAt.Some? then UrlReply(Refuse(Some(ReasonCode.Deleted)))
      else if intent.Original? then
        if out.setup.downloadSigner then OriginalReply(view.row.vaultKey) else Denied(Unconfigured)
      else UrlReply(ResolveNonOriginal(out.setup, view.row, view.renditions, intent, device))
  }

  /** One call of one account: the answer, and the rows it writes. */
  function Serve(db: Db, account: Id, call: Call, out: Outside): (Reply, Db) {
    match call
    case ReadAsset(id) =>
      (match GetAsset(db, account, id) case None => Denied(Missing) case Some(view) => AssetReply(view), NOTHING)
    case ListPage(cursor, limit) =>
      if limit < 1 || limit > 200 then (Denied(BadRequest), NOTHING)
      else
        var page := PageOf(AssetsOf(db, account), cursor, PageLimit(limit));
        (PageReply(Views(db, account, page.items), page.next), NOTHING)
    case DeleteAsset(id) =>
      (match GetAsset(db, account, id)
       case None => (Denied(Missing), NOTHING)
       case Some(view) =>
         var row := view.row.(deletedAt := Some(out.now));
         (AssetReply(view.(row := row)), NOTHING.(t := Tables(map[id := row], map[], map[]))))
    case ResolveUrl(id, intent, device) => (UrlCall(db, account, id, intent, device, out), NOTHING)
    case AskRendition(id, intent) => AskCall(db, account, id, intent, out)
    case ReadJob(id) =>
      (match GetJob(db, account, id) case None => Denied(Missing) case Some(row) => JobReply(id, row), NOTHING)
    case BrokerUpload(contentType, skip, rendition) => Broker(db, account, contentType, skip, rendition, out)
    case FinalizeUpload(id) => FinalizeCall(db, account, id, out)
    case IssueGrant(assets, expires) => IssueGrantCall(db, account, assets, expires, out)
    case ReadGrant(id) => (ShareOf(db.grants, account, id), NOTHING)
    case RevokeGrant(id) =>
      var rows := Revoked(db.grants, account, id, out.now);
      (ShareOf(db.grants + rows, account, id), NOTHING.(grants := rows))
    case IssueExport(assets, expires) => IssueExportCall(db, account, assets, expires, out)
    case ReadExport(id) => (ShareOf(db.exports, account, id), NOTHING)
    case RevokeExport(id) =>
      var rows := Revoked(db.exports, account, id, out.now);
      (ShareOf(db.exports + rows, account, id), NOTHING.(exports := rows))
    case ProvisionAccount =>
      if ValidAccountId(account) then (AccountReply(account !in db.accounts), NOTHING.(accounts := {account}))
      else (Denied(BadRequest), NOTHING)
  }

  function After(db: Db, account: Id, call: Call, out: Outside): Db {
    Applied(db, Serve(db, account, call, out).1)
  }

  // ---- the written rows are the statements' own -----------------------------------------------

  /** The job a request finds standing is a newest one, and it finds one whenever there is any. */
  lemma NewestJobIsNewest(jobs: map<Id, Job>, account: Id, asset: Id, intent: Intent)
    ensures NewestJob(jobs, account, asset, intent).None?
       <==> forall j | j in jobs :: !For(jobs[j], account, asset, intent)
    ensures NewestJob(jobs, account, asset, intent).Some? ==>
              var j := NewestJob(jobs, account, asset, intent).value;
              && IsNewest(jobs, j, account, asset, intent)
              && jobs[j].account == account && jobs[j].asset == asset && jobs[j].intent == intent
              && forall k | k in jobs && For(jobs[k], account, asset, intent) ::
                   jobs[k].created < jobs[j].created || (jobs[k].created == jobs[j].created && !Before(k, j))
  {
    var some := set j | j in jobs && IsNewest(jobs, j, account, asset, intent);
    if exists j :: j in jobs && For(jobs[j], account, asset, intent) {
      NewestExists(jobs, account, asset, intent);
      var j :| j in jobs && IsNewest(jobs, j, account, asset, intent);
      assert j in some;
      forall k | k in jobs && For(jobs[k], account, asset, intent) && jobs[k].created == jobs[j].created
        ensures k in some
      {
        assert IsNewest(jobs, k, account, asset, intent);
      }
      LeastIsFirst(some);
    }
  }

  lemma LeastIsFirst(ids: set<Id>)
    requires ids != {}
    ensures forall k | k in ids :: !Before(k, Least(ids))
  {
    forall k | k in ids ensures !Before(k, Least(ids)) {
      if Before(k, Least(ids)) {
        if k == Least(ids) { BeforeIrreflexive(k); } else { BeforeTransitive(k, Least(ids), k); BeforeIrreflexive(k); }
      }
    }
  }

  lemma NoRows<K, V>(m: map<K, V>)
    ensures m + map[] == m
  {
  }

  lemma OneRow<K, V>(m: map<K, V>, k: K, v: V)
    ensures m + map[k := v] == m[k := v]
  {
  }

  lemma OtherTables(db: Db)
    ensures db.accounts + {} == db.accounts
    ensures db.t.jobs + map[] == db.t.jobs && db.t.renditions + map[] == db.t.renditions
    ensures db.grants + map[] == db.grants && db.exports + map[] == db.exports
  {
  }

  /** The rows a finalize writes are exactly what its transaction does to the tables. */
  lemma FinalizeRowsAreTheTransaction(db: Db, account: Id, id: Id, v: VaultRecord, now: int)
    ensures Applied(db, FinalizeRows(db, account, id, v, now)) == Finalize(db, account, id, v, now).1
  {
    OtherTables(db);
    if Finalize(db, account, id, v, now).0.Created? {
      OneRow(db.t.assets, id, FinalizedAsset(db.uploads[id], v, now));
      OneRow(db.uploads, id, db.uploads[id].(finalizedAt := Some(now)));
    } else {
      NoRows(db.t.assets);
      NoRows(db.uploads);
    }
  }

  /** Deleting is marking; a second delete only re-stamps. */
  lemma DeleteIsMark(db: Db, account: Id, id: Id, out: Outside)
    ensures
      var marked := MarkedDeleted(db, account, id, out.now);
      After(db, account, DeleteAsset(id), out) == if marked.Some? then marked.value else db
  {
    OtherTables(db);
    NoRows(db.uploads);
    if Owns(db, account, id) {
      OneRow(db.t.assets, id, db.t.assets[id].(deletedAt := Some(out.now)));
    } else {
      NoRows(db.t.assets);
    }
  }

  // ---- what delivery says of work declined or failed ------------------------------------------

  /** The rendition an intent of this kind is served from. */
  function Needed(kind: Kind, intent: Intent): Intent {
    if kind.Video? && IsLadder(intent) then Poster else intent
  }

  lemma DeclinedAnswers(setup: Setup, row: Asset, renditions: map<Intent, Rendition>, intent: Intent, device: Device)
    requires (row.kind.Video? || row.kind.Audio?) && row.deletedAt.None?
    requires Needed(row.kind, intent) in renditions
    requires renditions[Needed(row.kind, intent)] == Rendition(NotDerived, None, None)
    ensures ResolveNonOriginal(setup, row, renditions, intent, device) == Refuse(Some(NotDerivedReason))
  {
  }

  lemma OptOutRow(db: Db, id: Id, kind: Kind, all: Db, i: Intent)
    requires i in Derivable(kind) && (id, i) !in db.t.renditions && all.t.renditions == OptOut(db, id, kind)
    ensures i in RenditionsFor(Applied(db, all).t, id)
    ensures RenditionsFor(Applied(db, all).t, id)[i] == Rendition(NotDerived, None, None)
  {
    assert (id, i) in OptOut(db, id, kind);
    assert (id, i) in Applied(db, all).t.renditions;
  }

  lemma DeclinedAfterwards(db: Db, account: Id, id: Id, kind: Kind, row: Asset, rows: Db, out: Outside,
                           intent: Intent, device: Device)
    requires (kind.Video? || kind.Audio?) && row.kind == kind && row.deletedAt.None?
    requires rows.t.renditions == map[] && (id, Needed(kind, intent)) !in db.t.renditions
    requires Route(kind, intent).Some? && !intent.Original?
    ensures
      var (reply, all) := AfterFinalize(db, account, id, kind, true, row, rows, out);
      && all.t.jobs == rows.t.jobs && reply == RowReply(row, RenditionsFor(Applied(db, all).t, id))
      && ResolveNonOriginal(out.setup, row, reply.renditions, intent, device) == Refuse(Some(NotDerivedReason))
  {
    var (reply, all) := AfterFinalize(db, account, id, kind, true, row, rows, out);
    OptOutRow(db, id, kind, all, Needed(kind, intent));
    DeclinedAnswers(out.setup, row, reply.renditions, intent, device);
  }

  /** A finalize request that succeeds on a declined audio or video upload, the first time or retried: no job is
      written, and any offered intent without a rendition row of its own is answered not_derived, never pending. When it
      creates the asset that is every offered intent. */
  lemma OptedOutIsNeverPending(db: Db, account: Id, id: Id, out: Outside, intent: Intent, device: Device)
    requires forall r | r in db.t.renditions :: r.0 in db.t.assets
    requires OwnsUpload(db, account, id) && db.uploads[id].skipDerivations
    requires FinalizeCall(db, account, id, out).0.RowReply?
    requires
      var kind := KindOf(db.uploads[id].contentType);
      (kind.Video? || kind.Audio?) && Route(kind, intent).Some? && !intent.Original?
    ensures
      var kind := KindOf(db.uploads[id].contentType);
      var (reply, rows) := FinalizeCall(db, account, id, out);
      && rows.t.jobs == map[]
      && (id !in db.t.assets ==>
            reply.row.kind == kind && reply.row.deletedAt.None? && (id, Needed(kind, intent)) !in db.t.renditions)
      && (reply.row.kind == kind && reply.row.deletedAt.None? && (id, Needed(kind, intent)) !in db.t.renditions ==>
            ResolveNonOriginal(out.setup, reply.row, reply.renditions, intent, device)
            == Refuse(Some(NotDerivedReason)))
  {
    var up := db.uploads[id];
    var kind := KindOf(up.contentType);
    var v := out.stored(up.key).facts.(kind := kind);
    var answer := Finalize(db, account, id, v, out.now).0;
    var rows := if answer.Created? then FinalizeRows(db, account, id, v, out.now) else NOTHING;
    var row := answer.row;
    assert FinalizeCall(db, account, id, out) == AfterFinalize(db, account, id, kind, true, row, rows, out);
    if row.kind == kind && row.deletedAt.None? && (id, Needed(kind, intent)) !in db.t.renditions {
      DeclinedAfterwards(db, account, id, kind, row, rows, out, intent, device);
    }
  }

  function Without(db: Db, asset: Id, intent: Intent): Db {
    db.(t := db.t.(renditions := db.t.renditions - {(asset, intent)}))
  }

  /** Declined is not banned: asking for a declined intent does exactly what it would with no row at all. */
  lemma DeclinedIsAsIfAbsent(db: Db, account: Id, id: Id, intent: Intent, out: Outside)
    requires (id, intent) in db.t.renditions && db.t.renditions[(id, intent)].status.NotDerived?
    ensures AskCall(db, account, id, intent, out) == AskCall(Without(db, id, intent), account, id, intent, out)
  {
    if Owns(db, account, id) {
      assert intent in RenditionsFor(db.t, id) && intent !in RenditionsFor(Without(db, id, intent).t, id);
    }
  }

  /** A failure is recorded on the job alone, so delivery cannot tell: it answers as it did before, pending included. */
  lemma FailureIsInvisible(db: Db, job: Id, attempts: nat, maxAttempts: nat, account: Id, id: Id, intent: Intent,
                           device: Device, out: Outside)
    ensures
      var failed := db.(t := FailureWritten(db.t, job, attempts, maxAttempts, FailedReason));
      UrlCall(failed, account, id, intent, device, out) == UrlCall(db, account, id, intent, device, out)
  {
    var t := FailureWritten(db.t, job, attempts, maxAttempts, FailedReason);
    assert RenditionsFor(t, id) == RenditionsFor(db.t, id);
  }
}
