/** What the endpoints behind a token answer and write, case by case, in terms of the tables alone. */
module TokenAnswers {
  import opened Contract
  import opened Records
  import opened AssetStore
  import opened JobQueue
  import opened Resolution
  import opened TokenApi
  import opened Ordering
  import Keys
  import UrlPath

  // ---- uploads -----------------------------------------------------------------

  /** An original is brokered to a provisioned account under its own vault key. */
  lemma OriginalBrokered(db: Db, account: Id, contentType: string, skip: bool, out: Outside)
    ensures
      var (reply, after) := (Serve(db, account, BrokerUpload(contentType, skip, None), out).0,
                             TokenApi.After(db, account, BrokerUpload(contentType, skip, None), out));
      var row := Upload(account, "vault/" + account + "/" + out.id, contentType, skip, None, out.now, None, None);
      if account in db.accounts
      then reply == UploadReply(out.id, row) && after == db.(uploads := db.uploads[out.id := row])
      else reply == Denied(UnknownAccount) && after == db
  {
    NothingWritten(db);
    UploadWritten(db, out.id, Upload(account, "vault/" + account + "/" + out.id, contentType, skip, None, out.now,
                                     None, None));
  }

  lemma NothingWritten(db: Db)
    ensures Applied(db, NOTHING) == db
  {
    OtherTables(db);
    NoRows(db.uploads);
    NoRows(db.t.assets);
  }

  lemma UploadWritten(db: Db, id: Id, row: Upload)
    ensures Applied(db, NOTHING.(uploads := map[id := row])) == db.(uploads := db.uploads[id := row])
  {
    OtherTables(db);
    NoRows(db.t.assets);
    OneRow(db.uploads, id, row);
  }

  lemma JobWritten(db: Db, id: Id, row: Job)
    ensures Applied(db, JobRow(id, row)) == db.(t := db.t.(jobs := db.t.jobs[id := row]))
  {
    OtherTables(db);
    NoRows(db.uploads);
    NoRows(db.t.assets);
    OneRow(db.t.jobs, id, row);
  }

  lemma GrantWritten(db: Db, id: Id, row: Share)
    ensures Applied(db, NOTHING.(grants := map[id := row])) == db.(grants := db.grants[id := row])
  {
    OtherTables(db);
    NoRows(db.uploads);
    NoRows(db.t.assets);
    OneRow(db.grants, id, row);
  }

  lemma ExportWritten(db: Db, id: Id, row: Share)
    ensures Applied(db, NOTHING.(exports := map[id := row])) == db.(exports := db.exports[id := row])
  {
    OtherTables(db);
    NoRows(db.uploads);
    NoRows(db.t.assets);
    OneRow(db.exports, id, row);
  }

  /** An authored file is brokered to staging, for a poster, loop or detail of an asset of the account's that has none
      ready. */
  lemma AuthoredBrokered(db: Db, account: Id, contentType: string, skip: bool, a: Id, i: Intent, out: Outside)
    ensures
      var call := BrokerUpload(contentType, skip, Some((a, i)));
      var (reply, after) := (Serve(db, account, call, out).0, TokenApi.After(db, account, call, out));
      var key := "staging/" + account + "/" + a + "/" + IntentName(i);
      var row := Upload(account, key, contentType, skip, Some((a, i)), out.now, None, None);
      if !(a in db.t.assets && db.t.assets[a].account == account) then reply == Denied(Missing) && after == db
      else if i !in {Poster, Loop, Detail} then reply == Denied(BadRequest) && after == db
      else if (a, i) in db.t.renditions && db.t.renditions[(a, i)].status == Ready
      then reply == Denied(RenditionExists) && after == db
      else if account !in db.accounts then reply == Denied(UnknownAccount) && after == db
      else reply == UploadReply(out.id, row) && after == db.(uploads := db.uploads[out.id := row])
  {
    NothingWritten(db);
    UploadWritten(db, out.id, Upload(account, "staging/" + account + "/" + a + "/" + IntentName(i), contentType, skip,
                                     Some((a, i)), out.now, None, None));
  }

  ghost predicate HasKind(contentType: string, kind: Kind) {
    match kind
    case Image => "image/" <= contentType
    case Video => "video/" <= contentType
    case Audio => "audio/" <= contentType
    case Document => !("image/" <= contentType) && !("video/" <= contentType) && !("audio/" <= contentType)
  }

  lemma OneKind(contentType: string, kind: Kind)
    ensures KindOf(contentType) == kind <==> HasKind(contentType, kind)
  {
    if "image/" <= contentType { assert contentType[0] == 'i'; }
    if "video/" <= contentType { assert contentType[0] == 'v'; }
    if "audio/" <= contentType { assert contentType[0] == 'a'; }
  }

  /** A brokered original whose object is stored, not yet finalized and not swept. */
  predicate Finalizable(db: Db, account: Id, id: Id, out: Outside) {
    && id in db.uploads && db.uploads[id].account == account && id !in db.t.assets
    && db.uploads[id].sweptAt.None? && db.uploads[id].finalizedAt.None? && db.uploads[id].rendition.None?
    && out.stored(db.uploads[id].key).Found?
  }

  /** Jobs and renditions reference assets. */
  ghost predicate Referenced(t: Tables) {
    (forall j | j in t.jobs :: t.jobs[j].asset in t.assets) && forall r | r in t.renditions :: r.0 in t.assets
  }

  /** The row is the account's, of the stored object, column by column. */
  predicate RowOf(row: Asset, up: Upload, facts: VaultRecord, now: int) {
    && row.account == up.account && row.vaultKey == up.key
    && row.vaultSize == facts.size && row.width == facts.width && row.height == facts.height
    && row.checksum == facts.checksum && row.checksumVerified == facts.checksumVerified && row.checkedAt == None
    && row.created == now && row.deletedAt == None
  }

  lemma NoJobYet(db: Db, account: Id, id: Id, intent: Intent)
    requires Referenced(db.t) && id !in db.t.assets
    ensures NewestJob(db.t.jobs, account, id, intent).None?
  {
    NewestJobIsNewest(db.t.jobs, account, id, intent);
  }

  /** The newest job of this work, when it has not failed. */
  function Standing(jobs: map<Id, Job>, account: Id, id: Id, intent: Intent): Option<Id> {
    var newest := NewestJob(jobs, account, id, intent);
    if newest.Some? && newest.value in jobs && jobs[newest.value].status in {Queued, Running, Succeeded} then newest
    else None
  }

  lemma Enqueued(db: Db, account: Id, id: Id, intent: Intent, out: Outside)
    ensures
      var (reply, rows) := TokenApi.Enqueue(db, account, id, intent, out);
      var standing := Standing(db.t.jobs, account, id, intent);
      if standing.Some? then reply == JobReply(standing.value, db.t.jobs[standing.value]) && rows == NOTHING
      else
        var row := Job(account, id, intent, Queued, 0, None, out.now, None, Derive, None);
        reply == JobReply(out.id, row) && rows == JobRow(out.id, row)
  {
  }

  function FinalizedWith(db: Db, id: Id, row: Asset, now: int): Db
    requires id in db.uploads
  {
    NOTHING.(t := Tables(map[id := row], map[], map[]),
             uploads := map[id := db.uploads[id].(finalizedAt := Some(now))])
  }

  /** The transaction creates the asset the stored object is of. */
  lemma RowCreated(db: Db, account: Id, id: Id, out: Outside) returns (row: Asset)
    requires Finalizable(db, account, id, out)
    ensures HasKind(db.uploads[id].contentType, row.kind)
    ensures RowOf(row, db.uploads[id], out.stored(db.uploads[id].key).facts, out.now)
    ensures FinalizeCall(db, account, id, out)
         == AfterFinalize(db, account, id, row.kind, db.uploads[id].skipDerivations, row,
                          FinalizedWith(db, id, row, out.now), out)
  {
    var up := db.uploads[id];
    var v := out.stored(up.key).facts.(kind := KindOf(up.contentType));
    OneKind(up.contentType, v.kind);
    row := Finalize(db, account, id, v, out.now).0.row;
    assert FinalizeRows(db, account, id, v, out.now) == FinalizedWith(db, id, row, out.now);
  }

  lemma FinalizeWritten(db: Db, id: Id, row: Asset, now: int, jobs: map<Id, Job>,
                        renditions: map<(Id, Intent), Rendition>)
    requires id in db.uploads
    ensures
      var rows := FinalizedWith(db, id, row, now);
      Applied(db, rows.(t := rows.t.(jobs := jobs, renditions := renditions)))
      == db.(uploads := db.uploads[id := db.uploads[id].(finalizedAt := Some(now))],
             t := Tables(db.t.assets[id := row], db.t.jobs + jobs, db.t.renditions + renditions))
  {
    OtherTables(db);
    OneRow(db.t.assets, id, row);
    OneRow(db.uploads, id, db.uploads[id].(finalizedAt := Some(now)));
  }

  /** Finalizing creates the asset the stored object is of, stamps the upload, and touches nothing else but the jobs and
      renditions of the new asset. */
  lemma FinalizeCreates(db: Db, account: Id, id: Id, out: Outside)
    requires Finalizable(db, account, id, out)
    ensures
      var up := db.uploads[id];
      var (reply, after) := (Serve(db, account, FinalizeUpload(id), out).0,
                             TokenApi.After(db, account, FinalizeUpload(id), out));
      && reply.RowReply? && HasKind(up.contentType, reply.row.kind)
      && RowOf(reply.row, up, out.stored(up.key).facts, out.now)
      && after.(t := after.t.(jobs := db.t.jobs, renditions := db.t.renditions))
         == db.(uploads := db.uploads[id := up.(finalizedAt := Some(out.now))],
                t := db.t.(assets := db.t.assets[id := reply.row]))
  {
    var row := RowCreated(db, account, id, out);
    var rows := Serve(db, account, FinalizeUpload(id), out).1;
    FinalizeWritten(db, id, row, out.now, rows.t.jobs, rows.t.renditions);
    var finalized := FinalizedWith(db, id, row, out.now);
    assert rows == finalized.(t := finalized.t.(jobs := rows.t.jobs, renditions := rows.t.renditions));
  }

  /** What becomes of the new asset's derivations: an image or document has none; a video or sound has its detail
      queued. */
  lemma FinalizeQueues(db: Db, account: Id, id: Id, out: Outside)
    requires Finalizable(db, account, id, out) && Referenced(db.t)
    requires
      var ct := db.uploads[id].contentType;
      (HasKind(ct, Video) || HasKind(ct, Audio)) ==> !db.uploads[id].skipDerivations
    ensures
      var after, ct := TokenApi.After(db, account, FinalizeUpload(id), out), db.uploads[id].contentType;
      && after.t.renditions == db.t.renditions
      && after.t.jobs ==
         if HasKind(ct, Video) || HasKind(ct, Audio)
         then db.t.jobs[out.id := Job(account, id, Detail, Queued, 0, None, out.now, None, Derive, None)]
         else db.t.jobs
  {
    var row := RowCreated(db, account, id, out);
    var ct := db.uploads[id].contentType;
    OneKind(ct, row.kind);
    OneKind(ct, Video);
    OneKind(ct, Audio);
    NoJobYet(db, account, id, Detail);
    OtherTables(db);
    var job := Job(account, id, Detail, Queued, 0, None, out.now, None, Derive, None);
    OneRow(db.t.jobs, out.id, job);
    FinalizeWritten(db, id, row, out.now, if row.kind in {Video, Audio} then map[out.id := job] else map[], map[]);
    Enqueued(db, account, id, Detail, out);
  }

  lemma DeclinedRows(db: Db, id: Id, kind: Kind, i: Intent)
    requires Referenced(db.t) && id !in db.t.assets
    ensures
      var renditions := db.t.renditions + OptOut(db, id, kind);
      && (forall r | r in db.t.renditions :: r in renditions && renditions[r] == db.t.renditions[r])
      && (forall r | r in renditions && r !in db.t.renditions :: r.0 == id)
      && ((id, i) in renditions <==> i in Derivable(kind))
      && ((id, i) in renditions ==> renditions[(id, i)] == Rendition(NotDerived, None, None))
  {
    assert (id, i) !in db.t.renditions;
    assert (id, i) in OptOut(db, id, kind) <==> i in Derivable(kind);
    assert forall r | r in OptOut(db, id, kind) :: r.0 == id;
  }

  lemma AfterDeclining(db: Db, account: Id, id: Id, out: Outside, kind: Kind)
    requires Finalizable(db, account, id, out) && db.uploads[id].skipDerivations
    requires HasKind(db.uploads[id].contentType, kind) && kind in {Video, Audio}
    ensures
      var after := TokenApi.After(db, account, FinalizeUpload(id), out);
      after.t.jobs == db.t.jobs && after.t.renditions == db.t.renditions + OptOut(db, id, kind)
  {
    var row := RowCreated(db, account, id, out);
    OneKind(db.uploads[id].contentType, row.kind);
    OneKind(db.uploads[id].contentType, kind);
    OtherTables(db);
    FinalizeWritten(db, id, row, out.now, map[], OptOut(db, id, kind));
  }

  /** And one that opted out has each of its derivations on record as declined, and no job. */
  lemma FinalizeDeclines(db: Db, account: Id, id: Id, out: Outside, i: Intent)
    requires Finalizable(db, account, id, out) && Referenced(db.t) && db.uploads[id].skipDerivations
    requires HasKind(db.uploads[id].contentType, Video) || HasKind(db.uploads[id].contentType, Audio)
    ensures
      var after := TokenApi.After(db, account, FinalizeUpload(id), out);
      && after.t.jobs == db.t.jobs
      && (forall r | r in db.t.renditions :: r in after.t.renditions && after.t.renditions[r] == db.t.renditions[r])
      && (forall r | r in after.t.renditions && r !in db.t.renditions :: r.0 == id)
      && ((id, i) in after.t.renditions <==>
            i.Detail? || (i in {Poster, Loop} && HasKind(db.uploads[id].contentType, Video)))
      && ((id, i) in after.t.renditions ==> after.t.renditions[(id, i)] == Rendition(NotDerived, None, None))
  {
    var kind := if HasKind(db.uploads[id].contentType, Video) then Video else Audio;
    AfterDeclining(db, account, id, out, kind);
    DeclinedRows(db, id, kind, i);
  }

  /** What a finalize request is refused for, in the order in which it is noticed; and a retry is answered the
      asset there is, or nothing when it has been purged since. */
  lemma FinalizeRefuses(db: Db, account: Id, id: Id, out: Outside)
    requires !Finalizable(db, account, id, out)
    ensures
      var reply := Serve(db, account, FinalizeUpload(id), out).0;
      if !(id in db.uploads && db.uploads[id].account == account) then reply == Denied(Missing)
      else
        var up := db.uploads[id];
        var seen := out.stored(up.key);
        if up.sweptAt.Some? then reply == Denied(Gone)
        else if seen.Absent? then reply == Denied(NotUploaded)
        else if up.rendition.Some? then true
        else if seen.Unreadable? then reply == Denied(Unprobeable)
        else if up.finalizedAt.None? then reply == Denied(Internal)
        else if id in db.t.assets && db.t.assets[id].account == account
        then reply.RowReply? && reply.row == db.t.assets[id]
        else reply == Denied(Missing)
    ensures
      var after := TokenApi.After(db, account, FinalizeUpload(id), out);
      after.t.assets == db.t.assets && after.uploads == db.uploads
  {
    NothingWritten(db);
  }

  // ---- authored files ------------------------------------------------------------------

  /** A finalized authored file re-points the newest job of its intent, unless that has failed, at the file: its
      source and its mode change and nothing else of it; or else a new job is queued for it. */
  lemma AuthoredFinalized(db: Db, account: Id, id: Id, out: Outside, a: Id, i: Intent)
    requires id in db.uploads && db.uploads[id].account == account && db.uploads[id].sweptAt.None?
    requires db.uploads[id].rendition == Some((a, i)) && !out.stored(db.uploads[id].key).Absent?
    ensures
      var key, standing := db.uploads[id].key, NewestJob(db.t.jobs, account, a, i);
      var (reply, after) := (Serve(db, account, FinalizeUpload(id), out).0,
                             TokenApi.After(db, account, FinalizeUpload(id), out));
      if && standing.Some? && standing.value in db.t.jobs
         && db.t.jobs[standing.value].status in {Queued, Running, Succeeded}
      then
        var was := db.t.jobs[standing.value];
        var row := Job(was.account, was.asset, was.intent, was.status, was.retries, was.reason, was.created,
                       was.heartbeat, Remux, Some(key));
        && after == db.(t := db.t.(jobs := db.t.jobs[standing.value := row]))
        && reply == JobReply(standing.value, row.(status := Queued))
      else if a in db.t.assets then
        var row := Job(account, a, i, Queued, 0, None, out.now, None, Remux, Some(key));
        after == db.(t := db.t.(jobs := db.t.jobs[out.id := row])) && reply == JobReply(out.id, row)
      else after == db && reply == Denied(Internal)
  {
    NothingWritten(db);
    var standing := NewestJob(db.t.jobs, account, a, i);
    JobWritten(db, out.id, Job(account, a, i, Queued, 0, None, out.now, None, Remux, Some(db.uploads[id].key)));
    if standing.Some? && standing.value in db.t.jobs {
      JobWritten(db, standing.value,
                 db.t.jobs[standing.value].(sourceKey := Some(db.uploads[id].key), mode := Remux));
    }
  }

  /** The same of the queue's own statement. */
  lemma RepointedColumns(t: Tables, id: Id, key: string)
    ensures
      Repointed(t, id, key) ==
        if id !in t.jobs then t
        else
          var was := t.jobs[id];
          t.(jobs := t.jobs[id := Job(was.account, was.asset, was.intent, was.status, was.retries, was.reason,
                                      was.created, was.heartbeat, Remux, Some(key))])
  {
  }

  // ---- asking for a rendition ---------------------------------------------------------------

  /** Asking answers what is on record unless it was declined; an image and an original are always ready; for
      anything else the newest job is answered unless it failed, and then a new one is queued. */
  lemma RenditionAsked(db: Db, account: Id, id: Id, intent: Intent, out: Outside)
    ensures
      var (reply, after) := (Serve(db, account, AskRendition(id, intent), out).0,
                             TokenApi.After(db, account, AskRendition(id, intent), out));
      var standing := Standing(db.t.jobs, account, id, intent);
      var row := Job(account, id, intent, Queued, 0, None, out.now, None, Derive, None);
      if !(id in db.t.assets && db.t.assets[id].account == account) then (reply, after) == (Denied(Missing), db)
      else if (id, intent) in db.t.renditions && db.t.renditions[(id, intent)].status != NotDerived
      then (reply, after) == (RenditionReply(db.t.renditions[(id, intent)]), db)
      else if db.t.assets[id].kind == Image || intent == Original
      then (reply, after) == (RenditionReply(Rendition(Ready, None, None)), db)
      else if standing.Some? then (reply, after) == (JobReply(standing.value, db.t.jobs[standing.value]), db)
      else (reply, after) == (JobReply(out.id, row), db.(t := db.t.(jobs := db.t.jobs[out.id := row])))
  {
    AskedRows(db, account, id, intent, out);
    Enqueued(db, account, id, intent, out);
    Asked(db, account, id, intent, out);
    NothingWritten(db);
    JobWritten(db, out.id, Job(account, id, intent, Queued, 0, None, out.now, None, Derive, None));
  }

  lemma Asked(db: Db, account: Id, id: Id, intent: Intent, out: Outside)
    ensures Serve(db, account, AskRendition(id, intent), out) == AskCall(db, account, id, intent, out)
    ensures TokenApi.After(db, account, AskRendition(id, intent), out)
         == Applied(db, AskCall(db, account, id, intent, out).1)
  {
  }

  lemma OnRecord(t: Tables, id: Id, intent: Intent)
    ensures RenditionOf(RenditionsFor(t, id), intent)
         == if (id, intent) in t.renditions then Some(t.renditions[(id, intent)]) else None
  {
    assert intent in RenditionsFor(t, id) <==> (id, intent) in t.renditions;
  }

  lemma AskedRows(db: Db, account: Id, id: Id, intent: Intent, out: Outside)
    ensures
      AskCall(db, account, id, intent, out) ==
        if !(id in db.t.assets && db.t.assets[id].account == account) then (Denied(Missing), NOTHING)
        else if (id, intent) in db.t.renditions && db.t.renditions[(id, intent)].status != NotDerived
        then (RenditionReply(db.t.renditions[(id, intent)]), NOTHING)
        else if db.t.assets[id].kind == Image || intent == Original
        then (RenditionReply(Rendition(Ready, None, None)), NOTHING)
        else TokenApi.Enqueue(db, account, id, intent, out)
  {
    OnRecord(db.t, id, intent);
  }

  // ---- reading -------------------------------------------------------------------------------

  /** An account reads its own rows as they stand, and of others' learns nothing but that they are not its own. */
  lemma RowsRead(db: Db, account: Id, id: Id, out: Outside)
    ensures
      match Serve(db, account, ReadAsset(id), out).0
      case AssetReply(view) =>
        && id in db.t.assets && db.t.assets[id].account == account && view.row == db.t.assets[id]
        && (forall i :: i in view.renditions <==> (id, i) in db.t.renditions)
        && (forall i | i in view.renditions :: view.renditions[i] == db.t.renditions[(id, i)])
        && (view.contentType.Some? <==>
              id in db.uploads && db.uploads[id].account == account && db.uploads[id].rendition.None?)
        && (view.contentType.Some? ==> view.contentType.value == db.uploads[id].contentType)
      case Denied(why) => why == Missing && !(id in db.t.assets && db.t.assets[id].account == account)
      case _ => false
    ensures Serve(db, account, ReadJob(id), out).0 ==
            if id in db.t.jobs && db.t.jobs[id].account == account then JobReply(id, db.t.jobs[id]) else Denied(Missing)
    ensures Serve(db, account, ReadGrant(id), out).0 ==
            if id in db.grants && db.grants[id].account == account then ShareReply(id, db.grants[id], [])
            else Denied(Missing)
    ensures Serve(db, account, ReadExport(id), out).0 ==
            if id in db.exports && db.exports[id].account == account then ShareReply(id, db.exports[id], [])
            else Denied(Missing)
  {
  }

  /** Reading writes nothing. */
  lemma ReadingWritesNothing(db: Db, account: Id, call: Call, out: Outside)
    requires call.ReadAsset? || call.ListPage? || call.ResolveUrl? || call.ReadJob? || call.ReadGrant?
          || call.ReadExport?
    ensures TokenApi.After(db, account, call, out) == db
  {
    NothingWritten(db);
  }

  /** A page shows the rows of the ids on it, in order. */
  lemma {:induction false} ViewsInOrder(db: Db, account: Id, ids: seq<Id>)
    requires forall id | id in ids :: id in db.t.assets && db.t.assets[id].account == account
    ensures |Views(db, account, ids)| == |ids|
    ensures forall k | 0 <= k < |ids| :: Views(db, account, ids)[k].row == db.t.assets[ids[k]]
  {
    if ids != [] {
      assert ids[0] in ids;
      assert forall id | id in ids[1..] :: id in ids;
      ViewsInOrder(db, account, ids[1..]);
    }
  }

  /** Pages hold up to two hundred; a length outside that is refused. */
  lemma PageListed(db: Db, account: Id, cursor: Id, limit: int, out: Outside)
    ensures
      var reply := Serve(db, account, ListPage(cursor, limit), out).0;
      if 1 <= limit <= 200 then
        var page := PageOf(AssetsOf(db, account), cursor, limit);
        && reply.PageReply? && reply.next == page.next && |reply.items| == |page.items|
        && (forall k | 0 <= k < |page.items| ::
              page.items[k] in db.t.assets && reply.items[k].row == db.t.assets[page.items[k]])
      else reply == Denied(BadRequest)
    ensures PageLimit(limit) == if 1 <= limit <= 200 then limit else 50
  {
    if 1 <= limit <= 200 {
      var page := PageOf(AssetsOf(db, account), cursor, limit);
      assert forall k | 0 <= k < |page.items| :: page.items[k] in Sorted(Beyond(AssetsOf(db, account), cursor));
      forall id | id in page.items ensures id in db.t.assets && db.t.assets[id].account == account {
        assert id in Sorted(Beyond(AssetsOf(db, account), cursor));
      }
      ViewsInOrder(db, account, page.items);
    }
  }

  // ---- capabilities ------------------------------------------------------------------------------

  lemma {:induction false} RowIdsOf(rows: seq<(Id, Class)>, c: Class)
    requires forall i, j | 0 <= i < j < |rows| :: Before(rows[i].0, rows[j].0)
    ensures forall id :: id in RowIds(rows, c) <==> (id, c) in rows
    ensures Increasing(RowIds(rows, c))
  {
    if rows != [] {
      var init, last := rows[..|rows| - 1], rows[|rows| - 1];
      RowIdsOf(init, c);
      assert rows == init + [last];
      var ids := RowIds(init, c);
      forall k | 0 <= k < |ids| ensures Before(ids[k], last.0) {
        assert (ids[k], c) in init;
        var i :| 0 <= i < |init| && init[i] == (ids[k], c);
        assert rows[i] == init[i];
      }
    }
  }

  /** The gone ids of a request, each once, in order of id. */
  lemma GoneReported(db: Db, account: Id, assets: seq<Id>)
    ensures
      var gone := RowIds(ClassifyAssetSet(db, account, assets), GoneId);
      && (forall id :: id in gone <==> id in assets && Classify(db, account, id) == GoneId)
      && Increasing(gone)
  {
    var rows := ClassifyAssetSet(db, account, assets);
    var sorted := Sorted(set id | id in assets);
    assert |rows| == |sorted| && forall k | 0 <= k < |rows| :: rows[k].0 == sorted[k];
    RowIdsOf(rows, GoneId);
    forall id ensures (id, GoneId) in rows <==> id in assets && Classify(db, account, id) == GoneId {
      if id in assets {
        var k :| 0 <= k < |rows| && rows[k].0 == id;
        assert rows[k] == (id, Classify(db, account, id));
      }
    }
  }

  /** A grant freezes the request as it is, gone ids and all, and names those; an id the account never had refuses
      it. */
  lemma GrantIssued(db: Db, account: Id, assets: seq<Id>, expires: int, out: Outside)
    ensures
      var (reply, after) := (Serve(db, account, IssueGrant(assets, expires), out).0,
                             TokenApi.After(db, account, IssueGrant(assets, expires), out));
      if assets == [] then reply == Denied(BadRequest) && after == db
      else if exists a :: a in assets && Classify(db, account, a) == RefusedId
      then reply == Denied(ForeignAsset) && after == db
      else
        && reply.ShareReply? && reply.id == out.id && reply.share == Share(account, assets, out.now, expires, None)
        && (forall a :: a in reply.gone <==> a in assets && Classify(db, account, a) == GoneId)
        && Increasing(reply.gone)
        && after == db.(grants := db.grants[out.id := reply.share])
  {
    NothingWritten(db);
    if assets != [] && !AnyRefused(db, account, assets) {
      GoneReported(db, account, assets);
      GrantWritten(db, out.id, Share(account, assets, out.now, expires, None));
    }
    GrantServed(db, account, assets, expires, out);
  }

  lemma GrantServed(db: Db, account: Id, assets: seq<Id>, expires: int, out: Outside)
    ensures
      var share := Share(account, assets, out.now, expires, None);
      Serve(db, account, IssueGrant(assets, expires), out) ==
        if assets == [] then (Denied(BadRequest), NOTHING)
        else if AnyRefused(db, account, assets) then (Denied(ForeignAsset), NOTHING)
        else (ShareReply(out.id, share, RowIds(ClassifyAssetSet(db, account, assets), GoneId)),
              NOTHING.(grants := map[out.id := share]))
  {
  }

  const THIRTY_DAYS := 2_592_000_000_000_000

  /** An export freezes what is live of the request, each asset once and in the order of the request, for thirty days at
      the most. */
  lemma ExportIssued(db: Db, account: Id, assets: seq<Id>, expires: int, out: Outside)
    ensures
      var (reply, after) := (Serve(db, account, IssueExport(assets, expires), out).0,
                             TokenApi.After(db, account, IssueExport(assets, expires), out));
      if !out.setup.downloadSigner then reply == Denied(Unconfigured) && after == db
      else if assets == [] || expires <= out.now || expires > out.now + THIRTY_DAYS
      then reply == Denied(BadRequest) && after == db
      else if exists a :: a in assets && Classify(db, account, a) == RefusedId
      then reply == Denied(ForeignAsset) && after == db
      else if forall a | a in assets :: Classify(db, account, a) == GoneId
      then reply == Denied(NothingToExport) && after == db
      else
        && reply.ShareReply? && reply.id == out.id && reply.share.account == account
        && reply.share.created == out.now && reply.share.expires == expires && reply.share.revokedAt == None
        && (forall a :: a in reply.share.assets <==> a in assets && Classify(db, account, a) == LiveId)
        && (forall a :: a in reply.gone <==> a in assets && Classify(db, account, a) == GoneId)
        && after == db.(exports := db.exports[out.id := reply.share])
  {
    NothingWritten(db);
    if !AnyRefused(db, account, assets) {
      ExportPartitions(db, account, assets);
      ExportWritten(db, out.id, Share(account, LiveIds(db, account, assets), out.now, expires, None));
      if LiveIds(db, account, assets) != [] {
        assert LiveIds(db, account, assets)[0] in LiveIds(db, account, assets);
      }
      assert forall a | a in assets :: Classify(db, account, a) != RefusedId;
    }
  }

  /** Ended at the first revocation, whatever came after. */
  predicate EndedAt(row: Share, was: Share, now: int) {
    && row.account == was.account && row.assets == was.assets && row.created == was.created
    && row.expires == was.expires && row.revokedAt == Some(if was.revokedAt.Some? then was.revokedAt.value else now)
  }

  /** Revoking ends the account's own grant for good, and nobody else's. */
  lemma GrantRevoked(db: Db, account: Id, id: Id, out: Outside)
    ensures
      var (reply, after) := (Serve(db, account, RevokeGrant(id), out).0,
                             TokenApi.After(db, account, RevokeGrant(id), out));
      if id in db.grants && db.grants[id].account == account
      then && reply.ShareReply? && reply.id == id && reply.gone == [] && EndedAt(reply.share, db.grants[id], out.now)
           && after == db.(grants := db.grants[id := reply.share])
      else reply == Denied(Missing) && after == db
  {
    NothingWritten(db);
    var rows := Revoked(db.grants, account, id, out.now);
    if id in db.grants && db.grants[id].account == account {
      GrantWritten(db, id, RevokedShare(db.grants[id], out.now));
      assert (db.grants + rows)[id] == RevokedShare(db.grants[id], out.now);
    } else {
      NoRows(db.grants);
    }
    assert Serve(db, account, RevokeGrant(id), out)
        == (ShareOf(db.grants + rows, account, id), NOTHING.(grants := rows));
  }

  /** Revoking ends the account's own export for good, and nobody else's. */
  lemma ExportRevoked(db: Db, account: Id, id: Id, out: Outside)
    ensures
      var (reply, after) := (Serve(db, account, RevokeExport(id), out).0,
                             TokenApi.After(db, account, RevokeExport(id), out));
      if id in db.exports && db.exports[id].account == account
      then && reply.ShareReply? && reply.id == id && reply.gone == [] && EndedAt(reply.share, db.exports[id], out.now)
           && after == db.(exports := db.exports[id := reply.share])
      else reply == Denied(Missing) && after == db
  {
    NothingWritten(db);
    var rows := Revoked(db.exports, account, id, out.now);
    if id in db.exports && db.exports[id].account == account {
      ExportWritten(db, id, RevokedShare(db.exports[id], out.now));
      assert (db.exports + rows)[id] == RevokedShare(db.exports[id], out.now);
    } else {
      NoRows(db.exports);
    }
    assert Serve(db, account, RevokeExport(id), out)
        == (ShareOf(db.exports + rows, account, id), NOTHING.(exports := rows));
  }

  // ---- deleting, and what is served afterwards ------------------------------------------------------

  /** Deleting marks the account's own asset and keeps everything else of it; from then on every URL is refused as
      deleted, the original's included. */
  lemma DeletedIsNotServed(db: Db, account: Id, id: Id, out: Outside, intent: Intent, device: Device, later: Outside)
    ensures
      var (reply, after) := (Serve(db, account, DeleteAsset(id), out).0,
                             TokenApi.After(db, account, DeleteAsset(id), out));
      if id in db.t.assets && db.t.assets[id].account == account
      then
        && reply.AssetReply? && reply.view.row == db.t.assets[id].(deletedAt := Some(out.now))
        && after == db.(t := db.t.(assets := db.t.assets[id := reply.view.row]))
        && Serve(after, account, ResolveUrl(id, intent, device), later).0
           == UrlReply(Refuse(Some(ReasonCode.Deleted)))
      else reply == Denied(Missing) && after == db
  {
    DeleteIsMark(db, account, id, out);
  }

  /** The original of a live asset is answered by its vault key where downloads can be signed. */
  lemma OriginalAnswered(db: Db, account: Id, id: Id, device: Device, out: Outside)
    requires id in db.t.assets && db.t.assets[id].account == account && db.t.assets[id].deletedAt.None?
    ensures Serve(db, account, ResolveUrl(id, Original, device), out).0 ==
            if out.setup.downloadSigner then OriginalReply(db.t.assets[id].vaultKey) else Denied(Unconfigured)
  {
  }

  /** By code point: ten digits, twenty-six letters in either case. */
  predicate LetterOrDigit(code: int) {
    48 <= code < 58 || 65 <= code < 91 || 97 <= code < 123
  }

  /** An account provisions itself under an id of the contract's shape; and such an id is one path segment and plain, so
      everything signed for it can be served. */
  lemma AccountProvisioned(db: Db, account: Id, out: Outside)
    ensures
      var (reply, after) := (Serve(db, account, ProvisionAccount, out).0,
                             TokenApi.After(db, account, ProvisionAccount, out));
      if ValidAccountId(account)
      then reply == AccountReply(account !in db.accounts) && after == db.(accounts := db.accounts + {account})
      else reply == Denied(BadRequest) && after == db
    ensures ValidAccountId(account) ==> Keys.Segment(account) && UrlPath.Plain(account)
    ensures ValidAccountId(account) <==>
      && 2 <= |account| <= 128 && LetterOrDigit(account[0] as int)
      && forall c | c in account :: LetterOrDigit(c as int) || c == '_' || c == '.' || c == '-'
  {
    NothingWritten(db);
  }
}
