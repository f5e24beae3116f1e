/** From upload to URL: what an account that finalized a file is answered, before and after a worker has seen to it. */
module UploadStories {
  import opened Contract
  import opened Records
  import opened Fit
  import opened MediaSpec
  import opened AssetStore
  import opened Resolution
  import opened TokenApi
  import opened TokenAnswers
  import Keys
  import Workers
  import WorkerOutcomes

  // ---- pictures ----------------------------------------------------------------

  lemma UrlAnswer(db: Db, account: Id, id: Id, intent: Intent, device: Device, out: Outside)
    requires Owns(db, account, id) && !intent.Original? && db.t.assets[id].deletedAt.None?
    ensures Serve(db, account, ResolveUrl(id, intent, device), out).0
         == UrlReply(ResolveNonOriginal(out.setup, db.t.assets[id], RenditionsFor(db.t, id), intent, device))
  {
  }

  /** A finalized image is served at once: from its own original, under the intent's own name and within that
      name's box, at the size it was uploaded in, scaled. */
  lemma FinalizedImageIsServed(db: Db, account: Id, id: Id, out: Outside, w: int, h: int,
                               intent: Intent, device: Device, later: Outside)
    requires Finalizable(db, account, id, out) && HasKind(db.uploads[id].contentType, Image)
    requires
      var facts := out.stored(db.uploads[id].key).facts;
      facts.width == Some(w) && facts.height == Some(h) && w > 0 && h > 0
    requires ImageIntent(intent) && later.setup.imageSigner && later.setup.sourceBucket != ""
    ensures
      var after := TokenApi.After(db, account, FinalizeUpload(id), out);
      var reply := Serve(after, account, ResolveUrl(id, intent, device), later).0;
      && reply.UrlReply? && reply.answer.Deliver? && reply.answer.dims.Some?
      && reply.answer.target.ImageUrl? && reply.answer.target.key == db.uploads[id].key
      && var (name, dims) := (PresetName(reply.answer.target.preset), reply.answer.dims.value);
         if Clamped(intent, device) then name == "lightbox_mobile" && dims == FitBox(w, h, 1400)
         else
           && (!intent.Zoom3? ==> name == IntentName(intent))
           && (intent.Thumbnail? ==> dims == FitBox(w, h, 400)) && (intent.Grid? ==> dims == FitBox(w, h, 800))
           && (intent.Lightbox? ==> dims == FitBox(w, h, 2048)) && (intent.Zoom1? ==> dims == FitBox(w, h, 3072))
           && (intent.Zoom2? ==> dims == FitBox(w, h, 4096))
           && (intent.Zoom3? ==> DeepestRung(name, Some(dims), Some(w), Some(h)))
  {
    FinalizeCreates(db, account, id, out);
    var after := TokenApi.After(db, account, FinalizeUpload(id), out);
    var row := after.t.assets[id];
    OneKind(db.uploads[id].contentType, Image);
    OneKind(db.uploads[id].contentType, row.kind);
    UrlAnswer(after, account, id, intent, device, later);
    DeliversIff(later.setup, row, RenditionsFor(after.t, id), intent, device);
    PictureDelivered(later.setup, row, RenditionsFor(after.t, id), intent, device);
  }

  // ---- streams -------------------------------------------------------------------

  /** The kind offers the intent as the file the worker stores. */
  predicate Offers(kind: Kind, intent: Intent) {
    (intent.Detail? && kind in {Video, Audio}) || (intent in {Poster, Loop} && kind.Video?)
  }

  /** A job of the account's on a live asset, for something the asset's kind offers. */
  predicate UsefulJob(t: Tables, j: Id) {
    && j in t.jobs && t.jobs[j].asset in t.assets
    && var (row, asset) := (t.jobs[j], t.assets[t.jobs[j].asset]);
       && asset.account == row.account && asset.deletedAt.None? && Offers(asset.kind, row.intent)
       && asset.vaultKey == Keys.VaultKey(row.account, row.asset)
       && (row.mode.Remux? ==> row.sourceKey.Some?)
  }

  lemma RenditionRecorded(t: Tables, a: Id, i: Intent, r: Rendition)
    ensures
      var after := RenditionsFor(t.(renditions := t.renditions[(a, i) := r]), a);
      i in after && after[i] == r
  {
    assert (a, i) in t.renditions[(a, i) := r];
  }

  /** Once a worker has seen a job through, the account is answered the very object it stored. */
  lemma SeenThroughIsServed(cfg: Workers.Config, s: Workers.System, w: nat, j: Id, p: Workers.Probe,
                            facts: RenditionRecord, db: Db, device: Device, out: Outside)
    returns (steps: seq<Workers.Step>)
    requires WorkerOutcomes.Offered(cfg, s, w, j) && UsefulJob(s.t, j)
    requires WorkerOutcomes.Passes(cfg, s.t.jobs[j].mode, s.t.jobs[j].intent, p)
    ensures WorkerOutcomes.Goes(cfg, s, steps)
    ensures
      var (row, end) := (s.t.jobs[j], WorkerOutcomes.Leads(cfg, s, steps));
      var key := "delivery/" + row.account + "/" + row.asset + "/" + IntentName(row.intent);
      && key in end.objects
      && Serve(db.(t := end.t), row.account, ResolveUrl(row.asset, row.intent, device), out).0
         == UrlReply(Deliver(PublicObject(key), None))
  {
    steps := WorkerOutcomes.SeenThrough(cfg, s, w, j, p, facts);
    var (row, end) := (s.t.jobs[j], WorkerOutcomes.Leads(cfg, s, steps));
    RenditionRecorded(end.t, row.asset, row.intent, end.t.renditions[(row.asset, row.intent)]);
    assert end.t.renditions == end.t.renditions[(row.asset, row.intent) := end.t.renditions[(row.asset, row.intent)]];
    UrlAnswer(db.(t := end.t), row.account, row.asset, row.intent, device, out);
    MediaAnswered(out.setup, end.t.assets[row.asset], RenditionsFor(end.t, row.asset), row.intent, device,
                  row.account, row.asset);
    Keys.RenditionKeyShape(row.account, row.asset, IntentName(row.intent));
    assert "delivery" + "/" == "delivery/";
  }

  /** And once a worker has refused it, the reason the worker gave. */
  lemma RefusedIsSaid(cfg: Workers.Config, s: Workers.System, w: nat, j: Id, probe: Option<Workers.Probe>,
                      reason: ReasonCode, db: Db, device: Device, out: Outside)
    returns (steps: seq<Workers.Step>)
    requires WorkerOutcomes.Offered(cfg, s, w, j) && UsefulJob(s.t, j)
    requires
      match probe
      case None => s.t.jobs[j].mode == Remux && reason == AuthoredCodecUnsupported
      case Some(p) =>
        && !WorkerOutcomes.Passes(cfg, s.t.jobs[j].mode, s.t.jobs[j].intent, p)
        && (if s.t.jobs[j].mode == Derive then reason == ExceededDurationCeiling
            else Workers.AuthoredBreach(s.t.jobs[j].intent, p) == Some(reason))
    ensures WorkerOutcomes.Goes(cfg, s, steps)
    ensures
      var (row, end) := (s.t.jobs[j], WorkerOutcomes.Leads(cfg, s, steps));
      && end.objects == s.objects
      && Serve(db.(t := end.t), row.account, ResolveUrl(row.asset, row.intent, device), out).0
         == UrlReply(Refuse(Some(reason)))
  {
    steps := WorkerOutcomes.RefusedWithReason(cfg, s, w, j, probe, reason);
    var (row, end) := (s.t.jobs[j], WorkerOutcomes.Leads(cfg, s, steps));
    RenditionRecorded(end.t, row.asset, row.intent, end.t.renditions[(row.asset, row.intent)]);
    assert end.t.renditions == end.t.renditions[(row.asset, row.intent) := end.t.renditions[(row.asset, row.intent)]];
    UrlAnswer(db.(t := end.t), row.account, row.asset, row.intent, device, out);
    MediaAnswered(out.setup, end.t.assets[row.asset], RenditionsFor(end.t, row.asset), row.intent, device,
                  row.account, row.asset);
  }

  /** The small pictures of a video with a ready poster. */
  lemma PicturesOfPoster(db: Db, account: Id, a: Id, facts: RenditionRecord, intent: Intent, out: Outside)
    requires Owns(db, account, a) && db.t.assets[a].deletedAt.None? && db.t.assets[a].kind.Video?
    requires db.t.assets[a].vaultKey == Keys.VaultKey(account, a) && intent in {Thumbnail, Grid, Lightbox}
    requires (a, Poster) in db.t.renditions && db.t.renditions[(a, Poster)] == Rendition(Ready, None, Some(facts))
    requires out.setup.imageSigner && out.setup.sourceBucket != ""
    ensures
      var reply := Serve(db, account, ResolveUrl(a, intent, Desktop), out).0;
      && reply.UrlReply? && reply.answer.Deliver? && reply.answer.target.ImageUrl?
      && reply.answer.target.key == "delivery/" + account + "/" + a + "/poster"
      && PresetName(reply.answer.target.preset) == IntentName(intent)
      && reply.answer.dims ==
         Reported(facts.width, facts.height, if intent.Thumbnail? then 400 else if intent.Grid? then 800 else 2048)
  {
    var renditions := RenditionsFor(db.t, a);
    assert Poster in renditions && renditions[Poster] == db.t.renditions[(a, Poster)];
    UrlAnswer(db, account, a, intent, Desktop, out);
    DeliversIff(out.setup, db.t.assets[a], renditions, intent, Desktop);
    PictureDelivered(out.setup, db.t.assets[a], renditions, intent, Desktop);
    Keys.RenditionKeyShape(account, a, "poster");
    assert "delivery" + "/" == "delivery/";
  }

  /** A poster seen through makes the video's small pictures too: rendered from it, at the size measured of it. */
  lemma PosterMakesPictures(cfg: Workers.Config, s: Workers.System, w: nat, j: Id, p: Workers.Probe,
                            facts: RenditionRecord, db: Db, intent: Intent, out: Outside)
    returns (steps: seq<Workers.Step>)
    requires WorkerOutcomes.Offered(cfg, s, w, j) && UsefulJob(s.t, j) && s.t.jobs[j].intent == Poster
    requires WorkerOutcomes.Passes(cfg, s.t.jobs[j].mode, Poster, p) && intent in {Thumbnail, Grid, Lightbox}
    requires out.setup.imageSigner && out.setup.sourceBucket != ""
    ensures WorkerOutcomes.Goes(cfg, s, steps)
    ensures
      var (row, end) := (s.t.jobs[j], WorkerOutcomes.Leads(cfg, s, steps));
      var reply := Serve(db.(t := end.t), row.account, ResolveUrl(row.asset, intent, Desktop), out).0;
      && reply.UrlReply? && reply.answer.Deliver? && reply.answer.target.ImageUrl?
      && reply.answer.target.key == "delivery/" + row.account + "/" + row.asset + "/poster"
      && PresetName(reply.answer.target.preset) == IntentName(intent)
      && reply.answer.dims ==
         Reported(facts.width, facts.height, if intent.Thumbnail? then 400 else if intent.Grid? then 800 else 2048)
  {
    steps := WorkerOutcomes.SeenThrough(cfg, s, w, j, p, facts);
    var (row, end) := (s.t.jobs[j], WorkerOutcomes.Leads(cfg, s, steps));
    var key := Keys.RenditionKey(s.t.assets[row.asset].vaultKey, IntentName(Poster));
    PicturesOfPoster(db.(t := end.t), row.account, row.asset, facts.(key := key), intent, out);
  }

  /** A finalized video or sound is answered pending for its detail, and the job that was queued for that is one a
      worker can see through. */
  lemma FinalizedMediaIsPending(db: Db, account: Id, id: Id, out: Outside, device: Device, later: Outside)
    requires Finalizable(db, account, id, out) && Referenced(db.t) && !db.uploads[id].skipDerivations
    requires HasKind(db.uploads[id].contentType, Video) || HasKind(db.uploads[id].contentType, Audio)
    requires db.uploads[id].key == Keys.VaultKey(account, id)
    ensures
      var after := TokenApi.After(db, account, FinalizeUpload(id), out);
      && UsefulJob(after.t, out.id) && after.t.jobs[out.id].intent == Detail && after.t.jobs[out.id].asset == id
      && after.t.jobs[out.id].account == account && after.t.jobs[out.id].status == Queued
      && Serve(after, account, ResolveUrl(id, Detail, device), later).0 == UrlReply(Refuse(Some(PendingReason)))
  {
    FinalizeCreates(db, account, id, out);
    FinalizeQueues(db, account, id, out);
    var after := TokenApi.After(db, account, FinalizeUpload(id), out);
    var ct := db.uploads[id].contentType;
    OneKind(ct, Video);
    OneKind(ct, Audio);
    OneKind(ct, after.t.assets[id].kind);
    assert (id, Detail) !in after.t.renditions;
    UrlAnswer(after, account, id, Detail, device, later);
    MediaAnswered(later.setup, after.t.assets[id], RenditionsFor(after.t, id), Detail, device, account, id);
  }
}
