/** From an intent to a delivery: which host, which key, which preset, or which honest refusal. */
module Resolution {
  import opened Contract
  import opened Records
  import opened Keys
  import opened MediaSpec
  import opened Fit
  import Decimal
  import ImagePath

  // ---- routing --------------------------------------------------------------

  datatype Host = ImageCdn | ObjectStore

  predicate IsLadder(intent: Intent) {
    intent in {Thumbnail, Grid, Lightbox}
  }

  /** A total table over closed enumerations that refuses what it does not list. */
  function Route(kind: Kind, intent: Intent): Option<Host> {
    if intent.Original? then Some(ObjectStore)
    else
      match kind
      case Image => if IsLadder(intent) || intent in {Zoom1, Zoom2, Zoom3} then Some(ImageCdn) else None
      case Video =>
        if IsLadder(intent) then Some(ImageCdn)
        else if intent in {Poster, Loop, Detail} then Some(ObjectStore) else None
      case Audio => if intent.Detail? then Some(ObjectStore) else None
      case Document => None
  }

  // ---- resolving ------------------------------------------------------------

  /** What the deployment has configured. */
  datatype Setup = Setup(imageSigner: bool, sourceBucket: string, grantedImageHost: bool, downloadSigner: bool)

  datatype Target =
    | ImageUrl(preset: Preset, key: string, exp: Option<int>)
    | PublicObject(key: string)
    | SignedDownload(key: string, intent: Intent, grant: Id, until: int)

  datatype Answer = Deliver(target: Target, dims: Option<(int, int)>) | Refuse(reason: Option<ReasonCode>)

  predicate ImagesServable(setup: Setup) {
    setup.imageSigner && setup.sourceBucket != ""
  }

  function Source(setup: Setup, key: string): string {
    "s3://" + setup.sourceBucket + "/" + key
  }

  function WidthOf(r: Rendition): Option<int> {
    if r.record.Some? then r.record.value.width else None
  }

  function HeightOf(r: Rendition): Option<int> {
    if r.record.Some? then r.record.value.height else None
  }

  /** The refusal that describes a rendition's real state; absent counts as pending. */
  function StateRefusal(r: Option<Rendition>): Answer {
    match r
    case None => Refuse(Some(PendingReason))
    case Some(row) =>
      match row.status
      case NotDerived => Refuse(Some(NotDerivedReason))
      case Refused => Refuse(row.reason)
      case _ => Refuse(Some(PendingReason))
  }

  function RenditionOf(renditions: map<Intent, Rendition>, intent: Intent): Option<Rendition> {
    if intent in renditions then Some(renditions[intent]) else None
  }

  function FromObjectStore(row: Asset, intent: Intent): Answer {
    if Route(row.kind, intent) == Some(ObjectStore) && !intent.Original?
    then Deliver(PublicObject(RenditionKey(row.vaultKey, IntentName(intent))), None)
    else Refuse(Some(UnsupportedFormat))
  }

  function FromImageHost(setup: Setup, intent: Intent, device: Device, key: string, w: Option<int>, h: Option<int>)
    : Answer
  {
    var preset := ImagePreset(intent, device, w, h);
    if ImagesServable(setup) then Deliver(ImageUrl(preset, key, None), FitOutputDims(w, h, preset))
    else Refuse(Some(UnsupportedFormat))
  }

  function ResolveNonOriginal(setup: Setup, row: Asset, renditions: map<Intent, Rendition>,
                              intent: Intent, device: Device): Answer {
    if row.deletedAt.Some? then Refuse(Some(ReasonCode.Deleted))
    else if row.kind.Image? then FromImageHost(setup, intent, device, row.vaultKey, row.width, row.height)
    else if row.kind.Video? && IsLadder(intent) then
      match RenditionOf(renditions, Poster)
      case None => StateRefusal(None)
      case Some(poster) =>
        if !poster.status.Ready? then StateRefusal(Some(poster))
        else
          var key := RenditionKey(row.vaultKey, IntentName(Poster));
          FromImageHost(setup, intent, device, key, WidthOf(poster), HeightOf(poster))
    else if row.kind.Document? then FromObjectStore(row, intent)
    else
      match RenditionOf(renditions, intent)
      case None => StateRefusal(None)
      case Some(r) => if r.status.Ready? then FromObjectStore(row, intent) else StateRefusal(Some(r))
  }

  /** The enforced form of a delivery under a grant; nothing when the signer it needs is not configured. */
  function EnforceGranted(setup: Setup, row: Asset, renditions: map<Intent, Rendition>, grant: Id,
                          intent: Intent, device: Device, exp: int): Option<Target> {
    if row.kind.Video? && IsLadder(intent) then
      match RenditionOf(renditions, Poster)
      case None => None
      case Some(poster) =>
        if !poster.status.Ready? || !ImagesServable(setup) || !setup.grantedImageHost then None
        else
          Some(ImageUrl(ImagePreset(intent, device, WidthOf(poster), HeightOf(poster)),
                        RenditionKey(row.vaultKey, IntentName(Poster)), Some(exp)))
    else if row.kind.Image? then
      if !ImagesServable(setup) || !setup.grantedImageHost then None
      else Some(ImageUrl(ImagePreset(intent, device, row.width, row.height), row.vaultKey, Some(exp)))
    else if !setup.downloadSigner then None
    else Some(SignedDownload(RenditionKey(row.vaultKey, IntentName(intent)), intent, grant, exp))
  }

  // ---- what the two agree on --------------------------------------------------

  /** Exactly when something is delivered: never when deleted, never without the state that makes the bytes exist. An
      image is delivered for every intent, also for those no preset serves. */
  lemma DeliversIff(setup: Setup, row: Asset, renditions: map<Intent, Rendition>, intent: Intent, device: Device)
    requires !intent.Original?
    ensures
      var ready := (i: Intent) => RenditionOf(renditions, i).Some? && RenditionOf(renditions, i).value.status.Ready?;
      ResolveNonOriginal(setup, row, renditions, intent, device).Deliver? <==>
        && row.deletedAt.None?
        && (|| (row.kind.Image? && ImagesServable(setup))
            || (row.kind.Video? && IsLadder(intent) && ready(Poster) && ImagesServable(setup))
            || (row.kind.Video? && intent in {Poster, Loop, Detail} && ready(intent))
            || (row.kind.Audio? && intent.Detail? && ready(intent)))
  {
  }

  /** The size a picture is reported with, once both its edges are known. */
  function Reported(w: Option<int>, h: Option<int>, cap: nat): Option<(int, int)> {
    if w.Some? && h.Some? && w.value > 0 && h.value > 0 then Some(FitBox(w.value, h.value, cap)) else None
  }

  /** What is rendered from: an image's original, or a video's poster. */
  function PictureOf(row: Asset, renditions: map<Intent, Rendition>): (string, Option<int>, Option<int>)
    requires row.kind.Image? || Poster in renditions
  {
    if row.kind.Image? then (row.vaultKey, row.width, row.height)
    else (RenditionKey(row.vaultKey, "poster"), WidthOf(renditions[Poster]), HeightOf(renditions[Poster]))
  }

  /** The device classes share the small renditions; a mobile device gets one size for all the large ones. */
  predicate Clamped(intent: Intent, device: Device) {
    device.Mobile? && intent in {Lightbox, Zoom1, Zoom2, Zoom3}
  }

  /** Which picture an image intent is answered with, by name and size: its own rendition, but for the mobile clamp and
      for the deepest rung, which goes by the aspect of the source. */
  lemma PictureDelivered(setup: Setup, row: Asset, renditions: map<Intent, Rendition>, intent: Intent, device: Device)
    requires ImageIntent(intent) && ResolveNonOriginal(setup, row, renditions, intent, device).Deliver?
    ensures
      var Deliver(target, dims) := ResolveNonOriginal(setup, row, renditions, intent, device);
      var (key, w, h) := PictureOf(row, renditions);
      && target.ImageUrl? && target.key == key && target.exp == None
      && (Clamped(intent, device) ==>
            PresetName(target.preset) == "lightbox_mobile" && dims == Reported(w, h, 1400))
      && (!Clamped(intent, device) && !intent.Zoom3? ==> PresetName(target.preset) == IntentName(intent))
      && (intent.Thumbnail? ==> dims == Reported(w, h, 400)) && (intent.Grid? ==> dims == Reported(w, h, 800))
      && (!Clamped(intent, device) ==>
            && (intent.Lightbox? ==> dims == Reported(w, h, 2048))
            && (intent.Zoom1? ==> dims == Reported(w, h, 3072)) && (intent.Zoom2? ==> dims == Reported(w, h, 4096))
            && (intent.Zoom3? ==> DeepestRung(PresetName(target.preset), dims, w, h)))
  {
    var (key, w, h) := PictureOf(row, renditions);
    assert ResolveNonOriginal(setup, row, renditions, intent, device)
        == FromImageHost(setup, intent, device, key, w, h);
    PictureNames(intent, device, w, h);
  }

  lemma PictureNames(intent: Intent, device: Device, w: Option<int>, h: Option<int>)
    requires ImageIntent(intent)
    ensures
      var preset := ImagePreset(intent, device, w, h);
      var (name, dims) := (PresetName(preset), FitOutputDims(w, h, preset));
      && (Clamped(intent, device) ==> name == "lightbox_mobile" && dims == Reported(w, h, 1400))
      && (!Clamped(intent, device) && !intent.Zoom3? ==> name == IntentName(intent))
      && (intent.Thumbnail? ==> dims == Reported(w, h, 400)) && (intent.Grid? ==> dims == Reported(w, h, 800))
      && (!Clamped(intent, device) ==>
            && (intent.Lightbox? ==> dims == Reported(w, h, 2048))
            && (intent.Zoom1? ==> dims == Reported(w, h, 3072)) && (intent.Zoom2? ==> dims == Reported(w, h, 4096))
            && (intent.Zoom3? ==> DeepestRung(name, dims, w, h)))
  {
    if intent.Zoom3? && w.Some? && h.Some? && w.value > 0 && h.value > 0 { AspectBands(w.value, h.value); }
  }

  /** Up to five to four, up to eight to five, and beyond; a source nobody probed counts as square. */
  predicate DeepestRung(name: string, dims: Option<(int, int)>, w: Option<int>, h: Option<int>) {
    if Reported(w, h, 1).None? then name == "zoom_3_nearsquare" && dims == None
    else
      var l, s := LongEdge(w.value, h.value), ShortEdge(w.value, h.value);
      if 4 * l < 5 * s then name == "zoom_3_nearsquare" && dims == Reported(w, h, 4898)
      else if 5 * l < 8 * s then name == "zoom_3_standard" && dims == Reported(w, h, 5477)
      else name == "zoom_3_wide" && dims == Reported(w, h, 6197)
  }

  /** A preset is configured exactly for the image intents. */
  lemma PresetConfiguredIff(intent: Intent, device: Device, w: Option<int>, h: Option<int>)
    ensures PresetName(ImagePreset(intent, device, w, h)) in ImagePath.PresetNames() <==> ImageIntent(intent)
  {
    var preset := ImagePreset(intent, device, w, h);
    if ImageIntent(intent) {
      PresetListed(preset);
    } else {
      assert PresetName(preset) == IntentName(intent);
      UnlistedName(intent);
    }
  }

  lemma PresetListed(preset: Preset)
    requires !preset.Unlisted?
    ensures PresetName(preset) in ImagePath.PresetNames()
  {
    assert preset == PRESET_ORDER[0] || preset == PRESET_ORDER[1] || preset == PRESET_ORDER[2]
        || preset == PRESET_ORDER[3] || preset == PRESET_ORDER[4] || preset == PRESET_ORDER[5]
        || preset == PRESET_ORDER[6] || preset == PRESET_ORDER[7] || preset == PRESET_ORDER[8];
    assert preset in PRESET_ORDER;
  }

  lemma UnlistedName(intent: Intent)
    requires intent in {Poster, Loop, Detail, Original}
    ensures IntentName(intent) !in ImagePath.PresetNames()
  {
    forall p | p in PRESET_ORDER ensures PresetName(p) != IntentName(intent) {
      assert PresetName(p)[0] in {'l', 't', 'g', 'z'};
      assert IntentName(intent)[0] in {'p', 'd', 'o'} || IntentName(intent) == "loop";
      assert PresetName(p)[0] == 'l' ==> PresetName(p)[1] == 'i';
    }
  }

  predicate SourceClean(setup: Setup, key: string) {
    '@' !in setup.sourceBucket && '@' !in key
  }

  lemma SourceIsReadable(setup: Setup, key: string)
    requires SourceClean(setup, key)
    ensures ImagePath.SourceReadable(Source(setup, key))
  {
    assert '@' !in "s3://";
    ImagePath.PlainSourceReadable(Source(setup, key));
  }

  /** Not every image URL handed out can be served: its own host's grammar accepts it exactly when the source is
      readable and the intent is an image intent. */
  lemma DeliveredUrlServesIff(setup: Setup, row: Asset, renditions: map<Intent, Rendition>, intent: Intent,
                              device: Device, now: int)
    requires ResolveNonOriginal(setup, row, renditions, intent, device).Deliver?
    requires ResolveNonOriginal(setup, row, renditions, intent, device).target.ImageUrl?
    ensures
      var url := ResolveNonOriginal(setup, row, renditions, intent, device).target;
      var path := ImagePath.ProcessingPath(PresetName(url.preset), Source(setup, url.key), url.exp);
      && url.exp == None
      && ((ImagePath.PathError(ImagePath.PUBLIC_HOST, path, now) == None) <==>
          (ImageIntent(intent) && ImagePath.SourceReadable(Source(setup, url.key))))
      && (SourceClean(setup, url.key) ==> ImagePath.SourceReadable(Source(setup, url.key)))
  {
    var url := ResolveNonOriginal(setup, row, renditions, intent, device).target;
    var (w, h) := if row.kind.Image? then (row.width, row.height)
                  else (WidthOf(renditions[Poster]), HeightOf(renditions[Poster]));
    assert url.preset == ImagePreset(intent, device, w, h);
    PresetConfiguredIff(intent, device, w, h);
    ImagePath.PublicFormOnPublicHost(PresetName(url.preset), Source(setup, url.key), now);
    if SourceClean(setup, url.key) {
      SourceIsReadable(setup, url.key);
    }
  }

  /** The text of the URL an image host is asked with: the name, then the source in the private bucket; under a
      grant the name and the expiry second as options. */
  lemma PictureUrlText(setup: Setup, name: string, key: string, exp: int)
    ensures ImagePath.ProcessingPath(name, Source(setup, key), None)
         == "/" + name + "/plain/s3://" + setup.sourceBucket + "/" + key
    ensures ImagePath.ProcessingPath(name, Source(setup, key), Some(exp))
         == "/pr:" + name + "/exp:" + Decimal.FormatInt(exp) + "/plain/s3://" + setup.sourceBucket + "/" + key
  {
    assert "/plain/" + "s3://" == "/plain/s3://";
  }

  /** The same under a grant, on the granted host, while the URL has not expired. */
  lemma GrantedUrlServesIff(setup: Setup, row: Asset, renditions: map<Intent, Rendition>, grant: Id, intent: Intent,
                            device: Device, exp: int, now: int)
    requires EnforceGranted(setup, row, renditions, grant, intent, device, exp).Some?
    requires EnforceGranted(setup, row, renditions, grant, intent, device, exp).value.ImageUrl?
    ensures
      var url := EnforceGranted(setup, row, renditions, grant, intent, device, exp).value;
      var path := ImagePath.ProcessingPath(PresetName(url.preset), Source(setup, url.key), url.exp);
      && url.exp == Some(exp)
      && ((ImagePath.PathError(ImagePath.GRANTED_HOST, path, now) == None) <==>
          (&& ImageIntent(intent) && ImagePath.SourceReadable(Source(setup, url.key))
           && Decimal.INT64_MIN <= exp <= Decimal.INT64_MAX && (exp <= 0 || now <= exp)))
  {
    var url := EnforceGranted(setup, row, renditions, grant, intent, device, exp).value;
    var (w, h) := if row.kind.Image? then (row.width, row.height)
                  else (WidthOf(renditions[Poster]), HeightOf(renditions[Poster]));
    assert url.preset == ImagePreset(intent, device, w, h);
    PresetConfiguredIff(intent, device, w, h);
    ImagePath.GrantedFormOnGrantedHost(PresetName(url.preset), exp, Source(setup, url.key), now);
  }

  /** A live image asked for a loop is answered with a URL, and the host refuses that URL. */
  lemma ImageLoopIsDeadLink(setup: Setup, row: Asset, renditions: map<Intent, Rendition>, device: Device, now: int)
    requires row.kind.Image? && row.deletedAt.None? && ImagesServable(setup)
    ensures
      var path := ImagePath.ProcessingPath("loop", Source(setup, row.vaultKey), None);
      && ResolveNonOriginal(setup, row, renditions, Loop, device)
         == Deliver(ImageUrl(Unlisted(Loop), row.vaultKey, None), None)
      && ImagePath.PathError(ImagePath.PUBLIC_HOST, path, now).Some?
  {
    DeliveredUrlServesIff(setup, row, renditions, Loop, device, now);
  }

  /** Granted delivery is public delivery with an end: the same preset of the same source, or the same object behind a
      signed download, and never an unenforced URL. */
  lemma GrantedMirrorsPublic(setup: Setup, row: Asset, renditions: map<Intent, Rendition>, grant: Id,
                             intent: Intent, device: Device, exp: int)
    requires ResolveNonOriginal(setup, row, renditions, intent, device).Deliver?
    ensures
      var bare, granted := ResolveNonOriginal(setup, row, renditions, intent, device).target,
                            EnforceGranted(setup, row, renditions, grant, intent, device, exp);
      match bare
      case ImageUrl(preset, key, _) =>
        granted == if setup.grantedImageHost then Some(ImageUrl(preset, key, Some(exp))) else None
      case PublicObject(key) =>
        granted == if setup.downloadSigner then Some(SignedDownload(key, intent, grant, exp)) else None
      case SignedDownload(_, _, _, _) => false
  {
  }

  /** A video's image intents live by its poster: until that is ready they answer word for word what the poster
      answers. */
  lemma LadderFollowsPoster(setup: Setup, row: Asset, renditions: map<Intent, Rendition>, intent: Intent,
                            device: Device)
    requires row.kind.Video? && IsLadder(intent)
    requires !(Poster in renditions && renditions[Poster].status.Ready?)
    ensures ResolveNonOriginal(setup, row, renditions, intent, device)
         == ResolveNonOriginal(setup, row, renditions, Poster, device)
    ensures ResolveNonOriginal(setup, row, renditions, intent, device).Refuse?
  {
  }

  /** What a video or audio intent that is not a picture is answered with, by the state of its rendition: the object the
      worker stored it under when that is one the kind offers, or the reason there is none. */
  lemma MediaAnswered(setup: Setup, row: Asset, renditions: map<Intent, Rendition>, intent: Intent, device: Device,
                      account: Id, a: Id)
    requires row.deletedAt.None? && row.vaultKey == VaultKey(account, a) && !intent.Original?
    requires row.kind.Audio? || (row.kind.Video? && intent !in {Thumbnail, Grid, Lightbox})
    ensures
      var answer := ResolveNonOriginal(setup, row, renditions, intent, device);
      if intent !in renditions || renditions[intent].status.Pending? then answer == Refuse(Some(PendingReason))
      else
        match renditions[intent].status
        case Ready =>
          if intent.Detail? || (row.kind.Video? && intent in {Poster, Loop})
          then answer == Deliver(PublicObject("delivery/" + account + "/" + a + "/" + IntentName(intent)), None)
          else answer == Refuse(Some(UnsupportedFormat))
        case Refused => answer == Refuse(renditions[intent].reason)
        case _ => answer == Refuse(Some(NotDerivedReason))
  {
    RenditionKeyShape(account, a, IntentName(intent));
    assert "delivery" + "/" == "delivery/";
  }

  /** What is refused whatever the state of renditions: anything deleted, anything a document is asked for, and any
      picture where no image host is configured. */
  lemma RefusedAnyway(setup: Setup, row: Asset, renditions: map<Intent, Rendition>, intent: Intent, device: Device)
    requires !intent.Original?
    requires row.deletedAt.Some? || row.kind.Document? || setup.sourceBucket == "" || !setup.imageSigner
    ensures
      var answer := ResolveNonOriginal(setup, row, renditions, intent, device);
      if row.deletedAt.Some? then answer == Refuse(Some(ReasonCode.Deleted))
      else if row.kind.Document? || row.kind.Image? then answer == Refuse(Some(UnsupportedFormat))
      else if row.kind.Video? && intent in {Thumbnail, Grid, Lightbox} then
        Poster in renditions && renditions[Poster].status.Ready? ==> answer == Refuse(Some(UnsupportedFormat))
      else true
  {
  }

  /** No answer names a vault object outright: bytes are either rendered within bounds or served from the delivery
      space. */
  lemma NoRawOriginals(setup: Setup, row: Asset, renditions: map<Intent, Rendition>, intent: Intent, device: Device,
                       account: string, asset: string)
    requires ResolveNonOriginal(setup, row, renditions, intent, device).Deliver?
    requires ResolveNonOriginal(setup, row, renditions, intent, device).target.PublicObject?
    ensures ResolveNonOriginal(setup, row, renditions, intent, device).target.key != VaultKey(account, asset)
  {
    KeySpacesDisjoint(account, asset, row.vaultKey, IntentName(intent), "", "", "");
  }

  /** What is promised fits the device: the reported size is the rendered size, and it decodes within budget. */
  lemma ReportedSizeFitsBudget(setup: Setup, row: Asset, renditions: map<Intent, Rendition>, intent: Intent,
                               device: Device)
    requires ImageIntent(intent)
    requires ResolveNonOriginal(setup, row, renditions, intent, device).Deliver?
    requires ResolveNonOriginal(setup, row, renditions, intent, device).dims.Some?
    ensures 4 * Pixels(ResolveNonOriginal(setup, row, renditions, intent, device).dims.value) <= BudgetBytes(device)
  {
    var (w, h) := if row.kind.Image? then (row.width, row.height)
                  else (WidthOf(renditions[Poster]), HeightOf(renditions[Poster]));
    DecodesWithinBudget(intent, device, true, w.value, h.value);
  }
}
