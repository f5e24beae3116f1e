/** The byte edge over time: what revocation, expiry and deletion still let through, and for how long. */
module Delivery {
  import opened Contract
  import opened Records
  import opened Keys
  import opened Verdicts
  import opened Resolution
  import opened UrlPath
  import opened AssetStore
  import Decimal
  import ImagePath
  import JobQueue
  import MediaSpec

  // ---- configuration --------------------------------------------------------

  const SECOND := 1_000_000_000
  const DEFAULT_URL_TTL := 90 * SECOND
  const URL_TTL_CAP := 120 * SECOND
  const EXPORT_MAX_TTL := 30 * 24 * 3600 * SECOND

  datatype Conf = Conf(setup: Setup, cacheTtl: int, urlTtl: int)

  function ClampUrlTtl(ttl: int): int {
    var chosen := if ttl <= 0 then DEFAULT_URL_TTL else ttl;
    if chosen > URL_TTL_CAP then URL_TTL_CAP else chosen
  }

  predicate Sane(conf: Conf) {
    conf.cacheTtl > 0 && 0 < conf.urlTtl <= URL_TTL_CAP
  }

  /** However it is configured a granted URL lives more than no time and at most two minutes; a value already in that
      range is kept. */
  lemma UrlTtlIsCapped(ttl: int)
    ensures 0 < ClampUrlTtl(ttl) <= URL_TTL_CAP
    ensures ClampUrlTtl(ttl) == ttl <==> 0 < ttl <= URL_TTL_CAP
    ensures ttl <= 0 ==> ClampUrlTtl(ttl) == 90_000_000_000
    ensures ttl > 120_000_000_000 ==> ClampUrlTtl(ttl) == 120_000_000_000
    ensures ClampUrlTtl(ClampUrlTtl(ttl)) == ClampUrlTtl(ttl)
    ensures forall setup, cacheTtl | cacheTtl > 0 :: Sane(Conf(setup, cacheTtl, ClampUrlTtl(ttl)))
  {
  }

  // ---- what has been handed out ----------------------------------------------

  /** A signature that exists: the key, intent, capability and expiry second it covers; when and for what it was made.
      Keys are printed into the URL as they stand, and those of the service are plain. */
  datatype Mint = Mint(key: string, intent: string, cap: Capability, exp: int, at: int, asset: Id)

  datatype GrantedImage = GrantedImage(grant: Id, asset: Id, preset: MediaSpec.Preset, key: string, exp: int, at: int)

  /** A redirect presigns the key; the asset is the one the edge took the key to name. */
  datatype Event =
    | Redirect(cap: Capability, asset: Id, key: string, at: int)
    | ImageLoad(grant: Id, asset: Id, key: string, at: int)

  /** `deletions` is history: when each asset was first deleted. `born` tells whose every asset id ever used
      was. */
  datatype System = System(
    now: int, db: Db, born: map<Id, Id>, deletions: map<Id, int>,
    minted: set<Mint>, images: set<GrantedImage>, served: seq<Event>)

  const DOWNLOAD_PATH := "/v1/download/"

  function MintMessage(m: Mint): string {
    MacMessage(DOWNLOAD_PATH + m.key, m.intent, SigContext(m.cap), Decimal.FormatInt(m.exp))
  }

  /** A request at the download edge, its parts decoded and otherwise arbitrary; empty strings are absent parameters.
      The edge prints the key into a URL again and verifies what it reads from that: `exp` is the expiry it finds
      there, empty when there is none to read. */
  datatype Fetch = Fetch(key: string, intent: string, grant: string, exportId: string, exp: string)

  function FetchMessage(path: string, q: Fetch, cap: Capability): string {
    MacMessage(DOWNLOAD_PATH + path, q.intent, SigContext(cap), q.exp)
  }

  /** A signature verifies only if it was minted over this very message, and its second has not passed. */
  predicate Verified(s: System, q: Fetch, cap: Capability) {
    var path, exp := Named(q.key), Decimal.ParseInt(q.exp);
    && path.Some? && exp.Some? && s.now <= exp.value * SECOND
    && exists m :: m in s.minted && MintMessage(m) == FetchMessage(path.value, q, cap)
  }

  predicate Servable(db: Db, account: Id, a: Id) {
    Owns(db, account, a) && db.t.assets[a].deletedAt.None?
  }

  /** The download edge: what a request is let through as, and for which asset. */
  function Admitted(conf: Conf, s: System, q: Fetch, v: Verdict): Option<(Capability, Id)> {
    if !conf.setup.downloadSigner || q.key == "" || q.intent == "" then None
    else if q.exportId != "" then
      if q.intent != IntentName(Original) || q.grant != "" || !Verified(s, q, ExportUnder(q.exportId)) then None
      else
        match VaultKeyParts(q.key)
        case None => None
        case Some((account, a)) =>
          var verdict := VerdictAt(s.db.exports, Request(q.exportId, a), s.now);
          if !Live(verdict) || verdict.account != account || !Servable(s.db, verdict.account, a) then None
          else Some((ExportUnder(q.exportId), a))
    else if q.intent == IntentName(Original) then
      if q.grant != "" || !Verified(s, q, OwnerOriginal) then None
      else
        match VaultKeyParts(q.key)
        case None => None
        case Some((account, a)) => if Servable(s.db, account, a) then Some((OwnerOriginal, a)) else None
    else if q.grant == "" || !Verified(s, q, GrantedUnder(q.grant)) then None
    else
      var a := AssetIdFromRenditionKey(q.key);
      if a == "" || !Live(v) then None else Some((GrantedUnder(q.grant), a))
  }

  // ---- steps --------------------------------------------------------------------

  datatype Step =
    | Wait(d: nat)
    | AddAsset(asset: Id, row: Asset)
    | DeleteAsset(account: Id, asset: Id)
    | PurgeAsset(asset: Id)
    | SetRendition(asset: Id, intent: Intent, r: Rendition)
    | IssueGrant(id: Id, account: Id, assets: seq<Id>, expires: int)
    | RevokeGrant(id: Id)
    | IssueExport(id: Id, account: Id, assets: seq<Id>, expires: int)
    | ReadExport(account: Id, id: Id)
    | RevokeExport(id: Id)
    | ResolveOriginal(account: Id, asset: Id)
    | ResolveGranted(grant: Id, asset: Id, want: Intent, device: Device, v: Verdict)
    | Download(q: Fetch, v: Verdict, presigned: bool)
    | LoadImage(image: GrantedImage)

  /** Requests are one step, so what the cache tells one that starts now is what the store said within the last ttl
      (DeliveryBounds.CacheKeepsItsWord). */
  ghost predicate CacheMaySay(conf: Conf, s: System, r: Request, v: Verdict) {
    AnsweredWithin(s.db.grants, r, v, s.now - conf.cacheTtl, s.now + 1)
  }

  /** An image host takes a granted URL on its own grammar: signature aside, while its expiry has not passed. */
  predicate ImageHostTakes(conf: Conf, s: System, u: GrantedImage) {
    var path := ImagePath.ProcessingPath(MediaSpec.PresetName(u.preset), Source(conf.setup, u.key), Some(u.exp));
    ImagePath.PathError(ImagePath.GRANTED_HOST, path, s.now / SECOND).None?
  }

  ghost predicate Enabled(conf: Conf, s: System, step: Step) {
    match step
    case Wait(_) => true
    case AddAsset(a, row) =>
      && a !in s.born && Segment(a) && Plain(a) && Plain(row.account)
      && row.vaultKey == VaultKey(row.account, a) && row.deletedAt.None?
    case DeleteAsset(account, a) => Owns(s.db, account, a)
    case PurgeAsset(_) => true
    case SetRendition(_, _, _) => true
    case IssueGrant(id, account, assets, _) =>
      && id !in s.db.grants && id !in s.db.exports && id !in {"", OWNER_NAME} && NUL !in id
      && !AnyRefused(s.db, account, assets)
    case RevokeGrant(id) => id in s.db.grants
    case IssueExport(id, account, assets, expires) =>
      && conf.setup.downloadSigner && id !in s.db.exports && id !in s.db.grants && id != "" && NUL !in id
      && s.now < expires <= s.now + EXPORT_MAX_TTL
      && !AnyRefused(s.db, account, assets) && LiveIds(s.db, account, assets) != []
    case ReadExport(account, id) => GetShare(s.db.exports, account, id).Some?
    case RevokeExport(id) => id in s.db.exports
    case ResolveOriginal(account, a) => conf.setup.downloadSigner && Owns(s.db, account, a)
    case ResolveGranted(g, a, _, _, v) => CacheMaySay(conf, s, Request(g, a), v)
    case Download(q, v, _) =>
      CacheMaySay(conf, s, Request(q.grant, AssetIdFromRenditionKey(q.key)), v)
    case LoadImage(u) => u in s.images
  }

  /** The second the URL minted now expires in. */
  function UrlExpiry(conf: Conf, now: int): int {
    (now + conf.urlTtl) / SECOND
  }

  /** One download URL for each frozen asset, signed to the export's own expiry. */
  function ExportMints(id: Id, share: Share, now: int): set<Mint> {
    set a | a in share.assets ::
      Mint(VaultKey(share.account, a), IntentName(Original), ExportUnder(id), share.expires / SECOND, now, a)
  }

  function Stamp(shares: map<Id, Share>, id: Id, now: int): map<Id, Share>
    requires id in shares
  {
    shares[id := RevokedShare(shares[id], now)]
  }

  function MintGranted(conf: Conf, s: System, g: Id, a: Id, want: Intent, device: Device, v: Verdict): System {
    if want.Original? || !Live(v) || !Owns(s.db, v.account, a) then s
    else
      var row, renditions := s.db.t.assets[a], RenditionsFor(s.db.t, a);
      if !ResolveNonOriginal(conf.setup, row, renditions, want, device).Deliver? then s
      else
        match EnforceGranted(conf.setup, row, renditions, g, want, device, UrlExpiry(conf, s.now))
        case Some(ImageUrl(preset, key, Some(exp))) =>
          s.(images := s.images + {GrantedImage(g, a, preset, key, exp, s.now)})
        case Some(SignedDownload(key, intent, grant, until)) =>
          s.(minted := s.minted + {Mint(key, IntentName(intent), GrantedUnder(grant), until, s.now, a)})
        case _ => s
  }

  function Added(s: System, a: Id, row: Asset): System {
    var up := Upload(row.account, row.vaultKey, "", false, None, s.now, Some(s.now), None);
    var t := s.db.t.(assets := s.db.t.assets[a := row]);
    s.(db := s.db.(t := t, uploads := s.db.uploads[a := up]), born := s.born[a := row.account])
  }

  ghost function Effect(conf: Conf, s: System, step: Step): System
    requires Enabled(conf, s, step)
  {
    match step
    case Wait(_) => s
    case AddAsset(a, row) => Added(s, a, row)
    case DeleteAsset(account, a) =>
      s.(db := MarkedDeleted(s.db, account, a, s.now).value,
         deletions := if a in s.deletions then s.deletions else s.deletions[a := s.now])
    case PurgeAsset(a) => s.(db := s.db.(t := JobQueue.Purged(s.db.t, a)))
    case SetRendition(a, i, r) => s.(db := s.db.(t := s.db.t.(renditions := s.db.t.renditions[(a, i) := r])))
    case IssueGrant(id, account, assets, expires) =>
      s.(db := s.db.(grants := s.db.grants[id := Share(account, assets, s.now, expires, None)]))
    case RevokeGrant(id) => s.(db := s.db.(grants := Stamp(s.db.grants, id, s.now)))
    case IssueExport(id, account, assets, expires) =>
      var share := Share(account, LiveIds(s.db, account, assets), s.now, expires, None);
      s.(db := s.db.(exports := s.db.exports[id := share]), minted := s.minted + ExportMints(id, share, s.now))
    case ReadExport(account, id) =>
      var share := s.db.exports[id];
      if conf.setup.downloadSigner && share.revokedAt.None? && s.now < share.expires
      then s.(minted := s.minted + ExportMints(id, share, s.now)) else s
    case RevokeExport(id) => s.(db := s.db.(exports := Stamp(s.db.exports, id, s.now)))
    case ResolveOriginal(account, a) =>
      var row := s.db.t.assets[a];
      if row.deletedAt.Some? then s
      else
        var exp := UrlExpiry(conf, s.now);
        s.(minted := s.minted + {Mint(row.vaultKey, IntentName(Original), OwnerOriginal, exp, s.now, a)})
    case ResolveGranted(g, a, want, device, v) => MintGranted(conf, s, g, a, want, device, v)
    case Download(q, v, presigned) =>
      var pass := Admitted(conf, s, q, v);
      if pass.None? || !presigned then s
      else s.(served := s.served + [Redirect(pass.value.0, pass.value.1, q.key, s.now)])
    case LoadImage(u) =>
      if ImageHostTakes(conf, s, u) then s.(served := s.served + [ImageLoad(u.grant, u.asset, u.key, s.now)]) else s
  }

  /** Each step takes an instant of its own. */
  ghost function Apply(conf: Conf, s: System, step: Step): System
    requires Enabled(conf, s, step)
  {
    Effect(conf, s, step).(now := s.now + 1 + if step.Wait? then step.d else 0)
  }

  /** The clock is past the first second of 1970, where an expiry of zero would read as none. */
  predicate Init(s: System) {
    && s.now >= SECOND && s.db.t.assets == map[] && s.db.uploads == map[]
    && s.db.grants == map[] && s.db.exports == map[]
    && s.born == map[] && s.deletions == map[] && s.minted == {} && s.images == {} && s.served == []
  }

  ghost predicate Legal(conf: Conf, s: System, steps: seq<Step>)
    decreases |steps|, 0
  {
    steps == [] ||
    (Legal(conf, s, steps[..|steps| - 1]) && Enabled(conf, After(conf, s, steps[..|steps| - 1]), steps[|steps| - 1]))
  }

  ghost function After(conf: Conf, s: System, steps: seq<Step>): System
    requires Legal(conf, s, steps)
    decreases |steps|, 1
  {
    if steps == [] then s
    else Apply(conf, After(conf, s, steps[..|steps| - 1]), steps[|steps| - 1])
  }
}
