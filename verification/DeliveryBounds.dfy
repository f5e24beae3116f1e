/** The time bounds of delivery, composed: cache window, URL lifetime, revocation, expiry and deletion. */
module DeliveryBounds {
  import opened Contract
  import opened Records
  import opened Keys
  import opened Verdicts
  import opened Resolution
  import opened AssetStore
  import opened Delivery
  import opened UrlPath
  import Decimal
  import GrantCache
  import ImagePath
  import MediaSpec
  import Text

  // ---- the invariant --------------------------------------------------------

  /** The capability was neither revoked nor expired up to and including this instant. */
  predicate AliveThrough(shares: map<Id, Share>, id: Id, t: int) {
    id in shares && t < shares[id].expires && (shares[id].revokedAt.Some? ==> t < shares[id].revokedAt.value)
  }

  predicate NotDeletedBy(s: System, a: Id, t: int) {
    a in s.deletions ==> t < s.deletions[a]
  }

  predicate ShareOk(share: Share, now: int) {
    share.created < now && (share.revokedAt.Some? ==> share.revokedAt.value < now)
  }

  /** A grant's id is no other capability's name. */
  predicate GrantIdOk(s: System, g: Id) {
    NUL !in g && g !in {"", OWNER_NAME} && g !in s.db.exports
  }

  /** What is frozen into a grant or an export was its account's own. */
  predicate FrozenOk(s: System, share: Share) {
    forall a | a in share.assets :: a in s.born && s.born[a] == share.account
  }

  /** An issued export never outlives the cap, and its ids can be signed. */
  predicate ExportOk(x: Id, share: Share) {
    && share.expires <= share.created + EXPORT_MAX_TTL
    && NUL !in x && Plain(share.account) && forall a | a in share.assets :: Plain(a)
  }

  predicate AssetOk(s: System, a: Id) {
    a in s.db.t.assets ==>
      var row := s.db.t.assets[a];
      && a in s.born && s.born[a] == row.account && Segment(a) && Plain(a) && Plain(row.account)
      && row.vaultKey == VaultKey(row.account, a)
      && (row.deletedAt.Some? <==> a in s.deletions)
  }

  predicate UploadOk(s: System, u: Id) {
    u in s.db.uploads ==> u in s.born && s.born[u] == s.db.uploads[u].account
  }

  ghost predicate MintOk(conf: Conf, s: System, m: Mint) {
    && m.at < s.now && Plain(m.key) && Bare(m.intent) && NulFree(m.cap)
    && (m.cap.ExportUnder? ==> m.cap.exportId in s.db.exports)
    && (m.cap.GrantedUnder? ==>
          && m.cap.grantId in s.db.grants && m.asset in s.db.grants[m.cap.grantId].assets && '/' !in m.asset
          && RenditionNamed(s.db.grants[m.cap.grantId].account, m.asset, m.intent, m.key)
          && m.exp * SECOND <= m.at + conf.urlTtl && NotDeletedBy(s, m.asset, m.at))
  }

  /** The key of a rendition, never of an original. */
  ghost predicate RenditionNamed(account: Id, a: Id, name: string, key: string) {
    key == RenditionKey(VaultKey(account, a), name) && exists i: Intent :: !i.Original? && name == IntentName(i)
  }

  /** What image hosts are sent to fetch: an image's original, or a video's poster. */
  predicate ImageSource(account: Id, a: Id, key: string) {
    key in {VaultKey(account, a), RenditionKey(VaultKey(account, a), "poster")}
  }

  predicate ImageOk(conf: Conf, s: System, u: GrantedImage) {
    && SECOND <= u.at < s.now && u.exp == UrlExpiry(conf, u.at)
    && u.grant in s.db.grants && u.asset in s.db.grants[u.grant].assets
    && ImageSource(s.db.grants[u.grant].account, u.asset, u.key)
    && AliveThrough(s.db.grants, u.grant, u.at - conf.cacheTtl) && NotDeletedBy(s, u.asset, u.at)
  }

  /** A rendition of the asset is stored under this key. */
  ghost predicate KeyOf(key: string, a: Id) {
    && '/' !in a && Plain(a)
    && exists account, intent :: Plain(account) && key == RenditionKey(VaultKey(account, a), IntentName(intent))
  }

  /** Within the clock second of `t`, or before: image hosts compare whole seconds. */
  predicate BySecondOf(at: int, t: int) {
    at / SECOND <= t / SECOND
  }

  ghost predicate EventOk(conf: Conf, s: System, e: Event) {
    && e.at < s.now
    && match e
       case Redirect(GrantedUnder(g), a, key, at) =>
         && AliveThrough(s.db.grants, g, at - conf.cacheTtl)
         && a in s.db.grants[g].assets
         && (Plain(key) ==> exists name :: RenditionNamed(s.db.grants[g].account, a, name, key))
         && forall b | KeyOf(key, b) :: b == a && NotDeletedBy(s, b, at - conf.urlTtl)
       case Redirect(OwnerOriginal, a, key, at) =>
         a in s.born && key == VaultKey(s.born[a], a) && NotDeletedBy(s, a, at)
       case Redirect(ExportUnder(x), a, key, at) =>
         && AliveThrough(s.db.exports, x, at) && NotDeletedBy(s, a, at)
         && a in s.db.exports[x].assets && key == VaultKey(s.db.exports[x].account, a)
         && at < s.db.exports[x].created + EXPORT_MAX_TTL
       case ImageLoad(g, a, key, at) =>
         && g in s.db.grants && a in s.db.grants[g].assets && ImageSource(s.db.grants[g].account, a, key)
         && BySecondOf(at, s.db.grants[g].expires + conf.cacheTtl + conf.urlTtl)
         && (s.db.grants[g].revokedAt.Some? ==>
               BySecondOf(at, s.db.grants[g].revokedAt.value + conf.cacheTtl + conf.urlTtl))
         && (a in s.deletions ==> BySecondOf(at, s.deletions[a] + conf.urlTtl))
  }

  ghost predicate RowsOk(s: System) {
    && (forall a :: AssetOk(s, a) && UploadOk(s, a))
    && forall a | a in s.deletions :: a in s.born && s.deletions[a] < s.now
  }

  ghost predicate TablesOk(s: System) {
    && s.now >= SECOND && RowsOk(s)
    && (forall g | g in s.db.grants ::
          ShareOk(s.db.grants[g], s.now) && GrantIdOk(s, g) && FrozenOk(s, s.db.grants[g]))
    && forall x | x in s.db.exports ::
         ShareOk(s.db.exports[x], s.now) && ExportOk(x, s.db.exports[x]) && FrozenOk(s, s.db.exports[x])
  }

  ghost predicate Inv(conf: Conf, s: System) {
    && TablesOk(s)
    && (forall m | m in s.minted :: MintOk(conf, s, m))
    && (forall u | u in s.images :: ImageOk(conf, s, u))
    && forall k | 0 <= k < |s.served| :: EventOk(conf, s, s.served[k])
  }

  // ---- the past is fixed ------------------------------------------------------

  ghost predicate SharesGrow(shares: map<Id, Share>, shares': map<Id, Share>, now: int) {
    forall id | id in shares ::
      && id in shares' && shares'[id] == shares[id].(revokedAt := shares'[id].revokedAt)
      && (shares'[id].revokedAt == shares[id].revokedAt || shares'[id].revokedAt == Some(now))
  }

  ghost predicate Grows(s: System, s': System) {
    && s.now < s'.now && (forall a | a in s.born :: a in s'.born && s'.born[a] == s.born[a])
    && SharesGrow(s.db.grants, s'.db.grants, s.now) && SharesGrow(s.db.exports, s'.db.exports, s.now)
    && forall a | a in s'.deletions ::
         if a in s.deletions then s'.deletions[a] == s.deletions[a] else s'.deletions[a] == s.now
  }

  lemma StepGrows(conf: Conf, s: System, step: Step)
    requires Enabled(conf, s, step)
    ensures Grows(s, Apply(conf, s, step))
  {
  }

  lemma MintStays(conf: Conf, s: System, s': System, m: Mint)
    requires Grows(s, s') && MintOk(conf, s, m)
    ensures MintOk(conf, s', m)
  {
  }

  lemma ImageStays(conf: Conf, s: System, s': System, u: GrantedImage)
    requires Sane(conf) && Grows(s, s') && ImageOk(conf, s, u)
    ensures ImageOk(conf, s', u)
  {
  }

  lemma SecondsInOrder(a: int, b: int)
    requires a <= b
    ensures BySecondOf(a, b)
  {
  }

  lemma EventStays(conf: Conf, s: System, s': System, e: Event)
    requires Sane(conf) && Grows(s, s') && EventOk(conf, s, e)
    ensures EventOk(conf, s', e)
  {
    if e.ImageLoad? {
      SecondsInOrder(e.at, s.now + conf.cacheTtl + conf.urlTtl);
      SecondsInOrder(e.at, s.now + conf.urlTtl);
    }
  }

  // ---- the cache keeps to its window ----------------------------------------------

  /** The bridge to the cache: from any state its concurrent callers can reach over these grants, what a whole call
      returns at this instant is something the edge is modelled to be told. */
  lemma CacheKeepsItsWord(conf: Conf, s: System, start: GrantCache.System, steps: seq<GrantCache.Step>,
                          r: Request, ok: bool)
    requires Sane(conf) && GrantCache.Init(start) && GrantCache.Legal(conf.cacheTtl, start, steps)
    requires
      var cache := GrantCache.After(conf.cacheTtl, start, steps);
      cache.now == s.now && cache.shares == s.db.grants && GrantCache.Returned(cache, r, ok).Some?
    ensures CacheMaySay(conf, s, r, GrantCache.Returned(GrantCache.After(conf.cacheTtl, start, steps), r, ok).value)
  {
    GrantCache.RunKeepsInv(conf.cacheTtl, start, steps);
    GrantCache.ReturnedIsRecent(conf.cacheTtl, GrantCache.After(conf.cacheTtl, start, steps), r, ok);
  }

  // ---- what a step adds ----------------------------------------------------------

  lemma LiveMeansAlive(conf: Conf, s: System, r: Request, v: Verdict)
    requires Sane(conf) && CacheMaySay(conf, s, r, v) && Live(v)
    ensures AliveThrough(s.db.grants, r.grant, s.now - conf.cacheTtl)
    ensures r.asset in s.db.grants[r.grant].assets && v.account == s.db.grants[r.grant].account
  {
  }

  lemma KeyIsPlain(account: Id, a: Id, intent: string)
    requires Plain(account) && Plain(a) && Plain(intent)
    ensures Plain(VaultKey(account, a)) && Plain(RenditionKey(VaultKey(account, a), intent))
  {
    RenditionKeyShape(account, a, intent);
  }

  lemma NewGrantedMint(conf: Conf, s: System, step: Step)
    requires Sane(conf) && TablesOk(s) && Enabled(conf, s, step) && step.ResolveGranted?
    ensures forall m | m in Apply(conf, s, step).minted && m !in s.minted :: MintOk(conf, Apply(conf, s, step), m)
  {
    var a := step.asset;
    assert AssetOk(s, a);
    if Live(step.v) {
      LiveMeansAlive(conf, s, Request(step.grant, a), step.v);
      assert GrantIdOk(s, step.grant);
      if Owns(s.db, step.v.account, a) {
        var row := s.db.t.assets[a];
        BareIsPlain(IntentName(step.want));
        KeyIsPlain(row.account, a, IntentName(step.want));
      }
    }
  }

  lemma NewGrantedImage(conf: Conf, s: System, step: Step)
    requires Sane(conf) && TablesOk(s) && Enabled(conf, s, step) && step.ResolveGranted?
    ensures forall u | u in Apply(conf, s, step).images && u !in s.images :: ImageOk(conf, Apply(conf, s, step), u)
  {
    assert AssetOk(s, step.asset);
    if Live(step.v) { LiveMeansAlive(conf, s, Request(step.grant, step.asset), step.v); }
  }

  lemma BareIsPlain(name: string)
    requires Bare(name)
    ensures Plain(name) && '/' !in name && NUL !in name
  {
  }

  lemma NewOwnerMint(conf: Conf, s: System, step: Step)
    requires Sane(conf) && TablesOk(s) && Enabled(conf, s, step) && step.ResolveOriginal?
    ensures forall m | m in Apply(conf, s, step).minted && m !in s.minted :: MintOk(conf, Apply(conf, s, step), m)
  {
    assert AssetOk(s, step.asset);
    KeyIsPlain(step.account, step.asset, "");
  }

  lemma ExportMintsOk(conf: Conf, s: System, s': System, id: Id, share: Share)
    requires s.now < s'.now && id in s'.db.exports && ExportOk(id, share)
    ensures forall m | m in ExportMints(id, share, s.now) :: MintOk(conf, s', m)
  {
    forall m | m in ExportMints(id, share, s.now) ensures MintOk(conf, s', m) {
      KeyIsPlain(share.account, m.asset, "");
    }
  }

  lemma LiveIdsAreClean(s: System, account: Id, ids: seq<Id>)
    requires TablesOk(s) && !AnyRefused(s.db, account, ids)
    ensures forall a | a in LiveIds(s.db, account, ids) :: Plain(a) && Plain(account)
  {
    ExportPartitions(s.db, account, ids);
    forall a | a in LiveIds(s.db, account, ids) ensures Plain(a) && Plain(account) {
      assert AssetOk(s, a);
    }
  }

  lemma NewMints(conf: Conf, s: System, step: Step)
    requires Sane(conf) && TablesOk(s) && Enabled(conf, s, step)
    ensures forall m | m in Apply(conf, s, step).minted && m !in s.minted :: MintOk(conf, Apply(conf, s, step), m)
  {
    var s' := Apply(conf, s, step);
    match step
    case ResolveGranted(_, _, _, _, _) => NewGrantedMint(conf, s, step);
    case ResolveOriginal(_, _) => NewOwnerMint(conf, s, step);
    case IssueExport(id, account, assets, expires) =>
      LiveIdsAreClean(s, account, assets);
      assert LiveIds(s.db, account, assets)[0] in LiveIds(s.db, account, assets);
      ExportMintsOk(conf, s, s', id, Share(account, LiveIds(s.db, account, assets), s.now, expires, None));
    case ReadExport(_, id) => ExportMintsOk(conf, s, s', id, s.db.exports[id]);
    case _ =>
  }

  // ---- what the download edge lets through ------------------------------------------

  lemma SameTail(p: string, x: string, y: string)
    requires p + x == p + y
    ensures x == y
  {
    assert x == (p + x)[|p|..] == y;
  }

  lemma PathIsClean(key: string)
    requires Plain(key)
    ensures NUL !in DOWNLOAD_PATH + key
  {
  }

  lemma ExpIsClean(exp: string)
    requires Decimal.ParseInt(exp).Some?
    ensures NUL !in exp
  {
    Decimal.ParsedChars(exp);
  }

  /** The signature covers, field for field, the key, the intent and the capability of the request, and is in time. */
  predicate SignedAs(s: System, m: Mint, q: Fetch, cap: Capability) {
    m in s.minted && m.key == q.key && m.intent == q.intent && m.cap == cap && s.now <= m.exp * SECOND
  }

  lemma SameMessage(conf: Conf, s: System, m: Mint, q: Fetch, cap: Capability)
    requires MintOk(conf, s, m) && m in s.minted && Plain(q.key) && NUL !in q.intent && NulFree(cap)
    requires Decimal.ParseInt(q.exp).Some? && s.now <= Decimal.ParseInt(q.exp).value * SECOND
    requires MintMessage(m) == FetchMessage(q.key, q, cap)
    ensures SignedAs(s, m, q, cap)
  {
    BareIsPlain(m.intent);
    ExpIsClean(q.exp);
    Decimal.FormatIntChars(m.exp);
    PathIsClean(m.key);
    PathIsClean(q.key);
    MacMessageInjective(DOWNLOAD_PATH + m.key, m.intent, m.cap, Decimal.FormatInt(m.exp),
                        DOWNLOAD_PATH + q.key, q.intent, cap, q.exp);
    SameTail(DOWNLOAD_PATH, m.key, q.key);
    Decimal.ParseFormat(m.exp);
  }

  /** A request that verifies is, field for field, one that was signed, exactly when its key is plain and neither its
      intent nor its capability holds a NUL. */
  lemma VerifiedWasMinted(conf: Conf, s: System, q: Fetch, cap: Capability)
    requires Inv(conf, s) && Verified(s, q, cap)
    ensures (exists m :: SignedAs(s, m, q, cap)) <==> Plain(q.key) && NUL !in q.intent && NulFree(cap)
  {
    if m :| SignedAs(s, m, q, cap) {
      assert MintOk(conf, s, m);
      BareIsPlain(m.intent);
    }
    if Plain(q.key) && NUL !in q.intent && NulFree(cap) {
      PlainIsItself(q.key);
      var m :| m in s.minted && MintMessage(m) == FetchMessage(q.key, q, cap);
      SameMessage(conf, s, m, q, cap);
    }
  }

  /** And a NUL in the intent does occur: an owner's signature verifies for a request nobody signed. No grant has the
      name that request must give, so it is let through nowhere. */
  lemma NulShiftsFields(conf: Conf, s: System, m: Mint, q: Fetch, v: Verdict)
    requires Sane(conf) && Inv(conf, s) && m in s.minted && m.cap.OwnerOriginal? && s.now <= m.exp * SECOND
    requires Decimal.INT64_MIN <= m.exp <= Decimal.INT64_MAX
    requires q == Fetch(m.key, m.intent + "\0", OWNER_NAME, "", Decimal.FormatInt(m.exp))
    requires CacheMaySay(conf, s, Request(q.grant, AssetIdFromRenditionKey(q.key)), v)
    ensures Verified(s, q, GrantedUnder(q.grant)) && !exists m' :: SignedAs(s, m', q, GrantedUnder(q.grant))
    ensures Admitted(conf, s, q, v).None?
  {
    assert MintOk(conf, s, m);
    PlainIsItself(m.key);
    Decimal.ParseFormat(m.exp);
    var path, exp := DOWNLOAD_PATH + m.key, q.exp;
    assert MacMessage(path, m.intent, OWNER_SENTINEL, exp) == MacMessage(path, m.intent + "\0", OWNER_NAME, exp);
    VerifiedWasMinted(conf, s, q, GrantedUnder(q.grant));
    assert q.intent[|m.intent|] == NUL;
    BareIsPlain(IntentName(Original));
    if Live(v) { LiveMeansAlive(conf, s, Request(q.grant, AssetIdFromRenditionKey(q.key)), v); }
  }

  /** The signature was made for this capability and intent, for the path the key names, and is in time. */
  predicate Vouches(s: System, m: Mint, q: Fetch, cap: Capability) {
    m in s.minted && Named(q.key) == Some(m.key) && m.intent == q.intent && m.cap == cap && s.now <= m.exp * SECOND
  }

  /** A NUL can sit anywhere in the request: an existing grant's id still makes the signature one for that grant. */
  lemma GrantSignature(conf: Conf, s: System, q: Fetch) returns (m: Mint)
    requires Inv(conf, s) && Verified(s, q, GrantedUnder(q.grant)) && q.grant in s.db.grants
    ensures Vouches(s, m, q, GrantedUnder(q.grant))
  {
    var path := Named(q.key).value;
    m :| m in s.minted && MintMessage(m) == FetchMessage(path, q, GrantedUnder(q.grant));
    assert MintOk(conf, s, m);
    BareIsPlain(m.intent);
    PathIsClean(m.key);
    ExpIsClean(q.exp);
    Decimal.FormatIntChars(m.exp);
    UnframedMessage(DOWNLOAD_PATH + m.key, m.intent, m.cap, Decimal.FormatInt(m.exp),
                    DOWNLOAD_PATH + path, q.intent, q.grant, q.exp);
    SameTail(DOWNLOAD_PATH, path, m.key);
    Decimal.ParseFormat(m.exp);
  }

  /** An original's key was read whole, so its signature was made for just that. */
  lemma OriginalSignature(conf: Conf, s: System, q: Fetch, cap: Capability) returns (m: Mint)
    requires Inv(conf, s) && Verified(s, q, cap) && NulFree(cap) && q.intent == IntentName(Original)
    requires VaultKeyParts(q.key).Some?
    requires var (account, a) := VaultKeyParts(q.key).value; Owns(s.db, account, a)
    ensures Vouches(s, m, q, cap) && m.key == q.key
  {
    var (account, a) := VaultKeyParts(q.key).value;
    VaultKeyPartsExact(q.key, account, a);
    assert AssetOk(s, a);
    KeyIsPlain(account, a, "");
    PlainIsItself(q.key);
    BareIsPlain(q.intent);
    VerifiedWasMinted(conf, s, q, cap);
    m :| SignedAs(s, m, q, cap);
  }

  /** Whatever the edge lets through was signed for that very capability and intent and for the path the key names:
      one kind of signature never passes for another there, whatever characters the request holds. */
  lemma LetThroughWasSigned(conf: Conf, s: System, q: Fetch, v: Verdict) returns (m: Mint)
    requires Sane(conf) && Inv(conf, s) && CacheMaySay(conf, s, Request(q.grant, AssetIdFromRenditionKey(q.key)), v)
    requires Admitted(conf, s, q, v).Some?
    ensures Vouches(s, m, q, Admitted(conf, s, q, v).value.0)
    ensures Plain(q.key) ==> m.key == q.key
  {
    var cap := Admitted(conf, s, q, v).value.0;
    PlainIsItself(q.key);
    match cap
    case GrantedUnder(_) =>
      LiveMeansAlive(conf, s, Request(q.grant, AssetIdFromRenditionKey(q.key)), v);
      m := GrantSignature(conf, s, q);
    case ExportUnder(x) =>
      assert ExportOk(x, s.db.exports[x]);
      m := OriginalSignature(conf, s, q, cap);
    case OwnerOriginal => m := OriginalSignature(conf, s, q, cap);
  }

  /** The asset id the edge reads from a rendition key is the right one, or none: whatever the account looks like. */
  lemma AssetIdOrNothing(account: string, a: string, intent: string)
    requires '/' !in a && '/' !in intent
    ensures AssetIdFromRenditionKey(RenditionKey(VaultKey(account, a), intent)) in {a, ""}
  {
    RenditionKeyShape(account, a, intent);
    var tail := a + "/" + intent;
    var key := "delivery" + ['/'] + (account + ['/'] + tail);
    assert key == "delivery" + "/" + account + "/" + a + "/" + intent;
    Text.SplitHead("delivery", '/', account + ['/'] + tail);
    Text.SplitApart(account, '/', tail);
    Text.SplitHead(a, '/', intent);
    Text.SplitFree(intent, '/');
    assert tail == a + ['/'] + intent;
    var parts := ["delivery"] + (Text.Split(account, '/') + ([a] + [intent]));
    assert Text.Split(key, '/') == parts;
    if |parts| == 4 {
      assert parts[2] == a;
    }
  }

  /** A rendition's key is plain, and the edge reads the asset from it. */
  lemma KeyTellsAsset(key: string, a: Id)
    requires KeyOf(key, a)
    ensures Plain(key) && AssetIdFromRenditionKey(key) in {a, ""}
  {
    var account, intent :| Plain(account) && key == RenditionKey(VaultKey(account, a), IntentName(intent));
    BareIsPlain(IntentName(intent));
    KeyIsPlain(account, a, IntentName(intent));
    AssetIdOrNothing(account, a, IntentName(intent));
  }

  lemma NewGrantedRedirect(conf: Conf, s: System, q: Fetch, v: Verdict)
    requires Sane(conf) && Inv(conf, s)
    requires CacheMaySay(conf, s, Request(q.grant, AssetIdFromRenditionKey(q.key)), v)
    requires Admitted(conf, s, q, v).Some? && Admitted(conf, s, q, v).value.0.GrantedUnder?
    ensures
      var (cap, a) := Admitted(conf, s, q, v).value;
      && AliveThrough(s.db.grants, cap.grantId, s.now - conf.cacheTtl)
      && a in s.db.grants[cap.grantId].assets
      && (Plain(q.key) ==> exists name :: RenditionNamed(s.db.grants[cap.grantId].account, a, name, q.key))
      && forall b | KeyOf(q.key, b) :: b == a && NotDeletedBy(s, b, s.now - conf.urlTtl)
  {
    var a := AssetIdFromRenditionKey(q.key);
    LiveMeansAlive(conf, s, Request(q.grant, a), v);
    var m := LetThroughWasSigned(conf, s, q, v);
    assert MintOk(conf, s, m);
    BareIsPlain(m.intent);
    AssetIdOrNothing(s.db.grants[q.grant].account, m.asset, m.intent);
    assert Plain(q.key) ==> RenditionNamed(s.db.grants[q.grant].account, a, m.intent, q.key);
    forall b | KeyOf(q.key, b) ensures b == a && NotDeletedBy(s, b, s.now - conf.urlTtl) {
      KeyTellsAsset(q.key, b);
    }
  }

  lemma NewOwnedRedirect(conf: Conf, s: System, q: Fetch, v: Verdict)
    requires Inv(conf, s)
    requires Admitted(conf, s, q, v).Some? && !Admitted(conf, s, q, v).value.0.GrantedUnder?
    ensures
      var (cap, a) := Admitted(conf, s, q, v).value;
      && a in s.born && q.key == VaultKey(s.born[a], a) && a !in s.deletions
      && (cap.ExportUnder? ==>
            && AliveThrough(s.db.exports, cap.exportId, s.now)
            && a in s.db.exports[cap.exportId].assets && q.key == VaultKey(s.db.exports[cap.exportId].account, a))
  {
    var a := Admitted(conf, s, q, v).value.1;
    VaultKeyPartsExact(q.key, VaultKeyParts(q.key).value.0, a);
    assert AssetOk(s, a);
  }

  lemma NewImageLoad(conf: Conf, s: System, u: GrantedImage)
    requires Sane(conf) && TablesOk(s) && ImageOk(conf, s, u) && ImageHostTakes(conf, s, u)
    ensures BySecondOf(s.now, u.at + conf.urlTtl)
  {
    ImagePath.GrantedFormOnGrantedHost(MediaSpec.PresetName(u.preset), u.exp, Source(conf.setup, u.key),
                                       s.now / SECOND);
  }

  lemma LoadIsBounded(conf: Conf, s: System, u: GrantedImage, later: int)
    requires Sane(conf) && ImageOk(conf, s, u) && BySecondOf(s.now, u.at + conf.urlTtl) && s.now < later
    ensures EventOk(conf, s.(now := later), ImageLoad(u.grant, u.asset, u.key, s.now))
  {
    var row := s.db.grants[u.grant];
    SecondsInOrder(u.at + conf.urlTtl, row.expires + conf.cacheTtl + conf.urlTtl);
    if row.revokedAt.Some? {
      SecondsInOrder(u.at + conf.urlTtl, row.revokedAt.value + conf.cacheTtl + conf.urlTtl);
    }
    if u.asset in s.deletions {
      SecondsInOrder(u.at + conf.urlTtl, s.deletions[u.asset] + conf.urlTtl);
    }
  }

  lemma DownloadIsBounded(conf: Conf, s: System, q: Fetch, v: Verdict, later: int)
    requires Sane(conf) && Inv(conf, s) && s.now < later
    requires CacheMaySay(conf, s, Request(q.grant, AssetIdFromRenditionKey(q.key)), v)
    requires Admitted(conf, s, q, v).Some?
    ensures
      var (cap, a) := Admitted(conf, s, q, v).value;
      EventOk(conf, s.(now := later), Redirect(cap, a, q.key, s.now))
  {
    match Admitted(conf, s, q, v).value.0
    case GrantedUnder(_) => NewGrantedRedirect(conf, s, q, v);
    case ExportUnder(x) =>
      NewOwnedRedirect(conf, s, q, v);
      assert ExportOk(x, s.db.exports[x]);
    case OwnerOriginal => NewOwnedRedirect(conf, s, q, v);
  }

  lemma SameForEvents(conf: Conf, s: System, s': System, e: Event)
    requires s'.now == s.now && s'.db.grants == s.db.grants && s'.db.exports == s.db.exports
    requires s'.born == s.born && s'.deletions == s.deletions && EventOk(conf, s, e)
    ensures EventOk(conf, s', e)
  {
  }

  /** What is served is a download or an image, and serving it changes nothing else. */
  lemma ServedStep(conf: Conf, s: System, step: Step)
    requires Enabled(conf, s, step) && |Apply(conf, s, step).served| > |s.served|
    ensures
      var s' := Apply(conf, s, step);
      && s' == s.(now := s.now + 1, served := s'.served)
      && match step
         case LoadImage(u) =>
           ImageHostTakes(conf, s, u) && s'.served == s.served + [ImageLoad(u.grant, u.asset, u.key, s.now)]
         case Download(q, v, _) =>
           && Admitted(conf, s, q, v).Some?
           && s'.served ==
              s.served + [Redirect(Admitted(conf, s, q, v).value.0, Admitted(conf, s, q, v).value.1, q.key, s.now)]
         case _ => false
  {
  }

  lemma NewEvent(conf: Conf, s: System, step: Step)
    requires Sane(conf) && Inv(conf, s) && Enabled(conf, s, step)
    requires |Apply(conf, s, step).served| > |s.served|
    ensures EventOk(conf, Apply(conf, s, step), Apply(conf, s, step).served[|s.served|])
  {
    var s' := Apply(conf, s, step);
    ServedStep(conf, s, step);
    if step.LoadImage? {
      NewImageLoad(conf, s, step.image);
      LoadIsBounded(conf, s, step.image, s.now + 1);
    } else {
      DownloadIsBounded(conf, s, step.q, step.v, s.now + 1);
    }
    SameForEvents(conf, s.(now := s.now + 1), s', s'.served[|s.served|]);
  }

  // ---- every step keeps the invariant ----------------------------------------------------

  lemma AssetStays(conf: Conf, s: System, step: Step, a: Id)
    requires RowsOk(s) && Enabled(conf, s, step)
    ensures AssetOk(Apply(conf, s, step), a)
  {
    assert AssetOk(s, a);
  }

  lemma UploadStays(conf: Conf, s: System, step: Step, u: Id)
    requires RowsOk(s) && Enabled(conf, s, step)
    ensures UploadOk(Apply(conf, s, step), u)
  {
    assert UploadOk(s, u);
  }

  lemma DeletionStays(conf: Conf, s: System, step: Step, a: Id)
    requires RowsOk(s) && Enabled(conf, s, step) && a in Apply(conf, s, step).deletions
    ensures a in Apply(conf, s, step).born && Apply(conf, s, step).deletions[a] < Apply(conf, s, step).now
  {
    assert AssetOk(s, a);
  }

  lemma RowsStay(conf: Conf, s: System, step: Step)
    requires RowsOk(s) && Enabled(conf, s, step)
    ensures RowsOk(Apply(conf, s, step))
  {
    var s' := Apply(conf, s, step);
    forall a ensures AssetOk(s', a) && UploadOk(s', a) {
      AssetStays(conf, s, step, a);
      UploadStays(conf, s, step, a);
    }
    forall a | a in s'.deletions ensures a in s'.born && s'.deletions[a] < s'.now {
      DeletionStays(conf, s, step, a);
    }
  }

  /** An id that is not refused is, or was, the account's own. */
  lemma RequestedIsOwn(s: System, account: Id, ids: seq<Id>)
    requires RowsOk(s) && !AnyRefused(s.db, account, ids)
    ensures forall a | a in ids :: a in s.born && s.born[a] == account
  {
    forall a | a in ids ensures a in s.born && s.born[a] == account {
      assert AssetOk(s, a) && UploadOk(s, a);
      assert Classify(s.db, account, a) != RefusedId;
    }
  }

  lemma FrozenStays(s: System, s': System, share: Share)
    requires Grows(s, s') && FrozenOk(s, share)
    ensures FrozenOk(s', share)
  {
  }

  lemma GrantStays(conf: Conf, s: System, step: Step, g: Id)
    requires TablesOk(s) && Enabled(conf, s, step) && g in Apply(conf, s, step).db.grants
    ensures
      var s' := Apply(conf, s, step);
      ShareOk(s'.db.grants[g], s'.now) && GrantIdOk(s', g) && FrozenOk(s', s'.db.grants[g])
  {
    var s' := Apply(conf, s, step);
    StepGrows(conf, s, step);
    if g in s.db.grants {
      assert ShareOk(s.db.grants[g], s.now) && GrantIdOk(s, g);
      FrozenStays(s, s', s.db.grants[g]);
    } else {
      RequestedIsOwn(s, step.account, step.assets);
    }
  }

  lemma ExportStays(conf: Conf, s: System, step: Step, x: Id)
    requires TablesOk(s) && Enabled(conf, s, step) && x in s.db.exports
    ensures
      var s' := Apply(conf, s, step);
      && x in s'.db.exports && ShareOk(s'.db.exports[x], s'.now) && ExportOk(x, s'.db.exports[x])
      && FrozenOk(s', s'.db.exports[x])
  {
    StepGrows(conf, s, step);
    assert ShareOk(s.db.exports[x], s.now) && ExportOk(x, s.db.exports[x]);
    FrozenStays(s, Apply(conf, s, step), s.db.exports[x]);
  }

  lemma TablesStay(conf: Conf, s: System, step: Step)
    requires TablesOk(s) && Enabled(conf, s, step)
    ensures TablesOk(Apply(conf, s, step))
  {
    var s' := Apply(conf, s, step);
    RowsStay(conf, s, step);
    forall g | g in s'.db.grants
      ensures ShareOk(s'.db.grants[g], s'.now) && GrantIdOk(s', g) && FrozenOk(s', s'.db.grants[g])
    {
      GrantStays(conf, s, step, g);
    }
    forall x | x in s'.db.exports
      ensures ShareOk(s'.db.exports[x], s'.now) && ExportOk(x, s'.db.exports[x]) && FrozenOk(s', s'.db.exports[x])
    {
      if x in s.db.exports { ExportStays(conf, s, step, x); } else { NewExport(conf, s, step, x); }
    }
  }

  lemma NewExport(conf: Conf, s: System, step: Step, x: Id)
    requires TablesOk(s) && Enabled(conf, s, step) && x in Apply(conf, s, step).db.exports && x !in s.db.exports
    ensures
      var s' := Apply(conf, s, step);
      ShareOk(s'.db.exports[x], s'.now) && ExportOk(x, s'.db.exports[x]) && FrozenOk(s', s'.db.exports[x])
  {
    LiveIdsAreClean(s, step.account, step.assets);
    RequestedIsOwn(s, step.account, step.assets);
    ExportPartitions(s.db, step.account, step.assets);
    assert LiveIds(s.db, step.account, step.assets)[0] in LiveIds(s.db, step.account, step.assets);
  }

  lemma EventsStay(conf: Conf, s: System, step: Step)
    requires Sane(conf) && Inv(conf, s) && Enabled(conf, s, step)
    ensures
      var s' := Apply(conf, s, step);
      forall k | 0 <= k < |s'.served| :: EventOk(conf, s', s'.served[k])
  {
    var s' := Apply(conf, s, step);
    StepGrows(conf, s, step);
    ServedGrows(conf, s, step);
    forall k | 0 <= k < |s'.served| ensures EventOk(conf, s', s'.served[k]) {
      if k < |s.served| { EventStays(conf, s, s', s.served[k]); } else { NewEvent(conf, s, step); }
    }
  }

  lemma ServedGrows(conf: Conf, s: System, step: Step)
    requires Enabled(conf, s, step)
    ensures s.served <= Apply(conf, s, step).served && |Apply(conf, s, step).served| <= |s.served| + 1
  {
  }

  lemma StepKeepsInv(conf: Conf, s: System, step: Step)
    requires Sane(conf) && Inv(conf, s) && Enabled(conf, s, step)
    ensures Inv(conf, Apply(conf, s, step))
  {
    var s' := Apply(conf, s, step);
    StepGrows(conf, s, step);
    TablesStay(conf, s, step);
    NewMints(conf, s, step);
    EventsStay(conf, s, step);
    if step.ResolveGranted? { NewGrantedImage(conf, s, step); }
    forall m | m in s'.minted ensures MintOk(conf, s', m) {
      if m in s.minted { MintStays(conf, s, s', m); }
    }
    forall u | u in s'.images ensures ImageOk(conf, s', u) {
      if u in s.images { ImageStays(conf, s, s', u); }
    }
  }

  lemma {:induction false} RunKeepsInv(conf: Conf, s: System, steps: seq<Step>)
    requires Sane(conf) && Init(s) && Legal(conf, s, steps)
    ensures Inv(conf, After(conf, s, steps))
  {
    if steps != [] {
      RunKeepsInv(conf, s, steps[..|steps| - 1]);
      StepKeepsInv(conf, After(conf, s, steps[..|steps| - 1]), steps[|steps| - 1]);
    }
  }

  // ---- the bounds -------------------------------------------------------------------------

  /** A granted download is not redirected once a revocation or the expiry is one cache window old, and no key of an
      asset's rendition once its deletion is one URL lifetime old: two minutes at the most. */
  lemma GrantedDownloadsEnd(conf: Conf, s: System, steps: seq<Step>, k: nat, g: Id)
    requires Sane(conf) && Init(s) && Legal(conf, s, steps)
    requires k < |After(conf, s, steps).served| && After(conf, s, steps).served[k].Redirect?
    requires After(conf, s, steps).served[k].cap == GrantedUnder(g)
    ensures
      var end, e := After(conf, s, steps), After(conf, s, steps).served[k];
      && g in end.db.grants && e.at < end.db.grants[g].expires + conf.cacheTtl
      && (end.db.grants[g].revokedAt.Some? ==> e.at < end.db.grants[g].revokedAt.value + conf.cacheTtl)
      && forall a | KeyOf(e.key, a) ::
           && e.asset == a
           && (a in end.deletions ==>
                 e.at < end.deletions[a] + conf.urlTtl <= end.deletions[a] + URL_TTL_CAP)
  {
    RunKeepsInv(conf, s, steps);
    assert EventOk(conf, After(conf, s, steps), After(conf, s, steps).served[k]);
  }

  /** A grant opens its frozen set and nothing else, an export likewise: whatever is handed out under one is, by
      its key, a rendition or an original of an asset in that set, under the account that issued it and whose it
      always was. */
  lemma CapabilitiesOpenOnlyTheirSet(conf: Conf, s: System, steps: seq<Step>, k: nat)
    requires Sane(conf) && Init(s) && Legal(conf, s, steps) && k < |After(conf, s, steps).served|
    ensures
      var end := After(conf, s, steps);
      match end.served[k]
      case Redirect(GrantedUnder(g), a, key, _) =>
        && g in end.db.grants && a in end.db.grants[g].assets
        && a in end.born && end.born[a] == end.db.grants[g].account
        && (Plain(key) ==> exists name :: RenditionNamed(end.db.grants[g].account, a, name, key))
      case Redirect(ExportUnder(x), a, key, _) =>
        && x in end.db.exports && a in end.db.exports[x].assets
        && a in end.born && end.born[a] == end.db.exports[x].account
        && key == VaultKey(end.db.exports[x].account, a)
      case Redirect(OwnerOriginal, a, key, _) => a in end.born && key == VaultKey(end.born[a], a)
      case ImageLoad(g, a, key, _) =>
        && g in end.db.grants && a in end.db.grants[g].assets
        && a in end.born && end.born[a] == end.db.grants[g].account
        && ImageSource(end.db.grants[g].account, a, key)
  {
    RunKeepsInv(conf, s, steps);
    assert EventOk(conf, After(conf, s, steps), After(conf, s, steps).served[k]);
  }

  /** The renditions of every asset on record are stored under such keys. */
  lemma RenditionsHaveKeys(conf: Conf, s: System, steps: seq<Step>, a: Id, intent: Intent)
    requires Sane(conf) && Init(s) && Legal(conf, s, steps) && a in After(conf, s, steps).db.t.assets
    ensures KeyOf(RenditionKey(After(conf, s, steps).db.t.assets[a].vaultKey, IntentName(intent)), a)
  {
    RunKeepsInv(conf, s, steps);
    assert AssetOk(After(conf, s, steps), a);
  }

  /** No granted image loads past the second in which cache window plus URL lifetime after a revocation end, nor past
      the second in which the URL lifetime after a deletion ends. */
  lemma GrantedImagesEnd(conf: Conf, s: System, steps: seq<Step>, k: nat)
    requires Sane(conf) && Init(s) && Legal(conf, s, steps)
    requires k < |After(conf, s, steps).served| && After(conf, s, steps).served[k].ImageLoad?
    ensures
      var end, e := After(conf, s, steps), After(conf, s, steps).served[k];
      && e.grant in end.db.grants
      && BySecondOf(e.at, end.db.grants[e.grant].expires + conf.cacheTtl + conf.urlTtl)
      && (end.db.grants[e.grant].revokedAt.Some? ==>
            BySecondOf(e.at, end.db.grants[e.grant].revokedAt.value + conf.cacheTtl + conf.urlTtl))
      && (e.asset in end.deletions ==> BySecondOf(e.at, end.deletions[e.asset] + conf.urlTtl))
  {
    RunKeepsInv(conf, s, steps);
    assert EventOk(conf, After(conf, s, steps), After(conf, s, steps).served[k]);
  }

  /** The owner's original downloads and every export's stop the moment the asset is deleted; an export's also the
      moment it is revoked or expires, and thirty days after issue whatever was asked for. */
  lemma OriginalDownloadsEndAtOnce(conf: Conf, s: System, steps: seq<Step>, k: nat)
    requires Sane(conf) && Init(s) && Legal(conf, s, steps)
    requires k < |After(conf, s, steps).served| && After(conf, s, steps).served[k].Redirect?
    requires !After(conf, s, steps).served[k].cap.GrantedUnder?
    ensures
      var end, e := After(conf, s, steps), After(conf, s, steps).served[k];
      && e.asset in end.born && e.key == VaultKey(end.born[e.asset], e.asset)
      && (e.asset in end.deletions ==> e.at < end.deletions[e.asset])
      && (e.cap.ExportUnder? ==>
            && e.cap.exportId in end.db.exports && e.at < end.db.exports[e.cap.exportId].expires
            && e.at < end.db.exports[e.cap.exportId].created + EXPORT_MAX_TTL
            && (end.db.exports[e.cap.exportId].revokedAt.Some? ==>
                  e.at < end.db.exports[e.cap.exportId].revokedAt.value))
  {
    RunKeepsInv(conf, s, steps);
    assert EventOk(conf, After(conf, s, steps), After(conf, s, steps).served[k]);
  }

  /** Why the granted bound on deletion is no tighter: the granted branch does not look at the asset, so deleting it
      changes nothing about what that branch lets through. */
  lemma GrantedIgnoresDeletion(conf: Conf, s: System, q: Fetch, v: Verdict, account: Id, a: Id, at: int)
    requires q.exportId == "" && q.intent != IntentName(Original) && Owns(s.db, account, a)
    ensures Admitted(conf, s.(db := MarkedDeleted(s.db, account, a, at).value), q, v) == Admitted(conf, s, q, v)
  {
    var s' := s.(db := MarkedDeleted(s.db, account, a, at).value);
    assert Verified(s', q, GrantedUnder(q.grant)) == Verified(s, q, GrantedUnder(q.grant));
  }
}
