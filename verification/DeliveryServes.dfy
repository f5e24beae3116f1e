/** The other half of the edge: what was handed out is let through, for as long as it is promised to be. */
module DeliveryServes {
  import opened Contract
  import opened Records
  import opened Keys
  import opened Verdicts
  import opened Resolution
  import opened AssetStore
  import opened Delivery
  import opened DeliveryBounds
  import opened UrlPath
  import Decimal
  import ImagePath
  import MediaSpec
  import Text

  // ---- what a run never takes back ---------------------------------------------

  predicate SameShares(shares: map<Id, Share>, shares': map<Id, Share>) {
    forall id | id in shares ::
      id in shares' && shares'[id].(revokedAt := None) == shares[id].(revokedAt := None)
  }

  /** Signatures, image URLs and frozen sets stay; only revocations are added. */
  predicate Later(s: System, s': System) {
    && s.now <= s'.now && s.minted <= s'.minted && s.images <= s'.images
    && SameShares(s.db.grants, s'.db.grants) && SameShares(s.db.exports, s'.db.exports)
  }

  lemma StepIsLater(conf: Conf, s: System, step: Step)
    requires Enabled(conf, s, step)
    ensures Later(s, Apply(conf, s, step))
  {
  }

  lemma LaterStill(s: System, s1: System, s2: System)
    requires Later(s, s1) && Later(s1, s2)
    ensures Later(s, s2)
  {
  }

  /** The state in which the n-th step of a run is taken. */
  ghost predicate Moment(conf: Conf, s: System, steps: seq<Step>, n: nat, before: System) {
    && n < |steps| && Legal(conf, s, steps) && Legal(conf, s, steps[..n])
    && before == After(conf, s, steps[..n]) && Enabled(conf, before, steps[n])
  }

  lemma LastIsLater(conf: Conf, s: System, steps: seq<Step>)
    requires steps != [] && Legal(conf, s, steps)
    ensures Later(After(conf, s, steps[..|steps| - 1]), After(conf, s, steps))
  {
    StepIsLater(conf, After(conf, s, steps[..|steps| - 1]), steps[|steps| - 1]);
  }

  lemma {:induction false} EndIsLater(conf: Conf, s: System, steps: seq<Step>, n: nat, before: System)
    requires Moment(conf, s, steps, n, before)
    ensures Later(Apply(conf, before, steps[n]), After(conf, s, steps))
    decreases |steps|
  {
    var init := steps[..|steps| - 1];
    LastIsLater(conf, s, steps);
    if n < |init| {
      assert init[..n] == steps[..n];
      EndIsLater(conf, s, init, n, before);
      LaterStill(Apply(conf, before, steps[n]), After(conf, s, init), After(conf, s, steps));
    } else {
      assert init == steps[..n];
    }
  }

  /** Every step of a legal run has its moment. */
  lemma {:induction false} EveryStepHasOne(conf: Conf, s: System, steps: seq<Step>, n: nat) returns (before: System)
    requires Legal(conf, s, steps) && n < |steps|
    ensures Moment(conf, s, steps, n, before)
    decreases |steps|
  {
    var init := steps[..|steps| - 1];
    if n < |init| {
      before := EveryStepHasOne(conf, s, init, n);
      assert init[..n] == steps[..n];
    } else {
      before := After(conf, s, init);
      assert init == steps[..n];
    }
  }

  // ---- a URL in time verifies ----------------------------------------------------------

  predicate InTime(s: System, exp: int) {
    s.now <= exp * SECOND && Decimal.INT64_MIN <= exp <= Decimal.INT64_MAX
  }

  lemma MintVerifies(s: System, m: Mint, q: Fetch)
    requires m in s.minted && Plain(m.key) && InTime(s, m.exp)
    requires q.key == m.key && q.intent == m.intent && q.exp == Decimal.FormatInt(m.exp)
    ensures Verified(s, q, m.cap)
  {
    PlainIsItself(m.key);
    Decimal.ParseFormat(m.exp);
  }

  /** The edge finds the account and the asset in an original's key exactly when the account is one path segment. */
  lemma PartsOfOriginal(account: Id, a: Id)
    requires Segment(a)
    ensures VaultKeyParts(VaultKey(account, a)) == if Segment(account) then Some((account, a)) else None
  {
    var key := VaultKey(account, a);
    VaultKeyPartsExact(key, account, a);
    if VaultKeyParts(key).Some? {
      var (account', a') := VaultKeyParts(key).value;
      VaultKeyPartsExact(key, account', a');
      VaultKeyInjective(account, a, account', a');
    }
  }

  /** In a rendition's key it finds the asset exactly when the account holds no slash. */
  lemma AssetOfRendition(account: Id, a: Id, name: string)
    requires Segment(a) && '/' !in name
    ensures AssetIdFromRenditionKey(RenditionKey(VaultKey(account, a), name)) == if '/' in account then "" else a
  {
    if '/' in account {
      RenditionKeyShape(account, a, name);
      var tail := a + "/" + name;
      var key := "delivery" + ['/'] + (account + ['/'] + tail);
      assert key == "delivery" + "/" + account + "/" + a + "/" + name;
      Text.SplitHead("delivery", '/', account + ['/'] + tail);
      Text.SplitApart(account, '/', tail);
      assert tail == a + ['/'] + name;
      Text.SplitHead(a, '/', name);
      Text.SplitFree(name, '/');
      Text.JoinSplit(account, '/');
      assert |Text.Split(account, '/')| >= 2;
    } else {
      AssetIdRoundTrip(account, a, name);
    }
  }

  // ---- what ends a capability, and what the edge turns away -------------------------------

  /** Issuing, revoking and deleting take effect in the step that does them: a revocation stands as of the first, and a
      deletion is remembered as of the first. */
  lemma EndsTakeEffect(conf: Conf, s: System, step: Step)
    requires Enabled(conf, s, step)
    ensures
      var s' := Apply(conf, s, step);
      match step
      case IssueGrant(g, account, assets, expires) =>
        s'.db == s.db.(grants := s.db.grants[g := Share(account, assets, s.now, expires, None)])
      case RevokeGrant(g) =>
        var was := s.db.grants[g].revokedAt;
        s'.db == s.db.(grants := s.db.grants[g :=
                         s.db.grants[g].(revokedAt := if was.Some? then was else Some(s.now))])
      case RevokeExport(x) =>
        var was := s.db.exports[x].revokedAt;
        s'.db == s.db.(exports := s.db.exports[x :=
                         s.db.exports[x].(revokedAt := if was.Some? then was else Some(s.now))])
      case DeleteAsset(_, a) =>
        && a in s'.deletions && s'.deletions[a] == (if a in s.deletions then s.deletions[a] else s.now)
        && a in s'.db.t.assets && s'.db.t.assets[a] == s.db.t.assets[a].(deletedAt := Some(s.now))
      case SetRendition(a, i, r) =>
        s'.db == s.db.(t := s.db.t.(renditions := s.db.t.renditions[(a, i) := r]))
      case PurgeAsset(a) =>
        && (a in s'.db.t.assets <==> a in s.db.t.assets && s.db.t.assets[a].deletedAt == None)
        && s'.db.t.assets - {a} == s.db.t.assets - {a}
      case AddAsset(a, row) =>
        && LiveAsset(s'.db, row.account, a) && s'.db.t.assets[a] == row
        && s'.db.uploads ==
           s.db.uploads[a := Upload(row.account, row.vaultKey, "", false, None, s.now, Some(s.now), None)]
      case Wait(d) => s' == s.(now := s.now + 1 + d)
      case _ => s'.now == s.now + 1
  {
  }

  /** Whatever it is signed for, a request is turned away that lacks a key or an intent, asks for anything but the
      original under an export, names a grant beside an export or for an original, or names none for a rendition;
      and every request is where downloads cannot be signed. */
  lemma EdgeTurnsAway(conf: Conf, s: System, q: Fetch, v: Verdict)
    requires
      || !conf.setup.downloadSigner || q.key == "" || q.intent == ""
      || (q.exportId != "" && (q.intent != "original" || q.grant != ""))
      || (q.exportId == "" && (q.intent == "original" <==> q.grant != ""))
    ensures Admitted(conf, s, q, v) == None
  {
  }

  // ---- originals ---------------------------------------------------------------------------

  /** What the edge does with a request whose bytes can be presigned. */
  ghost predicate Serves(conf: Conf, s: System, q: Fetch, v: Verdict, more: seq<Event>) {
    && Enabled(conf, s, Download(q, v, true))
    && Apply(conf, s, Download(q, v, true)).served == s.served + more
  }

  lemma ServesAdmitted(conf: Conf, s: System, q: Fetch, v: Verdict)
    requires CacheMaySay(conf, s, Request(q.grant, AssetIdFromRenditionKey(q.key)), v)
    ensures
      var pass := Admitted(conf, s, q, v);
      Serves(conf, s, q, v,
             if pass.Some? then [Redirect(pass.value.0, pass.value.1, q.key, s.now)] else [])
  {
  }

  ghost predicate LiveAsset(db: Db, account: Id, a: Id) {
    a in db.t.assets && db.t.assets[a].account == account && db.t.assets[a].deletedAt.None?
  }

  /** Such a signature is on record. */
  ghost predicate Signed(s: System, key: string, name: string, cap: Capability, exp: int) {
    exists m :: m in s.minted && m.key == key && m.intent == name && m.cap == cap && m.exp == exp
  }

  lemma SignedStays(s: System, s': System, m: Mint)
    requires Later(s, s') && m in s.minted
    ensures Signed(s', m.key, m.intent, m.cap, m.exp)
  {
  }

  lemma SignedVerifies(s: System, q: Fetch, cap: Capability, exp: int)
    requires Signed(s, q.key, q.intent, cap, exp) && Plain(q.key) && InTime(s, exp) && q.exp == Decimal.FormatInt(exp)
    ensures Verified(s, q, cap)
  {
    var m :| m in s.minted && m.key == q.key && m.intent == q.intent && m.cap == cap && m.exp == exp;
    MintVerifies(s, m, q);
  }

  lemma OwnerAdmitted(conf: Conf, s: System, account: Id, a: Id, q: Fetch, v: Verdict)
    requires conf.setup.downloadSigner && LiveAsset(s.db, account, a) && Segment(a)
    requires q.key == VaultKey(account, a) && q.intent == "original" && q.grant == "" && q.exportId == ""
    requires Verified(s, q, OwnerOriginal)
    ensures Admitted(conf, s, q, v) == if Segment(account) then Some((OwnerOriginal, a)) else None
  {
    PartsOfOriginal(account, a);
  }

  /** Asked for a live original the service signs its URL, good for one URL lifetime. */
  lemma OwnerSigns(conf: Conf, s: System, account: Id, a: Id)
    requires Enabled(conf, s, ResolveOriginal(account, a)) && AssetOk(s, a)
    ensures
      var m := Mint(VaultKey(account, a), "original", OwnerOriginal, (s.now + conf.urlTtl) / 1_000_000_000, s.now, a);
      var s' := Apply(conf, s, ResolveOriginal(account, a));
      s'.minted == if LiveAsset(s.db, account, a) then s.minted + {m} else s.minted
  {
  }

  /** The owner's URL for an original works: from the moment it is handed out to the second it expires in, while the
      asset is not deleted. An account whose name is not one path segment never gets that far. */
  lemma OwnerUrlServes(conf: Conf, s: System, steps: seq<Step>, n: nat, before: System, account: Id, a: Id, v: Verdict)
    requires Sane(conf) && Init(s) && Moment(conf, s, steps, n, before)
    requires steps[n] == ResolveOriginal(account, a) && LiveAsset(before.db, account, a)
    requires LiveAsset(After(conf, s, steps).db, account, a)
    requires InTime(After(conf, s, steps), (before.now + conf.urlTtl) / 1_000_000_000)
    requires CacheMaySay(conf, After(conf, s, steps), Request("", AssetIdFromRenditionKey(VaultKey(account, a))), v)
    ensures
      var end, key := After(conf, s, steps), VaultKey(account, a);
      var q := Fetch(key, "original", "", "", Decimal.FormatInt((before.now + conf.urlTtl) / 1_000_000_000));
      Serves(conf, end, q, v, if Segment(account) then [Redirect(OwnerOriginal, a, key, end.now)] else [])
  {
    var end, key, exp := After(conf, s, steps), VaultKey(account, a), (before.now + conf.urlTtl) / 1_000_000_000;
    var q := Fetch(key, "original", "", "", Decimal.FormatInt(exp));
    RunKeepsInv(conf, s, steps[..n]);
    RunKeepsInv(conf, s, steps);
    EndIsLater(conf, s, steps, n, before);
    assert AssetOk(before, a) && AssetOk(end, a);
    KeyIsPlain(account, a, "");
    OwnerSigns(conf, before, account, a);
    SignedStays(Apply(conf, before, steps[n]), end, Mint(key, "original", OwnerOriginal, exp, before.now, a));
    SignedVerifies(end, q, OwnerOriginal, exp);
    OwnerAdmitted(conf, end, account, a, q, v);
    ServesAdmitted(conf, end, q, v);
  }

  lemma ExportAdmitted(conf: Conf, s: System, x: Id, account: Id, a: Id, q: Fetch, v: Verdict)
    requires conf.setup.downloadSigner && LiveAsset(s.db, account, a) && Segment(a) && x != ""
    requires q.key == VaultKey(account, a) && q.intent == "original" && q.grant == "" && q.exportId == x
    requires Verified(s, q, ExportUnder(x))
    requires x in s.db.exports && s.db.exports[x].account == account && a in s.db.exports[x].assets
    requires s.db.exports[x].created <= s.now < s.db.exports[x].expires && s.db.exports[x].revokedAt.None?
    ensures Admitted(conf, s, q, v) == if Segment(account) then Some((ExportUnder(x), a)) else None
  {
    PartsOfOriginal(account, a);
    OpensIff(s.db.exports, Request(x, a), s.now);
  }

  /** Issuing an export signs a URL for each requested asset that is live, and for no other. */
  lemma ExportSigns(conf: Conf, s: System, x: Id, account: Id, assets: seq<Id>, expires: int, a: Id)
    requires Enabled(conf, s, IssueExport(x, account, assets, expires)) && a in assets
    ensures
      var s' := Apply(conf, s, IssueExport(x, account, assets, expires));
      var m := Mint(VaultKey(account, a), "original", ExportUnder(x), expires / 1_000_000_000, s.now, a);
      && s'.db.exports[x].account == account && s'.db.exports[x].expires == expires
      && s'.db.exports[x].created == s.now && s'.db.exports[x].revokedAt.None?
      && (LiveAsset(s.db, account, a) <==> a in s'.db.exports[x].assets)
      && (LiveAsset(s.db, account, a) ==> m in s'.minted)
      && (!LiveAsset(s.db, account, a) && m !in s.minted ==> m !in s'.minted)
  {
    ExportPartitions(s.db, account, assets);
  }

  /** Reading an export again signs the same URLs for all it froze, while it has not ended; once it has, none. */
  lemma ExportSignsAgain(conf: Conf, s: System, account: Id, x: Id, m: Mint)
    requires Enabled(conf, s, ReadExport(account, x)) && m !in s.minted && conf.setup.downloadSigner
    ensures
      var share := s.db.exports[x];
      m in Apply(conf, s, ReadExport(account, x)).minted <==>
        && share.revokedAt == None && s.now < share.expires && m.asset in share.assets
        && m == Mint(VaultKey(account, m.asset), "original", ExportUnder(x), share.expires / 1_000_000_000, s.now,
                     m.asset)
  {
  }

  /** So does an export's URL, for every asset that was live when the export was issued and still is, until the
      export is revoked or the second it expires in begins. */
  lemma ExportUrlServes(conf: Conf, s: System, steps: seq<Step>, n: nat, before: System,
                        x: Id, account: Id, assets: seq<Id>, expires: int, a: Id, v: Verdict)
    requires Sane(conf) && Init(s) && Moment(conf, s, steps, n, before)
    requires steps[n] == IssueExport(x, account, assets, expires) && a in assets && LiveAsset(before.db, account, a)
    requires LiveAsset(After(conf, s, steps).db, account, a) && InTime(After(conf, s, steps), expires / 1_000_000_000)
    requires
      var end := After(conf, s, steps);
      x in end.db.exports ==> end.db.exports[x].revokedAt.None? && end.now < expires
    requires CacheMaySay(conf, After(conf, s, steps), Request("", AssetIdFromRenditionKey(VaultKey(account, a))), v)
    ensures
      var end, key := After(conf, s, steps), VaultKey(account, a);
      var q := Fetch(key, "original", "", x, Decimal.FormatInt(expires / 1_000_000_000));
      Serves(conf, end, q, v, if Segment(account) then [Redirect(ExportUnder(x), a, key, end.now)] else [])
  {
    var end, key, exp := After(conf, s, steps), VaultKey(account, a), expires / 1_000_000_000;
    var q := Fetch(key, "original", "", x, Decimal.FormatInt(exp));
    RunKeepsInv(conf, s, steps);
    EndIsLater(conf, s, steps, n, before);
    assert AssetOk(end, a);
    ExportSigns(conf, before, x, account, assets, expires, a);
    var issued := Apply(conf, before, steps[n]);
    SignedStays(issued, end, Mint(key, "original", ExportUnder(x), exp, before.now, a));
    assert end.db.exports[x].(revokedAt := None) == issued.db.exports[x].(revokedAt := None);
    KeyIsPlain(account, a, "");
    SignedVerifies(end, q, ExportUnder(x), exp);
    ExportAdmitted(conf, end, x, account, a, q, v);
    ServesAdmitted(conf, end, q, v);
  }

  // ---- under a grant ---------------------------------------------------------------------------

  /** What the worker stores as it is, for a kind that offers it. */
  predicate Streams(kind: Kind, want: Intent) {
    (want.Detail? && kind in {Video, Audio}) || (want in {Poster, Loop} && kind.Video?)
  }

  predicate ReadyOn(t: Tables, a: Id, i: Intent) {
    (a, i) in t.renditions && t.renditions[(a, i)].status.Ready?
  }

  lemma ReadyAmong(t: Tables, a: Id, i: Intent)
    ensures ReadyOn(t, a, i) <==> i in RenditionsFor(t, a) && RenditionsFor(t, a)[i].status.Ready?
    ensures (a, i) in t.renditions ==> i in RenditionsFor(t, a) && RenditionsFor(t, a)[i] == t.renditions[(a, i)]
  {
  }

  function GrantedTarget(conf: Conf, s: System, g: Id, a: Id, want: Intent, device: Device): Option<Target>
    requires a in s.db.t.assets
  {
    EnforceGranted(conf.setup, s.db.t.assets[a], RenditionsFor(s.db.t, a), g, want, device, UrlExpiry(conf, s.now))
  }

  lemma StreamTarget(conf: Conf, s: System, g: Id, a: Id, want: Intent, device: Device)
    requires a in s.db.t.assets && s.db.t.assets[a].deletedAt.None?
    requires Streams(s.db.t.assets[a].kind, want) && ReadyOn(s.db.t, a, want)
    ensures ResolveNonOriginal(conf.setup, s.db.t.assets[a], RenditionsFor(s.db.t, a), want, device).Deliver?
    ensures
      var key := RenditionKey(s.db.t.assets[a].vaultKey, IntentName(want));
      GrantedTarget(conf, s, g, a, want, device)
        == if conf.setup.downloadSigner then Some(SignedDownload(key, want, g, (s.now + conf.urlTtl) / 1_000_000_000))
           else None
  {
    ReadyAmong(s.db.t, a, want);
  }

  lemma NoStream(conf: Conf, s: System, g: Id, a: Id, want: Intent, device: Device)
    requires a in s.db.t.assets && !want.Original?
    requires !(Streams(s.db.t.assets[a].kind, want) && ReadyOn(s.db.t, a, want))
    requires ResolveNonOriginal(conf.setup, s.db.t.assets[a], RenditionsFor(s.db.t, a), want, device).Deliver?
    ensures GrantedTarget(conf, s, g, a, want, device).Some? ==>
              GrantedTarget(conf, s, g, a, want, device).value.ImageUrl?
  {
    ReadyAmong(s.db.t, a, want);
    DeliversIff(conf.setup, s.db.t.assets[a], RenditionsFor(s.db.t, a), want, device);
  }

  /** A visitor whose grant is live is handed a signed URL for a stream exactly when the asset is not deleted and the
      rendition ready; nothing else is ever signed for a grant. */
  lemma GrantSigns(conf: Conf, s: System, g: Id, a: Id, want: Intent, device: Device, v: Verdict)
    requires AssetOk(s, a) && Live(v)
    ensures
      var account, name := v.account, IntentName(want);
      var m := Mint(RenditionKey(VaultKey(account, a), name), name, GrantedUnder(g),
                    (s.now + conf.urlTtl) / 1_000_000_000, s.now, a);
      MintGranted(conf, s, g, a, want, device, v).minted ==
        if && LiveAsset(s.db, account, a) && Streams(s.db.t.assets[a].kind, want) && ReadyOn(s.db.t, a, want)
           && conf.setup.downloadSigner
        then s.minted + {m} else s.minted
  {
    if LiveAsset(s.db, v.account, a) && !want.Original? {
      if Streams(s.db.t.assets[a].kind, want) && ReadyOn(s.db.t, a, want) {
        StreamTarget(conf, s, g, a, want, device);
      } else if ResolveNonOriginal(conf.setup, s.db.t.assets[a], RenditionsFor(s.db.t, a), want, device).Deliver? {
        NoStream(conf, s, g, a, want, device);
      }
    }
  }

  lemma GrantAdmitted(conf: Conf, s: System, g: Id, account: Id, a: Id, want: Intent, q: Fetch, v: Verdict)
    requires conf.setup.downloadSigner && Segment(a) && g != "" && !want.Original? && Live(v)
    requires q.key == RenditionKey(VaultKey(account, a), IntentName(want)) && q.intent == IntentName(want)
    requires q.grant == g && q.exportId == "" && Verified(s, q, GrantedUnder(g))
    ensures Admitted(conf, s, q, v) == if '/' in account then None else Some((GrantedUnder(g), a))
  {
    BareIsPlain(IntentName(want));
    AssetOfRendition(account, a, IntentName(want));
    OriginalAlone(want);
  }

  lemma OriginalAlone(want: Intent)
    ensures IntentName(want) == IntentName(Original) <==> want.Original?
  {
    assert IntentName(want)[0] == 'o' <==> want.Original?;
  }

  /** The visitor's URL works while it is in time and the edge finds the grant live. An account whose name holds a slash
      never gets that far. */
  lemma GrantedUrlServes(conf: Conf, s: System, steps: seq<Step>, n: nat, before: System, g: Id, account: Id, a: Id,
                         want: Intent, device: Device, told: Verdict, v: Verdict)
    requires Sane(conf) && Init(s) && Moment(conf, s, steps, n, before) && conf.setup.downloadSigner
    requires steps[n] == ResolveGranted(g, a, want, device, told) && Live(told) && account == told.account
    requires LiveAsset(before.db, account, a)
    requires Streams(before.db.t.assets[a].kind, want) && ReadyOn(before.db.t, a, want)
    requires InTime(After(conf, s, steps), (before.now + conf.urlTtl) / 1_000_000_000)
    requires
      var key := RenditionKey(VaultKey(account, a), IntentName(want));
      CacheMaySay(conf, After(conf, s, steps), Request(g, AssetIdFromRenditionKey(key)), v) && Live(v)
    ensures
      var end, name := After(conf, s, steps), IntentName(want);
      var key := RenditionKey(VaultKey(account, a), name);
      var q := Fetch(key, name, g, "", Decimal.FormatInt((before.now + conf.urlTtl) / 1_000_000_000));
      Serves(conf, end, q, v, if '/' in account then [] else [Redirect(GrantedUnder(g), a, key, end.now)])
  {
    var end, name, exp := After(conf, s, steps), IntentName(want), (before.now + conf.urlTtl) / 1_000_000_000;
    var key := RenditionKey(VaultKey(account, a), name);
    var q := Fetch(key, name, g, "", Decimal.FormatInt(exp));
    RunKeepsInv(conf, s, steps[..n]);
    EndIsLater(conf, s, steps, n, before);
    assert AssetOk(before, a);
    LiveMeansAlive(conf, before, Request(g, a), told);
    assert GrantIdOk(before, g);
    BareIsPlain(name);
    KeyIsPlain(account, a, name);
    GrantSigns(conf, before, g, a, want, device, told);
    SignedStays(Apply(conf, before, steps[n]), end, Mint(key, name, GrantedUnder(g), exp, before.now, a));
    SignedVerifies(end, q, GrantedUnder(g), exp);
    GrantAdmitted(conf, end, g, account, a, want, q, v);
    ServesAdmitted(conf, end, q, v);
  }

  /** The cache may tell what the store says now: a grant that covers the asset and has not ended opens it. */
  lemma FreshAnswerOpens(conf: Conf, s: System, g: Id, a: Id)
    requires Sane(conf) && g in s.db.grants && a in s.db.grants[g].assets && s.db.grants[g].revokedAt.None?
    requires s.db.grants[g].created <= s.now < s.db.grants[g].expires
    ensures CacheMaySay(conf, s, Request(g, a), VerdictAt(s.db.grants, Request(g, a), s.now))
    ensures Live(VerdictAt(s.db.grants, Request(g, a), s.now))
  {
    OpensIff(s.db.grants, Request(g, a), s.now);
  }

  /** There is a picture of the asset to render from: itself, or its ready poster. */
  predicate Pictured(t: Tables, a: Id, want: Intent)
    requires a in t.assets
  {
    || (t.assets[a].kind.Image? && !want.Original?)
    || (t.assets[a].kind.Video? && want in {Thumbnail, Grid, Lightbox} && ReadyOn(t, a, Poster))
  }

  function PictureKey(t: Tables, a: Id): string
    requires a in t.assets
  {
    if t.assets[a].kind.Image? then t.assets[a].vaultKey else RenditionKey(t.assets[a].vaultKey, "poster")
  }

  predicate ImagesConfigured(setup: Setup) {
    setup.imageSigner && setup.sourceBucket != "" && setup.grantedImageHost
  }

  /** Where there is a picture, and hosts for it, a live grant gives its URL, good for one URL lifetime. */
  lemma PictureTarget(conf: Conf, s: System, g: Id, a: Id, want: Intent, device: Device) returns (u: GrantedImage)
    requires a in s.db.t.assets && s.db.t.assets[a].deletedAt.None? && Pictured(s.db.t, a, want)
    requires ImagesConfigured(conf.setup)
    ensures ResolveNonOriginal(conf.setup, s.db.t.assets[a], RenditionsFor(s.db.t, a), want, device).Deliver?
    ensures GrantedTarget(conf, s, g, a, want, device) == Some(ImageUrl(u.preset, u.key, Some(u.exp)))
    ensures u.grant == g && u.asset == a && u.key == PictureKey(s.db.t, a) && u.at == s.now
    ensures u.exp == (s.now + conf.urlTtl) / 1_000_000_000
  {
    ReadyAmong(s.db.t, a, Poster);
    DeliversIff(conf.setup, s.db.t.assets[a], RenditionsFor(s.db.t, a), want, device);
    var target := GrantedTarget(conf, s, g, a, want, device);
    u := GrantedImage(g, a, target.value.preset, PictureKey(s.db.t, a), UrlExpiry(conf, s.now), s.now);
  }

  /** A visitor whose grant is live is handed an image URL exactly when there is a picture, not deleted, and both image
      hosts are configured. */
  lemma GrantPictures(conf: Conf, s: System, g: Id, a: Id, want: Intent, device: Device, v: Verdict)
    requires Live(v)
    ensures
      var images := MintGranted(conf, s, g, a, want, device, v).images;
      if LiveAsset(s.db, v.account, a) && Pictured(s.db.t, a, want) && ImagesConfigured(conf.setup)
      then exists u: GrantedImage :: u.grant == g && u.asset == a && images == s.images + {u}
      else images == s.images
  {
    ReadyAmong(s.db.t, a, Poster);
    if LiveAsset(s.db, v.account, a) && !want.Original? {
      if Pictured(s.db.t, a, want) && ImagesConfigured(conf.setup) {
        var u := PictureTarget(conf, s, g, a, want, device);
        assert MintGranted(conf, s, g, a, want, device, v).images == s.images + {u};
      } else {
        NoPicture(conf, s, g, a, want, device);
      }
    }
  }

  lemma NoPicture(conf: Conf, s: System, g: Id, a: Id, want: Intent, device: Device)
    requires a in s.db.t.assets && !(Pictured(s.db.t, a, want) && ImagesConfigured(conf.setup))
    ensures GrantedTarget(conf, s, g, a, want, device).Some? && !want.Original? ==>
              !GrantedTarget(conf, s, g, a, want, device).value.ImageUrl?
  {
    ReadyAmong(s.db.t, a, Poster);
  }

  /** The visitor's image URL loads until the second it expires in is over, revoked or not. */
  lemma GrantedImageLoads(conf: Conf, s: System, steps: seq<Step>, n: nat, before: System, g: Id, a: Id,
                          want: Intent, device: Device, told: Verdict) returns (u: GrantedImage)
    requires Sane(conf) && Init(s) && Moment(conf, s, steps, n, before)
    requires steps[n] == ResolveGranted(g, a, want, device, told) && Live(told)
    requires LiveAsset(before.db, told.account, a) && Pictured(before.db.t, a, want) && MediaSpec.ImageIntent(want)
    requires conf.setup.imageSigner && conf.setup.sourceBucket != "" && conf.setup.grantedImageHost
    requires SourceClean(conf.setup, PictureKey(before.db.t, a))
    requires
      var exp := (before.now + conf.urlTtl) / 1_000_000_000;
      After(conf, s, steps).now / 1_000_000_000 <= exp <= Decimal.INT64_MAX
    ensures u.key == PictureKey(before.db.t, a) && u.exp == (before.now + conf.urlTtl) / 1_000_000_000
    ensures
      var end := After(conf, s, steps);
      && Enabled(conf, end, LoadImage(u))
      && Apply(conf, end, LoadImage(u)).served == end.served + [ImageLoad(g, a, u.key, end.now)]
  {
    var end, exp := After(conf, s, steps), (before.now + conf.urlTtl) / 1_000_000_000;
    EndIsLater(conf, s, steps, n, before);
    RunKeepsInv(conf, s, steps[..n]);
    u := PictureTarget(conf, before, g, a, want, device);
    assert u in MintGranted(conf, before, g, a, want, device, told).images;
    ImageTaken(conf, before, u, want, device, end.now / 1_000_000_000);
  }

  lemma ImageTaken(conf: Conf, s: System, u: GrantedImage, want: Intent, device: Device, second: int)
    requires u.asset in s.db.t.assets && MediaSpec.ImageIntent(want) && SourceClean(conf.setup, u.key)
    requires
      GrantedTarget(conf, s, u.grant, u.asset, want, device) == Some(ImageUrl(u.preset, u.key, Some(u.exp)))
    requires u.exp == UrlExpiry(conf, s.now) && Decimal.INT64_MIN <= u.exp <= Decimal.INT64_MAX && second <= u.exp
    ensures
      var path := ImagePath.ProcessingPath(MediaSpec.PresetName(u.preset), Source(conf.setup, u.key), Some(u.exp));
      ImagePath.PathError(ImagePath.GRANTED_HOST, path, second).None?
  {
    SourceIsReadable(conf.setup, u.key);
    var row, renditions := s.db.t.assets[u.asset], RenditionsFor(s.db.t, u.asset);
    GrantedUrlServesIff(conf.setup, row, renditions, u.grant, want, device, u.exp, second);
  }
}
