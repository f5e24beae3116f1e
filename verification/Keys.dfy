/** Storage keys and signed messages: every capability string decodes to one meaning only. */
module Keys {
  import opened Contract
  import opened Text

  const VAULT_PREFIX := "vault/"
  const DELIVERY_PREFIX := "delivery/"
  const STAGING_PREFIX := "staging/"

  function VaultKey(account: string, assetId: string): string {
    VAULT_PREFIX + account + "/" + assetId
  }

  function RenditionKey(vaultKey: string, intent: string): string {
    DELIVERY_PREFIX + TrimPrefix(vaultKey, VAULT_PREFIX) + "/" + intent
  }

  function StagingKey(account: string, assetId: string, intent: string): string {
    STAGING_PREFIX + account + "/" + assetId + "/" + intent
  }

  function VaultKeyParts(key: string): Option<(string, string)> {
    var parts := Split(key, '/');
    if |parts| != 3 || parts[0] + "/" != VAULT_PREFIX || parts[1] == "" || parts[2] == ""
    then None
    else Some((parts[1], parts[2]))
  }

  function AssetIdFromRenditionKey(key: string): string {
    var parts := Split(key, '/');
    if |parts| == 4 && parts[0] + "/" == DELIVERY_PREFIX then parts[2]
    else if |parts| == 3 && parts[0] + "/" == VAULT_PREFIX then parts[2]
    else ""
  }

  predicate Segment(s: string) {
    s != "" && '/' !in s
  }

  lemma JoinThree(a: string, b: string, d: string)
    ensures Join([a, b, d], '/') == a + "/" + b + "/" + d
  {
    var parts := [a, b, d];
    assert parts[1..] == [b, d];
    assert parts[1..][1..] == [d];
    assert Join([b, d], '/') == b + ['/'] + d;
    assert a + ['/'] + (b + ['/'] + d) == a + "/" + b + "/" + d;
  }

  lemma SplitThree(a: string, b: string, d: string)
    requires '/' !in a && '/' !in b && '/' !in d
    ensures Split(a + "/" + b + "/" + d, '/') == [a, b, d]
  {
    SplitJoin([a, b, d], '/');
    JoinThree(a, b, d);
  }

  lemma SplitFour(a: string, b: string, d: string, e: string)
    requires '/' !in a && '/' !in b && '/' !in d && '/' !in e
    ensures Split(a + "/" + b + "/" + d + "/" + e, '/') == [a, b, d, e]
  {
    SplitThree(b, d, e);
    SplitHead(a, '/', b + "/" + d + "/" + e);
    assert a + ['/'] + (b + "/" + d + "/" + e) == a + "/" + b + "/" + d + "/" + e;
  }

  /** `vaultKeyParts` is the exact inverse of `VaultKey`: it answers for those keys and no others. */
  lemma VaultKeyPartsExact(key: string, account: string, assetId: string)
    ensures VaultKeyParts(key) == Some((account, assetId))
       <==> Segment(account) && Segment(assetId) && key == VaultKey(account, assetId)
  {
    if Segment(account) && Segment(assetId) && key == VaultKey(account, assetId) {
      SplitThree("vault", account, assetId);
      assert key == "vault" + "/" + account + "/" + assetId;
    }
    if VaultKeyParts(key) == Some((account, assetId)) {
      JoinSplit(key, '/');
      var parts := Split(key, '/');
      assert parts[0] == (parts[0] + "/")[..|parts[0]|] == "vault";
      assert parts == [parts[0], parts[1], parts[2]];
      assert account in parts && assetId in parts;
      JoinThree("vault", account, assetId);
      assert "vault" + "/" == VAULT_PREFIX;
    }
  }

  lemma RenditionKeyShape(account: string, assetId: string, intent: string)
    ensures RenditionKey(VaultKey(account, assetId), intent)
         == "delivery" + "/" + account + "/" + assetId + "/" + intent
  {
    assert VaultKey(account, assetId)[|VAULT_PREFIX|..] == account + "/" + assetId;
  }

  /** The download edge reads the asset id back from both key shapes it is handed, and from nothing staged. */
  lemma AssetIdRoundTrip(account: string, assetId: string, intent: string)
    requires '/' !in account && '/' !in assetId && '/' !in intent
    ensures AssetIdFromRenditionKey(RenditionKey(VaultKey(account, assetId), intent)) == assetId
    ensures AssetIdFromRenditionKey(VaultKey(account, assetId)) == assetId
    ensures AssetIdFromRenditionKey(StagingKey(account, assetId, intent)) == ""
  {
    RenditionKeyShape(account, assetId, intent);
    SplitFour("delivery", account, assetId, intent);
    SplitThree("vault", account, assetId);
    assert VaultKey(account, assetId) == "vault" + "/" + account + "/" + assetId;
    SplitFour("staging", account, assetId, intent);
    assert StagingKey(account, assetId, intent) == "staging" + "/" + account + "/" + assetId + "/" + intent;
    assert "staging/"[0] != DELIVERY_PREFIX[0];
  }

  /** Two rendition keys collide only when account, asset and intent all agree. */
  lemma RenditionKeyInjective(a1: string, i1: string, n1: string, a2: string, i2: string, n2: string)
    requires '/' !in a1 && '/' !in i1 && '/' !in n1
    requires '/' !in a2 && '/' !in i2 && '/' !in n2
    requires RenditionKey(VaultKey(a1, i1), n1) == RenditionKey(VaultKey(a2, i2), n2)
    ensures a1 == a2 && i1 == i2 && n1 == n2
  {
    RenditionKeyShape(a1, i1, n1);
    RenditionKeyShape(a2, i2, n2);
    SplitFour("delivery", a1, i1, n1);
    SplitFour("delivery", a2, i2, n2);
    assert ["delivery", a1, i1, n1][1] == ["delivery", a2, i2, n2][1];
    assert ["delivery", a1, i1, n1][2] == ["delivery", a2, i2, n2][2];
    assert ["delivery", a1, i1, n1][3] == ["delivery", a2, i2, n2][3];
  }

  /** Slash-free ids alone make vault keys unique, whatever the account names look like. */
  lemma VaultKeyInjective(a1: string, i1: string, a2: string, i2: string)
    requires '/' !in i1 && '/' !in i2
    requires VaultKey(a1, i1) == VaultKey(a2, i2)
    ensures a1 == a2 && i1 == i2
  {
    var s := VaultKey(a1, i1);
    var n := |VAULT_PREFIX|;
    assert s[n + |a1|] == '/' && s[n + |a2|] == '/';
    assert |a1| == |a2| by {
      assert forall k | n + |a1| < k < |s| :: s[k] == i1[k - n - |a1| - 1];
      assert forall k | n + |a2| < k < |s| :: s[k] == i2[k - n - |a2| - 1];
    }
    assert s[n..n + |a1|] == a1 && s[n..n + |a2|] == a2;
    assert s[n + |a1| + 1..] == i1 && s[n + |a2| + 1..] == i2;
  }

  /** The vault, delivery and staging key spaces never meet, for any parts at all. */
  lemma KeySpacesDisjoint(a1: string, i1: string, vaultKey: string, n2: string, a3: string, i3: string, n3: string)
    ensures VaultKey(a1, i1) != RenditionKey(vaultKey, n2)
    ensures VaultKey(a1, i1) != StagingKey(a3, i3, n3)
    ensures RenditionKey(vaultKey, n2) != StagingKey(a3, i3, n3)
  {
    assert VaultKey(a1, i1)[0] == 'v';
    assert RenditionKey(vaultKey, n2)[0] == 'd';
    assert StagingKey(a3, i3, n3)[0] == 's';
  }

  // ---- signed messages ----------------------------------------------------

  const NUL := '\0'
  const OWNER_NAME := "owner-original"
  const OWNER_SENTINEL := "\0" + OWNER_NAME

  /** What a signature can vouch for: a grant, the owner's front door, or an export. */
  datatype Capability = GrantedUnder(grantId: Id) | OwnerOriginal | ExportUnder(exportId: Id)

  function SigContext(c: Capability): string {
    match c
    case GrantedUnder(g) => g
    case OwnerOriginal => OWNER_SENTINEL
    case ExportUnder(e) => "\0export\0" + e
  }

  predicate NulFree(c: Capability) {
    match c
    case GrantedUnder(g) => NUL !in g
    case OwnerOriginal => true
    case ExportUnder(e) => NUL !in e
  }

  /** The byte string `mac` authenticates. */
  function MacMessage(path: string, intent: string, context: string, exp: string): string {
    path + "\0" + intent + "\0" + context + "\0" + exp
  }

  /** The NUL-separated fields a context contributes: one for a grant, two for the owner, three for an export. */
  function ContextFields(c: Capability): seq<string> {
    match c
    case GrantedUnder(g) => [g]
    case OwnerOriginal => ["", OWNER_NAME]
    case ExportUnder(e) => ["", "export", e]
  }

  lemma SplitFramed(name: string, rest: string)
    requires NUL !in name
    ensures Split("\0" + name + "\0" + rest, NUL) == ["", name] + Split(rest, NUL)
  {
    var tail := name + [NUL] + rest;
    SplitHead(name, NUL, rest);
    SplitHead("", NUL, tail);
    assert "\0" + name + "\0" + rest == "" + [NUL] + tail;
    assert [""] + ([name] + Split(rest, NUL)) == ["", name] + Split(rest, NUL);
  }

  lemma ContextSplits(c: Capability, exp: string)
    requires NUL !in exp && NulFree(c)
    ensures Split(SigContext(c) + "\0" + exp, NUL) == ContextFields(c) + [exp]
  {
    SplitFree(exp, NUL);
    match c {
      case GrantedUnder(g) =>
        SplitHead(g, NUL, exp);
      case OwnerOriginal =>
        SplitFramed(OWNER_NAME, exp);
      case ExportUnder(e) =>
        SplitFramed("export", e + "\0" + exp);
        SplitHead(e, NUL, exp);
        FramedExport(e, exp);
    }
  }

  lemma FramedExport(e: string, exp: string)
    ensures SigContext(ExportUnder(e)) + "\0" + exp == "\0" + "export" + "\0" + (e + "\0" + exp)
  {
    assert "\0export\0" == "\0" + "export" + "\0";
  }

  lemma MessageSplits(path: string, intent: string, c: Capability, exp: string)
    requires NUL !in path && NUL !in intent && NUL !in exp && NulFree(c)
    ensures Split(MacMessage(path, intent, SigContext(c), exp), NUL) == [path, intent] + ContextFields(c) + [exp]
  {
    var context := SigContext(c);
    var tail := context + "\0" + exp;
    ContextSplits(c, exp);
    MessageFrame(path, intent, context, exp);
    SplitHead(intent, NUL, tail);
    SplitHead(path, NUL, intent + [NUL] + tail);
    assert [path] + ([intent] + (ContextFields(c) + [exp])) == [path, intent] + ContextFields(c) + [exp];
  }

  lemma MessageFrame(path: string, intent: string, context: string, exp: string)
    ensures MacMessage(path, intent, context, exp) == path + [NUL] + (intent + [NUL] + (context + "\0" + exp))
  {
  }

  /** No two capabilities share a message: fields cannot shift across a boundary, nor one kind pass for another. */
  lemma MacMessageInjective(p1: string, n1: string, c1: Capability, e1: string,
                            p2: string, n2: string, c2: Capability, e2: string)
    requires NUL !in p1 && NUL !in n1 && NUL !in e1 && NulFree(c1)
    requires NUL !in p2 && NUL !in n2 && NUL !in e2 && NulFree(c2)
    requires MacMessage(p1, n1, SigContext(c1), e1) == MacMessage(p2, n2, SigContext(c2), e2)
    ensures p1 == p2 && n1 == n2 && c1 == c2 && e1 == e2
  {
    MessageSplits(p1, n1, c1, e1);
    MessageSplits(p2, n2, c2, e2);
    var f1, f2 := [p1, n1] + ContextFields(c1) + [e1], [p2, n2] + ContextFields(c2) + [e2];
    assert f1 == f2;
    assert f1[0] == f2[0] && f1[1] == f2[1] && f1[|f1| - 1] == f2[|f2| - 1];
    assert ContextFields(c1) == f1[2..|f1| - 1] == ContextFields(c2);
    assert |ContextFields(c1)| == |ContextFields(c2)|;
    assert forall k | 0 <= k < |ContextFields(c1)| :: ContextFields(c1)[k] == ContextFields(c2)[k];
    if c1.ExportUnder? {
      assert ContextFields(c1)[2] == ContextFields(c2)[2];
    }
  }

  /** Whatever the text before them holds, the last two fields of a message are the last two of its split. */
  lemma LastFields(front: string, g: string, exp: string)
    requires NUL !in g && NUL !in exp
    ensures Split(front + "\0" + g + "\0" + exp, NUL) == Split(front, NUL) + [g, exp]
  {
    SplitApart(front + "\0" + g, NUL, exp);
    SplitApart(front, NUL, g);
    SplitFree(g, NUL);
    SplitFree(exp, NUL);
    assert front + "\0" + g == front + [NUL] + g;
    assert front + "\0" + g + "\0" + exp == (front + "\0" + g) + [NUL] + exp;
  }

  lemma OnePart(text: string)
    requires |Split(text, NUL)| == 1
    ensures Split(text, NUL) == [text]
  {
    JoinSplit(text, NUL);
  }

  /** Text in two fields divides at the one NUL there is. */
  lemma TwoFields(path: string, intent: string, x: string, y: string)
    requires Split(path + "\0" + intent, NUL) == [x, y]
    ensures path == x && intent == y
  {
    assert path + "\0" + intent == path + [NUL] + intent;
    SplitApart(path, NUL, intent);
    var parts := Split(path, NUL) + Split(intent, NUL);
    assert parts == [x, y];
    OnePart(path);
    OnePart(intent);
    assert parts[0] == path && parts[1] == intent;
  }

  /** The name by which a message knows its capability. */
  function CapabilityName(c: Capability): string {
    match c
    case GrantedUnder(g) => g
    case OwnerOriginal => OWNER_NAME
    case ExportUnder(e) => e
  }

  /** A request's path and intent may hold a NUL: then its message may be another capability's, but only one of the
      name the request gives for its grant; and a grant's own message still comes from no other fields. */
  lemma UnframedMessage(p1: string, n1: string, c: Capability, e1: string, p2: string, n2: string, g: Id, e2: string)
    requires NUL !in p1 && NUL !in n1 && NUL !in e1 && NulFree(c) && NUL !in g && NUL !in e2
    requires MacMessage(p1, n1, SigContext(c), e1) == MacMessage(p2, n2, g, e2)
    ensures CapabilityName(c) == g && e1 == e2
    ensures c.GrantedUnder? ==> p1 == p2 && n1 == n2
  {
    MessageSplits(p1, n1, c, e1);
    LastFields(p2 + "\0" + n2, g, e2);
    var fields, front := [p1, n1] + ContextFields(c) + [e1], Split(p2 + "\0" + n2, NUL);
    assert fields == front + [g, e2];
    assert fields[|fields| - 1] == e2 && fields[|fields| - 2] == g;
    if c.GrantedUnder? {
      assert front == fields[..2] == [p1, n1];
      TwoFields(p2, n2, p1, n1);
    }
  }
}
