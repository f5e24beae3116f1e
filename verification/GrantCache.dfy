/** What the store answers about a grant or an export at an instant. */
module Verdicts {
  import opened Contract
  import opened Records

  datatype Verdict = Verdict(found: bool, covers: bool, revoked: bool, expired: bool, account: Id)

  predicate Live(v: Verdict) {
    v.found && v.covers && !v.revoked && !v.expired
  }

  datatype Request = Request(grant: string, asset: string)

  /** What the grant's row says at an instant; the stamps on the rows tell the past as well as the present. */
  function VerdictAt(shares: map<Id, Share>, r: Request, instant: int): Verdict {
    if r.grant !in shares || instant < shares[r.grant].created then Verdict(false, false, false, false, "")
    else
      var row := shares[r.grant];
      Verdict(true, r.asset in row.assets, row.revokedAt.Some? && row.revokedAt.value <= instant,
              row.expires <= instant, row.account)
  }

  /** A capability opens an asset exactly when that is in its frozen set, from its issue until it expires or is revoked;
      and it opens it for the account that issued it. Of one there is not, nothing is told but that. */
  lemma OpensIff(shares: map<Id, Share>, r: Request, instant: int)
    ensures Live(VerdictAt(shares, r, instant)) <==>
      && r.grant in shares && r.asset in shares[r.grant].assets
      && shares[r.grant].created <= instant < shares[r.grant].expires
      && (shares[r.grant].revokedAt.Some? ==> instant < shares[r.grant].revokedAt.value)
    ensures r.grant !in shares ==> VerdictAt(shares, r, instant) == Verdict(false, false, false, false, "")
    ensures Live(VerdictAt(shares, r, instant)) ==> VerdictAt(shares, r, instant).account == shares[r.grant].account
  {
  }

  /** The store gave this answer at some instant strictly between two others. */
  ghost predicate AnsweredWithin(shares: map<Id, Share>, r: Request, v: Verdict, lo: int, hi: int) {
    exists instant :: lo < instant < hi && VerdictAt(shares, r, instant) == v
  }
}

/** The short-lived cache in front of grant checks, and what concurrent callers may be told by it. */
module GrantCache {
  import opened Contract
  import opened Records
  import opened Keys
  import opened Verdicts

  // ---- the cache ------------------------------------------------------------

  datatype Entry = Entry(verdict: Verdict, expires: int)

  function CacheKey(r: Request): string {
    r.grant + "\0" + r.asset
  }

  /** The store rejects text holding a NUL. */
  predicate Clean(r: Request) {
    NUL !in r.grant && NUL !in r.asset
  }

  function LookedUp(items: map<string, Entry>, r: Request, now: int): Option<Verdict> {
    if CacheKey(r) in items && now < items[CacheKey(r)].expires then Some(items[CacheKey(r)].verdict) else None
  }

  function Filled(items: map<string, Entry>, r: Request, v: Verdict, now: int, ttl: int): map<string, Entry> {
    items[CacheKey(r) := Entry(v, now + ttl)]
  }

  const DEFAULT_CACHE_TTL_MS := 5000

  class Cache {
    const ttl: int
    var items: map<string, Entry>

    constructor (ttl: int)
      ensures this.ttl == if ttl > 0 then ttl else 5000
      ensures items == map[]
    {
      this.ttl := if ttl <= 0 then DEFAULT_CACHE_TTL_MS else ttl;
      items := map[];
    }

    /** One call with nobody else about: `answer` is what the store says when asked, None an error. */
    method Resolve(r: Request, now: int, answer: Option<Verdict>) returns (v: Option<Verdict>)
      modifies this`items
      ensures v == (if LookedUp(old(items), r, now).Some? then LookedUp(old(items), r, now) else answer)
      ensures items == if LookedUp(old(items), r, now).None? && answer.Some?
                       then Filled(old(items), r, answer.value, now, ttl) else old(items)
    {
      var key := CacheKey(r);
      if key in items && now < items[key].expires {
        return Some(items[key].verdict);
      }
      if answer.None? {
        return None;
      }
      items := items[key := Entry(answer.value, now + ttl)];
      return answer;
    }
  }

  /** No two questions the store can answer share an entry, and a question it cannot answer never finds one. */
  lemma CacheKeyInjective(r: Request, q: Request)
    requires Clean(r) && CacheKey(r) == CacheKey(q)
    ensures r == q
  {
    var s := CacheKey(r);
    assert s[|r.grant|] == NUL && s[|q.grant|] == NUL;
    assert forall k | 0 <= k < |s| ::
        s[k] == if k < |r.grant| then r.grant[k] else if k == |r.grant| then NUL else r.asset[k - |r.grant| - 1];
    assert |r.grant| == |q.grant|;
    assert r.grant == s[..|r.grant|] == q.grant;
    assert r.asset == s[|r.grant| + 1..] == q.asset;
  }

  // ---- callers in parallel ------------------------------------------------------

  datatype Stage =
    | Sampled
    | Missed
    | Read(verdict: Verdict)
    | Answered(verdict: Verdict)
    | Errored

  /** A call of resolve: the instant it sampled stays with it to the end. */
  datatype Call = Call(request: Request, sampled: int, stage: Stage)

  datatype System = System(now: int, shares: map<Id, Share>, items: map<string, Entry>, calls: seq<Call>)

  /** The two locked sections of a call are steps of their own, and so is its read of the store; or a call may happen
      all at one instant. */
  datatype Step =
    | Wait(d: nat)
    | Issue(id: Id, account: Id, assets: seq<Id>, expires: int)
    | Revoke(id: Id)
    | Begin(r: Request)
    | Look(c: nat)
    | Ask(c: nat, ok: bool)
    | Fill(c: nat)
    | AtOnce(r: Request, ok: bool)

  predicate Enabled(s: System, step: Step) {
    match step
    case Wait(_) => true
    case Issue(id, _, _, _) => id !in s.shares
    case Revoke(id) => id in s.shares
    case Begin(_) => true
    case Look(c) => c < |s.calls| && s.calls[c].stage.Sampled?
    case Ask(c, ok) => c < |s.calls| && s.calls[c].stage.Missed? && (ok ==> Clean(s.calls[c].request))
    case Fill(c) => c < |s.calls| && s.calls[c].stage.Read?
    case AtOnce(r, ok) => ok ==> Clean(r)
  }

  /** What the store says when asked now: an answer, or an error. */
  function Asked(s: System, r: Request, ok: bool): Option<Verdict> {
    if ok then Some(VerdictAt(s.shares, r, s.now)) else None
  }

  /** What a whole call at this instant returns: the fresh entry, or else what the store says. */
  function Returned(s: System, r: Request, ok: bool): Option<Verdict> {
    var hit := LookedUp(s.items, r, s.now);
    if hit.Some? then hit else Asked(s, r, ok)
  }

  function Move(s: System, c: nat, stage: Stage): System
    requires c < |s.calls|
  {
    s.(calls := s.calls[c := s.calls[c].(stage := stage)])
  }

  /** What a step does; each takes an instant of its own. */
  function Effect(ttl: int, s: System, step: Step): System
    requires Enabled(s, step)
  {
    match step
    case Wait(_) => s
    case Issue(id, account, assets, expires) =>
      s.(shares := s.shares[id := Share(account, assets, s.now, expires, None)])
    case Revoke(id) =>
      var row := s.shares[id];
      s.(shares := s.shares[id := if row.revokedAt.Some? then row else row.(revokedAt := Some(s.now))])
    case Begin(r) => s.(calls := s.calls + [Call(r, s.now, Sampled)])
    case Look(c) =>
      var hit := LookedUp(s.items, s.calls[c].request, s.calls[c].sampled);
      Move(s, c, if hit.Some? then Answered(hit.value) else Missed)
    case Ask(c, ok) => Move(s, c, if ok then Read(VerdictAt(s.shares, s.calls[c].request, s.now)) else Errored)
    case Fill(c) =>
      var call := s.calls[c];
      var items := Filled(s.items, call.request, call.stage.verdict, call.sampled, ttl);
      Move(s, c, Answered(call.stage.verdict)).(items := items)
    case AtOnce(r, ok) =>
      var v := Returned(s, r, ok);
      var miss := LookedUp(s.items, r, s.now).None?;
      var items := if miss && v.Some? then Filled(s.items, r, v.value, s.now, ttl) else s.items;
      s.(items := items, calls := s.calls + [Call(r, s.now, if v.Some? then Answered(v.value) else Errored)])
  }

  function Apply(ttl: int, s: System, step: Step): System
    requires Enabled(s, step)
  {
    Effect(ttl, s, step).(now := s.now + 1 + if step.Wait? then step.d else 0)
  }

  predicate Init(s: System) {
    s.shares == map[] && s.items == map[] && s.calls == []
  }

  ghost predicate Legal(ttl: int, s: System, steps: seq<Step>)
    decreases |steps|, 0
  {
    steps == [] ||
    (Legal(ttl, s, steps[..|steps| - 1]) && Enabled(After(ttl, s, steps[..|steps| - 1]), steps[|steps| - 1]))
  }

  ghost function After(ttl: int, s: System, steps: seq<Step>): System
    requires Legal(ttl, s, steps)
    decreases |steps|, 1
  {
    if steps == [] then s
    else Apply(ttl, After(ttl, s, steps[..|steps| - 1]), steps[|steps| - 1])
  }

  // ---- the invariant ---------------------------------------------------------------

  /** Every stamp lies in the past, so no later step changes what the store said before. */
  ghost predicate Stamped(s: System) {
    forall g | g in s.shares ::
      && s.shares[g].created < s.now
      && (s.shares[g].revokedAt.Some? ==> s.shares[g].revokedAt.value < s.now)
  }

  ghost predicate EntryOk(ttl: int, s: System, key: string, e: Entry) {
    exists r :: Clean(r) && CacheKey(r) == key && AnsweredWithin(s.shares, r, e.verdict, e.expires - ttl - 1, s.now)
  }

  ghost predicate CallOk(ttl: int, s: System, call: Call) {
    && call.sampled < s.now
    && match call.stage
       case Read(v) => Clean(call.request) && AnsweredWithin(s.shares, call.request, v, call.sampled, s.now)
       case Answered(v) => AnsweredWithin(s.shares, call.request, v, call.sampled - ttl, s.now)
       case _ => true
  }

  ghost predicate Inv(ttl: int, s: System) {
    && Stamped(s)
    && (forall key | key in s.items :: EntryOk(ttl, s, key, s.items[key]))
    && (forall c | 0 <= c < |s.calls| :: CallOk(ttl, s, s.calls[c]))
  }

  lemma PastIsFixed(ttl: int, s: System, step: Step, r: Request, v: Verdict, lo: int)
    requires Stamped(s) && Enabled(s, step) && AnsweredWithin(s.shares, r, v, lo, s.now)
    ensures AnsweredWithin(Apply(ttl, s, step).shares, r, v, lo, Apply(ttl, s, step).now)
  {
    var instant :| lo < instant < s.now && VerdictAt(s.shares, r, instant) == v;
    assert VerdictAt(Apply(ttl, s, step).shares, r, instant) == v;
  }

  lemma EntryStays(ttl: int, s: System, step: Step, key: string, e: Entry)
    requires Stamped(s) && Enabled(s, step) && EntryOk(ttl, s, key, e)
    ensures EntryOk(ttl, Apply(ttl, s, step), key, e)
  {
    var r :| Clean(r) && CacheKey(r) == key && AnsweredWithin(s.shares, r, e.verdict, e.expires - ttl - 1, s.now);
    PastIsFixed(ttl, s, step, r, e.verdict, e.expires - ttl - 1);
  }

  lemma CallStays(ttl: int, s: System, step: Step, call: Call)
    requires Stamped(s) && Enabled(s, step) && CallOk(ttl, s, call)
    ensures CallOk(ttl, Apply(ttl, s, step), call)
  {
    match call.stage
    case Read(v) => PastIsFixed(ttl, s, step, call.request, v, call.sampled);
    case Answered(v) => PastIsFixed(ttl, s, step, call.request, v, call.sampled - ttl);
    case _ =>
  }

  /** A fresh entry was filled by a call that sampled less than a ttl ago, and read then or later. */
  lemma HitIsRecent(ttl: int, s: System, q: Request, sampled: int)
    requires Inv(ttl, s) && LookedUp(s.items, q, sampled).Some?
    ensures AnsweredWithin(s.shares, q, LookedUp(s.items, q, sampled).value, sampled - ttl, s.now)
  {
    var key := CacheKey(q);
    var e := s.items[key];
    assert EntryOk(ttl, s, key, e);
    var r :| Clean(r) && CacheKey(r) == key && AnsweredWithin(s.shares, r, e.verdict, e.expires - ttl - 1, s.now);
    CacheKeyInjective(r, q);
    WiderWindow(s.shares, q, e.verdict, e.expires - ttl - 1, sampled - ttl, s.now);
  }

  lemma ReadIsNow(s: System, r: Request, lo: int)
    requires lo < s.now
    ensures AnsweredWithin(s.shares, r, VerdictAt(s.shares, r, s.now), lo, s.now + 1)
  {
  }

  lemma WiderWindow(shares: map<Id, Share>, r: Request, v: Verdict, lo: int, lower: int, hi: int)
    requires lower <= lo && AnsweredWithin(shares, r, v, lo, hi)
    ensures AnsweredWithin(shares, r, v, lower, hi)
  {
  }

  lemma ActingCall(ttl: int, s: System, step: Step)
    requires ttl > 0 && Inv(ttl, s) && Enabled(s, step) && (step.Look? || step.Ask? || step.Fill?)
    ensures CallOk(ttl, Apply(ttl, s, step), Apply(ttl, s, step).calls[step.c])
  {
    var call := s.calls[step.c];
    assert CallOk(ttl, s, call);
    match step
    case Look(_) =>
      if LookedUp(s.items, call.request, call.sampled).Some? {
        HitIsRecent(ttl, s, call.request, call.sampled);
        CallStays(ttl, s, step, call.(stage := Answered(LookedUp(s.items, call.request, call.sampled).value)));
      }
    case Ask(_, ok) =>
      ReadIsNow(s, call.request, call.sampled);
    case Fill(_) =>
      WiderWindow(s.shares, call.request, call.stage.verdict, call.sampled, call.sampled - ttl, s.now);
      CallStays(ttl, s, step, call.(stage := Answered(call.stage.verdict)));
  }

  lemma NewEntry(ttl: int, s: System, step: Step)
    requires Inv(ttl, s) && Enabled(s, step) && step.Fill?
    ensures
      var key := CacheKey(s.calls[step.c].request);
      EntryOk(ttl, Apply(ttl, s, step), key, Apply(ttl, s, step).items[key])
  {
    var call := s.calls[step.c];
    assert CallOk(ttl, s, call);
    WiderWindow(s.shares, call.request, call.stage.verdict, call.sampled, call.sampled - 1, s.now);
    PastIsFixed(ttl, s, step, call.request, call.stage.verdict, call.sampled - 1);
  }

  /** A call at one instant is told what the store said within the last ttl, that instant included. */
  lemma ReturnedIsRecent(ttl: int, s: System, r: Request, ok: bool)
    requires ttl > 0 && Inv(ttl, s) && Returned(s, r, ok).Some?
    ensures AnsweredWithin(s.shares, r, Returned(s, r, ok).value, s.now - ttl, s.now + 1)
  {
    if LookedUp(s.items, r, s.now).Some? {
      HitIsRecent(ttl, s, r, s.now);
      LaterEnd(s.shares, r, Returned(s, r, ok).value, s.now - ttl, s.now, s.now + 1);
    } else {
      ReadIsNow(s, r, s.now - ttl);
    }
  }

  lemma LaterEnd(shares: map<Id, Share>, r: Request, v: Verdict, lo: int, hi: int, higher: int)
    requires hi <= higher && AnsweredWithin(shares, r, v, lo, hi)
    ensures AnsweredWithin(shares, r, v, lo, higher)
  {
  }

  lemma AtOnceKeepsInv(ttl: int, s: System, step: Step)
    requires ttl > 0 && Inv(ttl, s) && Enabled(s, step) && step.AtOnce?
    ensures Inv(ttl, Apply(ttl, s, step))
  {
    var s', r := Apply(ttl, s, step), step.r;
    if Returned(s, r, step.ok).Some? { ReturnedIsRecent(ttl, s, r, step.ok); }
    if step.ok { ReadIsNow(s, r, s.now - 1); }
    forall key | key in s'.items ensures EntryOk(ttl, s', key, s'.items[key]) {
      if key in s.items && s'.items[key] == s.items[key] { EntryStays(ttl, s, step, key, s.items[key]); }
    }
    forall c | 0 <= c < |s'.calls| ensures CallOk(ttl, s', s'.calls[c]) {
      if c < |s.calls| { CallStays(ttl, s, step, s.calls[c]); }
    }
  }

  lemma StepKeepsInv(ttl: int, s: System, step: Step)
    requires ttl > 0 && Inv(ttl, s) && Enabled(s, step)
    ensures Inv(ttl, Apply(ttl, s, step))
  {
    if step.AtOnce? {
      AtOnceKeepsInv(ttl, s, step);
      return;
    }
    var s' := Apply(ttl, s, step);
    forall key | key in s'.items ensures EntryOk(ttl, s', key, s'.items[key]) {
      if step.Fill? && key == CacheKey(s.calls[step.c].request) {
        NewEntry(ttl, s, step);
      } else {
        EntryStays(ttl, s, step, key, s.items[key]);
      }
    }
    forall c | 0 <= c < |s'.calls| ensures CallOk(ttl, s', s'.calls[c]) {
      if (step.Look? || step.Ask? || step.Fill?) && c == step.c {
        ActingCall(ttl, s, step);
      } else if c < |s.calls| {
        CallStays(ttl, s, step, s.calls[c]);
      }
    }
  }

  lemma {:induction false} RunKeepsInv(ttl: int, s: System, steps: seq<Step>)
    requires ttl > 0 && Init(s) && Legal(ttl, s, steps)
    ensures Inv(ttl, After(ttl, s, steps))
  {
    if steps != [] {
      RunKeepsInv(ttl, s, steps[..|steps| - 1]);
      StepKeepsInv(ttl, After(ttl, s, steps[..|steps| - 1]), steps[|steps| - 1]);
    }
  }

  // ---- what callers are told -------------------------------------------------------------

  /** Whatever calls interleave, even one whose slow read overwrites a newer entry: a call that sampled `n` is told
      what the store said at some instant after `n - ttl`. */
  lemma CacheAgreesWithStore(ttl: int, s: System, steps: seq<Step>, c: nat)
    requires ttl > 0 && Init(s) && Legal(ttl, s, steps)
    requires c < |After(ttl, s, steps).calls| && After(ttl, s, steps).calls[c].stage.Answered?
    ensures
      var end, call := After(ttl, s, steps), After(ttl, s, steps).calls[c];
      AnsweredWithin(end.shares, call.request, call.stage.verdict, call.sampled - ttl, end.now)
  {
    RunKeepsInv(ttl, s, steps);
    assert CallOk(ttl, After(ttl, s, steps), After(ttl, s, steps).calls[c]);
  }

  /** Asked once, the store is not asked again for a ttl: until then the first answer is returned, store or no
      store, and from then on it is forgotten. */
  lemma AnswerLastsOneTtl(ttl: int, s: System, r: Request, d: nat)
    requires ttl > 0 && Clean(r) && LookedUp(s.items, r, s.now).None?
    ensures
      var filled := Apply(ttl, s, AtOnce(r, true));
      var later := Apply(ttl, filled, Wait(d));
      && Returned(s, r, true) == Some(VerdictAt(s.shares, r, s.now))
      && later.now == s.now + 2 + d
      && Returned(later, r, false) ==
         if later.now < s.now + ttl then Some(VerdictAt(s.shares, r, s.now)) else None
  {
  }

  /** Revocation and expiry are permanent: once either is a full ttl old, no answer is live. */
  lemma DeadIsNotLive(shares: map<Id, Share>, r: Request, v: Verdict, lo: int, hi: int)
    requires AnsweredWithin(shares, r, v, lo, hi)
    requires r.grant in shares
    requires shares[r.grant].expires <= lo + 1
          || (shares[r.grant].revokedAt.Some? && shares[r.grant].revokedAt.value <= lo + 1)
    ensures !Live(v)
  {
  }

  lemma RevokedWithinOneTtl(ttl: int, s: System, steps: seq<Step>, c: nat, g: Id)
    requires ttl > 0 && Init(s) && Legal(ttl, s, steps)
    requires
      var end := After(ttl, s, steps);
      && c < |end.calls| && end.calls[c].stage.Answered? && end.calls[c].request.grant == g && g in end.shares
      && (|| (end.shares[g].revokedAt.Some? && end.shares[g].revokedAt.value + ttl <= end.calls[c].sampled)
          || end.shares[g].expires + ttl <= end.calls[c].sampled)
    ensures !Live(After(ttl, s, steps).calls[c].stage.verdict)
  {
    CacheAgreesWithStore(ttl, s, steps, c);
    var end := After(ttl, s, steps);
    DeadIsNotLive(end.shares, end.calls[c].request, end.calls[c].stage.verdict, end.calls[c].sampled - ttl, end.now);
  }

  // ---- the window is real --------------------------------------------------------------------

  const ASKED := Request("g", "a")
  const GRANTED := Verdict(true, true, false, false, "acct")

  function DemoRow(expires: int, revokedAt: Option<int>): Share {
    Share("acct", ["a"], 0, expires, revokedAt)
  }

  /** One visitor fills the cache, the owner revokes, a second visitor comes within the ttl. */
  function DemoTrace(ttl: int, n: nat): (System, Step)
    requires n <= 8 && ttl >= 7
  {
    var full := map[CacheKey(ASKED) := Entry(GRANTED, 1 + ttl)];
    var row, dead := map["g" := DemoRow(9 + ttl, None)], map["g" := DemoRow(9 + ttl, Some(5))];
    var first := Call(ASKED, 1, Answered(GRANTED));
    match n
    case 0 => (System(0, map[], map[], []), Issue("g", "acct", ["a"], 9 + ttl))
    case 1 => (System(1, row, map[], []), Begin(ASKED))
    case 2 => (System(2, row, map[], [Call(ASKED, 1, Sampled)]), Look(0))
    case 3 => (System(3, row, map[], [Call(ASKED, 1, Missed)]), Ask(0, true))
    case 4 => (System(4, row, map[], [Call(ASKED, 1, Read(GRANTED))]), Fill(0))
    case 5 => (System(5, row, full, [first]), Revoke("g"))
    case 6 => (System(6, dead, full, [first]), Wait(ttl - 7))
    case 7 => (System(ttl, dead, full, [first]), Begin(ASKED))
    case 8 => (System(ttl + 1, dead, full, [first, Call(ASKED, ttl, Sampled)]), Look(1))
  }

  lemma DemoStep(ttl: int, n: nat)
    requires n < 8 && ttl >= 7
    ensures Enabled(DemoTrace(ttl, n).0, DemoTrace(ttl, n).1)
    ensures Apply(ttl, DemoTrace(ttl, n).0, DemoTrace(ttl, n).1) == DemoTrace(ttl, n + 1).0
  {
  }

  lemma {:induction false} DemoRun(ttl: int, n: nat) returns (steps: seq<Step>)
    requires n <= 8 && ttl >= 7
    ensures Legal(ttl, DemoTrace(ttl, 0).0, steps) && After(ttl, DemoTrace(ttl, 0).0, steps) == DemoTrace(ttl, n).0
  {
    steps := [];
    if n > 0 {
      var before := DemoRun(ttl, n - 1);
      DemoStep(ttl, n - 1);
      steps := before + [DemoTrace(ttl, n - 1).1];
      assert steps[..|steps| - 1] == before;
    }
  }

  /** Revocation is not instant: for every ttl of seven instants or more, the length of the run, some run tells a late
      visitor the dead grant is live. */
  lemma RevocationIsNotInstant(ttl: int) returns (s: System, steps: seq<Step>)
    requires ttl >= 7
    ensures Init(s) && Legal(ttl, s, steps)
    ensures
      var end := After(ttl, s, steps);
      && "g" in end.shares && end.shares["g"].revokedAt == Some(5)
      && |end.calls| == 2 && end.calls[1].sampled == ttl
      && end.calls[1].stage == Answered(GRANTED) && Live(GRANTED)
  {
    s := DemoTrace(ttl, 0).0;
    var before := DemoRun(ttl, 8);
    steps := before + [Look(1)];
    assert steps[..|steps| - 1] == before;
  }
}
