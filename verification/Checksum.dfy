/** Server-side SHA-256 of every vault object: the statements, and one pass of the sweep. */
module Checksum {
  import opened Collections
  import opened Contract
  import opened Records
  import opened Ordering
  import opened Text

  const CHECKSUM_PREFIX := "sha256:"
  const CHECKSUM_LENGTH := 71

  /** The row vouches for a SHA-256 the service computed itself. */
  predicate VerifiedSha(row: Asset) {
    row.checksumVerified && HasPrefix(row.checksum, CHECKSUM_PREFIX)
  }

  predicate PendingSum(row: Asset) {
    row.deletedAt.None? && !VerifiedSha(row)
  }

  /** A derive job about to download the bytes will hash them itself. */
  predicate DeriveUnderway(jobs: map<Id, Job>, a: Id) {
    exists j :: j in jobs && jobs[j].asset == a && jobs[j].mode == Derive && !Terminal(jobs[j].status)
  }

  predicate Claimable(t: Tables, a: Id, retryBefore: int) {
    && a in t.assets && PendingSum(t.assets[a])
    && (t.assets[a].checkedAt.None? || t.assets[a].checkedAt.value < retryBefore)
    && !DeriveUnderway(t.jobs, a)
  }

  /** Never tried first, then longest ago; among those the newest asset, then the smallest id. */
  predicate Sooner(assets: map<Id, Asset>, a: Id, b: Id)
    requires a in assets && b in assets
  {
    var x, y := assets[a], assets[b];
    if x.checkedAt.None? != y.checkedAt.None? then x.checkedAt.None?
    else if x.checkedAt.Some? && x.checkedAt.value != y.checkedAt.value then x.checkedAt.value < y.checkedAt.value
    else if x.created != y.created then x.created > y.created
    else Before(a, b)
  }

  /** `a` is the first claimable row nobody else holds locked. */
  predicate IsCandidate(t: Tables, a: Id, retryBefore: int, locked: set<Id>) {
    && Claimable(t, a, retryBefore) && a !in locked
    && forall b | b in t.assets && b !in locked && Claimable(t, b, retryBefore) :: b == a || Sooner(t.assets, a, b)
  }

  function CheckedAt(t: Tables, a: Id, at: Option<int>): Tables {
    if a !in t.assets then t else t.(assets := t.assets[a := t.assets[a].(checkedAt := at)])
  }

  datatype MarkAnswer = Recorded | Mismatch | BadFormat

  predicate WellFormed(sum: string) {
    |sum| == CHECKSUM_LENGTH && HasPrefix(sum, CHECKSUM_PREFIX)
  }

  /** A different verified SHA-256 is never overwritten; a purged asset is nobody's error. */
  function Marked(t: Tables, a: Id, sum: string): (MarkAnswer, Tables) {
    if !WellFormed(sum) then (BadFormat, t)
    else if a !in t.assets then (Recorded, t)
    else if VerifiedSha(t.assets[a]) && t.assets[a].checksum != sum then (Mismatch, t)
    else (Recorded, t.(assets := t.assets[a := t.assets[a].(checksum := sum, checksumVerified := true)]))
  }

  // ---- the backlog ----------------------------------------------------------

  datatype Backlog = Backlog(live: nat, verified: nat, pending: nat, attempted: nat)

  function LiveRows(assets: map<Id, Asset>): set<Id> {
    set a | a in assets && assets[a].deletedAt.None?
  }

  function PendingRows(assets: map<Id, Asset>): set<Id> {
    set a | a in assets && PendingSum(assets[a])
  }

  function VerifiedRows(assets: map<Id, Asset>): set<Id> {
    set a | a in assets && assets[a].deletedAt.None? && !PendingSum(assets[a])
  }

  function AttemptedRows(assets: map<Id, Asset>): set<Id> {
    set a | a in assets && PendingSum(assets[a]) && assets[a].checkedAt.Some?
  }

  function BacklogOf(assets: map<Id, Asset>): Backlog {
    Backlog(|LiveRows(assets)|, |VerifiedRows(assets)|, |PendingRows(assets)|, |AttemptedRows(assets)|)
  }

  /** The report adds up, counts as verified exactly the rows that vouch for a SHA-256, and is done exactly when
      every live row does. */
  lemma BacklogAddsUp(assets: map<Id, Asset>)
    ensures var b := BacklogOf(assets); b.live == b.verified + b.pending && b.attempted <= b.pending
    ensures BacklogOf(assets).verified == |set a | a in assets && assets[a].deletedAt.None? && VerifiedSha(assets[a])|
    ensures BacklogOf(assets).attempted
         == |set a | a in assets && assets[a].deletedAt.None? && !VerifiedSha(assets[a]) && assets[a].checkedAt != None|
    ensures BacklogOf(assets).verified == BacklogOf(assets).live
       <==> forall a | a in assets && assets[a].deletedAt.None? :: VerifiedSha(assets[a])
  {
    assert LiveRows(assets) == VerifiedRows(assets) + PendingRows(assets);
    assert VerifiedRows(assets) !! PendingRows(assets);
    assert AttemptedRows(assets)
        == set a | a in assets && assets[a].deletedAt.None? && !VerifiedSha(assets[a]) && assets[a].checkedAt != None;
    SubsetSize(AttemptedRows(assets), PendingRows(assets));
    assert VerifiedRows(assets) == set a | a in assets && assets[a].deletedAt.None? && VerifiedSha(assets[a]);
    if BacklogOf(assets).pending == 0 {
      assert PendingRows(assets) == {};
      assert forall a | a in assets && assets[a].deletedAt.None? :: a !in PendingRows(assets);
    }
    if forall a | a in assets && assets[a].deletedAt.None? :: VerifiedSha(assets[a]) {
      assert PendingRows(assets) == {};
    }
  }

  // ---- a first candidate always exists -------------------------------------------

  lemma SoonerTotal(assets: map<Id, Asset>, a: Id, b: Id)
    requires a in assets && b in assets
    ensures a == b || Sooner(assets, a, b) || Sooner(assets, b, a)
  {
    BeforeTotal(a, b);
  }

  lemma SoonerTransitive(assets: map<Id, Asset>, a: Id, b: Id, d: Id)
    requires a in assets && b in assets && d in assets && Sooner(assets, a, b) && Sooner(assets, b, d)
    ensures Sooner(assets, a, d)
  {
    if Before(a, b) && Before(b, d) {
      BeforeTransitive(a, b, d);
    }
  }

  lemma {:induction false} SoonestOf(assets: map<Id, Asset>, some: set<Id>) returns (a: Id)
    requires some != {} && some <= assets.Keys
    ensures a in some && forall b | b in some :: b == a || Sooner(assets, a, b)
    decreases some
  {
    a :| a in some;
    if some != {a} {
      var d := SoonestOf(assets, some - {a});
      SoonerTotal(assets, a, d);
      if Sooner(assets, a, d) {
        forall b | b in some ensures b == a || Sooner(assets, a, b) {
          if b != a && b != d { SoonerTransitive(assets, a, d, b); }
        }
      } else {
        a := d;
      }
    }
  }

  lemma CandidateExists(t: Tables, retryBefore: int, locked: set<Id>)
    requires exists a :: a in t.assets && a !in locked && Claimable(t, a, retryBefore)
    ensures exists a :: a in t.assets && IsCandidate(t, a, retryBefore, locked)
  {
    var some := set a | a in t.assets && a !in locked && Claimable(t, a, retryBefore);
    var a :| a in t.assets && a !in locked && Claimable(t, a, retryBefore);
    assert a in some;
    var first := SoonestOf(t.assets, some);
  }

  /** What may be hashed: a live asset that vouches for no SHA-256, not tried since the given time, whose bytes no
      derive job is about to read. */
  lemma ClaimableIff(t: Tables, a: Id, retryBefore: int)
    ensures Claimable(t, a, retryBefore) <==>
      && a in t.assets && t.assets[a].deletedAt == None
      && !(t.assets[a].checksumVerified && "sha256:" <= t.assets[a].checksum)
      && (t.assets[a].checkedAt == None || t.assets[a].checkedAt.value + 1 <= retryBefore)
      && forall j | j in t.jobs && t.jobs[j].asset == a ::
           t.jobs[j].mode == Remux || t.jobs[j].status in {Succeeded, Failed}
  {
  }

  /** What is hashed first: an asset never tried before any other; then the one whose last try is longest ago; of
      those the newest asset, and of those the least id. */
  lemma HashedFirst(t: Tables, a: Id, retryBefore: int, locked: set<Id>, b: Id)
    requires IsCandidate(t, a, retryBefore, locked) && b !in locked && b != a && Claimable(t, b, retryBefore)
    ensures t.assets[b].checkedAt.None? ==> t.assets[a].checkedAt.None?
    ensures t.assets[a].checkedAt.Some? ==> t.assets[a].checkedAt.value <= t.assets[b].checkedAt.value
    ensures t.assets[a].checkedAt == t.assets[b].checkedAt ==> t.assets[a].created >= t.assets[b].created
    ensures t.assets[a].checkedAt == t.assets[b].checkedAt && t.assets[a].created == t.assets[b].created ==>
              Before(a, b)
  {
    assert Sooner(t.assets, a, b);
  }

  predicate Sha256Text(sum: string) {
    |sum| == 71 && sum[..7] == "sha256:"
  }

  /** The first digest stands: it takes the place of none or of an MD5, is recorded again without effect, and
      refuses every other; text that is no digest is never recorded, and marking a purged asset does nothing. */
  lemma FirstDigestStands(t: Tables, a: Id, sum: string, other: string)
    requires Sha256Text(sum) && other != sum
    requires a in t.assets ==> !(t.assets[a].checksumVerified && "sha256:" <= t.assets[a].checksum)
    ensures
      var (answer, t') := Marked(t, a, sum);
      && answer == Recorded
      && t' == (if a in t.assets
                then t.(assets := t.assets[a := t.assets[a].(checksum := sum, checksumVerified := true)]) else t)
      && Marked(t', a, sum) == (Recorded, t')
      && Marked(t', a, other) ==
         if !Sha256Text(other) then (BadFormat, t') else if a in t.assets then (Mismatch, t') else (Recorded, t')
  {
    var (answer, t') := Marked(t, a, sum);
    assert sum == "sha256:" + sum[7..];
    if a in t.assets { assert t'.assets[a := t'.assets[a]] == t'.assets; }
    assert Sha256Text(other) <==> WellFormed(other);
  }

  // ---- one pass -----------------------------------------------------------------------

  /** What surrounds one round: the pass cancelled before it, or a statement of it failing. */
  datatype Pulse = Pulse(cancelled: bool, claimFails: bool, releaseFails: bool, markFails: bool)

  /** One read through the hash: the digest, the bytes read, whether it got to the end, whether the pass was
      cancelled. */
  datatype Read = Read(sum: string, n: nat, ok: bool, cancelled: bool)

  datatype PassResult = PassResult(hashed: nat, failed: nat, mismatched: nat, bytes: nat)

  datatype PassEnd = Drained | LimitReached | Cancelled | StoreFailed

  /** The clock never runs back and the whole pass is shorter than the back-off. */
  ghost predicate ShortPass(clock: nat -> int, retryAfter: int) {
    forall i: nat, j: nat | i <= j :: clock(i) <= clock(j) <= clock(i) + retryAfter
  }

  /** Nothing is cancelled, no statement fails, and every object reads whole. */
  ghost predicate FaultFree(assets: map<Id, Asset>, pulse: nat -> Pulse, read: (nat, string) -> Read) {
    && (forall k: nat :: pulse(k) == Pulse(false, false, false, false))
    && forall k: nat, a | a in assets ::
         var r := read(k, assets[a].vaultKey);
         r.ok && r.n == assets[a].vaultSize && WellFormed(r.sum)
  }

  /** Everything of a row but its checksum columns. */
  function Core(row: Asset): Asset {
    row.(checksum := "", checksumVerified := false, checkedAt := None)
  }

  /** Only checksum columns changed, and only of claimed rows. */
  ghost predicate OnlyClaimed(t0: Tables, t: Tables, claims: seq<Id>) {
    && t.jobs == t0.jobs && t.renditions == t0.renditions && t.assets.Keys == t0.assets.Keys
    && forall a | a in t.assets ::
         Core(t.assets[a]) == Core(t0.assets[a]) && (a in claims || t.assets[a] == t0.assets[a])
  }

  const DEFAULT_RETRY_AFTER_S := 6 * 3600

  class Checksummer {
    const retryAfter: int
    var t: Tables

    constructor (t: Tables, retryAfter: int)
      ensures this.t == t && this.retryAfter == if retryAfter > 0 then retryAfter else 21_600
    {
      this.t := t;
      this.retryAfter := if retryAfter <= 0 then DEFAULT_RETRY_AFTER_S else retryAfter;
    }

    method Claim(retryBefore: int, now: int, locked: set<Id>) returns (r: Option<Id>)
      modifies this`t
      ensures r.None? <==> forall a | a in old(t).assets && a !in locked :: !Claimable(old(t), a, retryBefore)
      ensures r.None? ==> t == old(t)
      ensures r.Some? ==> IsCandidate(old(t), r.value, retryBefore, locked)
      ensures r.Some? ==> t == CheckedAt(old(t), r.value, Some(now))
    {
      if forall a | a in t.assets && a !in locked :: !Claimable(t, a, retryBefore) {
        return None;
      }
      CandidateExists(t, retryBefore, locked);
      var a :| a in t.assets && IsCandidate(t, a, retryBefore, locked);
      t := t.(assets := t.assets[a := t.assets[a].(checkedAt := Some(now))]);
      return Some(a);
    }

    method Release(a: Id)
      modifies this`t
      ensures t == CheckedAt(old(t), a, None)
    {
      if a in t.assets {
        t := t.(assets := t.assets[a := t.assets[a].(checkedAt := None)]);
      }
    }

    method MarkVerified(a: Id, sum: string) returns (answer: MarkAnswer)
      modifies this`t
      ensures (answer, t) == Marked(old(t), a, sum)
    {
      if |sum| != CHECKSUM_LENGTH || !HasPrefix(sum, CHECKSUM_PREFIX) {
        return BadFormat;
      }
      if a !in t.assets {
        return Recorded;
      }
      if VerifiedSha(t.assets[a]) && t.assets[a].checksum != sum {
        return Mismatch;
      }
      t := t.(assets := t.assets[a := t.assets[a].(checksum := sum, checksumVerified := true)]);
      return Recorded;
    }

    /** The claimed object has been read: record its digest, or say why not. */
    method Settle(a: Id, r: Read, p: Pulse) returns (end: RoundEnd)
      requires a in t.assets
      modifies this`t
      ensures (t, end) == Settled(old(t), a, r, p)
    {
      if !r.ok || r.n != t.assets[a].vaultSize {
        if r.cancelled {
          if !p.releaseFails {
            Release(a);
          }
          return Halted(Cancelled);
        }
        return Unreadable;
      }
      if p.markFails {
        return Halted(StoreFailed);
      }
      var answer := MarkVerified(a, r.sum);
      match answer {
        case Mismatch => return Differs;
        case BadFormat => return Halted(StoreFailed);
        case Recorded => return Hashed;
      }
    }

    /** One round: claim a first candidate, read it, settle it; nothing if none is claimable. */
    method Round(now: int, p: Pulse, read: string -> Read) returns (r: Option<(Id, Read, RoundEnd)>)
      modifies this`t
      ensures r.None? ==> NoneClaimable(old(t), now - retryAfter) && t == old(t)
      ensures r.Some? ==> Claimable(old(t), r.value.0, now - retryAfter)
      ensures r.Some? ==> r.value.1 == read(old(t).assets[r.value.0].vaultKey)
      ensures r.Some? ==> RoundOk(old(t), t, r.value.0, now, r.value.1, p, r.value.2)
    {
      ghost var before := t;
      var cand := Claim(now - retryAfter, now, {});
      if cand.None? {
        return None;
      }
      var got := read(t.assets[cand.value].vaultKey);
      var end := Settle(cand.value, got, p);
      RoundTouchesOneRow(before, cand.value, now, got, p);
      return Some((cand.value, got, end));
    }

    /** Claim and hash one object at a time. A pass with the tables to itself claims no asset twice, claims only what
        was pending, never meets a mismatch, and when it drains leaves nothing claimable; with no faults every asset
        claimable at its start ends verified. */
    method RunPass(max: int, clock: nat -> int, pulse: nat -> Pulse, read: (nat, string) -> Read)
      returns (res: PassResult, end: PassEnd, ghost claims: seq<Id>)
      requires retryAfter > 0 && ShortPass(clock, retryAfter)
      modifies this`t
      ensures Sound(old(t), t, claims) && Tallied(t, claims, res, end)
      ensures end.LimitReached? ==> max > 0 && |claims| == max
      ensures max > 0 ==> |claims| <= max
      ensures end.Drained? ==> NoneClaimable(t, clock(|claims|) - retryAfter)
      ensures FaultFree(old(t).assets, pulse, read) ==> (end.Drained? || end.LimitReached?) && AllVerified(t, claims)
      ensures FaultFree(old(t).assets, pulse, read) && end.Drained? ==>
                AllClaimed(old(t), claims, clock(0) - retryAfter)
    {
      ghost var t0, clean := t, FaultFree(t.assets, pulse, read);
      res, end, claims := PassResult(0, 0, 0, 0), LimitReached, [];
      var k: nat := 0;
      while max <= 0 || k < max
        invariant k == |claims| && (max > 0 ==> k <= max)
        invariant end.LimitReached? && PassOk(t0, t, claims, res, clock(0), clean)
        decreases t0.assets.Keys - Members(claims)
      {
        var p := pulse(k);
        if p.cancelled || p.claimFails {
          end := if p.cancelled then Cancelled else StoreFailed;
          break;
        }
        ghost var before := t;
        var round := Round(clock(k), p, key => read(k, key));
        if round.None? {
          assert clean ==> AllClaimed(t0, claims, clock(0) - retryAfter) by {
            DrainedLeavesNone(t0, t, claims, clock(0) - retryAfter, clock(k) - retryAfter);
          }
          end := Drained;
          break;
        }
        var (a, r, outcome) := round.value;
        assert Advanced(t0, t, claims, res, clock(0), clean, a, r, outcome)
            && a in t0.assets.Keys - Members(claims) && Members(claims + [a]) == Members(claims) + {a} by {
          FreshClaim(t0, before, claims, a, clock(k) - retryAfter, clock(0));
          RoundKeepsPass(t0, before, t, claims, res, clock(0), clean, a, clock(k), r, p, outcome);
        }
        claims := claims + [a];
        if outcome.Halted? {
          res, end := res.(bytes := res.bytes + r.n), outcome.why;
          break;
        }
        res := Counted(res, r, outcome);
        k := k + 1;
      }
    }
  }

  datatype RoundEnd = Unreadable | Differs | Hashed | Halted(why: PassEnd)

  function Settled(t: Tables, a: Id, r: Read, p: Pulse): (Tables, RoundEnd)
    requires a in t.assets
  {
    if !r.ok || r.n != t.assets[a].vaultSize then
      if r.cancelled then (if p.releaseFails then t else CheckedAt(t, a, None), Halted(Cancelled)) else (t, Unreadable)
    else if p.markFails then (t, Halted(StoreFailed))
    else
      var (answer, t') := Marked(t, a, r.sum);
      (t', match answer case Mismatch => Differs case BadFormat => Halted(StoreFailed) case Recorded => Hashed)
  }

  function Counted(res: PassResult, r: Read, round: RoundEnd): PassResult {
    var read := res.(bytes := res.bytes + r.n);
    match round
    case Halted(_) => read
    case Unreadable => read.(failed := res.failed + 1)
    case Differs => read.(mismatched := res.mismatched + 1)
    case Hashed => read.(hashed := res.hashed + 1)
  }

  ghost predicate AllVerified(t: Tables, claims: seq<Id>) {
    forall a | a in claims :: a in t.assets && VerifiedSha(t.assets[a])
  }

  function VerifiedOf(t: Tables, claims: seq<Id>): set<Id> {
    set a | a in claims && a in t.assets && VerifiedSha(t.assets[a])
  }

  /** Everything claimable at this point has been claimed. */
  ghost predicate AllClaimed(t: Tables, claims: seq<Id>, retryBefore: int) {
    forall a | a in t.assets && Claimable(t, a, retryBefore) :: a in claims
  }

  /** One round later: all is as it should be, or the pass stops for a reason it names. */
  ghost predicate Advanced(t0: Tables, t: Tables, claims: seq<Id>, res: PassResult, start: int, clean: bool,
                           a: Id, r: Read, round: RoundEnd) {
    if round.Halted? then
      && Sound(t0, t, claims + [a]) && !clean && |VerifiedOf(t, claims + [a])| == res.hashed
      && !round.why.Drained? && !round.why.LimitReached?
    else PassOk(t0, t, claims + [a], Counted(res, r, round), start, clean)
  }

  /** Claims once stamped stay stamped: none is older than the pass. */
  ghost predicate StampedSince(t: Tables, claims: seq<Id>, start: int) {
    forall a | a in claims :: a in t.assets && t.assets[a].checkedAt.Some? && t.assets[a].checkedAt.value >= start
  }

  predicate NoneClaimable(t: Tables, retryBefore: int) {
    forall a | a in t.assets :: !Claimable(t, a, retryBefore)
  }

  /** The counters: no mismatch, as many hashed as claimed rows now vouch for a SHA-256, the rest failed, but for the
      one in flight when a pass is cut short. */
  ghost predicate Tallied(t: Tables, claims: seq<Id>, res: PassResult, end: PassEnd) {
    && res.mismatched == 0 && res.hashed == |VerifiedOf(t, claims)|
    && res.hashed + res.failed <= |claims| <= res.hashed + res.failed + 1
    && (end.Drained? || end.LimitReached? ==> |claims| == res.hashed + res.failed)
  }

  /** No claim is repeated, each was of a row pending at the start, and only checksum columns of claimed rows
      changed. */
  ghost predicate Sound(t0: Tables, t: Tables, claims: seq<Id>) {
    && Distinct(claims) && (forall a | a in claims :: a in t0.assets && PendingSum(t0.assets[a]))
    && OnlyClaimed(t0, t, claims)
  }

  ghost predicate PassOk(t0: Tables, t: Tables, claims: seq<Id>, res: PassResult, start: int, clean: bool) {
    && Sound(t0, t, claims) && StampedSince(t, claims, start)
    && res.mismatched == 0 && res.hashed + res.failed == |claims| && res.hashed == |VerifiedOf(t, claims)|
    && (clean ==> res.failed == 0 && AllVerified(t, claims))
  }

  predicate CleanRead(row: Asset, r: Read, p: Pulse) {
    p == Pulse(false, false, false, false) && r.ok && r.n == row.vaultSize && WellFormed(r.sum)
  }

  /** Only this row changed, and only its checksum columns. */
  ghost predicate OnlyRow(t: Tables, t': Tables, a: Id) {
    && t'.jobs == t.jobs && t'.renditions == t.renditions && t'.assets.Keys == t.assets.Keys
    && forall b | b in t.assets ::
         if b == a then Core(t'.assets[b]) == Core(t.assets[b]) else t'.assets[b] == t.assets[b]
  }

  /** What one round may do to the row it claimed, and how it may end. */
  ghost predicate RoundOk(t: Tables, t': Tables, a: Id, now: int, r: Read, p: Pulse, round: RoundEnd)
    requires a in t.assets
  {
    && OnlyRow(t, t', a) && !round.Differs?
    && (round.Hashed? <==> VerifiedSha(t'.assets[a]))
    && (!round.Hashed? ==> !CleanRead(t.assets[a], r, p))
    && (round.Halted? ==> !round.why.Drained? && !round.why.LimitReached?)
    && (!round.Halted? ==> t'.assets[a].checkedAt == Some(now))
  }

  lemma RoundTouchesOneRow(t: Tables, a: Id, now: int, r: Read, p: Pulse)
    requires a in t.assets && PendingSum(t.assets[a])
    ensures
      var (t', round) := Settled(CheckedAt(t, a, Some(now)), a, r, p);
      RoundOk(t, t', a, now, r, p, round)
  {
  }

  lemma OneMoreClaim(t0: Tables, t: Tables, t': Tables, claims: seq<Id>, a: Id)
    requires Sound(t0, t, claims) && a !in claims && OnlyRow(t, t', a)
    requires a in t0.assets && PendingSum(t0.assets[a])
    ensures Sound(t0, t', claims + [a])
  {
    assert forall b :: b in claims + [a] <==> b in claims || b == a;
  }

  lemma RoundKeepsPass(t0: Tables, t: Tables, t': Tables, claims: seq<Id>, res: PassResult, start: int, clean: bool,
                       a: Id, now: int, r: Read, p: Pulse, round: RoundEnd)
    requires PassOk(t0, t, claims, res, start, clean) && start <= now
    requires a in t.assets && a !in claims && PendingSum(t0.assets[a]) && t.assets[a] == t0.assets[a]
    requires RoundOk(t, t', a, now, r, p, round)
    requires clean ==> CleanRead(t.assets[a], r, p)
    ensures Advanced(t0, t', claims, res, start, clean, a, r, round)
  {
    OneMoreClaim(t0, t, t', claims, a);
    OneMoreRow(t, t', claims, a);
    if !round.Halted? {
      StillStamped(t, t', claims, a, start);
      if clean { StillVerified(t, t', claims, a); }
    }
  }

  lemma OneMoreRow(t: Tables, t': Tables, claims: seq<Id>, a: Id)
    requires OnlyRow(t, t', a) && a !in claims && a in t.assets
    ensures VerifiedOf(t', claims + [a]) == VerifiedOf(t, claims) + (if VerifiedSha(t'.assets[a]) then {a} else {})
    ensures a !in VerifiedOf(t, claims)
  {
  }

  lemma StillStamped(t: Tables, t': Tables, claims: seq<Id>, a: Id, start: int)
    requires StampedSince(t, claims, start) && OnlyRow(t, t', a) && a !in claims
    requires a in t'.assets && t'.assets[a].checkedAt.Some? && t'.assets[a].checkedAt.value >= start
    ensures StampedSince(t', claims + [a], start)
  {
  }

  lemma StillVerified(t: Tables, t': Tables, claims: seq<Id>, a: Id)
    requires AllVerified(t, claims) && OnlyRow(t, t', a) && a !in claims && a in t'.assets && VerifiedSha(t'.assets[a])
    ensures AllVerified(t', claims + [a])
  {
  }

  /** Nothing this pass has claimed is claimable again before the back-off has passed. */
  lemma FreshClaim(t0: Tables, t: Tables, claims: seq<Id>, a: Id, retryBefore: int, start: int)
    requires OnlyClaimed(t0, t, claims) && Claimable(t, a, retryBefore) && retryBefore <= start
    requires StampedSince(t, claims, start)
    ensures a !in claims && a in t0.assets && PendingSum(t0.assets[a]) && t.assets[a] == t0.assets[a]
    ensures Members(claims + [a]) == Members(claims) + {a}
  {
  }

  lemma DrainedLeavesNone(t0: Tables, t: Tables, claims: seq<Id>, early: int, late: int)
    requires OnlyClaimed(t0, t, claims) && early <= late
    requires NoneClaimable(t, late)
    ensures AllClaimed(t0, claims, early)
  {
    assert forall a | a in t0.assets :: a in claims || t.assets[a] == t0.assets[a];
  }
}
