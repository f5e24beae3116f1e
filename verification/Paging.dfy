/** Following the cursor: what a client that turns page after page gets to see. */
module Paging {
  import opened Collections
  import opened Contract
  import opened Ordering
  import opened AssetStore

  /** One page request: the account's ids at that moment, and the page length asked for. */
  datatype Visit = Visit(ids: set<Id>, n: nat)

  datatype Walk = Walk(items: seq<Id>, done: bool)

  /** Ids are never empty strings, and a page holds something. */
  predicate Sensible(visits: seq<Visit>) {
    forall k | 0 <= k < |visits| :: visits[k].n > 0 && "" !in visits[k].ids
  }

  /** Turn pages until one comes without a next cursor, or the visits run out. */
  function Turn(visits: seq<Visit>, cursor: Id): Walk
    requires Sensible(visits)
  {
    if visits == [] then Walk([], false)
    else
      var page := PageOf(visits[0].ids, cursor, visits[0].n);
      if page.next.None? then Walk(page.items, true)
      else
        var rest := Turn(visits[1..], page.next.value);
        Walk(page.items + rest.items, rest.done)
  }

  /** A page holds the first ids beyond its cursor; a next cursor is the last of them, and cuts nothing off. */
  lemma PageSplits(ids: set<Id>, cursor: Id, n: nat)
    requires n > 0 && "" !in ids
    ensures
      var page := PageOf(ids, cursor, n);
      && Increasing(page.items)
      && (page.next.None? ==> page.items == Sorted(Beyond(ids, cursor)))
      && (page.next.Some? ==>
            && page.next.value in Beyond(ids, cursor) && page.next.value != ""
            && forall x :: x in page.items <==> x in Beyond(ids, cursor) && !Before(page.next.value, x))
  {
    var all, page := Sorted(Beyond(ids, cursor)), PageOf(ids, cursor, n);
    if |all| > n {
      var c := all[n - 1];
      assert page.items == all[..n] && page.next == Some(c) && c in all;
      forall x ensures x in all[..n] <==> x in all && !Before(c, x) {
        CutAt(all, n, x);
      }
    }
  }

  lemma CutAt(all: seq<Id>, n: nat, x: Id)
    requires Increasing(all) && 0 < n <= |all|
    ensures x in all[..n] <==> x in all && !Before(all[n - 1], x)
  {
    if x in all {
      var k :| 0 <= k < |all| && all[k] == x;
      BeforeIrreflexive(x);
      if k < n - 1 {
        if Before(all[n - 1], x) { BeforeTransitive(x, all[n - 1], x); }
        assert all[..n][k] == x;
      } else if k == n - 1 {
        assert all[..n][k] == x;
      } else {
        assert forall j | 0 <= j < n :: Before(all[j], all[k]) && all[j] != x;
      }
    }
  }

  lemma BeyondBeyond(ids: set<Id>, cursor: Id, next: Id)
    requires next in Beyond(ids, cursor) && next != ""
    ensures forall later: set<Id>, x :: x in Beyond(later, next) ==> x in Beyond(later, cursor)
  {
    forall later: set<Id>, x | x in Beyond(later, next) ensures x in Beyond(later, cursor) {
      if cursor != "" { BeforeTransitive(cursor, next, x); }
    }
  }

  /** Whatever is inserted or purged between pages, the ids come in strictly increasing order, each was there when
      its page was read, and one that is there at every page of a finished walk is seen. */
  lemma {:induction false} WalkIsFaithful(visits: seq<Visit>, cursor: Id)
    requires Sensible(visits)
    ensures Increasing(Turn(visits, cursor).items)
    ensures forall x | x in Turn(visits, cursor).items ::
              exists k :: 0 <= k < |visits| && x in Beyond(visits[k].ids, cursor)
    ensures Turn(visits, cursor).done ==>
      (forall x | (forall k | 0 <= k < |visits| :: x in Beyond(visits[k].ids, cursor)) ::
         x in Turn(visits, cursor).items)
  {
    if visits != [] {
      PageSplits(visits[0].ids, cursor, visits[0].n);
      var page := PageOf(visits[0].ids, cursor, visits[0].n);
      if page.next.None? {
        LastPage(visits, cursor);
      } else {
        WalkIsFaithful(visits[1..], page.next.value);
        FirstPage(visits, cursor);
      }
    }
  }

  lemma LastPage(visits: seq<Visit>, cursor: Id)
    requires Sensible(visits) && visits != []
    requires PageOf(visits[0].ids, cursor, visits[0].n).items == Sorted(Beyond(visits[0].ids, cursor))
    ensures forall x | x in Sorted(Beyond(visits[0].ids, cursor)) ::
              exists k :: 0 <= k < |visits| && x in Beyond(visits[k].ids, cursor)
  {
    forall x | x in Sorted(Beyond(visits[0].ids, cursor))
      ensures exists k :: 0 <= k < |visits| && x in Beyond(visits[k].ids, cursor)
    {
      assert x in Beyond(visits[0].ids, cursor);
    }
  }

  lemma FirstPage(visits: seq<Visit>, cursor: Id)
    requires Sensible(visits) && visits != []
    requires PageOf(visits[0].ids, cursor, visits[0].n).next.Some?
    requires
      var next := PageOf(visits[0].ids, cursor, visits[0].n).next.value;
      var rest := Turn(visits[1..], next);
      && Increasing(rest.items)
      && (forall x | x in rest.items :: exists k :: 0 <= k < |visits[1..]| && x in Beyond(visits[1..][k].ids, next))
      && (rest.done ==>
            forall x | (forall k | 0 <= k < |visits[1..]| :: x in Beyond(visits[1..][k].ids, next)) :: x in rest.items)
    ensures Increasing(Turn(visits, cursor).items)
    ensures forall x | x in Turn(visits, cursor).items ::
              exists k :: 0 <= k < |visits| && x in Beyond(visits[k].ids, cursor)
    ensures Turn(visits, cursor).done ==>
      (forall x | (forall k | 0 <= k < |visits| :: x in Beyond(visits[k].ids, cursor)) ::
         x in Turn(visits, cursor).items)
  {
    PageSplits(visits[0].ids, cursor, visits[0].n);
    var page := PageOf(visits[0].ids, cursor, visits[0].n);
    var next := page.next.value;
    var rest := Turn(visits[1..], next);
    BeyondBeyond(visits[0].ids, cursor, next);
    forall x | x in rest.items
      ensures Before(next, x) && exists k :: 0 <= k < |visits| && x in Beyond(visits[k].ids, cursor)
    {
      var k :| 0 <= k < |visits[1..]| && x in Beyond(visits[1..][k].ids, next);
      assert visits[1..][k] == visits[k + 1];
    }
    forall x | x in page.items ensures exists k :: 0 <= k < |visits| && x in Beyond(visits[k].ids, cursor) {
      assert x in Beyond(visits[0].ids, cursor);
    }
    JoinIncreasing(page.items, next, rest.items);
    if rest.done {
      forall x | forall k | 0 <= k < |visits| :: x in Beyond(visits[k].ids, cursor)
        ensures x in page.items + rest.items
      {
        if Before(next, x) {
          forall k | 0 <= k < |visits[1..]| ensures x in Beyond(visits[1..][k].ids, next) {
            assert x in Beyond(visits[k + 1].ids, cursor);
          }
        } else {
          assert x in Beyond(visits[0].ids, cursor);
        }
      }
    }
  }

  lemma JoinIncreasing(a: seq<Id>, c: Id, b: seq<Id>)
    requires Increasing(a) && Increasing(b)
    requires forall x | x in a :: !Before(c, x)
    requires forall x | x in b :: Before(c, x)
    ensures Increasing(a + b)
  {
    forall i, j | 0 <= i < |a| && 0 <= j < |b| ensures Before(a[i], b[j]) {
      assert a[i] in a && b[j] in b;
      BeforeTotal(a[i], b[j]);
      if a[i] != b[j] && Before(b[j], a[i]) {
        BeforeTransitive(c, b[j], a[i]);
      }
    }
  }

  /** Two increasing sequences of the same ids are the same sequence. */
  lemma {:induction false} IncreasingUnique(a: seq<Id>, b: seq<Id>)
    requires Increasing(a) && Increasing(b) && forall x :: x in a <==> x in b
    ensures a == b
  {
    if a == [] {
      assert forall k | 0 <= k < |b| :: b[k] in b;
    } else {
      assert a[0] in b;
      FirstIsLeast(a);
      FirstIsLeast(b);
      assert b[0] in a;
      if a[0] != b[0] {
        BeforeTransitive(a[0], b[0], a[0]);
        BeforeIrreflexive(a[0]);
      }
      forall x ensures x in a[1..] <==> x in b[1..] {
        InTail(a, x);
        InTail(b, x);
      }
      IncreasingUnique(a[1..], b[1..]);
      assert a == [a[0]] + a[1..] && b == [b[0]] + b[1..];
    }
  }

  lemma FirstIsLeast(a: seq<Id>)
    requires Increasing(a) && a != []
    ensures forall x | x in a :: x == a[0] || Before(a[0], x)
  {
  }

  lemma InTail(a: seq<Id>, x: Id)
    requires Increasing(a) && a != []
    ensures x in a[1..] <==> x in a && x != a[0]
  {
    BeforeIrreflexive(a[0]);
    if x in a[1..] {
      var k :| 0 <= k < |a[1..]| && a[1..][k] == x;
      assert a[k + 1] == x && Before(a[0], a[k + 1]);
    }
    assert a == [a[0]] + a[1..];
  }

  /** Every page that has a successor moves the cursor on, so a fixed store is read to its end. */
  lemma {:induction false} WalkFinishes(ids: set<Id>, visits: seq<Visit>, cursor: Id)
    requires Sensible(visits) && forall k | 0 <= k < |visits| :: visits[k].ids == ids
    requires |visits| > |Beyond(ids, cursor)|
    ensures Turn(visits, cursor).done
    decreases |visits|
  {
    PageSplits(ids, cursor, visits[0].n);
    var page := PageOf(ids, cursor, visits[0].n);
    if page.next.Some? {
      var next := page.next.value;
      BeyondBeyond(ids, cursor, next);
      BeforeIrreflexive(next);
      SmallerSet(Beyond(ids, next), Beyond(ids, cursor), next);
      WalkFinishes(ids, visits[1..], next);
    }
  }

  lemma SmallerSet(a: set<Id>, b: set<Id>, x: Id)
    requires a <= b && x in b && x !in a
    ensures |a| < |b|
  {
    SubsetSize(a, b - {x});
  }

  /** Over a fixed store the pages, whatever their lengths, concatenate to exactly the account's sorted ids. */
  lemma ListingIsExact(ids: set<Id>, visits: seq<Visit>)
    requires Sensible(visits) && forall k | 0 <= k < |visits| :: visits[k].ids == ids
    requires |visits| > |ids|
    ensures Turn(visits, "") == Walk(Sorted(ids), true)
  {
    assert Beyond(ids, "") == ids;
    WalkFinishes(ids, visits, "");
    WalkIsFaithful(visits, "");
    var items := Turn(visits, "").items;
    forall x ensures x in items <==> x in Sorted(ids) {
      if x in ids {
        assert forall k | 0 <= k < |visits| :: x in Beyond(visits[k].ids, "");
      }
    }
    IncreasingUnique(items, Sorted(ids));
  }

  /** With inserts and purges between pages: no id twice, and none missed that was there throughout. */
  lemma ListingUnderChange(visits: seq<Visit>, x: Id)
    requires Sensible(visits)
    ensures Distinct(Turn(visits, "").items)
    ensures Turn(visits, "").done && (forall k | 0 <= k < |visits| :: x in visits[k].ids) ==>
              x in Turn(visits, "").items
  {
    WalkIsFaithful(visits, "");
    var items := Turn(visits, "").items;
    forall i, j | 0 <= i < j < |items| ensures items[i] != items[j] {
      BeforeIrreflexive(items[i]);
    }
    if forall k | 0 <= k < |visits| :: x in visits[k].ids {
      assert forall k | 0 <= k < |visits| :: x in Beyond(visits[k].ids, "");
    }
  }
}
