/**
 * The two order queries of the backend, as filters over the collection in its
 * natural order followed by a `sort({ createdAt: -1 })`.
 */
module Queries {
  import opened Common
  import opened Model

  /** Newest first: `createdAt` never increases along the list. */
  ghost predicate NewestFirst(s: seq<Order>) {
    forall i, j :: 0 <= i < j < |s| ==> s[i].createdAt >= s[j].createdAt
  }

  /** Puts `o` before the first order that is not newer than it. */
  function InsertByDate(o: Order, s: seq<Order>): (r: seq<Order>)
    ensures |r| == |s| + 1
    ensures multiset(r) == multiset(s) + multiset{o}
  {
    if s == [] || o.createdAt >= s[0].createdAt then [o] + s
    else
      assert s == [s[0]] + s[1..];
      [s[0]] + InsertByDate(o, s[1..])
  }

  lemma {:induction false} InsertByDateSorted(o: Order, s: seq<Order>)
    requires NewestFirst(s)
    ensures NewestFirst(InsertByDate(o, s))
  {
    if s == [] || o.createdAt >= s[0].createdAt {
    } else {
      InsertByDateSorted(o, s[1..]);
      var r := InsertByDate(o, s[1..]);
      assert multiset(r) == multiset(s[1..]) + multiset{o};
      forall k | 0 <= k < |r| ensures s[0].createdAt >= r[k].createdAt {
        assert r[k] in multiset(r);
        if r[k] != o {
          assert r[k] in multiset(s[1..]);
          var m :| 0 <= m < |s[1..]| && s[1..][m] == r[k];
          assert s[1 + m] == r[k];
        }
      }
    }
  }

  /** `sort({ createdAt: -1 })`: an insertion sort, newest first. */
  function SortNewestFirst(s: seq<Order>): (r: seq<Order>)
    ensures |r| == |s|
    ensures multiset(r) == multiset(s)
  {
    if s == [] then []
    else
      assert s == [s[0]] + s[1..];
      InsertByDate(s[0], SortNewestFirst(s[1..]))
  }

  lemma {:induction false} SortNewestFirstSorted(s: seq<Order>)
    ensures NewestFirst(SortNewestFirst(s))
  {
    if s != [] {
      SortNewestFirstSorted(s[1..]);
      InsertByDateSorted(s[0], SortNewestFirst(s[1..]));
    }
  }

  // ---------------------------------------------------------------------
  // Filters
  // ---------------------------------------------------------------------

  /** `{ status: { $ne: "Teljesítve" } }`, compared on the stored text. */
  predicate NeedsAttention(o: Order) {
    StatusText(o.status) != FULFILLED
  }

  function Unfulfilled(docs: seq<Order>): (r: seq<Order>)
    ensures forall o :: o in r <==> o in docs && NeedsAttention(o)
    ensures |r| <= |docs|
  {
    if docs == [] then []
    else if NeedsAttention(docs[0]) then [docs[0]] + Unfulfilled(docs[1..])
    else Unfulfilled(docs[1..])
  }

  /** `{ customerId: key }`. */
  function OwnedBy(docs: seq<Order>, key: CustomerRef): (r: seq<Order>)
    ensures forall o :: o in r <==> o in docs && o.customerId == key
    ensures |r| <= |docs|
  {
    if docs == [] then []
    else if docs[0].customerId == key then [docs[0]] + OwnedBy(docs[1..], key)
    else OwnedBy(docs[1..], key)
  }

  /** Every order of the collection that a filter keeps is counted once per occurrence. */
  lemma {:induction false} UnfulfilledCounts(docs: seq<Order>, o: Order)
    ensures multiset(Unfulfilled(docs))[o] == if NeedsAttention(o) then multiset(docs)[o] else 0
  {
    if docs != [] {
      UnfulfilledCounts(docs[1..], o);
      assert docs == [docs[0]] + docs[1..];
    }
  }

  lemma {:induction false} OwnedByCounts(docs: seq<Order>, key: CustomerRef, o: Order)
    ensures multiset(OwnedBy(docs, key))[o] == if o.customerId == key then multiset(docs)[o] else 0
  {
    if docs != [] {
      OwnedByCounts(docs[1..], key, o);
      assert docs == [docs[0]] + docs[1..];
    }
  }

  // ---------------------------------------------------------------------
  // The two listings
  // ---------------------------------------------------------------------

  /** The admin's order list: everything not yet fulfilled, newest first. */
  function AdminOrderList(docs: seq<Order>): (r: seq<Order>)
    ensures NewestFirst(r)
    ensures forall o :: o in r <==> o in docs && StatusText(o.status) != FULFILLED
    ensures forall o :: multiset(r)[o] == if StatusText(o.status) != FULFILLED then multiset(docs)[o] else 0
  {
    var r := SortNewestFirst(Unfulfilled(docs));
    SortNewestFirstSorted(Unfulfilled(docs));
    forall o ensures multiset(r)[o] == if StatusText(o.status) != FULFILLED then multiset(docs)[o] else 0 {
      UnfulfilledCounts(docs, o);
    }
    assert forall o :: o in r <==> o in multiset(r);
    r
  }

  /** A customer's own orders: those whose `customerId` equals the search key, newest first. */
  function CustomerOrderList(docs: seq<Order>, key: CustomerRef): (r: seq<Order>)
    ensures NewestFirst(r)
    ensures forall o :: o in r <==> o in docs && o.customerId == key
    ensures forall o :: multiset(r)[o] == if o.customerId == key then multiset(docs)[o] else 0
  {
    var r := SortNewestFirst(OwnedBy(docs, key));
    SortNewestFirstSorted(OwnedBy(docs, key));
    forall o ensures multiset(r)[o] == if o.customerId == key then multiset(docs)[o] else 0 {
      OwnedByCounts(docs, key, o);
    }
    assert forall o :: o in r <==> o in multiset(r);
    r
  }
}
