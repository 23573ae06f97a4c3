/** Stored bids and the order `{ amount: -1, createdAt: 1 }` the queries sort them by. */
module BidOrder {
  import opened Common

  datatype Bid = Bid(auctionId: AuctionId, userId: UserId, amount: real, createdAt: Time)

  /** `find({ auctionId })`, in insertion order. */
  function BidsFor(bids: seq<Bid>, auctionId: AuctionId): seq<Bid> {
    if bids == [] then []
    else
      var last := bids[|bids| - 1];
      BidsFor(bids[..|bids| - 1], auctionId) + if last.auctionId == auctionId then [last] else []
  }

  /** `deleteMany({ auctionId })`. */
  function Without(bids: seq<Bid>, auctionId: AuctionId): seq<Bid> {
    if bids == [] then []
    else
      var last := bids[|bids| - 1];
      Without(bids[..|bids| - 1], auctionId) + if last.auctionId == auctionId then [] else [last]
  }

  lemma {:induction false} BidsForMembers(bids: seq<Bid>, auctionId: AuctionId)
    ensures forall b :: b in BidsFor(bids, auctionId) <==> b in bids && b.auctionId == auctionId
  {
    if bids != [] {
      BidsForMembers(bids[..|bids| - 1], auctionId);
      assert bids == bids[..|bids| - 1] + [bids[|bids| - 1]];
    }
  }

  lemma BidsForAppend(bids: seq<Bid>, b: Bid, auctionId: AuctionId)
    ensures BidsFor(bids + [b], auctionId) == BidsFor(bids, auctionId) + if b.auctionId == auctionId then [b] else []
  {
    assert (bids + [b])[..|bids|] == bids;
  }

  lemma {:induction false} BidsForWithout(bids: seq<Bid>, gone: AuctionId, auctionId: AuctionId)
    ensures BidsFor(Without(bids, gone), auctionId) == if auctionId == gone then [] else BidsFor(bids, auctionId)
  {
    if bids != [] {
      var last := bids[|bids| - 1];
      BidsForWithout(bids[..|bids| - 1], gone, auctionId);
      BidsForAppend(Without(bids[..|bids| - 1], gone), last, auctionId);
      if last.auctionId == gone {
        assert Without(bids, gone) == Without(bids[..|bids| - 1], gone);
      }
    }
  }

  lemma {:induction false} WithoutMembers(bids: seq<Bid>, gone: AuctionId)
    ensures forall b :: b in Without(bids, gone) <==> b in bids && b.auctionId != gone
  {
    if bids != [] {
      WithoutMembers(bids[..|bids| - 1], gone);
      assert bids == bids[..|bids| - 1] + [bids[|bids| - 1]];
    }
  }

  // ----- Sorting

  predicate Before(x: Bid, y: Bid) {
    x.amount > y.amount || (x.amount == y.amount && x.createdAt <= y.createdAt)
  }

  ghost predicate Sorted(s: seq<Bid>) {
    forall i, j :: 0 <= i < j < |s| ==> Before(s[i], s[j])
  }

  function Insert(b: Bid, s: seq<Bid>): (r: seq<Bid>)
    ensures multiset(r) == multiset{b} + multiset(s)
  {
    if s == [] || Before(b, s[0]) then [b] + s
    else
      assert s == [s[0]] + s[1..];
      [s[0]] + Insert(b, s[1..])
  }

  lemma {:induction false} InsertSorted(b: Bid, s: seq<Bid>)
    requires Sorted(s)
    ensures Sorted(Insert(b, s))
  {
    if s != [] && !Before(b, s[0]) {
      InsertSorted(b, s[1..]);
      var rest := Insert(b, s[1..]);
      forall i | 0 <= i < |rest| ensures Before(s[0], rest[i]) {
        assert rest[i] in multiset(rest);
        if rest[i] != b {
          assert rest[i] in s[1..];
        }
      }
    }
  }

  /** The database's sort; where two documents tie on both keys it may order them either way. */
  function SortByAmount(s: seq<Bid>): (r: seq<Bid>)
    ensures multiset(r) == multiset(s)
    ensures Sorted(r)
    ensures |r| == |s|
    ensures forall b :: b in r <==> b in s
  {
    if s == [] then []
    else
      assert s == [s[0]] + s[1..];
      InsertSorted(s[0], SortByAmount(s[1..]));
      var r := Insert(s[0], SortByAmount(s[1..]));
      assert |r| == |multiset(r)| == |s|;
      assert forall b :: b in r <==> b in multiset(r);
      r
  }

  ghost predicate Descending(s: seq<Bid>) {
    forall i, j :: 0 <= i < j < |s| ==> s[i].amount > s[j].amount
  }

  ghost predicate AmountsDistinct(s: seq<Bid>) {
    forall i, j :: 0 <= i < j < |s| ==> s[i].amount != s[j].amount
  }

  /** There is one strictly descending arrangement of a collection of bids. */
  lemma {:induction false} DescendingUnique(s: seq<Bid>, t: seq<Bid>)
    requires Descending(s) && Descending(t) && multiset(s) == multiset(t)
    ensures s == t
  {
    if s == [] {
      assert |multiset(t)| == 0;
    } else {
      assert |multiset(s)| == |s| && |multiset(t)| == |t|;
      assert s[0] in multiset(t) && t[0] in multiset(s);
      assert s == [s[0]] + s[1..] && t == [t[0]] + t[1..];
      assert s[0] == t[0] by {
        var i :| 0 <= i < |t| && t[i] == s[0];
        var j :| 0 <= j < |s| && s[j] == t[0];
      }
      assert multiset(s[1..]) == multiset(s) - multiset{s[0]};
      assert multiset(t[1..]) == multiset(t) - multiset{t[0]};
      DescendingUnique(s[1..], t[1..]);
    }
  }

  lemma {:induction false} Once(s: seq<Bid>, b: Bid)
    requires AmountsDistinct(s)
    ensures multiset(s)[b] <= 1
  {
    if s != [] {
      assert s == [s[0]] + s[1..];
      Once(s[1..], b);
      if s[0] == b {
        assert b !in s[1..];
      }
    }
  }

  lemma SameAmountSameBid(bids: seq<Bid>, x: Bid, y: Bid)
    requires AmountsDistinct(bids) && x in bids && y in bids && x.amount == y.amount
    ensures x == y
  {
    var i :| 0 <= i < |bids| && bids[i] == x;
    var j :| 0 <= j < |bids| && bids[j] == y;
  }

  lemma Twice(s: seq<Bid>, i: nat, j: nat)
    requires i < j < |s| && s[i] == s[j]
    ensures multiset(s)[s[i]] >= 2
  {
    assert s == s[..j] + s[j..];
    assert s[i] in s[..j] && s[j] in s[j..];
  }

  /** Sorting bids whose amounts are pairwise distinct gives a strictly descending list. */
  lemma SortDescends(s: seq<Bid>)
    requires AmountsDistinct(s)
    ensures Descending(SortByAmount(s))
  {
    hide AmountsDistinct;
    var r := SortByAmount(s);
    forall i, j | 0 <= i < j < |r| ensures r[i].amount > r[j].amount {
      assert Before(r[i], r[j]);
      assert r[i] in s && r[j] in s;
      if r[i].amount == r[j].amount {
        SameAmountSameBid(s, r[i], r[j]);
        Twice(r, i, j);
        Once(s, r[i]);
        assert false;
      }
    }
  }

  function Reverse(s: seq<Bid>): (r: seq<Bid>)
    ensures |r| == |s|
    ensures forall i :: 0 <= i < |s| ==> r[i] == s[|s| - 1 - i]
    ensures multiset(r) == multiset(s)
  {
    if s == [] then []
    else
      assert s == s[..|s| - 1] + [s[|s| - 1]];
      [s[|s| - 1]] + Reverse(s[..|s| - 1])
  }

  /** Bids whose amounts rise in creation order sort to the reverse of that order. */
  lemma SortRising(s: seq<Bid>)
    requires forall i, j :: 0 <= i < j < |s| ==> s[i].amount < s[j].amount
    ensures SortByAmount(s) == Reverse(s)
  {
    SortDescends(s);
    DescendingUnique(SortByAmount(s), Reverse(s));
  }
}
