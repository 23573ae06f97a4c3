/** The aggregation behind `getTopBiddersForAuction`: sort, keep each user's first, sort, limit. */
module TopBidders {
  import opened Common
  import opened BidOrder
  import opened Market
  import opened MarketRuns

  function ClampLimit(limit: int): (n: nat) {
    if limit < 1 then 1 else if limit > 20 then 20 else limit
  }

  predicate HasUser(rows: seq<Bid>, user: UserId) {
    exists i :: 0 <= i < |rows| && rows[i].userId == user
  }

  /** `$group` by user with `$first`: a user's row is their first bid in the sorted input. */
  function FirstPerUser(sorted: seq<Bid>): seq<Bid> {
    if sorted == [] then []
    else
      var last := sorted[|sorted| - 1];
      var rows := FirstPerUser(sorted[..|sorted| - 1]);
      if HasUser(rows, last.userId) then rows else rows + [last]
  }

  /** `$group` may emit its rows in any order before they are sorted again and cut. */
  ghost predicate Pipeline(bids: seq<Bid>, limit: int, rows: seq<Bid>) {
    exists groups ::
      && multiset(groups) == multiset(FirstPerUser(SortByAmount(bids)))
      && rows == Take(SortByAmount(groups), ClampLimit(limit))
  }

  ghost predicate UsersDistinct(rows: seq<Bid>) {
    forall i, j :: 0 <= i < j < |rows| ==> rows[i].userId != rows[j].userId
  }

  /** The largest bid of its user. */
  ghost predicate IsBest(r: Bid, bids: seq<Bid>) {
    r in bids && forall b :: b in bids && b.userId == r.userId ==> b.amount <= r.amount
  }

  ghost predicate AllAbove(rows: seq<Bid>, amount: real) {
    forall i :: 0 <= i < |rows| ==> amount < rows[i].amount
  }

  /** The leaderboard said directly: distinct users, each with the bid that is their largest,
      largest first, as many as the limit between 1 and 20 allows, and nobody left out who outbids the last one. */
  ghost predicate Leaderboard(bids: seq<Bid>, limit: int, rows: seq<Bid>) {
    && Descending(rows) && UsersDistinct(rows)
    && (forall i :: 0 <= i < |rows| ==> IsBest(rows[i], bids))
    && |rows| == Min(Min(20, Max(1, limit)), |BiddersOf(bids)|)
    && (forall b :: b in bids ==> HasUser(rows, b.userId) || AllAbove(rows, b.amount))
  }

  // ----- The groups

  /** A row of the bid's user that is at least as high. */
  ghost predicate Covered(b: Bid, rows: seq<Bid>) {
    exists i :: 0 <= i < |rows| && rows[i].userId == b.userId && b.amount <= rows[i].amount
  }

  ghost predicate Groups(rows: seq<Bid>, bids: seq<Bid>) {
    && Descending(rows) && UsersDistinct(rows)
    && (forall i :: 0 <= i < |rows| ==> rows[i] in bids)
    && (forall b :: b in bids ==> Covered(b, rows))
  }

  lemma {:induction false} GroupsOfSorted(sorted: seq<Bid>)
    requires Descending(sorted)
    ensures Groups(FirstPerUser(sorted), sorted)
  {
    if sorted != [] {
      var n := |sorted| - 1;
      GroupsOfSorted(sorted[..n]);
      assert sorted == sorted[..n] + [sorted[n]];
      assert forall b :: b in sorted[..n] ==> b.amount > sorted[n].amount;
      GroupsGrow(FirstPerUser(sorted[..n]), sorted[..n], sorted[n]);
    }
  }

  lemma GroupsGrow(rows: seq<Bid>, bids: seq<Bid>, last: Bid)
    requires Groups(rows, bids) && forall b :: b in bids ==> b.amount > last.amount
    ensures Groups(if HasUser(rows, last.userId) then rows else rows + [last], bids + [last])
  {
    hide Covered;
    var more := if HasUser(rows, last.userId) then rows else rows + [last];
    forall i | 0 <= i < |rows| ensures rows[i].amount > last.amount {
      assert rows[i] in bids;
    }
    forall b | b in bids + [last] ensures Covered(b, more) {
      CoveredMore(b, rows, bids, last);
    }
    forall i | 0 <= i < |more| ensures more[i] in bids + [last] {
      MemberMore(rows, bids, last, i);
    }
  }

  lemma MemberMore(rows: seq<Bid>, bids: seq<Bid>, last: Bid, i: nat)
    requires i <= |rows| && forall k :: 0 <= k < |rows| ==> rows[k] in bids
    ensures (rows + [last])[i] in bids + [last]
  {
    if i < |rows| {
      assert rows[i] in bids;
    } else {
      assert (bids + [last])[|bids|] == last;
    }
  }

  lemma CoveredMore(b: Bid, rows: seq<Bid>, bids: seq<Bid>, last: Bid)
    requires Groups(rows, bids) && b in bids + [last]
    requires forall i :: 0 <= i < |rows| ==> rows[i].amount > last.amount
    ensures Covered(b, if HasUser(rows, last.userId) then rows else rows + [last])
  {
    var more := if HasUser(rows, last.userId) then rows else rows + [last];
    if b in bids {
      assert Covered(b, rows);
      var i :| 0 <= i < |rows| && rows[i].userId == b.userId && b.amount <= rows[i].amount;
      assert more[i] == rows[i];
    } else if !HasUser(rows, last.userId) {
      assert more[|rows|] == last;
    }
  }

  lemma {:induction false} CountUsers(rows: seq<Bid>)
    requires UsersDistinct(rows)
    ensures |BiddersOf(rows)| == |rows|
  {
    if rows == [] {
      assert BiddersOf(rows) == {};
    } else {
      var n := |rows| - 1;
      CountUsers(rows[..n]);
      assert rows == rows[..n] + [rows[n]];
      assert BiddersOf(rows) == BiddersOf(rows[..n]) + {rows[n].userId};
    }
  }

  lemma GroupsCountBidders(rows: seq<Bid>, bids: seq<Bid>)
    requires Groups(rows, bids)
    ensures |rows| == |BiddersOf(bids)|
  {
    CountUsers(rows);
    assert BiddersOf(rows) == BiddersOf(bids) by {
      forall u | u in BiddersOf(bids) ensures u in BiddersOf(rows) {
        var b :| b in bids && b.userId == u;
        assert Covered(b, rows);
        var i :| 0 <= i < |rows| && rows[i].userId == u;
        assert rows[i] in rows;
      }
      forall u | u in BiddersOf(rows) ensures u in BiddersOf(bids) {
        var r :| r in rows && r.userId == u;
        var i :| 0 <= i < |rows| && rows[i] == r;
        assert rows[i] in bids;
      }
    }
  }

  lemma GroupIsBest(rows: seq<Bid>, bids: seq<Bid>, i: nat)
    requires Groups(rows, bids) && i < |rows|
    ensures IsBest(rows[i], bids)
  {
    forall b | b in bids && b.userId == rows[i].userId ensures b.amount <= rows[i].amount {
      assert Covered(b, rows);
      var j :| 0 <= j < |rows| && rows[j].userId == b.userId && b.amount <= rows[j].amount;
      assert i == j;
    }
  }

  lemma CutShows(all: seq<Bid>, n: nat, b: Bid)
    requires Descending(all) && Covered(b, all)
    ensures HasUser(Take(all, n), b.userId) || AllAbove(Take(all, n), b.amount)
  {
    var rows := Take(all, n);
    var i :| 0 <= i < |all| && all[i].userId == b.userId && b.amount <= all[i].amount;
    if i < |rows| {
      assert rows[i] == all[i];
    }
  }

  lemma CutIsLeaderboard(all: seq<Bid>, bids: seq<Bid>, limit: int)
    requires Groups(all, bids)
    ensures Leaderboard(bids, limit, Take(all, ClampLimit(limit)))
  {
    hide Groups, IsBest, HasUser, AllAbove, Descending, UsersDistinct, Take;
    var rows := Take(all, ClampLimit(limit));
    GroupsCountBidders(all, bids);
    CutKeepsRows(all, bids, ClampLimit(limit));
    forall b | b in bids ensures HasUser(rows, b.userId) || AllAbove(rows, b.amount) {
      GroupsCover(all, bids, b);
      CutShows(all, ClampLimit(limit), b);
    }
  }

  lemma GroupsCover(rows: seq<Bid>, bids: seq<Bid>, b: Bid)
    requires Groups(rows, bids) && b in bids
    ensures Descending(rows) && Covered(b, rows)
  {
  }

  lemma CutKeepsRows(all: seq<Bid>, bids: seq<Bid>, n: nat)
    requires Groups(all, bids)
    ensures
      var rows := Take(all, n);
      && |rows| == Min(n, |all|) && Descending(rows) && UsersDistinct(rows)
      && forall i :: 0 <= i < |rows| ==> IsBest(rows[i], bids)
  {
    var rows := Take(all, n);
    forall i | 0 <= i < |rows| ensures IsBest(rows[i], bids) {
      GroupIsBest(all, bids, i);
    }
    hide IsBest, Covered;
  }

  /** On bids with pairwise distinct amounts the pipeline computes the leaderboard, whatever the
      order in which `$group` emits its rows. */
  lemma PipelineIsLeaderboard(bids: seq<Bid>, limit: int, rows: seq<Bid>)
    requires AmountsDistinct(bids) && Pipeline(bids, limit, rows)
    ensures Leaderboard(bids, limit, rows)
  {
    var sorted := SortByAmount(bids);
    var best := FirstPerUser(sorted);
    var groups :| multiset(groups) == multiset(best) && rows == Take(SortByAmount(groups), ClampLimit(limit));
    SortDescends(bids);
    hide AmountsDistinct, Descending, SortByAmount, FirstPerUser, Groups, Leaderboard, Take;
    GroupsOfSorted(sorted);
    assert Descending(best) by {
      GroupsDescend(best, sorted);
    }
    SortedTo(SortByAmount(groups), best);
    GroupsOfSame(best, sorted, bids);
    CutIsLeaderboard(best, bids, limit);
  }

  lemma GroupsDescend(rows: seq<Bid>, bids: seq<Bid>)
    requires Groups(rows, bids)
    ensures Descending(rows)
  {
  }

  lemma GroupsOfSame(rows: seq<Bid>, sorted: seq<Bid>, bids: seq<Bid>)
    requires Groups(rows, sorted) && forall b :: b in sorted <==> b in bids
    ensures Groups(rows, bids)
  {
  }

  lemma SortedTo(s: seq<Bid>, t: seq<Bid>)
    requires Sorted(s) && Descending(t) && multiset(s) == multiset(t)
    ensures s == t
  {
    assert AmountsDistinct(t);
    forall i, j | 0 <= i < j < |s| ensures s[i].amount > s[j].amount {
      assert Before(s[i], s[j]);
      assert s[i] in multiset(t) && s[j] in multiset(t);
      assert s[i] in t && s[j] in t;
      if s[i].amount == s[j].amount {
        SameAmountSameBid(t, s[i], s[j]);
        Twice(s, i, j);
        Once(t, s[i]);
        assert false;
      }
    }
    DescendingUnique(s, t);
  }

  // ----- Uniqueness

  /** There is only one leaderboard. */
  lemma LeaderboardUnique(bids: seq<Bid>, limit: int, rows: seq<Bid>, other: seq<Bid>)
    requires AmountsDistinct(bids) && Leaderboard(bids, limit, rows) && Leaderboard(bids, limit, other)
    ensures rows == other
  {
    LeaderboardPrefix(bids, limit, rows, other, |rows|);
    assert rows[..|rows|] == rows && other[..|rows|] == other;
  }

  lemma {:induction false} LeaderboardPrefix(bids: seq<Bid>, limit: int, rows: seq<Bid>, other: seq<Bid>, n: nat)
    requires AmountsDistinct(bids) && Leaderboard(bids, limit, rows) && Leaderboard(bids, limit, other)
    requires n <= |rows| == |other|
    ensures forall i :: 0 <= i < n ==> rows[i] == other[i]
  {
    hide Leaderboard, AmountsDistinct;
    if n > 0 {
      LeaderboardPrefix(bids, limit, rows, other, n - 1);
      SameRow(bids, limit, rows, other, n - 1);
    }
  }

  lemma SameRow(bids: seq<Bid>, limit: int, rows: seq<Bid>, other: seq<Bid>, n: nat)
    requires AmountsDistinct(bids) && Leaderboard(bids, limit, rows) && Leaderboard(bids, limit, other)
    requires n < |rows| == |other| && forall i :: 0 <= i < n ==> rows[i] == other[i]
    ensures rows[n] == other[n]
  {
    AtLeast(bids, limit, rows, other, n);
    AtLeast(bids, limit, other, rows, n);
    assert IsBest(rows[n], bids) && IsBest(other[n], bids);
    SameAmountSameBid(bids, rows[n], other[n]);
  }

  /** After a common prefix neither board can show a smaller bid next. */
  lemma AtLeast(bids: seq<Bid>, limit: int, rows: seq<Bid>, other: seq<Bid>, n: nat)
    requires Leaderboard(bids, limit, rows) && Leaderboard(bids, limit, other)
    requires n < |rows| == |other| && forall i :: 0 <= i < n ==> rows[i] == other[i]
    ensures rows[n].amount >= other[n].amount
  {
    hide Leaderboard, IsBest, BiddersOf;
    var theirs := other[n];
    RowsAreBest(bids, limit, other, n);
    NoneBelow(bids, limit, rows, theirs);
    if HasUser(rows, theirs.userId) {
      var i :| 0 <= i < |rows| && rows[i].userId == theirs.userId;
      RowsAreBest(bids, limit, rows, i);
      SameBest(rows[i], theirs, bids);
    }
  }

  lemma RowsAreBest(bids: seq<Bid>, limit: int, rows: seq<Bid>, n: nat)
    requires Leaderboard(bids, limit, rows) && n < |rows|
    ensures IsBest(rows[n], bids) && Descending(rows)
    ensures forall i :: 0 <= i < n ==> rows[i].userId != rows[n].userId
  {
  }

  lemma NoneBelow(bids: seq<Bid>, limit: int, rows: seq<Bid>, b: Bid)
    requires Leaderboard(bids, limit, rows) && IsBest(b, bids)
    ensures HasUser(rows, b.userId) || AllAbove(rows, b.amount)
  {
    hide HasUser, AllAbove;
  }

  lemma SameBest(x: Bid, y: Bid, bids: seq<Bid>)
    requires IsBest(x, bids) && IsBest(y, bids) && x.userId == y.userId
    ensures x.amount == y.amount
  {
  }

  // ----- Every run

  /** In every reachable world the query answers the leaderboard, and while no winner has been
      replaced its first row is the auction's highest bidder at the current price. */
  lemma TopBiddersInEveryRun(events: seq<Event>, id: AuctionId, limit: int, rows: seq<Bid>)
    requires id in Run(EMPTY, events).auctions
    requires Pipeline(BidsFor(Run(EMPTY, events).bids, id), limit, rows)
    ensures
      var w := Run(EMPTY, events);
      && Leaderboard(BidsFor(w.bids, id), limit, rows)
      && FirstRowShown(w.auctions[id], BidsFor(w.bids, id), rows)
  {
    RunKeeps(events);
    var w := Run(EMPTY, events);
    TopBiddersOf(w.auctions[id], BidsFor(w.bids, id), limit, rows);
  }

  ghost predicate FirstRowShown(a: Auction, bids: seq<Bid>, rows: seq<Bid>) {
    && (rows == [] <==> bids == [])
    && (rows != [] && a.winnerHistory == [] ==> a.highestBidder == Some(rows[0].userId) && a.currentPrice == rows[0].amount)
  }

  lemma TopBiddersOf(a: Auction, bids: seq<Bid>, limit: int, rows: seq<Bid>)
    requires AuctionOk(a, bids) && Pipeline(bids, limit, rows)
    ensures Leaderboard(bids, limit, rows) && FirstRowShown(a, bids, rows)
  {
    RulesDistinct(bids, a.createdBy, a.startingPrice);
    PipelineIsLeaderboard(bids, limit, rows);
    FirstRow(a, bids, limit, rows);
  }

  lemma RulesDistinct(bids: seq<Bid>, creator: UserId, start: real)
    requires Rules(bids, creator, start)
    ensures AmountsDistinct(bids)
  {
  }

  lemma FirstRow(a: Auction, bids: seq<Bid>, limit: int, rows: seq<Bid>)
    requires AuctionOk(a, bids) && Leaderboard(bids, limit, rows)
    ensures FirstRowShown(a, bids, rows)
  {
    if bids == [] {
      assert BiddersOf(bids) == {};
    } else {
      FirstRowIsTop(bids, limit, rows);
    }
  }

  lemma FirstRowIsTop(bids: seq<Bid>, limit: int, rows: seq<Bid>)
    requires Leaderboard(bids, limit, rows) && bids != []
    requires forall i, j :: 0 <= i < j < |bids| ==> bids[i].amount < bids[j].amount
    ensures rows != [] && rows[0] == bids[|bids| - 1]
  {
    var top := bids[|bids| - 1];
    assert top in bids;
    assert top.userId in BiddersOf(bids);
    assert IsBest(rows[0], bids);
    var k :| 0 <= k < |bids| && bids[k] == rows[0];
    assert !AllAbove(rows, top.amount);
    var i :| 0 <= i < |rows| && rows[i].userId == top.userId;
    assert IsBest(rows[i], bids);
  }
}
