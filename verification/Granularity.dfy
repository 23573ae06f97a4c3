/** The two granularities agree: a `placeBid` call that nothing interrupts takes the await-level
    protocol exactly where the handler-level function goes. */
module Granularity {
  import opened Common
  import O = BidOrder
  import M = Market
  import R = MarketRuns
  import opened BidProtocol
  import opened BidSafety

  // ----- One auction of the database as a protocol state at rest

  function Document(a: M.Auction): Doc {
    Doc(a.createdBy, a.startingPrice, a.endTime, a.currentPrice, a.status, a.highestBidder, a.winner)
  }

  function Members(w: M.World, id: AuctionId): set<UserId> {
    set u | u in w.biddedAuctions && id in w.biddedAuctions[u]
  }

  /** No call is running; the history fields start afresh. */
  function AtRest(w: M.World, id: AuctionId, now: Time): State
    requires id in w.auctions
  {
    State(id, w.biddedAuctions.Keys, now, Document(w.auctions[id]), None, map[], map[], O.BidsFor(w.bids, id),
          Members(w, id), [], {})
  }

  /** The answer the handler-level model takes for the latest bid is one the query may give. */
  lemma {:induction false} LatestIsLatest(bids: seq<O.Bid>)
    ensures IsLatest(bids, M.Latest(bids))
  {
    if bids != [] {
      LatestIsLatest(bids[..|bids| - 1]);
      assert bids == bids[..|bids| - 1] + [bids[|bids| - 1]];
    }
  }

  // ----- The call

  /** All the steps of a call, in program order; those its branch does not take are idle. */
  function CallRun(c: nat, user: UserId, amount: real, latest: Option<O.Bid>, at: Time): seq<Action> {
    [Acquire(c, user, amount), ReadAuction(c)] + [SaveExpired(c), ReadLatest(c, latest)]
    + [ConditionalUpdate(c), InsertBid(c, at)] + [JoinUser(c), Release(c)]
  }

  lemma AfterTwo(s: State, a: Action, b: Action)
    ensures After(s, [a, b]) == Apply(Apply(s, a), b)
  {
    assert [a, b] == [a] + [b];
    AfterSplit(s, [a], [b]);
    AfterOnly(s, a);
    AfterOnly(After(s, [a]), b);
  }

  lemma Calm(s: State, c: nat, latest: Option<O.Bid>, at: Time)
    requires AtPhase(s, c) == Some(Leaving)
    ensures After(s, [SaveExpired(c), ReadLatest(c, latest)]) == s
    ensures After(s, [ConditionalUpdate(c), InsertBid(c, at)]) == s
    ensures After(s, [JoinUser(c), Release(c)]) == s.(lock := None, calls := s.calls - {c})
  {
    hide After;
    AfterTwo(s, SaveExpired(c), ReadLatest(c, latest));
    AfterTwo(s, ConditionalUpdate(c), InsertBid(c, at));
    AfterTwo(s, JoinUser(c), Release(c));
  }

  lemma Enter(s: State, c: nat, user: UserId, amount: real)
    requires s.calls == map[] && s.lock == None
    ensures After(s, [Acquire(c, user, amount), ReadAuction(c)]) ==
            s.(lock := Some(s.now + LOCK_MS), calls := map[c := Call(user, amount, s.now, Screen(s, user))])
  {
    hide After;
    AfterTwo(s, Acquire(c, user, amount), ReadAuction(c));
    assert Apply(s, Acquire(c, user, amount)).calls == map[c := Call(user, amount, s.now, Entered)];
  }

  /** What the steps after the screening do, by the phase the screening left. */
  lemma Read(s: State, c: nat, latest: Option<O.Bid>)
    requires c in s.calls && IsLatest(s.bids, latest)
    ensures
      var t := After(s, [SaveExpired(c), ReadLatest(c, latest)]);
      match s.calls[c].phase
      case Expiring(snap) => t == Move(s, c, Leaving).(doc := SaveEnded(s.doc, snap))
      case Opened(price) =>
        t == Move(s, c, if (latest.Some? && latest.value.userId == s.calls[c].user) || s.calls[c].amount <= price
                        then Leaving else Cleared)
      case _ => t == s
  {
    hide After;
    AfterTwo(s, SaveExpired(c), ReadLatest(c, latest));
  }

  lemma Write(s: State, c: nat, at: Time)
    requires Raises(s, ConditionalUpdate(c))
    ensures
      var call := s.calls[c];
      var t := After(s, [ConditionalUpdate(c), InsertBid(c, at)]);
      && t == s.(doc := s.doc.(currentPrice := call.amount, highestBidder := Some(call.user)),
                 bids := s.bids + [O.Bid(s.id, call.user, call.amount, at)],
                 calls := s.calls[c := call.(phase := Stored)],
                 raises := s.raises + [Raise(call.user, call.amount)])
      && After(t, [JoinUser(c), Release(c)]) ==
           t.(joined := Joined(t, call.user), lock := None, calls := t.calls - {c})
  {
    hide After;
    AfterTwo(s, ConditionalUpdate(c), InsertBid(c, at));
    var t := After(s, [ConditionalUpdate(c), InsertBid(c, at)]);
    assert t.calls == s.calls[c := s.calls[c].(phase := Stored)];
    AfterTwo(t, JoinUser(c), Release(c));
    assert t.calls[c := t.calls[c].(phase := Leaving)] - {c} == t.calls - {c};
  }

  lemma Compose(s: State, c: nat, user: UserId, amount: real, latest: Option<O.Bid>, at: Time)
    ensures
      After(s, CallRun(c, user, amount, latest, at)) ==
      After(After(After(After(s, [Acquire(c, user, amount), ReadAuction(c)]), [SaveExpired(c), ReadLatest(c, latest)]),
                  [ConditionalUpdate(c), InsertBid(c, at)]), [JoinUser(c), Release(c)])
  {
    hide After, Apply;
    var r1, r2 := [Acquire(c, user, amount), ReadAuction(c)], [SaveExpired(c), ReadLatest(c, latest)];
    var r3, r4 := [ConditionalUpdate(c), InsertBid(c, at)], [JoinUser(c), Release(c)];
    AfterSplit(s, r1, r2);
    AfterSplit(s, r1 + r2, r3);
    AfterSplit(s, r1 + r2 + r3, r4);
  }

  /** Whatever the call's branch, the document, the stored bids and the bidder's set end up as the
      handler-level `PlaceBid` leaves them, and the lock is free again. */
  lemma UninterruptedCallIsAtomic(w: M.World, user: UserId, id: AuctionId, amount: real, now: Time, c: nat)
    requires id in w.auctions
    ensures
      var s := AtRest(w, id, now);
      var t := After(s, CallRun(c, user, amount, M.Latest(O.BidsFor(w.bids, id)), now));
      var u := M.PlaceBid(w, user, id, amount, now).0;
      id in u.auctions && t.(raises := [], lost := {}) == AtRest(u, id, now)
  {
    hide After, Apply, M.PlaceBid, M.Latest;
    var s := AtRest(w, id, now);
    var bids := O.BidsFor(w.bids, id);
    var latest := M.Latest(bids);
    Compose(s, c, user, amount, latest, now);
    Enter(s, c, user, amount);
    if M.PlaceBid(w, user, id, amount, now).1 == M.Done {
      Accepted(w, user, id, amount, now, c);
    } else {
      Rejected(w, user, id, amount, now, c);
    }
  }

  /** The state a screened call has reached when it is about to update the document. */
  ghost function Checked(s: State, c: nat, user: UserId, amount: real, latest: Option<O.Bid>): State {
    After(s.(lock := Some(s.now + LOCK_MS), calls := map[c := Call(user, amount, s.now, Screen(s, user))]),
          [SaveExpired(c), ReadLatest(c, latest)])
  }

  lemma RejectedWrites(w: M.World, user: UserId, id: AuctionId, amount: real, now: Time)
    requires id in w.auctions && M.PlaceBid(w, user, id, amount, now).1 != M.Done
    ensures
      var a, u, latest := w.auctions[id], M.PlaceBid(w, user, id, amount, now).0, M.Latest(O.BidsFor(w.bids, id));
      && id in u.auctions && u.bids == w.bids && u.biddedAuctions == w.biddedAuctions
      && u.auctions[id] == (if a.createdBy != user && a.endTime <= now && a.status == ACTIVE then M.Ended(a) else a)
      && (a.createdBy == user || a.endTime <= now || a.status != ACTIVE
          || (latest.Some? && latest.value.userId == user) || amount <= a.currentPrice)
  {
  }

  lemma Rejected(w: M.World, user: UserId, id: AuctionId, amount: real, now: Time, c: nat)
    requires id in w.auctions && M.PlaceBid(w, user, id, amount, now).1 != M.Done
    ensures
      var s := AtRest(w, id, now);
      var s2 := Checked(s, c, user, amount, M.Latest(O.BidsFor(w.bids, id)));
      var u := M.PlaceBid(w, user, id, amount, now).0;
      && id in u.auctions
      && After(After(s2, [ConditionalUpdate(c), InsertBid(c, now)]), [JoinUser(c), Release(c)]) == AtRest(u, id, now)
  {
    hide After, Apply;
    var s := AtRest(w, id, now);
    var latest := M.Latest(O.BidsFor(w.bids, id));
    LatestIsLatest(O.BidsFor(w.bids, id));
    var s1 := s.(lock := Some(s.now + LOCK_MS), calls := map[c := Call(user, amount, s.now, Screen(s, user))]);
    Read(s1, c, latest);
    var s2 := Checked(s, c, user, amount, latest);
    var u := M.PlaceBid(w, user, id, amount, now).0;
    RejectedWrites(w, user, id, amount, now);
    hide M.PlaceBid, M.Latest, Members, O.BidsFor;
    assert s2 == s1.(calls := map[c := Call(user, amount, now, Leaving)], doc := Document(u.auctions[id]));
    Calm(s2, c, latest, now);
    assert s2.calls - {c} == map[];
  }

  lemma AcceptedPasses(w: M.World, user: UserId, id: AuctionId, amount: real, now: Time)
    requires id in w.auctions && M.PlaceBid(w, user, id, amount, now).1 == M.Done
    ensures
      var a, latest := w.auctions[id], M.Latest(O.BidsFor(w.bids, id));
      && a.createdBy != user && now < a.endTime && a.status == ACTIVE && a.currentPrice < amount
      && !(latest.Some? && latest.value.userId == user)
  {
  }

  lemma Accepted(w: M.World, user: UserId, id: AuctionId, amount: real, now: Time, c: nat)
    requires id in w.auctions && M.PlaceBid(w, user, id, amount, now).1 == M.Done
    ensures
      var s := AtRest(w, id, now);
      var s2 := Checked(s, c, user, amount, M.Latest(O.BidsFor(w.bids, id)));
      var t := After(After(s2, [ConditionalUpdate(c), InsertBid(c, now)]), [JoinUser(c), Release(c)]);
      var u := M.PlaceBid(w, user, id, amount, now).0;
      && id in u.auctions && t.(raises := []) == AtRest(u, id, now)
  {
    hide After, Apply, M.PlaceBid, M.Latest, Members, O.BidsFor;
    var s := AtRest(w, id, now);
    var latest := M.Latest(O.BidsFor(w.bids, id));
    LatestIsLatest(O.BidsFor(w.bids, id));
    AcceptedPasses(w, user, id, amount, now);
    var s1 := s.(lock := Some(s.now + LOCK_MS), calls := map[c := Call(user, amount, s.now, Screen(s, user))]);
    Read(s1, c, latest);
    var s2 := Checked(s, c, user, amount, latest);
    assert s2 == s1.(calls := map[c := Call(user, amount, now, Cleared)]);
    Write(s2, c, now);
    BidShows(w, user, id, amount, now);
    assert s2.calls[c := s2.calls[c].(phase := Stored)] - {c} == map[];
  }

  lemma BidShows(w: M.World, user: UserId, id: AuctionId, amount: real, now: Time)
    requires M.PlaceBid(w, user, id, amount, now).1 == M.Done
    ensures
      var u := M.PlaceBid(w, user, id, amount, now).0;
      && id in u.auctions
      && Document(u.auctions[id]) == Document(w.auctions[id]).(currentPrice := amount, highestBidder := Some(user))
      && O.BidsFor(u.bids, id) == O.BidsFor(w.bids, id) + [O.Bid(id, user, amount, now)]
      && u.biddedAuctions.Keys == w.biddedAuctions.Keys
      && Members(u, id) == Members(w, id) + if user in w.biddedAuctions then {user} else {}
  {
    R.BidWrites(w, user, id, amount, now);
    O.BidsForAppend(w.bids, O.Bid(id, user, amount, now), id);
  }
}
