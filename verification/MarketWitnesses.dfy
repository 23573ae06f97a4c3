/** Runs from an empty database in which an expected property of the handlers fails. */
module MarketWitnesses {
  import opened Common
  import opened BidOrder
  import opened Market
  import opened MarketRuns
  import opened MarketEndings
  import opened MarketPayments
  import opened Redelivery
  import opened MarketEffects
  import opened MarketTimes

  const FIRST_BID := Bid(0, 1, 20.0, 5)
  const SECOND_BID := Bid(0, 2, 30.0, 6)

  const AFTER_ONE_BID := World(
    map[0 := Auction(9, 10.0, 100, 20.0, ACTIVE, Some(1), None, false, UNPAID, None, [])], [FIRST_BID],
    map[1 := {0}, 2 := {}],
    map[(9, DedupeKey(AuctionCreated, 0, 9)) := SYSTEM], map[EndJob(0) := 100])

  const AFTER_TWO_BIDS := AFTER_ONE_BID.(
    auctions := map[0 := Auction(9, 10.0, 100, 30.0, ACTIVE, Some(2), None, false, UNPAID, None, [])],
    bids := [FIRST_BID, SECOND_BID],
    biddedAuctions := map[1 := {0}, 2 := {0}],
    notes := AFTER_ONE_BID.notes[(1, DedupeKey(OutBid(30.0), 0, 1)) := OUTBID])

  /** Two registered users, and a bid by the first. */
  lemma OneBid() returns (events: seq<Event>)
    ensures Run(EMPTY, events) == AFTER_ONE_BID
  {
    hide Run;
    NothingRun();
    events := RunMore([], UserCreated(1));
    events := RunMore(events, UserCreated(2));
    events := RunMore(events, AuctionPosted(0, 9, 10.0, 0, 100, 0, Faults(false, false)));
    events := RunMore(events, BidSent(1, 0, 20.0, 5));
    assert [] + [FIRST_BID] == [FIRST_BID];
    OnlyMember();
    assert Run(EMPTY, events).biddedAuctions == AFTER_ONE_BID.biddedAuctions;
  }

  lemma OnlyMember()
    ensures var none: set<AuctionId> := {}; none + {0} == {0}
  {
  }

  lemma BidsOfOne(x: Bid)
    ensures BidsFor([x], x.auctionId) == [x] && Latest([x]) == Some(x)
  {
    BidsForAppend([], x, x.auctionId);
    assert [] + [x] == [x];
  }

  lemma TwoBids() returns (events: seq<Event>)
    ensures Run(EMPTY, events) == AFTER_TWO_BIDS
  {
    hide Run;
    events := OneBid();
    BidsOfOne(FIRST_BID);
    events := RunMore(events, BidSent(2, 0, 30.0, 6));
    hide BidsFor, Latest;
    assert [FIRST_BID] + [SECOND_BID] == [FIRST_BID, SECOND_BID];
    OnlyMember();
    assert Run(EMPTY, events).biddedAuctions == AFTER_TWO_BIDS.biddedAuctions;
  }

  /** The bidder of the second bid has won, and their payment window is running. */
  lemma Awarded() returns (events: seq<Event>)
    ensures
      var w := Run(EMPTY, events);
      && 0 in w.auctions && w.auctions[0].winner == Some(2) && w.auctions[0].paymentStatus == UNPAID
      && w.bids == [FIRST_BID, SECOND_BID] && w.queue.Keys == {EndJob(0), ReminderJob(0, 2), ExpiredJob(0, 2)}
      && ReassignedKey(0, 1) !in w.notes && w.biddedAuctions.Keys == {1, 2}
      && w.auctions[0].status == ENDED && w.auctions[0].currentPrice == 30.0
  {
    hide Run;
    events := TwoBids();
    hide HandleEndAuction;
    AttemptWrites(AFTER_TWO_BIDS, 0, 100, END_WRITES);
    events := RunMore(events, EndDelivered(0, 100, END_WRITES));
    var a := Run(EMPTY, events).auctions[0];
    assert Undated(a).winner == a.winner && Undated(a).paymentStatus == a.paymentStatus;
    assert Undated(a).status == a.status && Undated(a).currentPrice == a.currentPrice;
  }

  lemma OtherOfTwo(a: Auction)
    requires AuctionOk(a, [FIRST_BID, SECOND_BID])
    ensures NextHighestBidder([FIRST_BID, SECOND_BID], 2) == Some(FIRST_BID)
  {
    BackupUnderRules([FIRST_BID, SECOND_BID], a.createdBy, a.startingPrice, 2);
  }

  lemma BothBids()
    ensures BidsFor([FIRST_BID, SECOND_BID], 0) == [FIRST_BID, SECOND_BID]
  {
    BidsForAppend([FIRST_BID], SECOND_BID, 0);
    BidsOfOne(FIRST_BID);
    assert [FIRST_BID] + [SECOND_BID] == [FIRST_BID, SECOND_BID];
  }

  lemma AwardedSwitches(w: World)
    requires Inv(w) && 0 in w.auctions && w.auctions[0].winner == Some(2) && w.auctions[0].paymentStatus == UNPAID
    requires w.bids == [FIRST_BID, SECOND_BID]
    ensures Switches(w, 0, 2, Switch, EXPIRED_WRITES) && NextAfter(w, 0, 2) == Some(1)
  {
    hide AuctionOk, NextHighestBidder, BidsFor;
    BothBids();
    OtherOfTwo(w.auctions[0]);
  }

  lemma Twice(w: World, id: AuctionId, user: UserId, a: Expiry, b: Expiry)
    ensures Expiries(w, id, user, [a, b]) ==
            HandlePaymentExpired(HandlePaymentExpired(w, id, user, a.mode, a.now, a.writes), id, user, b.mode, b.now, b.writes)
    ensures a.mode == Switch && a.writes >= 2 ==> FirstSwitch([a, b]) == Some(a)
  {
    hide HandlePaymentExpired;
    assert [a, b][..1] == [a] && [a][..0] == [];
    assert Expiries(w, id, user, [a]) == HandlePaymentExpired(w, id, user, a.mode, a.now, a.writes);
    assert a.mode == Switch && a.writes >= 2 ==> FirstSwitch([a]) == Some(a);
  }

  lemma HandlesExpiry(w: World, id: AuctionId, user: UserId, run: Expiry)
    ensures Step(w, ExpiredDelivered(id, user, run.mode, run.now, run.writes)) ==
            HandlePaymentExpired(w, id, user, run.mode, run.now, run.writes)
  {
    hide HandlePaymentExpired;
  }

  /** A run in which the expiry job is killed right after it replaced the winner: delivered again,
      it leaves the new winner without reminder, expiry job or notification. */
  lemma NewWinnerForgotten() returns (events: seq<Event>)
    ensures
      var w := Run(EMPTY, events);
      && 0 in w.auctions && w.auctions[0].winner == Some(1)
      && ReminderJob(0, 1) !in w.queue && ExpiredJob(0, 1) !in w.queue && ReassignedKey(0, 1) !in w.notes
  {
    hide Run, Step, Inv, Switches, NextAfter, Expiries, FirstSwitch, HandlePaymentExpired;
    events := Awarded();
    RunKeeps(events);
    var w := Run(EMPTY, events);
    AwardedSwitches(w);
    var killed, whole := Expiry(Switch, 200, 2), Expiry(Switch, 300, EXPIRED_WRITES);
    SwitchIsNotFinished(w, 0, 2, [killed, whole]);
    Twice(w, 0, 2, killed, whole);
    events := RunMore(events, ExpiredDelivered(0, 2, Switch, 200, 2));
    HandlesExpiry(w, 0, 2, killed);
    HandlesExpiry(Run(EMPTY, events), 0, 2, whole);
    events := RunMore(events, ExpiredDelivered(0, 2, Switch, 300, EXPIRED_WRITES));
  }

  /** An auction with a bid is swept before its end job arrives: the bidder is told that they won,
      and neither they nor the creator can make a payment link. */
  lemma ToldButSwept() returns (events: seq<Event>)
    ensures
      var w := Run(EMPTY, events);
      && 0 in w.auctions && w.auctions[0].status == ENDED && w.auctions[0].highestBidder == Some(1)
      && w.auctions[0].winner == None && ToldWon(w, 0, 1) && 1 in w.biddedAuctions
      && PaymentLink(w, 0, 1) == None && PaymentLink(w, 0, 9) == None && w.auctions[0].createdBy == 9
  {
    hide Run;
    events := OneBid();
    events := RunMore(events, Listed({0}, 100));
    events := RunMore(events, EndDelivered(0, 100, END_WRITES));
  }

  /** A payment link is made for one winner, the winner is replaced, and the provider reports the
      payment without naming a payer: the next bidder is credited, at their own price. */
  lemma PaymentCreditedToNext() returns (first: seq<Event>, rest: seq<Event>)
    ensures
      var w, t := Run(EMPTY, first), Run(Run(EMPTY, first), rest);
      && PaymentLink(w, 0, 2) == Some((2, 30.0))
      && 0 in t.auctions && t.auctions[0].paymentStatus == PAID
      && t.auctions[0].winner == Some(1) && t.auctions[0].currentPrice == 20.0
  {
    hide Run, Step, Switches, NextAfter, HandlePaymentExpired, AuctionOk, BidsFor, NextHighestBidder;
    first := Awarded();
    RunKeeps(first);
    var w := Run(EMPTY, first);
    AwardedSwitches(w);
    BothBids();
    OtherOfTwo(w.auctions[0]);
    rest := [ExpiredDelivered(0, 2, Switch, 200, EXPIRED_WRITES), WebhookReceived(0, SUCCESS, None)];
    RunTwo(w, rest[0], rest[1]);
    HandlesExpiry(w, 0, 2, Expiry(Switch, 200, EXPIRED_WRITES));
    SwitchedTo(w);
    PaidWithoutName(HandlePaymentExpired(w, 0, 2, Switch, 200, EXPIRED_WRITES));
  }

  lemma RunTwo(w: World, d: Event, e: Event)
    ensures Run(w, [d, e]) == Step(Step(w, d), e)
  {
    hide Step;
    assert [d, e][..1] == [d] && [d][..0] == [];
    assert Run(w, [d]) == Step(w, d);
  }

  lemma SwitchedTo(w: World)
    requires Switches(w, 0, 2, Switch, EXPIRED_WRITES) && BidsFor(w.bids, 0) == [FIRST_BID, SECOND_BID]
    requires NextHighestBidder([FIRST_BID, SECOND_BID], 2) == Some(FIRST_BID) && w.auctions[0].status == ENDED
    ensures
      var t := HandlePaymentExpired(w, 0, 2, Switch, 200, EXPIRED_WRITES);
      && 0 in t.auctions && t.auctions[0].status == ENDED && t.auctions[0].paymentStatus == UNPAID
      && t.auctions[0].winner == Some(1) && t.auctions[0].currentPrice == 20.0
  {
    hide NextHighestBidder;
    ExpiredWrites(w, 0, 2, 200, EXPIRED_WRITES);
    hide HandlePaymentExpired;
    var a := HandlePaymentExpired(w, 0, 2, Switch, 200, EXPIRED_WRITES).auctions[0];
    assert Undated(a).winner == a.winner && Undated(a).paymentStatus == a.paymentStatus;
    assert Undated(a).status == a.status && Undated(a).currentPrice == a.currentPrice;
  }

  lemma PaidWithoutName(w: World)
    requires 0 in w.auctions && w.auctions[0].status == ENDED && w.auctions[0].paymentStatus == UNPAID
    requires w.auctions[0].winner.Some?
    ensures
      var t := Step(w, WebhookReceived(0, SUCCESS, None));
      0 in t.auctions && t.auctions[0] == w.auctions[0].(paymentStatus := PAID)
  {
  }

  /** A late bid has ended the auction, and the winner has paid before any end job. */
  lemma PaidUnannounced() returns (events: seq<Event>)
    ensures
      var w := Run(EMPTY, events);
      && Unannounced(w, 0) && w.auctions[0].paymentStatus == PAID && w.auctions[0].status == ENDED
      && w.auctions[0].winner == Some(1) && w.auctions[0].highestBidder == Some(1)
  {
    hide Run;
    events := OneBid();
    events := RunMore(events, BidSent(2, 0, 30.0, 100));
    events := RunMore(events, PaymentConfirmed(0, 1));
  }

  /** The end job that arrives then queues payment jobs for a paid auction. */
  lemma PaidButBilled() returns (events: seq<Event>)
    ensures
      var w := Run(EMPTY, events);
      && 0 in w.auctions && w.auctions[0].paymentStatus == PAID && w.auctions[0].winner == Some(1)
      && ExpiredJob(0, 1) in w.queue && ReminderJob(0, 1) in w.queue
  {
    hide Run, HandleEndAuction;
    events := PaidUnannounced();
    EndAnnounces(Run(EMPTY, events), 0, 101);
    events := RunMore(events, EndDelivered(0, 101, END_WRITES));
  }

  /** The end job is killed after queueing the payment jobs and runs again: the jobs keep their time,
      before the new due date. */
  lemma ExpiryBeforeDate() returns (events: seq<Event>)
    ensures
      var w := Run(EMPTY, events);
      && 0 in w.auctions && w.auctions[0].winner == Some(2) && ExpiredJob(0, 2) in w.queue
      && DueDate(w, 0) == Some(w.queue[ExpiredJob(0, 2)] + 50)
  {
    hide Run, HandleEndAuction;
    events := TwoBids();
    var half := HandleEndAuction(AFTER_TWO_BIDS, 0, 100, 5);
    HalfAwarded(half);
    EndAnnounces(half, 0, 150);
    events := RunMore(events, EndDelivered(0, 100, 5));
    events := RunMore(events, EndDelivered(0, 150, END_WRITES));
  }

  lemma HalfAwarded(half: World)
    requires half == HandleEndAuction(AFTER_TWO_BIDS, 0, 100, 5)
    ensures Unannounced(half, 0) && half.auctions[0].highestBidder == Some(2) && half.auctions[0].winner == Some(2)
    ensures half.auctions[0].status == ENDED
    ensures ExpiredJob(0, 2) in half.queue && half.queue[ExpiredJob(0, 2)] == 100 + DAY
  {
    AttemptWrites(AFTER_TWO_BIDS, 0, 100, 5);
    EndTimely(AFTER_TWO_BIDS, 0, 100, 5);
    hide HandleEndAuction;
    var a := half.auctions[0];
    assert Undated(a).winner == a.winner && Undated(a).status == a.status && Undated(a).notified == a.notified
           && Undated(a).highestBidder == a.highestBidder;
  }
}
