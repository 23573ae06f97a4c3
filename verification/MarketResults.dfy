/** What winners, payers and profile pages may rely on in every world a run of handlers reaches. */
module MarketResults {
  import opened Common
  import opened BidOrder
  import opened Market
  import opened MarketRuns

  /** The search for a backup bidder never misses one, for any user it is asked to skip. */
  lemma BackupSearchIsComplete(events: seq<Event>, id: AuctionId, winner: UserId)
    ensures
      var w := Run(EMPTY, events);
      id in w.auctions ==>
        BestOther(BidsFor(w.bids, id), winner, NextHighestBidder(BidsFor(w.bids, id), winner))
  {
    RunKeeps(events);
    var w := Run(EMPTY, events);
    if id in w.auctions {
      BackupUnderRules(BidsFor(w.bids, id), w.auctions[id].createdBy, w.auctions[id].startingPrice, winner);
    }
  }

  /** On data the bidding rules would refuse, a hundred bids by the winner hide another bidder. */
  lemma CutoffMisses() returns (bids: seq<Bid>)
    ensures NextHighestBidder(bids, 1) == None && !BestOther(bids, 1, None)
  {
    var own := seq(100, i requires 0 <= i < 100 => Bid(0, 1, (i + 2) as real, i + 1));
    bids := [Bid(0, 2, 1.0, 0)] + own;
    assert bids[0].userId == 2 && bids[0] in bids;
    forall i, j | 0 <= i < j < |bids| ensures bids[i].amount < bids[j].amount {
      assert bids[j] == own[j - 1] && (i > 0 ==> bids[i] == own[i - 1]);
    }
    assert forall i :: 0 < i < |bids| ==> bids[i] == own[i - 1];
    OwnBidsHide(bids, 1);
  }

  lemma OwnBidsHide(bids: seq<Bid>, winner: UserId)
    requires |bids| > BACKUP_SEARCH_LIMIT
    requires forall i, j :: 0 <= i < j < |bids| ==> bids[i].amount < bids[j].amount
    requires forall i :: |bids| - BACKUP_SEARCH_LIMIT <= i < |bids| ==> bids[i].userId == winner
    ensures NextHighestBidder(bids, winner) == None
  {
    SortRising(bids);
    TakeIs(SortByAmount(bids));
    var top := Take(SortByAmount(bids), BACKUP_SEARCH_LIMIT);
    hide SortByAmount, Take;
    forall i | 0 <= i < |top| ensures top[i].userId == winner {
      assert top[i] == bids[|bids| - 1 - i];
    }
    FirstOtherIs(top, winner);
    assert FirstOther(top, winner).Some? ==> false;
  }

  // ----- Winners

  /** `price` is the largest bid `user` has on auction `id`. */
  ghost predicate OwnBest(bids: seq<Bid>, id: AuctionId, user: UserId, price: real) {
    && (exists b :: b in bids && b.auctionId == id && b.userId == user && b.amount == price)
    && (forall b :: b in bids && b.auctionId == id && b.userId == user ==> b.amount <= price)
  }

  lemma TurnIsOwnBest(bids: seq<Bid>, creator: UserId, start: real, n: nat)
    requires Rules(bids, creator, start) && (|bids| >= 2 || (n == 0 && bids != []))
    ensures Turn(bids, n) in bids
    ensures forall b :: b in bids && b.userId == Turn(bids, n).userId ==> b.amount <= Turn(bids, n).amount
  {
    TopTwo(bids, creator, start);
    var top := Turn(bids, n);
    forall b | b in bids && b.userId == top.userId ensures b.amount <= top.amount {
      NotAboveTopTwo(bids, creator, start, b);
    }
    hide Rules;
  }

  lemma WinnerIn(w: World, id: AuctionId)
    requires Inv(w) && id in w.auctions && w.auctions[id].winner.Some?
    ensures
      var a := w.auctions[id];
      && a.status == ENDED && a.highestBidder == a.winner && a.winner.value != a.createdBy
      && OwnBest(w.bids, id, a.winner.value, a.currentPrice)
  {
    var a, bids := w.auctions[id], BidsFor(w.bids, id);
    BidsForMembers(w.bids, id);
    TurnIsOwnBest(bids, a.createdBy, a.startingPrice, |a.winnerHistory|);
  }

  /** A winner is the highest bidder of an ended auction, not its creator, and the price is
      exactly the winner's own best bid, through any mix of ends, sweeps, decisions and switches. */
  lemma WinnerHoldsOwnBest(events: seq<Event>, id: AuctionId)
    ensures
      var w := Run(EMPTY, events);
      id in w.auctions && w.auctions[id].winner.Some? ==>
        var a := w.auctions[id];
        && a.status == ENDED && a.highestBidder == a.winner && a.winner.value != a.createdBy
        && OwnBest(w.bids, id, a.winner.value, a.currentPrice)
  {
    RunKeeps(events);
    var w := Run(EMPTY, events);
    if id in w.auctions && w.auctions[id].winner.Some? {
      WinnerIn(w, id);
    }
  }

  /** A payment link goes to the current winner of an unpaid ended auction and asks for their own
      best bid; nobody but the winner and the creator can make one. */
  lemma LinkChargesOwnBest(events: seq<Event>, id: AuctionId, actor: UserId)
    ensures
      var w := Run(EMPTY, events);
      match PaymentLink(w, id, actor)
      case Some((payer, amount)) =>
        && id in w.auctions && w.auctions[id].winner == Some(payer) && w.auctions[id].paymentStatus == UNPAID
        && (actor == payer || actor == w.auctions[id].createdBy)
        && OwnBest(w.bids, id, payer, amount)
      case None =>
        id in w.auctions && w.auctions[id].winner.Some? && w.auctions[id].paymentStatus == UNPAID
        && w.auctions[id].winner.value in w.biddedAuctions ==>
          actor != w.auctions[id].winner.value && actor != w.auctions[id].createdBy
  {
    RunKeeps(events);
    var w := Run(EMPTY, events);
    if id in w.auctions && w.auctions[id].winner.Some? {
      WinnerIn(w, id);
    }
  }

  // ----- Winner history

  /** The winner history followed by the current winner goes through the two highest bids in turn,
      the highest first. */
  ghost predicate Alternates(a: Auction, bids: seq<Bid>) {
    var n := |a.winnerHistory|;
    && (n > 0 ==> |bids| >= 2)
    && (forall i :: 0 <= i < n ==>
         a.winnerHistory[i].userId == Turn(bids, i).userId && a.winnerHistory[i].amount == Turn(bids, i).amount)
    && (a.winner.Some? ==>
         && bids != [] && a.winner.value == Turn(bids, n).userId && a.currentPrice == Turn(bids, n).amount
         && SortByAmount(bids)[n % 2] == Turn(bids, n))
  }

  lemma AlternatesIn(a: Auction, bids: seq<Bid>)
    requires AuctionOk(a, bids)
    ensures Alternates(a, bids)
  {
    TopTwo(bids, a.createdBy, a.startingPrice);
  }

  lemma HistoryAlternates(events: seq<Event>, id: AuctionId)
    ensures
      var w := Run(EMPTY, events);
      id in w.auctions ==> Alternates(w.auctions[id], BidsFor(w.bids, id))
  {
    RunKeeps(events);
    hide Run, Alternates;
    var w := Run(EMPTY, events);
    if id in w.auctions {
      AlternatesIn(w.auctions[id], BidsFor(w.bids, id));
    }
  }

  /** Two turns are the same bid, or bids of different users. */
  lemma TurnsMeet(bids: seq<Bid>, m: nat, n: nat)
    requires |bids| >= 2 || (m == n == 0 && bids != [])
    requires |bids| >= 2 ==> bids[|bids| - 2].userId != bids[|bids| - 1].userId
    ensures if (n - m) % 2 == 0 then Turn(bids, n) == Turn(bids, m) else Turn(bids, n).userId != Turn(bids, m).userId
  {
    assert (n - m) % 2 == 0 <==> m % 2 == n % 2;
  }

  /** Two replacements in a row restore winner, highest bidder and price. */
  lemma TwoReplacementsRestore(a: Auction, bids: seq<Bid>, b: Auction, c: Auction)
    requires AuctionOk(a, bids) && IsSwitch(a, bids, b) && IsSwitch(b, bids, c)
    ensures b.winner != a.winner
    ensures c.winner == a.winner && c.highestBidder == a.highestBidder && c.currentPrice == a.currentPrice
    ensures |c.winnerHistory| == |a.winnerHistory| + 2
  {
    SwitchKeepsOk(a, bids, b);
    SwitchKeepsOk(b, bids, c);
    SwitchGrows(a, bids, b);
    SwitchGrows(b, bids, c);
    WinnersTurn(a, bids);
    WinnersTurn(b, bids);
    WinnersTurn(c, bids);
    TopUsersDiffer(a, bids);
    hide AuctionOk, IsSwitch, Turn;
    TurnsMeet(bids, |a.winnerHistory|, |b.winnerHistory|);
    TurnsMeet(bids, |a.winnerHistory|, |c.winnerHistory|);
  }

  lemma SwitchGrows(a: Auction, bids: seq<Bid>, t: Auction)
    requires IsSwitch(a, bids, t)
    ensures a.winnerHistory <= t.winnerHistory && |t.winnerHistory| == |a.winnerHistory| + 1
    ensures t.winner.Some? && t.paymentStatus == UNPAID
  {
    var entry := t.winnerHistory[|t.winnerHistory| - 1];
    var s := Switched(a, a.winner.value, NextHighestBidder(bids, a.winner.value).value, entry.reason, entry.changedAt);
    assert Core(t).winnerHistory == Core(s).winnerHistory && Core(t).winner == Core(s).winner
           && Core(t).paymentStatus == Core(s).paymentStatus;
  }

  lemma ChangeGrows(a: Auction, bids: seq<Bid>, t: Auction, pays: bool)
    requires Change(a, bids, t, pays)
    ensures a.winnerHistory <= t.winnerHistory
  {
    if IsSwitch(a, bids, t) {
      SwitchGrows(a, bids, t);
    } else {
      assert Core(t).winnerHistory == a.winnerHistory;
    }
  }

  /** A step that keeps the auction only appends to its winner history. */
  lemma StepGrowsHistory(w: World, e: Event, id: AuctionId)
    requires id in w.auctions && id in Step(w, e).auctions
    ensures w.auctions[id].winnerHistory <= Step(w, e).auctions[id].winnerHistory
  {
    if Possible(w, e) {
      if Loud(w, e) {
        LoudStep(w, e, id);
      } else {
        QuietStep(w, e);
        ChangeGrows(w.auctions[id], BidsFor(w.bids, id), Step(w, e).auctions[id], PaidBy(e) == Some(id));
      }
    }
  }

  /** The auction is stored before, during and after the run. */
  ghost predicate StaysStored(w: World, events: seq<Event>, id: AuctionId) {
    && id in Run(w, events).auctions
    && (events != [] ==> StaysStored(w, events[..|events| - 1], id))
  }

  /** As long as an auction is not deleted, its winner history only grows by appending. */
  lemma {:induction false} HistoryOnlyGrows(w: World, events: seq<Event>, id: AuctionId)
    requires StaysStored(w, events, id)
    ensures id in w.auctions
    ensures w.auctions[id].winnerHistory <= Run(w, events).auctions[id].winnerHistory
  {
    hide Step;
    if events != [] {
      HistoryOnlyGrows(w, events[..|events| - 1], id);
      StepGrowsHistory(Run(w, events[..|events| - 1]), events[|events| - 1], id);
    }
  }

  // ----- Payments

  lemma PaidStays(w: World, e: Event, id: AuctionId)
    requires Inv(w) && id in w.auctions && w.auctions[id].paymentStatus == PAID
    ensures id in Step(w, e).auctions && Core(Step(w, e).auctions[id]) == Core(w.auctions[id])
  {
    if Possible(w, e) {
      if Loud(w, e) {
        LoudStep(w, e, id);
      } else {
        QuietStep(w, e);
        PaidChange(w.auctions[id], BidsFor(w.bids, id), Step(w, e).auctions[id], PaidBy(e) == Some(id));
      }
    }
  }

  lemma PaidChange(a: Auction, bids: seq<Bid>, t: Auction, pays: bool)
    requires Change(a, bids, t, pays) && Lifecycle(a) && a.paymentStatus == PAID
    ensures Core(t) == Core(a)
  {
  }

  lemma {:induction false} PaidHolds(w: World, events: seq<Event>, id: AuctionId)
    requires Inv(w) && id in w.auctions && w.auctions[id].paymentStatus == PAID
    ensures
      var t := Run(w, events);
      Inv(t) && id in t.auctions && Core(t.auctions[id]) == Core(w.auctions[id])
  {
    hide Inv, Step;
    if events != [] {
      var t := Run(w, events[..|events| - 1]);
      PaidHolds(w, events[..|events| - 1], id);
      assert Core(t.auctions[id]).paymentStatus == PAID;
      PaidStays(t, events[|events| - 1], id);
      StepKeeps(t, events[|events| - 1]);
    }
  }

  /** From PAID on, nothing about the auction changes except its notified flag and due date, and
      it is never deleted, whatever is repeated, reordered, late or stale. */
  lemma PaidIsFinal(first: seq<Event>, rest: seq<Event>, id: AuctionId)
    requires id in Run(EMPTY, first).auctions && Run(EMPTY, first).auctions[id].paymentStatus == PAID
    ensures
      var w := Run(EMPTY, first);
      var t := Run(w, rest);
      && id in t.auctions
      && t.auctions[id] == w.auctions[id].(notified := t.auctions[id].notified, paymentDueAt := t.auctions[id].paymentDueAt)
  {
    hide Run, Inv;
    RunKeeps(first);
    var w := Run(EMPTY, first);
    PaidHolds(w, rest, id);
    CoreFields(w.auctions[id], Run(w, rest).auctions[id]);
  }

  lemma CoreFields(a: Auction, t: Auction)
    requires Core(t) == Core(a)
    ensures t == a.(notified := t.notified, paymentDueAt := t.paymentDueAt)
  {
  }

  /** An auction becomes PAID only from ENDED with a winner, by a confirmation of that winner's
      payment, and nothing else of it changes then. */
  lemma PaidOnlyByTheWinner(w: World, e: Event, id: AuctionId)
    requires id in w.auctions && w.auctions[id].paymentStatus == UNPAID
    requires id in Step(w, e).auctions && Step(w, e).auctions[id].paymentStatus == PAID
    ensures
      var a := w.auctions[id];
      && a.status == ENDED && a.winner.Some?
      && (e == PaymentConfirmed(id, a.winner.value) || e == WebhookReceived(id, SUCCESS, None)
          || e == WebhookReceived(id, SUCCESS, a.winner))
      && Core(Step(w, e).auctions[id]) == Core(a.(paymentStatus := PAID))
  {
    PayingIsQuiet(w, e, id);
    BecomesPaid(w.auctions[id], BidsFor(w.bids, id), Step(w, e).auctions[id], PaidBy(e) == Some(id));
    hide Step, Quiet;
    PayerIsWinner(w, e, id);
  }

  lemma PayingIsQuiet(w: World, e: Event, id: AuctionId)
    requires id in w.auctions && w.auctions[id].paymentStatus == UNPAID
    requires id in Step(w, e).auctions && Step(w, e).auctions[id].paymentStatus == PAID
    ensures Step(w, e) == Handle(w, e) && Quiet(w, Handle(w, e), PaidBy(e))
  {
    hide Handle, Quiet;
    if Loud(w, e) {
      LoudStep(w, e, id);
      assert false;
    } else {
      QuietStep(w, e);
    }
  }

  lemma PayerIsWinner(w: World, e: Event, id: AuctionId)
    requires id in w.auctions && PaidBy(e) == Some(id) && Handle(w, e).auctions != w.auctions
    requires w.auctions[id].winner.Some?
    ensures
      var winner := w.auctions[id].winner;
      || e == PaymentConfirmed(id, winner.value)
      || e == WebhookReceived(id, SUCCESS, None) || e == WebhookReceived(id, SUCCESS, winner)
  {
    hide ConfirmPayment, Webhook;
    match e
    case PaymentConfirmed(_, user) => ConfirmedBy(w, id, user);
    case WebhookReceived(_, _, expected) => ProviderConfirmed(w, id, expected);
  }

  lemma BecomesPaid(a: Auction, bids: seq<Bid>, t: Auction, pays: bool)
    requires Change(a, bids, t, pays) && a.paymentStatus == UNPAID && t.paymentStatus == PAID
    ensures pays && a.status == ENDED && a.winner.Some? && Core(t) == Core(a.(paymentStatus := PAID))
  {
    assert Core(t).paymentStatus == PAID;
    if IsSwitch(a, bids, t) {
      SwitchGrows(a, bids, t);
    }
  }

  lemma ConfirmedBy(w: World, id: AuctionId, user: UserId)
    requires id in w.auctions && ConfirmPayment(w, id, user).0.auctions != w.auctions
    ensures w.auctions[id].winner == Some(user)
  {
  }

  lemma ProviderConfirmed(w: World, id: AuctionId, expected: Option<UserId>)
    requires id in w.auctions && Webhook(w, id, SUCCESS, expected).0.auctions != w.auctions
    ensures expected == None || w.auctions[id].winner == expected
  {
  }

  // ----- Statistics

  lemma {:induction false} CountAgrees(bids: seq<Bid>, user: UserId, ids: set<AuctionId>)
    requires forall b :: b in bids && b.userId == user ==> b.auctionId in ids
    ensures CountBidsIn(bids, user, ids) == CountBids(bids, user)
  {
    if bids != [] {
      assert bids[|bids| - 1] in bids;
      CountAgrees(bids[..|bids| - 1], user, ids);
    }
  }

  lemma WonWhereBid(w: World, user: UserId)
    requires Inv(w) && user in w.biddedAuctions
    ensures WonBy(w, user) <= w.biddedAuctions[user]
  {
    forall id | id in WonBy(w, user) ensures id in w.biddedAuctions[user] {
      WinnerIn(w, id);
      var b :| b in w.bids && b.auctionId == id && b.userId == user;
    }
  }

  lemma SweepKeepsCounts(w: World, ids: set<AuctionId>, now: Time, user: UserId)
    ensures
      var swept := Sweep(w, ids, now);
      swept.bids == w.bids && WonBy(swept, user) == WonBy(w, user) && Created(swept, user) == Created(w, user)
  {
  }

  lemma StatsIn(w: World, user: UserId, now: Time)
    requires Inv(w) && user in w.biddedAuctions
    ensures BidStats(w, user, now).1 == Some(Stats(CountBids(w.bids, user), |Created(w, user)|, |WonBy(w, user)|))
  {
    var ids := w.biddedAuctions[user];
    WonWhereBid(w, user);
    CountAgrees(w.bids, user, ids);
    SweepKeepsCounts(w, ids, now, user);
    hide Inv, Sweep, WonBy, Created, CountBids, CountBidsIn;
    assert WonBy(w, user) * ids == WonBy(w, user);
  }

  /** The positions of the user's bids. */
  ghost function BidsBy(bids: seq<Bid>, user: UserId): set<int> {
    set i | 0 <= i < |bids| && bids[i].userId == user
  }

  /** The statistics, filtered by the auctions the user is recorded to have bid on, count all the
      user's stored bids and all the auctions they won, also after auctions were deleted. */
  lemma StatsCountEverything(events: seq<Event>, user: UserId, now: Time)
    ensures
      var w := Run(EMPTY, events);
      user in w.biddedAuctions ==>
        BidStats(w, user, now).1 == Some(Stats(
          |BidsBy(w.bids, user)|,
          |set id | id in w.auctions && w.auctions[id].createdBy == user|,
          |set id | id in w.auctions && w.auctions[id].winner == Some(user)|))
  {
    RunKeeps(events);
    hide Run, BidStats;
    var w := Run(EMPTY, events);
    if user in w.biddedAuctions {
      StatsIn(w, user, now);
      CountIsSize(w.bids, user);
      hide CountBids;
      assert Created(w, user) == set id | id in w.auctions && w.auctions[id].createdBy == user;
      assert WonBy(w, user) == set id | id in w.auctions && w.auctions[id].winner == Some(user);
    }
  }

  lemma {:induction false} CountIsSize(bids: seq<Bid>, user: UserId)
    ensures CountBids(bids, user) == |BidsBy(bids, user)|
  {
    if bids == [] {
      assert BidsBy(bids, user) == {};
    } else {
      var n := |bids| - 1;
      CountIsSize(bids[..n], user);
      assert BidsBy(bids, user) == BidsBy(bids[..n], user) + if bids[n].userId == user then {n} else {};
    }
  }
}
