/** Runs of handlers over the whole database, and what every one of them keeps. */
module MarketRuns {
  import opened Common
  import opened BidOrder
  import opened Market

  /** A request or a job delivery. Jobs are delivered whenever and as often as the environment
      likes, whether or not the queue holds them, and may stop after any number of writes. */
  datatype Event =
    | UserCreated(user: UserId)
    | AuctionPosted(id: AuctionId, creator: UserId, price: real, start: Time, end: Time, now: Time, faults: Faults)
    | BidSent(user: UserId, id: AuctionId, amount: real, now: Time)
    | EndDelivered(id: AuctionId, now: Time, writes: nat)
    | EndRequested(id: AuctionId, actor: UserId, now: Time)
    | CancelSent(id: AuctionId, actor: UserId)
    | DeleteSent(id: AuctionId, actor: UserId)
    | Listed(ids: set<AuctionId>, now: Time)
    | PaymentConfirmed(id: AuctionId, user: UserId)
    | WebhookReceived(id: AuctionId, status: ProviderStatus, expected: Option<UserId>)
    | DecisionSent(id: AuctionId, creator: UserId, action: Decision, now: Time)
    | ReminderDelivered(id: AuctionId, user: UserId)
    | ExpiredDelivered(id: AuctionId, user: UserId, mode: ExpiryMode, now: Time, writes: nat)
    | JobGone(job: JobId)

  /** New documents get ids that are not in use, and the bids of one auction get strictly
      increasing creation times. */
  ghost predicate Possible(w: World, e: Event) {
    match e
    case UserCreated(user) => user !in w.biddedAuctions && forall b :: b in w.bids ==> b.userId != user
    case AuctionPosted(id, _, _, _, _, _, _) => id !in w.auctions
    case BidSent(_, id, _, now) => forall b :: b in w.bids && b.auctionId == id ==> b.createdAt < now
    case _ => true
  }

  function Handle(w: World, e: Event): World {
    match e
    case UserCreated(user) => w.(biddedAuctions := w.biddedAuctions[user := {}])
    case AuctionPosted(id, creator, price, start, end, now, faults) =>
      Create(w, id, creator, price, start, end, now, faults).0
    case BidSent(user, id, amount, now) => PlaceBid(w, user, id, amount, now).0
    case EndDelivered(id, now, writes) => HandleEndAuction(w, id, now, writes)
    case EndRequested(id, actor, now) => RequestImmediateEnd(w, id, actor, now).0
    case CancelSent(id, actor) => Cancel(w, id, actor).0
    case DeleteSent(id, actor) => Delete(w, id, actor).0
    case Listed(ids, now) => Sweep(w, ids, now)
    case PaymentConfirmed(id, user) => ConfirmPayment(w, id, user).0
    case WebhookReceived(id, status, expected) => Webhook(w, id, status, expected).0
    case DecisionSent(id, creator, action, now) => Decide(w, id, creator, action, now).0
    case ReminderDelivered(id, user) => HandlePaymentReminder(w, id, user)
    case ExpiredDelivered(id, user, mode, now, writes) => HandlePaymentExpired(w, id, user, mode, now, writes)
    case JobGone(job) => Dequeue(w, {job})
  }

  ghost function Step(w: World, e: Event): World {
    if Possible(w, e) then Handle(w, e) else w
  }

  /** The world after a run of handlers. */
  ghost function Run(w: World, events: seq<Event>): World {
    if events == [] then w else Step(Run(w, events[..|events| - 1]), events[|events| - 1])
  }

  // ----- The invariant of one auction

  /** The bidding rules as the stored bids of one auction show them, in creation order. */
  ghost predicate Rules(bids: seq<Bid>, creator: UserId, start: real) {
    && (forall i, j :: 0 <= i < j < |bids| ==> bids[i].amount < bids[j].amount && bids[i].createdAt < bids[j].createdAt)
    && (forall i, j :: 0 <= i < j < |bids| && j == i + 1 ==> bids[i].userId != bids[j].userId)
    && (forall b :: b in bids ==> start < b.amount && b.userId != creator)
  }

  /** The bid on offer after `n` replacements: the top two take turns. */
  function Turn(bids: seq<Bid>, n: nat): Bid
    requires |bids| >= 2 || (n == 0 && bids != [])
  {
    bids[|bids| - 1 - n % 2]
  }

  ghost predicate Shows(a: Auction, bids: seq<Bid>) {
    var n := |a.winnerHistory|;
    && (n > 0 ==> |bids| >= 2)
    && (if bids == [] then a.highestBidder == None && a.currentPrice == a.startingPrice
        else a.highestBidder == Some(Turn(bids, n).userId) && a.currentPrice == Turn(bids, n).amount)
    && (forall i :: 0 <= i < n ==>
          a.winnerHistory[i].userId == Turn(bids, i).userId && a.winnerHistory[i].amount == Turn(bids, i).amount)
  }

  ghost predicate Lifecycle(a: Auction) {
    && (a.status == ACTIVE ==> a.winner == None && a.winnerHistory == [])
    && (a.winner.Some? ==> a.status == ENDED && a.winner == a.highestBidder)
    && (a.paymentStatus == PAID ==> a.status == ENDED && a.winner.Some?)
  }

  ghost predicate AuctionOk(a: Auction, bids: seq<Bid>) {
    Rules(bids, a.createdBy, a.startingPrice) && Shows(a, bids) && Lifecycle(a)
  }

  ghost predicate AuctionsOk(w: World) {
    forall id :: id in w.auctions ==> AuctionOk(w.auctions[id], BidsFor(w.bids, id))
  }

  /** Bids belong to stored auctions, and their users know that they bid there. */
  ghost predicate BidsOk(w: World) {
    forall b :: b in w.bids ==>
      b.auctionId in w.auctions && (b.userId in w.biddedAuctions ==> b.auctionId in w.biddedAuctions[b.userId])
  }

  ghost predicate Inv(w: World) {
    AuctionsOk(w) && BidsOk(w)
  }

  // ----- The backup search

  /** What an unbounded search would answer: the largest bid of anybody else. */
  ghost predicate BestOther(bids: seq<Bid>, winner: UserId, answer: Option<Bid>) {
    match answer
    case None => forall b :: b in bids ==> b.userId == winner
    case Some(best) => best in bids && best.userId != winner
                       && forall b :: b in bids && b.userId != winner ==> b.amount <= best.amount
  }

  lemma {:induction false} FirstOtherIs(s: seq<Bid>, winner: UserId)
    ensures
      match FirstOther(s, winner)
      case None => forall i :: 0 <= i < |s| ==> s[i].userId == winner
      case Some(b) => exists i :: 0 <= i < |s| && s[i] == b && b.userId != winner
                                  && forall j :: 0 <= j < i ==> s[j].userId == winner
  {
    if s != [] && s[0].userId == winner {
      FirstOtherIs(s[1..], winner);
      match FirstOther(s[1..], winner)
      case None =>
        forall i | 0 <= i < |s| ensures s[i].userId == winner {
          assert i > 0 ==> s[i] == s[1..][i - 1];
        }
      case Some(b) =>
        var i :| 0 <= i < |s[1..]| && s[1..][i] == b && b.userId != winner
                 && forall j :: 0 <= j < i ==> s[1..][j].userId == winner;
        assert s[i + 1] == b;
        assert forall j :: 0 < j < i + 1 ==> s[j] == s[1..][j - 1];
    }
  }

  lemma TakeIs(s: seq<Bid>)
    ensures
      var top := Take(s, BACKUP_SEARCH_LIMIT);
      && |top| == (if |s| < BACKUP_SEARCH_LIMIT then |s| else BACKUP_SEARCH_LIMIT)
      && forall i :: 0 <= i < |top| ==> top[i] == s[i]
  {
  }

  /** On any collection of bids, the search that stops after the top hundred agrees with an
      unbounded one exactly when one of those is not the winner's, or all bids are. */
  lemma CutoffIsExact(bids: seq<Bid>, winner: UserId)
    ensures
      BestOther(bids, winner, NextHighestBidder(bids, winner)) <==>
        SomeOther(Take(SortByAmount(bids), 100), winner) || !SomeOther(bids, winner)
  {
    hide Take, FirstOther;
    var sorted := SortByAmount(bids);
    var top := Take(sorted, BACKUP_SEARCH_LIMIT);
    TakeIs(sorted);
    FirstOtherIs(top, winner);
    if FirstOther(top, winner).Some? {
      var best := FirstOther(top, winner).value;
      var i :| 0 <= i < |top| && top[i] == best && best.userId != winner
               && forall j :: 0 <= j < i ==> top[j].userId == winner;
      assert sorted[i] == best;
      BestOfSorted(sorted, winner, i);
    } else {
      assert !SomeOther(top, winner);
    }
  }

  ghost predicate SomeOther(bids: seq<Bid>, winner: UserId) {
    exists b :: b in bids && b.userId != winner
  }

  lemma BestOfSorted(sorted: seq<Bid>, winner: UserId, i: nat)
    requires Sorted(sorted) && i < |sorted| && sorted[i].userId != winner
    requires forall j :: 0 <= j < i ==> sorted[j].userId == winner
    ensures forall b :: b in sorted && b.userId != winner ==> b.amount <= sorted[i].amount
  {
    forall b | b in sorted && b.userId != winner ensures b.amount <= sorted[i].amount {
      var j :| 0 <= j < |sorted| && sorted[j] == b;
      assert i < j ==> Before(sorted[i], sorted[j]);
    }
  }

  /** Under the bidding rules the second of the two top bids is by somebody else than the first,
      so the search always ends within two bids. */
  lemma BackupUnderRules(bids: seq<Bid>, creator: UserId, start: real, winner: UserId)
    requires Rules(bids, creator, start)
    ensures BestOther(bids, winner, NextHighestBidder(bids, winner))
    ensures NextHighestBidder(bids, winner) ==
            if bids != [] && bids[|bids| - 1].userId != winner then Some(bids[|bids| - 1])
            else if |bids| >= 2 then Some(bids[|bids| - 2])
            else None
  {
    SecondAtMost(bids, creator, start, winner);
    TopTwo(bids, creator, start);
    hide NextHighestBidder, SortByAmount, Rules;
    forall b | b in bids && b.userId != winner
      ensures NextHighestBidder(bids, winner).Some? && b.amount <= NextHighestBidder(bids, winner).value.amount
    {
      NotAboveTopTwo(bids, creator, start, b);
    }
    if |bids| >= 1 {
      assert bids[|bids| - 1] in bids;
    }
    if |bids| >= 2 {
      assert bids[|bids| - 2] in bids;
    }
  }

  /** A bid is the top one, or not above the second. */
  lemma NotAboveTopTwo(bids: seq<Bid>, creator: UserId, start: real, b: Bid)
    requires Rules(bids, creator, start) && b in bids
    ensures b.amount <= bids[|bids| - 1].amount
    ensures b == bids[|bids| - 1] || (|bids| >= 2 && b.amount <= bids[|bids| - 2].amount)
  {
    var i :| 0 <= i < |bids| && bids[i] == b;
  }

  lemma SecondAtMost(bids: seq<Bid>, creator: UserId, start: real, winner: UserId)
    requires Rules(bids, creator, start)
    ensures NextHighestBidder(bids, winner) ==
            if bids != [] && bids[|bids| - 1].userId != winner then Some(bids[|bids| - 1])
            else if |bids| >= 2 then Some(bids[|bids| - 2])
            else None
  {
    TopTwo(bids, creator, start);
    var sorted := SortByAmount(bids);
    var top := Take(sorted, BACKUP_SEARCH_LIMIT);
    TakeIs(sorted);
    if |bids| >= 2 {
      assert top[1..][0] == sorted[1];
      assert top[0].userId == winner ==> FirstOther(top[1..], winner) == Some(sorted[1]);
    } else if |bids| == 1 {
      assert top[1..] == [];
      assert FirstOther(top[1..], winner) == None;
    } else {
      assert top == [];
    }
  }

  lemma TopTwo(bids: seq<Bid>, creator: UserId, start: real)
    requires Rules(bids, creator, start)
    ensures |bids| >= 1 ==> SortByAmount(bids)[0] == bids[|bids| - 1]
    ensures |bids| >= 2 ==> SortByAmount(bids)[1] == bids[|bids| - 2]
    ensures |bids| >= 2 ==> bids[|bids| - 2].userId != bids[|bids| - 1].userId
  {
    SortRising(bids);
    if |bids| >= 2 {
      assert bids[|bids| - 2].userId != bids[|bids| - 1].userId;
    }
  }

  // ----- Every handler keeps the invariant

  lemma {:induction false} LatestIsLast(bids: seq<Bid>)
    requires forall i, j :: 0 <= i < j < |bids| ==> bids[i].createdAt < bids[j].createdAt
    ensures Latest(bids) == if bids == [] then None else Some(bids[|bids| - 1])
  {
    if bids != [] {
      LatestIsLast(bids[..|bids| - 1]);
    }
  }

  /** An auction up to its notified flag and due date, which no rule depends on. */
  function Core(a: Auction): Auction {
    a.(notified := false, paymentDueAt := None)
  }

  ghost predicate IsSwitch(a: Auction, bids: seq<Bid>, t: Auction) {
    && a.winner.Some? && a.paymentStatus == UNPAID && t.winnerHistory != []
    && NextHighestBidder(bids, a.winner.value).Some?
    && var entry := t.winnerHistory[|t.winnerHistory| - 1];
       Core(t) == Core(Switched(a, a.winner.value, NextHighestBidder(bids, a.winner.value).value,
                                entry.reason, entry.changedAt))
  }

  /** What a handler that stores and deletes no bid can do to one auction, which it marks PAID
      only if it `pays`. */
  ghost predicate Change(a: Auction, bids: seq<Bid>, t: Auction, pays: bool) {
    || Core(t) == Core(a)
    || (a.status == ACTIVE && Core(t) == Core(Ended(a)))
    || (a.status == ACTIVE && Core(t) == Core(a.(status := ENDED)))
    || (a.paymentStatus == UNPAID && Core(t) == Core(a.(status := CANCELLED, winner := None)))
    || (pays && a.status == ENDED && a.winner.Some? && Core(t) == Core(a.(paymentStatus := PAID)))
    || IsSwitch(a, bids, t)
  }

  /** A handler that stores and deletes no bid, no auction and no user's membership. */
  ghost predicate Quiet(w: World, t: World, paid: Option<AuctionId>) {
    && t.bids == w.bids && t.biddedAuctions == w.biddedAuctions && t.auctions.Keys == w.auctions.Keys
    && forall id :: id in w.auctions ==> Change(w.auctions[id], BidsFor(w.bids, id), t.auctions[id], paid == Some(id))
  }

  /** The auction whose payment the event confirms. */
  ghost function PaidBy(e: Event): Option<AuctionId> {
    if e.PaymentConfirmed? || (e.WebhookReceived? && e.status == SUCCESS) then Some(e.id) else None
  }

  /** All but these four change no more than `Change` allows. */
  ghost predicate Loud(w: World, e: Event) {
    || e.UserCreated? || e.AuctionPosted?
    || (e.BidSent? && PlaceBid(w, e.user, e.id, e.amount, e.now).1 == Done)
    || (e.DeleteSent? && Delete(w, e.id, e.actor).1 == Done)
  }

  lemma QuietOne(w: World, t: World, id: AuctionId, paid: Option<AuctionId>)
    requires t.bids == w.bids && t.biddedAuctions == w.biddedAuctions && t.auctions.Keys == w.auctions.Keys
    requires forall other :: other in w.auctions && other != id ==> t.auctions[other] == w.auctions[other]
    requires id in w.auctions ==> Change(w.auctions[id], BidsFor(w.bids, id), t.auctions[id], paid == Some(id))
    ensures Quiet(w, t, paid)
  {
  }

  lemma QuietSame(w: World, t: World)
    requires t.bids == w.bids && t.biddedAuctions == w.biddedAuctions && t.auctions == w.auctions
    ensures Quiet(w, t, None)
  {
  }

  lemma EndWrites(w: World, id: AuctionId, now: Time, writes: nat)
    requires id in w.auctions && writes > 0
    ensures
      var t := HandleEndAuction(w, id, now, writes);
      && t.bids == w.bids && t.biddedAuctions == w.biddedAuctions
      && id in t.auctions && t.auctions == w.auctions[id := t.auctions[id]]
      && Core(t.auctions[id]) == Core(End(w.auctions[id]))
  {
    var a := End(w.auctions[id]);
    var ended := PutAuction(w, id, a);
    hide Invite;
    if a.highestBidder.Some? {
      InviteOnlyDates(ended, id, a.highestBidder.value, now, writes);
    }
  }

  lemma InviteOnlyDates(w: World, id: AuctionId, user: UserId, now: Time, writes: nat)
    requires id in w.auctions
    ensures
      var t := Invite(w, id, user, now, writes);
      && t == w.(queue := t.queue, notes := t.notes, auctions := t.auctions)
      && t.auctions == w.auctions[id := t.auctions[id]]
      && t.auctions[id] == w.auctions[id].(paymentDueAt := t.auctions[id].paymentDueAt)
  {
    hide ScheduleUpTo;
    var told := if writes >= 2 then Notify(w, user, Won, id, user, AUCTION_WON) else w;
    ScheduleOnlyDates(told, id, user, now, writes - 2);
  }

  lemma EndIsQuiet(w: World, id: AuctionId, now: Time, writes: nat)
    ensures Quiet(w, HandleEndAuction(w, id, now, writes), None)
  {
    if id in w.auctions && writes > 0 {
      EndWrites(w, id, now, writes);
      QuietOne(w, HandleEndAuction(w, id, now, writes), id, None);
    } else {
      QuietSame(w, HandleEndAuction(w, id, now, writes));
    }
  }

  /** Scheduling touches the queue and the due date of one auction. */
  lemma ScheduleOnlyDates(w: World, id: AuctionId, user: UserId, now: Time, writes: int)
    requires id in w.auctions
    ensures
      var t := ScheduleUpTo(w, id, user, now, writes);
      && t == w.(queue := t.queue, auctions := t.auctions)
      && t.auctions == w.auctions[id := t.auctions[id]]
      && t.auctions[id] == w.auctions[id].(paymentDueAt := t.auctions[id].paymentDueAt)
  {
  }

  lemma DecideIsQuiet(w: World, id: AuctionId, creator: UserId, action: Decision, now: Time)
    ensures Quiet(w, Decide(w, id, creator, action, now).0, None)
  {
    hide Decide, Core, IsSwitch, Quiet;
    var (t, reply) := Decide(w, id, creator, action, now);
    if reply != Done {
      UndecidedWrites(w, id, creator, action, now);
      QuietSame(w, t);
    } else {
      if action == KeepCurrent {
        KeepWrites(w, id, creator, now);
      } else {
        PushWrites(w, id, creator, now);
      }
      QuietOne(w, t, id, None);
    }
  }

  lemma UndecidedWrites(w: World, id: AuctionId, creator: UserId, action: Decision, now: Time)
    requires Decide(w, id, creator, action, now).1 != Done
    ensures Decide(w, id, creator, action, now).0 == w
  {
    hide NextHighestBidder;
  }

  lemma KeepWrites(w: World, id: AuctionId, creator: UserId, now: Time)
    requires Decide(w, id, creator, KeepCurrent, now).1 == Done
    ensures
      var t := Decide(w, id, creator, KeepCurrent, now).0;
      && t.bids == w.bids && t.biddedAuctions == w.biddedAuctions
      && id in w.auctions && id in t.auctions && t.auctions == w.auctions[id := t.auctions[id]]
      && Core(t.auctions[id]) == Core(w.auctions[id])
  {
    var current := w.auctions[id].winner.value;
    ScheduleOnlyDates(Dequeue(w, PaymentJobs(id, current)), id, current, now, 3);
  }

  lemma PushWrites(w: World, id: AuctionId, creator: UserId, now: Time)
    requires Decide(w, id, creator, PushNext, now).1 == Done
    ensures
      var t := Decide(w, id, creator, PushNext, now).0;
      && t.bids == w.bids && t.biddedAuctions == w.biddedAuctions
      && id in w.auctions && id in t.auctions && t.auctions == w.auctions[id := t.auctions[id]]
      && IsSwitch(w.auctions[id], BidsFor(w.bids, id), t.auctions[id])
  {
    hide NextHighestBidder;
    var a, bids := w.auctions[id], BidsFor(w.bids, id);
    var current := a.winner.value;
    var next := NextHighestBidder(bids, current).value;
    var stored := PutAuction(w, id, Switched(a, current, next, CreatorPushedNext, now));
    var t := Decide(w, id, creator, PushNext, now).0;
    ScheduleOnlyDates(Dequeue(stored, PaymentJobs(id, current)), id, next.userId, now, 3);
    SwitchSeen(a, bids, t.auctions[id], next, CreatorPushedNext, now);
  }

  lemma SwitchSeen(a: Auction, bids: seq<Bid>, t: Auction, next: Bid, reason: Reason, now: Time)
    requires a.winner.Some? && a.paymentStatus == UNPAID && NextHighestBidder(bids, a.winner.value) == Some(next)
    requires Core(t) == Core(Switched(a, a.winner.value, next, reason, now))
    ensures IsSwitch(a, bids, t)
  {
    var s := Switched(a, a.winner.value, next, reason, now);
    assert t.winnerHistory == s.winnerHistory by {
      assert Core(t).winnerHistory == Core(s).winnerHistory;
    }
  }

  lemma ExpiredIsQuiet(w: World, id: AuctionId, user: UserId, mode: ExpiryMode, now: Time, writes: nat)
    ensures Quiet(w, HandlePaymentExpired(w, id, user, mode, now, writes), None)
  {
    if Switches(w, id, user, mode, writes) {
      ExpiredSwitches(w, id, user, mode, now, writes);
      QuietOne(w, HandlePaymentExpired(w, id, user, mode, now, writes), id, None);
    } else {
      QuietSame(w, HandlePaymentExpired(w, id, user, mode, now, writes));
    }
  }

  /** When `handlePaymentExpired` gets as far as replacing the winner. */
  ghost predicate Switches(w: World, id: AuctionId, user: UserId, mode: ExpiryMode, writes: nat) {
    && id in w.auctions && w.auctions[id].paymentStatus == UNPAID && w.auctions[id].winner == Some(user)
    && writes >= 2 && mode == Switch && NextHighestBidder(BidsFor(w.bids, id), user).Some?
  }

  lemma ExpiredSwitches(w: World, id: AuctionId, user: UserId, mode: ExpiryMode, now: Time, writes: nat)
    requires Switches(w, id, user, mode, writes)
    ensures
      var t := HandlePaymentExpired(w, id, user, mode, now, writes);
      && t.bids == w.bids && t.biddedAuctions == w.biddedAuctions
      && id in t.auctions && t.auctions == w.auctions[id := t.auctions[id]]
      && IsSwitch(w.auctions[id], BidsFor(w.bids, id), t.auctions[id])
  {
    hide NextHighestBidder;
    var a, bids := w.auctions[id], BidsFor(w.bids, id);
    var next := NextHighestBidder(bids, user).value;
    var told := Notify(w, user, PaymentExpired, id, user, SYSTEM);
    var stored := PutAuction(told, id, Switched(a, user, next, AutoSwitch, now));
    var scheduled := ScheduleUpTo(stored, id, next.userId, now, writes - 2);
    var t := HandlePaymentExpired(w, id, user, mode, now, writes);
    assert t == if writes >= EXPIRED_WRITES
                then Notify(scheduled, next.userId, WinnerReassigned, id, next.userId, AUCTION_WON) else scheduled;
    ScheduleOnlyDates(stored, id, next.userId, now, writes - 2);
    assert t.auctions == scheduled.auctions && t.bids == scheduled.bids;
    SwitchSeen(a, bids, t.auctions[id], next, AutoSwitch, now);
  }

  lemma SweepIsQuiet(w: World, ids: set<AuctionId>, now: Time)
    ensures Quiet(w, Sweep(w, ids, now), None)
  {
  }

  lemma CancelIsQuiet(w: World, id: AuctionId, actor: UserId)
    ensures Quiet(w, Cancel(w, id, actor).0, None)
  {
    QuietOne(w, Cancel(w, id, actor).0, id, None);
  }

  lemma ConfirmIsQuiet(w: World, id: AuctionId, user: UserId)
    ensures Quiet(w, ConfirmPayment(w, id, user).0, Some(id))
  {
    QuietOne(w, ConfirmPayment(w, id, user).0, id, Some(id));
  }

  lemma ProviderIsQuiet(w: World, id: AuctionId, expected: Option<UserId>)
    ensures Quiet(w, ConfirmByProvider(w, id, expected).0, Some(id))
  {
    QuietOne(w, ConfirmByProvider(w, id, expected).0, id, Some(id));
  }

  lemma WebhookIsQuiet(w: World, id: AuctionId, status: ProviderStatus, expected: Option<UserId>)
    ensures Quiet(w, Webhook(w, id, status, expected).0, if status == SUCCESS then Some(id) else None)
  {
    QuietSame(w, w);
    ProviderIsQuiet(w, id, expected);
    ProviderKnows(w, id, expected);
    hide ConfirmByProvider, Change;
  }

  lemma ProviderKnows(w: World, id: AuctionId, expected: Option<UserId>)
    ensures !ConfirmByProvider(w, id, expected).1.Refused? ==> id in ConfirmByProvider(w, id, expected).0.auctions
  {
  }

  lemma RefusedBidIsQuiet(w: World, user: UserId, id: AuctionId, amount: real, now: Time)
    requires PlaceBid(w, user, id, amount, now).1 != Done
    ensures Quiet(w, PlaceBid(w, user, id, amount, now).0, None)
  {
    QuietOne(w, PlaceBid(w, user, id, amount, now).0, id, None);
  }

  lemma QuietStep(w: World, e: Event)
    requires !Loud(w, e)
    ensures Quiet(w, Handle(w, e), PaidBy(e))
  {
    hide Quiet, Change;
    match e
    case BidSent(user, id, amount, now) => RefusedBidIsQuiet(w, user, id, amount, now);
    case EndDelivered(id, now, writes) => EndIsQuiet(w, id, now, writes);
    case EndRequested(id, actor, now) => QuietSame(w, Handle(w, e));
    case CancelSent(id, actor) => CancelIsQuiet(w, id, actor);
    case DeleteSent(id, actor) => QuietSame(w, Handle(w, e));
    case Listed(ids, now) => SweepIsQuiet(w, ids, now);
    case PaymentConfirmed(id, user) => ConfirmIsQuiet(w, id, user);
    case WebhookReceived(id, status, expected) => WebhookIsQuiet(w, id, status, expected);
    case DecisionSent(id, creator, action, now) => DecideIsQuiet(w, id, creator, action, now);
    case ReminderDelivered(id, user) => QuietSame(w, Handle(w, e));
    case ExpiredDelivered(id, user, mode, now, writes) => ExpiredIsQuiet(w, id, user, mode, now, writes);
    case JobGone(job) => QuietSame(w, Handle(w, e));
  }

  /** What the other handlers do to a stored auction: a bid raises the price of an active one, and
      a deletion by the creator removes an unpaid one. */
  lemma LoudStep(w: World, e: Event, id: AuctionId)
    requires Possible(w, e) && Loud(w, e) && id in w.auctions
    ensures
      var t := Handle(w, e);
      if id !in t.auctions then w.auctions[id].paymentStatus == UNPAID && e == DeleteSent(id, w.auctions[id].createdBy)
      else
        || t.auctions[id] == w.auctions[id]
        || (w.auctions[id].status == ACTIVE && e.BidSent? && e.id == id
            && t.auctions[id] == w.auctions[id].(currentPrice := e.amount, highestBidder := Some(e.user)))
  {
    match e
    case BidSent(user, bidId, amount, now) => BidWrites(w, user, bidId, amount, now);
    case _ =>
  }

  lemma WinnersTurn(a: Auction, bids: seq<Bid>)
    requires AuctionOk(a, bids) && a.winner.Some?
    ensures |bids| >= 2 || (a.winnerHistory == [] && bids != [])
    ensures a.winner == Some(Turn(bids, |a.winnerHistory|).userId)
    ensures a.highestBidder == a.winner
    ensures a.currentPrice == Turn(bids, |a.winnerHistory|).amount
  {
    hide Rules, Turn;
  }

  lemma TopUsersDiffer(a: Auction, bids: seq<Bid>)
    requires AuctionOk(a, bids)
    ensures |bids| >= 2 ==> bids[|bids| - 2].userId != bids[|bids| - 1].userId
  {
    TopTwo(bids, a.createdBy, a.startingPrice);
    hide Rules, SortByAmount;
  }

  lemma OkRules(a: Auction, bids: seq<Bid>)
    requires AuctionOk(a, bids)
    ensures Rules(bids, a.createdBy, a.startingPrice)
  {
    hide Rules;
  }

  lemma NextIsTurn(a: Auction, bids: seq<Bid>)
    requires AuctionOk(a, bids) && a.winner.Some? && NextHighestBidder(bids, a.winner.value).Some?
    ensures |bids| >= 2 && NextHighestBidder(bids, a.winner.value).value == Turn(bids, |a.winnerHistory| + 1)
  {
    hide NextHighestBidder, Rules, AuctionOk, Turn;
    OkRules(a, bids);
    WinnersTurn(a, bids);
    TopUsersDiffer(a, bids);
    SecondAtMost(bids, a.createdBy, a.startingPrice, a.winner.value);
    OtherTurn(bids, |a.winnerHistory|, a.winner.value, NextHighestBidder(bids, a.winner.value));
  }

  /** Of the top two, whoever does not hold this turn has the next. */
  lemma OtherTurn(bids: seq<Bid>, n: nat, winner: UserId, next: Option<Bid>)
    requires bids != [] && (n > 0 ==> |bids| >= 2) && winner == Turn(bids, n).userId
    requires |bids| >= 2 ==> bids[|bids| - 2].userId != bids[|bids| - 1].userId
    requires next.Some?
    requires next == if bids[|bids| - 1].userId != winner then Some(bids[|bids| - 1])
                     else if |bids| >= 2 then Some(bids[|bids| - 2])
                     else None
    ensures |bids| >= 2 && next.value == Turn(bids, n + 1)
  {
    TurnFlips(n);
  }

  lemma TurnFlips(n: nat)
    ensures (n + 1) % 2 == 1 - n % 2
  {
  }

  lemma SwitchedShows(a: Auction, bids: seq<Bid>, next: Bid, reason: Reason, now: Time)
    requires AuctionOk(a, bids) && a.winner.Some? && a.paymentStatus == UNPAID
    requires |bids| >= 2 && next == Turn(bids, |a.winnerHistory| + 1)
    ensures AuctionOk(Switched(a, a.winner.value, next, reason, now), bids)
  {
    hide Rules;
  }

  /** Replacing the winner passes the turn. */
  lemma SwitchKeepsOk(a: Auction, bids: seq<Bid>, t: Auction)
    requires AuctionOk(a, bids) && IsSwitch(a, bids, t)
    ensures AuctionOk(t, bids)
    ensures |bids| >= 2 && t.winner == Some(Turn(bids, |a.winnerHistory| + 1).userId)
  {
    hide AuctionOk, Turn, NextHighestBidder;
    NextIsTurn(a, bids);
    var next := NextHighestBidder(bids, a.winner.value).value;
    var entry := t.winnerHistory[|t.winnerHistory| - 1];
    SwitchedShows(a, bids, next, entry.reason, entry.changedAt);
    CoreIsAll(Switched(a, a.winner.value, next, entry.reason, entry.changedAt), t, bids);
  }

  lemma CoreIsAll(a: Auction, t: Auction, bids: seq<Bid>)
    requires Core(t) == Core(a) && AuctionOk(a, bids)
    ensures AuctionOk(t, bids)
    ensures t == a.(notified := t.notified, paymentDueAt := t.paymentDueAt)
  {
  }

  lemma ChangeKeepsOk(a: Auction, bids: seq<Bid>, t: Auction, pays: bool)
    requires AuctionOk(a, bids) && Change(a, bids, t, pays)
    ensures AuctionOk(t, bids)
  {
    if IsSwitch(a, bids, t) {
      SwitchKeepsOk(a, bids, t);
    } else if Core(t) == Core(a) {
      CoreIsAll(a, t, bids);
    } else if Core(t) == Core(Ended(a)) {
      CoreIsAll(Ended(a), t, bids);
    } else if Core(t) == Core(a.(status := ENDED)) {
      CoreIsAll(a.(status := ENDED), t, bids);
    } else if Core(t) == Core(a.(status := CANCELLED, winner := None)) {
      CoreIsAll(a.(status := CANCELLED, winner := None), t, bids);
    } else {
      CoreIsAll(a.(paymentStatus := PAID), t, bids);
    }
  }

  lemma QuietKeeps(w: World, t: World, paid: Option<AuctionId>)
    requires Inv(w) && Quiet(w, t, paid)
    ensures Inv(t)
  {
    forall id | id in t.auctions ensures AuctionOk(t.auctions[id], BidsFor(t.bids, id)) {
      ChangeKeepsOk(w.auctions[id], BidsFor(w.bids, id), t.auctions[id], paid == Some(id));
    }
  }

  lemma RulesGrow(bids: seq<Bid>, b: Bid, creator: UserId, start: real)
    requires Rules(bids, creator, start)
    requires start < b.amount && b.userId != creator
    requires forall x :: x in bids ==> x.createdAt < b.createdAt
    requires bids != [] ==> bids[|bids| - 1].amount < b.amount && bids[|bids| - 1].userId != b.userId
    ensures Rules(bids + [b], creator, start)
  {
    var more := bids + [b];
    forall i, j | 0 <= i < j < |more|
      ensures more[i].amount < more[j].amount && more[i].createdAt < more[j].createdAt
      ensures j == i + 1 ==> more[i].userId != more[j].userId
    {
      if j == |bids| {
        assert bids[i] in bids;
      }
    }
  }

  lemma AcceptedBid(w: World, user: UserId, id: AuctionId, amount: real, now: Time)
    requires PlaceBid(w, user, id, amount, now).1 == Done
    ensures
      && id in w.auctions && w.auctions[id].createdBy != user && w.auctions[id].status == ACTIVE
      && w.auctions[id].currentPrice < amount
      && var latest := Latest(BidsFor(w.bids, id)); latest.Some? ==> latest.value.userId != user
  {
  }

  lemma BidExtends(a: Auction, bids: seq<Bid>, b: Bid)
    requires AuctionOk(a, bids) && a.status == ACTIVE && a.currentPrice < b.amount && a.createdBy != b.userId
    requires forall x :: x in bids ==> x.createdAt < b.createdAt
    requires bids != [] ==> bids[|bids| - 1].userId != b.userId
    ensures AuctionOk(a.(currentPrice := b.amount, highestBidder := Some(b.userId)), bids + [b])
  {
    assert bids != [] ==> bids[|bids| - 1] in bids;
    RulesGrow(bids, b, a.createdBy, a.startingPrice);
    hide Rules;
  }

  lemma BidKeepsOk(w: World, user: UserId, id: AuctionId, amount: real, now: Time)
    requires Inv(w) && Possible(w, BidSent(user, id, amount, now))
    requires PlaceBid(w, user, id, amount, now).1 == Done
    ensures AuctionOk(w.auctions[id].(currentPrice := amount, highestBidder := Some(user)),
                      BidsFor(w.bids, id) + [Bid(id, user, amount, now)])
  {
    var bids := BidsFor(w.bids, id);
    AcceptedBid(w, user, id, amount, now);
    BidsForMembers(w.bids, id);
    hide PlaceBid, Latest, Shows, Lifecycle;
    LatestIsLast(bids);
    BidExtends(w.auctions[id], bids, Bid(id, user, amount, now));
  }

  lemma BidKeeps(w: World, user: UserId, id: AuctionId, amount: real, now: Time)
    requires Inv(w) && Possible(w, BidSent(user, id, amount, now))
    requires PlaceBid(w, user, id, amount, now).1 == Done
    ensures Inv(PlaceBid(w, user, id, amount, now).0)
  {
    var t := PlaceBid(w, user, id, amount, now).0;
    var b := Bid(id, user, amount, now);
    var a := w.auctions[id].(currentPrice := amount, highestBidder := Some(user));
    BidKeepsOk(w, user, id, amount, now);
    BidWrites(w, user, id, amount, now);
    BidKeepsAuctions(w, t, id, b, a);
    BidKeepsBids(w, t, b);
  }

  lemma BidWrites(w: World, user: UserId, id: AuctionId, amount: real, now: Time)
    requires PlaceBid(w, user, id, amount, now).1 == Done
    ensures
      var t := PlaceBid(w, user, id, amount, now).0;
      && id in w.auctions && t.bids == w.bids + [Bid(id, user, amount, now)]
      && t.auctions == w.auctions[id := w.auctions[id].(currentPrice := amount, highestBidder := Some(user))]
      && t.biddedAuctions == AddBidded(w.biddedAuctions, user, id)
  {
  }

  lemma BidKeepsAuctions(w: World, t: World, id: AuctionId, b: Bid, a: Auction)
    requires AuctionsOk(w) && id in w.auctions && b.auctionId == id
    requires AuctionOk(a, BidsFor(w.bids, id) + [b])
    requires t.bids == w.bids + [b] && t.auctions == w.auctions[id := a]
    ensures AuctionsOk(t)
  {
    forall other | other in t.auctions ensures AuctionOk(t.auctions[other], BidsFor(t.bids, other)) {
      BidsForAppend(w.bids, b, other);
      if other == id {
        SameOk(a, BidsFor(w.bids, id) + [b], t.auctions[id], BidsFor(t.bids, id));
      } else {
        SameOk(w.auctions[other], BidsFor(w.bids, other), t.auctions[other], BidsFor(t.bids, other));
      }
    }
  }

  lemma SameOk(a: Auction, bids: seq<Bid>, a': Auction, bids': seq<Bid>)
    requires AuctionOk(a, bids) && a' == a && bids' == bids
    ensures AuctionOk(a', bids')
  {
  }

  lemma BidKeepsBids(w: World, t: World, b: Bid)
    requires BidsOk(w) && b.auctionId in w.auctions
    requires t.bids == w.bids + [b] && t.auctions.Keys == w.auctions.Keys
    requires t.biddedAuctions == AddBidded(w.biddedAuctions, b.userId, b.auctionId)
    ensures BidsOk(t)
  {
    forall x | x in t.bids
      ensures x.auctionId in t.auctions
              && (x.userId in t.biddedAuctions ==> x.auctionId in t.biddedAuctions[x.userId])
    {
      assert x in w.bids || x == b;
    }
  }

  lemma NoBidsYet(w: World, id: AuctionId)
    requires BidsOk(w) && id !in w.auctions
    ensures BidsFor(w.bids, id) == []
  {
    BidsForMembers(w.bids, id);
    var bids := BidsFor(w.bids, id);
    assert forall b :: b !in bids;
    FirstIsMember(bids);
  }

  lemma CreateKeeps(w: World, id: AuctionId, creator: UserId, price: real, start: Time, end: Time, now: Time,
                    faults: Faults)
    requires Inv(w) && id !in w.auctions
    ensures Inv(Create(w, id, creator, price, start, end, now, faults).0)
  {
    if start < end {
      var t := Create(w, id, creator, price, start, end, now, faults).0;
      var a := Auction(creator, price, end, price, ACTIVE, None, None, false, UNPAID, None, []);
      CreateWrites(w, id, creator, price, start, end, now, faults);
      NoBidsYet(w, id);
      NewOk(a);
      hide Create;
      PostedKeeps(w, t, id, a);
    }
  }

  lemma CreateWrites(w: World, id: AuctionId, creator: UserId, price: real, start: Time, end: Time, now: Time,
                     faults: Faults)
    requires start < end
    ensures
      var t := Create(w, id, creator, price, start, end, now, faults).0;
      && t.bids == w.bids && t.biddedAuctions == w.biddedAuctions
      && t.auctions == w.auctions[id := Auction(creator, price, end, price, ACTIVE, None, None, false, UNPAID, None, [])]
  {
  }

  lemma NewOk(a: Auction)
    requires a.status == ACTIVE && a.winner == None && a.highestBidder == None && a.currentPrice == a.startingPrice
    requires a.winnerHistory == [] && a.paymentStatus == UNPAID
    ensures AuctionOk(a, [])
  {
  }

  lemma PostedKeeps(w: World, t: World, id: AuctionId, a: Auction)
    requires Inv(w) && id !in w.auctions && BidsFor(w.bids, id) == [] && AuctionOk(a, [])
    requires t.auctions == w.auctions[id := a] && t.bids == w.bids && t.biddedAuctions == w.biddedAuctions
    ensures Inv(t)
  {
    hide AuctionOk, BidsFor;
    forall other | other in t.auctions ensures AuctionOk(t.auctions[other], BidsFor(t.bids, other)) {
      if other != id {
        assert AuctionOk(w.auctions[other], BidsFor(w.bids, other));
      }
    }
  }

  lemma DeleteKeeps(w: World, id: AuctionId, actor: UserId)
    requires Inv(w)
    ensures Inv(Delete(w, id, actor).0)
  {
    var (t, reply) := Delete(w, id, actor);
    if reply == Done {
      WithoutMembers(w.bids, id);
      forall other | other in t.auctions ensures AuctionOk(t.auctions[other], BidsFor(t.bids, other)) {
        BidsForWithout(w.bids, id, other);
      }
    }
  }

  lemma UserKeeps(w: World, user: UserId)
    requires Inv(w) && Possible(w, UserCreated(user))
    ensures Inv(w.(biddedAuctions := w.biddedAuctions[user := {}]))
  {
  }

  lemma LoudKeeps(w: World, e: Event)
    requires Inv(w) && Possible(w, e) && Loud(w, e)
    ensures Inv(Handle(w, e))
  {
    hide AuctionsOk, PlaceBid, Create, Delete;
    match e
    case UserCreated(user) => UserKeeps(w, user);
    case AuctionPosted(id, creator, price, start, end, now, faults) =>
      CreateKeeps(w, id, creator, price, start, end, now, faults);
    case BidSent(user, id, amount, now) => BidKeeps(w, user, id, amount, now);
    case DeleteSent(id, actor) => DeleteKeeps(w, id, actor);
  }

  lemma HandleKeeps(w: World, e: Event)
    ensures Inv(w) && Possible(w, e) ==> Inv(Handle(w, e))
  {
    hide Handle, Inv, Loud, Quiet, Possible;
    if Inv(w) && Possible(w, e) {
      if Loud(w, e) {
        LoudKeeps(w, e);
      } else {
        QuietStep(w, e);
        QuietKeeps(w, Handle(w, e), PaidBy(e));
      }
    }
  }

  lemma ProviderKeeps(w: World, id: AuctionId, expected: Option<UserId>)
    ensures Inv(w) ==> Inv(ConfirmByProvider(w, id, expected).0)
  {
    hide Inv, Quiet;
    ProviderIsQuiet(w, id, expected);
    if Inv(w) {
      QuietKeeps(w, ConfirmByProvider(w, id, expected).0, Some(id));
    }
  }

  lemma FrameKeeps(w: World, t: World)
    requires t.auctions == w.auctions && t.bids == w.bids && t.biddedAuctions == w.biddedAuctions
    ensures Inv(w) ==> Inv(t)
  {
    hide AuctionOk;
  }

  lemma SchedulingKeeps(w: World, id: AuctionId, user: UserId, now: Time, writes: int)
    ensures Inv(w) ==> Inv(ScheduleUpTo(w, id, user, now, writes))
  {
    var t := ScheduleUpTo(w, id, user, now, writes);
    if id in w.auctions {
      ScheduleOnlyDates(w, id, user, now, writes);
      hide Inv, ScheduleUpTo;
      assert Core(t.auctions[id]) == Core(w.auctions[id]);
      QuietOne(w, t, id, None);
      hide Quiet;
      if Inv(w) {
        QuietKeeps(w, t, None);
      }
    } else {
      FrameKeeps(w, t);
    }
  }

  /** Replacing the unpaid winner of an auction keeps the invariant. */
  lemma ReplacementKeeps(w: World, id: AuctionId, next: Bid, reason: Reason, now: Time)
    requires Inv(w) && id in w.auctions && w.auctions[id].winner.Some? && w.auctions[id].paymentStatus == UNPAID
    requires NextHighestBidder(BidsFor(w.bids, id), w.auctions[id].winner.value) == Some(next)
    ensures Inv(PutAuction(w, id, Switched(w.auctions[id], w.auctions[id].winner.value, next, reason, now)))
  {
    var a := w.auctions[id];
    var t := PutAuction(w, id, Switched(a, a.winner.value, next, reason, now));
    hide Inv, NextHighestBidder;
    SwitchSeen(a, BidsFor(w.bids, id), t.auctions[id], next, reason, now);
    QuietOne(w, t, id, None);
    QuietKeeps(w, t, None);
  }

  lemma StepKeeps(w: World, e: Event)
    requires Inv(w)
    ensures Inv(Step(w, e))
  {
    HandleKeeps(w, e);
    hide Handle, Inv;
  }

  /** Every world a run of handlers reaches from an empty database. */
  lemma {:induction false} RunKeeps(events: seq<Event>)
    ensures Inv(Run(EMPTY, events))
  {
    if events != [] {
      RunKeeps(events[..|events| - 1]);
      StepKeeps(Run(EMPTY, events[..|events| - 1]), events[|events| - 1]);
    }
  }

  lemma RunMore(events: seq<Event>, e: Event) returns (longer: seq<Event>)
    ensures Run(EMPTY, longer) == Step(Run(EMPTY, events), e)
    ensures longer == events + [e]
  {
    longer := events + [e];
    assert longer[..|longer| - 1] == events;
  }

  lemma NothingRun()
    ensures Run(EMPTY, []) == EMPTY
  {
  }
}
