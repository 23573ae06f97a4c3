/** How auctions end, who can pay afterwards, and what the notifications and the queue promise. */
module MarketEndings {
  import opened Common
  import opened BidOrder
  import opened Market
  import opened MarketRuns
  import opened MarketResults
  import opened MarketNotes

  // ----- Ended by a job, by a late bid, or by a sweep

  /** The auction stops being active. */
  ghost predicate Leaves(w: World, t: World, id: AuctionId) {
    && id in w.auctions && w.auctions[id].status == ACTIVE
    && id in t.auctions && t.auctions[id].status != ACTIVE
  }

  /** The event of the run that last took the auction out of ACTIVE. */
  ghost function EndedBy(events: seq<Event>, id: AuctionId): Option<Event> {
    if events == [] then None
    else
      var n := |events| - 1;
      if Leaves(Run(EMPTY, events[..n]), Run(EMPTY, events), id) then Some(events[n]) else EndedBy(events[..n], id)
  }

  ghost predicate Swept(events: seq<Event>, id: AuctionId) {
    EndedBy(events, id).Some? && EndedBy(events, id).value.Listed?
  }

  /** The handlers that need a winner or an ended auction leave an active one alone. */
  lemma NeedsWinner(w: World, e: Event, id: AuctionId)
    requires id in w.auctions && w.auctions[id].status == ACTIVE && w.auctions[id].winner == None
    requires e.PaymentConfirmed? || e.WebhookReceived? || e.DecisionSent? || e.ExpiredDelivered?
    ensures id in Handle(w, e).auctions && Handle(w, e).auctions[id] == w.auctions[id]
  {
    hide ConfirmPayment, Webhook, Decide, HandlePaymentExpired;
    match e
    case PaymentConfirmed(other, user) => ConfirmationElsewhere(w, other, user, id);
    case WebhookReceived(other, status, expected) => WebhookElsewhere(w, other, status, expected, id);
    case DecisionSent(other, creator, action, now) => DecisionElsewhere(w, other, creator, action, now, id);
    case ExpiredDelivered(other, user, mode, now, writes) => ExpiryElsewhere(w, other, user, mode, now, writes, id);
  }

  lemma ConfirmationElsewhere(w: World, other: AuctionId, user: UserId, id: AuctionId)
    requires id in w.auctions && w.auctions[id].winner == None
    ensures
      var t := ConfirmPayment(w, other, user).0;
      id in t.auctions && t.auctions[id] == w.auctions[id]
  {
  }

  lemma WebhookElsewhere(w: World, other: AuctionId, status: ProviderStatus, expected: Option<UserId>, id: AuctionId)
    requires id in w.auctions && w.auctions[id].winner == None
    ensures
      var t := Webhook(w, other, status, expected).0;
      id in t.auctions && t.auctions[id] == w.auctions[id]
  {
  }

  lemma ExpiryElsewhere(w: World, other: AuctionId, user: UserId, mode: ExpiryMode, now: Time, writes: nat, id: AuctionId)
    requires id in w.auctions && w.auctions[id].winner == None
    ensures
      var t := HandlePaymentExpired(w, other, user, mode, now, writes);
      id in t.auctions && t.auctions[id] == w.auctions[id]
  {
    hide NextHighestBidder;
    if Switches(w, other, user, mode, writes) {
      ExpiredSwitches(w, other, user, mode, now, writes);
    }
  }

  lemma DecisionElsewhere(w: World, other: AuctionId, creator: UserId, action: Decision, now: Time, id: AuctionId)
    requires id in w.auctions && w.auctions[id].winner == None
    ensures
      var t := Decide(w, other, creator, action, now).0;
      id in t.auctions && t.auctions[id] == w.auctions[id]
  {
    if Decide(w, other, creator, action, now).1 != Done {
      UndecidedWrites(w, other, creator, action, now);
    } else {
      assert other != id;
      if action == KeepCurrent {
        KeepWrites(w, other, creator, now);
      } else {
        PushWrites(w, other, creator, now);
      }
    }
  }

  /** Ending an auction names its highest bidder, unless a sweep ends it. */
  lemma EndingNames(w: World, e: Event, id: AuctionId)
    requires id in w.auctions && w.auctions[id].status == ACTIVE && w.auctions[id].winner == None
    requires !Loud(w, e) && id in Handle(w, e).auctions && Handle(w, e).auctions[id].status == ENDED
    ensures
      var t := Handle(w, e).auctions[id];
      && t.highestBidder == w.auctions[id].highestBidder
      && t.winner == if e.Listed? then None else t.highestBidder
  {
    hide Decide, ConfirmPayment, Webhook, HandlePaymentExpired, HandleEndAuction;
    match e
    case EndDelivered(other, now, writes) => EndDeliveredTo(w, other, now, writes, id);
    case PaymentConfirmed(_, _) => NeedsWinner(w, e, id);
    case WebhookReceived(_, _, _) => NeedsWinner(w, e, id);
    case DecisionSent(_, _, _, _) => NeedsWinner(w, e, id);
    case ExpiredDelivered(_, _, _, _, _) => NeedsWinner(w, e, id);
    case _ =>
  }

  lemma EndDeliveredTo(w: World, other: AuctionId, now: Time, writes: nat, id: AuctionId)
    requires id in w.auctions
    ensures
      var t := HandleEndAuction(w, other, now, writes);
      && id in t.auctions
      && Core(t.auctions[id]) == Core(if other == id && writes > 0 then End(w.auctions[id]) else w.auctions[id])
  {
    if other in w.auctions && writes > 0 {
      EndWrites(w, other, now, writes);
    }
  }

  /** An auction that is not active stays so; it is ENDED only if it was, and then whether it has a
      winner and whether anybody bid does not change. */
  lemma EndedChange(a: Auction, bids: seq<Bid>, t: Auction, pays: bool)
    requires Change(a, bids, t, pays) && Lifecycle(a) && a.status != ACTIVE
    ensures t.status != ACTIVE
    ensures t.status == ENDED ==>
      && a.status == ENDED && (t.winner.Some? <==> a.winner.Some?)
      && (t.highestBidder.Some? <==> a.highestBidder.Some?)
  {
    assert Core(t).status == t.status && Core(t).winner == t.winner && Core(t).highestBidder == t.highestBidder;
    hide NextHighestBidder;
  }

  lemma StaysEnded(w: World, e: Event, id: AuctionId)
    requires Inv(w) && Possible(w, e) && id in w.auctions && w.auctions[id].status != ACTIVE && id in Handle(w, e).auctions
    ensures
      var a, t := w.auctions[id], Handle(w, e).auctions[id];
      && t.status != ACTIVE
      && (t.status == ENDED ==>
           && a.status == ENDED && (t.winner.Some? <==> a.winner.Some?)
           && (t.highestBidder.Some? <==> a.highestBidder.Some?))
  {
    hide Handle, Possible;
    if Loud(w, e) {
      LoudStep(w, e, id);
    } else {
      QuietStep(w, e);
      hide Loud;
      EndedChange(w.auctions[id], BidsFor(w.bids, id), Handle(w, e).auctions[id], PaidBy(e) == Some(id));
    }
  }

  /** A handler stores new auctions as active ones. */
  lemma NewIsActive(w: World, e: Event, id: AuctionId)
    requires id !in w.auctions && id in Handle(w, e).auctions
    ensures Handle(w, e).auctions[id].status == ACTIVE
  {
    if Loud(w, e) {
      LoudNew(w, e, id);
    } else {
      hide Handle, Loud, Possible;
      QuietStep(w, e);
      assert false;
    }
  }

  lemma LoudNew(w: World, e: Event, id: AuctionId)
    requires Loud(w, e) && id !in w.auctions && id in Handle(w, e).auctions
    ensures Handle(w, e).auctions[id].status == ACTIVE
  {
    match e
    case BidSent(user, other, amount, now) => BidWrites(w, user, other, amount, now);
    case _ =>
  }

  /** What one step does to the question how an ended auction ended. */
  ghost predicate EndKnown(w: World, ended: Option<Event>, id: AuctionId) {
    id in w.auctions && w.auctions[id].status == ENDED ==>
      && ended.Some?
      && (w.auctions[id].winner == None <==> w.auctions[id].highestBidder == None || ended.value.Listed?)
  }

  lemma EndKnownStep(w: World, e: Event, ended: Option<Event>, id: AuctionId)
    requires Inv(w) && EndKnown(w, ended, id)
    ensures EndKnown(Step(w, e), if Leaves(w, Step(w, e), id) then Some(e) else ended, id)
  {
    hide Handle, Possible;
    var t := Step(w, e);
    if Possible(w, e) && id in t.auctions && t.auctions[id].status == ENDED {
      if id !in w.auctions {
        NewIsActive(w, e, id);
        assert false;
      } else if w.auctions[id].status == ACTIVE {
        if Loud(w, e) {
          LoudStep(w, e, id);
          assert false;
        } else {
          assert AuctionOk(w.auctions[id], BidsFor(w.bids, id));
          EndingNames(w, e, id);
        }
      } else {
        StaysEnded(w, e, id);
      }
    }
  }

  lemma {:induction false} EndKnownHolds(events: seq<Event>, id: AuctionId)
    ensures EndKnown(Run(EMPTY, events), EndedBy(events, id), id)
  {
    hide Step, EndKnown, Leaves, Inv;
    if events == [] {
      NothingEnded(id);
    } else {
      var n := |events| - 1;
      EndKnownHolds(events[..n], id);
      RunKeeps(events[..n]);
      EndKnownStep(Run(EMPTY, events[..n]), events[n], EndedBy(events[..n], id), id);
    }
  }

  lemma NothingEnded(id: AuctionId)
    ensures EndKnown(EMPTY, None, id)
  {
  }

  /** An ended auction has no winner exactly when nobody has bid on it or a sweep ended it. */
  lemma SweptExactlyWithoutWinner(events: seq<Event>, id: AuctionId)
    ensures
      var w := Run(EMPTY, events);
      id in w.auctions && w.auctions[id].status == ENDED ==>
        (w.auctions[id].winner == None <==> BidsFor(w.bids, id) == [] || Swept(events, id))
  {
    EndKnownHolds(events, id);
    RunKeeps(events);
    hide Run, EndedBy;
    var w := Run(EMPTY, events);
    if id in w.auctions {
      NobodyShown(w.auctions[id], BidsFor(w.bids, id));
    }
  }

  lemma NobodyShown(a: Auction, bids: seq<Bid>)
    requires AuctionOk(a, bids)
    ensures a.highestBidder == None <==> bids == []
    ensures a.winner.Some? ==> a.winner == Some(Turn(bids, |a.winnerHistory|).userId)
  {
  }

  /** The bidder whose turn it is after a number of replacements, if there can have been so many. */
  function OnTurn(bids: seq<Bid>, replacements: nat): Option<UserId> {
    if |bids| >= 2 || (replacements == 0 && bids != []) then Some(Turn(bids, replacements).userId) else None
  }

  /** Who can make a payment link, from the history alone: on an unpaid ended auction with bids that
      no sweep ended, its creator and the one of the two top bidders whose turn it is, as long as the
      latter is a registered user. */
  lemma LinkExactly(events: seq<Event>, id: AuctionId, actor: UserId)
    ensures
      var w := Run(EMPTY, events);
      PaymentLink(w, id, actor).Some? <==>
        && id in w.auctions && w.auctions[id].status == ENDED && w.auctions[id].paymentStatus == UNPAID
        && BidsFor(w.bids, id) != [] && !Swept(events, id)
        && var payer := OnTurn(BidsFor(w.bids, id), |w.auctions[id].winnerHistory|);
           payer.Some? && payer.value in w.biddedAuctions && actor in {w.auctions[id].createdBy, payer.value}
  {
    SweptExactlyWithoutWinner(events, id);
    RunKeeps(events);
    hide Run, Swept;
    var w := Run(EMPTY, events);
    if id in w.auctions {
      NobodyShown(w.auctions[id], BidsFor(w.bids, id));
    }
  }

  // ----- Users who were told that they won

  ghost predicate ToldWon(w: World, id: AuctionId, user: UserId) {
    (user, DedupeKey(Won, id, user)) in w.notes
  }

  ghost predicate TopTwoUser(bids: seq<Bid>, user: UserId) {
    || (bids != [] && user == bids[|bids| - 1].userId)
    || (|bids| >= 2 && user == bids[|bids| - 2].userId)
  }

  /** Who is told of a win: the highest bidder of an auction that the end job finds ended or ends. */
  lemma NewlyTold(w: World, e: Event, id: AuctionId, user: UserId)
    requires ToldWon(Handle(w, e), id, user) && !ToldWon(w, id, user)
    ensures e.EndDelivered? && e.id == id && id in w.auctions
    ensures End(w.auctions[id]).status == ENDED && w.auctions[id].highestBidder == Some(user)
  {
    hide Handle;
    NotesStay(w, e);
    if e.EndDelivered? {
      HandlesEnd(w, e.id, e.now, e.writes);
      ToldByEnd(w, e.id, e.now, e.writes, id, user);
    }
  }

  lemma ToldByEnd(w: World, other: AuctionId, now: Time, writes: nat, id: AuctionId, user: UserId)
    requires ToldWon(HandleEndAuction(w, other, now, writes), id, user) && !ToldWon(w, id, user)
    ensures other == id && id in w.auctions
    ensures End(w.auctions[id]).status == ENDED && w.auctions[id].highestBidder == Some(user)
  {
    var ended := PutAuction(w, other, End(w.auctions[other]));
    if w.auctions[other].highestBidder.Some? {
      var top := w.auctions[other].highestBidder.value;
      InviteNotes(ended, other, top, now, writes);
    }
    hide Invite;
  }

  lemma InviteNotes(w: World, id: AuctionId, user: UserId, now: Time, writes: nat)
    requires id in w.auctions
    ensures Invite(w, id, user, now, writes).notes ==
            if writes >= 2 then PutIfAbsent(w.notes, (user, DedupeKey(Won, id, user)), AUCTION_WON) else w.notes
  {
    hide ScheduleUpTo;
    ScheduleOnlyDates(if writes >= 2 then Notify(w, user, Won, id, user, AUCTION_WON) else w, id, user, now, writes - 2);
  }

  /** Bids of an auction that is not active stay as they are as long as it is stored. */
  lemma BidsStay(w: World, e: Event, id: AuctionId)
    requires id in w.auctions && w.auctions[id].status != ACTIVE
    requires Possible(w, e) && id in Handle(w, e).auctions
    ensures BidsFor(Handle(w, e).bids, id) == BidsFor(w.bids, id)
  {
    hide Quiet;
    if Loud(w, e) {
      assert e.AuctionPosted? ==> e.id != id;
      assert e.DeleteSent? ==> e.id != id;
      hide PlaceBid, Delete, Create, Possible;
      match e
      case BidSent(user, other, amount, now) => BidElsewhere(w, user, other, amount, now, id);
      case DeleteSent(other, actor) => DeletionElsewhere(w, other, actor, id);
      case AuctionPosted(other, creator, price, start, end, now, faults) =>
        PostedElsewhere(w, other, creator, price, start, end, now, faults, id);
      case UserCreated(_) =>
    } else {
      hide Handle, Loud;
      QuietStep(w, e);
      QuietBids(w, Handle(w, e), PaidBy(e));
    }
  }

  lemma QuietBids(w: World, t: World, paid: Option<AuctionId>)
    requires Quiet(w, t, paid)
    ensures t.bids == w.bids && t.auctions.Keys == w.auctions.Keys
  {
  }

  lemma BidElsewhere(w: World, user: UserId, other: AuctionId, amount: real, now: Time, id: AuctionId)
    requires PlaceBid(w, user, other, amount, now).1 == Done && id in w.auctions && w.auctions[id].status != ACTIVE
    ensures
      var t := PlaceBid(w, user, other, amount, now).0;
      id in t.auctions && BidsFor(t.bids, id) == BidsFor(w.bids, id)
  {
    AcceptedBid(w, user, other, amount, now);
    BidWrites(w, user, other, amount, now);
    hide PlaceBid;
    BidsForAppend(w.bids, Bid(other, user, amount, now), id);
  }

  lemma DeletionElsewhere(w: World, other: AuctionId, actor: UserId, id: AuctionId)
    requires other != id && id in w.auctions
    ensures
      var t := Delete(w, other, actor).0;
      id in t.auctions && BidsFor(t.bids, id) == BidsFor(w.bids, id)
  {
    BidsForWithout(w.bids, other, id);
  }

  lemma PostedElsewhere(w: World, other: AuctionId, creator: UserId, price: real, start: Time, end: Time, now: Time,
                        faults: Faults, id: AuctionId)
    requires other != id && id in w.auctions
    ensures
      var t := Create(w, other, creator, price, start, end, now, faults).0;
      id in t.auctions && t.bids == w.bids
  {
  }

  /** Once stored, the auction is never deleted in the run. */
  ghost predicate NeverDeleted(events: seq<Event>, id: AuctionId) {
    forall k :: 0 <= k < |events| && id in Run(EMPTY, events[..k]).auctions ==>
      id in Run(EMPTY, events[..k + 1]).auctions
  }

  ghost predicate ToldOk(w: World, id: AuctionId, user: UserId) {
    ToldWon(w, id, user) ==>
      id in w.auctions && w.auctions[id].status != ACTIVE && TopTwoUser(BidsFor(w.bids, id), user)
  }

  lemma ToldStep(w: World, e: Event, id: AuctionId, user: UserId)
    requires Inv(w) && ToldOk(w, id, user) && (id in w.auctions ==> id in Step(w, e).auctions)
    ensures ToldOk(Step(w, e), id, user)
  {
    hide Handle, Inv, TopTwoUser, ToldWon;
    if Possible(w, e) && ToldWon(Handle(w, e), id, user) {
      if ToldWon(w, id, user) {
        hide Possible;
        BidsStay(w, e, id);
        StaysEnded(w, e, id);
      } else {
        hide Possible;
        NewlyTold(w, e, id, user);
        HandlesEnd(w, id, e.now, e.writes);
        assert HandleEndAuction(w, id, e.now, e.writes) != w;
        hide HandleEndAuction;
        ToldNow(w, e.now, e.writes, id, user);
      }
    }
  }

  lemma HandlesEnd(w: World, id: AuctionId, now: Time, writes: nat)
    ensures Handle(w, EndDelivered(id, now, writes)) == HandleEndAuction(w, id, now, writes)
  {
  }

  lemma ToldNow(w: World, now: Time, writes: nat, id: AuctionId, user: UserId)
    requires Inv(w) && id in w.auctions && End(w.auctions[id]).status == ENDED && w.auctions[id].highestBidder == Some(user)
    requires HandleEndAuction(w, id, now, writes) != w
    ensures
      var t := HandleEndAuction(w, id, now, writes);
      id in t.auctions && t.auctions[id].status != ACTIVE && TopTwoUser(BidsFor(t.bids, id), user)
  {
    EndWrites(w, id, now, writes);
    hide HandleEndAuction;
    ShownIsTop(w.auctions[id], BidsFor(w.bids, id));
    var t := HandleEndAuction(w, id, now, writes);
    assert Core(t.auctions[id]).status == t.auctions[id].status;
  }

  lemma ShownIsTop(a: Auction, bids: seq<Bid>)
    requires AuctionOk(a, bids) && a.highestBidder.Some?
    ensures TopTwoUser(bids, a.highestBidder.value)
  {
    hide Rules, Lifecycle;
  }

  lemma {:induction false} ToldHolds(events: seq<Event>, id: AuctionId, user: UserId)
    requires NeverDeleted(events, id)
    ensures ToldOk(Run(EMPTY, events), id, user)
  {
    hide Step, Inv;
    if events != [] {
      var n := |events| - 1;
      assert events[..n + 1] == events && events[..n + 1][..n] == events[..n];
      assert forall k :: 0 <= k <= n ==> events[..n][..k] == events[..k];
      ToldHolds(events[..n], id, user);
      RunKeeps(events[..n]);
      hide ToldOk;
      ToldStep(Run(EMPTY, events[..n]), events[n], id, user);
    }
  }

  /** A user who holds a won notification of an auction nobody deleted is one of its two top
      bidders. If registered, they can make a payment link exactly while the auction is ended and
      unpaid, no sweep ended it, and it is their turn among the two. */
  lemma ToldWinnerCanPay(events: seq<Event>, id: AuctionId, user: UserId)
    requires NeverDeleted(events, id) && ToldWon(Run(EMPTY, events), id, user)
    ensures
      var w := Run(EMPTY, events);
      && id in w.auctions && w.auctions[id].status != ACTIVE && TopTwoUser(BidsFor(w.bids, id), user)
      && (PaymentLink(w, id, user).Some? <==>
           && user in w.biddedAuctions
           && w.auctions[id].status == ENDED && w.auctions[id].paymentStatus == UNPAID && !Swept(events, id)
           && OnTurn(BidsFor(w.bids, id), |w.auctions[id].winnerHistory|) == Some(user))
  {
    ToldHolds(events, id, user);
    LinkExactly(events, id, user);
    RunKeeps(events);
    hide Run, Swept, PaymentLink, OnTurn;
    var w := Run(EMPTY, events);
    TopIsNotCreator(w.auctions[id], BidsFor(w.bids, id), user);
  }

  lemma TopIsNotCreator(a: Auction, bids: seq<Bid>, user: UserId)
    requires AuctionOk(a, bids) && TopTwoUser(bids, user)
    ensures bids != [] && user != a.createdBy
  {
    assert bids[|bids| - 1] in bids;
    if |bids| >= 2 {
      assert bids[|bids| - 2] in bids;
    }
  }

  // ----- Reminders and immediate ends

  /** A reminder to a registered user is stored exactly if that user is a winner who can still pay. */
  lemma RemindsWhoCanPay(events: seq<Event>, id: AuctionId, user: UserId)
    ensures
      var w := Run(EMPTY, events);
      var t := HandlePaymentReminder(w, id, user);
      var key := (user, DedupeKey(PaymentReminder, id, user));
      && Kept(w.notes, t.notes) && t == w.(notes := t.notes) && t.notes.Keys <= w.notes.Keys + {key}
      && (user in w.biddedAuctions ==>
           (key in t.notes <==>
             key in w.notes || (PaymentLink(w, id, user).Some? && PaymentLink(w, id, user).value.0 == user)))
  {
    RunKeeps(events);
    hide Run;
    var w := Run(EMPTY, events);
    if id in w.auctions {
      assert AuctionOk(w.auctions[id], BidsFor(w.bids, id));
      hide Rules, Shows;
    }
  }

  /** Once the creator's request is accepted, the end job is due at once, however it was queued
      before, nothing else has changed, and its delivery ends the auction for its highest bidder. */
  lemma ImmediateEndEnds(w: World, id: AuctionId, actor: UserId, now: Time, later: Time, writes: nat)
    requires RequestImmediateEnd(w, id, actor, now).1 == Done && writes > 0
    ensures
      var t := RequestImmediateEnd(w, id, actor, now).0;
      && t == w.(queue := w.queue[EndJob(id) := now])
      && id in HandleEndAuction(t, id, later, writes).auctions
      && var a := HandleEndAuction(t, id, later, writes).auctions[id];
         a.status == ENDED && a.winner == a.highestBidder == w.auctions[id].highestBidder
  {
    var t := RequestImmediateEnd(w, id, actor, now).0;
    assert t.queue == w.queue[EndJob(id) := now];
    EndWrites(t, id, later, writes);
    hide HandleEndAuction;
    var a := HandleEndAuction(t, id, later, writes).auctions[id];
    assert Core(a).status == a.status && Core(a).winner == a.winner && Core(a).highestBidder == a.highestBidder;
  }
}
