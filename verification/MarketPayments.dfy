/** Payment links and payments that arrive later, when the winner may have been replaced. */
module MarketPayments {
  import opened Common
  import opened BidOrder
  import opened Market
  import opened MarketRuns
  import opened MarketResults
  import opened MarketEndings
  import opened MarketNotes
  import opened MarketEffects
  import opened MarketTimes
  import opened Redelivery

  /** What stays from the moment a winner can be billed, as long as the auction is stored. */
  ghost predicate Settled(w: World, t: World, id: AuctionId) {
    && Inv(t) && id in w.auctions && id in t.auctions && t.auctions[id].status != ACTIVE
    && BidsFor(t.bids, id) == BidsFor(w.bids, id) && w.auctions[id].winnerHistory <= t.auctions[id].winnerHistory
  }

  lemma SettledStep(w: World, t: World, e: Event, id: AuctionId)
    requires Settled(w, t, id) && id in Step(t, e).auctions
    ensures Settled(w, Step(t, e), id)
  {
    StepKeeps(t, e);
    StepGrowsHistory(t, e, id);
    if Possible(t, e) {
      BidsStay(t, e, id);
      StaysEnded(t, e, id);
    }
    hide Handle, Possible, Inv;
  }

  lemma {:induction false} SettledHolds(w: World, events: seq<Event>, id: AuctionId)
    requires Inv(w) && StaysStored(w, events, id) && id in w.auctions && w.auctions[id].status != ACTIVE
    ensures Settled(w, Run(w, events), id)
  {
    hide Step, Inv;
    if events != [] {
      SettledHolds(w, events[..|events| - 1], id);
      hide Settled;
      SettledStep(w, Run(w, events[..|events| - 1]), events[|events| - 1], id);
    }
  }

  /** The replacements of the winner between two worlds. */
  function Replacements(w: World, t: World, id: AuctionId): int
    requires id in w.auctions && id in t.auctions
  {
    |t.auctions[id].winnerHistory| - |w.auctions[id].winnerHistory|
  }

  /** After an even number of replacements the winner and the price are the same again, after an odd
      number the winner is another user. */
  lemma ParityDecides(a: Auction, t: Auction, bids: seq<Bid>)
    requires AuctionOk(a, bids) && AuctionOk(t, bids) && a.winner.Some? && t.winner.Some?
    ensures
      if (|t.winnerHistory| - |a.winnerHistory|) % 2 == 0
      then t.winner == a.winner && t.currentPrice == a.currentPrice else t.winner != a.winner
  {
    hide AuctionOk, Turn;
    WinnersTurn(a, bids);
    WinnersTurn(t, bids);
    TopUsersDiffer(a, bids);
    TurnsMeet(bids, |a.winnerHistory|, |t.winnerHistory|);
  }

  lemma LinkMeans(w: World, id: AuctionId, actor: UserId)
    requires PaymentLink(w, id, actor).Some?
    ensures id in w.auctions && w.auctions[id].status != ACTIVE && w.auctions[id].winner.Some?
    ensures PaymentLink(w, id, actor).value == (w.auctions[id].winner.value, w.auctions[id].currentPrice)
  {
  }

  lemma InvOf(w: World, id: AuctionId)
    requires Inv(w) && id in w.auctions
    ensures AuctionOk(w.auctions[id], BidsFor(w.bids, id))
  {
    hide AuctionOk;
  }

  /** A payment link made for one winner asks for the right amount whenever that user is the winner
      later, as long as the auction is stored, and they are exactly after an even number of
      replacements. */
  lemma LinkStaysRight(first: seq<Event>, rest: seq<Event>, id: AuctionId, actor: UserId)
    requires PaymentLink(Run(EMPTY, first), id, actor).Some? && StaysStored(Run(EMPTY, first), rest, id)
    ensures
      var w, t := Run(EMPTY, first), Run(Run(EMPTY, first), rest);
      var (payer, amount) := PaymentLink(w, id, actor).value;
      && id in w.auctions && id in t.auctions && w.auctions[id].winner == Some(payer)
      && (t.auctions[id].winner.Some? ==>
           && (t.auctions[id].winner == Some(payer) <==> Replacements(w, t, id) % 2 == 0)
           && (t.auctions[id].winner == Some(payer) ==> t.auctions[id].currentPrice == amount))
  {
    hide Run, StaysStored, PaymentLink, AuctionOk, Inv;
    RunKeeps(first);
    var w := Run(EMPTY, first);
    LinkMeans(w, id, actor);
    SettledHolds(w, rest, id);
    var t := Run(w, rest);
    if t.auctions[id].winner.Some? {
      InvOf(w, id);
      InvOf(t, id);
      ParityDecides(w.auctions[id], t.auctions[id], BidsFor(w.bids, id));
    }
  }

  /** When the provider reports a payment made through such a link: a report that names the payer is
      accepted exactly after an even number of replacements, and then credits them what they paid. A
      report that names nobody is accepted for whoever is the winner by then, and credits the payer
      exactly after an even number of replacements. */
  lemma PaymentCredits(first: seq<Event>, rest: seq<Event>, id: AuctionId, actor: UserId)
    requires PaymentLink(Run(EMPTY, first), id, actor).Some? && StaysStored(Run(EMPTY, first), rest, id)
    requires
      var t := Run(Run(EMPTY, first), rest);
      id in t.auctions ==> t.auctions[id].status == ENDED && t.auctions[id].paymentStatus == UNPAID && t.auctions[id].winner.Some?
    ensures
      var w, t := Run(EMPTY, first), Run(Run(EMPTY, first), rest);
      var (payer, amount) := PaymentLink(w, id, actor).value;
      var (named, reply) := Webhook(t, id, SUCCESS, Some(payer));
      var (unnamed, answer) := Webhook(t, id, SUCCESS, None);
      && id in w.auctions && id in t.auctions
      && (reply == Done <==> Replacements(w, t, id) % 2 == 0)
      && (reply == Done ==> Credited(named, id, payer, amount))
      && answer == Done
      && (Credited(unnamed, id, payer, amount) <==> Replacements(w, t, id) % 2 == 0)
      && Credited(unnamed, id, t.auctions[id].winner.value, t.auctions[id].currentPrice)
  {
    hide Run, StaysStored, PaymentLink;
    LinkStaysRight(first, rest, id, actor);
  }

  /** The auction is paid by this user at this price. */
  predicate Credited(w: World, id: AuctionId, user: UserId, price: real) {
    && id in w.auctions && w.auctions[id].paymentStatus == PAID
    && w.auctions[id].winner == Some(user) && w.auctions[id].currentPrice == price
  }

  // ----- After the payment

  /** The winner holds a notification of the payment, and so does the creator. */
  ghost predicate PaymentTold(w: World, id: AuctionId)
    requires id in w.auctions
  {
    var winner, creator := w.auctions[id].winner, w.auctions[id].createdBy;
    && winner.Some?
    && ((winner.value, DedupeKey(ManualPaymentSuccess, id, winner.value)) in w.notes
        || (winner.value, DedupeKey(PaymentSuccess, id, winner.value)) in w.notes)
    && ((creator, DedupeKey(ManualCreatorPaymentReceived, id, creator)) in w.notes
        || (creator, DedupeKey(CreatorPaymentReceived, id, creator)) in w.notes)
  }

  lemma PayingTells(w: World, e: Event, id: AuctionId)
    requires id in w.auctions && w.auctions[id].winner.Some? && w.auctions[id].winner.value != w.auctions[id].createdBy
    requires id in Handle(w, e).auctions && w.auctions[id].paymentStatus == UNPAID
    requires Handle(w, e).auctions[id].paymentStatus == PAID
    requires e == PaymentConfirmed(id, w.auctions[id].winner.value) || (e.WebhookReceived? && e.id == id && e.status == SUCCESS)
    ensures PaymentTold(Handle(w, e), id)
  {
    hide ConfirmPayment, Webhook, ConfirmByProvider;
    match e
    case PaymentConfirmed(_, user) => ConfirmExactly(w, id, user);
    case WebhookReceived(_, status, expected) =>
      ProviderExactly(w, id, expected);
      WebhookExactly(w, id, status, expected);
  }

  lemma ToldStays(w: World, t: World, id: AuctionId)
    requires id in w.auctions && id in t.auctions && Core(t.auctions[id]) == Core(w.auctions[id])
    requires PaymentTold(w, id) && Kept(w.notes, t.notes)
    ensures PaymentTold(t, id)
  {
    assert t.auctions[id].winner == Core(w.auctions[id]).winner && t.auctions[id].createdBy == Core(w.auctions[id]).createdBy;
  }

  /** In every run the winner and the creator of a paid auction have been told of the payment. */
  lemma {:induction false} PaidIsTold(events: seq<Event>, id: AuctionId)
    requires id in Run(EMPTY, events).auctions && Run(EMPTY, events).auctions[id].paymentStatus == PAID
    ensures PaymentTold(Run(EMPTY, events), id)
  {
    hide Handle, Inv, Possible, PaymentTold;
    if events != [] {
      var n := |events| - 1;
      var w := Run(EMPTY, events[..n]);
      RunKeeps(events[..n]);
      if id !in w.auctions {
        NewIsUnpaid(w, events[n], id);
        assert false;
      } else if w.auctions[id].paymentStatus == PAID {
        PaidIsTold(events[..n], id);
        PaidStays(w, events[n], id);
        NotesStay(w, events[n]);
        ToldStays(w, Step(w, events[n]), id);
      } else {
        PaidOnlyByTheWinner(w, events[n], id);
        WinnerIn(w, id);
        PayingTells(w, events[n], id);
      }
    }
  }

  lemma NewIsUnpaid(w: World, e: Event, id: AuctionId)
    requires Inv(w) && id !in w.auctions && id in Step(w, e).auctions
    ensures Step(w, e).auctions[id].paymentStatus == UNPAID
  {
    StepKeeps(w, e);
    NewIsActive(w, e, id);
    assert AuctionOk(Step(w, e).auctions[id], BidsFor(Step(w, e).bids, id));
    hide Handle, Possible, Rules, Shows;
  }

  /** The payment took the winner's jobs out of the queue. Afterwards one comes back exactly when an end
      job is delivered that finds the win unannounced and gets as far as queueing it. */
  lemma PaidIsBilledExactly(w: World, e: Event, id: AuctionId, user: UserId)
    requires Inv(w) && id in w.auctions && w.auctions[id].paymentStatus == PAID && w.auctions[id].winner == Some(user)
    requires ExpiredJob(id, user) !in w.queue
    ensures
      ExpiredJob(id, user) in Handle(w, e).queue <==>
        e.EndDelivered? && e.id == id && e.writes >= 5 && !w.auctions[id].notified
  {
    hide Handle, Inv, DatesTimely, JobsTimely, HandlePaymentExpired, Decide, HandleEndAuction;
    PaidFacts(w, id, user);
    HandleTimely(w, e);
    if Bills(e, id) {
      match e
      case EndDelivered(_, now, writes) =>
        HandlesEnd(w, id, now, writes);
        PaidEnd(w, id, now, writes, user);
      case ExpiredDelivered(_, other, mode, now, writes) => PaidExpiry(w, id, other, mode, now, writes);
      case DecisionSent(_, creator, action, now) => PaidDecision(w, id, creator, action, now);
    } else {
      NotBilled(w, Handle(w, e), e, id, user);
    }
  }

  lemma NotBilled(w: World, t: World, e: Event, id: AuctionId, user: UserId)
    requires Timely(w, t, e) && !Bills(e, id) && ExpiredJob(id, user) !in w.queue
    ensures ExpiredJob(id, user) !in t.queue
  {
    hide DatesTimely;
  }

  lemma PaidFacts(w: World, id: AuctionId, user: UserId)
    requires Inv(w) && id in w.auctions && w.auctions[id].winner == Some(user)
    ensures w.auctions[id].status == ENDED && w.auctions[id].highestBidder == Some(user)
  {
    assert AuctionOk(w.auctions[id], BidsFor(w.bids, id));
    hide Rules, Shows;
  }

  lemma PaidEnd(w: World, id: AuctionId, now: Time, writes: nat, user: UserId)
    requires id in w.auctions && w.auctions[id].status == ENDED && w.auctions[id].highestBidder == Some(user)
    requires ExpiredJob(id, user) !in w.queue
    ensures ExpiredJob(id, user) in HandleEndAuction(w, id, now, writes).queue <==> writes >= 5 && !w.auctions[id].notified
  {
    if writes > 0 {
      AttemptWrites(w, id, now, writes);
      hide HandleEndAuction;
    }
  }

  lemma PaidExpiry(w: World, id: AuctionId, user: UserId, mode: ExpiryMode, now: Time, writes: nat)
    requires id in w.auctions && w.auctions[id].paymentStatus == PAID
    ensures Handle(w, ExpiredDelivered(id, user, mode, now, writes)) == w
  {
  }

  lemma PaidDecision(w: World, id: AuctionId, creator: UserId, action: Decision, now: Time)
    requires id in w.auctions && w.auctions[id].paymentStatus == PAID
    ensures Handle(w, DecisionSent(id, creator, action, now)) == w
  {
  }
}
