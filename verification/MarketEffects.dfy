/** What each handler answers, and everything it writes, in terms of the stored values alone. */
module MarketEffects {
  import opened Common
  import opened BidOrder
  import opened Market
  import opened MarketRuns

  const DAY: Time := 24 * 60 * 60 * 1000
  const HALF_DAY: Time := 12 * 60 * 60 * 1000

  // ----- Single writes: what is stored under a key stays

  lemma NoteWrite(w: World, to: UserId, topic: Topic, id: AuctionId, about: UserId, kind: NoteKind)
    ensures Notify(w, to, topic, id, about, kind) == w.(notes := map[(to, DedupeKey(topic, id, about)) := kind] + w.notes)
  {
  }

  lemma JobWrite(w: World, job: JobId, due: Time)
    ensures Enqueue(w, job, due) == w.(queue := map[job := due] + w.queue)
  {
  }

  /** A complete scheduling: the payment is due in a day, the expiry job is due then and the reminder
      half a day before, except that a job that is still queued keeps its time. */
  lemma SchedulingExactly(w: World, id: AuctionId, user: UserId, now: Time, writes: nat)
    requires id in w.auctions && writes >= 3
    ensures
      ScheduleUpTo(w, id, user, now, writes) == w.(
        auctions := w.auctions[id := w.auctions[id].(paymentDueAt := Some(now + DAY))],
        queue := map[ExpiredJob(id, user) := now + DAY]
                 + (map[ReminderJob(id, user) := now + DAY - HALF_DAY] + w.queue))
  {
    var w1 := SetDue(w, id, now + PAYMENT_EXPIRY_DELAY_MS);
    JobWrite(w1, ReminderJob(id, user), now + HALF_DAY);
    var w2 := Enqueue(w1, ReminderJob(id, user), now + HALF_DAY);
    JobWrite(w2, ExpiredJob(id, user), now + DAY);
  }

  /** The user can be reminded and the payment expires on time: due in a day from `now`, the expiry
      job exactly then, the reminder exactly half a day before. */
  ghost predicate BilledFrom(t: World, id: AuctionId, user: UserId, now: Time) {
    && id in t.auctions && t.auctions[id].paymentDueAt == Some(now + DAY)
    && ExpiredJob(id, user) in t.queue && t.queue[ExpiredJob(id, user)] == now + DAY
    && ReminderJob(id, user) in t.queue && t.queue[ReminderJob(id, user)] == now + DAY - HALF_DAY
  }

  ghost predicate Unqueued(w: World, id: AuctionId, user: UserId) {
    ExpiredJob(id, user) !in w.queue && ReminderJob(id, user) !in w.queue
  }

  // ----- Ending

  /** An auction still to be announced: active or ended, and not flagged. */
  ghost predicate Unannounced(w: World, id: AuctionId) {
    id in w.auctions && w.auctions[id].status != CANCELLED && !w.auctions[id].notified
  }

  /** A complete `handleEndAuction` ends an active auction for its highest bidder, and flags an
      unannounced one; if there is no bidder, or it was announced before, it does nothing more. */
  lemma EndsOnly(w: World, id: AuctionId, now: Time)
    requires Unannounced(w, id) ==> w.auctions[id].highestBidder == None
    ensures
      HandleEndAuction(w, id, now, END_WRITES) ==
        if id !in w.auctions then w
        else
          var a := w.auctions[id];
          var ended := if a.status == ACTIVE then a.(status := ENDED, winner := a.highestBidder) else a;
          w.(auctions := w.auctions[id := ended.(notified := a.notified || Unannounced(w, id))])
  {
    hide Invite;
  }

  /** Otherwise it tells the highest bidder of the win, and bills them from now. */
  lemma EndAnnounces(w: World, id: AuctionId, now: Time)
    requires Unannounced(w, id) && w.auctions[id].highestBidder.Some?
    ensures
      var t, a := HandleEndAuction(w, id, now, END_WRITES), w.auctions[id];
      var user := a.highestBidder.value;
      && t == w.(auctions := w.auctions[id :=
                   a.(status := ENDED, winner := if a.status == ACTIVE then Some(user) else a.winner,
                      notified := true, paymentDueAt := Some(now + DAY))],
                 notes := map[(user, DedupeKey(Won, id, user)) := AUCTION_WON] + w.notes,
                 queue := map[ExpiredJob(id, user) := now + DAY]
                          + (map[ReminderJob(id, user) := now + DAY - HALF_DAY] + w.queue))
      && (Unqueued(w, id, user) ==> BilledFrom(t, id, user, now))
  {
    hide Invite;
    InvitationExactly(PutAuction(w, id, End(w.auctions[id])), id, w.auctions[id].highestBidder.value, now);
  }

  lemma InvitationExactly(w: World, id: AuctionId, user: UserId, now: Time)
    requires id in w.auctions
    ensures
      Invite(w, id, user, now, END_WRITES) == w.(
        auctions := w.auctions[id := w.auctions[id].(paymentDueAt := Some(now + DAY))],
        notes := map[(user, DedupeKey(Won, id, user)) := AUCTION_WON] + w.notes,
        queue := map[ExpiredJob(id, user) := now + DAY]
                 + (map[ReminderJob(id, user) := now + DAY - HALF_DAY] + w.queue))
  {
    hide ScheduleUpTo, Notify;
    NoteWrite(w, user, Won, id, user, AUCTION_WON);
    SchedulingExactly(Notify(w, user, Won, id, user, AUCTION_WON), id, user, now, END_WRITES - 2);
  }

  /** Ending an auction right now: only by its creator, and only an active one. The end job is then
      due at once, whatever it was due before, and nothing else changes. */
  lemma RequestEndExactly(w: World, id: AuctionId, actor: UserId, now: Time)
    ensures
      var (t, reply) := RequestImmediateEnd(w, id, actor, now);
      && (reply == Done <==> id in w.auctions && w.auctions[id].createdBy == actor && w.auctions[id].status == ACTIVE)
      && (reply == AlreadyDone <==> id in w.auctions && w.auctions[id].createdBy == actor && w.auctions[id].status == ENDED)
      && (reply == Refused(NotCreator) <==> id in w.auctions && w.auctions[id].createdBy != actor)
      && t == if reply == Done then w.(queue := w.queue[EndJob(id) := now]) else w
  {
    var (t, reply) := RequestImmediateEnd(w, id, actor, now);
    if reply == Done {
      assert t.queue == w.queue[EndJob(id) := now];
    }
  }

  // ----- Creating and bidding

  lemma CreateExactly(w: World, id: AuctionId, creator: UserId, price: real, start: Time, end: Time, now: Time, faults: Faults)
    ensures
      var (t, reply) := Create(w, id, creator, price, start, end, now, faults);
      && (reply == Done <==> start < end) && (reply == Done || reply == Refused(EndBeforeStart))
      && (reply != Done ==> t == w)
      && (reply == Done ==>
           && t.auctions == w.auctions[id := Auction(creator, price, end, price, ACTIVE, None, None, false, UNPAID, None, [])]
           && t.bids == w.bids && t.biddedAuctions == w.biddedAuctions
           && t.queue == (if faults.queue then w.queue
                          else map[EndJob(id) := if end < now then now else end] + w.queue)
           && t.notes == (if faults.notes then w.notes
                          else map[(creator, DedupeKey(AuctionCreated, id, creator)) := SYSTEM] + w.notes))
  {
    hide Notify, Enqueue;
    var a := Auction(creator, price, end, price, ACTIVE, None, None, false, UNPAID, None, []);
    var stored := PutAuction(w, id, a);
    var due := if end < now then now else end;
    JobWrite(stored, EndJob(id), due);
    var queued := if faults.queue then stored else Enqueue(stored, EndJob(id), due);
    NoteWrite(queued, creator, AuctionCreated, id, creator, SYSTEM);
  }

  /** A bid is accepted exactly when the auction is active, not past its end and somebody else's, the
      latest bid is somebody else's and the amount is above the current price; the first thing wrong
      decides the refusal. The user outbid, if any, is told. */
  lemma BidExactly(w: World, user: UserId, id: AuctionId, amount: real, now: Time)
    ensures
      var (t, reply) := PlaceBid(w, user, id, amount, now);
      if id !in w.auctions then reply == Refused(NotFound) && t == w
      else
        var a, latest := w.auctions[id], Latest(BidsFor(w.bids, id));
        var over, own := a.endTime <= now, a.createdBy == user;
        var again := latest.Some? && latest.value.userId == user;
        && (reply == Refused(OwnAuction) <==> own)
        && (reply == Refused(HasEnded) <==> !own && over)
        && (reply == Refused(NotActive) <==> !own && !over && a.status != ACTIVE)
        && (reply == Refused(ConsecutiveBid) <==> !own && !over && a.status == ACTIVE && again)
        && (reply == Refused(NotAboveCurrentPrice) <==>
             !own && !over && a.status == ACTIVE && !again && amount <= a.currentPrice)
        && (reply == Done <==> !own && !over && a.status == ACTIVE && !again && amount > a.currentPrice)
        && if reply == Done then
             && t.auctions == w.auctions[id := a.(currentPrice := amount, highestBidder := Some(user))]
             && t.bids == w.bids + [Bid(id, user, amount, now)] && t.queue == w.queue
             && t.biddedAuctions == (if user in w.biddedAuctions
                                     then w.biddedAuctions[user := w.biddedAuctions[user] + {id}] else w.biddedAuctions)
             && t.notes == (if a.highestBidder.Some? && a.highestBidder != Some(user)
                            then map[(a.highestBidder.value, DedupeKey(OutBid(amount), id, a.highestBidder.value)) := OUTBID]
                                 + w.notes
                            else w.notes)
           else t == if reply == Refused(HasEnded) && a.status == ACTIVE
                     then w.(auctions := w.auctions[id := a.(status := ENDED, winner := a.highestBidder)]) else w
  {
  }

  // ----- Cancelling and deleting

  lemma CancelExactly(w: World, id: AuctionId, actor: UserId)
    ensures
      var (t, reply) := Cancel(w, id, actor);
      if id !in w.auctions then reply == Refused(NotFound) && t == w
      else
        var a := w.auctions[id];
        && (reply == Refused(NotCreator) <==> a.createdBy != actor)
        && (reply == AlreadyDone <==> a.createdBy == actor && a.status == CANCELLED)
        && (reply == Refused(IsPaid) <==> a.createdBy == actor && a.status != CANCELLED && a.paymentStatus == PAID)
        && (reply == Done <==> a.createdBy == actor && a.status != CANCELLED && a.paymentStatus == UNPAID)
        && (reply != Done ==> t == w)
        && (reply == Done ==>
             && t.auctions == w.auctions[id := a.(status := CANCELLED, winner := None, paymentDueAt := None)]
             && t.bids == w.bids && t.biddedAuctions == w.biddedAuctions
             && t.queue == w.queue - {EndJob(id)}
                  - (if a.status == ENDED && a.winner.Some?
                     then {ReminderJob(id, a.winner.value), ExpiredJob(id, a.winner.value)} else {})
             && t.notes.Keys == w.notes.Keys + {(actor, DedupeKey(AuctionCancelled, id, actor))}
                  + (set b | b in w.bids && b.auctionId == id && b.userId != actor
                       :: (b.userId, DedupeKey(AuctionCancelledBidder, id, b.userId)))
             && (forall key :: key in t.notes ==> t.notes[key] == if key in w.notes then w.notes[key] else SYSTEM))
  {
    var (t, reply) := Cancel(w, id, actor);
    if reply == Done {
      CancelQueue(w, id, actor);
      CancelTells(w, id, actor);
    }
  }

  lemma CancelQueue(w: World, id: AuctionId, actor: UserId)
    requires Cancel(w, id, actor).1 == Done
    ensures
      var a, t := w.auctions[id], Cancel(w, id, actor).0;
      t.queue == w.queue - {EndJob(id)}
                 - (if a.status == ENDED && a.winner.Some?
                    then {ReminderJob(id, a.winner.value), ExpiredJob(id, a.winner.value)} else {})
  {
  }

  lemma CancelTells(w: World, id: AuctionId, actor: UserId)
    requires Cancel(w, id, actor).1 == Done
    ensures
      var t := Cancel(w, id, actor).0;
      && t.notes.Keys == w.notes.Keys + {(actor, DedupeKey(AuctionCancelled, id, actor))}
           + (set b | b in w.bids && b.auctionId == id && b.userId != actor
                :: (b.userId, DedupeKey(AuctionCancelledBidder, id, b.userId)))
      && forall key :: key in t.notes ==> t.notes[key] == if key in w.notes then w.notes[key] else SYSTEM
  {
    BidsForMembers(w.bids, id);
  }

  lemma DeleteExactly(w: World, id: AuctionId, actor: UserId)
    ensures
      var (t, reply) := Delete(w, id, actor);
      if id !in w.auctions then reply == Refused(NotFound) && t == w
      else
        var a := w.auctions[id];
        && (reply == Refused(NotCreator) <==> a.createdBy != actor)
        && (reply == Refused(IsPaid) <==> a.createdBy == actor && a.paymentStatus == PAID)
        && (reply == Done <==> a.createdBy == actor && a.paymentStatus == UNPAID)
        && (reply != Done ==> t == w)
        && (reply == Done ==>
             && t.auctions == w.auctions - {id} && t.biddedAuctions == w.biddedAuctions && t.notes == w.notes
             && (forall other :: BidsFor(t.bids, other) == if other == id then [] else BidsFor(w.bids, other))
             && t.queue == w.queue - {EndJob(id)}
                  - (if a.winner.Some? then {ReminderJob(id, a.winner.value), ExpiredJob(id, a.winner.value)} else {}))
  {
    var (t, reply) := Delete(w, id, actor);
    if reply == Done {
      forall other ensures BidsFor(t.bids, other) == if other == id then [] else BidsFor(w.bids, other) {
        BidsForWithout(w.bids, id, other);
      }
      hide BidsFor;
    }
  }

  // ----- Sweeping

  /** A listing ends exactly the selected active auctions whose end time has come, and changes nothing
      but their status. */
  lemma SweepExactly(w: World, ids: set<AuctionId>, now: Time)
    ensures
      var t := Sweep(w, ids, now);
      && t == w.(auctions := t.auctions) && t.auctions.Keys == w.auctions.Keys
      && forall id :: id in w.auctions ==>
           t.auctions[id] == if id in ids && w.auctions[id].status == ACTIVE && w.auctions[id].endTime <= now
                             then w.auctions[id].(status := ENDED) else w.auctions[id]
  {
  }

  /** The statistics do the same to the auctions the user has bid on. */
  lemma StatsExactly(w: World, user: UserId, now: Time)
    ensures
      var (t, stats) := BidStats(w, user, now);
      && (stats.Some? <==> user in w.biddedAuctions)
      && t == w.(auctions := t.auctions) && t.auctions.Keys == w.auctions.Keys
      && forall id :: id in w.auctions ==>
           t.auctions[id] ==
             if user in w.biddedAuctions && id in w.biddedAuctions[user]
                && w.auctions[id].status == ACTIVE && w.auctions[id].endTime <= now
             then w.auctions[id].(status := ENDED) else w.auctions[id]
  {
    if user in w.biddedAuctions {
      SweepExactly(w, w.biddedAuctions[user], now);
    }
  }

  // ----- Paying

  /** A winner's confirmation pays exactly an ended unpaid auction of theirs: it is PAID and otherwise
      unchanged, their two payment jobs are gone, and they and the creator are told. */
  lemma ConfirmExactly(w: World, id: AuctionId, user: UserId)
    ensures
      var (t, reply) := ConfirmPayment(w, id, user);
      if id !in w.auctions then reply == Refused(NotFound) && t == w
      else
        var a := w.auctions[id];
        var theirs := a.status == ENDED && a.winner == Some(user);
        && (reply == Refused(NotEnded) <==> a.status != ENDED)
        && (reply == Refused(NotWinner) <==> a.status == ENDED && a.winner != Some(user))
        && (reply == AlreadyDone <==> theirs && a.paymentStatus == PAID)
        && (reply == Done <==> theirs && a.paymentStatus == UNPAID)
        && (reply != Done ==> t == w)
        && (reply == Done ==>
             && t.auctions == w.auctions[id := a.(paymentStatus := PAID)]
             && t.bids == w.bids && t.biddedAuctions == w.biddedAuctions
             && t.queue == w.queue - {ReminderJob(id, user), ExpiredJob(id, user)}
             && t.notes ==
                  (if a.createdBy == user then map[]
                   else map[(a.createdBy, DedupeKey(ManualCreatorPaymentReceived, id, a.createdBy)) := SYSTEM])
                  + (map[(user, DedupeKey(ManualPaymentSuccess, id, user)) := PAYMENT_SUCCESS] + w.notes))
  {
    if ConfirmPayment(w, id, user).1 == Done {
      var paid, creator := Paid(w, id, user), w.auctions[id].createdBy;
      hide Notify;
      NoteWrite(paid, user, ManualPaymentSuccess, id, user, PAYMENT_SUCCESS);
      NoteWrite(Notify(paid, user, ManualPaymentSuccess, id, user, PAYMENT_SUCCESS),
                creator, ManualCreatorPaymentReceived, id, creator, SYSTEM);
    }
  }

  /** The provider's report pays exactly an ended unpaid auction with a winner, who is the expected one
      if the report names one. */
  lemma ProviderExactly(w: World, id: AuctionId, expected: Option<UserId>)
    ensures
      var (t, reply) := ConfirmByProvider(w, id, expected);
      if id !in w.auctions then reply == Refused(NotFound) && t == w
      else
        var a := w.auctions[id];
        var theirs := a.status == ENDED && a.winner.Some? && (expected == None || expected == a.winner);
        && (reply == Refused(NotEnded) <==> a.status != ENDED)
        && (reply == Refused(NoWinner) <==> a.status == ENDED && a.winner == None)
        && (reply == Refused(WinnerMismatch) <==> a.status == ENDED && a.winner.Some? && !theirs)
        && (reply == AlreadyDone <==> theirs && a.paymentStatus == PAID)
        && (reply == Done <==> theirs && a.paymentStatus == UNPAID)
        && t == if reply == Done
                then w.(auctions := w.auctions[id := a.(paymentStatus := PAID)],
                        queue := w.queue - {ReminderJob(id, a.winner.value), ExpiredJob(id, a.winner.value)})
                else w
  {
  }

  /** A reported failure changes nothing; a success that is not refused, new or repeated, leaves the
      auction paid and winner and creator told. */
  lemma WebhookExactly(w: World, id: AuctionId, status: ProviderStatus, expected: Option<UserId>)
    ensures
      var (t, reply) := Webhook(w, id, status, expected);
      var (paid, answer) := ConfirmByProvider(w, id, expected);
      if status == FAILED then t == w && reply == FailureNoted
      else
        && reply == answer
        && (reply.Refused? ==> t == w)
        && (!reply.Refused? ==>
             && id in w.auctions && w.auctions[id].winner.Some?
             && var winner, creator := w.auctions[id].winner.value, w.auctions[id].createdBy;
                t == paid.(notes := map[(creator, DedupeKey(CreatorPaymentReceived, id, creator)) := SYSTEM]
                                    + (map[(winner, DedupeKey(PaymentSuccess, id, winner)) := PAYMENT_SUCCESS] + w.notes)))
  {
    ProviderExactly(w, id, expected);
    var paid := ConfirmByProvider(w, id, expected).0;
    hide Notify, ConfirmByProvider;
    if id in w.auctions && w.auctions[id].winner.Some? {
      var winner, creator := w.auctions[id].winner.value, w.auctions[id].createdBy;
      NoteWrite(paid, winner, PaymentSuccess, id, winner, PAYMENT_SUCCESS);
      NoteWrite(Notify(paid, winner, PaymentSuccess, id, winner, PAYMENT_SUCCESS),
                creator, CreatorPaymentReceived, id, creator, SYSTEM);
    }
  }

  // ----- Replacing a winner

  lemma ReminderExactly(w: World, id: AuctionId, user: UserId)
    ensures
      HandlePaymentReminder(w, id, user) ==
        if id in w.auctions && w.auctions[id].paymentStatus == UNPAID && w.auctions[id].winner == Some(user)
        then w.(notes := map[(user, DedupeKey(PaymentReminder, id, user)) := PAYMENT_REMINDER] + w.notes) else w
  {
  }

  /** The user has won and has not paid. */
  ghost predicate Overdue(w: World, id: AuctionId, user: UserId) {
    id in w.auctions && w.auctions[id].paymentStatus == UNPAID && w.auctions[id].winner == Some(user)
  }

  /** What a complete `handlePaymentExpired` does unless it replaces the winner: nothing for anybody but
      the unpaid winner; otherwise that user is told, and the creator is asked to decide, or told that
      there is no backup. */
  lemma ExpiryTells(w: World, id: AuctionId, user: UserId, mode: ExpiryMode, now: Time)
    requires
      !Overdue(w, id, user) || mode == AskCreator || NextHighestBidder(BidsFor(w.bids, id), user) == None
    ensures
      HandlePaymentExpired(w, id, user, mode, now, EXPIRED_WRITES) ==
        if !Overdue(w, id, user) then w
        else
          var creator := w.auctions[id].createdBy;
          var topic := if mode == AskCreator then CreatorActionRequired else NoBackupBidder;
          w.(notes := map[(creator, DedupeKey(topic, id, user)) := SYSTEM]
                      + (map[(user, DedupeKey(PaymentExpired, id, user)) := SYSTEM] + w.notes))
  {
    hide NextHighestBidder, Notify;
    if Overdue(w, id, user) {
      var told := Notify(w, user, PaymentExpired, id, user, SYSTEM);
      NoteWrite(w, user, PaymentExpired, id, user, SYSTEM);
      NoteWrite(told, w.auctions[id].createdBy, if mode == AskCreator then CreatorActionRequired else NoBackupBidder,
                id, user, SYSTEM);
    }
  }

  /** In switching mode it makes the backup the winner at their own bid, bills them from now, and tells
      the old and the new winner. */
  lemma ExpirySwitches(w: World, id: AuctionId, user: UserId, now: Time)
    requires Overdue(w, id, user) && NextHighestBidder(BidsFor(w.bids, id), user).Some?
    ensures
      var a, t := w.auctions[id], HandlePaymentExpired(w, id, user, Switch, now, EXPIRED_WRITES);
      var backup := NextHighestBidder(BidsFor(w.bids, id), user).value;
      var next := backup.userId;
      && t == w.(auctions := w.auctions[id :=
                   a.(winner := Some(next), highestBidder := Some(next), currentPrice := backup.amount,
                      paymentStatus := UNPAID, paymentDueAt := Some(now + DAY),
                      winnerHistory := a.winnerHistory + [WinnerChange(user, a.currentPrice, AutoSwitch, now)])],
                 notes := map[(next, DedupeKey(WinnerReassigned, id, next)) := AUCTION_WON]
                          + (map[(user, DedupeKey(PaymentExpired, id, user)) := SYSTEM] + w.notes),
                 queue := map[ExpiredJob(id, next) := now + DAY]
                          + (map[ReminderJob(id, next) := now + DAY - HALF_DAY] + w.queue))
      && (Unqueued(w, id, next) ==> BilledFrom(t, id, next, now))
  {
    hide NextHighestBidder, Notify, ScheduleUpTo;
    var backup := NextHighestBidder(BidsFor(w.bids, id), user).value;
    var next := backup.userId;
    var told := Notify(w, user, PaymentExpired, id, user, SYSTEM);
    NoteWrite(w, user, PaymentExpired, id, user, SYSTEM);
    var stored := PutAuction(told, id, Switched(w.auctions[id], user, backup, AutoSwitch, now));
    SchedulingExactly(stored, id, next, now, EXPIRED_WRITES - 2);
    NoteWrite(ScheduleUpTo(stored, id, next, now, EXPIRED_WRITES - 2), next, WinnerReassigned, id, next, AUCTION_WON);
  }

  ghost predicate MayDecide(w: World, id: AuctionId, creator: UserId) {
    && id in w.auctions && w.auctions[id].createdBy == creator
    && w.auctions[id].paymentStatus == UNPAID && w.auctions[id].winner.Some?
  }

  lemma DecisionRefused(w: World, id: AuctionId, creator: UserId, action: Decision, now: Time)
    ensures
      var (t, reply) := Decide(w, id, creator, action, now);
      && (reply == Refused(NotFound) <==> id !in w.auctions)
      && (reply == Refused(NotCreator) <==> id in w.auctions && w.auctions[id].createdBy != creator)
      && (reply == Refused(IsPaid) <==>
           id in w.auctions && w.auctions[id].createdBy == creator && w.auctions[id].paymentStatus == PAID)
      && (reply.Refused? <==> !MayDecide(w, id, creator))
      && (reply != Done ==> t == w)
      && (reply == NoNextBidder <==>
           && action == PushNext && MayDecide(w, id, creator)
           && NextHighestBidder(BidsFor(w.bids, id), w.auctions[id].winner.value) == None)
  {
    hide NextHighestBidder, Schedule;
  }

  /** Keeping the winner renews both payment jobs and the due date from now, and tells both. */
  lemma KeepExactly(w: World, id: AuctionId, creator: UserId, now: Time)
    requires MayDecide(w, id, creator)
    ensures
      var a, (t, reply) := w.auctions[id], Decide(w, id, creator, KeepCurrent, now);
      var current := a.winner.value;
      && reply == Done
      && t == w.(auctions := w.auctions[id := a.(paymentDueAt := Some(now + DAY))],
                 notes := map[(creator, DedupeKey(CreatorPaymentExtended, id, creator)) := SYSTEM]
                          + (map[(current, DedupeKey(PaymentExtended, id, current)) := SYSTEM] + w.notes),
                 queue := w.queue[ExpiredJob(id, current) := now + DAY]
                                 [ReminderJob(id, current) := now + DAY - HALF_DAY])
      && BilledFrom(t, id, current, now)
  {
    hide Notify, ScheduleUpTo;
    var current := w.auctions[id].winner.value;
    var cleared := Dequeue(w, PaymentJobs(id, current));
    SchedulingExactly(cleared, id, current, now, 3);
    var again := Schedule(cleared, id, current, now);
    NoteWrite(again, current, PaymentExtended, id, current, SYSTEM);
    NoteWrite(Notify(again, current, PaymentExtended, id, current, SYSTEM),
              creator, CreatorPaymentExtended, id, creator, SYSTEM);
    RequeuedBoth(w.queue, ExpiredJob(id, current), ReminderJob(id, current), now + DAY, now + DAY - HALF_DAY);
  }

  lemma RequeuedBoth(queue: map<JobId, Time>, x: JobId, y: JobId, due: Time, before: Time)
    requires x != y
    ensures map[x := due] + (map[y := before] + (queue - {y, x})) == queue[x := due][y := before]
  {
  }

  /** Pushing the next bidder takes the displaced winner's jobs out of the queue, puts the new winner's
      in, and tells the previous winner, the new one and the creator. */
  lemma PushExactly(w: World, id: AuctionId, creator: UserId, now: Time)
    requires MayDecide(w, id, creator) && NextHighestBidder(BidsFor(w.bids, id), w.auctions[id].winner.value).Some?
    ensures
      var a, (t, reply) := w.auctions[id], Decide(w, id, creator, PushNext, now);
      var current := a.winner.value;
      var backup := NextHighestBidder(BidsFor(w.bids, id), current).value;
      var next := backup.userId;
      && reply == Done
      && t == w.(auctions := w.auctions[id :=
                   a.(winner := Some(next), highestBidder := Some(next), currentPrice := backup.amount,
                      paymentStatus := UNPAID, paymentDueAt := Some(now + DAY),
                      winnerHistory := a.winnerHistory + [WinnerChange(current, a.currentPrice, CreatorPushedNext, now)])],
                 notes := map[(creator, DedupeKey(CreatorWinnerSwitched, id, creator)) := SYSTEM]
                          + (map[(next, DedupeKey(WinnerReassignedManual, id, next)) := AUCTION_WON]
                             + (map[(current, DedupeKey(WinnerChangedOut, id, current)) := SYSTEM] + w.notes)),
                 queue := map[ExpiredJob(id, next) := now + DAY]
                          + (map[ReminderJob(id, next) := now + DAY - HALF_DAY]
                             + (w.queue - {ReminderJob(id, current), ExpiredJob(id, current)})))
      && (Unqueued(w, id, next) ==> BilledFrom(t, id, next, now))
  {
    hide NextHighestBidder, Notify, ScheduleUpTo;
    var a := w.auctions[id];
    var current := a.winner.value;
    var backup := NextHighestBidder(BidsFor(w.bids, id), current).value;
    var next := backup.userId;
    var stored := PutAuction(w, id, Switched(a, current, backup, CreatorPushedNext, now));
    var cleared := Dequeue(stored, PaymentJobs(id, current));
    SchedulingExactly(cleared, id, next, now, 3);
    var again := Schedule(cleared, id, next, now);
    NoteWrite(again, current, WinnerChangedOut, id, current, SYSTEM);
    var told := Notify(again, current, WinnerChangedOut, id, current, SYSTEM);
    NoteWrite(told, next, WinnerReassignedManual, id, next, AUCTION_WON);
    var both := Notify(told, next, WinnerReassignedManual, id, next, AUCTION_WON);
    NoteWrite(both, creator, CreatorWinnerSwitched, id, creator, SYSTEM);
  }
}
