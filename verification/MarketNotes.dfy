/** The notifications a run of handlers leaves, by recipient and dedupe key. */
module MarketNotes {
  import opened Common
  import opened BidOrder
  import opened Market
  import opened MarketRuns

  ghost predicate Kept<K, V>(m: map<K, V>, n: map<K, V>) {
    forall k :: k in m ==> k in n && n[k] == m[k]
  }

  /** No won notification is added. */
  ghost predicate NoneWon(m: map<(UserId, DedupeKey), NoteKind>, n: map<(UserId, DedupeKey), NoteKind>) {
    forall k :: k in n && k.1.topic == Won ==> k in m
  }

  lemma NotifyNotes(w: World, to: UserId, topic: Topic, id: AuctionId, about: UserId, kind: NoteKind)
    requires topic != Won
    ensures Kept(w.notes, Notify(w, to, topic, id, about, kind).notes)
    ensures NoneWon(w.notes, Notify(w, to, topic, id, about, kind).notes)
  {
  }

  lemma NotesChain(w: World, t: World, u: World)
    requires Kept(w.notes, t.notes) && NoneWon(w.notes, t.notes) && Kept(t.notes, u.notes) && NoneWon(t.notes, u.notes)
    ensures Kept(w.notes, u.notes) && NoneWon(w.notes, u.notes)
  {
  }

  lemma NotesStay(w: World, e: Event)
    ensures Kept(w.notes, Handle(w, e).notes)
    ensures !e.EndDelivered? ==> NoneWon(w.notes, Handle(w, e).notes)
  {
    hide Kept, NoneWon, PlaceBid, HandleEndAuction, Cancel, Webhook, Decide, HandlePaymentExpired, ConfirmPayment;
    match e
    case EndDelivered(id, now, writes) => EndNotes(w, id, now, writes);
    case BidSent(user, id, amount, now) => BidNotes(w, user, id, amount, now);
    case PaymentConfirmed(id, user) => ConfirmNotes(w, id, user);
    case CancelSent(id, actor) => CancelNotes(w, id, actor);
    case WebhookReceived(id, status, expected) => WebhookNotes(w, id, status, expected);
    case DecisionSent(id, creator, action, now) => DecisionNotes(w, id, creator, action, now);
    case ExpiredDelivered(id, user, mode, now, writes) => ExpiredNotes(w, id, user, mode, now, writes);
    case _ => OtherNotes(w, e);
  }

  lemma OtherNotes(w: World, e: Event)
    requires
      || e.UserCreated? || e.AuctionPosted? || e.EndRequested? || e.DeleteSent? || e.Listed?
      || e.ReminderDelivered? || e.JobGone?
    ensures Kept(w.notes, Handle(w, e).notes)
    ensures NoneWon(w.notes, Handle(w, e).notes)
  {
    NoNotes(w);
    hide Kept, NoneWon, Create, HandlePaymentReminder;
    match e
    case AuctionPosted(id, creator, price, start, end, now, faults) =>
      PostedNotes(w, id, creator, price, start, end, now, faults);
    case ReminderDelivered(id, user) => ReminderNotes(w, id, user);
    case _ =>
  }

  lemma PostedNotes(w: World, id: AuctionId, creator: UserId, price: real, start: Time, end: Time, now: Time, faults: Faults)
    ensures Kept(w.notes, Create(w, id, creator, price, start, end, now, faults).0.notes)
    ensures NoneWon(w.notes, Create(w, id, creator, price, start, end, now, faults).0.notes)
  {
  }

  lemma ReminderNotes(w: World, id: AuctionId, user: UserId)
    ensures Kept(w.notes, HandlePaymentReminder(w, id, user).notes)
    ensures NoneWon(w.notes, HandlePaymentReminder(w, id, user).notes)
  {
  }

  lemma EndNotes(w: World, id: AuctionId, now: Time, writes: nat)
    ensures Kept(w.notes, HandleEndAuction(w, id, now, writes).notes)
  {
    if id in w.auctions && writes > 0 {
      var a := End(w.auctions[id]);
      var ended := PutAuction(w, id, a);
      if a.highestBidder.Some? {
        var user := a.highestBidder.value;
        ScheduleOnlyDates(ended, id, user, now, writes - 2);
        ScheduleOnlyDates(Notify(ended, user, Won, id, user, AUCTION_WON), id, user, now, writes - 2);
      }
    }
  }

  lemma BidNotes(w: World, user: UserId, id: AuctionId, amount: real, now: Time)
    ensures Kept(w.notes, PlaceBid(w, user, id, amount, now).0.notes)
    ensures NoneWon(w.notes, PlaceBid(w, user, id, amount, now).0.notes)
  {
  }

  lemma ConfirmNotes(w: World, id: AuctionId, user: UserId)
    ensures Kept(w.notes, ConfirmPayment(w, id, user).0.notes)
    ensures NoneWon(w.notes, ConfirmPayment(w, id, user).0.notes)
  {
    if ConfirmPayment(w, id, user).1 == Done {
      var paid := Paid(w, id, user);
      assert paid.notes == w.notes;
      var told := Notify(paid, user, ManualPaymentSuccess, id, user, PAYMENT_SUCCESS);
      var creator := w.auctions[id].createdBy;
      var t := Notify(told, creator, ManualCreatorPaymentReceived, id, creator, SYSTEM);
      hide Notify, Kept, NoneWon, Paid;
      NotifyNotes(paid, user, ManualPaymentSuccess, id, user, PAYMENT_SUCCESS);
      NotifyNotes(told, creator, ManualCreatorPaymentReceived, id, creator, SYSTEM);
      NotesChain(w, told, t);
    }
  }

  lemma CancelNotes(w: World, id: AuctionId, actor: UserId)
    ensures Kept(w.notes, Cancel(w, id, actor).0.notes)
    ensures NoneWon(w.notes, Cancel(w, id, actor).0.notes)
  {
  }

  lemma WebhookNotes(w: World, id: AuctionId, status: ProviderStatus, expected: Option<UserId>)
    ensures Kept(w.notes, Webhook(w, id, status, expected).0.notes)
    ensures NoneWon(w.notes, Webhook(w, id, status, expected).0.notes)
  {
    assert ConfirmByProvider(w, id, expected).0.notes == w.notes;
    hide ConfirmByProvider;
  }

  lemma DecisionNotes(w: World, id: AuctionId, creator: UserId, action: Decision, now: Time)
    ensures Kept(w.notes, Decide(w, id, creator, action, now).0.notes)
    ensures NoneWon(w.notes, Decide(w, id, creator, action, now).0.notes)
  {
    if Decide(w, id, creator, action, now).1 != Done {
      UndecidedWrites(w, id, creator, action, now);
    } else {
      match action
      case KeepCurrent => KeepNotes(w, id, creator, now);
      case PushNext => PushNotes(w, id, creator, now);
    }
  }

  lemma KeepNotes(w: World, id: AuctionId, creator: UserId, now: Time)
    requires Decide(w, id, creator, KeepCurrent, now).1 == Done
    ensures Kept(w.notes, Decide(w, id, creator, KeepCurrent, now).0.notes)
    ensures NoneWon(w.notes, Decide(w, id, creator, KeepCurrent, now).0.notes)
  {
    var current := w.auctions[id].winner.value;
    var again := Schedule(Dequeue(w, PaymentJobs(id, current)), id, current, now);
    ScheduleOnlyDates(Dequeue(w, PaymentJobs(id, current)), id, current, now, 3);
    assert again.notes == w.notes;
    hide Notify, Kept, NoneWon, Schedule;
    var told := Notify(again, current, PaymentExtended, id, current, SYSTEM);
    NotifyNotes(again, current, PaymentExtended, id, current, SYSTEM);
    NotifyNotes(told, creator, CreatorPaymentExtended, id, creator, SYSTEM);
    NotesChain(w, told, Decide(w, id, creator, KeepCurrent, now).0);
  }

  lemma PushNotes(w: World, id: AuctionId, creator: UserId, now: Time)
    requires Decide(w, id, creator, PushNext, now).1 == Done
    ensures Kept(w.notes, Decide(w, id, creator, PushNext, now).0.notes)
    ensures NoneWon(w.notes, Decide(w, id, creator, PushNext, now).0.notes)
  {
    hide NextHighestBidder;
    var a := w.auctions[id];
    var current, next := a.winner.value, NextHighestBidder(BidsFor(w.bids, id), a.winner.value).value;
    var stored := PutAuction(w, id, Switched(a, current, next, CreatorPushedNext, now));
    var again := Schedule(Dequeue(stored, PaymentJobs(id, current)), id, next.userId, now);
    ScheduleOnlyDates(Dequeue(stored, PaymentJobs(id, current)), id, next.userId, now, 3);
    assert again.notes == w.notes;
    hide Notify, Kept, NoneWon, Schedule;
    var told := Notify(again, current, WinnerChangedOut, id, current, SYSTEM);
    var both := Notify(told, next.userId, WinnerReassignedManual, id, next.userId, AUCTION_WON);
    NotifyNotes(again, current, WinnerChangedOut, id, current, SYSTEM);
    NotifyNotes(told, next.userId, WinnerReassignedManual, id, next.userId, AUCTION_WON);
    NotifyNotes(both, creator, CreatorWinnerSwitched, id, creator, SYSTEM);
    NotesChain(w, told, both);
    NotesChain(w, both, Decide(w, id, creator, PushNext, now).0);
  }

  lemma ExpiredNotes(w: World, id: AuctionId, user: UserId, mode: ExpiryMode, now: Time, writes: nat)
    ensures Kept(w.notes, HandlePaymentExpired(w, id, user, mode, now, writes).notes)
    ensures NoneWon(w.notes, HandlePaymentExpired(w, id, user, mode, now, writes).notes)
  {
    hide HandlePaymentExpired, Kept, NoneWon;
    if Switches(w, id, user, mode, writes) {
      SwitchNotes(w, id, user, now, writes);
    } else {
      NoSwitchNotes(w, id, user, mode, now, writes);
    }
  }

  lemma NoSwitchNotes(w: World, id: AuctionId, user: UserId, mode: ExpiryMode, now: Time, writes: nat)
    requires !Switches(w, id, user, mode, writes)
    ensures Kept(w.notes, HandlePaymentExpired(w, id, user, mode, now, writes).notes)
    ensures NoneWon(w.notes, HandlePaymentExpired(w, id, user, mode, now, writes).notes)
  {
    hide Notify, NextHighestBidder, Kept, NoneWon, BidsFor;
    NoNotes(w);
    if id in w.auctions {
      var creator := w.auctions[id].createdBy;
      var told := Notify(w, user, PaymentExpired, id, user, SYSTEM);
      NotifyNotes(w, user, PaymentExpired, id, user, SYSTEM);
      var topic := if mode == AskCreator then CreatorActionRequired else NoBackupBidder;
      NotifyNotes(told, creator, topic, id, user, SYSTEM);
      NotesChain(w, told, Notify(told, creator, topic, id, user, SYSTEM));
    }
  }

  lemma NoNotes(w: World)
    ensures Kept(w.notes, w.notes) && NoneWon(w.notes, w.notes)
  {
  }

  lemma SwitchNotes(w: World, id: AuctionId, user: UserId, now: Time, writes: nat)
    requires Switches(w, id, user, Switch, writes)
    ensures Kept(w.notes, HandlePaymentExpired(w, id, user, Switch, now, writes).notes)
    ensures NoneWon(w.notes, HandlePaymentExpired(w, id, user, Switch, now, writes).notes)
  {
    hide NextHighestBidder;
    var next := NextHighestBidder(BidsFor(w.bids, id), user).value;
    var told := Notify(w, user, PaymentExpired, id, user, SYSTEM);
    var stored := PutAuction(told, id, Switched(w.auctions[id], user, next, AutoSwitch, now));
    var scheduled := ScheduleUpTo(stored, id, next.userId, now, writes - 2);
    ScheduleOnlyDates(stored, id, next.userId, now, writes - 2);
    assert scheduled.notes == told.notes;
    hide Notify, Kept, NoneWon, ScheduleUpTo;
    NotifyNotes(w, user, PaymentExpired, id, user, SYSTEM);
    NotifyNotes(scheduled, next.userId, WinnerReassigned, id, next.userId, AUCTION_WON);
    NotesChain(w, told, Notify(scheduled, next.userId, WinnerReassigned, id, next.userId, AUCTION_WON));
  }

  /** Once stored under its recipient and dedupe key a notification stays as it is, whatever is
      created under the same key later. */
  lemma {:induction false} NotificationsAreStable(w: World, events: seq<Event>)
    ensures Kept(w.notes, Run(w, events).notes)
  {
    hide Handle;
    if events != [] {
      NotificationsAreStable(w, events[..|events| - 1]);
      NotesStay(Run(w, events[..|events| - 1]), events[|events| - 1]);
    }
  }
}
