/** When jobs and payments are due, over every run, and when a winner's payment jobs are queued. */
module MarketTimes {
  import opened Common
  import opened BidOrder
  import opened Market
  import opened MarketRuns
  import opened MarketEffects
  import opened MarketEndings

  /** The handlers that bill a winner. */
  predicate Bills(e: Event, id: AuctionId) {
    (e.EndDelivered? || e.ExpiredDelivered? || e.DecisionSent?) && e.id == id
  }

  /** The event may have queued the job for this time. */
  predicate DueFrom(e: Event, job: JobId, due: Time) {
    match job
    case EndJob(id) =>
      || (e.AuctionPosted? && e.id == id && due == if e.end < e.now then e.now else e.end)
      || (e.EndRequested? && e.id == id && due == e.now)
    case ReminderJob(id, _) => Bills(e, id) && due == e.now + HALF_DAY
    case ExpiredJob(id, _) => Bills(e, id) && due == e.now + DAY
  }

  function DueDate(w: World, id: AuctionId): Option<Time> {
    if id in w.auctions then w.auctions[id].paymentDueAt else None
  }

  ghost predicate SameEntry(m: map<JobId, Time>, n: map<JobId, Time>, job: JobId) {
    (job in m <==> job in n) && (job in m ==> n[job] == m[job])
  }

  /** Every queued job was queued before at the same time, or is due as this event says. */
  ghost predicate JobsTimely(w: World, t: World, e: Event) {
    forall job :: job in t.queue ==> (job in w.queue && t.queue[job] == w.queue[job]) || DueFrom(e, job, t.queue[job])
  }

  /** Every due date was there before, or is a day from this event; only an end job flags its auction. */
  ghost predicate DatesTimely(w: World, t: World, e: Event) {
    && (forall id :: id in t.auctions && t.auctions[id].paymentDueAt.Some? ==>
         || (id in w.auctions && t.auctions[id].paymentDueAt == w.auctions[id].paymentDueAt)
         || (Bills(e, id) && t.auctions[id].paymentDueAt == Some(e.now + DAY)))
    && (forall id :: id in t.auctions && t.auctions[id].notified ==>
         (id in w.auctions && w.auctions[id].notified) || (e.EndDelivered? && e.id == id))
  }

  ghost predicate Timely(w: World, t: World, e: Event) {
    JobsTimely(w, t, e) && DatesTimely(w, t, e)
  }

  lemma TimelyChain(w: World, t: World, u: World, e: Event)
    requires Timely(w, t, e) && Timely(t, u, e)
    ensures Timely(w, u, e)
  {
    hide DueFrom, Bills;
  }

  /** Nothing is queued, nothing gets a new due date and nothing is flagged. */
  ghost predicate Idle(w: World, t: World) {
    && (forall job :: job in t.queue ==> job in w.queue && t.queue[job] == w.queue[job])
    && (forall id :: id in t.auctions ==>
         && t.auctions[id].paymentDueAt in {None, DueDate(w, id)}
         && (t.auctions[id].notified ==> id in w.auctions && w.auctions[id].notified))
  }

  lemma IdleIsTimely(w: World, t: World, e: Event)
    requires Idle(w, t)
    ensures Timely(w, t, e)
  {
    hide DueFrom, Bills;
  }

  lemma ScheduleTimely(w: World, id: AuctionId, user: UserId, now: Time, writes: int, e: Event)
    requires id in w.auctions && Bills(e, id) && e.now == now
    ensures Timely(w, ScheduleUpTo(w, id, user, now, writes), e)
  {
  }

  lemma PutTimely(w: World, id: AuctionId, a: Auction, e: Event)
    requires id in w.auctions && a.paymentDueAt == w.auctions[id].paymentDueAt
    requires a.notified ==> w.auctions[id].notified || (e.EndDelivered? && e.id == id)
    ensures Timely(w, PutAuction(w, id, a), e)
  {
    hide DueFrom, Bills;
    var t := PutAuction(w, id, a);
    forall other | other in t.auctions
      ensures other in w.auctions && t.auctions[other].paymentDueAt == w.auctions[other].paymentDueAt
      ensures t.auctions[other].notified ==> w.auctions[other].notified || (e.EndDelivered? && e.id == other)
    {
    }
    hide PutAuction;
  }

  lemma InviteTimely(w: World, id: AuctionId, user: UserId, now: Time, writes: nat, e: Event)
    requires id in w.auctions && Bills(e, id) && e.now == now
    ensures Timely(w, Invite(w, id, user, now, writes), e)
  {
    var told := if writes >= 2 then Notify(w, user, Won, id, user, AUCTION_WON) else w;
    IdleIsTimely(w, told, e);
    ScheduleTimely(told, id, user, now, writes - 2, e);
    hide Timely, ScheduleUpTo, Notify;
    TimelyChain(w, told, Invite(w, id, user, now, writes), e);
  }

  lemma EndTimely(w: World, id: AuctionId, now: Time, writes: nat)
    ensures Timely(w, HandleEndAuction(w, id, now, writes), EndDelivered(id, now, writes))
  {
    var e := EndDelivered(id, now, writes);
    IdleIsTimely(w, w, e);
    hide Timely, Invite;
    if id in w.auctions && writes > 0 {
      var a := End(w.auctions[id]);
      var ended := PutAuction(w, id, a);
      PutTimely(w, id, a, e);
      var invited := ended;
      if a.highestBidder.Some? {
        invited := Invite(ended, id, a.highestBidder.value, now, writes);
        InviteTimely(ended, id, a.highestBidder.value, now, writes, e);
        TimelyChain(w, ended, invited, e);
      }
      var flagged := PutAuction(invited, id, invited.auctions[id].(notified := true));
      PutTimely(invited, id, invited.auctions[id].(notified := true), e);
      TimelyChain(w, invited, flagged, e);
    }
  }

  lemma ExpiryTimely(w: World, id: AuctionId, user: UserId, mode: ExpiryMode, now: Time, writes: nat)
    ensures
      Timely(w, HandlePaymentExpired(w, id, user, mode, now, writes), ExpiredDelivered(id, user, mode, now, writes))
  {
    hide HandlePaymentExpired, Timely;
    if Switches(w, id, user, mode, writes) {
      SwitchTimely(w, id, user, now, writes);
    } else {
      ExpiryIdle(w, id, user, mode, now, writes);
      IdleIsTimely(w, HandlePaymentExpired(w, id, user, mode, now, writes), ExpiredDelivered(id, user, mode, now, writes));
    }
  }

  lemma ExpiryIdle(w: World, id: AuctionId, user: UserId, mode: ExpiryMode, now: Time, writes: nat)
    requires !Switches(w, id, user, mode, writes)
    ensures Idle(w, HandlePaymentExpired(w, id, user, mode, now, writes))
  {
    hide NextHighestBidder, PutIfAbsent;
  }

  lemma SwitchTimely(w: World, id: AuctionId, user: UserId, now: Time, writes: nat)
    requires Switches(w, id, user, Switch, writes)
    ensures
      Timely(w, HandlePaymentExpired(w, id, user, Switch, now, writes), ExpiredDelivered(id, user, Switch, now, writes))
  {
    hide NextHighestBidder, Timely, ScheduleUpTo, PutIfAbsent;
    var e, t := ExpiredDelivered(id, user, Switch, now, writes), HandlePaymentExpired(w, id, user, Switch, now, writes);
    var next := NextHighestBidder(BidsFor(w.bids, id), user).value;
    var told := Notify(w, user, PaymentExpired, id, user, SYSTEM);
    var stored := PutAuction(told, id, Switched(w.auctions[id], user, next, AutoSwitch, now));
    var billed := ScheduleUpTo(stored, id, next.userId, now, writes - 2);
    IdleIsTimely(w, stored, e);
    ScheduleTimely(stored, id, next.userId, now, writes - 2, e);
    TimelyChain(w, stored, billed, e);
    IdleIsTimely(billed, t, e);
    TimelyChain(w, billed, t, e);
  }

  lemma DecisionTimely(w: World, id: AuctionId, creator: UserId, action: Decision, now: Time)
    ensures Timely(w, Decide(w, id, creator, action, now).0, DecisionSent(id, creator, action, now))
  {
    hide NextHighestBidder, Decide, Timely;
    DecisionRefused(w, id, creator, action, now);
    IdleIsTimely(w, w, DecisionSent(id, creator, action, now));
    if Decide(w, id, creator, action, now).1 == Done {
      if action == KeepCurrent {
        KeepTimely(w, id, creator, now);
      } else {
        PushTimely(w, id, creator, now);
      }
    }
  }

  lemma KeepTimely(w: World, id: AuctionId, creator: UserId, now: Time)
    requires MayDecide(w, id, creator)
    ensures Timely(w, Decide(w, id, creator, KeepCurrent, now).0, DecisionSent(id, creator, KeepCurrent, now))
  {
    hide Decide;
    KeepExactly(w, id, creator, now);
  }

  lemma PushTimely(w: World, id: AuctionId, creator: UserId, now: Time)
    requires MayDecide(w, id, creator) && NextHighestBidder(BidsFor(w.bids, id), w.auctions[id].winner.value).Some?
    ensures Timely(w, Decide(w, id, creator, PushNext, now).0, DecisionSent(id, creator, PushNext, now))
  {
    hide Decide, NextHighestBidder, JobsTimely, DatesTimely, MayDecide;
    PushJobs(w, id, creator, now);
    PushDates(w, id, creator, now);
  }

  lemma PushJobs(w: World, id: AuctionId, creator: UserId, now: Time)
    requires MayDecide(w, id, creator) && NextHighestBidder(BidsFor(w.bids, id), w.auctions[id].winner.value).Some?
    ensures JobsTimely(w, Decide(w, id, creator, PushNext, now).0, DecisionSent(id, creator, PushNext, now))
  {
    hide Decide, NextHighestBidder, BilledFrom, Unqueued;
    PushExactly(w, id, creator, now);
  }

  lemma PushDates(w: World, id: AuctionId, creator: UserId, now: Time)
    requires MayDecide(w, id, creator) && NextHighestBidder(BidsFor(w.bids, id), w.auctions[id].winner.value).Some?
    ensures DatesTimely(w, Decide(w, id, creator, PushNext, now).0, DecisionSent(id, creator, PushNext, now))
  {
    hide Decide, NextHighestBidder, BilledFrom, Unqueued;
    PushExactly(w, id, creator, now);
  }

  lemma CreateTimely(w: World, id: AuctionId, creator: UserId, price: real, start: Time, end: Time, now: Time, faults: Faults)
    ensures
      Timely(w, Create(w, id, creator, price, start, end, now, faults).0,
             AuctionPosted(id, creator, price, start, end, now, faults))
  {
    CreateExactly(w, id, creator, price, start, end, now, faults);
    hide Create;
  }

  lemma RequestTimely(w: World, id: AuctionId, actor: UserId, now: Time)
    ensures Timely(w, RequestImmediateEnd(w, id, actor, now).0, EndRequested(id, actor, now))
  {
    RequestEndExactly(w, id, actor, now);
    hide RequestImmediateEnd;
  }

  /** The other handlers queue nothing and set no due date. */
  lemma OthersIdle(w: World, e: Event)
    requires !e.EndDelivered? && !e.ExpiredDelivered? && !e.DecisionSent? && !e.AuctionPosted? && !e.EndRequested?
    ensures Idle(w, Handle(w, e))
  {
    hide PlaceBid, Cancel, Delete, Sweep, ConfirmPayment, Webhook, HandlePaymentReminder, Idle;
    match e
    case UserCreated(user) => IdleSame(w, Handle(w, e));
    case BidSent(user, id, amount, now) => BidIdle(w, user, id, amount, now);
    case CancelSent(id, actor) => CancelIdle(w, id, actor);
    case DeleteSent(id, actor) => DeleteIdle(w, id, actor);
    case Listed(ids, now) => SweepIdle(w, ids, now);
    case PaymentConfirmed(id, user) => ConfirmIdle(w, id, user);
    case WebhookReceived(id, status, expected) => WebhookIdle(w, id, status, expected);
    case ReminderDelivered(id, user) => ReminderExactly(w, id, user); IdleSame(w, Handle(w, e));
    case JobGone(job) => IdleSame(w, Handle(w, e));
  }

  lemma IdleSame(w: World, t: World)
    requires t.auctions == w.auctions && forall job :: job in t.queue ==> job in w.queue && t.queue[job] == w.queue[job]
    ensures Idle(w, t)
  {
  }

  lemma BidIdle(w: World, user: UserId, id: AuctionId, amount: real, now: Time)
    ensures Idle(w, PlaceBid(w, user, id, amount, now).0)
  {
    BidExactly(w, user, id, amount, now);
    hide PlaceBid;
  }

  lemma CancelIdle(w: World, id: AuctionId, actor: UserId)
    ensures Idle(w, Cancel(w, id, actor).0)
  {
    CancelExactly(w, id, actor);
    hide Cancel;
  }

  lemma DeleteIdle(w: World, id: AuctionId, actor: UserId)
    ensures Idle(w, Delete(w, id, actor).0)
  {
    DeleteExactly(w, id, actor);
    hide Delete;
  }

  lemma SweepIdle(w: World, ids: set<AuctionId>, now: Time)
    ensures Idle(w, Sweep(w, ids, now))
  {
  }

  lemma ConfirmIdle(w: World, id: AuctionId, user: UserId)
    ensures Idle(w, ConfirmPayment(w, id, user).0)
  {
    ConfirmExactly(w, id, user);
    hide ConfirmPayment;
  }

  lemma WebhookIdle(w: World, id: AuctionId, status: ProviderStatus, expected: Option<UserId>)
    ensures Idle(w, Webhook(w, id, status, expected).0)
  {
    ProviderExactly(w, id, expected);
    WebhookExactly(w, id, status, expected);
    hide Webhook, ConfirmByProvider;
  }

  lemma HandleTimely(w: World, e: Event)
    ensures Timely(w, Handle(w, e), e)
  {
    hide Timely, Idle, Create, HandleEndAuction, RequestImmediateEnd, HandlePaymentExpired, Decide;
    match e
    case AuctionPosted(id, creator, price, start, end, now, faults) =>
      CreateTimely(w, id, creator, price, start, end, now, faults);
    case EndDelivered(id, now, writes) => EndTimely(w, id, now, writes);
    case EndRequested(id, actor, now) => RequestTimely(w, id, actor, now);
    case ExpiredDelivered(id, user, mode, now, writes) => ExpiryTimely(w, id, user, mode, now, writes);
    case DecisionSent(id, creator, action, now) => DecisionTimely(w, id, creator, action, now);
    case _ => OthersIdle(w, e); IdleIsTimely(w, Handle(w, e), e); hide Handle;
  }

  // ----- Over runs

  /** The event of the run that last changed the job's entry in the queue. */
  ghost function QueuedBy(events: seq<Event>, job: JobId): Option<Event> {
    if events == [] then None
    else
      var n := |events| - 1;
      if SameEntry(Run(EMPTY, events[..n]).queue, Run(EMPTY, events).queue, job) then QueuedBy(events[..n], job)
      else Some(events[n])
  }

  /** The event of the run that last changed the date by which the auction is to be paid. */
  ghost function DatedBy(events: seq<Event>, id: AuctionId): Option<Event> {
    if events == [] then None
    else
      var n := |events| - 1;
      if DueDate(Run(EMPTY, events[..n]), id) == DueDate(Run(EMPTY, events), id) then DatedBy(events[..n], id)
      else Some(events[n])
  }

  lemma StepTimely(w: World, e: Event)
    ensures Timely(w, Step(w, e), e)
  {
    HandleTimely(w, e);
    IdleIsTimely(w, w, e);
    hide Handle, Possible, Timely;
  }

  /** In every run each queued job is due as the event that queued it says: an end job at the end time
      or at once, a reminder half a day and an expiry a day after the winner was billed. */
  lemma {:induction false} JobsAreOnTime(events: seq<Event>, job: JobId)
    requires job in Run(EMPTY, events).queue
    ensures
      QueuedBy(events, job).Some? && DueFrom(QueuedBy(events, job).value, job, Run(EMPTY, events).queue[job])
  {
    hide Step, DueFrom;
    if events != [] {
      var n := |events| - 1;
      StepTimely(Run(EMPTY, events[..n]), events[n]);
      if SameEntry(Run(EMPTY, events[..n]).queue, Run(EMPTY, events).queue, job) {
        JobsAreOnTime(events[..n], job);
      }
    }
  }

  /** In every run a payment is due a day after the event that set the date. */
  lemma {:induction false} DatesAreOnTime(events: seq<Event>, id: AuctionId)
    requires DueDate(Run(EMPTY, events), id).Some?
    ensures
      && DatedBy(events, id).Some? && Bills(DatedBy(events, id).value, id)
      && DueDate(Run(EMPTY, events), id) == Some(DatedBy(events, id).value.now + DAY)
  {
    hide Step, DueFrom, Bills;
    if events != [] {
      var n := |events| - 1;
      StepTimely(Run(EMPTY, events[..n]), events[n]);
      if DueDate(Run(EMPTY, events[..n]), id) == DueDate(Run(EMPTY, events), id) {
        DatesAreOnTime(events[..n], id);
      }
    }
  }

  /** A queued expiry job is due exactly when the stored due date says, if and only if the two were set
      at the same moment: a job left in the queue keeps its time when its winner is billed again. */
  lemma ExpiryAgreesWithDate(events: seq<Event>, id: AuctionId, user: UserId)
    requires ExpiredJob(id, user) in Run(EMPTY, events).queue && DueDate(Run(EMPTY, events), id).Some?
    ensures
      var w := Run(EMPTY, events);
      var queued, dated := QueuedBy(events, ExpiredJob(id, user)), DatedBy(events, id);
      && queued.Some? && dated.Some? && Bills(queued.value, id) && Bills(dated.value, id)
      && (Some(w.queue[ExpiredJob(id, user)]) == DueDate(w, id) <==> queued.value.now == dated.value.now)
  {
    hide Run, QueuedBy, DatedBy, Bills;
    JobsAreOnTime(events, ExpiredJob(id, user));
    DatesAreOnTime(events, id);
  }

  // ----- Billed winners in runs whose jobs complete

  /** Delivered jobs run to their end. */
  predicate Complete(e: Event) {
    && (e.EndDelivered? ==> e.writes == END_WRITES)
    && (e.ExpiredDelivered? ==> e.writes == EXPIRED_WRITES)
  }

  /** The event of the run that last took the job out of the queue. */
  ghost function TakenBy(events: seq<Event>, job: JobId): Option<Event> {
    if events == [] then None
    else
      var n := |events| - 1;
      if job in Run(EMPTY, events[..n]).queue && job !in Run(EMPTY, events).queue then Some(events[n])
      else TakenBy(events[..n], job)
  }

  /** The user has won, has been billed and has not paid. */
  ghost predicate Owes(w: World, id: AuctionId, user: UserId) {
    && id in w.auctions && w.auctions[id].winner == Some(user)
    && w.auctions[id].paymentStatus == UNPAID && w.auctions[id].paymentDueAt.Some?
  }

  /** Nobody is billed, and no win is announced, before the auction is over. */
  ghost predicate BilledAfterEnd(w: World) {
    forall id :: id in w.auctions && w.auctions[id].status == ACTIVE ==>
      w.auctions[id].paymentDueAt == None && !w.auctions[id].notified
  }

  /** If the user owes after the step but has no expiry job then, they owed before, and a job there was
      before has been taken by the queue itself. */
  ghost predicate KeepsBill(w: World, t: World, e: Event, id: AuctionId, user: UserId) {
    Owes(t, id, user) && ExpiredJob(id, user) !in t.queue ==>
      && Owes(w, id, user)
      && (ExpiredJob(id, user) in w.queue ==> e == JobGone(ExpiredJob(id, user)))
  }

  lemma EndKeepsBill(w: World, other: AuctionId, now: Time, id: AuctionId, user: UserId)
    requires BilledAfterEnd(w) && (forall k :: k in w.auctions ==> Lifecycle(w.auctions[k]))
    ensures
      KeepsBill(w, HandleEndAuction(w, other, now, END_WRITES), EndDelivered(other, now, END_WRITES), id, user)
  {
    hide HandleEndAuction;
    if Unannounced(w, other) && w.auctions[other].highestBidder.Some? {
      EndAnnounces(w, other, now);
    } else {
      EndsOnly(w, other, now);
    }
  }

  lemma ExpiryKeepsBill(w: World, other: AuctionId, owner: UserId, mode: ExpiryMode, now: Time, id: AuctionId, user: UserId)
    ensures
      KeepsBill(w, HandlePaymentExpired(w, other, owner, mode, now, EXPIRED_WRITES),
                ExpiredDelivered(other, owner, mode, now, EXPIRED_WRITES), id, user)
  {
    hide HandlePaymentExpired, NextHighestBidder;
    if Overdue(w, other, owner) && mode == Switch && NextHighestBidder(BidsFor(w.bids, other), owner).Some? {
      ExpirySwitches(w, other, owner, now);
    } else {
      ExpiryTells(w, other, owner, mode, now);
    }
  }

  lemma DecisionKeepsBill(w: World, other: AuctionId, creator: UserId, action: Decision, now: Time, id: AuctionId, user: UserId)
    ensures
      KeepsBill(w, Decide(w, other, creator, action, now).0, DecisionSent(other, creator, action, now), id, user)
  {
    hide Decide, NextHighestBidder;
    DecisionRefused(w, other, creator, action, now);
    if Decide(w, other, creator, action, now).1 == Done {
      if action == KeepCurrent {
        KeepExactly(w, other, creator, now);
      } else {
        PushKeepsBill(w, other, creator, now, id, user);
      }
    }
  }

  lemma PushKeepsBill(w: World, other: AuctionId, creator: UserId, now: Time, id: AuctionId, user: UserId)
    requires MayDecide(w, other, creator)
    requires NextHighestBidder(BidsFor(w.bids, other), w.auctions[other].winner.value).Some?
    ensures
      KeepsBill(w, Decide(w, other, creator, PushNext, now).0, DecisionSent(other, creator, PushNext, now), id, user)
  {
    hide Decide, NextHighestBidder;
    PushExactly(w, other, creator, now);
    NextIsAnotherUser(BidsFor(w.bids, other), w.auctions[other].winner.value);
  }

  lemma NextIsAnotherUser(bids: seq<Bid>, user: UserId)
    ensures NextHighestBidder(bids, user).Some? ==> NextHighestBidder(bids, user).value.userId != user
  {
    FirstOtherIs(Take(SortByAmount(bids), BACKUP_SEARCH_LIMIT), user);
  }

  lemma BidKeepsBill(w: World, bidder: UserId, other: AuctionId, amount: real, now: Time, id: AuctionId, user: UserId)
    requires BilledAfterEnd(w) && (forall k :: k in w.auctions ==> Lifecycle(w.auctions[k]))
    ensures KeepsBill(w, PlaceBid(w, bidder, other, amount, now).0, BidSent(bidder, other, amount, now), id, user)
  {
    hide PlaceBid;
    BidExactly(w, bidder, other, amount, now);
  }

  lemma CreateKeepsBill(w: World, e: Event, id: AuctionId, user: UserId)
    requires e.AuctionPosted?
    ensures KeepsBill(w, Handle(w, e), e, id, user)
  {
    CreateExactly(w, e.id, e.creator, e.price, e.start, e.end, e.now, e.faults);
    hide Create;
  }

  lemma PaymentKeepsBill(w: World, e: Event, id: AuctionId, user: UserId)
    requires e.PaymentConfirmed? || e.WebhookReceived?
    ensures KeepsBill(w, Handle(w, e), e, id, user)
  {
    hide ConfirmPayment, Webhook, ConfirmByProvider;
    match e
    case PaymentConfirmed(other, payer) => ConfirmExactly(w, other, payer);
    case WebhookReceived(other, status, expected) =>
      ProviderExactly(w, other, expected);
      WebhookExactly(w, other, status, expected);
  }

  lemma RemovalKeepsBill(w: World, e: Event, id: AuctionId, user: UserId)
    requires e.CancelSent? || e.DeleteSent?
    ensures KeepsBill(w, Handle(w, e), e, id, user)
  {
    hide Cancel, Delete;
    match e
    case CancelSent(other, actor) => CancelExactly(w, other, actor);
    case DeleteSent(other, actor) => DeleteExactly(w, other, actor);
  }

  lemma OtherKeepsBill(w: World, e: Event, id: AuctionId, user: UserId)
    requires e.UserCreated? || e.EndRequested? || e.Listed? || e.ReminderDelivered? || e.JobGone?
    ensures KeepsBill(w, Handle(w, e), e, id, user)
  {
    hide RequestImmediateEnd, HandlePaymentReminder;
    match e
    case EndRequested(other, actor, now) => RequestEndExactly(w, other, actor, now);
    case ReminderDelivered(other, owner) => ReminderExactly(w, other, owner);
    case _ =>
  }

  lemma HandleKeepsBill(w: World, e: Event, id: AuctionId, user: UserId)
    requires BilledAfterEnd(w) && Inv(w) && Complete(e)
    ensures KeepsBill(w, Handle(w, e), e, id, user)
  {
    forall k | k in w.auctions ensures Lifecycle(w.auctions[k]) {
      assert AuctionOk(w.auctions[k], BidsFor(w.bids, k));
    }
    hide KeepsBill, BilledAfterEnd, Inv, Lifecycle, HandleEndAuction, HandlePaymentExpired, Decide, PlaceBid;
    match e
    case EndDelivered(other, now, writes) => EndKeepsBill(w, other, now, id, user);
    case ExpiredDelivered(other, owner, mode, now, writes) => ExpiryKeepsBill(w, other, owner, mode, now, id, user);
    case DecisionSent(other, creator, action, now) => DecisionKeepsBill(w, other, creator, action, now, id, user);
    case BidSent(bidder, other, amount, now) => BidKeepsBill(w, bidder, other, amount, now, id, user);
    case AuctionPosted(_, _, _, _, _, _, _) => CreateKeepsBill(w, e, id, user);
    case PaymentConfirmed(_, _) => PaymentKeepsBill(w, e, id, user);
    case WebhookReceived(_, _, _) => PaymentKeepsBill(w, e, id, user);
    case CancelSent(_, _) => RemovalKeepsBill(w, e, id, user);
    case DeleteSent(_, _) => RemovalKeepsBill(w, e, id, user);
    case _ => OtherKeepsBill(w, e, id, user); hide Handle;
  }

  lemma BilledAfterEndStep(w: World, e: Event)
    requires Inv(w) && BilledAfterEnd(w)
    ensures BilledAfterEnd(Step(w, e))
  {
    if Possible(w, e) {
      hide Handle, Inv, Timely;
      forall id | id in Handle(w, e).auctions && Handle(w, e).auctions[id].status == ACTIVE
        ensures Handle(w, e).auctions[id].paymentDueAt == None && !Handle(w, e).auctions[id].notified
      {
        ActiveUnbilled(w, e, id);
      }
    }
  }

  lemma ActiveUnbilled(w: World, e: Event, id: AuctionId)
    requires Inv(w) && BilledAfterEnd(w) && Possible(w, e)
    requires id in Handle(w, e).auctions && Handle(w, e).auctions[id].status == ACTIVE
    ensures Handle(w, e).auctions[id].paymentDueAt == None && !Handle(w, e).auctions[id].notified
  {
    HandleTimely(w, e);
    if id in w.auctions {
      assert AuctionOk(w.auctions[id], BidsFor(w.bids, id));
      hide Handle, Possible, Rules, Shows;
      if w.auctions[id].status != ACTIVE {
        StaysEnded(w, e, id);
      } else if e.ExpiredDelivered? || e.DecisionSent? {
        NeedsWinner(w, e, id);
      } else if e.EndDelivered? && e.id == id {
        HandlesEnd(w, id, e.now, e.writes);
        EndDeliveredTo(w, id, e.now, e.writes, id);
        EndsActive(w.auctions[id], Handle(w, e).auctions[id], e.writes);
        NoEndWritten(w, id, e.now, e.writes);
      }
    } else {
      hide Handle, Inv;
    }
  }

  lemma EndsActive(a: Auction, t: Auction, writes: nat)
    requires a.status == ACTIVE && t.status == ACTIVE && Core(t) == Core(if writes > 0 then End(a) else a)
    ensures writes == 0
  {
    assert Core(t).status == t.status;
  }

  lemma NoEndWritten(w: World, id: AuctionId, now: Time, writes: nat)
    ensures writes == 0 ==> HandleEndAuction(w, id, now, writes) == w
  {
  }

  lemma {:induction false} BilledAfterEndHolds(events: seq<Event>)
    ensures BilledAfterEnd(Run(EMPTY, events))
  {
    hide Step, Inv;
    if events != [] {
      BilledAfterEndHolds(events[..|events| - 1]);
      RunKeeps(events[..|events| - 1]);
      BilledAfterEndStep(Run(EMPTY, events[..|events| - 1]), events[|events| - 1]);
    }
  }

  lemma StepKeepsBill(w: World, e: Event, id: AuctionId, user: UserId)
    requires BilledAfterEnd(w) && Inv(w) && Complete(e)
    ensures KeepsBill(w, Step(w, e), e, id, user)
  {
    HandleKeepsBill(w, e, id, user);
    hide Handle, Possible, Inv;
  }

  /** In runs whose delivered jobs complete, a winner who has been billed and has not paid has their
      expiry job in the queue, unless the queue itself was the last to take it out, by delivering or
      dropping it. */
  lemma {:induction false} BilledUntilTaken(events: seq<Event>, id: AuctionId, user: UserId)
    requires forall e :: e in events ==> Complete(e)
    requires Owes(Run(EMPTY, events), id, user)
    ensures
      || ExpiredJob(id, user) in Run(EMPTY, events).queue
      || TakenBy(events, ExpiredJob(id, user)) == Some(JobGone(ExpiredJob(id, user)))
  {
    hide Step, Inv, Complete, BilledAfterEnd, Owes;
    if events == [] {
      NobodyOwes(id, user);
    } else {
      var n := |events| - 1;
      assert events[n] in events;
      assert forall e :: e in events[..n] ==> e in events;
      RunKeeps(events[..n]);
      BilledAfterEndHolds(events[..n]);
      StepKeepsBill(Run(EMPTY, events[..n]), events[n], id, user);
      if ExpiredJob(id, user) !in Run(EMPTY, events).queue {
        BilledUntilTaken(events[..n], id, user);
      }
    }
  }

  lemma NobodyOwes(id: AuctionId, user: UserId)
    ensures !Owes(EMPTY, id, user)
  {
  }

  /** The step has named the winner, or announced the one there is. */
  ghost predicate NewlyWon(w: World, t: World, id: AuctionId) {
    && id in w.auctions && id in t.auctions && t.auctions[id].winner.Some?
    && (t.auctions[id].winner != w.auctions[id].winner || (!w.auctions[id].notified && t.auctions[id].notified))
  }

  /** The winner is billed from `now`, with both jobs in the queue. */
  ghost predicate HasBill(t: World, id: AuctionId, now: Time) {
    && id in t.auctions && t.auctions[id].winner.Some? && t.auctions[id].paymentDueAt == Some(now + DAY)
    && ExpiredJob(id, t.auctions[id].winner.value) in t.queue && ReminderJob(id, t.auctions[id].winner.value) in t.queue
  }

  lemma EndBills(w: World, id: AuctionId, now: Time)
    requires BilledAfterEnd(w) && (id in w.auctions ==> Lifecycle(w.auctions[id]))
    requires NewlyWon(w, HandleEndAuction(w, id, now, END_WRITES), id)
    ensures HasBill(HandleEndAuction(w, id, now, END_WRITES), id, now)
  {
    hide HandleEndAuction;
    if Unannounced(w, id) && w.auctions[id].highestBidder.Some? {
      EndAnnounces(w, id, now);
    } else {
      EndsOnly(w, id, now);
    }
  }

  lemma ExpiryBills(w: World, id: AuctionId, user: UserId, mode: ExpiryMode, now: Time)
    requires NewlyWon(w, HandlePaymentExpired(w, id, user, mode, now, EXPIRED_WRITES), id)
    ensures HasBill(HandlePaymentExpired(w, id, user, mode, now, EXPIRED_WRITES), id, now)
  {
    hide HandlePaymentExpired, NextHighestBidder;
    if Overdue(w, id, user) && mode == Switch && NextHighestBidder(BidsFor(w.bids, id), user).Some? {
      ExpirySwitches(w, id, user, now);
    } else {
      ExpiryTells(w, id, user, mode, now);
    }
  }

  lemma DecisionBills(w: World, id: AuctionId, creator: UserId, action: Decision, now: Time)
    requires NewlyWon(w, Decide(w, id, creator, action, now).0, id)
    ensures HasBill(Decide(w, id, creator, action, now).0, id, now)
  {
    hide Decide, NextHighestBidder;
    DecisionRefused(w, id, creator, action, now);
    if action == KeepCurrent {
      KeepExactly(w, id, creator, now);
    } else {
      PushExactly(w, id, creator, now);
    }
  }

  /** In every run, a winner whom a complete end job, expiry or decision has just named or announced is
      billed from that moment. */
  lemma BillersBill(events: seq<Event>, e: Event, id: AuctionId)
    requires Complete(e) && Bills(e, id) && NewlyWon(Run(EMPTY, events), Handle(Run(EMPTY, events), e), id)
    ensures HasBill(Handle(Run(EMPTY, events), e), id, e.now)
  {
    hide Run, NewlyWon, HasBill, HandleEndAuction, HandlePaymentExpired, Decide, BilledAfterEnd;
    var w := Run(EMPTY, events);
    RunKeeps(events);
    BilledAfterEndHolds(events);
    if id in w.auctions {
      assert AuctionOk(w.auctions[id], BidsFor(w.bids, id));
    }
    hide Inv, Rules, Shows, Lifecycle;
    match e
    case EndDelivered(_, now, writes) => EndBills(w, id, now);
    case ExpiredDelivered(_, user, mode, now, writes) => ExpiryBills(w, id, user, mode, now);
    case DecisionSent(_, creator, action, now) => DecisionBills(w, id, creator, action, now);
  }

  // ----- Leaving ACTIVE in time

  /** What may end or cancel an active auction: its end job, its creator, or, once the end time has come,
      a listing that selects it or a bid by somebody else. */
  predicate MayEnd(a: Auction, e: Event, id: AuctionId) {
    || (e.EndDelivered? && e.id == id)
    || e == CancelSent(id, a.createdBy)
    || (e.Listed? && id in e.ids && a.endTime <= e.now)
    || (e.BidSent? && e.id == id && e.user != a.createdBy && a.endTime <= e.now)
  }

  lemma BidLeaves(w: World, user: UserId, other: AuctionId, amount: real, now: Time, id: AuctionId)
    requires Leaves(w, PlaceBid(w, user, other, amount, now).0, id)
    ensures MayEnd(w.auctions[id], BidSent(user, other, amount, now), id)
  {
    BidExactly(w, user, other, amount, now);
    hide PlaceBid;
  }

  lemma CancelLeaves(w: World, other: AuctionId, actor: UserId, id: AuctionId)
    requires Leaves(w, Cancel(w, other, actor).0, id)
    ensures MayEnd(w.auctions[id], CancelSent(other, actor), id)
  {
    CancelExactly(w, other, actor);
    hide Cancel;
  }

  lemma SweepLeaves(w: World, ids: set<AuctionId>, now: Time, id: AuctionId)
    requires Leaves(w, Sweep(w, ids, now), id)
    ensures MayEnd(w.auctions[id], Listed(ids, now), id)
  {
    SweepExactly(w, ids, now);
    hide Sweep;
  }

  lemma EndLeaves(w: World, other: AuctionId, now: Time, writes: nat, id: AuctionId)
    requires Leaves(w, HandleEndAuction(w, other, now, writes), id)
    ensures MayEnd(w.auctions[id], EndDelivered(other, now, writes), id)
  {
    if other != id {
      OtherStays(w, other, now, writes, id);
    }
  }

  /** The handlers that neither end nor cancel. */
  lemma NoneLeaves(w: World, e: Event, id: AuctionId)
    requires e.UserCreated? || e.DeleteSent? || e.EndRequested? || e.ReminderDelivered? || e.JobGone?
             || (e.AuctionPosted? && e.id != id)
    ensures !Leaves(w, Handle(w, e), id)
  {
    hide Create, Delete, RequestImmediateEnd, HandlePaymentReminder;
    match e
    case DeleteSent(other, actor) => DeleteExactly(w, other, actor);
    case AuctionPosted(other, creator, price, start, end, now, faults) =>
      CreateExactly(w, other, creator, price, start, end, now, faults);
    case EndRequested(other, actor, now) => RequestEndExactly(w, other, actor, now);
    case ReminderDelivered(other, user) => ReminderExactly(w, other, user);
    case _ =>
  }

  lemma LeavesStep(w: World, e: Event, id: AuctionId)
    requires Inv(w) && Leaves(w, Handle(w, e), id)
    requires e.AuctionPosted? ==> e.id != id
    ensures MayEnd(w.auctions[id], e, id)
  {
    assert AuctionOk(w.auctions[id], BidsFor(w.bids, id));
    hide AuctionsOk, BidsOk, Inv, Rules, Shows, MayEnd, PlaceBid, Cancel, Sweep, HandleEndAuction;
    match e
    case BidSent(user, other, amount, now) => BidLeaves(w, user, other, amount, now, id);
    case CancelSent(other, actor) => CancelLeaves(w, other, actor, id);
    case Listed(ids, now) => SweepLeaves(w, ids, now, id);
    case EndDelivered(other, now, writes) => EndLeaves(w, other, now, writes, id);
    case PaymentConfirmed(_, _) => NeedsWinner(w, e, id); hide Handle;
    case WebhookReceived(_, _, _) => NeedsWinner(w, e, id); hide Handle;
    case DecisionSent(_, _, _, _) => NeedsWinner(w, e, id); hide Handle;
    case ExpiredDelivered(_, _, _, _, _) => NeedsWinner(w, e, id); hide Handle;
    case _ => NoneLeaves(w, e, id); hide Handle;
  }

  lemma OtherStays(w: World, other: AuctionId, now: Time, writes: nat, id: AuctionId)
    requires id in w.auctions && other != id
    ensures
      var t := HandleEndAuction(w, other, now, writes);
      id in t.auctions && t.auctions[id] == w.auctions[id]
  {
    if other in w.auctions && writes > 0 {
      EndWrites(w, other, now, writes);
    }
  }

  /** In every run an auction leaves ACTIVE only so; no sweep and no bid ends it before its time. */
  lemma LeavesOnlyInTime(events: seq<Event>, e: Event, id: AuctionId)
    requires Leaves(Run(EMPTY, events), Step(Run(EMPTY, events), e), id)
    ensures MayEnd(Run(EMPTY, events).auctions[id], e, id)
  {
    hide Run, Handle, Inv;
    RunKeeps(events);
    assert e.AuctionPosted? ==> e.id != id;
    hide Possible;
    LeavesStep(Run(EMPTY, events), e, id);
  }
}
