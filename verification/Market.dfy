/**
 The auction, bidding, payment and queue handlers as functions on the whole database and queue:
 what each handler leaves behind when no other handler runs in between. The methods of
 MarketService are proved against these functions, and the results about runs are about them.
 */
module Market {
  import opened Common
  import opened BidOrder

  const PAYMENT_REMINDER_DELAY_MS: Time := 12 * 60 * 60 * 1000
  const PAYMENT_EXPIRY_DELAY_MS: Time := 24 * 60 * 60 * 1000
  const BACKUP_SEARCH_LIMIT := 100

  /** The source spells the unpaid status 'ACTIVE'. */
  datatype PaymentStatus = PAID | UNPAID

  datatype Reason = AutoSwitch | CreatorPushedNext

  datatype WinnerChange = WinnerChange(userId: UserId, amount: real, reason: Reason, changedAt: Time)

  datatype Auction = Auction(
    createdBy: UserId, startingPrice: real, endTime: Time,
    currentPrice: real, status: Status,
    highestBidder: Option<UserId>, winner: Option<UserId>,
    notified: bool, paymentStatus: PaymentStatus, paymentDueAt: Option<Time>,
    winnerHistory: seq<WinnerChange>)

  /** The job ids of the queue; a job's data is what its id names. */
  datatype JobId =
    | EndJob(auctionId: AuctionId)
    | ReminderJob(auctionId: AuctionId, userId: UserId)
    | ExpiredJob(auctionId: AuctionId, userId: UserId)

  datatype NoteKind = AUCTION_WON | OUTBID | PAYMENT_REMINDER | PAYMENT_SUCCESS | SYSTEM

  /** The prefixes of the dedupe keys. */
  datatype Topic =
    | AuctionCreated | OutBid(amount: real) | AuctionCancelled | AuctionCancelledBidder
    | Won | PaymentReminder | PaymentExpired | CreatorActionRequired | NoBackupBidder | WinnerReassigned
    | PaymentExtended | CreatorPaymentExtended
    | WinnerChangedOut | WinnerReassignedManual | CreatorWinnerSwitched
    | ManualPaymentSuccess | ManualCreatorPaymentReceived | PaymentSuccess | CreatorPaymentReceived

  datatype DedupeKey = DedupeKey(topic: Topic, auctionId: AuctionId, userId: UserId)

  /** Notifications are keyed by recipient and dedupe key; the queue holds due times by job id. */
  datatype World = World(
    auctions: map<AuctionId, Auction>,
    bids: seq<Bid>,
    biddedAuctions: map<UserId, set<AuctionId>>,
    notes: map<(UserId, DedupeKey), NoteKind>,
    queue: map<JobId, Time>)

  datatype Refusal =
    | EndBeforeStart | NotFound | OwnAuction | HasEnded | NotActive | ConsecutiveBid | NotAboveCurrentPrice
    | NotCreator | IsCancelled | IsPaid | NotEnded | NotWinner | NoWinner | WinnerMismatch | UserNotFound

  datatype Reply = Done | AlreadyDone | NoNextBidder | FailureNoted | Refused(why: Refusal)

  const EMPTY := World(map[], [], map[], map[], map[])

  // ----- Single writes

  function PutAuction(w: World, id: AuctionId, a: Auction): World {
    w.(auctions := w.auctions[id := a])
  }

  /** `createNotification`: an upsert that inserts or leaves alone. */
  function Notify(w: World, to: UserId, topic: Topic, id: AuctionId, about: UserId, kind: NoteKind): World {
    w.(notes := PutIfAbsent(w.notes, (to, DedupeKey(topic, id, about)), kind))
  }

  function Enqueue(w: World, job: JobId, due: Time): World {
    w.(queue := PutIfAbsent(w.queue, job, due))
  }

  function Dequeue(w: World, jobs: set<JobId>): World {
    w.(queue := w.queue - jobs)
  }

  function PaymentJobs(id: AuctionId, user: UserId): set<JobId> {
    {ReminderJob(id, user), ExpiredJob(id, user)}
  }

  function SetDue(w: World, id: AuctionId, due: Time): World {
    if id in w.auctions then PutAuction(w, id, w.auctions[id].(paymentDueAt := Some(due))) else w
  }

  /** `scheduleWinnerPaymentLifecycle` stopped after its first `writes` of three writes. */
  function ScheduleUpTo(w: World, id: AuctionId, user: UserId, now: Time, writes: int): World {
    var w1 := if writes >= 1 then SetDue(w, id, now + PAYMENT_EXPIRY_DELAY_MS) else w;
    var w2 := if writes >= 2 then Enqueue(w1, ReminderJob(id, user), now + PAYMENT_REMINDER_DELAY_MS) else w1;
    if writes >= 3 then Enqueue(w2, ExpiredJob(id, user), now + PAYMENT_EXPIRY_DELAY_MS) else w2
  }

  function Schedule(w: World, id: AuctionId, user: UserId, now: Time): World {
    ScheduleUpTo(w, id, user, now, 3)
  }

  // ----- Creating and bidding

  /** Whether the queue and the notification store reject a write; creation goes on without it. */
  datatype Faults = Faults(queue: bool, notes: bool)

  function Create(w: World, id: AuctionId, creator: UserId, price: real, start: Time, end: Time, now: Time, faults: Faults)
    : (World, Reply)
  {
    if end <= start then (w, Refused(EndBeforeStart))
    else
      var a := Auction(creator, price, end, price, ACTIVE, None, None, false, UNPAID, None, []);
      var due := if now <= end then end else now;
      var stored := PutAuction(w, id, a);
      var queued := if faults.queue then stored else Enqueue(stored, EndJob(id), due);
      (if faults.notes then queued else Notify(queued, creator, AuctionCreated, id, creator, SYSTEM), Done)
  }

  /** `findOne({ auctionId }).sort({ createdAt: -1 })`. */
  function Latest(bids: seq<Bid>): Option<Bid> {
    if bids == [] then None
    else
      var last := bids[|bids| - 1];
      match Latest(bids[..|bids| - 1])
      case Some(b) => if last.createdAt > b.createdAt then Some(last) else Some(b)
      case None => Some(last)
  }

  function Ended(a: Auction): Auction {
    a.(status := ENDED, winner := a.highestBidder)
  }

  function PlaceBid(w: World, user: UserId, id: AuctionId, amount: real, now: Time): (World, Reply) {
    if id !in w.auctions then (w, Refused(NotFound))
    else
      var a := w.auctions[id];
      var latest := Latest(BidsFor(w.bids, id));
      if a.createdBy == user then (w, Refused(OwnAuction))
      else if a.endTime <= now then
        (if a.status == ACTIVE then PutAuction(w, id, Ended(a)) else w, Refused(HasEnded))
      else if a.status != ACTIVE then (w, Refused(NotActive))
      else if latest.Some? && latest.value.userId == user then (w, Refused(ConsecutiveBid))
      else if amount <= a.currentPrice then (w, Refused(NotAboveCurrentPrice))
      else
        var raised := PutAuction(w, id, a.(currentPrice := amount, highestBidder := Some(user))).(
                        bids := w.bids + [Bid(id, user, amount, now)],
                        biddedAuctions := AddBidded(w.biddedAuctions, user, id));
        (NotifyOutbid(raised, a.highestBidder, user, id, amount), Done)
  }

  /** `updateOne` with `$addToSet`: nothing happens when there is no such user. */
  function AddBidded(bidded: map<UserId, set<AuctionId>>, user: UserId, id: AuctionId): map<UserId, set<AuctionId>> {
    if user in bidded then bidded[user := bidded[user] + {id}] else bidded
  }

  function NotifyOutbid(w: World, previous: Option<UserId>, user: UserId, id: AuctionId, amount: real): World {
    if previous.Some? && previous.value != user
    then Notify(w, previous.value, OutBid(amount), id, previous.value, OUTBID)
    else w
  }

  // ----- Ending, cancelling and deleting

  /** `endAuction` on a stored auction. */
  function End(a: Auction): Auction {
    if a.status == ACTIVE then Ended(a) else a
  }

  /** A full run of `handleEndAuction`. */
  const END_WRITES: nat := 6

  /** `handleEndAuction` stopped after its `writes`-th awaited write, counting 1 the auction, 2 the
      winner's notification, 3 the due date, 4 and 5 the payment jobs and 6 the notified flag. */
  function HandleEndAuction(w: World, id: AuctionId, now: Time, writes: nat): World {
    if id !in w.auctions || writes == 0 then w
    else
      var a := End(w.auctions[id]);
      var ended := PutAuction(w, id, a);
      if a.status != ENDED || a.notified then ended
      else
        var invited := if a.highestBidder.Some? then Invite(ended, id, a.highestBidder.value, now, writes) else ended;
        if writes < END_WRITES then invited
        else PutAuction(invited, id, invited.auctions[id].(notified := true))
  }

  function Invite(w: World, id: AuctionId, user: UserId, now: Time, writes: nat): (r: World)
    ensures r.auctions.Keys == w.auctions.Keys
  {
    ScheduleUpTo(if writes >= 2 then Notify(w, user, Won, id, user, AUCTION_WON) else w, id, user, now, writes - 2)
  }

  function RequestImmediateEnd(w: World, id: AuctionId, actor: UserId, now: Time): (World, Reply) {
    if id !in w.auctions then (w, Refused(NotFound))
    else if w.auctions[id].createdBy != actor then (w, Refused(NotCreator))
    else if w.auctions[id].status == CANCELLED then (w, Refused(IsCancelled))
    else if w.auctions[id].status == ENDED then (w, AlreadyDone)
    else (Enqueue(Dequeue(w, {EndJob(id)}), EndJob(id), now), Done)
  }

  function BiddersOf(bids: seq<Bid>): set<UserId> {
    set b | b in bids :: b.userId
  }

  function NotifyCancelled(notes: map<(UserId, DedupeKey), NoteKind>, id: AuctionId, users: set<UserId>)
    : map<(UserId, DedupeKey), NoteKind>
  {
    notes + map u | u in users && (u, DedupeKey(AuctionCancelledBidder, id, u)) !in notes
                  :: (u, DedupeKey(AuctionCancelledBidder, id, u)) := SYSTEM
  }

  lemma NotifyNobody(notes: map<(UserId, DedupeKey), NoteKind>, id: AuctionId)
    ensures NotifyCancelled(notes, id, {}) == notes
  {
  }

  lemma NotifyOneMore(notes: map<(UserId, DedupeKey), NoteKind>, id: AuctionId, users: set<UserId>, user: UserId)
    ensures NotifyCancelled(notes, id, users + {user}) ==
            PutIfAbsent(NotifyCancelled(notes, id, users), (user, DedupeKey(AuctionCancelledBidder, id, user)), SYSTEM)
  {
    var key := (user, DedupeKey(AuctionCancelledBidder, id, user));
    var less, more := NotifyCancelled(notes, id, users), NotifyCancelled(notes, id, users + {user});
    assert more.Keys == less.Keys + {key};
  }

  function Cancel(w: World, id: AuctionId, actor: UserId): (World, Reply) {
    if id !in w.auctions then (w, Refused(NotFound))
    else
      var a := w.auctions[id];
      if a.createdBy != actor then (w, Refused(NotCreator))
      else if a.status == CANCELLED then (w, AlreadyDone)
      else if a.paymentStatus == PAID then (w, Refused(IsPaid))
      else
        var jobs := {EndJob(id)} + if a.status == ENDED && a.winner.Some? then PaymentJobs(id, a.winner.value) else {};
        var stored := PutAuction(Dequeue(w, jobs), id, a.(status := CANCELLED, winner := None, paymentDueAt := None));
        var told := Notify(stored, actor, AuctionCancelled, id, actor, SYSTEM);
        (told.(notes := NotifyCancelled(told.notes, id, BiddersOf(BidsFor(w.bids, id)) - {actor})), Done)
  }

  function Delete(w: World, id: AuctionId, actor: UserId): (World, Reply) {
    if id !in w.auctions then (w, Refused(NotFound))
    else
      var a := w.auctions[id];
      if a.createdBy != actor then (w, Refused(NotCreator))
      else if a.paymentStatus == PAID then (w, Refused(IsPaid))
      else
        var jobs := {EndJob(id)} + if a.winner.Some? then PaymentJobs(id, a.winner.value) else {};
        (Dequeue(w, jobs).(auctions := w.auctions - {id}, bids := Without(w.bids, id)), Done)
  }

  function Swept(a: Auction, now: Time): Auction {
    if a.status == ACTIVE && a.endTime <= now then a.(status := ENDED) else a
  }

  /** The lazy `updateMany` of the listing and profile queries, on the auctions they select. */
  function Sweep(w: World, ids: set<AuctionId>, now: Time): World {
    w.(auctions := map id | id in w.auctions :: if id in ids then Swept(w.auctions[id], now) else w.auctions[id])
  }

  // ----- Paying

  function Paid(w: World, id: AuctionId, winner: UserId): World
    requires id in w.auctions
  {
    Dequeue(PutAuction(w, id, w.auctions[id].(paymentStatus := PAID)), PaymentJobs(id, winner))
  }

  function ConfirmPayment(w: World, id: AuctionId, user: UserId): (World, Reply) {
    if id !in w.auctions then (w, Refused(NotFound))
    else
      var a := w.auctions[id];
      if a.status != ENDED then (w, Refused(NotEnded))
      else if a.winner != Some(user) then (w, Refused(NotWinner))
      else if a.paymentStatus == PAID then (w, AlreadyDone)
      else
        var told := Notify(Paid(w, id, user), user, ManualPaymentSuccess, id, user, PAYMENT_SUCCESS);
        (if a.createdBy != user
         then Notify(told, a.createdBy, ManualCreatorPaymentReceived, id, a.createdBy, SYSTEM) else told, Done)
  }

  function ConfirmByProvider(w: World, id: AuctionId, expected: Option<UserId>): (World, Reply) {
    if id !in w.auctions then (w, Refused(NotFound))
    else
      var a := w.auctions[id];
      if a.status != ENDED then (w, Refused(NotEnded))
      else if a.winner == None then (w, Refused(NoWinner))
      else if expected.Some? && a.winner != expected then (w, Refused(WinnerMismatch))
      else if a.paymentStatus == PAID then (w, AlreadyDone)
      else (Paid(w, id, a.winner.value), Done)
  }

  datatype ProviderStatus = SUCCESS | FAILED

  /** `handleWebhook`; a verified payment link takes the path of SUCCESS. */
  function Webhook(w: World, id: AuctionId, status: ProviderStatus, expected: Option<UserId>): (World, Reply) {
    if status == FAILED then (w, FailureNoted)
    else
      var (paid, reply) := ConfirmByProvider(w, id, expected);
      if reply.Refused? then (paid, reply)
      else
        var a := paid.auctions[id];
        var told := if a.winner.Some?
                    then Notify(paid, a.winner.value, PaymentSuccess, id, a.winner.value, PAYMENT_SUCCESS) else paid;
        (Notify(told, a.createdBy, CreatorPaymentReceived, id, a.createdBy, SYSTEM), reply)
  }

  /** The recipient and amount of `createCashfreePaymentLink`. */
  function PaymentLink(w: World, id: AuctionId, actor: UserId): Option<(UserId, real)> {
    if id !in w.auctions then None
    else
      var a := w.auctions[id];
      if a.status != ENDED || a.winner == None then None
      else if a.createdBy != actor && a.winner.value != actor then None
      else if a.paymentStatus == PAID then None
      else if a.winner.value !in w.biddedAuctions then None // no such user
      else Some((a.winner.value, a.currentPrice))
  }

  // ----- Replacing a winner who did not pay

  function FirstOther(bids: seq<Bid>, winner: UserId): Option<Bid> {
    if bids == [] then None
    else if bids[0].userId != winner then Some(bids[0])
    else FirstOther(bids[1..], winner)
  }

  function Take<T>(s: seq<T>, n: nat): seq<T> {
    if n <= |s| then s[..n] else s
  }

  /** `findNextHighestBidder`, which looks at the top hundred bids only. */
  function NextHighestBidder(bids: seq<Bid>, winner: UserId): Option<Bid> {
    FirstOther(Take(SortByAmount(bids), BACKUP_SEARCH_LIMIT), winner)
  }

  function Switched(a: Auction, previous: UserId, next: Bid, reason: Reason, now: Time): Auction {
    a.(winnerHistory := a.winnerHistory + [WinnerChange(previous, a.currentPrice, reason, now)],
       winner := Some(next.userId), highestBidder := Some(next.userId),
       currentPrice := next.amount, paymentStatus := UNPAID)
  }

  datatype Decision = PushNext | KeepCurrent

  function Decide(w: World, id: AuctionId, creator: UserId, action: Decision, now: Time): (World, Reply) {
    if id !in w.auctions then (w, Refused(NotFound))
    else
      var a := w.auctions[id];
      if a.createdBy != creator then (w, Refused(NotCreator))
      else if a.paymentStatus == PAID then (w, Refused(IsPaid))
      else if a.winner == None then (w, Refused(NoWinner))
      else
        var current := a.winner.value;
        match action
        case KeepCurrent =>
          var again := Schedule(Dequeue(w, PaymentJobs(id, current)), id, current, now);
          (Notify(Notify(again, current, PaymentExtended, id, current, SYSTEM),
                  creator, CreatorPaymentExtended, id, creator, SYSTEM), Done)
        case PushNext =>
          match NextHighestBidder(BidsFor(w.bids, id), current)
          case None => (w, NoNextBidder)
          case Some(next) =>
            var stored := PutAuction(w, id, Switched(a, current, next, CreatorPushedNext, now));
            var again := Schedule(Dequeue(stored, PaymentJobs(id, current)), id, next.userId, now);
            (Notify(Notify(Notify(again,
               current, WinnerChangedOut, id, current, SYSTEM),
               next.userId, WinnerReassignedManual, id, next.userId, AUCTION_WON),
               creator, CreatorWinnerSwitched, id, creator, SYSTEM), Done)
  }

  function HandlePaymentReminder(w: World, id: AuctionId, user: UserId): World {
    if id !in w.auctions || w.auctions[id].paymentStatus == PAID || w.auctions[id].winner != Some(user) then w
    else Notify(w, user, PaymentReminder, id, user, PAYMENT_REMINDER)
  }

  datatype ExpiryMode = Switch | AskCreator

  /** A full run of `handlePaymentExpired`. */
  const EXPIRED_WRITES: nat := 6

  /** `handlePaymentExpired` stopped after its `writes`-th awaited write, counting 1 the expiry
      notification, 2 the replacement, 3 the due date, 4 and 5 the payment jobs, 6 the new winner's
      notification. */
  function HandlePaymentExpired(w: World, id: AuctionId, user: UserId, mode: ExpiryMode, now: Time, writes: nat): World {
    if id !in w.auctions || w.auctions[id].paymentStatus == PAID || w.auctions[id].winner != Some(user)
       || writes == 0 then w
    else
      var a := w.auctions[id];
      var told := Notify(w, user, PaymentExpired, id, user, SYSTEM);
      if writes == 1 then told
      else if mode == AskCreator then Notify(told, a.createdBy, CreatorActionRequired, id, user, SYSTEM)
      else
        match NextHighestBidder(BidsFor(w.bids, id), user)
        case None => Notify(told, a.createdBy, NoBackupBidder, id, user, SYSTEM)
        case Some(next) =>
          var stored := PutAuction(told, id, Switched(a, user, next, AutoSwitch, now));
          var scheduled := ScheduleUpTo(stored, id, next.userId, now, writes - 2);
          if writes >= EXPIRED_WRITES
          then Notify(scheduled, next.userId, WinnerReassigned, id, next.userId, AUCTION_WON) else scheduled
  }

  // ----- Statistics

  datatype Stats = Stats(totalBids: nat, auctionsCreated: nat, auctionsWon: nat)

  /** `countDocuments({ userId, auctionId: { $in: ids } })`. */
  function CountBidsIn(bids: seq<Bid>, user: UserId, ids: set<AuctionId>): nat {
    if bids == [] then 0
    else CountBidsIn(bids[..|bids| - 1], user, ids)
         + if bids[|bids| - 1].userId == user && bids[|bids| - 1].auctionId in ids then 1 else 0
  }

  function CountBids(bids: seq<Bid>, user: UserId): nat {
    if bids == [] then 0
    else CountBids(bids[..|bids| - 1], user) + if bids[|bids| - 1].userId == user then 1 else 0
  }

  function Created(w: World, user: UserId): set<AuctionId> {
    set id | id in w.auctions && w.auctions[id].createdBy == user
  }

  function WonBy(w: World, user: UserId): set<AuctionId> {
    set id | id in w.auctions && w.auctions[id].winner == Some(user)
  }

  /** `getBidStatsForUser`, also the counts of `getPublicProfile`. */
  function BidStats(w: World, user: UserId, now: Time): (World, Option<Stats>) {
    if user !in w.biddedAuctions then (w, None)
    else
      var ids := w.biddedAuctions[user];
      var swept := Sweep(w, ids, now);
      (swept, Some(Stats(
        if ids != {} then CountBidsIn(swept.bids, user, ids) else CountBids(swept.bids, user),
        |Created(swept, user)|,
        if ids != {} then |WonBy(swept, user) * ids| else 0)))
  }
}
