/**
 The services and the job processor as they run: one database, one queue, and methods that write
 to them step by step. Each method is proved against its function in Market.
 */
module MarketService {
  import opened Common
  import opened BidOrder
  import M = Market
  import R = MarketRuns

  class Backend {
    var auctions: map<AuctionId, M.Auction>
    var bids: seq<Bid>
    var biddedAuctions: map<UserId, set<AuctionId>>
    var notes: map<(UserId, M.DedupeKey), M.NoteKind>
    var queue: map<M.JobId, Time>

    function World(): M.World
      reads this
    {
      M.World(auctions, bids, biddedAuctions, notes, queue)
    }

    constructor ()
      ensures World() == M.EMPTY
    {
      auctions, bids, biddedAuctions, notes, queue := map[], [], map[], map[], map[];
    }

    // ----- Notifications and queue

    method CreateNotification(to: UserId, topic: M.Topic, id: AuctionId, about: UserId, kind: M.NoteKind)
      modifies this
      ensures World() == M.Notify(old(World()), to, topic, id, about, kind)
      ensures R.Inv(old(World())) ==> R.Inv(World())
    {
      hide R.Inv;
      R.FrameKeeps(World(), M.Notify(World(), to, topic, id, about, kind));
      var key := (to, M.DedupeKey(topic, id, about));
      if key !in notes {
        notes := notes[key := kind];
      }
    }

    method AddJob(job: M.JobId, due: Time)
      modifies this
      ensures World() == M.Enqueue(old(World()), job, due)
      ensures R.Inv(old(World())) ==> R.Inv(World())
    {
      hide R.Inv;
      R.FrameKeeps(World(), M.Enqueue(World(), job, due));
      if job !in queue {
        queue := queue[job := due];
      }
    }

    method RemoveJob(job: M.JobId)
      modifies this
      ensures World() == M.Dequeue(old(World()), {job})
      ensures R.Inv(old(World())) ==> R.Inv(World())
    {
      hide R.Inv;
      R.FrameKeeps(World(), M.Dequeue(World(), {job}));
      queue := queue - {job};
    }

    method ClearWinnerPaymentLifecycleJobs(id: AuctionId, user: UserId)
      modifies this
      ensures World() == M.Dequeue(old(World()), M.PaymentJobs(id, user))
      ensures R.Inv(old(World())) ==> R.Inv(World())
    {
      hide R.Inv;
      R.FrameKeeps(World(), M.Dequeue(World(), M.PaymentJobs(id, user)));
      RemoveJob(M.ReminderJob(id, user));
      RemoveJob(M.ExpiredJob(id, user));
      assert queue == old(queue) - M.PaymentJobs(id, user);
    }

    /** Stops after `stop` of its three writes. */
    method ScheduleWinnerPaymentLifecycle(id: AuctionId, user: UserId, now: Time, stop: int)
      modifies this
      ensures World() == M.ScheduleUpTo(old(World()), id, user, now, stop)
      ensures R.Inv(old(World())) ==> R.Inv(World())
    {
      hide R.Inv;
      R.SchedulingKeeps(World(), id, user, now, stop);
      if stop < 1 {
        return;
      }
      if id in auctions {
        auctions := auctions[id := auctions[id].(paymentDueAt := Some(now + M.PAYMENT_EXPIRY_DELAY_MS))];
      }
      if stop < 2 {
        return;
      }
      AddJob(M.ReminderJob(id, user), now + M.PAYMENT_REMINDER_DELAY_MS);
      if stop < 3 {
        return;
      }
      AddJob(M.ExpiredJob(id, user), now + M.PAYMENT_EXPIRY_DELAY_MS);
    }

    // ----- Creating and bidding

    method Create(id: AuctionId, creator: UserId, price: real, start: Time, end: Time, now: Time, faults: M.Faults)
      returns (reply: M.Reply)
      modifies this
      ensures (World(), reply) == M.Create(old(World()), id, creator, price, start, end, now, faults)
      ensures (R.Inv(old(World()))
               && R.Possible(old(World()), R.AuctionPosted(id, creator, price, start, end, now, faults))) ==> R.Inv(World())
    {
      hide R.Inv;
      R.HandleKeeps(World(), R.AuctionPosted(id, creator, price, start, end, now, faults));
      if end <= start {
        return M.Refused(M.EndBeforeStart);
      }
      auctions := auctions[id := M.Auction(creator, price, end, price, ACTIVE, None, None, false, M.UNPAID, None, [])];
      var delay := if end - now < 0 then 0 else end - now;
      if !faults.queue {
        AddJob(M.EndJob(id), now + delay);
      }
      if !faults.notes {
        CreateNotification(creator, M.AuctionCreated, id, creator, M.SYSTEM);
      }
      return M.Done;
    }

    method PlaceBid(user: UserId, id: AuctionId, amount: real, now: Time) returns (reply: M.Reply)
      modifies this
      ensures (World(), reply) == M.PlaceBid(old(World()), user, id, amount, now)
      ensures R.Inv(old(World())) && R.Possible(old(World()), R.BidSent(user, id, amount, now)) ==> R.Inv(World())
    {
      hide R.Inv;
      R.HandleKeeps(World(), R.BidSent(user, id, amount, now));
      if id !in auctions {
        return M.Refused(M.NotFound);
      }
      var current := auctions[id];
      if current.createdBy == user {
        return M.Refused(M.OwnAuction);
      }
      if current.endTime <= now {
        if current.status == ACTIVE {
          auctions := auctions[id := current.(status := ENDED, winner := current.highestBidder)];
        }
        return M.Refused(M.HasEnded);
      }
      if current.status != ACTIVE {
        return M.Refused(M.NotActive);
      }
      var latest := M.Latest(BidsFor(bids, id));
      if latest.Some? && latest.value.userId == user {
        return M.Refused(M.ConsecutiveBid);
      }
      if amount <= current.currentPrice {
        return M.Refused(M.NotAboveCurrentPrice);
      }
      var previous := current.highestBidder;
      auctions := auctions[id := auctions[id].(currentPrice := amount, highestBidder := Some(user))];
      bids := bids + [Bid(id, user, amount, now)];
      if user in biddedAuctions {
        biddedAuctions := biddedAuctions[user := biddedAuctions[user] + {id}];
      }
      if previous.Some? && previous.value != user {
        CreateNotification(previous.value, M.OutBid(amount), id, previous.value, M.OUTBID);
      }
      return M.Done;
    }

    // ----- Ending, cancelling and deleting

    /** Answers nothing, as an exception, when there is no such auction. */
    method EndAuction(id: AuctionId) returns (found: Option<M.Auction>)
      modifies this
      ensures id !in old(auctions) ==> found == None && World() == old(World())
      ensures id in old(auctions) ==>
                && World() == M.PutAuction(old(World()), id, M.End(old(auctions[id])))
                && found == Some(auctions[id])
      ensures R.Inv(old(World())) ==> R.Inv(World())
    {
      hide R.Inv;
      R.HandleKeeps(World(), R.EndDelivered(id, 0, 1));
      if id !in auctions {
        return None;
      }
      var auction := auctions[id];
      assert auctions == auctions[id := auction];
      if auction.status == ENDED {
        return Some(auction);
      }
      if auction.status == CANCELLED {
        return Some(auction);
      }
      auction := auction.(status := ENDED);
      auction := auction.(winner := auction.highestBidder);
      auctions := auctions[id := auction];
      return Some(auction);
    }

    /** Stops after its `stop`-th awaited write; `M.END_WRITES` is a full run. */
    method HandleEndAuction(id: AuctionId, now: Time, stop: nat)
      modifies this
      ensures World() == M.HandleEndAuction(old(World()), id, now, stop)
      ensures R.Inv(old(World())) ==> R.Inv(World())
    {
      hide R.Inv;
      R.HandleKeeps(World(), R.EndDelivered(id, now, stop));
      if stop == 0 {
        return;
      }
      var found := EndAuction(id);
      if found == None {
        return;
      }
      var auction := found.value;
      if auction.status != ENDED || auction.notified || stop == 1 {
        return;
      }
      if auction.highestBidder.Some? {
        CreateNotification(auction.highestBidder.value, M.Won, id, auction.highestBidder.value, M.AUCTION_WON);
        ScheduleWinnerPaymentLifecycle(id, auction.highestBidder.value, now, stop - 2);
      }
      if stop < M.END_WRITES {
        return;
      }
      auctions := auctions[id := auctions[id].(notified := true)];
    }

    method RequestImmediateEnd(id: AuctionId, actor: UserId, now: Time) returns (reply: M.Reply)
      modifies this
      ensures (World(), reply) == M.RequestImmediateEnd(old(World()), id, actor, now)
      ensures reply == M.Done ==> M.EndJob(id) in queue && queue[M.EndJob(id)] == now
      ensures R.Inv(old(World())) ==> R.Inv(World())
    {
      hide R.Inv;
      R.HandleKeeps(World(), R.EndRequested(id, actor, now));
      if id !in auctions {
        return M.Refused(M.NotFound);
      }
      if auctions[id].createdBy != actor {
        return M.Refused(M.NotCreator);
      }
      if auctions[id].status == CANCELLED {
        return M.Refused(M.IsCancelled);
      }
      if auctions[id].status == ENDED {
        return M.AlreadyDone;
      }
      RemoveJob(M.EndJob(id));
      AddJob(M.EndJob(id), now);
      return M.Done;
    }

    method CancelAuction(id: AuctionId, actor: UserId) returns (reply: M.Reply)
      modifies this
      ensures (World(), reply) == M.Cancel(old(World()), id, actor)
      ensures R.Inv(old(World())) ==> R.Inv(World())
    {
      hide R.Inv;
      R.HandleKeeps(World(), R.CancelSent(id, actor));
      if id !in auctions {
        return M.Refused(M.NotFound);
      }
      var auction := auctions[id];
      if auction.createdBy != actor {
        return M.Refused(M.NotCreator);
      }
      if auction.status == CANCELLED {
        return M.AlreadyDone;
      }
      if auction.paymentStatus == M.PAID {
        return M.Refused(M.IsPaid);
      }
      ghost var jobs := {M.EndJob(id)}
        + if auction.status == ENDED && auction.winner.Some? then M.PaymentJobs(id, auction.winner.value) else {};
      if auction.status == ENDED && auction.winner.Some? {
        ClearWinnerPaymentLifecycleJobs(id, auction.winner.value);
      }
      RemoveJob(M.EndJob(id));
      assert queue == old(queue) - jobs;
      auctions := auctions[id := auction.(status := CANCELLED, winner := None, paymentDueAt := None)];
      CreateNotification(actor, M.AuctionCancelled, id, actor, M.SYSTEM);
      NotifyBidders(id, M.BiddersOf(BidsFor(bids, id)) - {actor});
      return M.Done;
    }

    method NotifyBidders(id: AuctionId, users: set<UserId>)
      modifies this
      ensures World() == old(World()).(notes := M.NotifyCancelled(old(notes), id, users))
      ensures R.Inv(old(World())) ==> R.Inv(World())
    {
      hide R.Inv;
      R.FrameKeeps(World(), World().(notes := M.NotifyCancelled(notes, id, users)));
      var left := users;
      M.NotifyNobody(notes, id);
      hide M.NotifyCancelled;
      assert users - left == {};
      while left != {}
        invariant left <= users
        invariant World() == old(World()).(notes := M.NotifyCancelled(old(notes), id, users - left))
      {
        var user :| user in left;
        M.NotifyOneMore(old(notes), id, users - left, user);
        assert users - (left - {user}) == users - left + {user};
        CreateNotification(user, M.AuctionCancelledBidder, id, user, M.SYSTEM);
        left := left - {user};
      }
      assert users - left == users;
    }

    method DeleteAuction(id: AuctionId, actor: UserId) returns (reply: M.Reply)
      modifies this
      ensures (World(), reply) == M.Delete(old(World()), id, actor)
      ensures R.Inv(old(World())) ==> R.Inv(World())
    {
      hide R.Inv;
      R.HandleKeeps(World(), R.DeleteSent(id, actor));
      if id !in auctions {
        return M.Refused(M.NotFound);
      }
      var auction := auctions[id];
      if auction.createdBy != actor {
        return M.Refused(M.NotCreator);
      }
      if auction.paymentStatus == M.PAID {
        return M.Refused(M.IsPaid);
      }
      ghost var jobs := {M.EndJob(id)}
        + if auction.winner.Some? then M.PaymentJobs(id, auction.winner.value) else {};
      RemoveJob(M.EndJob(id));
      if auction.winner.Some? {
        ClearWinnerPaymentLifecycleJobs(id, auction.winner.value);
      }
      assert queue == old(queue) - jobs;
      bids := Without(bids, id);
      auctions := auctions - {id};
      return M.Done;
    }

    /** The lazy sweep of the listing and profile queries. */
    method SweepExpired(ids: set<AuctionId>, now: Time)
      modifies this
      ensures World() == M.Sweep(old(World()), ids, now)
      ensures forall id :: id in ids && id in auctions && auctions[id].status == ACTIVE ==> now < auctions[id].endTime
      ensures R.Inv(old(World())) ==> R.Inv(World())
    {
      hide R.Inv;
      R.HandleKeeps(World(), R.Listed(ids, now));
      auctions := map id | id in auctions :: if id in ids then M.Swept(auctions[id], now) else auctions[id];
    }

    // ----- Paying

    method ConfirmWinnerPayment(id: AuctionId, user: UserId) returns (reply: M.Reply)
      modifies this
      ensures (World(), reply) == M.ConfirmPayment(old(World()), id, user)
      ensures R.Inv(old(World())) ==> R.Inv(World())
    {
      hide R.Inv;
      R.HandleKeeps(World(), R.PaymentConfirmed(id, user));
      if id !in auctions {
        return M.Refused(M.NotFound);
      }
      var auction := auctions[id];
      if auction.status != ENDED {
        return M.Refused(M.NotEnded);
      }
      if auction.winner != Some(user) {
        return M.Refused(M.NotWinner);
      }
      if auction.paymentStatus == M.PAID {
        return M.AlreadyDone;
      }
      auctions := auctions[id := auction.(paymentStatus := M.PAID)];
      ClearWinnerPaymentLifecycleJobs(id, user);
      CreateNotification(user, M.ManualPaymentSuccess, id, user, M.PAYMENT_SUCCESS);
      if auction.createdBy != user {
        CreateNotification(auction.createdBy, M.ManualCreatorPaymentReceived, id, auction.createdBy, M.SYSTEM);
      }
      return M.Done;
    }

    method ConfirmWinnerPaymentByProvider(id: AuctionId, expected: Option<UserId>) returns (reply: M.Reply)
      modifies this
      ensures (World(), reply) == M.ConfirmByProvider(old(World()), id, expected)
      ensures R.Inv(old(World())) ==> R.Inv(World())
    {
      hide R.Inv;
      R.ProviderKeeps(World(), id, expected);
      if id !in auctions {
        return M.Refused(M.NotFound);
      }
      var auction := auctions[id];
      if auction.status != ENDED {
        return M.Refused(M.NotEnded);
      }
      if auction.winner == None {
        return M.Refused(M.NoWinner);
      }
      if expected.Some? && auction.winner != expected {
        return M.Refused(M.WinnerMismatch);
      }
      if auction.paymentStatus == M.PAID {
        return M.AlreadyDone;
      }
      auctions := auctions[id := auction.(paymentStatus := M.PAID)];
      ClearWinnerPaymentLifecycleJobs(id, auction.winner.value);
      return M.Done;
    }

    method HandleWebhook(id: AuctionId, status: M.ProviderStatus, expected: Option<UserId>) returns (reply: M.Reply)
      modifies this
      ensures (World(), reply) == M.Webhook(old(World()), id, status, expected)
      ensures R.Inv(old(World())) ==> R.Inv(World())
    {
      hide R.Inv;
      R.HandleKeeps(World(), R.WebhookReceived(id, status, expected));
      if status == M.FAILED {
        return M.FailureNoted;
      }
      reply := ConfirmWinnerPaymentByProvider(id, expected);
      if reply.Refused? {
        return;
      }
      var auction := auctions[id];
      if auction.winner.Some? {
        CreateNotification(auction.winner.value, M.PaymentSuccess, id, auction.winner.value, M.PAYMENT_SUCCESS);
      }
      CreateNotification(auction.createdBy, M.CreatorPaymentReceived, id, auction.createdBy, M.SYSTEM);
    }

    // ----- Replacing a winner who did not pay

    /** Walks the top bids in order until one is not the winner's. */
    method FindNextHighestBidder(id: AuctionId, currentWinner: UserId) returns (next: Option<Bid>)
      ensures next == M.NextHighestBidder(BidsFor(bids, id), currentWinner)
    {
      var top := M.Take(SortByAmount(BidsFor(bids, id)), M.BACKUP_SEARCH_LIMIT);
      for i := 0 to |top|
        invariant M.FirstOther(top, currentWinner) == M.FirstOther(top[i..], currentWinner)
      {
        if top[i].userId != currentWinner {
          return Some(top[i]);
        }
        assert top[i..][1..] == top[i + 1..];
      }
      return None;
    }

    /** Answers `NotFound` for the exception, and `NoNextBidder` for the null result. */
    method ReplaceWinnerWithNextBidder(id: AuctionId, previous: UserId, reason: M.Reason, now: Time)
      returns (reply: M.Reply, next: Option<Bid>)
      modifies this
      ensures id !in old(auctions) ==> reply == M.Refused(M.NotFound) && next == None && World() == old(World())
      ensures id in old(auctions) ==>
        && next == M.NextHighestBidder(BidsFor(old(bids), id), previous)
        && reply == (if next == None then M.NoNextBidder else M.Done)
        && World() == if next == None then old(World())
                      else M.PutAuction(old(World()), id, M.Switched(old(auctions[id]), previous, next.value, reason, now))
      ensures (R.Inv(old(World())) && id in old(auctions) && old(auctions[id].winner) == Some(previous)
               && old(auctions[id].paymentStatus) == M.UNPAID) ==> R.Inv(World())
    {
      hide R.Inv, M.NextHighestBidder, M.ScheduleUpTo, M.PaymentJobs;
      if id !in auctions {
        return M.Refused(M.NotFound), None;
      }
      var auction := auctions[id];
      next := FindNextHighestBidder(id, previous);
      if next == None {
        return M.NoNextBidder, None;
      }
      if R.Inv(World()) && auction.winner == Some(previous) && auction.paymentStatus == M.UNPAID {
        R.ReplacementKeeps(World(), id, next.value, reason, now);
      }
      auction := auction.(winnerHistory := auction.winnerHistory
                                           + [M.WinnerChange(previous, auction.currentPrice, reason, now)]);
      auction := auction.(winner := Some(next.value.userId));
      auction := auction.(highestBidder := Some(next.value.userId));
      auction := auction.(currentPrice := next.value.amount);
      auction := auction.(paymentStatus := M.UNPAID);
      auctions := auctions[id := auction];
      reply := M.Done;
    }

    method HandlePaymentExpiryDecision(id: AuctionId, creator: UserId, action: M.Decision, now: Time)
      returns (reply: M.Reply)
      modifies this
      ensures (World(), reply) == M.Decide(old(World()), id, creator, action, now)
      ensures R.Inv(old(World())) ==> R.Inv(World())
    {
      hide R.Inv, M.NextHighestBidder, M.ScheduleUpTo, M.PaymentJobs;
      R.HandleKeeps(World(), R.DecisionSent(id, creator, action, now));
      if id !in auctions {
        return M.Refused(M.NotFound);
      }
      var auction := auctions[id];
      if auction.createdBy != creator {
        return M.Refused(M.NotCreator);
      }
      if auction.paymentStatus == M.PAID {
        return M.Refused(M.IsPaid);
      }
      if auction.winner == None {
        return M.Refused(M.NoWinner);
      }
      var current := auction.winner.value;
      if action == M.KeepCurrent {
        ClearWinnerPaymentLifecycleJobs(id, current);
        ScheduleWinnerPaymentLifecycle(id, current, now, 3);
        CreateNotification(current, M.PaymentExtended, id, current, M.SYSTEM);
        CreateNotification(creator, M.CreatorPaymentExtended, id, creator, M.SYSTEM);
        return M.Done;
      }
      var switched, next := ReplaceWinnerWithNextBidder(id, current, M.CreatorPushedNext, now);
      if next == None {
        return M.NoNextBidder;
      }
      ClearWinnerPaymentLifecycleJobs(id, current);
      ScheduleWinnerPaymentLifecycle(id, next.value.userId, now, 3);
      CreateNotification(current, M.WinnerChangedOut, id, current, M.SYSTEM);
      CreateNotification(next.value.userId, M.WinnerReassignedManual, id, next.value.userId, M.AUCTION_WON);
      CreateNotification(creator, M.CreatorWinnerSwitched, id, creator, M.SYSTEM);
      return M.Done;
    }

    method HandlePaymentReminder(id: AuctionId, user: UserId)
      modifies this
      ensures World() == M.HandlePaymentReminder(old(World()), id, user)
      ensures R.Inv(old(World())) ==> R.Inv(World())
    {
      hide R.Inv;
      R.HandleKeeps(World(), R.ReminderDelivered(id, user));
      if id !in auctions || auctions[id].paymentStatus == M.PAID || auctions[id].winner != Some(user) {
        return;
      }
      CreateNotification(user, M.PaymentReminder, id, user, M.PAYMENT_REMINDER);
    }

    /** Stops after its `stop`-th awaited write; `M.EXPIRED_WRITES` is a full run. */
    method HandlePaymentExpired(id: AuctionId, user: UserId, mode: M.ExpiryMode, now: Time, stop: nat)
      modifies this
      ensures World() == M.HandlePaymentExpired(old(World()), id, user, mode, now, stop)
      ensures R.Inv(old(World())) ==> R.Inv(World())
    {
      hide R.Inv, M.NextHighestBidder, M.ScheduleUpTo, M.PaymentJobs;
      R.HandleKeeps(World(), R.ExpiredDelivered(id, user, mode, now, stop));
      if id !in auctions {
        return;
      }
      var auction := auctions[id];
      if auction.paymentStatus == M.PAID || auction.winner != Some(user) || stop == 0 {
        return;
      }
      CreateNotification(user, M.PaymentExpired, id, user, M.SYSTEM);
      if stop == 1 {
        return;
      }
      if mode == M.AskCreator {
        CreateNotification(auction.createdBy, M.CreatorActionRequired, id, user, M.SYSTEM);
        return;
      }
      var switched, next := ReplaceWinnerWithNextBidder(id, user, M.AutoSwitch, now);
      if next == None {
        CreateNotification(auction.createdBy, M.NoBackupBidder, id, user, M.SYSTEM);
        return;
      }
      ScheduleWinnerPaymentLifecycle(id, next.value.userId, now, stop - 2);
      if stop < M.EXPIRED_WRITES {
        return;
      }
      CreateNotification(next.value.userId, M.WinnerReassigned, id, next.value.userId, M.AUCTION_WON);
    }

    // ----- Statistics

    method GetBidStatsForUser(user: UserId, now: Time) returns (stats: Option<M.Stats>)
      modifies this
      ensures (World(), stats) == M.BidStats(old(World()), user, now)
      ensures R.Inv(old(World())) ==> R.Inv(World())
    {
      hide R.Inv;
      if user !in biddedAuctions {
        return None;
      }
      var ids := biddedAuctions[user];
      SweepExpired(ids, now);
      var totalBids := if ids != {} then M.CountBidsIn(bids, user, ids) else M.CountBids(bids, user);
      var created := |M.Created(World(), user)|;
      var won := if ids != {} then |M.WonBy(World(), user) * ids| else 0;
      return Some(M.Stats(totalBids, created, won));
    }
  }
}
