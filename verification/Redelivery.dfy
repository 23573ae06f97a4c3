/** At-least-once delivery: job handlers killed between their writes and run again. */
module Redelivery {
  import opened Common
  import opened BidOrder
  import opened Market
  import opened MarketRuns

  /** An attempt at a job: when it ran and after how many awaited writes it stopped. */
  datatype Attempt = Attempt(now: Time, writes: nat)

  // ----- endAuction

  function EndAttempts(w: World, id: AuctionId, attempts: seq<Attempt>): World {
    if attempts == [] then w
    else
      var last := attempts[|attempts| - 1];
      HandleEndAuction(EndAttempts(w, id, attempts[..|attempts| - 1]), id, last.now, last.writes)
  }

  /** The bidder a run of `handleEndAuction` from `a` congratulates and bills. */
  function Invited(a: Auction): Option<UserId> {
    if End(a).status == ENDED && !a.notified then a.highestBidder else None
  }

  function WonNotes(w: World, id: AuctionId): map<(UserId, DedupeKey), NoteKind>
    requires id in w.auctions
  {
    match Invited(w.auctions[id])
    case Some(user) => PutIfAbsent(w.notes, (user, DedupeKey(Won, id, user)), AUCTION_WON)
    case None => w.notes
  }

  function WonJobs(w: World, id: AuctionId): set<JobId>
    requires id in w.auctions
  {
    match Invited(w.auctions[id])
    case Some(user) => PaymentJobs(id, user)
    case None => {}
  }

  function Undated(a: Auction): Auction {
    a.(paymentDueAt := None)
  }

  /** The outcome of a completed `handleEndAuction`, up to the due times: the auction is ended for
      its highest bidder and flagged, and that bidder has one won notification and one reminder
      and one expiry job. */
  ghost predicate Completed(w: World, id: AuctionId, t: World)
    requires id in w.auctions
  {
    var e := End(w.auctions[id]);
    && t == w.(auctions := t.auctions, notes := t.notes, queue := t.queue)
    && id in t.auctions && t.auctions == w.auctions[id := t.auctions[id]]
    && Undated(t.auctions[id]) == Undated(e.(notified := e.notified || e.status == ENDED))
    && t.notes == WonNotes(w, id)
    && t.queue.Keys == w.queue.Keys + WonJobs(w, id)
    && forall job :: job in w.queue ==> t.queue[job] == w.queue[job]
  }

  /** Some of the writes have happened; the flag is set last. */
  ghost predicate Underway(w: World, id: AuctionId, t: World)
    requires id in w.auctions
  {
    var a := w.auctions[id];
    && t == w.(auctions := t.auctions, notes := t.notes, queue := t.queue)
    && id in t.auctions && t.auctions == w.auctions[id := t.auctions[id]]
    && t.auctions[id].notified == a.notified
    && Undated(End(t.auctions[id])) == Undated(End(a))
    && (t.notes == w.notes || t.notes == WonNotes(w, id))
    && w.queue.Keys <= t.queue.Keys <= w.queue.Keys + WonJobs(w, id)
    && forall job :: job in w.queue ==> t.queue[job] == w.queue[job]
  }

  lemma UnderwayStarts(w: World, id: AuctionId)
    requires id in w.auctions
    ensures Underway(w, id, w)
  {
    assert w.auctions == w.auctions[id := w.auctions[id]];
  }

  /** What one attempt adds to a world whose auction is due to be announced. */
  lemma AttemptWrites(t: World, id: AuctionId, now: Time, writes: nat)
    requires id in t.auctions && writes > 0
    ensures
      var a, u := End(t.auctions[id]), HandleEndAuction(t, id, now, writes);
      && u == t.(auctions := u.auctions, notes := u.notes, queue := u.queue)
      && id in u.auctions && u.auctions == t.auctions[id := u.auctions[id]]
      && Undated(u.auctions[id]) == Undated(a.(notified := a.notified || (a.status == ENDED && writes >= END_WRITES)))
      && match Invited(t.auctions[id])
         case None => u.notes == t.notes && u.queue == t.queue
         case Some(user) =>
           && u.notes == (if writes >= 2 then PutIfAbsent(t.notes, (user, DedupeKey(Won, id, user)), AUCTION_WON) else t.notes)
           && u.queue.Keys == t.queue.Keys
                + (if writes >= 4 then {ReminderJob(id, user)} else {}) + (if writes >= 5 then {ExpiredJob(id, user)} else {})
           && forall job :: job in t.queue ==> u.queue[job] == t.queue[job]
  {
    var a := End(t.auctions[id]);
    var ended := PutAuction(t, id, a);
    if Invited(t.auctions[id]).Some? {
      InviteWrites(ended, id, a.highestBidder.value, now, writes);
    }
    hide Invite, PutIfAbsent;
  }

  lemma InviteWrites(w: World, id: AuctionId, user: UserId, now: Time, writes: nat)
    requires id in w.auctions
    ensures
      var t := Invite(w, id, user, now, writes);
      && t == w.(auctions := t.auctions, notes := t.notes, queue := t.queue)
      && id in t.auctions && t.auctions == w.auctions[id := t.auctions[id]]
      && Undated(t.auctions[id]) == Undated(w.auctions[id])
      && t.notes == (if writes >= 2 then PutIfAbsent(w.notes, (user, DedupeKey(Won, id, user)), AUCTION_WON) else w.notes)
      && t.queue.Keys == w.queue.Keys
           + (if writes >= 4 then {ReminderJob(id, user)} else {}) + (if writes >= 5 then {ExpiredJob(id, user)} else {})
      && forall job :: job in w.queue ==> t.queue[job] == w.queue[job]
  {
    var told := if writes >= 2 then Notify(w, user, Won, id, user, AUCTION_WON) else w;
    ScheduleOnlyDates(told, id, user, now, writes - 2);
    ScheduleKeys(told, id, user, now, writes - 2);
  }

  lemma ScheduleKeys(w: World, id: AuctionId, user: UserId, now: Time, writes: int)
    ensures
      var t := ScheduleUpTo(w, id, user, now, writes);
      && t.queue.Keys == w.queue.Keys
           + (if writes >= 2 then {ReminderJob(id, user)} else {}) + (if writes >= 3 then {ExpiredJob(id, user)} else {})
      && forall job :: job in w.queue ==> t.queue[job] == w.queue[job]
  {
    var w1 := if writes >= 1 then SetDue(w, id, now + PAYMENT_EXPIRY_DELAY_MS) else w;
    EnqueueKeys(w1, ReminderJob(id, user), now + PAYMENT_REMINDER_DELAY_MS);
    var w2 := if writes >= 2 then Enqueue(w1, ReminderJob(id, user), now + PAYMENT_REMINDER_DELAY_MS) else w1;
    EnqueueKeys(w2, ExpiredJob(id, user), now + PAYMENT_EXPIRY_DELAY_MS);
    assert w1.queue == w.queue;
    hide Enqueue, SetDue;
  }

  lemma EnqueueKeys(w: World, job: JobId, due: Time)
    ensures
      var t := Enqueue(w, job, due);
      && t.queue.Keys == w.queue.Keys + {job}
      && forall j :: j in w.queue ==> t.queue[j] == w.queue[j]
  {
  }

  lemma AttemptFrom(w: World, id: AuctionId, t: World, now: Time, writes: nat)
    requires id in w.auctions && (Underway(w, id, t) || Completed(w, id, t))
    ensures
      var u := HandleEndAuction(t, id, now, writes);
      if writes >= END_WRITES then Completed(w, id, u) else Underway(w, id, u) || Completed(w, id, u)
  {
    if writes == 0 {
      assert HandleEndAuction(t, id, now, writes) == t;
    } else if Underway(w, id, t) {
      AttemptGoesOn(w, id, t, now, writes);
    } else {
      AttemptAgain(w, id, t, now, writes);
    }
  }

  lemma AttemptGoesOn(w: World, id: AuctionId, t: World, now: Time, writes: nat)
    requires id in w.auctions && Underway(w, id, t) && writes > 0
    ensures
      var u := HandleEndAuction(t, id, now, writes);
      if writes >= END_WRITES then Completed(w, id, u) else Underway(w, id, u) || Completed(w, id, u)
  {
    hide HandleEndAuction, PutIfAbsent;
    AttemptWrites(t, id, now, writes);
    var a, b, u := w.auctions[id], t.auctions[id], HandleEndAuction(t, id, now, writes);
    assert u.auctions == w.auctions[id := u.auctions[id]];
    assert Undated(End(b)).highestBidder == Undated(End(a)).highestBidder;
    assert Undated(End(b)).status == Undated(End(a)).status;
    assert Invited(b) == Invited(a);
    if Invited(a).Some? {
      var user := Invited(a).value;
      PutTwice(w.notes, (user, DedupeKey(Won, id, user)), AUCTION_WON);
    }
  }

  lemma PutTwice<K, V>(m: map<K, V>, key: K, value: V)
    ensures PutIfAbsent(PutIfAbsent(m, key, value), key, value) == PutIfAbsent(m, key, value)
  {
  }

  lemma AttemptAgain(w: World, id: AuctionId, t: World, now: Time, writes: nat)
    requires id in w.auctions && Completed(w, id, t) && writes > 0
    ensures Completed(w, id, HandleEndAuction(t, id, now, writes))
  {
    AttemptWrites(t, id, now, writes);
    var a, b, u := w.auctions[id], t.auctions[id], HandleEndAuction(t, id, now, writes);
    assert u.auctions == w.auctions[id := u.auctions[id]];
    assert Undated(b).notified == (End(a).notified || End(a).status == ENDED);
    assert Undated(b).status == End(a).status;
    assert Invited(b) == None;
  }

  lemma {:induction false} AttemptsFrom(w: World, id: AuctionId, attempts: seq<Attempt>)
    requires id in w.auctions
    ensures Underway(w, id, EndAttempts(w, id, attempts)) || Completed(w, id, EndAttempts(w, id, attempts))
  {
    if attempts == [] {
      UnderwayStarts(w, id);
    } else {
      var last := attempts[|attempts| - 1];
      AttemptsFrom(w, id, attempts[..|attempts| - 1]);
      AttemptFrom(w, id, EndAttempts(w, id, attempts[..|attempts| - 1]), last.now, last.writes);
    }
  }

  /** However often and wherever `handleEndAuction` is killed, the run that completes leaves what
      one clean run leaves: same auction up to the due date, same notifications, same jobs. */
  lemma EndRedelivered(w: World, id: AuctionId, attempts: seq<Attempt>, now: Time)
    requires id in w.auctions
    ensures
      var clean := HandleEndAuction(w, id, now, END_WRITES);
      var t := HandleEndAuction(EndAttempts(w, id, attempts), id, now, END_WRITES);
      && Completed(w, id, clean) && Completed(w, id, t)
      && Undated(t.auctions[id]) == Undated(clean.auctions[id])
      && t.notes == clean.notes && t.queue.Keys == clean.queue.Keys
      && t.bids == clean.bids && t.biddedAuctions == clean.biddedAuctions
  {
    UnderwayStarts(w, id);
    AttemptFrom(w, id, w, now, END_WRITES);
    AttemptsFrom(w, id, attempts);
    AttemptFrom(w, id, EndAttempts(w, id, attempts), now, END_WRITES);
  }

  lemma ThirdWriteSchedules(w: World, id: AuctionId, user: UserId, now: Time, writes: int)
    requires id in w.auctions
    ensures
      var t := ScheduleUpTo(w, id, user, now, writes - 2);
      && t.notes == w.notes && id in t.auctions && t.auctions[id].paymentDueAt ==
           if writes >= 3 then Some(now + 24 * 60 * 60 * 1000) else w.auctions[id].paymentDueAt
  {
  }

  /** The due date is the third write of the end job. */
  lemma EndDatesThird(w: World, id: AuctionId, now: Time, writes: nat)
    requires id in w.auctions && Invited(w.auctions[id]).Some?
    ensures
      var t := HandleEndAuction(w, id, now, writes);
      id in t.auctions && t.auctions[id].paymentDueAt ==
        if writes >= 3 then Some(now + 24 * 60 * 60 * 1000) else w.auctions[id].paymentDueAt
  {
    var user := Invited(w.auctions[id]).value;
    var ended := PutAuction(w, id, End(w.auctions[id]));
    hide ScheduleUpTo;
    ThirdWriteSchedules(if writes >= 2 then Notify(ended, user, Won, id, user, AUCTION_WON) else ended, id, user, now, writes);
  }

  /** Of a switching expiry job the due date is the third write and the notification of the expiry the
      first. */
  lemma ExpiryDatesThird(w: World, id: AuctionId, user: UserId, now: Time, writes: nat)
    requires Switches(w, id, user, Switch, EXPIRED_WRITES)
    ensures
      var t := HandlePaymentExpired(w, id, user, Switch, now, writes);
      && id in t.auctions && t.auctions[id].paymentDueAt ==
           (if writes >= 3 then Some(now + 24 * 60 * 60 * 1000) else w.auctions[id].paymentDueAt)
      && ((user, DedupeKey(PaymentExpired, id, user)) in t.notes <==>
            (user, DedupeKey(PaymentExpired, id, user)) in w.notes || writes >= 1)
  {
    hide NextHighestBidder, ScheduleUpTo;
    var next := NextHighestBidder(BidsFor(w.bids, id), user).value;
    var told := Notify(w, user, PaymentExpired, id, user, SYSTEM);
    var stored := PutAuction(told, id, Switched(w.auctions[id], user, next, AutoSwitch, now));
    ThirdWriteSchedules(stored, id, next.userId, now, writes);
  }

  // ----- paymentExpired

  datatype Expiry = Expiry(mode: ExpiryMode, now: Time, writes: nat)

  function Expiries(w: World, id: AuctionId, user: UserId, runs: seq<Expiry>): World {
    if runs == [] then w
    else
      var last := runs[|runs| - 1];
      HandlePaymentExpired(Expiries(w, id, user, runs[..|runs| - 1]), id, user, last.mode, last.now, last.writes)
  }

  /** Delivered any number of times for the same winner, whole or killed, `handlePaymentExpired`
      replaces that winner at most once, and by somebody else. */
  lemma {:induction false} ExpiredOnce(w: World, id: AuctionId, user: UserId, runs: seq<Expiry>)
    requires id in w.auctions
    ensures
      var t := Expiries(w, id, user, runs);
      && id in t.auctions
      && (|| t.auctions[id] == w.auctions[id]
          || (&& w.auctions[id].winner == Some(user) && t.auctions[id].winner.Some? && t.auctions[id].winner != Some(user)
              && w.auctions[id].winnerHistory <= t.auctions[id].winnerHistory
              && |t.auctions[id].winnerHistory| == |w.auctions[id].winnerHistory| + 1))
  {
    if runs != [] {
      var n := |runs| - 1;
      ExpiredOnce(w, id, user, runs[..n]);
      ExpiryStep(Expiries(w, id, user, runs[..n]), id, user, runs[n]);
    }
  }

  lemma ExpiryStep(w: World, id: AuctionId, user: UserId, run: Expiry)
    requires id in w.auctions
    ensures
      var t := HandlePaymentExpired(w, id, user, run.mode, run.now, run.writes);
      && id in t.auctions
      && (|| t.auctions[id] == w.auctions[id]
          || (&& w.auctions[id].winner == Some(user) && t.auctions[id].winner.Some? && t.auctions[id].winner != Some(user)
              && w.auctions[id].winnerHistory <= t.auctions[id].winnerHistory
              && |t.auctions[id].winnerHistory| == |w.auctions[id].winnerHistory| + 1))
  {
    if Switches(w, id, user, run.mode, run.writes) {
      var next := NextHighestBidder(BidsFor(w.bids, id), user).value;
      FirstOtherIs(Take(SortByAmount(BidsFor(w.bids, id)), BACKUP_SEARCH_LIMIT), user);
      ExpiredWrites(w, id, user, run.now, run.writes);
    }
  }

  lemma ExpiredWrites(w: World, id: AuctionId, user: UserId, now: Time, writes: nat)
    requires Switches(w, id, user, Switch, writes)
    ensures
      var t := HandlePaymentExpired(w, id, user, Switch, now, writes);
      var next := NextHighestBidder(BidsFor(w.bids, id), user).value;
      && id in t.auctions
      && Undated(t.auctions[id]) == Undated(Switched(w.auctions[id], user, next, AutoSwitch, now))
      && t.bids == w.bids
      && t.queue.Keys == w.queue.Keys
           + (if writes >= 4 then {ReminderJob(id, next.userId)} else {})
           + (if writes >= 5 then {ExpiredJob(id, next.userId)} else {})
  {
    var next := NextHighestBidder(BidsFor(w.bids, id), user).value;
    var told := Notify(w, user, PaymentExpired, id, user, SYSTEM);
    var stored := PutAuction(told, id, Switched(w.auctions[id], user, next, AutoSwitch, now));
    ScheduleOnlyDates(stored, id, next.userId, now, writes - 2);
    ScheduleKeys(stored, id, next.userId, now, writes - 2);
  }

  /** The first delivery that gets as far as replacing the winner. */
  function FirstSwitch(runs: seq<Expiry>): Option<Expiry> {
    if runs == [] then None
    else
      match FirstSwitch(runs[..|runs| - 1])
      case Some(first) => Some(first)
      case None =>
        var last := runs[|runs| - 1];
        if last.mode == Switch && last.writes >= 2 then Some(last) else None
  }

  function NextAfter(w: World, id: AuctionId, user: UserId): Option<UserId> {
    match NextHighestBidder(BidsFor(w.bids, id), user)
    case Some(next) => Some(next.userId)
    case None => None
  }

  function ReassignedKey(id: AuctionId, next: UserId): (UserId, DedupeKey) {
    (next, DedupeKey(WinnerReassigned, id, next))
  }

  /** What the deliveries so far have left of the change to the next bidder: everything hangs on how
      far the first one came that replaced the winner. */
  ghost predicate HalfSwitched(w: World, t: World, id: AuctionId, user: UserId, next: UserId, first: Option<Expiry>) {
    && t.bids == w.bids && id in t.auctions
    && match first
       case None =>
         && t.auctions == w.auctions && t.queue == w.queue
         && (ReassignedKey(id, next) in t.notes <==> ReassignedKey(id, next) in w.notes)
       case Some(run) =>
         && t.auctions[id].winner == Some(next)
         && (ReminderJob(id, next) in t.queue <==> ReminderJob(id, next) in w.queue || run.writes >= 4)
         && (ExpiredJob(id, next) in t.queue <==> ExpiredJob(id, next) in w.queue || run.writes >= 5)
         && (ReassignedKey(id, next) in t.notes <==> ReassignedKey(id, next) in w.notes || run.writes >= 6)
  }

  lemma SwitchNotifies(w: World, id: AuctionId, user: UserId, now: Time, writes: nat)
    requires Switches(w, id, user, Switch, writes)
    ensures
      var next := NextHighestBidder(BidsFor(w.bids, id), user).value.userId;
      var key := ReassignedKey(id, next);
      key in HandlePaymentExpired(w, id, user, Switch, now, writes).notes <==> key in w.notes || writes >= 6
  {
    hide NextHighestBidder;
    var next := NextHighestBidder(BidsFor(w.bids, id), user).value;
    var told := Notify(w, user, PaymentExpired, id, user, SYSTEM);
    var stored := PutAuction(told, id, Switched(w.auctions[id], user, next, AutoSwitch, now));
    ScheduleOnlyDates(stored, id, next.userId, now, writes - 2);
    hide ScheduleUpTo;
  }

  lemma WaitingStep(w: World, id: AuctionId, user: UserId, next: UserId, run: Expiry)
    requires Switches(w, id, user, Switch, EXPIRED_WRITES)
    requires run.mode != Switch || run.writes < 2
    ensures HalfSwitched(w, HandlePaymentExpired(w, id, user, run.mode, run.now, run.writes), id, user, next, None)
  {
    hide NextHighestBidder;
  }

  lemma SwitchingStep(w: World, id: AuctionId, user: UserId, run: Expiry)
    requires Switches(w, id, user, Switch, EXPIRED_WRITES) && run.mode == Switch && run.writes >= 2
    ensures HalfSwitched(w, HandlePaymentExpired(w, id, user, run.mode, run.now, run.writes), id, user,
                         NextAfter(w, id, user).value, Some(run))
  {
    hide NextHighestBidder;
    ExpiredWrites(w, id, user, run.now, run.writes);
    SwitchNotifies(w, id, user, run.now, run.writes);
    hide HandlePaymentExpired;
    var t := HandlePaymentExpired(w, id, user, run.mode, run.now, run.writes);
    assert Undated(t.auctions[id]).winner == t.auctions[id].winner;
  }

  lemma StaleExpiry(w: World, id: AuctionId, user: UserId, run: Expiry)
    requires id in w.auctions && w.auctions[id].winner != Some(user)
    ensures HandlePaymentExpired(w, id, user, run.mode, run.now, run.writes) == w
  {
  }

  lemma NextIsAnother(w: World, id: AuctionId, user: UserId)
    ensures NextAfter(w, id, user) != Some(user)
  {
    FirstOtherIs(Take(SortByAmount(BidsFor(w.bids, id)), BACKUP_SEARCH_LIMIT), user);
  }

  /** Redelivery does not always finish the job: once the replacement is stored every rerun sees
      another winner and stops. After any number of deliveries, whole or killed, the new winner's
      jobs and notification are there exactly when the first delivery that replaced the winner came
      as far as writing them itself. */
  lemma {:induction false} SwitchIsNotFinished(w: World, id: AuctionId, user: UserId, runs: seq<Expiry>)
    requires Switches(w, id, user, Switch, EXPIRED_WRITES)
    ensures HalfSwitched(w, Expiries(w, id, user, runs), id, user, NextAfter(w, id, user).value, FirstSwitch(runs))
  {
    hide HandlePaymentExpired, NextHighestBidder;
    if runs != [] {
      var n := |runs| - 1;
      var t := Expiries(w, id, user, runs[..n]);
      var next := NextAfter(w, id, user).value;
      SwitchIsNotFinished(w, id, user, runs[..n]);
      if FirstSwitch(runs[..n]).Some? {
        NextIsAnother(w, id, user);
        StaleExpiry(t, id, user, runs[n]);
      } else if runs[n].mode == Switch && runs[n].writes >= 2 {
        SwitchingStep(t, id, user, runs[n]);
      } else {
        WaitingStep(t, id, user, next, runs[n]);
      }
    }
  }

  /** For a switching job that is rerun until it completes: the new winner's expiry job, and so any
      further switch, depends on where the first replacing attempt was killed. */
  lemma ExpiryJobLost(w: World, id: AuctionId, user: UserId, runs: seq<Expiry>, now: Time)
    requires Switches(w, id, user, Switch, EXPIRED_WRITES)
    requires forall r :: r in runs ==> r.mode == Switch
    requires ExpiredJob(id, NextAfter(w, id, user).value) !in w.queue
    ensures
      var next, all := NextAfter(w, id, user).value, runs + [Expiry(Switch, now, EXPIRED_WRITES)];
      var t := Expiries(w, id, user, all);
      && id in t.auctions && t.auctions[id].winner == Some(next)
      && FirstSwitch(all).Some?
      && (ExpiredJob(id, next) in t.queue <==> FirstSwitch(all).value.writes >= 5)
  {
    hide NextHighestBidder, Expiries;
    var all := runs + [Expiry(Switch, now, EXPIRED_WRITES)];
    assert all[..|all| - 1] == runs;
    SwitchIsNotFinished(w, id, user, all);
  }
}
