/** The lock as mutual exclusion: what it gives while it outlives its holders, and exactly when the
    stored bids keep the bidding rules when it does not. */
module BidExclusion {
  import opened Common
  import opened BidOrder
  import opened BidProtocol
  import opened BidSafety

  ghost predicate TimesIncrease(bids: seq<Bid>) {
    forall i, j :: 0 <= i < j < |bids| ==> bids[i].createdAt < bids[j].createdAt
  }

  /** The bidding rules as the stored bids show them: amounts rise in creation order and nobody
      outbids themselves. */
  ghost predicate Serial(bids: seq<Bid>) {
    && (forall i, j :: 0 <= i < j < |bids| ==> bids[i].amount < bids[j].amount)
    && (forall i, j :: 0 <= i < j < |bids| && j == i + 1 ==> bids[i].userId != bids[j].userId)
  }

  // ----- Bids stored between another call's check and its insertion

  /** Call `c` reads the latest bid and passes the consecutive-bid and price checks. */
  ghost predicate Passes(s: State, a: Action, c: nat) {
    a.ReadLatest? && a.c == c && AtPhase(s, c) != Some(Cleared) && AtPhase(Apply(s, a), c) == Some(Cleared)
  }

  ghost predicate Stores(s: State, a: Action) {
    a.InsertBid? && AtPhase(s, a.c) == Some(Raised)
  }

  /** How many bids were stored when `c` last read the latest one. */
  ghost function BidsAtCheck(s: State, run: seq<Action>, c: nat): nat {
    if run == [] then 0
    else
      var n := |run| - 1;
      var before := After(s, run[..n]);
      if Passes(before, run[n], c) then |before.bids| else BidsAtCheck(s, run[..n], c)
  }

  /** The `k`-th step stores a bid whose call has not seen the last stored one. */
  ghost predicate Overtaken(s: State, run: seq<Action>, k: nat)
    requires k < |run|
  {
    Stores(After(s, run[..k]), run[k]) && BidsAtCheck(s, run[..k], run[k].c) < |After(s, run[..k]).bids|
  }

  /** The last stored bid is another user's and lower. */
  ghost predicate Outbids(call: Call, bids: seq<Bid>) {
    bids != [] ==> bids[|bids| - 1].userId != call.user && bids[|bids| - 1].amount < call.amount
  }

  ghost predicate OvertakenOutbid(s: State, run: seq<Action>) {
    forall k :: 0 <= k < |run| && Overtaken(s, run, k) ==>
      Outbids(After(s, run[..k]).calls[run[k].c], After(s, run[..k]).bids)
  }

  /** What a call past its checks knows of the stored bids if it has seen all of them. */
  ghost predicate Checked(call: Call, seen: nat, bids: seq<Bid>) {
    call.phase == Cleared || call.phase == Raised ==>
      && seen <= |bids|
      && (seen == |bids| > 0 ==> bids[|bids| - 1].userId != call.user)
      && (seen == |bids| && call.phase == Raised ==> Outbids(call, bids))
  }

  ghost predicate CallsChecked(s: State, run: seq<Action>) {
    var t := After(s, run);
    forall c :: c in t.calls ==> Checked(t.calls[c], BidsAtCheck(s, run, c), t.bids)
  }

  lemma LatestIsLast(bids: seq<Bid>, b: Bid)
    requires TimesIncrease(bids) && IsLatest(bids, Some(b))
    ensures bids != [] && bids[|bids| - 1] == b
  {
    assert bids[|bids| - 1] in bids;
  }

  lemma BidsStep(s: State, a: Action)
    ensures
      Apply(s, a).bids ==
        if Stores(s, a) then s.bids + [Bid(s.id, s.calls[a.c].user, s.calls[a.c].amount, a.createdAt)] else s.bids
  {
  }

  lemma TimesIncreaseBefore(s: State, a: Action)
    requires TimesIncrease(Apply(s, a).bids)
    ensures TimesIncrease(s.bids)
  {
    BidsStep(s, a);
    var bids := Apply(s, a).bids;
    assert forall i :: 0 <= i < |s.bids| ==> bids[i] == s.bids[i];
  }

  /** One call across one step; `seen` is what it had seen before. */
  lemma CheckedStep(s: State, a: Action, c: nat, seen: nat)
    requires TimesIncrease(s.bids) && c in Apply(s, a).calls
    requires c in s.calls ==> Checked(s.calls[c], seen, s.bids)
    requires s.bids != [] ==> s.bids[|s.bids| - 1].amount <= s.doc.currentPrice
    ensures Checked(Apply(s, a).calls[c], if Passes(s, a, c) then |s.bids| else seen, Apply(s, a).bids)
  {
    BidsStep(s, a);
    if Passes(s, a, c) && a.latest.Some? {
      LatestIsLast(s.bids, a.latest.value);
    }
  }

  lemma {:induction false} CheckedHolds(s: State, run: seq<Action>)
    requires Initial(s) && TimesIncrease(After(s, run).bids)
    ensures CallsChecked(s, run)
  {
    hide Apply, Checked, Passes;
    if run != [] {
      var n := |run| - 1;
      var before := After(s, run[..n]);
      TimesIncreaseBefore(before, run[n]);
      CheckedHolds(s, run[..n]);
      InitialInv(s);
      InvHolds(s, run[..n]);
      StoredBelowPrice(before);
      var t := After(s, run);
      forall c | c in t.calls ensures Checked(t.calls[c], BidsAtCheck(s, run, c), t.bids) {
        CheckedStep(before, run[n], c, BidsAtCheck(s, run[..n], c));
      }
    }
  }

  lemma SerialMore(bids: seq<Bid>, b: Bid)
    ensures Serial(bids + [b]) <==>
            Serial(bids) && (bids != [] ==> bids[|bids| - 1].userId != b.userId && bids[|bids| - 1].amount < b.amount)
  {
    var more := bids + [b];
    var n := |bids|;
    assert more[..n] == bids && more[n] == b;
    if Serial(more) {
      assert forall i :: 0 <= i < n ==> bids[i] == more[i];
      if n > 0 {
        assert more[n - 1].amount < more[n].amount;
      }
    }
    if Serial(bids) && n > 0 && bids[n - 1].amount < b.amount {
      assert forall i :: 0 <= i < n ==> more[i] == bids[i] && bids[i].amount <= bids[n - 1].amount;
    }
  }

  lemma OvertakenMore(s: State, run: seq<Action>)
    requires run != []
    ensures
      var n := |run| - 1;
      OvertakenOutbid(s, run) <==>
        && OvertakenOutbid(s, run[..n])
        && (Overtaken(s, run, n) ==> Outbids(After(s, run[..n]).calls[run[n].c], After(s, run[..n]).bids))
  {
    hide After, BidsAtCheck, Stores, Outbids;
    var n := |run| - 1;
    assert forall k :: 0 <= k < n ==> run[..n][..k] == run[..k] && run[..n][k] == run[k];
    assert forall k :: 0 <= k < n ==> Overtaken(s, run[..n], k) == Overtaken(s, run, k);
  }

  /** Whatever happens to the lock: the stored bids keep the bidding rules exactly when every bid
      that is stored without having seen the last one is by another user than that one and higher.
      A bid whose call has seen all stored ones always keeps them. */
  lemma {:induction false} SerialExactly(s: State, run: seq<Action>)
    requires Initial(s) && TimesIncrease(After(s, run).bids)
    ensures Serial(After(s, run).bids) <==> OvertakenOutbid(s, run)
  {
    hide Apply, Serial, OvertakenOutbid;
    if run == [] {
      NoBids(s);
    } else {
      var n := |run| - 1;
      var before := After(s, run[..n]);
      TimesIncreaseBefore(before, run[n]);
      SerialExactly(s, run[..n]);
      CheckedHolds(s, run[..n]);
      OvertakenMore(s, run);
      BidsStep(before, run[n]);
      if Stores(before, run[n]) {
        var call := before.calls[run[n].c];
        assert Checked(call, BidsAtCheck(s, run[..n], run[n].c), before.bids);
        SerialMore(before.bids, Bid(before.id, call.user, call.amount, run[n].createdAt));
      }
    }
  }

  lemma NoBids(s: State)
    requires Initial(s)
    ensures Serial(s.bids) && OvertakenOutbid(s, [])
  {
  }

  /** No bid is stored between another call's check and its insertion. */
  ghost predicate Undisturbed(s: State, run: seq<Action>) {
    forall k :: 0 <= k < |run| ==> !Overtaken(s, run, k)
  }

  lemma UndisturbedIsSerial(s: State, run: seq<Action>)
    requires Initial(s) && TimesIncrease(After(s, run).bids) && Undisturbed(s, run)
    ensures Serial(After(s, run).bids)
  {
    SerialExactly(s, run);
  }

  // ----- Prompt holders

  /** Every call between taking and deleting the lock is younger than the lock's lifetime. */
  ghost predicate Prompt(s: State) {
    forall c :: c in s.calls ==> s.now < s.calls[c].since + LOCK_MS
  }

  /** A run in which holders are prompt, creation times strictly increase and the lock is lost
      only by expiring. */
  ghost predicate Punctual(s: State, run: seq<Action>) {
    && (forall k :: 0 <= k <= |run| ==> Prompt(After(s, run[..k])) && TimesIncrease(After(s, run[..k]).bids))
    && (forall k :: 0 <= k < |run| && run[k].LoseLock? ==> LockDue(After(s, run[..k])))
  }

  ghost predicate LockDue(s: State) {
    s.lock.Some? ==> s.lock.value <= s.now
  }

  ghost predicate Solo(s: State) {
    && (forall c, d :: c in s.calls && d in s.calls ==> c == d)
    && (forall c :: c in s.calls ==> s.lock == Some(s.calls[c].since + LOCK_MS))
  }

  lemma SoloStep(s: State, a: Action)
    requires Solo(s) && Prompt(s)
    requires a.LoseLock? ==> LockDue(s)
    ensures Solo(Apply(s, a))
  {
  }

  /** The only call has seen every stored bid. */
  ghost predicate UpToDate(s: State, run: seq<Action>) {
    var t := After(s, run);
    forall c :: c in t.calls && (t.calls[c].phase == Cleared || t.calls[c].phase == Raised) ==>
      BidsAtCheck(s, run, c) == |t.bids|
  }

  lemma UpToDateStep(s: State, a: Action, c: nat, seen: nat)
    requires Solo(s) && c in Apply(s, a).calls
    requires Apply(s, a).calls[c].phase == Cleared || Apply(s, a).calls[c].phase == Raised
    requires c in s.calls && (s.calls[c].phase == Cleared || s.calls[c].phase == Raised) ==> seen == |s.bids|
    ensures (if Passes(s, a, c) then |s.bids| else seen) == |Apply(s, a).bids|
  {
  }

  lemma PunctualBefore(s: State, run: seq<Action>)
    requires Punctual(s, run) && run != []
    ensures
      var n := |run| - 1;
      && Punctual(s, run[..n]) && Prompt(After(s, run[..n])) && TimesIncrease(After(s, run).bids)
      && (run[n].LoseLock? ==> LockDue(After(s, run[..n])))
  {
    hide After, Prompt, TimesIncrease, LockDue;
    var n := |run| - 1;
    assert run[..n + 1] == run;
    assert Prompt(After(s, run[..n + 1])) && TimesIncrease(After(s, run[..n + 1]).bids);
    forall k | 0 <= k <= n ensures Prompt(After(s, run[..n][..k])) && TimesIncrease(After(s, run[..n][..k]).bids) {
      assert run[..n][..k] == run[..k];
    }
    forall k | 0 <= k < n && run[..n][k].LoseLock? ensures LockDue(After(s, run[..n][..k])) {
      assert run[..n][..k] == run[..k] && run[..n][k] == run[k];
    }
  }

  lemma {:induction false} SoloHolds(s: State, run: seq<Action>)
    requires Initial(s) && Punctual(s, run)
    ensures Solo(After(s, run)) && UpToDate(s, run) && Undisturbed(s, run)
  {
    hide Apply, Punctual, Prompt, LockDue, Solo, Passes, TimesIncrease;
    if run == [] {
      NobodyYet(s);
    } else {
      var n := |run| - 1;
      var before, t := After(s, run[..n]), After(s, run);
      PunctualBefore(s, run);
      SoloHolds(s, run[..n]);
      SoloStep(before, run[n]);
      forall c | c in t.calls && (t.calls[c].phase == Cleared || t.calls[c].phase == Raised)
        ensures BidsAtCheck(s, run, c) == |t.bids|
      {
        UpToDateStep(before, run[n], c, BidsAtCheck(s, run[..n], c));
      }
      forall k | 0 <= k < |run| ensures !Overtaken(s, run, k) {
        if k < n {
          assert run[..n][..k] == run[..k] && !Overtaken(s, run[..n], k);
        }
      }
    }
  }

  lemma NobodyYet(s: State)
    requires Initial(s)
    ensures Solo(s)
  {
  }

  /** With prompt holders at most one call is ever between lock and unlock, nobody stores a bid
      between another call's check and insertion, and so the stored bids rise strictly in creation
      order without two in a row by one user. */
  lemma Exclusion(s: State, run: seq<Action>)
    requires Initial(s) && Punctual(s, run)
    ensures forall c, d :: c in After(s, run).calls && d in After(s, run).calls ==> c == d
    ensures Undisturbed(s, run) && Serial(After(s, run).bids)
  {
    SoloHolds(s, run);
    assert run[..|run|] == run;
    UndisturbedIsSerial(s, run);
  }

  // ----- Bids accepted after the end time

  /** Whoever passed the screening took the lock before the end time. */
  ghost predicate ScreenedEarly(s: State) {
    forall c :: c in s.calls ==>
      && s.calls[c].since <= s.now
      && (s.calls[c].phase.Opened? || s.calls[c].phase == Cleared || s.calls[c].phase == Raised ==>
            s.calls[c].since < s.doc.endTime)
  }

  lemma ScreenedEarlyStep(s: State, a: Action)
    requires ScreenedEarly(s)
    ensures ScreenedEarly(Apply(s, a))
  {
    OnlyRaisesRaise(s, a);
  }

  lemma {:induction false} ScreenedEarlyHolds(s: State, run: seq<Action>)
    requires ScreenedEarly(s)
    ensures ScreenedEarly(After(s, run))
  {
    hide Apply, ScreenedEarly;
    if run != [] {
      ScreenedEarlyHolds(s, run[..|run| - 1]);
      ScreenedEarlyStep(After(s, run[..|run| - 1]), run[|run| - 1]);
    }
  }

  /** The conditional update does not look at the end time. With prompt holders a bid is still
      accepted less than one lock lifetime after it. */
  lemma AcceptedSoonAfterEnd(s: State, run: seq<Action>, k: nat)
    requires Initial(s) && Punctual(s, run)
    requires k < |run| && Raises(After(s, run[..k]), run[k])
    ensures After(s, run[..k]).now < s.doc.endTime + 3000
  {
    var t := After(s, run[..k]);
    assert Prompt(t);
    ScreenedEarlyHolds(s, run[..k]);
    Constants(s, run[..k]);
    assert run[k].c in t.calls;
  }
}
