/** Runs of the await-level protocol in which an expected property fails. */
module BidWitnesses {
  import opened Common
  import opened BidOrder
  import opened BidProtocol
  import opened BidSafety
  import opened BidEndings
  import opened BidExclusion

  lemma Extend(s: State, run: seq<Action>, t: State, a: Action) returns (longer: seq<Action>)
    requires After(s, run) == t
    ensures longer == run + [a] && After(s, longer) == Apply(t, a)
  {
    longer := run + [a];
    assert longer[..|longer| - 1] == run;
  }

  lemma AfterNothing(s: State)
    ensures After(s, []) == s
  {
  }

  /** A step of `endAuction` or of a sweep. */
  predicate IsEnd(a: Action) {
    a.ReadToEnd? || a.SaveEnd? || a.Sweep?
  }

  predicate OnlyBids(run: seq<Action>) {
    forall a :: a in run ==> !IsEnd(a)
  }

  /** A call takes the lock and passes every check. */
  lemma Prepare(s: State, run: seq<Action>, t: State, c: nat, user: UserId, amount: real, latest: Option<Bid>)
    returns (longer: seq<Action>)
    requires After(s, run) == t && t.lock == None && c !in t.calls
    requires user != t.doc.createdBy && t.now < t.doc.endTime && t.doc.status == ACTIVE
    requires IsLatest(t.bids, latest) && (latest.Some? ==> latest.value.userId != user)
    requires t.doc.currentPrice < amount
    ensures After(s, longer) ==
            t.(lock := Some(t.now + LOCK_MS), calls := t.calls[c := Call(user, amount, t.now, Cleared)])
    ensures OnlyBids(run) ==> OnlyBids(longer)
  {
    hide After;
    longer := Extend(s, run, t, Acquire(c, user, amount));
    var t1 := After(s, longer);
    assert t1.calls[c] == Call(user, amount, t.now, Entered);
    longer := Extend(s, longer, t1, ReadAuction(c));
    var t2 := After(s, longer);
    assert t2 == Move(t1, c, Opened(t.doc.currentPrice));
    longer := Extend(s, longer, t2, ReadLatest(c, latest));
  }

  /** A call past its checks raises the price and stores its bid. */
  lemma Complete(s: State, run: seq<Action>, t: State, c: nat, at: Time) returns (longer: seq<Action>)
    requires After(s, run) == t
    requires Raises(t, ConditionalUpdate(c))
    ensures
      var call := t.calls[c];
      After(s, longer) == t.(
        doc := t.doc.(currentPrice := call.amount, highestBidder := Some(call.user)),
        raises := t.raises + [Raise(call.user, call.amount)],
        bids := t.bids + [Bid(t.id, call.user, call.amount, at)],
        calls := t.calls[c := call.(phase := Stored)])
    ensures OnlyBids(run) ==> OnlyBids(longer)
  {
    hide After;
    longer := Extend(s, run, t, ConditionalUpdate(c));
    longer := Extend(s, longer, After(s, longer), InsertBid(c, at));
  }

  /** A whole bid, up to its insertion. */
  lemma PlaceOne(s: State, run: seq<Action>, t: State, c: nat, user: UserId, amount: real, latest: Option<Bid>, at: Time)
    returns (longer: seq<Action>)
    requires After(s, run) == t && t.lock == None && c !in t.calls
    requires user != t.doc.createdBy && t.now < t.doc.endTime && t.doc.status == ACTIVE
    requires IsLatest(t.bids, latest) && (latest.Some? ==> latest.value.userId != user)
    requires t.doc.currentPrice < amount
    ensures After(s, longer) == t.(
      lock := Some(t.now + LOCK_MS), calls := t.calls[c := Call(user, amount, t.now, Stored)],
      doc := t.doc.(currentPrice := amount, highestBidder := Some(user)),
      raises := t.raises + [Raise(user, amount)], bids := t.bids + [Bid(t.id, user, amount, at)])
    ensures OnlyBids(run) ==> OnlyBids(longer)
  {
    hide After, Apply;
    longer := Prepare(s, run, t, c, user, amount, latest);
    longer := Complete(s, longer, After(s, longer), c, at);
    assert After(s, longer).calls == t.calls[c := Call(user, amount, t.now, Stored)];
  }

  /** A bid accepted between the read and the save of `endAuction` leaves an ended auction whose
      winner is not its highest bidder. */
  lemma StaleWinner() returns (s: State, run: seq<Action>)
    ensures Initial(s)
    ensures
      var doc := After(s, run).doc;
      doc.status == ENDED && doc.winner == Some(1) && doc.highestBidder == Some(2) && doc.currentPrice == 30.0
  {
    hide After;
    s := Fresh(0, {}, 0, 10.0, 100, 0);
    AfterNothing(s);
    run := PlaceOne(s, [], s, 1, 1, 20.0, None, 5);
    run := ReadAndRelease(s, run, After(s, run), 9);
    var t := After(s, run);
    assert t.bids == [Bid(0, 1, 20.0, 5)] && t.saves[9].EndSave?;
    run := PlaceOne(s, run, t, 2, 2, 30.0, Some(Bid(0, 1, 20.0, 5)), 6);
    run := Extend(s, run, After(s, run), SaveEnd(9));
  }

  /** The lock goes, and `endAuction` reads an active auction. */
  lemma ReadAndRelease(s: State, run: seq<Action>, t: State, p: nat) returns (longer: seq<Action>)
    requires After(s, run) == t && p !in t.saves && t.doc.status == ACTIVE
    ensures After(s, longer) == t.(lock := None, saves := t.saves[p := EndSave(t.doc)])
  {
    hide After;
    longer := Extend(s, run, t, LoseLock);
    longer := Extend(s, longer, After(s, longer), ReadToEnd(p));
  }

  /** `cancelAuction` has the mirror problem: reading before the end is saved, it does not know
      that there is a winner to remove. */
  lemma CancelledWithWinner() returns (s: State, run: seq<Action>)
    ensures Initial(s)
    ensures After(s, run).doc.status == CANCELLED && After(s, run).doc.winner == Some(1)
  {
    hide After;
    s := Fresh(0, {}, 0, 10.0, 100, 0);
    AfterNothing(s);
    run := PlaceOne(s, [], s, 1, 1, 20.0, None, 5);
    run := ReadAndRelease(s, run, After(s, run), 8);
    run := Extend(s, run, After(s, run), ReadToCancel(9, 0));
    var t := After(s, run);
    assert t.saves[9] == CancelSave(t.doc) && t.saves[8] == EndSave(t.doc);
    run := EndThenCancel(s, run, t, 8, 9);
  }

  lemma EndThenCancel(s: State, run: seq<Action>, t: State, p: nat, q: nat) returns (longer: seq<Action>)
    requires After(s, run) == t && p in t.saves && q in t.saves && p != q
    requires t.saves[p].EndSave? && t.saves[q].CancelSave?
    ensures After(s, longer).doc == SaveCancelled(SaveEnded(t.doc, t.saves[p].snap), t.saves[q].snap)
  {
    hide After;
    longer := Extend(s, run, t, SaveEnd(p));
    longer := Extend(s, longer, After(s, longer), SaveCancel(q));
  }

  /** The lock is lost while its holder still works. */
  lemma Outlive(s: State, run: seq<Action>, t: State, ms: nat) returns (longer: seq<Action>)
    requires After(s, run) == t
    ensures After(s, longer) == t.(now := t.now + ms, lock := None)
    ensures OnlyBids(run) ==> OnlyBids(longer)
  {
    hide After;
    longer := Extend(s, run, t, Tick(ms));
    longer := Extend(s, longer, After(s, longer), LoseLock);
  }

  /** A holder that outlives its lock lets a user outbid themselves. */
  lemma SlowHolderBreaksTheRules() returns (s: State, run: seq<Action>)
    ensures Initial(s) && TimesIncrease(After(s, run).bids)
    ensures !Serial(After(s, run).bids)
  {
    hide After;
    s := Fresh(0, {}, 0, 10.0, 100000, 0);
    AfterNothing(s);
    run := Prepare(s, [], s, 1, 1, 20.0, None);
    run := Outlive(s, run, After(s, run), LOCK_MS);
    run := Prepare(s, run, After(s, run), 2, 1, 30.0, None);
    var t := After(s, run);
    assert t.calls[1] == Call(1, 20.0, 0, Cleared) && t.calls[2] == Call(1, 30.0, LOCK_MS, Cleared);
    run := CompleteBoth(s, run, t, 1, 2);
    var bids := After(s, run).bids;
    assert bids[0].userId == bids[1].userId;
  }

  lemma CompleteBoth(s: State, run: seq<Action>, t: State, c: nat, d: nat) returns (longer: seq<Action>)
    requires After(s, run) == t && c != d && t.bids == []
    requires Raises(t, ConditionalUpdate(c)) && AtPhase(t, d) == Some(Cleared)
    requires t.calls[c].amount < t.calls[d].amount
    ensures After(s, longer).bids ==
            [Bid(t.id, t.calls[c].user, t.calls[c].amount, 3001), Bid(t.id, t.calls[d].user, t.calls[d].amount, 3002)]
  {
    hide After, Apply;
    longer := Complete(s, run, t, c, 3001);
    longer := Complete(s, longer, After(s, longer), d, 3002);
  }

  /** `endAuction` and then the creator's `cancelAuction` read an active auction. */
  lemma BothRead(s: State, run: seq<Action>, t: State, p: nat, q: nat) returns (longer: seq<Action>)
    requires After(s, run) == t && t.saves == map[] && p != q && t.doc.status == ACTIVE
    ensures After(s, longer) == t.(saves := map[p := EndSave(t.doc), q := CancelSave(t.doc)])
  {
    hide After;
    longer := Extend(s, run, t, ReadToEnd(p));
    var t1 := After(s, longer);
    assert t1 == t.(saves := map[p := EndSave(t.doc)]);
    longer := Extend(s, longer, t1, ReadToCancel(q, t.doc.createdBy));
    assert After(s, longer).saves == t1.saves[q := CancelSave(t.doc)];
  }

  /** A cancellation is undone by an end that was read before it. */
  lemma CancelUndone() returns (s: State, first: seq<Action>, run: seq<Action>)
    ensures Initial(s) && first <= run
    ensures After(s, first).doc.status == CANCELLED && After(s, run).doc.status == ENDED
  {
    hide After;
    s := Fresh(0, {}, 0, 10.0, 100, 0);
    AfterNothing(s);
    first := BothRead(s, [], s, 1, 2);
    var t := After(s, first);
    first := Extend(s, first, t, SaveCancel(2));
    assert After(s, first).saves == map[1 := EndSave(s.doc)];
    run := Extend(s, first, After(s, first), SaveEnd(1));
  }

  /** A call on an auction past its end time reads it, which makes its save due. */
  lemma ReadLate(s: State, run: seq<Action>, t: State, c: nat, user: UserId, amount: real) returns (longer: seq<Action>)
    requires After(s, run) == t && t.lock == None && c !in t.calls
    requires user != t.doc.createdBy && t.doc.endTime <= t.now && t.doc.status == ACTIVE
    ensures After(s, longer) ==
            t.(lock := Some(t.now + LOCK_MS), calls := t.calls[c := Call(user, amount, t.now, Expiring(t.doc))])
    ensures OnlyBids(run) ==> OnlyBids(longer)
  {
    hide After;
    longer := Extend(s, run, t, Acquire(c, user, amount));
    var t1 := After(s, longer);
    assert t1.calls[c] == Call(user, amount, t.now, Entered);
    longer := Extend(s, longer, t1, ReadAuction(c));
    assert After(s, longer).calls == t.calls[c := Call(user, amount, t.now, Expiring(t.doc))];
  }

  /** The bid of `c` is accepted, and then the end that `d` had read is saved. */
  lemma RaiseThenExpire(s: State, run: seq<Action>, t: State, c: nat, d: nat, snap: Doc) returns (longer: seq<Action>)
    requires After(s, run) == t && c != d && Raises(t, ConditionalUpdate(c)) && AtPhase(t, d) == Some(Expiring(snap))
    ensures After(s, longer).doc ==
            SaveEnded(t.doc.(currentPrice := t.calls[c].amount, highestBidder := Some(t.calls[c].user)), snap)
    ensures OnlyBids(run) ==> OnlyBids(longer)
  {
    hide After;
    longer := Extend(s, run, t, ConditionalUpdate(c));
    longer := Extend(s, longer, After(s, longer), SaveExpired(d));
  }

  /** The end that a late bid reads and saves names a user who is outbid in between; no end job and
      no sweep takes part. */
  lemma LateBidNamesStaleWinner() returns (s: State, run: seq<Action>)
    ensures Initial(s) && OnlyBids(run)
    ensures
      var doc := After(s, run).doc;
      doc.status == ENDED && doc.winner == Some(1) && doc.highestBidder == Some(2)
  {
    hide After, Apply;
    s := Fresh(0, {}, 0, 10.0, 100, 0);
    AfterNothing(s);
    run := PlaceOne(s, [], s, 1, 1, 20.0, None, 5);
    run := Outlive(s, run, After(s, run), 1);
    run := Prepare(s, run, After(s, run), 2, 2, 30.0, Some(Bid(0, 1, 20.0, 5)));
    run := Outlive(s, run, After(s, run), 99);
    var t := After(s, run);
    run := ReadLate(s, run, t, 3, 3, 40.0);
    run := RaiseThenExpire(s, run, After(s, run), 2, 3, t.doc);
  }

  /** A call that dies between its update and its insertion leaves a price without a stored bid. */
  lemma LostBid() returns (s: State, run: seq<Action>)
    ensures Initial(s) && After(s, run).bids == [] && After(s, run).calls == map[]
    ensures After(s, run).doc.currentPrice == 20.0 && After(s, run).doc.highestBidder == Some(1)
    ensures !ShowsTopBid(After(s, run))
  {
    hide After;
    s := Fresh(0, {}, 0, 10.0, 100, 0);
    AfterNothing(s);
    run := Prepare(s, [], s, 1, 1, 20.0, None);
    run := RaiseAndDie(s, run, After(s, run), 1);
  }

  lemma RaiseAndDie(s: State, run: seq<Action>, t: State, c: nat) returns (longer: seq<Action>)
    requires After(s, run) == t && Raises(t, ConditionalUpdate(c))
    ensures
      var u := After(s, longer);
      && u.bids == t.bids && u.calls == t.calls - {c}
      && u.doc == t.doc.(currentPrice := t.calls[c].amount, highestBidder := Some(t.calls[c].user))
  {
    hide After;
    longer := Extend(s, run, t, ConditionalUpdate(c));
    longer := Extend(s, longer, After(s, longer), Crash(c));
  }

  lemma StaysPunctual(s: State, run: seq<Action>, a: Action)
    requires Punctual(s, run) && Prompt(Apply(After(s, run), a)) && Apply(After(s, run), a).bids == [] && !a.LoseLock?
    ensures Punctual(s, run + [a])
  {
    hide Apply, Prompt, LockDue;
    var longer := run + [a];
    assert After(s, longer) == Apply(After(s, run), a) by {
      assert longer[..|run|] == run;
    }
    forall k | 0 <= k <= |longer| ensures Prompt(After(s, longer[..k])) && TimesIncrease(After(s, longer[..k]).bids) {
      if k <= |run| {
        assert longer[..k] == run[..k];
      } else {
        assert longer[..k] == longer;
      }
    }
    forall k | 0 <= k < |longer| && longer[k].LoseLock? ensures LockDue(After(s, longer[..k])) {
      assert k < |run| && longer[..k] == run[..k] && longer[k] == run[k];
    }
  }

  lemma PunctualStart(s: State)
    requires s.calls == map[] && s.bids == []
    ensures Punctual(s, [])
  {
    var none: seq<Action> := [];
    assert none[..0] == none;
  }

  lemma ExtendPunctually(s: State, run: seq<Action>, t: State, a: Action) returns (longer: seq<Action>)
    requires After(s, run) == t && Punctual(s, run)
    requires Prompt(Apply(t, a)) && Apply(t, a).bids == [] && !a.LoseLock?
    ensures After(s, longer) == Apply(t, a) && Punctual(s, longer) && longer == run + [a]
  {
    longer := Extend(s, run, t, a);
    StaysPunctual(s, run, a);
  }

  /** A prompt holder, screened in the last moment before the end time, raises the price two
      milliseconds before the bound on late updates. */
  lemma AcceptedAfterEnd() returns (s: State, run: seq<Action>)
    ensures Initial(s) && Punctual(s, run) && Raises(After(s, run), ConditionalUpdate(1))
    ensures After(s, run).now == s.doc.endTime + 2998
  {
    hide After, Punctual;
    s := Fresh(0, {}, 0, 10.0, 1, 0);
    AfterNothing(s);
    PunctualStart(s);
    run := ExtendPunctually(s, [], s, Acquire(1, 1, 20.0));
    var t := s.(lock := Some(LOCK_MS), calls := map[1 := Call(1, 20.0, 0, Entered)]);
    assert After(s, run) == t;
    run := ExtendPunctually(s, run, t, ReadAuction(1));
    run := ExtendPunctually(s, run, Move(t, 1, Opened(10.0)), ReadLatest(1, None));
    run := ExtendPunctually(s, run, Move(t, 1, Cleared), Tick(2999));
  }
}
