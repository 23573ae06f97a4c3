/** What bidders and winners may rely on, over whole runs of the await-level protocol. */
module BidSafety {
  import opened Common
  import opened BidOrder
  import opened BidProtocol

  /** The auction as `create` stores it, before any call. */
  ghost predicate Initial(s: State) {
    exists id, users, creator, price, end, now :: s == Fresh(id, users, creator, price, end, now)
  }

  lemma InitialInv(s: State)
    requires Initial(s)
    ensures Inv(s)
  {
  }

  lemma {:induction false} AfterSplit(s: State, first: seq<Action>, rest: seq<Action>)
    ensures After(s, first + rest) == After(After(s, first), rest)
  {
    if rest == [] {
      assert first + rest == first;
    } else {
      assert (first + rest)[..|first + rest| - 1] == first + rest[..|rest| - 1];
      AfterSplit(s, first, rest[..|rest| - 1]);
    }
  }

  lemma AfterOne(s: State, run: seq<Action>, k: nat)
    requires k < |run|
    ensures After(s, run[..k + 1]) == Apply(After(s, run[..k]), run[k])
  {
    assert run[..k + 1][..k] == run[..k];
  }

  lemma AfterOnly(s: State, a: Action)
    ensures After(s, [a]) == Apply(s, a)
  {
    assert [a][..0] == [];
  }

  // ----- Prices

  /** The price moves only when a conditional update succeeds, and then strictly up. */
  lemma PriceRatchet(s: State, run: seq<Action>, k: nat)
    requires k < |run|
    ensures
      var before, after := After(s, run[..k]), After(s, run[..k + 1]);
      && before.doc.currentPrice <= after.doc.currentPrice
      && (before.doc.currentPrice < after.doc.currentPrice <==> Raises(before, run[k]))
  {
    AfterOne(s, run, k);
    OnlyRaisesRaise(After(s, run[..k]), run[k]);
  }

  /** The call index behind every recorded raise. */
  lemma {:induction false} RaiseHappened(s: State, run: seq<Action>, r: Raise)
    requires s.raises == []
    requires r in After(s, run).raises
    ensures exists k ::
      && 0 <= k < |run| && Raises(After(s, run[..k]), run[k])
      && After(s, run[..k]).calls[run[k].c].user == r.user
      && After(s, run[..k]).calls[run[k].c].amount == r.amount
  {
    if run != [] {
      var n := |run| - 1;
      var before := After(s, run[..n]);
      OnlyRaisesRaise(before, run[n]);
      if r in before.raises {
        RaiseHappened(s, run[..n], r);
        var k :| 0 <= k < n && Raises(After(s, run[..n][..k]), run[..n][k])
                 && After(s, run[..n][..k]).calls[run[..n][k].c].user == r.user
                 && After(s, run[..n][..k]).calls[run[..n][k].c].amount == r.amount;
        assert run[..n][..k] == run[..k];
      }
    }
  }

  ghost predicate PriceIsMaximum(t: State) {
    && t.doc.startingPrice <= t.doc.currentPrice
    && (forall r :: r in t.raises ==> r.amount <= t.doc.currentPrice)
    && (if t.raises == [] then t.doc.currentPrice == t.doc.startingPrice && t.doc.highestBidder == None
        else exists r :: r in t.raises && r.amount == t.doc.currentPrice && t.doc.highestBidder == Some(r.user))
  }

  ghost predicate StoredAmountsDistinct(t: State) {
    && (forall i, j :: 0 <= i < j < |t.bids| ==> t.bids[i].amount != t.bids[j].amount)
    && (forall b :: b in t.bids ==> b.amount <= t.doc.currentPrice)
  }

  /** The bid of the last successful update, if there was one, is stored. */
  ghost predicate LastRaiseStored(t: State) {
    t.raises != [] ==> IsStored(t.bids, t.raises[|t.raises| - 1].amount)
  }

  /** The document shows the largest stored bid and its bidder, or the starting price and nobody. */
  ghost predicate ShowsTopBid(t: State) {
    if t.bids == [] then t.doc.currentPrice == t.doc.startingPrice && t.doc.highestBidder == None
    else exists b :: b in t.bids && b.amount == t.doc.currentPrice && t.doc.highestBidder == Some(b.userId)
                     && forall x :: x in t.bids && x != b ==> x.amount < b.amount
  }

  /** Whatever happens to the lock, the price is the maximum of the starting price and the
      amounts whose update succeeded, and stored amounts are pairwise distinct. The document shows
      the top stored bid exactly when the last successful update, if any, has had its bid stored;
      so it does once every call past its update has stored its bid. */
  lemma PricesHold(s: State, run: seq<Action>)
    requires Initial(s)
    ensures PriceIsMaximum(After(s, run)) && StoredAmountsDistinct(After(s, run))
    ensures ShowsTopBid(After(s, run)) <==> LastRaiseStored(After(s, run))
    ensures Flights(After(s, run).calls) == map[] && After(s, run).lost == {} ==> ShowsTopBid(After(s, run))
  {
    InitialInv(s);
    InvHolds(s, run);
    PricesIn(After(s, run));
  }

  lemma PricesIn(t: State)
    requires Inv(t)
    ensures PriceIsMaximum(t) && StoredAmountsDistinct(t)
    ensures ShowsTopBid(t) <==> LastRaiseStored(t)
    ensures Flights(t.calls) == map[] && t.lost == {} ==> ShowsTopBid(t)
  {
    StoredBelowPrice(t);
    if t.raises != [] {
      assert t.raises[|t.raises| - 1] in t.raises;
    }
    if Flights(t.calls) == map[] && t.lost == {} {
      assert LastRaiseStored(t);
    }
    if t.raises == [] {
      assert forall b :: b !in t.bids;
      FirstIsMember(t.bids);
    } else if IsStored(t.bids, t.doc.currentPrice) {
      LastIsTop(t);
    }
  }

  lemma LastIsTop(t: State)
    requires Climbs(t) && Accounts(t) && t.raises != [] && IsStored(t.bids, t.doc.currentPrice)
    ensures ShowsTopBid(t)
  {
    var r := t.raises[|t.raises| - 1];
    var b :| b in t.bids && b.amount == r.amount;
    assert Raise(b.userId, b.amount) in t.raises;
    forall x | x in t.bids && x != b ensures x.amount < b.amount {
      assert Raise(x.userId, x.amount) in t.raises;
    }
  }

  lemma StoredBelowPrice(s: State)
    requires Inv(s)
    ensures forall b :: b in s.bids ==> b.amount <= s.doc.currentPrice
  {
    forall b | b in s.bids ensures b.amount <= s.doc.currentPrice {
      assert Raise(b.userId, b.amount) in s.raises;
    }
  }

  lemma {:induction false} Constants(s: State, run: seq<Action>)
    ensures
      var t := After(s, run);
      t.doc.createdBy == s.doc.createdBy && t.doc.startingPrice == s.doc.startingPrice && t.doc.endTime == s.doc.endTime
  {
    if run != [] {
      Constants(s, run[..|run| - 1]);
      OnlyRaisesRaise(After(s, run[..|run| - 1]), run[|run| - 1]);
    }
  }

  // ----- Ending

  /** An auction that has left ACTIVE stays out, and its price and highest bidder are final. */
  lemma {:induction false} EndIsFinal(s: State, first: seq<Action>, rest: seq<Action>)
    requires After(s, first).doc.status != ACTIVE
    ensures
      var t, u := After(s, first), After(s, first + rest);
      && u.doc.status != ACTIVE && u.raises == t.raises
      && u.doc.currentPrice == t.doc.currentPrice && u.doc.highestBidder == t.doc.highestBidder
  {
    hide Apply;
    if rest == [] {
      assert first + rest == first;
    } else {
      var n := |rest| - 1;
      EndIsFinal(s, first, rest[..n]);
      assert (first + rest)[..|first + rest| - 1] == first + rest[..n];
      EndStep(After(s, first + rest[..n]), rest[n]);
    }
  }

  lemma EndStep(s: State, a: Action)
    requires s.doc.status != ACTIVE
    ensures
      var t := Apply(s, a);
      && t.doc.status != ACTIVE && t.raises == s.raises
      && t.doc.currentPrice == s.doc.currentPrice && t.doc.highestBidder == s.doc.highestBidder
  {
  }

  /** A stored winner is somebody other than the creator whose own update on this auction
      succeeded earlier in the run. */
  lemma WinnerEarnedIt(s: State, run: seq<Action>)
    requires Initial(s) && After(s, run).doc.winner.Some?
    ensures After(s, run).doc.winner.value != s.doc.createdBy
    ensures exists k ::
      && 0 <= k < |run| && Raises(After(s, run[..k]), run[k])
      && After(s, run[..k]).calls[run[k].c].user == After(s, run).doc.winner.value
  {
    InitialInv(s);
    InvHolds(s, run);
    Constants(s, run);
    var t := After(s, run);
    var r :| r in t.raises && r.user == t.doc.winner.value;
    RaiseHappened(s, run, r);
  }

  /** An ACTIVE auction has no winner, so neither has any snapshot whose save will end it. */
  ghost predicate NoEarlyWinner(s: State) {
    && (s.doc.status == ACTIVE ==> s.doc.winner == None)
    && (forall p :: p in s.saves && s.saves[p].EndSave? ==> s.saves[p].snap.winner == None)
    && (forall c :: c in s.calls && s.calls[c].phase.Expiring? ==> s.calls[c].phase.snap.winner == None)
  }

  lemma {:induction false} NoEarlyWinnerHolds(s: State, run: seq<Action>)
    requires NoEarlyWinner(s)
    ensures NoEarlyWinner(After(s, run))
  {
    if run != [] {
      NoEarlyWinnerHolds(s, run[..|run| - 1]);
      NoEarlyWinnerStep(After(s, run[..|run| - 1]), run[|run| - 1]);
    }
  }

  lemma NoEarlyWinnerStep(s: State, a: Action)
    requires NoEarlyWinner(s)
    ensures NoEarlyWinner(Apply(s, a))
  {
    match a
    case ReadAuction(c) =>
    case SaveEnd(p) =>
    case SaveExpired(c) =>
    case _ =>
  }
}
