/**
 `placeBid`, `endAuction` and `cancelAuction` on one auction, split at their awaits.

 Any number of calls interleave. The lock may vanish at any moment, whether it expires or a
 call that outlived its own lock deletes a later one. A document save writes only the fields
 whose value differs from the one the call had read.
 */
module BidProtocol {
  import opened Common
  import opened BidOrder

  const LOCK_MS: Time := 3000

  /** The fields of an auction document that these calls read or write. */
  datatype Doc = Doc(
    createdBy: UserId, startingPrice: real, endTime: Time,
    currentPrice: real, status: Status,
    highestBidder: Option<UserId>, winner: Option<UserId>)

  /** Where a `placeBid` call stands between taking the lock and deleting it. */
  datatype Phase =
    | Entered               // holds the lock and has read nothing
    | Expiring(snap: Doc)   // read an ACTIVE auction past its end time; its save is due
    | Opened(price: real)   // passed the creator, end time and status checks
    | Cleared               // passed the consecutive-bid and price checks
    | Raised                // its conditional update succeeded; its bid is not stored yet
    | Stored                // its bid is stored; the user's set is not extended yet
    | Leaving               // in the finally block

  datatype Call = Call(user: UserId, amount: real, since: Time, phase: Phase)

  /** A save that has been decided on a snapshot but not written yet. */
  datatype Save = EndSave(snap: Doc) | CancelSave(snap: Doc)

  /** A successful conditional update. */
  datatype Raise = Raise(user: UserId, amount: real)

  /** One auction, `id`, of a database with the given `users`, and how far the calls have come.
      `raises` and `lost` only record history: the successful conditional updates in order, and
      the amounts of those whose call died before storing its bid. */
  datatype State = State(
    id: AuctionId, users: set<UserId>,
    now: Time, doc: Doc, lock: Option<Time>,
    calls: map<nat, Call>, saves: map<nat, Save>,
    bids: seq<Bid>, joined: set<UserId>,
    raises: seq<Raise>, lost: set<real>)

  datatype Action =
    | Acquire(c: nat, user: UserId, amount: real)
    | ReadAuction(c: nat)
    | SaveExpired(c: nat)
    | ReadLatest(c: nat, latest: Option<Bid>)
    | ConditionalUpdate(c: nat)
    | InsertBid(c: nat, createdAt: Time)
    | JoinUser(c: nat)
    | Release(c: nat)
    | Fail(c: nat)          // an await rejects, so the finally block is next
    | Crash(c: nat)         // the process dies inside the call
    | LoseLock
    | Tick(ms: nat)
    | ReadToEnd(p: nat)
    | SaveEnd(p: nat)
    | ReadToCancel(p: nat, actor: UserId)
    | SaveCancel(p: nat)
    | Sweep

  function Fresh(id: AuctionId, users: set<UserId>, createdBy: UserId, startingPrice: real, endTime: Time, now: Time)
    : State
  {
    State(id, users, now, Doc(createdBy, startingPrice, endTime, startingPrice, ACTIVE, None, None),
          None, map[], map[], [], {}, [], {})
  }

  /** The answer of `findOne().sort({ createdAt: -1 })`; ties are broken arbitrarily. */
  ghost predicate IsLatest(bids: seq<Bid>, latest: Option<Bid>) {
    match latest
    case None => bids == []
    case Some(b) => b in bids && forall x :: x in bids ==> x.createdAt <= b.createdAt
  }

  /** `winner = highestBidder; save()` writes the winner only if the assignment changed it. */
  function SaveEnded(doc: Doc, snap: Doc): Doc {
    doc.(status := ENDED, winner := if snap.highestBidder != snap.winner then snap.highestBidder else doc.winner)
  }

  function SaveCancelled(doc: Doc, snap: Doc): Doc {
    doc.(status := CANCELLED, winner := if snap.winner != None then None else doc.winner)
  }

  function Move(s: State, c: nat, phase: Phase): State
    requires c in s.calls
  {
    s.(calls := s.calls[c := s.calls[c].(phase := phase)])
  }

  function AtPhase(s: State, c: nat): Option<Phase> {
    if c in s.calls then Some(s.calls[c].phase) else None
  }

  /** The creator, end time and status checks on the auction just read. */
  function Screen(s: State, user: UserId): Phase {
    if s.doc.createdBy == user then Leaving
    else if s.doc.endTime <= s.now then (if s.doc.status == ACTIVE then Expiring(s.doc) else Leaving)
    else if s.doc.status != ACTIVE then Leaving
    else Opened(s.doc.currentPrice)
  }

  /** `$addToSet` on the bidder's document, if there is one. */
  function Joined(s: State, user: UserId): set<UserId> {
    s.joined + if user in s.users then {user} else {}
  }

  /** A call that leaves between its update and its insertion takes its bid with it. */
  function Abandon(s: State, c: nat): set<real>
    requires c in s.calls
  {
    if s.calls[c].phase == Raised then s.lost + {s.calls[c].amount} else s.lost
  }

  /** One atomic step; an action that is not enabled changes nothing. */
  ghost function Apply(s: State, a: Action): State {
    match a
    case Acquire(c, user, amount) =>
      if c in s.calls || s.lock != None then s
      else s.(lock := Some(s.now + LOCK_MS), calls := s.calls[c := Call(user, amount, s.now, Entered)])
    case ReadAuction(c) =>
      if AtPhase(s, c) == Some(Entered) then Move(s, c, Screen(s, s.calls[c].user)) else s
    case SaveExpired(c) =>
      (match AtPhase(s, c)
       case Some(Expiring(snap)) => Move(s, c, Leaving).(doc := SaveEnded(s.doc, snap))
       case _ => s)
    case ReadLatest(c, latest) =>
      (match AtPhase(s, c)
       case Some(Opened(price)) =>
         if !IsLatest(s.bids, latest) then s
         else if latest.Some? && latest.value.userId == s.calls[c].user then Move(s, c, Leaving)
         else if s.calls[c].amount <= price then Move(s, c, Leaving)
         else Move(s, c, Cleared)
       case _ => s)
    case ConditionalUpdate(c) =>
      if AtPhase(s, c) != Some(Cleared) then s
      else if s.doc.status == ACTIVE && s.doc.currentPrice < s.calls[c].amount then
        var call := s.calls[c];
        Move(s, c, Raised).(
          doc := s.doc.(currentPrice := call.amount, highestBidder := Some(call.user)),
          raises := s.raises + [Raise(call.user, call.amount)])
      else Move(s, c, Leaving)
    case InsertBid(c, createdAt) =>
      if AtPhase(s, c) != Some(Raised) then s
      else Move(s, c, Stored).(bids := s.bids + [Bid(s.id, s.calls[c].user, s.calls[c].amount, createdAt)])
    case JoinUser(c) =>
      if AtPhase(s, c) != Some(Stored) then s
      else Move(s, c, Leaving).(joined := Joined(s, s.calls[c].user))
    case Release(c) =>
      if AtPhase(s, c) != Some(Leaving) then s else s.(lock := None, calls := s.calls - {c})
    case Fail(c) =>
      if c !in s.calls then s else Move(s, c, Leaving).(lost := Abandon(s, c))
    case Crash(c) =>
      if c !in s.calls then s else s.(calls := s.calls - {c}, lost := Abandon(s, c))
    case LoseLock => s.(lock := None)
    case Tick(ms) => s.(now := s.now + ms)
    case ReadToEnd(p) =>
      if p in s.saves || s.doc.status != ACTIVE then s else s.(saves := s.saves[p := EndSave(s.doc)])
    case SaveEnd(p) =>
      if p in s.saves && s.saves[p].EndSave?
      then s.(doc := SaveEnded(s.doc, s.saves[p].snap), saves := s.saves - {p}) else s
    case ReadToCancel(p, actor) =>
      if p in s.saves || s.doc.createdBy != actor || s.doc.status == CANCELLED then s
      else s.(saves := s.saves[p := CancelSave(s.doc)])
    case SaveCancel(p) =>
      if p in s.saves && s.saves[p].CancelSave?
      then s.(doc := SaveCancelled(s.doc, s.saves[p].snap), saves := s.saves - {p}) else s
    case Sweep =>
      if s.doc.status == ACTIVE && s.doc.endTime <= s.now then s.(doc := s.doc.(status := ENDED)) else s
  }

  /** The state after a run. */
  ghost function After(s: State, run: seq<Action>): State {
    if run == [] then s else Apply(After(s, run[..|run| - 1]), run[|run| - 1])
  }

  // ----- What every interleaving keeps

  /** The calls whose update succeeded and whose bid is still to be stored. */
  ghost function Flights(calls: map<nat, Call>): map<nat, Raise> {
    map c | c in calls && calls[c].phase == Raised :: Raise(calls[c].user, calls[c].amount)
  }

  ghost predicate IsStored(bids: seq<Bid>, amount: real) {
    exists b :: b in bids && b.amount == amount
  }

  ghost predicate IsFlying(flights: map<nat, Raise>, amount: real) {
    exists c :: c in flights && flights[c].amount == amount
  }

  ghost predicate HasRaised(user: UserId, raises: seq<Raise>) {
    exists r :: r in raises && r.user == user
  }

  /** The price ladder: successful updates strictly rise above the starting price and never come
      from the creator, and the document shows the last one. */
  ghost predicate Ladder(start: real, creator: UserId, price: real, top: Option<UserId>, raises: seq<Raise>) {
    && (forall i, j :: 0 <= i < j < |raises| ==> raises[i].amount < raises[j].amount)
    && (forall r :: r in raises ==> start < r.amount && r.user != creator)
    && price == (if raises == [] then start else raises[|raises| - 1].amount)
    && top == (if raises == [] then None else Some(raises[|raises| - 1].user))
  }

  /** The ledger: stored bids, bids in flight and lost bids make up the successful updates, and no
      amount is stored, or about to be stored, twice. */
  ghost predicate Ledger(bids: seq<Bid>, raises: seq<Raise>, lost: set<real>, flights: map<nat, Raise>) {
    && (forall b :: b in bids ==> Raise(b.userId, b.amount) in raises)
    && (forall i, j :: 0 <= i < j < |bids| ==> bids[i].amount != bids[j].amount)
    && (forall c :: c in flights ==> flights[c] in raises && !IsStored(bids, flights[c].amount))
    && (forall c, d :: c in flights && d in flights && c != d ==> flights[c].amount != flights[d].amount)
    && (forall r :: r in raises ==>
         IsStored(bids, r.amount) || r.amount in lost || IsFlying(flights, r.amount))
  }

  ghost predicate NameOk(name: Option<UserId>, raises: seq<Raise>) {
    name.Some? ==> HasRaised(name.value, raises)
  }

  ghost predicate DocOk(doc: Doc, raises: seq<Raise>) {
    NameOk(doc.highestBidder, raises) && NameOk(doc.winner, raises)
  }

  ghost predicate CallOk(call: Call, creator: UserId, raises: seq<Raise>) {
    match call.phase
    case Expiring(snap) => DocOk(snap, raises)
    case Opened(_) => call.user != creator
    case Cleared => call.user != creator
    case _ => true
  }

  /** Every name a document or a snapshot carries has raised the price, and no call past its
      screening is the creator's. */
  ghost predicate Names(s: State) {
    && DocOk(s.doc, s.raises)
    && (forall p :: p in s.saves ==> DocOk(s.saves[p].snap, s.raises))
    && (forall c :: c in s.calls ==> CallOk(s.calls[c], s.doc.createdBy, s.raises))
  }

  ghost predicate Climbs(s: State) {
    Ladder(s.doc.startingPrice, s.doc.createdBy, s.doc.currentPrice, s.doc.highestBidder, s.raises)
  }

  ghost predicate Accounts(s: State) {
    Ledger(s.bids, s.raises, s.lost, Flights(s.calls))
  }

  ghost predicate Inv(s: State) {
    Climbs(s) && Accounts(s) && Names(s)
  }

  /** The conditional update finds its document. */
  ghost predicate Raises(s: State, a: Action) {
    && a.ConditionalUpdate? && AtPhase(s, a.c) == Some(Cleared)
    && s.doc.status == ACTIVE && s.doc.currentPrice < s.calls[a.c].amount
  }

  /** Only a successful conditional update touches price, highest bidder or the history, and
      no step touches what the auction was created with. */
  lemma OnlyRaisesRaise(s: State, a: Action)
    ensures
      var t := Apply(s, a);
      && t.doc.(currentPrice := s.doc.currentPrice, highestBidder := s.doc.highestBidder,
                status := s.doc.status, winner := s.doc.winner) == s.doc
      && if Raises(s, a)
         then && t.doc.currentPrice == s.calls[a.c].amount > s.doc.currentPrice
              && t.doc.highestBidder == Some(s.calls[a.c].user)
              && t.raises == s.raises + [Raise(s.calls[a.c].user, s.calls[a.c].amount)]
         else && t.doc.currentPrice == s.doc.currentPrice
              && t.doc.highestBidder == s.doc.highestBidder
              && t.raises == s.raises
  {
  }

  lemma ClimbsStep(s: State, a: Action)
    requires Climbs(s) && Names(s)
    ensures Climbs(Apply(s, a))
  {
    OnlyRaisesRaise(s, a);
    if Raises(s, a) {
      assert CallOk(s.calls[a.c], s.doc.createdBy, s.raises);
      LadderGrows(s.doc.startingPrice, s.doc.createdBy, s.doc.currentPrice, s.doc.highestBidder, s.raises,
                  Raise(s.calls[a.c].user, s.calls[a.c].amount));
    }
  }

  lemma LadderGrows(start: real, creator: UserId, price: real, top: Option<UserId>, raises: seq<Raise>, r: Raise)
    requires Ladder(start, creator, price, top, raises)
    requires price < r.amount && r.user != creator
    ensures Ladder(start, creator, r.amount, Some(r.user), raises + [r])
    ensures forall x :: x in raises ==> x.amount < r.amount
  {
    if raises != [] {
      assert raises[|raises| - 1] in raises;
    }
  }

  lemma FlightsMove(calls: map<nat, Call>, c: nat, call: Call)
    ensures Flights(calls[c := call]) ==
            if call.phase == Raised then Flights(calls)[c := Raise(call.user, call.amount)] else Flights(calls) - {c}
    ensures Flights(calls - {c}) == Flights(calls) - {c}
    ensures c !in Flights(calls) ==> Flights(calls) - {c} == Flights(calls)
  {
  }

  lemma FlightsAre(calls: map<nat, Call>)
    ensures forall c :: c in Flights(calls) <==> c in calls && calls[c].phase == Raised
  {
  }

  /** Which flights a step lets take off, land or crash. */
  lemma FlightsStep(s: State, a: Action)
    ensures
      var t := Apply(s, a);
      if Raises(s, a) then Flights(t.calls) == Flights(s.calls)[a.c := Raise(s.calls[a.c].user, s.calls[a.c].amount)]
      else if (a.InsertBid? && AtPhase(s, a.c) == Some(Raised)) || a.Fail? || a.Crash?
      then Flights(t.calls) == Flights(s.calls) - {a.c}
      else Flights(t.calls) == Flights(s.calls)
  {
    FlightsAre(s.calls);
    hide Flights;
    match a
    case ConditionalUpdate(c) => FlightsPhase(s, c, Leaving); FlightsPhase(s, c, Raised);
    case InsertBid(c, _) => FlightsPhase(s, c, Stored);
    case Fail(c) => FlightsPhase(s, c, Leaving); FlightsMove(s.calls, c, Call(0, 0.0, 0, Leaving));
    case Crash(c) => FlightsMove(s.calls, c, Call(0, 0.0, 0, Leaving));
    case _ => FlightsCalm(s, a); hide Apply;
  }

  lemma FlightsCalm(s: State, a: Action)
    requires !a.ConditionalUpdate? && !a.InsertBid? && !a.Fail? && !a.Crash?
    ensures Flights(Apply(s, a).calls) == Flights(s.calls)
  {
    FlightsAre(s.calls);
    hide Flights;
    match a
    case Acquire(c, user, amount) => FlightsMove(s.calls, c, Call(user, amount, s.now, Entered));
    case ReadAuction(c) => FlightsPhase(s, c, if c in s.calls then Screen(s, s.calls[c].user) else Leaving);
    case SaveExpired(c) => FlightsPhase(s, c, Leaving);
    case ReadLatest(c, _) => FlightsPhase(s, c, Leaving); FlightsPhase(s, c, Cleared);
    case JoinUser(c) => FlightsPhase(s, c, Leaving);
    case Release(c) => FlightsMove(s.calls, c, Call(0, 0.0, 0, Leaving));
    case _ =>
  }

  lemma FlightsPhase(s: State, c: nat, phase: Phase)
    ensures c in s.calls ==>
      Flights(Move(s, c, phase).calls) ==
        (if phase == Raised then Flights(s.calls)[c := Raise(s.calls[c].user, s.calls[c].amount)]
         else if c in Flights(s.calls) then Flights(s.calls) - {c} else Flights(s.calls))
  {
    if c in s.calls {
      FlightsMove(s.calls, c, s.calls[c].(phase := phase));
    }
  }

  lemma AccountsStep(s: State, a: Action)
    requires Inv(s)
    ensures Accounts(Apply(s, a))
  {
    var flights := Flights(s.calls);
    FlightsStep(s, a);
    OnlyRaisesRaise(s, a);
    if Raises(s, a) {
      AccountsRaised(s, a.c);
    } else if a.InsertBid? && AtPhase(s, a.c) == Some(Raised) {
      LedgerStored(s.bids, s.raises, s.lost, flights, a.c, s.id, a.createdAt);
    } else if a.Fail? || a.Crash? {
      LedgerLost(s.bids, s.raises, s.lost, flights, a.c);
    }
  }

  lemma AccountsRaised(s: State, c: nat)
    requires Inv(s) && Raises(s, ConditionalUpdate(c))
    ensures Ledger(s.bids, s.raises + [Raise(s.calls[c].user, s.calls[c].amount)], s.lost,
                   Flights(s.calls)[c := Raise(s.calls[c].user, s.calls[c].amount)])
  {
    var r := Raise(s.calls[c].user, s.calls[c].amount);
    assert CallOk(s.calls[c], s.doc.createdBy, s.raises);
    LadderGrows(s.doc.startingPrice, s.doc.createdBy, s.doc.currentPrice, s.doc.highestBidder, s.raises, r);
    LedgerRaised(s.bids, s.raises, s.lost, Flights(s.calls), c, r);
  }

  lemma LedgerRaised(bids: seq<Bid>, raises: seq<Raise>, lost: set<real>, flights: map<nat, Raise>, c: nat, r: Raise)
    requires Ledger(bids, raises, lost, flights) && c !in flights
    requires forall x :: x in raises ==> x.amount < r.amount
    ensures Ledger(bids, raises + [r], lost, flights[c := r])
  {
    var flights' := flights[c := r];
    assert !IsStored(bids, r.amount);
    forall x | x in raises + [r] ensures IsStored(bids, x.amount) || x.amount in lost || IsFlying(flights', x.amount) {
      if x in raises && IsFlying(flights, x.amount) {
        var d :| d in flights && flights[d].amount == x.amount;
        assert d in flights' && flights'[d] == flights[d];
      } else if x == r {
        assert flights'[c] == r;
      }
    }
  }

  lemma LedgerStored(bids: seq<Bid>, raises: seq<Raise>, lost: set<real>, flights: map<nat, Raise>, c: nat,
      id: AuctionId, at: Time)
    requires Ledger(bids, raises, lost, flights) && c in flights
    ensures Ledger(bids + [Bid(id, flights[c].user, flights[c].amount, at)], raises, lost, flights - {c})
  {
    var b := Bid(id, flights[c].user, flights[c].amount, at);
    var bids' := bids + [b];
    assert b in bids';
    assert forall i :: 0 <= i < |bids| ==> bids[i] in bids;
    assert forall x :: x in bids ==> x in bids';
    forall d | d in flights - {c} ensures !IsStored(bids', flights[d].amount) {
      assert d in flights && flights[d].amount != flights[c].amount;
    }
    forall x | x in raises ensures IsStored(bids', x.amount) || x.amount in lost || IsFlying(flights - {c}, x.amount) {
      if IsFlying(flights, x.amount) && x.amount != b.amount {
        var d :| d in flights && flights[d].amount == x.amount;
        assert d in flights - {c};
      }
    }
  }

  lemma LedgerLost(bids: seq<Bid>, raises: seq<Raise>, lost: set<real>, flights: map<nat, Raise>, c: nat)
    requires Ledger(bids, raises, lost, flights)
    ensures Ledger(bids, raises, if c in flights then lost + {flights[c].amount} else lost, flights - {c})
  {
    if c in flights {
      forall x | x in raises
        ensures IsStored(bids, x.amount) || x.amount in lost + {flights[c].amount} || IsFlying(flights - {c}, x.amount)
      {
        if IsFlying(flights, x.amount) {
          var d :| d in flights && flights[d].amount == x.amount;
          if d != c {
            assert d in flights - {c};
          }
        }
      }
    } else {
      assert flights - {c} == flights;
    }
  }

  lemma HasRaisedStays(raises: seq<Raise>, r: Raise)
    ensures forall u :: HasRaised(u, raises) ==> HasRaised(u, raises + [r])
    ensures HasRaised(r.user, raises + [r])
  {
    assert r in raises + [r];
    assert forall x :: x in raises ==> x in raises + [r];
  }

  lemma NamesStep(s: State, a: Action)
    requires Climbs(s) && Names(s)
    ensures Names(Apply(s, a))
  {
    var t := Apply(s, a);
    OnlyRaisesRaise(s, a);
    if Raises(s, a) {
      HasRaisedStays(s.raises, Raise(s.calls[a.c].user, s.calls[a.c].amount));
    }
    match a
    case ReadAuction(c) =>
    case SaveExpired(c) =>
      if c in s.calls {
        assert CallOk(s.calls[c], s.doc.createdBy, s.raises);
      }
    case ReadLatest(c, latest) =>
    case ConditionalUpdate(c) =>
    case SaveEnd(p) =>
    case SaveCancel(p) =>
    case _ =>
  }

  lemma {:induction false} InvHolds(s: State, run: seq<Action>)
    requires Inv(s)
    ensures Inv(After(s, run))
  {
    if run != [] {
      var before := After(s, run[..|run| - 1]);
      InvHolds(s, run[..|run| - 1]);
      ClimbsStep(before, run[|run| - 1]);
      AccountsStep(before, run[|run| - 1]);
      NamesStep(before, run[|run| - 1]);
    }
  }
}
