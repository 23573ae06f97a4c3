/** Saves decided on old reads: what an end or a cancellation leaves behind, over whole runs. */
module BidEndings {
  import opened Common
  import opened BidOrder
  import opened BidProtocol
  import opened BidSafety

  // ----- Who has a winner

  /** The end of the auction is saved from a read that saw a highest bidder. */
  ghost predicate Crowns(s: State, a: Action) {
    || (a.SaveEnd? && a.p in s.saves && s.saves[a.p].EndSave? && s.saves[a.p].snap.highestBidder.Some?)
    || (a.SaveExpired? && a.c in s.calls && s.calls[a.c].phase.Expiring? && s.calls[a.c].phase.snap.highestBidder.Some?)
  }

  /** A cancellation is saved from a read that saw a winner. */
  ghost predicate Clears(s: State, a: Action) {
    a.SaveCancel? && a.p in s.saves && s.saves[a.p].CancelSave? && s.saves[a.p].snap.winner.Some?
  }

  ghost predicate ClearedFrom(t: State, rest: seq<Action>, k: nat) {
    exists j :: k <= j < |rest| && Clears(After(t, rest[..j]), rest[j])
  }

  /** Along `rest` a winner is saved, and none of the cancellations saved after it knew of one. */
  ghost predicate Crowned(t: State, rest: seq<Action>) {
    exists k :: 0 <= k < |rest| && Crowns(After(t, rest[..k]), rest[k]) && !ClearedFrom(t, rest, k + 1)
  }

  lemma WinnerStep(s: State, a: Action)
    requires NoEarlyWinner(s)
    ensures Apply(s, a).doc.winner.Some? <==> Crowns(s, a) || (s.doc.winner.Some? && !Clears(s, a))
  {
  }

  lemma ClearedMore(t: State, rest: seq<Action>, k: nat)
    requires rest != [] && k < |rest|
    ensures
      var n := |rest| - 1;
      ClearedFrom(t, rest, k) <==> ClearedFrom(t, rest[..n], k) || Clears(After(t, rest[..n]), rest[n])
  {
    hide Clears, After;
    var n := |rest| - 1;
    if ClearedFrom(t, rest, k) {
      var j :| k <= j < |rest| && Clears(After(t, rest[..j]), rest[j]);
      if j < n {
        assert rest[..n][..j] == rest[..j] && rest[..n][j] == rest[j];
      }
    }
    if ClearedFrom(t, rest[..n], k) {
      var j :| k <= j < n && Clears(After(t, rest[..n][..j]), rest[..n][j]);
      assert rest[..n][..j] == rest[..j] && rest[..n][j] == rest[j];
    }
  }

  lemma NothingClearsLater(t: State, rest: seq<Action>)
    ensures !ClearedFrom(t, rest, |rest|)
  {
    hide Clears, After;
  }

  lemma CrownedMore(t: State, rest: seq<Action>)
    requires rest != []
    ensures
      var n := |rest| - 1;
      Crowned(t, rest) <==>
        Crowns(After(t, rest[..n]), rest[n]) || (Crowned(t, rest[..n]) && !Clears(After(t, rest[..n]), rest[n]))
  {
    hide Clears, Crowns, After, ClearedFrom;
    var n := |rest| - 1;
    NothingClearsLater(t, rest);
    if Crowned(t, rest) {
      var k :| 0 <= k < |rest| && Crowns(After(t, rest[..k]), rest[k]) && !ClearedFrom(t, rest, k + 1);
      if k < n {
        CrownedBefore(t, rest, k);
      }
    }
    if Crowned(t, rest[..n]) && !Clears(After(t, rest[..n]), rest[n]) {
      var k :| 0 <= k < n && Crowns(After(t, rest[..n][..k]), rest[..n][k]) && !ClearedFrom(t, rest[..n], k + 1);
      ClearedMore(t, rest, k + 1);
      assert rest[..n][..k] == rest[..k] && rest[..n][k] == rest[k];
    }
  }

  lemma CrownedBefore(t: State, rest: seq<Action>, k: nat)
    requires rest != [] && k < |rest| - 1
    requires Crowns(After(t, rest[..k]), rest[k]) && !ClearedFrom(t, rest, k + 1)
    ensures Crowned(t, rest[..|rest| - 1]) && !Clears(After(t, rest[..|rest| - 1]), rest[|rest| - 1])
  {
    hide Clears, Crowns, After, ClearedFrom;
    var n := |rest| - 1;
    ClearedMore(t, rest, k + 1);
    assert rest[..n][..k] == rest[..k] && rest[..n][k] == rest[k];
  }

  /** A document has a winner exactly when one was saved and not knowingly removed since, or when
      it started with one that was never knowingly removed. */
  lemma {:induction false} WinnerIsCrowned(t: State, rest: seq<Action>)
    requires NoEarlyWinner(t)
    ensures
      After(t, rest).doc.winner.Some? <==> Crowned(t, rest) || (t.doc.winner.Some? && !ClearedFrom(t, rest, 0))
  {
    hide Apply, Crowned, ClearedFrom, NoEarlyWinner, Crowns, Clears;
    if rest == [] {
      NothingHappens(t);
    } else {
      var n := |rest| - 1;
      WinnerIsCrowned(t, rest[..n]);
      NoEarlyWinnerHolds(t, rest[..n]);
      WinnerStep(After(t, rest[..n]), rest[n]);
      CrownedMore(t, rest);
      ClearedMore(t, rest, 0);
    }
  }

  lemma NothingHappens(t: State)
    ensures !Crowned(t, []) && !ClearedFrom(t, [], 0)
  {
  }

  // ----- Who is on top

  /** The user of the last successful update along `rest`. */
  ghost function LastRaiser(t: State, rest: seq<Action>): Option<UserId> {
    if rest == [] then None
    else
      var n := |rest| - 1;
      var before := After(t, rest[..n]);
      if Raises(before, rest[n]) then Some(before.calls[rest[n].c].user) else LastRaiser(t, rest[..n])
  }

  lemma {:induction false} TopIsLastRaiser(t: State, rest: seq<Action>)
    ensures
      After(t, rest).doc.highestBidder ==
        if LastRaiser(t, rest).Some? then LastRaiser(t, rest) else t.doc.highestBidder
  {
    hide Apply, Raises;
    if rest != [] {
      var n := |rest| - 1;
      TopIsLastRaiser(t, rest[..n]);
      OnlyRaisesRaise(After(t, rest[..n]), rest[n]);
    }
  }

  /** The bidder an end names when it is saved. */
  ghost function Named(s: State, a: Action): Option<UserId>
    requires Crowns(s, a)
  {
    if a.SaveEnd? then s.saves[a.p].snap.highestBidder else s.calls[a.c].phase.snap.highestBidder
  }

  /** The user named by the last end saved along `rest`, unless a cancellation saved after it knew of
      a winner. */
  ghost function Crown(t: State, rest: seq<Action>): Option<UserId> {
    if rest == [] then None
    else
      var n := |rest| - 1;
      var before := After(t, rest[..n]);
      if Crowns(before, rest[n]) then Named(before, rest[n])
      else if Clears(before, rest[n]) then None
      else Crown(t, rest[..n])
  }

  lemma CrownStep(s: State, a: Action)
    requires NoEarlyWinner(s)
    ensures Apply(s, a).doc.winner == if Crowns(s, a) then Named(s, a) else if Clears(s, a) then None else s.doc.winner
  {
  }

  lemma {:induction false} WinnerIsCrown(t: State, rest: seq<Action>)
    requires NoEarlyWinner(t) && t.doc.winner == None
    ensures After(t, rest).doc.winner == Crown(t, rest)
  {
    hide Apply, NoEarlyWinner, Crowns, Clears;
    if rest != [] {
      var n := |rest| - 1;
      WinnerIsCrown(t, rest[..n]);
      NoEarlyWinnerHolds(t, rest[..n]);
      CrownStep(After(t, rest[..n]), rest[n]);
    }
  }

  /** In every interleaving the stored winner is the highest bidder exactly when the last end that
      was saved and not knowingly removed names the user of the last successful update. */
  lemma WinnerIsTopExactly(s: State, run: seq<Action>)
    requires Initial(s)
    ensures
      After(s, run).doc.winner == After(s, run).doc.highestBidder <==> Crown(s, run) == LastRaiser(s, run)
  {
    TopIsLastRaiser(s, run);
    WinnerIsCrown(s, run);
  }

  // ----- Ending on an old read

  /** Nobody else has raised the price since `t`, when it had a bidder; when it had none, whoever
      has raised it since is the one another end has named. */
  ghost predicate StaysRight(t: State, rest: seq<Action>) {
    if t.doc.highestBidder.Some? then LastRaiser(t, rest) == None || LastRaiser(t, rest) == t.doc.highestBidder
    else LastRaiser(t, rest) == Crown(t, rest)
  }

  lemma SavedForTop(t: State, rest: seq<Action>)
    requires NoEarlyWinner(t) && t.doc.status == ACTIVE
    ensures
      var doc := SaveEnded(After(t, rest).doc, t.doc);
      doc.status == ENDED && (doc.winner == doc.highestBidder <==> StaysRight(t, rest))
  {
    TopIsLastRaiser(t, rest);
    WinnerIsCrown(t, rest);
    hide After, LastRaiser, Crown;
  }

  /** `endAuction`: read after `first`, saved after `rest` has happened. */
  function Ending(first: seq<Action>, p: nat, rest: seq<Action>): seq<Action> {
    first + ([ReadToEnd(p)] + (rest + [SaveEnd(p)]))
  }

  /** The expiry branch of `placeBid`: read after `first`, saved after `rest` has happened. */
  function ExpiringBid(first: seq<Action>, c: nat, rest: seq<Action>): seq<Action> {
    first + ([ReadAuction(c)] + (rest + [SaveExpired(c)]))
  }

  lemma Bracketed(s: State, first: seq<Action>, a: Action, rest: seq<Action>, b: Action)
    ensures After(s, first + ([a] + (rest + [b]))) == Apply(After(Apply(After(s, first), a), rest), b)
  {
    hide Apply, After;
    var t := After(s, first);
    AfterSplit(s, first, [a] + (rest + [b]));
    AfterSplit(t, [a], rest + [b]);
    AfterSplit(Apply(t, a), rest, [b]);
    AfterOnly(t, a);
    AfterOnly(After(Apply(t, a), rest), b);
  }

  lemma {:induction false} EndPends(t: State, p: nat, rest: seq<Action>)
    requires EndPending(t, p) && SaveEnd(p) !in rest
    ensures EndPending(After(t, rest), p) && After(t, rest).saves[p] == t.saves[p]
  {
    hide Apply;
    if rest != [] {
      var n := |rest| - 1;
      assert forall a :: a in rest[..n] ==> a in rest;
      assert rest[n] in rest;
      EndPends(t, p, rest[..n]);
      EndPendsStep(After(t, rest[..n]), p, rest[n]);
    }
  }

  lemma EndPendsStep(s: State, p: nat, a: Action)
    requires EndPending(s, p) && a != SaveEnd(p)
    ensures EndPending(Apply(s, a), p) && Apply(s, a).saves[p] == s.saves[p]
  {
  }

  lemma {:induction false} ExpiryPends(t: State, c: nat, rest: seq<Action>)
    requires ExpiryPending(t, c) && SaveExpired(c) !in rest && Survives(c, rest)
    ensures ExpiryPending(After(t, rest), c) && After(t, rest).calls[c] == t.calls[c]
  {
    hide Apply;
    if rest != [] {
      var n := |rest| - 1;
      assert forall a :: a in rest[..n] ==> a in rest;
      assert rest[n] in rest;
      ExpiryPends(t, c, rest[..n]);
      ExpiryPendsStep(After(t, rest[..n]), c, rest[n]);
    }
  }

  lemma ExpiryPendsStep(s: State, c: nat, a: Action)
    requires ExpiryPending(s, c) && a != SaveExpired(c) && a != Fail(c) && a != Crash(c)
    ensures ExpiryPending(Apply(s, a), c) && Apply(s, a).calls[c] == s.calls[c]
  {
  }

  /** Exactly when the end saved by `endAuction` names the highest bidder: when since its read nobody
      but the bidder it saw has raised the price. */
  lemma EndedForTop(s: State, first: seq<Action>, p: nat, rest: seq<Action>)
    requires Initial(s) && SaveEnd(p) !in rest
    requires p !in After(s, first).saves && After(s, first).doc.status == ACTIVE
    ensures
      var read, u := Apply(After(s, first), ReadToEnd(p)), After(s, Ending(first, p, rest));
      u.doc.status == ENDED && (u.doc.winner == u.doc.highestBidder <==> StaysRight(read, rest))
  {
    var t := After(s, first);
    var read := Apply(t, ReadToEnd(p));
    assert read == t.(saves := t.saves[p := EndSave(t.doc)]);
    hide After, Apply, StaysRight;
    EndPends(read, p, rest);
    Bracketed(s, first, ReadToEnd(p), rest, SaveEnd(p));
    EndWritten(After(read, rest), p);
    InitialNames(s);
    NoEarlyWinnerHolds(s, first);
    NoEarlyWinnerStep(t, ReadToEnd(p));
    SavedForTop(read, rest);
  }

  lemma EndWritten(u: State, p: nat)
    requires EndPending(u, p)
    ensures Apply(u, SaveEnd(p)).doc == SaveEnded(u.doc, u.saves[p].snap)
  {
  }

  /** Exactly the same holds of the end that a bid on an expired auction saves. */
  lemma ExpiredForTop(s: State, first: seq<Action>, c: nat, rest: seq<Action>)
    requires Initial(s) && SaveExpired(c) !in rest && Survives(c, rest)
    requires
      var t := After(s, first);
      && AtPhase(t, c) == Some(Entered) && t.calls[c].user != t.doc.createdBy
      && t.doc.endTime <= t.now && t.doc.status == ACTIVE
    ensures
      var read, u := Apply(After(s, first), ReadAuction(c)), After(s, ExpiringBid(first, c, rest));
      u.doc.status == ENDED && (u.doc.winner == u.doc.highestBidder <==> StaysRight(read, rest))
  {
    var t := After(s, first);
    var read := Apply(t, ReadAuction(c));
    assert read == Move(t, c, Expiring(t.doc));
    hide After, Apply, StaysRight;
    ExpiryPends(read, c, rest);
    Bracketed(s, first, ReadAuction(c), rest, SaveExpired(c));
    ExpiryWritten(After(read, rest), c);
    InitialNames(s);
    NoEarlyWinnerHolds(s, first);
    NoEarlyWinnerStep(t, ReadAuction(c));
    SavedForTop(read, rest);
  }

  lemma ExpiryWritten(u: State, c: nat)
    requires ExpiryPending(u, c)
    ensures Apply(u, SaveExpired(c)).doc == SaveEnded(u.doc, u.calls[c].phase.snap)
  {
  }

  // ----- Cancelling

  /** `cancelAuction` by the creator: read after `first`, saved after `rest` has happened. */
  function Cancelling(first: seq<Action>, p: nat, actor: UserId, rest: seq<Action>): seq<Action> {
    first + ([ReadToCancel(p, actor)] + (rest + [SaveCancel(p)]))
  }

  lemma {:induction false} CancelPends(t: State, p: nat, rest: seq<Action>)
    requires p in t.saves && t.saves[p].CancelSave? && SaveCancel(p) !in rest
    ensures p in After(t, rest).saves && After(t, rest).saves[p] == t.saves[p]
  {
    hide Apply;
    if rest != [] {
      var n := |rest| - 1;
      assert forall a :: a in rest[..n] ==> a in rest;
      assert rest[n] in rest;
      CancelPends(t, p, rest[..n]);
      PendsStep(After(t, rest[..n]), p, rest[n]);
    }
  }

  lemma PendsStep(s: State, p: nat, a: Action)
    requires p in s.saves && s.saves[p].CancelSave? && a != SaveCancel(p)
    ensures p in Apply(s, a).saves && Apply(s, a).saves[p] == s.saves[p]
  {
  }

  /** Exactly when a saved cancellation leaves no winner: when its read saw the one to remove, or
      when between its read and its save no winner was saved that stayed. */
  lemma CancelClearsWinner(s: State, first: seq<Action>, p: nat, actor: UserId, rest: seq<Action>)
    requires Initial(s) && SaveCancel(p) !in rest
    requires
      var t := After(s, first);
      p !in t.saves && t.doc.createdBy == actor && t.doc.status != CANCELLED
    ensures
      var t, u := After(s, first), After(s, Cancelling(first, p, actor, rest));
      && u.doc.status == CANCELLED
      && (u.doc.winner == None <==> t.doc.winner.Some? || !Crowned(Apply(t, ReadToCancel(p, actor)), rest))
  {
    hide After, Apply, Crowned, ClearedFrom, NoEarlyWinner, Initial;
    var t := After(s, first);
    var read := Apply(t, ReadToCancel(p, actor));
    CancelReads(t, p, actor);
    CancelPends(read, p, rest);
    Bracketed(s, first, ReadToCancel(p, actor), rest, SaveCancel(p));
    CancelWrites(After(read, rest), p);
    InitialNames(s);
    NoEarlyWinnerHolds(s, first);
    NoEarlyWinnerStep(t, ReadToCancel(p, actor));
    WinnerIsCrowned(read, rest);
  }

  lemma InitialNames(s: State)
    requires Initial(s)
    ensures NoEarlyWinner(s)
  {
  }

  lemma CancelReads(t: State, p: nat, actor: UserId)
    requires p !in t.saves && t.doc.createdBy == actor && t.doc.status != CANCELLED
    ensures Apply(t, ReadToCancel(p, actor)) == t.(saves := t.saves[p := CancelSave(t.doc)])
  {
  }

  lemma CancelWrites(u: State, p: nat)
    requires p in u.saves && u.saves[p].CancelSave?
    ensures Apply(u, SaveCancel(p)).doc == SaveCancelled(u.doc, u.saves[p].snap)
  {
  }

  // ----- Staying cancelled

  ghost predicate EndPending(s: State, p: nat) {
    p in s.saves && s.saves[p].EndSave?
  }

  ghost predicate ExpiryPending(s: State, c: nat) {
    c in s.calls && s.calls[c].phase.Expiring?
  }

  /** The call neither fails nor crashes. */
  ghost predicate Survives(c: nat, run: seq<Action>) {
    Fail(c) !in run && Crash(c) !in run
  }

  /** After `since`, `a` saves an end that was already decided on when the auction was `t`. */
  ghost predicate Undoes(t: State, since: seq<Action>, a: Action) {
    match a
    case SaveEnd(p) => EndPending(t, p)
    case SaveExpired(c) => ExpiryPending(t, c) && Survives(c, since)
    case _ => false
  }

  ghost predicate SomethingUndoes(t: State, rest: seq<Action>) {
    exists k :: 0 <= k < |rest| && Undoes(t, rest[..k], rest[k])
  }

  ghost predicate StaysCancelled(t: State, rest: seq<Action>) {
    forall k :: 0 <= k <= |rest| ==> After(t, rest[..k]).doc.status == CANCELLED
  }

  /** What is left to be saved of what was pending when the auction was `t`. */
  ghost predicate StillPending(t: State, rest: seq<Action>) {
    var u := After(t, rest);
    && u.doc.status == CANCELLED
    && (forall p :: EndPending(u, p) <==> EndPending(t, p))
    && (forall c :: ExpiryPending(u, c) <==> ExpiryPending(t, c) && Survives(c, rest))
  }

  lemma PendingStep(s: State, a: Action)
    requires s.doc.status == CANCELLED
    ensures
      var t := Apply(s, a);
      if (a.SaveEnd? && EndPending(s, a.p)) || (a.SaveExpired? && ExpiryPending(s, a.c))
      then t.doc.status == ENDED
      else
        && t.doc.status == CANCELLED
        && (forall p :: EndPending(t, p) <==> EndPending(s, p))
        && (forall c :: ExpiryPending(t, c) <==> ExpiryPending(s, c) && a != Fail(c) && a != Crash(c))
  {
  }

  lemma {:induction false} PendingHolds(t: State, rest: seq<Action>)
    requires t.doc.status == CANCELLED && !SomethingUndoes(t, rest)
    ensures StillPending(t, rest)
  {
    hide Apply;
    if rest != [] {
      var n := |rest| - 1;
      FewerUndo(t, rest);
      PendingHolds(t, rest[..n]);
      PendingStep(After(t, rest[..n]), rest[n]);
      assert rest == rest[..n] + [rest[n]];
      assert !Undoes(t, rest[..n], rest[n]);
    }
  }

  lemma FewerUndo(t: State, rest: seq<Action>)
    requires rest != []
    ensures
      var n := |rest| - 1;
      SomethingUndoes(t, rest) <==> SomethingUndoes(t, rest[..n]) || Undoes(t, rest[..n], rest[n])
  {
    hide Undoes;
    var n := |rest| - 1;
    assert forall k :: 0 <= k < n ==> rest[..n][..k] == rest[..k] && rest[..n][k] == rest[k];
  }

  /** A cancelled auction stays cancelled exactly as long as none of the ends already decided on
      when it was cancelled gets saved; nothing that starts later can undo it. */
  lemma {:induction false} CancelHolds(t: State, rest: seq<Action>)
    requires t.doc.status == CANCELLED
    ensures StaysCancelled(t, rest) <==> !SomethingUndoes(t, rest)
  {
    hide Apply, After;
    if rest == [] {
      assert rest[..0] == [];
      PendingHolds(t, rest);
    } else {
      var n := |rest| - 1;
      CancelHolds(t, rest[..n]);
      FewerUndo(t, rest);
      assert rest[..|rest|] == rest;
      assert forall k :: 0 <= k <= n ==> rest[..n][..k] == rest[..k];
      if !SomethingUndoes(t, rest) {
        PendingHolds(t, rest);
      } else if !SomethingUndoes(t, rest[..n]) {
        PendingHolds(t, rest[..n]);
        PendingStep(After(t, rest[..n]), rest[n]);
        AfterOne(t, rest, n);
      }
    }
  }

  // ----- Who ends and who cancels

  /** A call that has read an expired auction did so after the end time. */
  ghost predicate LateReads(s: State) {
    forall c :: c in s.calls && s.calls[c].phase.Expiring? ==> s.doc.endTime <= s.now
  }

  lemma LateReadsStep(s: State, a: Action)
    requires LateReads(s)
    ensures LateReads(Apply(s, a))
  {
    OnlyRaisesRaise(s, a);
  }

  lemma {:induction false} LateReadsHold(s: State, run: seq<Action>)
    requires LateReads(s)
    ensures LateReads(After(s, run))
  {
    hide Apply, LateReads;
    if run != [] {
      LateReadsHold(s, run[..|run| - 1]);
      LateReadsStep(After(s, run[..|run| - 1]), run[|run| - 1]);
    }
  }

  lemma LeavesStep(s: State, a: Action)
    requires s.doc.status == ACTIVE && Apply(s, a).doc.status != ACTIVE && LateReads(s)
    ensures a.SaveEnd? || a.SaveCancel? || ((a.Sweep? || a.SaveExpired?) && s.doc.endTime <= s.now)
  {
  }

  /** In every interleaving an auction leaves ACTIVE by the end job, by a cancellation, or, once the end
      time has come, by a sweep or a late bid. */
  lemma LeavesOnlyInTime(s: State, run: seq<Action>, a: Action)
    requires Initial(s) && After(s, run).doc.status == ACTIVE && Apply(After(s, run), a).doc.status != ACTIVE
    ensures
      var t := After(s, run);
      a.SaveEnd? || a.SaveCancel? || ((a.Sweep? || a.SaveExpired?) && s.doc.endTime <= t.now)
  {
    hide After, Apply;
    LateReadsHold(s, run);
    Constants(s, run);
    LeavesStep(After(s, run), a);
  }

  /** A cancellation that is pending, or has been saved, was read by the creator. */
  ghost predicate CreatorCancels(t: State, creator: UserId, run: seq<Action>) {
    (t.doc.status == CANCELLED || exists p :: p in t.saves && t.saves[p].CancelSave?) ==>
      exists a :: a in run && a.ReadToCancel? && a.actor == creator
  }

  lemma CancelStep(s: State, a: Action, creator: UserId)
    requires s.doc.createdBy == creator
    ensures
      var t := Apply(s, a);
      (t.doc.status == CANCELLED || exists p :: p in t.saves && t.saves[p].CancelSave?) ==>
        || s.doc.status == CANCELLED || (exists p :: p in s.saves && s.saves[p].CancelSave?)
        || (a.ReadToCancel? && a.actor == creator)
  {
    var t := Apply(s, a);
    if (exists p :: p in t.saves && t.saves[p].CancelSave?) {
      var p :| p in t.saves && t.saves[p].CancelSave?;
      assert (p in s.saves && s.saves[p].CancelSave?) || (a.ReadToCancel? && a.actor == creator);
    }
  }

  /** In every interleaving only the creator's own request cancels an auction. */
  lemma {:induction false} OnlyCreatorCancels(s: State, run: seq<Action>)
    requires Initial(s)
    ensures CreatorCancels(After(s, run), s.doc.createdBy, run)
  {
    hide Apply;
    if run != [] {
      var n := |run| - 1;
      OnlyCreatorCancels(s, run[..n]);
      Constants(s, run[..n]);
      CancelStep(After(s, run[..n]), run[n], s.doc.createdBy);
      assert run[n] in run && forall a :: a in run[..n] ==> a in run;
    }
  }
}
