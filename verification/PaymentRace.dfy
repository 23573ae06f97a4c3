/**
 The winner's payment confirmation against a replacement of the winner, split at their awaits. The
 replacement is either the expiry job's or the creator's decision to push the next bidder; both check
 the auction, then read it again and save without checking again. A save writes only the fields whose
 value differs from the one just read.
 */
module PaymentRace {
  import opened Common
  import opened Market

  datatype Doc = Doc(winner: UserId, paymentStatus: PaymentStatus)

  /** Who replaces the winner: the job that was queued for one winner, or the creator, who pushes
      out whoever has won. */
  datatype Replacer = ExpiryJob(queuedFor: UserId) | CreatorDecision

  datatype Confirming = ToRead | ToSave | Confirmed | ConfirmRefused
  datatype Replacing = ToCheck | ToReread(previous: UserId) | ToReplace(previous: UserId, snap: Doc) | Replaced | Skipped

  /** An ended auction with a winner `user`, who is paying, and the bidder next in line. */
  datatype State =
    State(user: UserId, next: UserId, replacer: Replacer, doc: Doc, confirm: Confirming, replace: Replacing)

  datatype Action = ConfirmRead | ConfirmSave | Check | Reread | ReplaceSave

  function Fresh(user: UserId, next: UserId, replacer: Replacer): State {
    State(user, next, replacer, Doc(user, UNPAID), ToRead, ToCheck)
  }

  /** The backup of either of the two top bidders is the other. */
  function BackupOf(s: State, previous: UserId): UserId {
    if previous == s.user then s.next else s.user
  }

  /** The check before the replacement; it remembers whom to replace. */
  function Checked(s: State): Replacing {
    if s.doc.paymentStatus == PAID then Skipped
    else
      match s.replacer
      case ExpiryJob(queuedFor) => if s.doc.winner != queuedFor then Skipped else ToReread(queuedFor)
      case CreatorDecision => ToReread(s.doc.winner)
  }

  /** `winner` and `paymentStatus` are assigned, then saved. */
  function SaveReplaced(doc: Doc, snap: Doc, next: UserId): Doc {
    Doc(if snap.winner != next then next else doc.winner,
        if snap.paymentStatus != UNPAID then UNPAID else doc.paymentStatus)
  }

  predicate Enabled(s: State, a: Action) {
    match a
    case ConfirmRead => s.confirm == ToRead
    case ConfirmSave => s.confirm == ToSave
    case Check => s.replace == ToCheck
    case Reread => s.replace.ToReread?
    case ReplaceSave => s.replace.ToReplace?
  }

  /** One await; an action that is not next in its handler does nothing. */
  function Apply(s: State, a: Action): State {
    if !Enabled(s, a) then s
    else
      match a
      case ConfirmRead =>
        s.(confirm := if s.doc.winner == s.user && s.doc.paymentStatus == UNPAID then ToSave else ConfirmRefused)
      case ConfirmSave => s.(doc := s.doc.(paymentStatus := PAID), confirm := Confirmed)
      case Check => s.(replace := Checked(s))
      case Reread => s.(replace := ToReplace(s.replace.previous, s.doc))
      case ReplaceSave =>
        s.(doc := SaveReplaced(s.doc, s.replace.snap, BackupOf(s, s.replace.previous)), replace := Replaced)
  }

  function After(s: State, run: seq<Action>): State {
    if run == [] then s else Apply(After(s, run[..|run| - 1]), run[|run| - 1])
  }

  /** When an action happened: the index at which it first was its handler's next step, or the
      length of the run if it never was. */
  function When(s: State, run: seq<Action>, a: Action): (k: nat)
    ensures k <= |run|
    ensures k < |run| ==> run[k] == a && Enabled(After(s, run[..k]), a)
  {
    if run == [] then 0
    else
      var n := |run| - 1;
      var k := When(s, run[..n], a);
      assert k < n ==> run[..n][..k] == run[..k];
      if k < n || (run[n] == a && Enabled(After(s, run[..n]), a)) then k else n + 1
  }

  /** The replacement is aimed at the winner who is paying. */
  predicate Aimed(s: State) {
    s.replacer.ExpiryJob? ==> s.replacer.queuedFor == s.user
  }

  /** Where both handlers stand, told from when their steps happened. */
  ghost predicate Timed(s: State, t: State, run: seq<Action>) {
    var read, saved := When(s, run, ConfirmRead), When(s, run, ConfirmSave);
    var check, reread, replaced := When(s, run, Check), When(s, run, Reread), When(s, run, ReplaceSave);
    && t.user == s.user && t.next == s.next && t.replacer == s.replacer
    && (t.confirm == Confirmed <==> saved < |run|)
    && (t.confirm == ToRead <==> read == |run|)
    && (t.confirm == ConfirmRefused <==> replaced < read < |run|)
    && (t.replace == ToCheck <==> check == |run|)
    && (t.replace == ToCheck ==> reread == |run| == replaced)
    && (check < |run| ==> (t.replace == Skipped <==> saved < check))
    && (t.replace.ToReread? ==> t.replace.previous == s.user && check < |run| == reread == replaced)
    && (t.replace.ToReplace? ==>
         && t.replace.previous == s.user && check < reread < |run| == replaced
         && t.replace.snap == Doc(s.user, if saved < reread then PAID else UNPAID))
    && (t.replace == Skipped ==> reread == |run| == replaced)
    && (t.replace == Replaced ==> check < reread < replaced < |run|)
    && (replaced < |run| ==> t.replace == Replaced)
    && t.doc == Doc(if replaced < |run| then s.next else s.user,
                    if saved == |run| || (replaced < |run| && saved < reread) then UNPAID else PAID)
  }

  lemma {:induction false} TimedHolds(s: State, run: seq<Action>)
    requires s == Fresh(s.user, s.next, s.replacer) && s.user != s.next && Aimed(s)
    ensures Timed(s, After(s, run), run)
  {
    if run != [] {
      TimedHolds(s, run[..|run| - 1]);
    }
  }

  predicate Finished(s: State) {
    (s.confirm == Confirmed || s.confirm == ConfirmRefused) && (s.replace == Replaced || s.replace == Skipped)
  }

  /** When both handlers are done, the order of their steps decides, whichever handler replaces the
      winner. A confirmation that reads after the replacement is refused. An accepted payment stays
      with the payer exactly when it was saved before the check; it is forgotten when it was saved
      between the check and the second read, and credited to the next bidder when it was saved after
      the second read. */
  lemma OrderDecides(s: State, run: seq<Action>)
    requires s == Fresh(s.user, s.next, s.replacer) && s.user != s.next && Aimed(s)
    requires Finished(After(s, run))
    ensures
      var t := After(s, run);
      var read, saved := When(s, run, ConfirmRead), When(s, run, ConfirmSave);
      var check, reread, replaced := When(s, run, Check), When(s, run, Reread), When(s, run, ReplaceSave);
      if t.confirm == ConfirmRefused then replaced < read && t.doc == Doc(s.next, UNPAID)
      else
        && saved < |run| && (read < replaced || replaced == |run|)
        && (t.doc == Doc(s.user, PAID) <==> saved < check)
        && (t.doc == Doc(s.next, UNPAID) <==> check < saved < reread)
        && (t.doc == Doc(s.next, PAID) <==> reread < saved)
  {
    TimedHolds(s, run);
    NotTogether(s, run, ConfirmRead, ReplaceSave);
    NotTogether(s, run, ConfirmSave, Check);
    NotTogether(s, run, ConfirmSave, Reread);
    hide After, When, Enabled, Apply;
  }

  lemma NotTogether(s: State, run: seq<Action>, a: Action, b: Action)
    requires a != b
    ensures When(s, run, a) == When(s, run, b) ==> When(s, run, a) == |run|
  {
    hide After, Enabled;
  }

  /** An expiry job left over from an earlier winner never touches the payment. */
  lemma {:induction false} StaleJobIsHarmless(s: State, run: seq<Action>)
    requires s == Fresh(s.user, s.next, s.replacer) && !Aimed(s)
    ensures
      var t := After(s, run);
      && t.doc == Doc(s.user, if t.confirm == Confirmed then PAID else UNPAID)
      && (t.replace == ToCheck || t.replace == Skipped) && t.confirm != ConfirmRefused
      && t.user == s.user && t.replacer == s.replacer
  {
    if run != [] {
      StaleJobIsHarmless(s, run[..|run| - 1]);
    }
  }

  lemma Extend(s: State, run: seq<Action>, a: Action) returns (longer: seq<Action>)
    ensures After(s, longer) == Apply(After(s, run), a)
  {
    longer := run + [a];
    assert longer[..|longer| - 1] == run;
  }

  /** A confirmed payment can be forgotten. */
  lemma PaymentForgotten(s: State) returns (run: seq<Action>)
    requires s == Fresh(s.user, s.next, s.replacer) && s.user != s.next && Aimed(s)
    ensures After(s, run).confirm == Confirmed && After(s, run).doc == Doc(s.next, UNPAID)
  {
    run := Extend(s, [], Check);
    run := Extend(s, run, ConfirmRead);
    run := Extend(s, run, ConfirmSave);
    run := Extend(s, run, Reread);
    run := Extend(s, run, ReplaceSave);
  }

  /** A confirmed payment can end up as somebody else's. */
  lemma PaymentMisattributed(s: State) returns (run: seq<Action>)
    requires s == Fresh(s.user, s.next, s.replacer) && s.user != s.next && Aimed(s)
    ensures After(s, run).confirm == Confirmed && After(s, run).doc == Doc(s.next, PAID)
  {
    run := Extend(s, [], Check);
    run := Extend(s, run, ConfirmRead);
    run := Extend(s, run, Reread);
    run := Extend(s, run, ConfirmSave);
    run := Extend(s, run, ReplaceSave);
  }
}
