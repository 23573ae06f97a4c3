/**
 The handlers of one account, split between reading the account and saving it. Any number of calls
 overlap; a save writes only the fields whose value differs from what the call had read.
 */
module AccountRace {
  import opened Common
  import opened Accounts

  /** A call between its read and its save: what it read, and how many saves, code issues and uses
      of codes there had been by then. */
  datatype Pending = Pending(request: Event, snap: Account, saves: nat, issues: nat, uses: nat)

  /** All but the document and the pending calls is history: the saves that changed something, the
      issued codes, the issue that each successful reset used, the finished requests and the
      password comparisons. */
  datatype State = State(
    doc: Account, pending: map<nat, Pending>,
    saves: nat, issues: nat, used: seq<nat>, done: seq<Event>, compared: nat)

  datatype Action = Start(c: nat, request: Event) | Finish(c: nat)

  function Fresh(a: Account): State {
    State(a, map[], 0, 0, [], [], 0)
  }

  function Merge(doc: Account, snap: Account, result: Account): Account {
    Account(
      if result.password != snap.password then result.password else doc.password,
      if result.provider != snap.provider then result.provider else doc.provider,
      if result.isVerified != snap.isVerified then result.isVerified else doc.isVerified,
      if result.failedLoginAttempts != snap.failedLoginAttempts then result.failedLoginAttempts else doc.failedLoginAttempts,
      if result.lockedUntil != snap.lockedUntil then result.lockedUntil else doc.lockedUntil,
      if result.resetCode != snap.resetCode then result.resetCode else doc.resetCode,
      if result.resetCodeExpiry != snap.resetCodeExpiry then result.resetCodeExpiry else doc.resetCodeExpiry)
  }

  function Finished(s: State, c: nat): State
    requires c in s.pending
  {
    var p := s.pending[c];
    var (result, reply) := Handle(p.snap, p.request);
    State(
      Merge(s.doc, p.snap, result), s.pending - {c},
      s.saves + if result != p.snap then 1 else 0,
      s.issues + if reply == Some(CodeSent) then 1 else 0,
      if reply == Some(PasswordReset) then s.used + [p.issues] else s.used,
      s.done + [p.request],
      s.compared + if p.request.LoginTried? && Compares(p.snap, p.request.now) then 1 else 0)
  }

  function Apply(s: State, a: Action): State {
    match a
    case Start(c, request) =>
      if c in s.pending then s
      else s.(pending := s.pending[c := Pending(request, s.doc, s.saves, s.issues, |s.used|)])
    case Finish(c) => if c in s.pending then Finished(s, c) else s
  }

  function After(s: State, run: seq<Action>): State {
    if run == [] then s else Apply(After(s, run[..|run| - 1]), run[|run| - 1])
  }

  // ----- Calls that do not disturb each other

  /** The call saves although something was saved since its read. */
  predicate Disturbed(s: State, a: Action) {
    a.Finish? && a.c in s.pending && s.pending[a.c].saves != s.saves
  }

  ghost predicate Undisturbed(s: State, run: seq<Action>) {
    forall k :: 0 <= k < |run| ==> !Disturbed(After(s, run[..k]), run[k])
  }

  /** A call since whose read nothing was saved has read what is stored. */
  ghost predicate ReadsCurrent(s: State) {
    forall c :: c in s.pending ==>
      s.pending[c].saves <= s.saves && (s.pending[c].saves == s.saves ==> s.pending[c].snap == s.doc)
  }

  lemma ReadsCurrentStep(s: State, a: Action)
    requires ReadsCurrent(s)
    ensures ReadsCurrent(Apply(s, a))
  {
    hide Handle;
  }

  lemma {:induction false} ComparisonsMore(a: Account, events: seq<Event>, e: Event)
    ensures
      Comparisons(a, events + [e]) ==
      Comparisons(a, events) + if e.LoginTried? && Compares(Run(a, events), e.now) then 1 else 0
    decreases |events|
  {
    hide Login;
    if events == [] {
      assert [] + [e] == [e] && [e][1..] == [];
    } else {
      assert (events + [e])[0] == events[0] && (events + [e])[1..] == events[1..] + [e];
      ComparisonsMore(Handle(a, events[0]).0, events[1..], e);
    }
  }

  lemma RunMore(a: Account, events: seq<Event>, e: Event)
    ensures Run(a, events + [e]) == Handle(Run(a, events), e).0
  {
    RunSplit(a, events, [e]);
    hide Handle;
    assert [e][1..] == [];
  }

  /** The stored account is the outcome of the finished requests, one at a time. */
  ghost predicate Serialized(a: Account, t: State) {
    t.doc == Run(a, t.done) && t.compared == Comparisons(a, t.done)
  }

  lemma SerializedStep(a: Account, s: State, step: Action)
    requires ReadsCurrent(s) && Serialized(a, s) && !Disturbed(s, step)
    ensures Serialized(a, Apply(s, step))
  {
    if step.Finish? && step.c in s.pending {
      var p := s.pending[step.c];
      assert p.snap == s.doc;
      RunMore(a, s.done, p.request);
      ComparisonsMore(a, s.done, p.request);
      hide Handle, Run, Comparisons;
      assert Merge(s.doc, p.snap, Handle(p.snap, p.request).0) == Handle(p.snap, p.request).0;
    }
  }

  /** When no call saves after another one saved something since its read, the calls have the same
      effect as one at a time in the order of their saves, and compare as many passwords; so the
      bounds on guessing and on the use of codes hold of them. */
  lemma {:induction false} UndisturbedIsSerial(a: Account, run: seq<Action>)
    requires Undisturbed(Fresh(a), run)
    ensures ReadsCurrent(After(Fresh(a), run)) && Serialized(a, After(Fresh(a), run))
  {
    hide Apply, Disturbed, Serialized, ReadsCurrent;
    var s := Fresh(a);
    if run == [] {
      NothingDone(a);
    } else {
      var n := |run| - 1;
      assert forall k :: 0 <= k < n ==> run[..n][..k] == run[..k] && run[..n][k] == run[k];
      UndisturbedIsSerial(a, run[..n]);
      ReadsCurrentStep(After(s, run[..n]), run[n]);
      SerializedStep(a, After(s, run[..n]), run[n]);
    }
  }

  lemma NothingDone(a: Account)
    ensures ReadsCurrent(Fresh(a)) && Serialized(a, Fresh(a))
  {
  }

  /** A login and the other handlers write different fields, so whatever overlaps, finishing one never
      undoes what the other has stored. */
  lemma SavesAreIndependent(s: State, c: nat)
    requires c in s.pending
    ensures
      var t := Apply(s, Finish(c)).doc;
      if s.pending[c].request.LoginTried?
      then t == s.doc.(failedLoginAttempts := t.failedLoginAttempts, lockedUntil := t.lockedUntil)
      else t.failedLoginAttempts == s.doc.failedLoginAttempts && t.lockedUntil == s.doc.lockedUntil
  {
  }

  // ----- Failures that count

  ghost predicate OnlyFailures(run: seq<Action>) {
    forall a :: a in run && a.Start? ==> a.request.LoginTried? && !a.request.matches
  }

  /** The account can be logged in to and has no failures on record. */
  predicate Clean(a: Account) {
    a.password.Some? && a.isVerified && a.failedLoginAttempts == 0 && a.lockedUntil == None
  }

  /** Before the fifth save: the document and every snapshot are the clean account with a counter not
      above the number of saves. */
  ghost predicate Counting(a: Account, t: State) {
    && t.saves == |t.done| && t.doc == a.(failedLoginAttempts := t.doc.failedLoginAttempts)
    && t.doc.failedLoginAttempts <= t.saves
    && forall c :: c in t.pending ==>
         var p := t.pending[c];
         && p.request.LoginTried? && !p.request.matches && p.saves <= t.saves
         && p.snap == a.(failedLoginAttempts := p.snap.failedLoginAttempts) && p.snap.failedLoginAttempts <= p.saves
  }

  /** One failure counts on top of all others if and only if they did and it is not disturbed. */
  lemma CountingStep(a: Account, t: State, step: Action)
    requires Clean(a) && Counting(a, t) && ReadsCurrent(t) && |t.done| < MAX_FAILED_LOGIN_ATTEMPTS
    requires step.Start? ==> step.request.LoginTried? && !step.request.matches
    ensures
      var u := Apply(t, step);
      var counts := t.doc.failedLoginAttempts == |t.done| && !Disturbed(t, step);
      if |u.done| < MAX_FAILED_LOGIN_ATTEMPTS then Counting(a, u) && (u.doc.failedLoginAttempts == |u.done| <==> counts)
      else u.doc.lockedUntil.Some? <==> counts
  {
  }

  lemma UndisturbedMore(s: State, run: seq<Action>)
    requires run != []
    ensures
      var n := |run| - 1;
      Undisturbed(s, run) <==> Undisturbed(s, run[..n]) && !Disturbed(After(s, run[..n]), run[n])
  {
    hide Disturbed, After;
    var n := |run| - 1;
    assert forall k :: 0 <= k < n ==> run[..n][..k] == run[..k] && run[..n][k] == run[k];
  }

  lemma {:induction false} ReadsCurrentHolds(a: Account, run: seq<Action>)
    ensures ReadsCurrent(After(Fresh(a), run))
  {
    hide Apply, ReadsCurrent;
    if run == [] {
      NothingDone(a);
    } else {
      ReadsCurrentHolds(a, run[..|run| - 1]);
      ReadsCurrentStep(After(Fresh(a), run[..|run| - 1]), run[|run| - 1]);
    }
  }

  lemma {:induction false} DoneGrows(s: State, run: seq<Action>)
    requires run != []
    ensures
      var n := |run| - 1;
      After(s, run).done == After(s, run[..n]).done
      || (run[n].Finish? && |After(s, run).done| == |After(s, run[..n]).done| + 1)
  {
    hide Handle;
  }

  lemma {:induction false} CountingHolds(a: Account, run: seq<Action>)
    requires Clean(a) && OnlyFailures(run) && |After(Fresh(a), run).done| < MAX_FAILED_LOGIN_ATTEMPTS
    ensures
      var t := After(Fresh(a), run);
      Counting(a, t) && (t.doc.failedLoginAttempts == |t.done| <==> Undisturbed(Fresh(a), run))
  {
    hide Apply, Counting, Disturbed, Undisturbed, ReadsCurrent;
    if run == [] {
      NothingCounted(a);
    } else {
      var n := |run| - 1;
      FailuresBefore(run);
      DoneGrows(Fresh(a), run);
      CountingHolds(a, run[..n]);
      ReadsCurrentHolds(a, run[..n]);
      CountingStep(a, After(Fresh(a), run[..n]), run[n]);
      UndisturbedMore(Fresh(a), run);
    }
  }

  lemma FailuresBefore(run: seq<Action>)
    requires OnlyFailures(run) && run != []
    ensures
      var n := |run| - 1;
      OnlyFailures(run[..n]) && (run[n].Start? ==> run[n].request.LoginTried? && !run[n].request.matches)
  {
    assert run[|run| - 1] in run;
    assert forall a :: a in run[..|run| - 1] ==> a in run;
  }

  lemma NothingCounted(a: Account)
    requires Clean(a)
    ensures Counting(a, Fresh(a)) && Undisturbed(Fresh(a), [])
  {
  }

  /** The fifth wrong password on a clean account locks it exactly when none of the five calls saves
      after another one saved since its read. */
  lemma LockedExactly(a: Account, run: seq<Action>)
    requires Clean(a) && OnlyFailures(run) && run != []
    requires
      var n := |run| - 1;
      |After(Fresh(a), run[..n]).done| == 4 && |After(Fresh(a), run).done| == 5
    ensures After(Fresh(a), run).doc.lockedUntil.Some? <==> Undisturbed(Fresh(a), run)
  {
    hide Apply, Counting, Disturbed, Undisturbed, ReadsCurrent;
    var n := |run| - 1;
    FailuresBefore(run);
    CountingHolds(a, run[..n]);
    ReadsCurrentHolds(a, run[..n]);
    CountingStep(a, After(Fresh(a), run[..n]), run[n]);
    UndisturbedMore(Fresh(a), run);
  }

  // ----- Reset codes

  ghost predicate Distinct(s: seq<nat>) {
    forall i, j :: 0 <= i < j < |s| ==> s[i] != s[j]
  }

  predicate Resets(s: State, a: Action) {
    a.Finish? && a.c in s.pending && Handle(s.pending[a.c].snap, s.pending[a.c].request).1 == Some(PasswordReset)
  }

  /** The reset uses a code that another one has used since this one's read. */
  predicate Reuses(s: State, a: Action) {
    Resets(s, a) && s.pending[a.c].uses <= |s.used| && s.pending[a.c].issues in s.used[s.pending[a.c].uses..]
  }

  ghost predicate NothingReused(s: State, run: seq<Action>) {
    forall k :: 0 <= k < |run| ==> !Reuses(After(s, run[..k]), run[k])
  }

  /** A code that is stored, or was when a call read it, had not been used by then. */
  ghost predicate CodesOk(s: State) {
    && (forall n :: n in s.used ==> n <= s.issues)
    && (s.doc.resetCode.Some? ==> s.issues !in s.used)
    && (forall c :: c in s.pending ==>
         var p := s.pending[c];
         p.uses <= |s.used| && p.issues <= s.issues && (p.snap.resetCode.Some? ==> p.issues !in s.used[..p.uses]))
  }

  lemma CodesStep(s: State, a: Action)
    requires CodesOk(s)
    ensures CodesOk(Apply(s, a))
  {
    match a
    case Start(c, request) =>
      assert s.used[..|s.used|] == s.used;
    case Finish(c) =>
      if c in s.pending {
        CodesFinish(s, c);
      }
  }

  /** What a handler does to the reset code, by its reply. */
  lemma CodeChanges(a: Account, e: Event)
    ensures
      var (b, reply) := Handle(a, e);
      if reply == Some(CodeSent) then true
      else if reply == Some(PasswordReset) then a.resetCode.Some? && b.resetCode == None
      else b.resetCode == a.resetCode
  {
  }

  lemma CodesFinish(s: State, c: nat)
    requires CodesOk(s) && c in s.pending
    ensures CodesOk(Finished(s, c))
  {
    var p, t := s.pending[c], Finished(s, c);
    CodeChanges(p.snap, p.request);
    hide Handle;
    assert forall k :: 0 <= k <= |s.used| ==> t.used[..k] == s.used[..k];
  }

  lemma DistinctMore(s: seq<nat>, x: nat)
    ensures Distinct(s + [x]) <==> Distinct(s) && x !in s
  {
    var more := s + [x];
    if Distinct(more) {
      assert forall i :: 0 <= i < |s| ==> more[i] == s[i] && more[i] != more[|s|];
    }
  }

  lemma UseStep(s: State, a: Action)
    requires CodesOk(s)
    ensures Distinct(Apply(s, a).used) <==> Distinct(s.used) && !Reuses(s, a)
  {
    if Resets(s, a) {
      var p := s.pending[a.c];
      CodeChanges(p.snap, p.request);
      hide Handle;
      DistinctMore(s.used, p.issues);
      assert s.used == s.used[..p.uses] + s.used[p.uses..];
    }
  }

  /** However the calls overlap, every issued code is used at most once exactly when no reset saves
      after another one that used the same code saved since its read. */
  lemma {:induction false} CodesUsedOnce(a: Account, run: seq<Action>)
    requires a.resetCode == None
    ensures CodesOk(After(Fresh(a), run))
    ensures Distinct(After(Fresh(a), run).used) <==> NothingReused(Fresh(a), run)
  {
    hide Apply, Reuses, CodesOk, Distinct;
    var s := Fresh(a);
    if run == [] {
      NothingUsed(a);
    } else {
      var n := |run| - 1;
      ReusedMore(s, run);
      CodesUsedOnce(a, run[..n]);
      hide NothingReused;
      CodesStep(After(s, run[..n]), run[n]);
      UseStep(After(s, run[..n]), run[n]);
    }
  }

  lemma ReusedMore(s: State, run: seq<Action>)
    requires run != []
    ensures
      var n := |run| - 1;
      NothingReused(s, run) <==> NothingReused(s, run[..n]) && !Reuses(After(s, run[..n]), run[n])
  {
    hide Reuses, After;
    var n := |run| - 1;
    assert forall k :: 0 <= k < n ==> run[..n][..k] == run[..k] && run[..n][k] == run[k];
  }

  lemma NothingUsed(a: Account)
    requires a.resetCode == None
    ensures CodesOk(Fresh(a)) && Distinct(Fresh(a).used)
  {
  }

  // ----- Runs that overlap

  lemma Extend(s: State, run: seq<Action>, a: Action) returns (longer: seq<Action>)
    ensures longer == run + [a] && After(s, longer) == Apply(After(s, run), a)
  {
    longer := run + [a];
    assert longer[..|longer| - 1] == run;
  }

  /** Two resets that both read before either saves use one code. */
  lemma TwoResetsOneCode() returns (run: seq<Action>)
    ensures
      var t := After(Fresh(SignedUp(1)), run);
      t.used == [1, 1] && t.issues == 1 && t.doc.password == Some(3)
  {
    hide After;
    var s := Fresh(SignedUp(1));
    run := Extend(s, [], Start(0, CodeRequested(7, 0)));
    NothingRun(s);
    run := Extend(s, run, Finish(0));
    var t := After(s, run);
    assert t.doc == SignedUp(1).(resetCode := Some(7), resetCodeExpiry := Some(CODE_LIFETIME_MS)) && t.pending == map[];
    run := OverlappingResets(s, run, t);
  }

  lemma NothingRun(s: State)
    ensures After(s, []) == s
  {
  }

  lemma OverlappingResets(s: State, run: seq<Action>, t: State) returns (longer: seq<Action>)
    requires After(s, run) == t && t.pending == map[] && t.used == []
    requires t.doc.resetCode == Some(7) && t.doc.resetCodeExpiry == Some(CODE_LIFETIME_MS) && t.doc.password == Some(1)
    ensures
      var u := After(s, longer);
      u.used == [t.issues, t.issues] && u.issues == t.issues && u.doc.password == Some(3)
  {
    hide After;
    longer := Extend(s, run, Start(1, ResetTried(7, 2, 1)));
    longer := Extend(s, longer, Start(2, ResetTried(7, 3, 1)));
    longer := Extend(s, longer, Finish(1));
    longer := Extend(s, longer, Finish(2));
  }

  function Guesses(n: nat): seq<Action> {
    if n == 0 then [] else Guesses(n - 1) + [Start(n - 1, LoginTried(false, 0))]
  }

  function Answers(n: nat): seq<Action> {
    if n == 0 then [] else Answers(n - 1) + [Finish(n - 1)]
  }

  /** The calls from `n` on have read the untouched account. */
  ghost predicate Guessing(a: Account, t: State, from: nat, to: nat) {
    && (forall c :: c in t.pending <==> from <= c < to)
    && (forall c :: c in t.pending ==> t.pending[c].snap == a && t.pending[c].request == LoginTried(false, 0))
  }

  lemma {:induction false} GuessesStart(a: Account, n: nat)
    ensures
      var t := After(Fresh(a), Guesses(n));
      Guessing(a, t, 0, n) && t.doc == a && t.compared == 0
  {
    if n > 0 {
      GuessesStart(a, n - 1);
      assert Guesses(n)[..|Guesses(n)| - 1] == Guesses(n - 1);
    }
  }

  lemma AnswerStep(a: Account, t: State, n: nat, m: nat)
    requires Clean(a) && n < m && Guessing(a, t, n, m) && t.compared == n
    requires t.doc == a.(failedLoginAttempts := if n == 0 then 0 else 1)
    ensures
      var u := Apply(t, Finish(n));
      Guessing(a, u, n + 1, m) && u.compared == n + 1 && u.doc == a.(failedLoginAttempts := 1)
  {
  }

  lemma {:induction false} AnswersFinish(a: Account, t: State, n: nat, m: nat)
    requires Clean(a) && n <= m && Guessing(a, t, 0, m) && t.doc == a && t.compared == 0
    ensures
      var u := After(t, Answers(n));
      && Guessing(a, u, n, m) && u.compared == n
      && u.doc == a.(failedLoginAttempts := if n == 0 then 0 else 1)
  {
    hide Apply, Guessing;
    if n > 0 {
      AnswersFinish(a, t, n - 1, m);
      assert Answers(n)[..|Answers(n)| - 1] == Answers(n - 1);
      AnswerStep(a, After(t, Answers(n - 1)), n - 1, m);
    }
  }

  lemma {:induction false} AfterSplit(s: State, first: seq<Action>, rest: seq<Action>)
    ensures After(s, first + rest) == After(After(s, first), rest)
  {
    if rest == [] {
      assert first + rest == first;
    } else {
      assert (first + rest)[..|first + rest| - 1] == first + rest[..|rest| - 1];
      AfterSplit(s, first, rest[..|rest| - 1]);
    }
  }

  /** Logins that all read before any of them saves: any number of wrong passwords is compared at
      one moment, and the counter ends at one, with no lock. */
  lemma GuessesNotCounted(a: Account, n: nat)
    requires Clean(a) && n > 0
    ensures
      var t := After(Fresh(a), Guesses(n) + Answers(n));
      t.compared == n && t.doc == a.(failedLoginAttempts := 1)
  {
    GuessesStart(a, n);
    AfterSplit(Fresh(a), Guesses(n), Answers(n));
    AnswersFinish(a, After(Fresh(a), Guesses(n)), n, n);
  }
}
