/** Login lockout and password reset codes of one account. */
module Accounts {
  import opened Common
  import opened Division

  const MAX_FAILED_LOGIN_ATTEMPTS := 5
  const LOGIN_LOCK_WINDOW_MS: Time := 15 * 60 * 1000
  const CODE_LIFETIME_MS: Time := 10 * 60 * 1000

  datatype Provider = Local | Google

  /** Password hashes and codes are opaque. */
  type Hash = nat
  type Code = nat

  datatype Account = Account(
    password: Option<Hash>, provider: Provider, isVerified: bool,
    failedLoginAttempts: nat, lockedUntil: Option<Time>,
    resetCode: Option<Code>, resetCodeExpiry: Option<Time>)

  datatype Reply = Granted | WrongPassword | Locked | Unverified | NoPassword
                 | CodeSent | GoogleOnly | InvalidCode | CodeExpired | PasswordReset

  // ----- The handlers as functions

  /** `matches` is the answer of the password comparison, if it is asked for. */
  function Login(a: Account, matches: bool, now: Time): (Account, Reply) {
    if a.password == None then (a, NoPassword)
    else if a.lockedUntil.Some? && a.lockedUntil.value > now then (a, Locked)
    else if !a.isVerified then (a, Unverified)
    else if matches then (a.(failedLoginAttempts := 0, lockedUntil := None), Granted)
    else
      var failed := a.failedLoginAttempts + 1;
      (if failed >= MAX_FAILED_LOGIN_ATTEMPTS
       then a.(failedLoginAttempts := 0, lockedUntil := Some(now + LOGIN_LOCK_WINDOW_MS))
       else a.(failedLoginAttempts := failed), WrongPassword)
  }

  /** The attempt looks at the password: what it does depends on whether that matches. */
  predicate Compares(a: Account, now: Time) {
    Login(a, true, now) != Login(a, false, now)
  }

  /** `forgotPassword` and `resendCode` for a reset; the code counts as issued once it is saved,
      whether or not the mail goes out. */
  function IssueResetCode(a: Account, code: Code, now: Time): (Account, Reply) {
    if a.provider == Google && a.password == None then (a, GoogleOnly)
    else (a.(resetCode := Some(code), resetCodeExpiry := Some(now + CODE_LIFETIME_MS)), CodeSent)
  }

  function ResetPassword(a: Account, code: Code, password: Hash, now: Time): (Account, Reply) {
    if a.resetCode != Some(code) then (a, InvalidCode)
    else if a.resetCodeExpiry == None || a.resetCodeExpiry.value < now then (a, CodeExpired)
    else (a.(password := Some(password), provider := Local, resetCode := None, resetCodeExpiry := None), PasswordReset)
  }

  /** The account document and the handlers that update it. */
  class AccountStore {
    var password: Option<Hash>
    var provider: Provider
    var isVerified: bool
    var failedLoginAttempts: nat
    var lockedUntil: Option<Time>
    var resetCode: Option<Code>
    var resetCodeExpiry: Option<Time>

    function Value(): Account
      reads this
    {
      Account(password, provider, isVerified, failedLoginAttempts, lockedUntil, resetCode, resetCodeExpiry)
    }

    constructor Signup(password: Hash)
      ensures Value() == SignedUp(password)
    {
      this.password, provider, isVerified := Some(password), Local, false;
      failedLoginAttempts, lockedUntil := 0, None;
      resetCode, resetCodeExpiry := None, None;
    }

    /** Also answers whether the password was compared. */
    method HandleLogin(matches: bool, now: Time) returns (reply: Reply, compared: bool)
      modifies this`failedLoginAttempts, this`lockedUntil
      ensures (Value(), reply) == Login(old(Value()), matches, now)
      ensures compared <==> Compares(old(Value()), now)
    {
      if password == None {
        return NoPassword, false;
      }
      if lockedUntil.Some? && lockedUntil.value > now {
        return Locked, false;
      }
      if !isVerified {
        return Unverified, false;
      }
      if !matches {
        failedLoginAttempts := failedLoginAttempts + 1;
        if failedLoginAttempts >= MAX_FAILED_LOGIN_ATTEMPTS {
          failedLoginAttempts := 0;
          lockedUntil := Some(now + LOGIN_LOCK_WINDOW_MS);
        }
        return WrongPassword, true;
      }
      if failedLoginAttempts != 0 || lockedUntil.Some? {
        failedLoginAttempts := 0;
        lockedUntil := None;
      }
      return Granted, true;
    }

    method HandleIssue(code: Code, now: Time) returns (reply: Reply)
      modifies this`resetCode, this`resetCodeExpiry
      ensures (Value(), reply) == IssueResetCode(old(Value()), code, now)
    {
      if provider == Google && password == None {
        return GoogleOnly;
      }
      resetCode := Some(code);
      resetCodeExpiry := Some(now + CODE_LIFETIME_MS);
      return CodeSent;
    }

    method HandleReset(code: Code, newPassword: Hash, now: Time) returns (reply: Reply)
      modifies this`password, this`provider, this`resetCode, this`resetCodeExpiry
      ensures (Value(), reply) == ResetPassword(old(Value()), code, newPassword, now)
    {
      if resetCode != Some(code) {
        return InvalidCode;
      }
      if resetCodeExpiry == None || resetCodeExpiry.value < now {
        return CodeExpired;
      }
      password := Some(newPassword);
      provider := Local;
      resetCode := None;
      resetCodeExpiry := None;
      return PasswordReset;
    }
  }

  // ----- Runs

  datatype Event =
    | LoginTried(matches: bool, now: Time)
    | CodeRequested(code: Code, now: Time)
    | ResetTried(code: Code, password: Hash, now: Time)
    | EmailVerified(now: Time)
    | GoogleSignIn(now: Time)

  function SignedUp(password: Hash): Account {
    Account(Some(password), Local, false, 0, None, None, None)
  }

  /** An account first created by a Google sign-in has no password. */
  function GoogleCreated(): Account {
    Account(None, Google, true, 0, None, None, None)
  }

  predicate IsNew(a: Account) {
    a == GoogleCreated() || (a.password.Some? && a == SignedUp(a.password.value))
  }

  function Handle(a: Account, e: Event): (Account, Option<Reply>) {
    match e
    case LoginTried(matches, now) => var (b, r) := Login(a, matches, now); (b, Some(r))
    case CodeRequested(code, now) => var (b, r) := IssueResetCode(a, code, now); (b, Some(r))
    case ResetTried(code, password, now) => var (b, r) := ResetPassword(a, code, password, now); (b, Some(r))
    case EmailVerified(_) => (a.(isVerified := true), None)
    case GoogleSignIn(_) => (a.(provider := Google, isVerified := true), None)
  }

  function Run(a: Account, events: seq<Event>): Account
    decreases |events|
  {
    if events == [] then a else Run(Handle(a, events[0]).0, events[1..])
  }

  predicate InOrder(events: seq<Event>) {
    forall i, j :: 0 <= i < j < |events| ==> events[i].now <= events[j].now
  }

  // ----- Lockout

  /** Login attempts of a run that looked at the password. */
  function Comparisons(a: Account, events: seq<Event>): nat
    decreases |events|
  {
    if events == [] then 0
    else
      var (b, reply) := Handle(a, events[0]);
      Comparisons(b, events[1..]) + if events[0].LoginTried? && Compares(a, events[0].now) then 1 else 0
  }

  /** A login in the run succeeds. */
  predicate SomeLogin(a: Account, events: seq<Event>)
    decreases |events|
  {
    events != [] &&
    (Handle(a, events[0]).1 == Some(Granted) || SomeLogin(Handle(a, events[0]).0, events[1..]))
  }

  predicate CounterOk(a: Account) {
    a.failedLoginAttempts < MAX_FAILED_LOGIN_ATTEMPTS
  }

  lemma {:induction false} CounterStaysSmall(a: Account, events: seq<Event>)
    requires CounterOk(a)
    ensures CounterOk(Run(a, events))
    decreases |events|
  {
    if events != [] {
      CounterStaysSmall(Handle(a, events[0]).0, events[1..]);
    }
  }

  /** Exactly when a login is refused without a look at the password, granted, or counted as a
      failure, and what it leaves behind. */
  lemma LoginExactly(a: Account, matches: bool, now: Time)
    ensures
      var (b, reply) := Login(a, matches, now);
      var locked := a.lockedUntil.Some? && now < a.lockedUntil.value;
      && (Compares(a, now) <==> a.password.Some? && !locked && a.isVerified)
      && (reply == NoPassword <==> a.password == None)
      && (reply == Locked <==> a.password.Some? && locked)
      && (reply == Unverified <==> a.password.Some? && !locked && !a.isVerified)
      && (!Compares(a, now) ==> b == a)
      && (reply == Granted <==> Compares(a, now) && matches)
      && (reply == Granted ==> b == a.(failedLoginAttempts := 0, lockedUntil := None))
      && (reply == WrongPassword <==> Compares(a, now) && !matches)
      && (reply == WrongPassword ==>
           b == if a.failedLoginAttempts < 4 then a.(failedLoginAttempts := a.failedLoginAttempts + 1)
                else a.(failedLoginAttempts := 0, lockedUntil := Some(now + 15 * 60 * 1000)))
  {
  }

  /** Until a lock's deadline no login succeeds, no password is looked at and the lock stays, whatever
      else happens to the account. */
  lemma {:induction false} NoLoginWhileLocked(a: Account, events: seq<Event>)
    requires a.lockedUntil.Some? && forall e :: e in events ==> e.now < a.lockedUntil.value
    ensures !SomeLogin(a, events) && Comparisons(a, events) == 0
    ensures
      Run(a, events).lockedUntil == a.lockedUntil && Run(a, events).failedLoginAttempts == a.failedLoginAttempts
    decreases |events|
  {
    if events != [] {
      assert events[0] in events;
      assert forall e :: e in events[1..] ==> e in events;
      NoLoginWhileLocked(Handle(a, events[0]).0, events[1..]);
    }
  }

  /** Five wrong passwords in a row on a verified account without failures or lock: whatever follows,
      no login succeeds and no password is looked at for fifteen minutes from the fifth. */
  lemma FiveFailuresLock(a: Account, t1: Time, t2: Time, t3: Time, t4: Time, t5: Time, rest: seq<Event>)
    requires a.password.Some? && a.isVerified && a.failedLoginAttempts == 0 && a.lockedUntil == None
    requires forall e :: e in rest ==> e.now < t5 + 15 * 60 * 1000
    ensures
      var b := Run(a, [LoginTried(false, t1), LoginTried(false, t2), LoginTried(false, t3), LoginTried(false, t4),
                       LoginTried(false, t5)]);
      b.lockedUntil == Some(t5 + 15 * 60 * 1000) && !SomeLogin(b, rest) && Comparisons(b, rest) == 0
  {
    var five := [LoginTried(false, t1), LoginTried(false, t2), LoginTried(false, t3), LoginTried(false, t4),
                 LoginTried(false, t5)];
    var b := a.(lockedUntil := Some(t5 + 15 * 60 * 1000));
    assert five[1..][1..][1..][1..] == [LoginTried(false, t5)] && [LoginTried(false, t5)][1..] == [];
    assert Run(a, five) == Run(a.(failedLoginAttempts := 4), [LoginTried(false, t5)]) == b by {
      FailureCounts(a, t1, five[1..]);
      FailureCounts(a.(failedLoginAttempts := 1), t2, five[1..][1..]);
      FailureCounts(a.(failedLoginAttempts := 2), t3, five[1..][1..][1..]);
      FailureCounts(a.(failedLoginAttempts := 3), t4, five[1..][1..][1..][1..]);
      assert Run(b, []) == b;
    }
    NoLoginWhileLocked(b, rest);
  }

  lemma FailureCounts(a: Account, now: Time, rest: seq<Event>)
    requires a.password.Some? && a.isVerified && a.failedLoginAttempts < 4 && a.lockedUntil == None
    ensures
      Run(a, [LoginTried(false, now)] + rest) == Run(a.(failedLoginAttempts := a.failedLoginAttempts + 1), rest)
  {
    assert ([LoginTried(false, now)] + rest)[1..] == rest;
  }

  /** Comparisons still to come before `end`, when the next event is not before `start`: what is
      left of the current round, and five for every lock window that fits. */
  function Allowance(a: Account, start: Time, end: Time): int {
    var from := if a.lockedUntil.Some? && a.lockedUntil.value > start then a.lockedUntil.value else start;
    if from > end then 0
    else MAX_FAILED_LOGIN_ATTEMPTS - a.failedLoginAttempts
         + MAX_FAILED_LOGIN_ATTEMPTS * ((end - from) / LOGIN_LOCK_WINDOW_MS)
  }

  /** One event uses up what it compares. */
  lemma AllowanceStep(a: Account, e: Event, start: Time, end: Time)
    requires CounterOk(a) && start <= e.now <= end
    requires Handle(a, e).1 != Some(Granted)
    ensures
      var (b, reply) := Handle(a, e);
      Allowance(b, e.now, end) + (if e.LoginTried? && Compares(a, e.now) then 1 else 0) <= Allowance(a, start, end)
  {
    var from := if a.lockedUntil.Some? && a.lockedUntil.value > start then a.lockedUntil.value else start;
    var later := if a.lockedUntil.Some? && a.lockedUntil.value > e.now then a.lockedUntil.value else e.now;
    if later <= end {
      DivideLess(end - later, end - from, LOGIN_LOCK_WINDOW_MS);
    }
    if e.now + LOGIN_LOCK_WINDOW_MS <= end {
      DivideStep(end - e.now, LOGIN_LOCK_WINDOW_MS);
    }
  }

  lemma {:induction false} WithinAllowance(a: Account, events: seq<Event>, start: Time, end: Time)
    requires CounterOk(a) && InOrder(events) && !SomeLogin(a, events)
    requires forall e :: e in events ==> start <= e.now <= end
    ensures Comparisons(a, events) <= (if events == [] then 0 else Allowance(a, start, end))
    decreases |events|
  {
    if events != [] {
      var b := Handle(a, events[0]).0;
      AllowanceStep(a, events[0], start, end);
      forall e | e in events[1..] ensures events[0].now <= e.now <= end {
        var i :| 0 <= i < |events[1..]| && events[1..][i] == e;
        assert events[i + 1] == e;
      }
      WithinAllowance(b, events[1..], events[0].now, end);
      AllowanceNonNegative(b, events[0].now, end);
    }
  }

  lemma AllowanceNonNegative(a: Account, start: Time, end: Time)
    requires CounterOk(a)
    ensures Allowance(a, start, end) >= 0
  {
  }

  lemma {:induction false} RunSplit(a: Account, before: seq<Event>, rest: seq<Event>)
    ensures Run(a, before + rest) == Run(Run(a, before), rest)
    decreases |before|
  {
    if before == [] {
      assert before + rest == rest;
    } else {
      assert (before + rest)[0] == before[0] && (before + rest)[1..] == before[1..] + rest;
      RunSplit(Handle(a, before[0]).0, before[1..], rest);
    }
  }

  /** In any run of an account's handlers, a stretch of events within a window of length T that
      contains no successful login compares at most 5 (T / 15 min + 1) passwords, rounded down. */
  lemma LockoutBoundsGuessing(a: Account, before: seq<Event>, window: seq<Event>, start: Time, length: nat)
    requires IsNew(a) && InOrder(before + window)
    requires forall e :: e in window ==> start <= e.now <= start + length
    requires !SomeLogin(Run(a, before), window)
    ensures Comparisons(Run(a, before), window) <=
            5 * (length / (15 * 60 * 1000) + 1)
    ensures Run(a, before + window).failedLoginAttempts < 5
  {
    hide Run, SomeLogin, Comparisons, InOrder, Allowance;
    CounterStaysSmall(a, before);
    CounterStaysSmall(a, before + window);
    LaterInOrder(before, window);
    WithinAllowance(Run(a, before), window, start, start + length);
    AllowanceAtMost(Run(a, before), start, length);
  }

  lemma LaterInOrder(before: seq<Event>, rest: seq<Event>)
    requires InOrder(before + rest)
    ensures InOrder(rest)
  {
    forall i, j | 0 <= i < j < |rest| ensures rest[i].now <= rest[j].now {
      assert rest[i] == (before + rest)[|before| + i] && rest[j] == (before + rest)[|before| + j];
    }
  }

  lemma AllowanceAtMost(a: Account, start: Time, length: nat)
    requires CounterOk(a)
    ensures Allowance(a, start, start + length) <= MAX_FAILED_LOGIN_ATTEMPTS * (length / LOGIN_LOCK_WINDOW_MS + 1)
  {
    var from := if a.lockedUntil.Some? && a.lockedUntil.value > start then a.lockedUntil.value else start;
    if from <= start + length {
      DivideLess(start + length - from, length, LOGIN_LOCK_WINDOW_MS);
    }
  }

  /** The bound is tight: five wrong passwords at the start of every lock window reach it. */
  function Barrage(start: Time, rounds: nat): seq<Event>
    decreases rounds
  {
    if rounds == 0 then []
    else
      var e := LoginTried(false, start);
      [e, e, e, e, e] + Barrage(start + LOGIN_LOCK_WINDOW_MS, rounds - 1)
  }

  lemma {:induction false} BarrageReachesBound(a: Account, start: Time, rounds: nat)
    requires a.password.Some? && a.isVerified && a.failedLoginAttempts == 0
    requires a.lockedUntil.Some? ==> a.lockedUntil.value <= start
    ensures Comparisons(a, Barrage(start, rounds)) == 5 * rounds
    ensures !SomeLogin(a, Barrage(start, rounds))
    decreases rounds
  {
    if rounds > 0 {
      var e := LoginTried(false, start);
      var rest := Barrage(start + LOGIN_LOCK_WINDOW_MS, rounds - 1);
      var locked := a.(lockedUntil := Some(start + LOGIN_LOCK_WINDOW_MS));
      BarrageReachesBound(locked, start + LOGIN_LOCK_WINDOW_MS, rounds - 1);
      var run := Barrage(start, rounds);
      assert run == [e] + ([e] + ([e] + ([e] + ([e] + rest))));
      WrongTry(a.(failedLoginAttempts := 4), e, rest);
      WrongTry(a.(failedLoginAttempts := 3), e, [e] + rest);
      WrongTry(a.(failedLoginAttempts := 2), e, [e] + ([e] + rest));
      WrongTry(a.(failedLoginAttempts := 1), e, [e] + ([e] + ([e] + rest)));
      WrongTry(a, e, [e] + ([e] + ([e] + ([e] + rest))));
    }
  }

  /** The barrage takes `rounds - 1` lock windows from its first event to its last. */
  lemma {:induction false} BarrageFitsWindow(start: Time, rounds: nat)
    requires rounds > 0
    ensures InOrder(Barrage(start, rounds))
    ensures forall e :: e in Barrage(start, rounds) ==>
              start <= e.now <= start + (rounds - 1) * LOGIN_LOCK_WINDOW_MS
    decreases rounds
  {
    if rounds == 1 {
      assert Barrage(start + LOGIN_LOCK_WINDOW_MS, 0) == [];
    } else {
      BarrageFitsWindow(start + LOGIN_LOCK_WINDOW_MS, rounds - 1);
      var e := LoginTried(false, start);
      var rest := Barrage(start + LOGIN_LOCK_WINDOW_MS, rounds - 1);
      assert Barrage(start, rounds) == [e, e, e, e, e] + rest;
      assert forall i :: 0 <= i < |rest| ==> rest[i] in rest;
    }
  }

  lemma WrongTry(a: Account, e: Event, rest: seq<Event>)
    requires a.password.Some? && a.isVerified && e.LoginTried? && !e.matches
    requires a.lockedUntil.Some? ==> a.lockedUntil.value <= e.now
    ensures Comparisons(a, [e] + rest) == Comparisons(Login(a, false, e.now).0, rest) + 1
    ensures SomeLogin(a, [e] + rest) <==> SomeLogin(Login(a, false, e.now).0, rest)
  {
    assert ([e] + rest)[1..] == rest;
  }

  // ----- Reset codes

  /** Exactly when a code is issued and when a reset succeeds, and what they leave behind. */
  lemma ResetExactly(a: Account, code: Code, password: Hash, now: Time)
    ensures
      var (b, reply) := IssueResetCode(a, code, now);
      && (reply == CodeSent <==> a.provider != Google || a.password.Some?)
      && b == if reply == CodeSent then a.(resetCode := Some(code), resetCodeExpiry := Some(now + 10 * 60 * 1000)) else a
    ensures
      var (b, reply) := ResetPassword(a, code, password, now);
      && (reply == PasswordReset <==> a.resetCode == Some(code) && a.resetCodeExpiry.Some? && now <= a.resetCodeExpiry.value)
      && (reply == InvalidCode <==> a.resetCode != Some(code))
      && b == if reply == PasswordReset
              then a.(password := Some(password), provider := Local, resetCode := None, resetCodeExpiry := None) else a
  {
  }

  /** Nothing in the run issues another code or tries this one. */
  predicate LeavesAlone(events: seq<Event>, code: Code) {
    forall e :: e in events ==> !e.CodeRequested? && (e.ResetTried? ==> e.code != code)
  }

  lemma {:induction false} CodeStays(a: Account, code: Code, events: seq<Event>)
    requires a.resetCode == Some(code) && LeavesAlone(events, code)
    ensures Run(a, events).resetCode == Some(code) && Run(a, events).resetCodeExpiry == a.resetCodeExpiry
    decreases |events|
  {
    if events != [] {
      assert events[0] in events;
      assert forall e :: e in events[1..] ==> e in events;
      CodeStays(Handle(a, events[0]).0, code, events[1..]);
    }
  }

  /** An issued code that is neither replaced nor used sets the new password exactly up to ten minutes
      after its issue, whatever else happens in between. */
  lemma CodeWorksTenMinutes(a: Account, code: Code, at: Time, rest: seq<Event>, password: Hash, now: Time)
    requires Handle(a, CodeRequested(code, at)).1 == Some(CodeSent) && LeavesAlone(rest, code)
    ensures
      var b := Run(Handle(a, CodeRequested(code, at)).0, rest);
      var (c, reply) := Handle(b, ResetTried(code, password, now));
      && (reply == Some(PasswordReset) <==> now <= at + 10 * 60 * 1000)
      && (reply == Some(PasswordReset) ==> c.password == Some(password) && c.resetCode == None)
  {
    CodeStays(Handle(a, CodeRequested(code, at)).0, code, rest);
  }

  datatype Mark = Issued(code: Code, at: Time) | Reset(code: Code, at: Time)

  /** The code issues and the successful resets of a run, in order. */
  function Marks(a: Account, events: seq<Event>): seq<Mark>
    decreases |events|
  {
    if events == [] then []
    else
      var (b, reply) := Handle(a, events[0]);
      (if reply == Some(CodeSent) then [Issued(events[0].code, events[0].now)]
       else if reply == Some(PasswordReset) then [Reset(events[0].code, events[0].now)]
       else []) + Marks(b, events[1..])
  }

  /** The stored code is the one issued last, unless it has been used. */
  predicate HoldsLast(a: Account, last: Option<Mark>) {
    if last.Some? && last.value.Issued?
    then a.resetCode == Some(last.value.code) && a.resetCodeExpiry == Some(last.value.at + CODE_LIFETIME_MS)
    else a.resetCode == None
  }

  function Previous(last: Option<Mark>, marks: seq<Mark>, i: nat): Option<Mark>
    requires i < |marks|
  {
    if i == 0 then last else Some(marks[i - 1])
  }

  /** A reset directly follows the issue of its code, in time. */
  predicate PairsUp(last: Option<Mark>, marks: seq<Mark>, i: nat)
    requires i < |marks|
  {
    var previous := Previous(last, marks, i);
    marks[i].Reset? ==>
      && previous.Some? && previous.value.Issued?
      && previous.value.code == marks[i].code && marks[i].at <= previous.value.at + CODE_LIFETIME_MS
  }

  predicate AllPairUp(last: Option<Mark>, marks: seq<Mark>) {
    forall i :: 0 <= i < |marks| ==> PairsUp(last, marks, i)
  }

  lemma {:induction false} MarksPairUp(a: Account, events: seq<Event>, last: Option<Mark>)
    requires HoldsLast(a, last)
    ensures AllPairUp(last, Marks(a, events))
    decreases |events|
  {
    if events != [] {
      var (b, reply) := Handle(a, events[0]);
      var rest := Marks(b, events[1..]);
      var marks := Marks(a, events);
      if reply == Some(CodeSent) || reply == Some(PasswordReset) {
        MarksPairUp(b, events[1..], Some(marks[0]));
        assert marks == [marks[0]] + rest;
        forall i | 0 <= i < |marks| ensures PairsUp(last, marks, i) {
          if i > 0 {
            assert PairsUp(Some(marks[0]), rest, i - 1);
            assert Previous(Some(marks[0]), rest, i - 1) == Previous(last, marks, i);
          }
        }
      } else {
        MarksPairUp(b, events[1..], last);
        assert marks == rest;
      }
    }
  }

  function Resets(marks: seq<Mark>): nat {
    if marks == [] then 0 else Resets(marks[..|marks| - 1]) + if marks[|marks| - 1].Reset? then 1 else 0
  }

  function Issues(marks: seq<Mark>): nat {
    if marks == [] then 0 else Issues(marks[..|marks| - 1]) + if marks[|marks| - 1].Issued? then 1 else 0
  }

  lemma PairUpShorter(marks: seq<Mark>, n: nat)
    requires AllPairUp(None, marks) && n <= |marks|
    ensures AllPairUp(None, marks[..n])
  {
    forall i | 0 <= i < n ensures PairsUp(None, marks[..n], i) {
      assert PairsUp(None, marks, i);
      assert Previous(None, marks[..n], i) == Previous(None, marks, i);
    }
  }

  lemma {:induction false} NoMoreResetsThanIssues(marks: seq<Mark>)
    requires AllPairUp(None, marks)
    ensures Resets(marks) <= Issues(marks)
  {
    if marks != [] {
      var n := |marks| - 1;
      if marks[n].Reset? {
        assert PairsUp(None, marks, n);
        assert marks[..n][..n - 1] == marks[..n - 1];
        PairUpShorter(marks, n - 1);
        NoMoreResetsThanIssues(marks[..n - 1]);
      } else {
        PairUpShorter(marks, n);
        NoMoreResetsThanIssues(marks[..n]);
      }
    }
  }

  /** Every successful reset comes right after the issue of the very code it used, with no other
      issue or reset in between and no more than ten minutes later, so an issue serves at most one
      reset and resets never outnumber issues. */
  lemma ResetsUseTheirOwnCode(a: Account, events: seq<Event>)
    requires IsNew(a)
    ensures
      var marks := Marks(a, events);
      && (forall i :: 0 <= i < |marks| && marks[i].Reset? ==>
           && i > 0 && marks[i - 1].Issued? && marks[i - 1].code == marks[i].code
           && marks[i].at <= marks[i - 1].at + 10 * 60 * 1000)
      && Resets(marks) <= Issues(marks)
  {
    MarksPairUp(a, events, None);
    var marks := Marks(a, events);
    NoMoreResetsThanIssues(marks);
    forall i | 0 <= i < |marks| && marks[i].Reset?
      ensures i > 0 && marks[i - 1].Issued? && marks[i - 1].code == marks[i].code
              && marks[i].at <= marks[i - 1].at + CODE_LIFETIME_MS
    {
      assert PairsUp(None, marks, i);
    }
  }
}
