// Failed-login and failed-MFA counters of one account, the lock, and how fast
// guesses can be made against them (internal/handlers/auth.go, mfa.go,
// internal/database/users.go).
module Lockout {
  import opened Prelude

  // Instants and durations are in nanoseconds; the column locked_until keeps whole
  // seconds, so what it holds may fall short of the instant stored by up to one.
  const SECOND := 1_000_000_000
  const LOCKOUT_THRESHOLD := 10
  const LOCKOUT_DURATION := 15 * 60 * SECOND
  const MFA_THRESHOLD := 5

  datatype TokenType = FullToken | PendingMFA | MFASetup | EmailUnverified

  datatype Settings = Settings(emailVerification: bool, mfaRequired: bool)

  /** The columns the decisions read that logins do not write. */
  datatype Profile = Profile(deleted: bool, blocked: bool, emailVerified: bool, mfaEnabled: bool, mfaSetupRequired: bool, mfaSecret: bool)

  datatype Account = Account(profile: Profile, failed: nat, lockedUntil: Option<int>, mfaFailed: nat)

  datatype LoginResult = AccountDeleted | AccountBlocked | AccountLocked | WrongPassword | LoggedIn(token: TokenType)

  function TokenFor(s: Settings, p: Profile): TokenType {
    if s.emailVerification && !p.emailVerified then EmailUnverified
    else if !s.mfaRequired then FullToken
    else if p.mfaSetupRequired && !p.mfaEnabled then MFASetup
    else if p.mfaEnabled then PendingMFA
    else FullToken
  }

  predicate Locked(a: Account, now: int) {
    a.lockedUntil.Some? && now < a.lockedUntil.value
  }

  /** What a login attempt does: the lock is looked at at `now`, a new lock is set
      from `later`, and `lost` is what storing it loses of its end. */
  function AfterLogin(a: Account, passwordOk: bool, now: int, later: int, lost: int): Account {
    if a.profile.deleted || a.profile.blocked || Locked(a, now) then a
    else if !passwordOk then
      a.(failed := a.failed + 1,
         lockedUntil := if a.failed + 1 >= LOCKOUT_THRESHOLD then Some(later + LOCKOUT_DURATION - lost) else a.lockedUntil)
    else
      a.(failed := 0, lockedUntil := if a.failed > 0 then None else a.lockedUntil, mfaFailed := 0)
  }

  function LoginAnswer(s: Settings, a: Account, passwordOk: bool, now: int): LoginResult {
    if a.profile.deleted then AccountDeleted
    else if a.profile.blocked then AccountBlocked
    else if Locked(a, now) then AccountLocked
    else if !passwordOk then WrongPassword
    else LoggedIn(TokenFor(s, a.profile))
  }

  /** What the code or backup-code check comes to. */
  datatype Check = Valid | Invalid | NoBackupCodes | CheckError

  datatype VerifyResult = MFANotEnabled | Misconfigured | MFALocked | Wrong(remaining: nat) | NoCodesLeft | ServerError | Verified

  function AfterVerify(a: Account, check: Check): Account {
    if !a.profile.mfaEnabled || !a.profile.mfaSecret || a.mfaFailed >= MFA_THRESHOLD then a
    else if check.Invalid? then a.(mfaFailed := a.mfaFailed + 1)
    else if check.Valid? then a.(mfaFailed := 0)
    else a
  }

  function VerifyAnswer(a: Account, check: Check): VerifyResult {
    if !a.profile.mfaEnabled then MFANotEnabled
    else if !a.profile.mfaSecret then Misconfigured
    else if a.mfaFailed >= MFA_THRESHOLD then MFALocked
    else match check
      case Valid => Verified
      case Invalid => if a.mfaFailed + 1 >= MFA_THRESHOLD then MFALocked else Wrong(MFA_THRESHOLD - a.mfaFailed - 1)
      case NoBackupCodes => NoCodesLeft
      case CheckError => ServerError
  }

  /** The user row, with the statements the handlers run on it. */
  class UserRow {
    const profile: Profile
    var failed: nat
    var lockedUntil: Option<int>
    var mfaFailed: nat

    function Row(): Account
      reads this
    {
      Account(profile, failed, lockedUntil, mfaFailed)
    }

    constructor (profile: Profile)
      ensures Row() == Account(profile, 0, None, 0)
    {
      this.profile := profile;
      failed, lockedUntil, mfaFailed := 0, None, 0;
    }

    method IncrementFailedLoginAttempts() returns (count: nat)
      modifies this`failed
      ensures failed == old(failed) + 1 == count
    {
      failed := failed + 1;
      count := failed;
    }

    method LockAccount(until: int, lost: int)
      modifies this`lockedUntil
      ensures lockedUntil == Some(until - lost)
    {
      lockedUntil := Some(until - lost);
    }

    method ResetFailedLoginAttempts()
      modifies this`failed, this`lockedUntil
      ensures failed == 0 && lockedUntil == None
    {
      failed, lockedUntil := 0, None;
    }

    method IncrementFailedMFAAttempts() returns (count: nat)
      modifies this`mfaFailed
      ensures mfaFailed == old(mfaFailed) + 1 == count
    {
      mfaFailed := mfaFailed + 1;
      count := mfaFailed;
    }

    method ResetFailedMFAAttempts()
      modifies this`mfaFailed
      ensures mfaFailed == 0
    {
      mfaFailed := 0;
    }

    /** One attempt. Each refusal has its condition, in the order deleted, blocked,
        locked, wrong password; where none holds, the token depends on the address,
        on whether a second factor is required, and on whether the account has one
        to pass or one to set up. A wrong password counts, the tenth in a row and
        every later one lock for a quarter of an hour; a login clears the counters. */
    method Login(s: Settings, passwordOk: bool, now: int, later: int, lost: int) returns (result: LoginResult)
      modifies this
      ensures Row() == AfterLogin(old(Row()), passwordOk, now, later, lost)
      ensures result == LoginAnswer(s, old(Row()), passwordOk, now)
      ensures result == AccountDeleted <==> profile.deleted
      ensures result == AccountBlocked <==> !profile.deleted && profile.blocked
      ensures result == AccountLocked <==> !profile.deleted && !profile.blocked && old(lockedUntil.Some? && now < lockedUntil.value)
      ensures result == WrongPassword <==>
        !profile.deleted && !profile.blocked && old(lockedUntil.Some? ==> lockedUntil.value <= now) && !passwordOk
      ensures result.LoggedIn? <==>
        !profile.deleted && !profile.blocked && old(lockedUntil.Some? ==> lockedUntil.value <= now) && passwordOk
      ensures result.LoggedIn? ==>
        && (result.token == EmailUnverified <==> s.emailVerification && !profile.emailVerified)
        && (result.token == MFASetup <==>
              (s.emailVerification ==> profile.emailVerified) && s.mfaRequired && profile.mfaSetupRequired && !profile.mfaEnabled)
        && (result.token == PendingMFA <==>
              (s.emailVerification ==> profile.emailVerified) && s.mfaRequired && profile.mfaEnabled)
        && (result.token == FullToken <==>
              (s.emailVerification ==> profile.emailVerified)
              && (s.mfaRequired ==> !profile.mfaEnabled && !profile.mfaSetupRequired))
      ensures result == WrongPassword ==>
        && failed == old(failed) + 1 && mfaFailed == old(mfaFailed)
        && lockedUntil == if failed >= 10 then Some(later + 900_000_000_000 - lost) else old(lockedUntil)
      ensures result.LoggedIn? ==> failed == 0 && mfaFailed == 0 && lockedUntil == if old(failed) > 0 then None else old(lockedUntil)
      ensures result.AccountDeleted? || result.AccountBlocked? || result.AccountLocked? ==> Row() == old(Row())
    {
      if profile.deleted {
        return AccountDeleted;
      }
      if profile.blocked {
        return AccountBlocked;
      }
      if lockedUntil.Some? && now < lockedUntil.value {
        return AccountLocked;
      }
      if !passwordOk {
        var count := IncrementFailedLoginAttempts();
        if count >= LOCKOUT_THRESHOLD {
          LockAccount(later + LOCKOUT_DURATION, lost);
        }
        return WrongPassword;
      }
      if failed > 0 {
        ResetFailedLoginAttempts();
      }
      if mfaFailed > 0 {
        ResetFailedMFAAttempts();
      }
      if s.emailVerification && !profile.emailVerified {
        return LoggedIn(EmailUnverified);
      } else if !s.mfaRequired {
        return LoggedIn(FullToken);
      } else if profile.mfaSetupRequired && !profile.mfaEnabled {
        return LoggedIn(MFASetup);
      } else if profile.mfaEnabled {
        return LoggedIn(PendingMFA);
      }
      return LoggedIn(FullToken);
    }

    /** One check of a second factor. Only a wrong code counts, and the fifth closes the
        account's checks; a right one clears the counter. */
    method Verify(check: Check) returns (result: VerifyResult)
      modifies this
      ensures Row() == AfterVerify(old(Row()), check)
      ensures result == VerifyAnswer(old(Row()), check)
      ensures result ==
        if !profile.mfaEnabled then MFANotEnabled
        else if !profile.mfaSecret then Misconfigured
        else if old(mfaFailed) >= 5 then MFALocked
        else if check == Valid then Verified
        else if check == NoBackupCodes then NoCodesLeft
        else if check == CheckError then ServerError
        else if old(mfaFailed) == 4 then MFALocked
        else Wrong(4 - old(mfaFailed))
      ensures failed == old(failed) && lockedUntil == old(lockedUntil)
      ensures mfaFailed ==
        if result == Verified then 0
        else if profile.mfaEnabled && profile.mfaSecret && check == Invalid && old(mfaFailed) < 5 then old(mfaFailed) + 1
        else old(mfaFailed)
    {
      if !profile.mfaEnabled {
        return MFANotEnabled;
      }
      if !profile.mfaSecret {
        return Misconfigured;
      }
      if mfaFailed >= MFA_THRESHOLD {
        return MFALocked;
      }
      match check
      case NoBackupCodes => return NoCodesLeft;
      case CheckError => return ServerError;
      case Invalid =>
        var count := IncrementFailedMFAAttempts();
        if count >= MFA_THRESHOLD {
          return MFALocked;
        }
        return Wrong(MFA_THRESHOLD - count);
      case Valid =>
        if mfaFailed > 0 {
          ResetFailedMFAAttempts();
        }
        return Verified;
    }
  }

  // ---- Histories ----

  datatype Event = Attempt(passwordOk: bool, now: int, later: int, lost: int) | MFACheck(check: Check)

  function Step(a: Account, e: Event): Account {
    match e
    case Attempt(ok, now, later, lost) => AfterLogin(a, ok, now, later, lost)
    case MFACheck(check) => AfterVerify(a, check)
  }

  /** A password was compared and was wrong. */
  predicate FailsPassword(a: Account, e: Event) {
    e.Attempt? && !e.passwordOk && !a.profile.deleted && !a.profile.blocked && !Locked(a, e.now)
  }

  /** A login that got through. */
  predicate LogsIn(a: Account, e: Event) {
    e.Attempt? && e.passwordOk && !a.profile.deleted && !a.profile.blocked && !Locked(a, e.now)
  }

  ghost function PasswordFailures(a: Account, es: seq<Event>): nat
    decreases |es|
  {
    if es == [] then 0 else (if FailsPassword(a, es[0]) then 1 else 0) + PasswordFailures(Step(a, es[0]), es[1..])
  }

  /** No attempt gets through, the attempts follow each other between `from` and
      `to`, and storing a lock loses at most `slack`. */
  ghost predicate Guessing(a: Account, es: seq<Event>, from: int, to: int, slack: int)
    decreases |es|
  {
    es != [] ==>
      && !LogsIn(a, es[0])
      && (es[0].Attempt? ==> from <= es[0].now <= es[0].later <= to && es[0].lost <= slack)
      && Guessing(Step(a, es[0]), es[1..], Onward(es[0], from), to, slack)
  }

  /** Where the next attempt may start. */
  function Onward(e: Event, from: int): int {
    if e.Attempt? then e.later else from
  }

  /** Failures that cost no waiting. */
  function Free(a: Account): int {
    if a.failed < LOCKOUT_THRESHOLD then LOCKOUT_THRESHOLD - a.failed else 1
  }

  /** The earliest instant a password is compared at again. */
  function Earliest(a: Account, from: int): int {
    if Locked(a, from) then a.lockedUntil.value else from
  }

  /** `k` waits of `gap` each. */
  function Waits(k: int, gap: int): int
    decreases k
  {
    if k <= 0 then 0 else gap + Waits(k - 1, gap)
  }

  lemma {:induction false} FailuresTakeTime(a: Account, es: seq<Event>, from: int, to: int, slack: int)
    requires Guessing(a, es, from, to, slack) && slack <= LOCKOUT_DURATION
    ensures PasswordFailures(a, es) > 0 ==>
      Earliest(a, from) + Waits(PasswordFailures(a, es) - Free(a), LOCKOUT_DURATION - slack) <= to
    decreases |es|
  {
    if es != [] {
      FailuresTakeTime(Step(a, es[0]), es[1..], Onward(es[0], from), to, slack);
    }
  }

  lemma {:induction false} WaitsAdd(k: nat, gap: int)
    ensures Waits(k, gap) == k * gap
  {
    if k > 0 {
      WaitsAdd(k - 1, gap);
      assert k * gap == (k - 1) * gap + gap;
    }
  }

  lemma LessTimes(a: int, b: int, gap: int)
    requires gap > 0 && a * gap < b * gap
    ensures a < b
  {
    assert (b - a) * gap == b * gap - a * gap;
  }

  lemma WaitsFit(k: int, gap: int, time: nat)
    requires gap > 0 && (k > 0 ==> Waits(k, gap) <= time)
    ensures k <= time / gap
  {
    if k > 0 {
      WaitsAdd(k, gap);
      assert time / gap * gap + time % gap == time;
      assert (time / gap + 1) * gap == time / gap * gap + gap;
      LessTimes(k, time / gap + 1, gap);
    }
  }

  /** Without a successful login, an account that starts unlocked with no failures
      on record has at most 10 password comparisons fail in any stretch, plus one
      for each full lock it lasts, a lock being a quarter of an hour less what
      storing its end loses: every failure from the tenth on locks again. */
  lemma FailureRate(a: Account, es: seq<Event>, from: int, to: int, slack: int)
    requires a.failed == 0 && !Locked(a, from) && from <= to && Guessing(a, es, from, to, slack)
    requires 0 <= slack < LOCKOUT_DURATION
    ensures PasswordFailures(a, es) <= LOCKOUT_THRESHOLD + (to - from) / (LOCKOUT_DURATION - slack)
  {
    FailuresTakeTime(a, es, from, to, slack);
    WaitsFit(PasswordFailures(a, es) - LOCKOUT_THRESHOLD, LOCKOUT_DURATION - slack, to - from);
  }

  /** For the column as it is: whole seconds, so less than a second is lost. */
  lemma FailureRateInSeconds(a: Account, es: seq<Event>, from: int, to: int)
    requires a.failed == 0 && !Locked(a, from) && from <= to && Guessing(a, es, from, to, SECOND)
    ensures PasswordFailures(a, es) <= 10 + (to - from) / (899 * SECOND)
  {
    FailureRate(a, es, from, to, SECOND);
  }

  // ---- The fastest guesser ----

  function LockoutGuesses(k: nat, from: int, lost: int): seq<Event> {
    if k == 0 then []
    else LockoutGuesses(k - 1, from, lost) + [Attempt(false, GuessTime(k, from, lost), GuessTime(k, from, lost), lost)]
  }

  /** The instant of the k-th guess: ten at once, then one as each lock ends. */
  function GuessTime(k: nat, from: int, lost: int): int {
    from + Waits(k - LOCKOUT_THRESHOLD, LOCKOUT_DURATION - lost)
  }

  function Run(a: Account, es: seq<Event>): Account
    decreases |es|
  {
    if es == [] then a else Run(Step(a, es[0]), es[1..])
  }

  function EndOf(es: seq<Event>, from: int): int
    decreases |es|
  {
    if es == [] then from else EndOf(es[1..], Onward(es[0], from))
  }

  lemma {:induction false} FailuresAppend(a: Account, es: seq<Event>, e: Event)
    ensures PasswordFailures(a, es + [e]) == PasswordFailures(a, es) + if FailsPassword(Run(a, es), e) then 1 else 0
    ensures Run(a, es + [e]) == Step(Run(a, es), e)
    decreases |es|
  {
    if es == [] {
      assert [] + [e] == [e] && [e][1..] == [];
      assert PasswordFailures(Step(a, e), []) == 0 && Run(Step(a, e), []) == Step(a, e);
    } else {
      assert (es + [e])[1..] == es[1..] + [e];
      FailuresAppend(Step(a, es[0]), es[1..], e);
    }
  }

  lemma {:induction false} GuessingAppends(a: Account, es: seq<Event>, e: Event, from: int, to: int, later: int, slack: int)
    requires Guessing(a, es, from, to, slack) && to <= later
    requires e.Attempt? && !LogsIn(Run(a, es), e) && EndOf(es, from) <= e.now <= e.later <= later && e.lost <= slack
    ensures Guessing(a, es + [e], from, later, slack) && EndOf(es + [e], from) == e.later
    decreases |es|
  {
    if es == [] {
      assert [] + [e] == [e] && [e][1..] == [];
      assert Guessing(Step(a, e), [], e.later, later, slack);
      assert EndOf([], e.later) == e.later;
    } else {
      assert (es + [e])[1..] == es[1..] + [e];
      GuessingAppends(Step(a, es[0]), es[1..], e, Onward(es[0], from), to, later, slack);
    }
  }

  /** The bound is reached, whatever storing loses: guessing as soon as the lock ends,
      `k` guesses are compared and fail by the time of the k-th. */
  lemma {:induction false} RateIsReached(a: Account, k: nat, from: int, lost: int)
    requires a.failed == 0 && a.lockedUntil.None? && !a.profile.deleted && !a.profile.blocked && lost < LOCKOUT_DURATION
    ensures var es := LockoutGuesses(k, from, lost);
      && PasswordFailures(a, es) == k && Guessing(a, es, from, GuessTime(k, from, lost), lost)
      && EndOf(es, from) == GuessTime(k, from, lost)
      && Run(a, es) == a.(failed := k, lockedUntil := if k < LOCKOUT_THRESHOLD then None
                                                        else Some(GuessTime(k, from, lost) + LOCKOUT_DURATION - lost))
  {
    if k > 0 {
      RateIsReached(a, k - 1, from, lost);
      var guess := Attempt(false, GuessTime(k, from, lost), GuessTime(k, from, lost), lost);
      FailuresAppend(a, LockoutGuesses(k - 1, from, lost), guess);
      GuessingAppends(a, LockoutGuesses(k - 1, from, lost), guess, from, GuessTime(k - 1, from, lost), GuessTime(k, from, lost), lost);
    }
  }

  // ---- MFA ----

  predicate FailsMFA(a: Account, e: Event) {
    e.MFACheck? && e.check.Invalid? && a.profile.mfaEnabled && a.profile.mfaSecret && a.mfaFailed < MFA_THRESHOLD
  }

  /** A successful login or a successful check: both clear the MFA counter. */
  predicate ResetsMFA(a: Account, e: Event) {
    LogsIn(a, e)
    || (e.MFACheck? && e.check.Valid? && a.profile.mfaEnabled && a.profile.mfaSecret && a.mfaFailed < MFA_THRESHOLD)
  }

  ghost function MFAFailures(a: Account, es: seq<Event>): nat
    decreases |es|
  {
    if es == [] then 0 else (if FailsMFA(a, es[0]) then 1 else 0) + MFAFailures(Step(a, es[0]), es[1..])
  }

  ghost function Resets(a: Account, es: seq<Event>): nat
    decreases |es|
  {
    if es == [] then 0 else (if ResetsMFA(a, es[0]) then 1 else 0) + Resets(Step(a, es[0]), es[1..])
  }

  /** At most five failed MFA checks between two resets of their counter, whatever
      else happens: in any history, five for each reset and what was left of the
      first five. */
  lemma {:induction false} MFAFailuresAreBounded(a: Account, es: seq<Event>)
    requires a.mfaFailed <= 5
    ensures MFAFailures(a, es) <= 5 - a.mfaFailed + 5 * Resets(a, es)
    decreases |es|
  {
    if es != [] {
      MFAFailuresAreBounded(Step(a, es[0]), es[1..]);
    }
  }

  ghost predicate NoLogin(a: Account, es: seq<Event>)
    decreases |es|
  {
    es != [] ==> !LogsIn(a, es[0]) && NoLogin(Step(a, es[0]), es[1..])
  }

  /** Once five checks have failed, only a new login helps: until one gets through,
      every check is refused, right or wrong. */
  lemma {:induction false} ExhaustedUntilLogin(a: Account, es: seq<Event>, check: Check)
    requires a.mfaFailed >= 5 && a.profile.mfaEnabled && a.profile.mfaSecret
    requires NoLogin(a, es)
    ensures VerifyAnswer(Run(a, es), check) == MFALocked
    decreases |es|
  {
    if es != [] {
      ExhaustedUntilLogin(Step(a, es[0]), es[1..], check);
    }
  }
}
