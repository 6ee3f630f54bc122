/** The one-time-password check of pong/authentication/auth.py (OTPView) and the redirect
    choice of OAuthView. The OTPSecret table is a map from user id to its row, the
    `otp_passed_{token}` cache entries are the set of tokens that passed, and pyotp's
    verdict on the submitted code is an input. Instants are integer microseconds. */
module Auth {
  import opened Common

  const MAX_ATTEMPTS := 5

  /** Seconds a locked account stays locked after its last attempt. */
  const LOCK_ACCOUNT := 9
  const MICROS_PER_SECOND := 1_000_000

  /** Microseconds since an arbitrary epoch. */
  type Instant = int

  /** The otp_data dict of one user (the fields of an OTPSecret row). */
  datatype OtpData = OtpData(
    secret: string,
    attempts: int,
    lastAttempt: Option<Instant>,
    isLocked: bool,
    isVerified: bool)

  /** The part of the cached user data the view reads: its "id", if any. */
  datatype UserData = UserData(id: Option<int>)

  /** The four answers of OTPView.post. */
  datatype OtpResponse =
    | OtpDataMissing                  // 500 "Can't found OTP data."
    | AccountLocked                   // 403 "Account is locked. try later"
    | AttemptsExceeded                // 403 "Maximum number of attempts exceeded. ..."
    | Verified                        // 200 "OTP authentication verified"
    | Incorrect(remainAttempts: int)  // 400 "Incorrect password."

  function Status(r: OtpResponse): int
  {
    match r
    case OtpDataMissing => 500
    case AccountLocked => 403
    case AttemptsExceeded => 403
    case Verified => 200
    case Incorrect(_) => 400
  }

  /** password_fail_response */
  function PasswordFailResponse(attempts: int): (r: OtpResponse)
    ensures Status(r) == 400 && r.remainAttempts + attempts == MAX_ATTEMPTS
  {
    Incorrect(MAX_ATTEMPTS - attempts)
  }

  /** Has the lock of an account locked at `last` run out at `now`? */
  function LockExpired(last: Option<Instant>, now: Instant): (expired: bool)
    ensures last.None? ==> !expired
    ensures last.Some? ==> (expired <==> now >= last.value + LOCK_ACCOUNT * MICROS_PER_SECOND + 1)
  {
    last.Some? && now - last.value > LOCK_ACCOUNT * MICROS_PER_SECOND
  }

  /** is_account_locked: whether the account is locked at `now`, and the dict afterwards.
      An expired lock is lifted and the attempt count cleared; nothing else ever changes. */
  function IsAccountLocked(d: OtpData, now: Instant): (r: (bool, OtpData))
    ensures !d.isLocked ==> r == (false, d)
    ensures r.0 <==> d.isLocked && !LockExpired(d.lastAttempt, now)
    ensures r.0 ==> r.1 == d
    ensures d.isLocked && !r.0 ==> r.1 == d.(isLocked := false, attempts := 0)
  {
    if d.isLocked then
      if LockExpired(d.lastAttempt, now) then (false, d.(isLocked := false, attempts := 0))
      else (true, d)
    else (false, d)
  }

  /** update_otp_data: the four mutable columns of the row take the dict's values. */
  function Written(row: OtpData, d: OtpData): (r: OtpData)
    ensures r.secret == row.secret && r.attempts == d.attempts && r.lastAttempt == d.lastAttempt
    ensures r.isLocked == d.isLocked && r.isVerified == d.isVerified
  {
    row.(attempts := d.attempts, lastAttempt := d.lastAttempt, isLocked := d.isLocked, isVerified := d.isVerified)
  }

  /** The dict update_otp_success makes of a successful attempt. */
  function SuccessReset(d: OtpData): (r: OtpData)
    ensures r.attempts == 0 && !r.isLocked && r.isVerified
    ensures r.secret == d.secret && r.lastAttempt == d.lastAttempt
  {
    d.(attempts := 0, isLocked := false, isVerified := true)
  }

  /** What one post leaves behind: the answer (or the exception), the user's row, and
      whether the token was recorded as having passed. */
  datatype PostOutcome = PostOutcome(response: Attempt<OtpResponse>, row: Option<OtpData>, passed: bool)

  /** OTPView.post for the user's row `stored` (`None` when get_otp_data finds none).
      `awaitedSuccess` says whether the success reset reaches the table. */
  function PostWith(awaitedSuccess: bool, userData: Option<UserData>, stored: Option<OtpData>,
                    now: Instant, codeOk: bool): (o: PostOutcome)
    // The exception and the 500 change nothing.
    ensures userData.None? ==> o == PostOutcome(Raised(AttributeError), stored, false)
    ensures userData.Some? && (!TruthyId(userData.value.id) || stored.None?) ==>
              o == PostOutcome(Done(OtpDataMissing), stored, false)
    ensures userData.Some? && TruthyId(userData.value.id) && stored.Some? ==>
              var d := stored.value;
              var (locked, d1) := IsAccountLocked(d, now);
              var d2 := d1.(attempts := d1.attempts + 1, lastAttempt := Some(now));
              // a locked account is refused without counting the attempt
              && (locked ==> o == PostOutcome(Done(AccountLocked), stored, false))
              // the attempt that reaches MAX_ATTEMPTS locks, whatever the code
              && (!locked && d2.attempts >= MAX_ATTEMPTS ==>
                    o == PostOutcome(Done(AttemptsExceeded), Some(Written(d, d2.(isLocked := true))), false))
              && (!locked && d2.attempts < MAX_ATTEMPTS && codeOk ==>
                    o.response == Done(Verified) && o.passed &&
                    o.row == Some(if awaitedSuccess then Written(d, SuccessReset(d2)) else d))
              && (!locked && d2.attempts < MAX_ATTEMPTS && !codeOk ==>
                    o == PostOutcome(Done(PasswordFailResponse(d2.attempts)), Some(Written(d, d2)), false))
  {
    if userData.None? then PostOutcome(Raised(AttributeError), stored, false)
    else if !TruthyId(userData.value.id) || stored.None? then PostOutcome(Done(OtpDataMissing), stored, false)
    else
      var d := stored.value;
      var (locked, d1) := IsAccountLocked(d, now);
      if locked then PostOutcome(Done(AccountLocked), stored, false)
      else
        var d2 := d1.(attempts := d1.attempts + 1, lastAttempt := Some(now));
        if d2.attempts >= MAX_ATTEMPTS then
          PostOutcome(Done(AttemptsExceeded), Some(Written(d, d2.(isLocked := true))), false)
        else if codeOk then
          PostOutcome(Done(Verified), Some(if awaitedSuccess then Written(d, SuccessReset(d2)) else d), true)
        else
          PostOutcome(Done(PasswordFailResponse(d2.attempts)), Some(Written(d, d2)), false)
  }

  /** OTPView.post as written: update_otp_success calls the sync_to_async-wrapped
      update_otp_data without awaiting it, so its reset never reaches the table. */
  function PostAsWritten(userData: Option<UserData>, stored: Option<OtpData>, now: Instant, codeOk: bool): (o: PostOutcome)
    ensures o.response.Done? && o.response.value == Verified ==> o.row == stored && o.passed
  {
    PostWith(false, userData, stored, now, codeOk)
  }

  /** OTPView.post with the success reset awaited. */
  function Post(userData: Option<UserData>, stored: Option<OtpData>, now: Instant, codeOk: bool): (o: PostOutcome)
    ensures o.response.Done? && o.response.value == Verified ==>
              && o.passed && o.row.Some? && stored.Some?
              && o.row.value == Written(stored.value, SuccessReset(
                   IsAccountLocked(stored.value, now).1.(attempts := IsAccountLocked(stored.value, now).1.attempts + 1,
                                                         lastAttempt := Some(now))))
              && o.row.value.attempts == 0 && !o.row.value.isLocked && o.row.value.isVerified
              && o.row.value.lastAttempt == Some(now) && o.row.value.secret == stored.value.secret
  {
    PostWith(true, userData, stored, now, codeOk)
  }

  /** As written, a user who enters the right code after three wrong ones is verified, yet
      the table still says three attempts and not verified: the next wrong code leaves only
      one attempt instead of four, and the QR code is offered again at the next login. */
  lemma SuccessLostAsWritten(now: Instant)
    ensures var d := OtpData("S", 3, Some(now - 1), false, false);
            var o := PostAsWritten(Some(UserData(Some(1))), Some(d), now, true);
            && o.response == Done(Verified) && o.row == Some(d) && !o.row.value.isVerified
            && PostAsWritten(Some(UserData(Some(1))), o.row, now + 1, false).response == Done(Incorrect(1))
  {
    var d := OtpData("S", 3, Some(now - 1), false, false);
    assert IsAccountLocked(d, now) == (false, d);
    assert IsAccountLocked(d, now + 1) == (false, d);
  }

  /** With the reset awaited, a success leaves a clean, verified row: the next wrong code is
      the first of five again. */
  lemma {:induction false} SuccessResetsRow(d: OtpData, now: Instant)
    requires OtpInv(d) && !d.isLocked
    ensures var o := Post(Some(UserData(Some(1))), Some(d), now, true);
            && (d.attempts < MAX_ATTEMPTS - 1 ==>
                  o.response == Done(Verified) && o.row.value.attempts == 0 && o.row.value.isVerified &&
                  Post(Some(UserData(Some(1))), o.row, now + 1, false).response == Done(Incorrect(MAX_ATTEMPTS - 1)))
            && (d.attempts == MAX_ATTEMPTS - 1 ==> o.response == Done(AttemptsExceeded))
  {
    var o := Post(Some(UserData(Some(1))), Some(d), now, true);
    if d.attempts < MAX_ATTEMPTS - 1 {
      assert o.row.value == Written(d, SuccessReset(d.(attempts := d.attempts + 1, lastAttempt := Some(now))));
      assert !o.row.value.isLocked;
    }
  }

  /** The shape every row keeps: the count stays within 0..MAX_ATTEMPTS, the account is
      locked exactly when the count is at the maximum, and a lock always has a start time
      (so no lock is permanent). */
  predicate OtpInv(d: OtpData)
  {
    && 0 <= d.attempts <= MAX_ATTEMPTS
    && (d.isLocked <==> d.attempts == MAX_ATTEMPTS)
    && (d.isLocked ==> d.lastAttempt.Some?)
  }

  /** A new row (get_or_create_otp_secret) satisfies the invariant. */
  lemma NewRowIsValid(secret: string)
    ensures OtpInv(OtpData(secret, 0, None, false, false))
  {
  }

  /** Both versions of post keep the invariant of the row. */
  lemma {:induction false} PostKeepsInv(awaitedSuccess: bool, userData: Option<UserData>, d: OtpData, now: Instant, codeOk: bool)
    requires OtpInv(d)
    ensures var o := PostWith(awaitedSuccess, userData, Some(d), now, codeOk);
            o.row.Some? && OtpInv(o.row.value)
  {
    var o := PostWith(awaitedSuccess, userData, Some(d), now, codeOk);
    if userData.Some? && TruthyId(userData.value.id) {
      var (locked, d1) := IsAccountLocked(d, now);
      if !locked {
        assert d1.attempts < MAX_ATTEMPTS;
        var d2 := d1.(attempts := d1.attempts + 1, lastAttempt := Some(now));
        if d2.attempts >= MAX_ATTEMPTS {
          assert o.row.value == Written(d, d2.(isLocked := true));
        } else if codeOk {
          assert awaitedSuccess ==> o.row.value.attempts == 0 && !o.row.value.isLocked;
          assert !awaitedSuccess ==> o.row.value == d;
        } else {
          assert o.row.value == Written(d, d2);
        }
      }
    }
  }

  /** While the lock lasts every post is refused and changes nothing; once it has run out,
      the next post is counted as the first attempt of a fresh series. */
  lemma {:induction false} LockLastsThenExpires(d: OtpData, now: Instant, codeOk: bool)
    requires OtpInv(d) && d.isLocked
    ensures var o := Post(Some(UserData(Some(1))), Some(d), now, codeOk);
            && (now - d.lastAttempt.value <= LOCK_ACCOUNT * MICROS_PER_SECOND ==>
                  o == PostOutcome(Done(AccountLocked), Some(d), false))
            && (now - d.lastAttempt.value > LOCK_ACCOUNT * MICROS_PER_SECOND ==>
                  o.response != Done(AccountLocked) && o.row.Some? && !o.row.value.isLocked &&
                  o.row.value.attempts == (if codeOk then 0 else 1))
  {
  }

  /** A wrong code on an unlocked row with `a` failures answers 400 with
      MAX_ATTEMPTS - (a + 1) attempts left, and the fifth failure locks. */
  lemma {:induction false} WrongCodeCounts(d: OtpData, now: Instant)
    requires OtpInv(d) && !d.isLocked
    ensures var o := Post(Some(UserData(Some(1))), Some(d), now, false);
            && o.row.Some? && o.row.value.attempts == d.attempts + 1 && o.row.value.lastAttempt == Some(now)
            && (d.attempts + 1 < MAX_ATTEMPTS ==> o.response == Done(Incorrect(MAX_ATTEMPTS - (d.attempts + 1))))
            && (d.attempts + 1 == MAX_ATTEMPTS ==> o.response == Done(AttemptsExceeded) && o.row.value.isLocked)
  {
    var o := Post(Some(UserData(Some(1))), Some(d), now, false);
    var d2 := d.(attempts := d.attempts + 1, lastAttempt := Some(now));
    assert IsAccountLocked(d, now) == (false, d);
    if d2.attempts >= MAX_ATTEMPTS {
      assert o.row.value == Written(d, d2.(isLocked := true));
    } else {
      assert o.row.value == Written(d, d2);
    }
  }

  /** Five wrong codes on a new row: 400 with 4, 3, 2 and 1 attempts left, then 403 and a
      locked row; even the right code is refused on that fifth attempt. */
  lemma FiveWrongCodesLock(secret: string, t: Instant)
    ensures var u := Some(UserData(Some(1)));
            var o1 := Post(u, Some(OtpData(secret, 0, None, false, false)), t, false);
            var o2 := Post(u, o1.row, t + 1, false);
            var o3 := Post(u, o2.row, t + 2, false);
            var o4 := Post(u, o3.row, t + 3, false);
            var o5 := Post(u, o4.row, t + 4, false);
            && o1.response == Done(Incorrect(4)) && o2.response == Done(Incorrect(3))
            && o3.response == Done(Incorrect(2)) && o4.response == Done(Incorrect(1))
            && o5.response == Done(AttemptsExceeded) && o5.row.value.isLocked
            && Post(u, o4.row, t + 4, true).response == Done(AttemptsExceeded)
  {
    var u := Some(UserData(Some(1)));
    var d0 := OtpData(secret, 0, None, false, false);
    WrongCodeCounts(d0, t);
    var o1 := Post(u, Some(d0), t, false);
    PostKeepsInv(true, u, d0, t, false);
    WrongCodeCounts(o1.row.value, t + 1);
    var o2 := Post(u, o1.row, t + 1, false);
    PostKeepsInv(true, u, o1.row.value, t + 1, false);
    WrongCodeCounts(o2.row.value, t + 2);
    var o3 := Post(u, o2.row, t + 2, false);
    PostKeepsInv(true, u, o2.row.value, t + 2, false);
    WrongCodeCounts(o3.row.value, t + 3);
    var o4 := Post(u, o3.row, t + 3, false);
    PostKeepsInv(true, u, o3.row.value, t + 3, false);
    WrongCodeCounts(o4.row.value, t + 4);
  }

  /** OAuthView.get_redirect_url: the main page once the token passed the OTP check,
      otherwise the QR code page for a user who never verified, otherwise the OTP page. */
  function GetRedirectUrl(frontBase: string, otpPassed: bool, isVerified: bool): (url: string)
    ensures otpPassed ==> url == frontBase + "/main"
    ensures !otpPassed && !isVerified ==> url == frontBase + "/QRcode"
    ensures !otpPassed && isVerified ==> url == frontBase + "/OTP"
  {
    if !otpPassed then
      if !isVerified then frontBase + "/QRcode" else frontBase + "/OTP"
    else frontBase + "/main"
  }

  /** The three redirect targets are distinct, so the page tells the three cases apart. */
  lemma RedirectsAreDistinct(frontBase: string, p1: bool, v1: bool, p2: bool, v2: bool)
    ensures GetRedirectUrl(frontBase, p1, v1) == GetRedirectUrl(frontBase, p2, v2) <==>
            (p1 && p2) || (!p1 && !p2 && v1 == v2)
  {
  }

  /** The OTPSecret table and the otp_passed cache entries, as one OTPView sees them. */
  class OtpStore {
    var rows: map<int, OtpData>
    var passed: set<string>

    constructor (rows: map<int, OtpData>, passed: set<string>)
      ensures this.rows == rows && this.passed == passed
    {
      this.rows, this.passed := rows, passed;
    }

    /** get_otp_data */
    function StoredRow(id: Option<int>): (r: Option<OtpData>)
      reads this
      ensures r.Some? <==> TruthyId(id) && id.value in rows
      ensures r.Some? ==> r.value == rows[id.value]
    {
      if TruthyId(id) && id.value in rows then Some(rows[id.value]) else None
    }

    /** update_otp_data: filter(user_id=...).update(...) touches the row if there is one. */
    method UpdateOtpData(id: int, d: OtpData)
      modifies this`rows
      ensures rows == if id in old(rows) then old(rows)[id := Written(old(rows)[id], d)] else old(rows)
    {
      if id in rows {
        rows := rows[id := Written(rows[id], d)];
      }
    }

    /** update_otp_success with its table update awaited: the token is recorded as passed and
        the row is reset and marked verified. */
    method UpdateOtpSuccess(id: int, d: OtpData, accessToken: string)
      modifies this`rows, this`passed
      ensures passed == old(passed) + {accessToken}
      ensures rows == if id in old(rows) then old(rows)[id := Written(old(rows)[id], SuccessReset(d))] else old(rows)
    {
      var reset := d.(attempts := 0, isLocked := false, isVerified := true);
      passed := passed + {accessToken};
      UpdateOtpData(id, reset);
    }

    /** OTPView.post, step by step on a local copy of the row, as the view mutates its dict. */
    method PostOtp(accessToken: string, userData: Option<UserData>, now: Instant, codeOk: bool)
      returns (response: Attempt<OtpResponse>)
      modifies this`rows, this`passed
      ensures var o := Post(userData, old(StoredRow(if userData.Some? then userData.value.id else None)), now, codeOk);
              && response == o.response
              && passed == old(passed) + (if o.passed then {accessToken} else {})
              && rows == (if o.row.Some? && userData.Some? && TruthyId(userData.value.id)
                          then old(rows)[userData.value.id.value := o.row.value] else old(rows))
    {
      if userData.None? {
        return Raised(AttributeError);
      }
      var userId := userData.value.id;
      var stored := StoredRow(userId);
      if stored.None? {
        return Done(OtpDataMissing);
      }
      var id := userId.value;
      var otp := stored.value;
      var (locked, unlocked) := IsAccountLocked(otp, now);
      otp := unlocked;
      if locked {
        return Done(AccountLocked);
      }
      otp := otp.(attempts := otp.attempts + 1);
      otp := otp.(lastAttempt := Some(now));
      if otp.attempts >= MAX_ATTEMPTS {
        otp := otp.(isLocked := true);
        UpdateOtpData(id, otp);
        return Done(AttemptsExceeded);
      }
      if codeOk {
        UpdateOtpSuccess(id, otp, accessToken);
        return Done(Verified);
      }
      UpdateOtpData(id, otp);
      response := Done(PasswordFailResponse(otp.attempts));
    }
  }
}
