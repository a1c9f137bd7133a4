/**
 * The phone one-time-password store (`MobileOtp`).  A row is keyed by an
 * optional user and a phone number and holds the salted hash of the issued
 * code and its expiry instant.  `generate` upserts the row for its key;
 * `verify` checks, in this order, that a row exists, that it has not expired
 * (an expired row is deleted), that the code matches (a mismatch keeps the
 * row), and on success deletes the row.
 *
 * Time is an integer number of seconds passed in as `now`; the random draw of
 * the code and the salt of its hash are inputs too.
 */
module MobileOtp {
  import opened Wrappers
  import opened Text
  import opened Hashers
  import opened OtpGenerationService
  import GlobalSettings
  import Database

  /** The two conditional unique constraints make `(user, phone_number)` a key:
      one row per phone with no user, one row per (user, phone) otherwise. */
  datatype OtpKey = OtpKey(user: Option<Database.UserId>, phoneNumber: string)

  datatype OtpRow = OtpRow(otpHash: PasswordHash, expirationAt: int)

  /** The three messages of the `AuthException` that `verify` raises. */
  datatype AuthException = OtpNotCreated | OtpIsExpired | OtpIsInvalid

  /** The `(raw_otp, expiration_at)` pair `generate` returns. */
  datatype Issued = Issued(rawOtp: string, expirationAt: int)

  /** The phone number of the configured OTP test customer, if the setting
      names one (the enrollment's user's `phone_number`). */
  function TestCustomerPhone(s: GlobalSettings.GlobalSetting, t: Database.Tables): (r: Option<string>)
    ensures r.Some? ==> s.otpTestCustomer.Some?
  {
    match s.otpTestCustomer
    case None => None
    case Some(e) =>
      if e in t.enrollments && t.enrollments[e].user in t.users
      then Some(t.users[t.enrollments[e].user].phoneNumber)
      else None
  }

  /** The generator `generate` uses for `phone`: all zeros for the test
      customer's phone, otherwise the one the configured feature selects. */
  function ChosenGenerator(s: GlobalSettings.GlobalSetting, testPhone: Option<string>, phone: string)
    : Result<OtpGenerator, OperationException>
  {
    if testPhone == Some(phone) then Ok(AllZeroGenerator)
    else GetOtpGenerationService(s.otpGenerationFeature)
  }

  /** The test customer's phone always gets the all-zero code, whatever the
      configured feature; any other phone gets the configured generator's code,
      and an unknown feature is a configuration error. */
  lemma TestPhoneOverride(s: GlobalSettings.GlobalSetting, testPhone: Option<string>, phone: string, draw: nat)
    ensures testPhone == Some(phone) ==> ChosenGenerator(s, testPhone, phone) == Ok(AllZeroGenerator)
    ensures testPhone == Some(phone) ==>
              GenerateOtp(ChosenGenerator(s, testPhone, phone).value, s.otpDigitCount, draw) == Repeat('0', s.otpDigitCount)
    ensures testPhone != Some(phone) ==>
              (ChosenGenerator(s, testPhone, phone).Err? <==>
               s.otpGenerationFeature != AllZeroFeature && s.otpGenerationFeature != RandomFeature)
  {
  }

  /** With at least one digit and a draw below `10^digits`, every issued code
      is exactly `otp_digit_count` decimal digits. */
  lemma IssuedCodeShape(g: OtpGenerator, digitCount: nat, draw: nat)
    requires digitCount >= 1 && draw < Pow10(digitCount)
    ensures |GenerateOtp(g, digitCount, draw)| == digitCount && AllDigits(GenerateOtp(g, digitCount, draw))
  {
    match g
    case AllZeroGenerator =>
      AllZeroOtpShape(digitCount);
    case RandomGenerator =>
      RandomOtpShape(digitCount, draw);
  }

  /** The result of one `verify` call and the store it leaves behind. */
  datatype VerifyOutcome = VerifyOutcome(result: Outcome<AuthException>, records: map<OtpKey, OtpRow>)

  /** `MobileOtp.verify` on the store `records`. */
  function VerifyStep(records: map<OtpKey, OtpRow>, key: OtpKey, code: string, now: int): VerifyOutcome {
    if key !in records then VerifyOutcome(Fail(OtpNotCreated), records)
    else if records[key].expirationAt < now then VerifyOutcome(Fail(OtpIsExpired), records - {key})
    else if !CheckPassword(code, records[key].otpHash) then VerifyOutcome(Fail(OtpIsInvalid), records)
    else VerifyOutcome(Pass, records - {key})
  }

  /** `verify` passes exactly for an existing, unexpired row whose hash accepts
      the code; it removes the row exactly when it passes or finds it expired,
      and it never touches another key. */
  lemma VerifyStepMeaning(records: map<OtpKey, OtpRow>, key: OtpKey, code: string, now: int)
    ensures var v := VerifyStep(records, key, code, now);
            && (v.result.Pass? <==>
                  key in records && now <= records[key].expirationAt && CheckPassword(code, records[key].otpHash))
            && (v.result == Fail(OtpNotCreated) <==> key !in records)
            && (v.result == Fail(OtpIsExpired) <==> key in records && records[key].expirationAt < now)
            && (key !in v.records <==> v.result.Pass? || v.result == Fail(OtpIsExpired) || key !in records)
            && (key in v.records ==> v.records[key] == records[key])
            && (forall k :: k != key ==> (k in v.records <==> k in records))
            && (forall k :: k != key && k in records ==> v.records[k] == records[k])
  {
  }

  /** A row whose expiry equals `now` is still valid; one strictly before
      `now` is expired and deleted, whatever code is offered. */
  lemma ExpiryBoundary(records: map<OtpKey, OtpRow>, key: OtpKey, raw: string, salt: nat, exp: int, code: string)
    ensures VerifyStep(records[key := OtpRow(MakePassword(raw, salt), exp)], key, raw, exp).result == Pass
    ensures var v := VerifyStep(records[key := OtpRow(MakePassword(raw, salt), exp)], key, code, exp + 1);
            v.result == Fail(OtpIsExpired) && key !in v.records
  {
  }

  /** The store after `generate` issued `raw` with salt `salt` for `key`. */
  function AfterIssue(records: map<OtpKey, OtpRow>, key: OtpKey, raw: string, salt: nat, exp: int): map<OtpKey, OtpRow> {
    records[key := OtpRow(MakePassword(raw, salt), exp)]
  }

  /** Issue then verify: the issued code passes once before expiry, and an
      immediate second verification finds no row. */
  lemma {:induction false} IssueVerifyRoundTrip(records: map<OtpKey, OtpRow>, key: OtpKey, raw: string, salt: nat,
                                                exp: int, now: int)
    requires now <= exp
    ensures var first := VerifyStep(AfterIssue(records, key, raw, salt, exp), key, raw, now);
            && first.result == Pass
            && VerifyStep(first.records, key, raw, now).result == Fail(OtpNotCreated)
  {
    CheckMatchesOnlyOwnSecret(raw, raw, salt);
  }

  /** Re-issuing for the same key overwrites the row: the previous code is
      rejected as invalid and the new one passes. */
  lemma {:induction false} ReissueInvalidatesOldCode(records: map<OtpKey, OtpRow>, key: OtpKey,
                                                     oldRaw: string, oldSalt: nat, oldExp: int,
                                                     newRaw: string, newSalt: nat, newExp: int, now: int)
    requires oldRaw != newRaw && now <= newExp
    ensures var store := AfterIssue(AfterIssue(records, key, oldRaw, oldSalt, oldExp), key, newRaw, newSalt, newExp);
            && VerifyStep(store, key, oldRaw, now).result == Fail(OtpIsInvalid)
            && VerifyStep(store, key, newRaw, now).result == Pass
  {
    CheckMatchesOnlyOwnSecret(newRaw, oldRaw, newSalt);
  }

  /** A wrong code keeps the row, so the right code still passes afterwards. */
  lemma {:induction false} WrongCodeThenRightCode(records: map<OtpKey, OtpRow>, key: OtpKey, raw: string, salt: nat,
                                                  exp: int, wrong: string, now: int, later: int)
    requires wrong != raw && now <= later <= exp
    ensures var first := VerifyStep(AfterIssue(records, key, raw, salt, exp), key, wrong, now);
            && first.result == Fail(OtpIsInvalid)
            && first.records == AfterIssue(records, key, raw, salt, exp)
            && VerifyStep(first.records, key, raw, later).result == Pass
  {
    CheckMatchesOnlyOwnSecret(raw, wrong, salt);
  }

  /** The unbound row `(None, phone)` and a user-bound row `(Some(u), phone)`
      are independent: issuing or verifying one leaves the other as it was. */
  lemma {:induction false} BoundAndUnboundKeysIndependent(records: map<OtpKey, OtpRow>, u: Database.UserId, phone: string,
                                                          raw: string, salt: nat, exp: int, code: string, now: int)
    ensures var unbound := OtpKey(None, phone);
            var bound := OtpKey(Some(u), phone);
            && (bound in records ==> AfterIssue(records, unbound, raw, salt, exp)[bound] == records[bound])
            && (unbound in records ==> AfterIssue(records, bound, raw, salt, exp)[unbound] == records[unbound])
            && (bound in records <==> bound in VerifyStep(records, unbound, code, now).records)
            && (unbound in records <==> unbound in VerifyStep(records, bound, code, now).records)
  {
    VerifyStepMeaning(records, OtpKey(None, phone), code, now);
    VerifyStepMeaning(records, OtpKey(Some(u), phone), code, now);
  }

  // ----- the table as rows ---------------------------------------------------

  /** A row of the `MobileOtp` table as the database stores it. */
  datatype OtpRecord = OtpRecord(user: Option<Database.UserId>, phoneNumber: string, otpHash: PasswordHash, expirationAt: int)

  function Records(records: map<OtpKey, OtpRow>): set<OtpRecord> {
    set k | k in records :: OtpRecord(k.user, k.phoneNumber, records[k].otpHash, records[k].expirationAt)
  }

  /** `unique_mobile_otp_user_phone_number` (rows with a user). */
  predicate UniqueUserPhone(rows: set<OtpRecord>) {
    forall a, b :: a in rows && b in rows && a.user.Some? && a.user == b.user && a.phoneNumber == b.phoneNumber ==> a == b
  }

  /** `unique_mobile_otp_global_phone_number` (rows without a user). */
  predicate UniqueGlobalPhone(rows: set<OtpRecord>) {
    forall a, b :: a in rows && b in rows && a.user.None? && b.user.None? && a.phoneNumber == b.phoneNumber ==> a == b
  }

  /** Storing the table as a map keyed by `(user, phone)` satisfies both
      conditional unique constraints, whatever `generate` and `verify` did. */
  lemma KeyedStoreMeetsConstraints(records: map<OtpKey, OtpRow>)
    ensures UniqueUserPhone(Records(records)) && UniqueGlobalPhone(Records(records))
    ensures |Records(records)| == |records.Keys|
  {
    var rows := Records(records);
    forall a, b | a in rows && b in rows && a.user == b.user && a.phoneNumber == b.phoneNumber
      ensures a == b
    {
      var ka :| ka in records && a == OtpRecord(ka.user, ka.phoneNumber, records[ka].otpHash, records[ka].expirationAt);
      var kb :| kb in records && b == OtpRecord(kb.user, kb.phoneNumber, records[kb].otpHash, records[kb].expirationAt);
      assert ka == kb;
    }
    RecordsCardinality(records);
  }

  lemma {:induction false} RecordsCardinality(records: map<OtpKey, OtpRow>)
    ensures |Records(records)| == |records.Keys|
    decreases |records.Keys|
  {
    if records.Keys != {} {
      var k :| k in records.Keys;
      var rest := records - {k};
      RecordsCardinality(rest);
      var r := OtpRecord(k.user, k.phoneNumber, records[k].otpHash, records[k].expirationAt);
      assert Records(records) == Records(rest) + {r};
      assert r !in Records(rest);
      assert records.Keys == rest.Keys + {k};
    }
  }

  /** The `MobileOtp` table. */
  class MobileOtpTable {
    var records: map<OtpKey, OtpRow>

    constructor ()
      ensures records == map[]
    {
      records := map[];
    }

    /** `MobileOtp.generate(phone, user)` at time `now` under settings `s`.
        `testPhone` is the test customer's phone (`TestCustomerPhone`), `draw`
        the random draw below `10^otp_digit_count`, `salt` the hash's salt. */
    method Generate(phone: string, user: Option<Database.UserId>, s: GlobalSettings.GlobalSetting,
                    testPhone: Option<string>, now: int, draw: nat, salt: nat)
      returns (r: Result<Issued, OperationException>)
      requires draw < Pow10(s.otpDigitCount)
      modifies this
      ensures r.Err? <==> ChosenGenerator(s, testPhone, phone).Err?
      ensures r.Err? ==> r.error == ChosenGenerator(s, testPhone, phone).error && records == old(records)
      ensures r.Ok? ==>
                && r.value.rawOtp == GenerateOtp(ChosenGenerator(s, testPhone, phone).value, s.otpDigitCount, draw)
                && r.value.expirationAt == now + s.otpValidDurationSeconds
                && records == AfterIssue(old(records), OtpKey(user, phone), r.value.rawOtp, salt, r.value.expirationAt)
    {
      var service := ChosenGenerator(s, testPhone, phone);
      if service.Err? {
        return Err(service.error);
      }
      var rawOtp := GenerateOtp(service.value, s.otpDigitCount, draw);
      var otpHash := MakePassword(rawOtp, salt);
      var expirationAt := now + s.otpValidDurationSeconds;
      records := records[OtpKey(user, phone) := OtpRow(otpHash, expirationAt)];
      r := Ok(Issued(rawOtp, expirationAt));
    }

    /** `MobileOtp.verify(phone, code, user)` at time `now`. */
    method Verify(phone: string, code: string, user: Option<Database.UserId>, now: int)
      returns (r: Outcome<AuthException>)
      modifies this
      ensures VerifyOutcome(r, records) == VerifyStep(old(records), OtpKey(user, phone), code, now)
    {
      var key := OtpKey(user, phone);
      if key !in records {
        return Fail(OtpNotCreated);
      }
      var obj := records[key];
      if obj.expirationAt < now {
        records := records - {key};
        return Fail(OtpIsExpired);
      }
      if !CheckPassword(code, obj.otpHash) {
        return Fail(OtpIsInvalid);
      }
      records := records - {key};
      r := Pass;
    }
  }
}
