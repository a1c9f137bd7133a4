/**
 * The customer authentication endpoints: login by SMS code and change of
 * phone number by SMS code.  Each view runs in one database transaction, so
 * an error raised anywhere in it leaves the OTP table and the user table as
 * they were before the request; the methods below restore both on every error
 * path.  Issued codes are handed to the SMS task as the returned `OtpSent.sms`.
 * Token minting (`jwt_encode`) is not part of this model.
 */
module CustomerAuthViews {
  import opened Wrappers
  import opened Text
  import opened OtpGenerationService
  import Database
  import GlobalSettings
  import MobileOtp
  import NotificationTasks

  const LoginFailedMessage := "Unable to log in with provided OTP"
  const NotCustomerMessage := "You are not a customer, so you cannot use this authentication method"
  const SamePhoneMessage := "This is the same phone number as your current phone number"
  const VerifyFailedMessage := "Unable to verify provided OTP"
  const PhoneInUseMessage := "Used phone number is already in use, please use a different phone number"

  /** DRF's default error code, and the code of the two phone-number errors. */
  const InvalidCode := "invalid"
  const AlreadyUsedPhoneCode := "already_used_phone"

  datatype ViewError =
    | ValidationError(message: string, code: string)
    | Misconfigured(cause: OperationException)   // unknown OTP generation feature
    | IntegrityError(column: string)             // a unique column refused the new row

  /** The body of a send-OTP response and the SMS queued with it. */
  datatype OtpSent = OtpSent(expirationAt: int, retryAfter: int, sms: NotificationTasks.OtpSms)

  /** The user a login verification authenticated; `created` users also get a
      welcome message queued for after the commit. */
  datatype LoggedIn = LoggedIn(user: Database.UserId, created: bool)

  const EmailColumn := "email"

  /** The user row a first login creates; `email` is left at its default, the
      empty string. */
  function NewCustomer(phone: string): Database.User {
    Database.User(phone, "", phone, Database.Customer, false, false, None)
  }

  /** Some user has `name` as username and is a customer. */
  predicate CustomerWithUsername(users: map<Database.UserId, Database.User>, name: string) {
    exists id :: id in users && users[id].username == name && users[id].userType == Database.Customer
  }

  /** The code a send-OTP response's SMS carries verifies against the row the
      same request stored, until the row expires. */
  lemma {:induction false} SmsCodeVerifies(records: map<MobileOtp.OtpKey, MobileOtp.OtpRow>, key: MobileOtp.OtpKey,
                                           code: string, salt: nat, exp: int, now: int)
    requires now <= exp
    ensures var text := NotificationTasks.LoginOtpSms(key.phoneNumber, code).text;
            MobileOtp.VerifyStep(MobileOtp.AfterIssue(records, key, code, salt, exp), key,
                                 text[|NotificationTasks.LoginOtpPrefix|..], now).result == Pass
  {
    NotificationTasks.OtpTextsCarryTheCode(code, code);
    MobileOtp.IssueVerifyRoundTrip(records, key, code, salt, exp, now);
  }

  /** `AuthCustomerViewSet.send_otp`: issues a code for the unbound key of
      `phone`.  `draw` and `salt` are the random inputs of `generate`. */
  method LoginSendOtp(otps: MobileOtp.MobileOtpTable, db: Database.Db, s: GlobalSettings.GlobalSetting,
                      phone: string, now: int, draw: nat, salt: nat)
    returns (r: Result<OtpSent, ViewError>)
    requires draw < Pow10(s.otpDigitCount)
    modifies otps
    ensures var testPhone := MobileOtp.TestCustomerPhone(s, db.Snapshot());
            var g := MobileOtp.ChosenGenerator(s, testPhone, phone);
            && (r.Err? <==> g.Err?)
            && (r.Err? ==> r.error == Misconfigured(g.error) && otps.records == old(otps.records))
            && (r.Ok? ==>
                  var code := GenerateOtp(g.value, s.otpDigitCount, draw);
                  var exp := now + s.otpValidDurationSeconds;
                  && r.value == OtpSent(exp, now + s.otpResendWaitDurationSeconds, NotificationTasks.LoginOtpSms(phone, code))
                  && otps.records == MobileOtp.AfterIssue(old(otps.records), MobileOtp.OtpKey(None, phone), code, salt, exp))
  {
    var testPhone := MobileOtp.TestCustomerPhone(s, db.Snapshot());
    var issued := otps.Generate(phone, None, s, testPhone, now, draw, salt);
    if issued.Err? {
      return Err(Misconfigured(issued.error));
    }
    var retryAfter := now + s.otpResendWaitDurationSeconds;
    r := Ok(OtpSent(issued.value.expirationAt, retryAfter, NotificationTasks.LoginOtpSms(phone, issued.value.rawOtp)));
  }

  /** `AuthCustomerViewSet.verify_otp`. */
  method LoginVerifyOtp(otps: MobileOtp.MobileOtpTable, db: Database.Db, phone: string, code: string, now: int)
    returns (r: Result<LoggedIn, ViewError>)
    requires db.Valid()
    modifies otps, db
    ensures db.Valid()
    ensures var v := MobileOtp.VerifyStep(old(otps.records), MobileOtp.OtpKey(None, phone), code, now);
            && (v.result.Fail? ==> r == Err(ValidationError(LoginFailedMessage, InvalidCode)))
            && (v.result.Pass? && Database.UsernameTaken(old(db.users), phone) && !CustomerWithUsername(old(db.users), phone) ==>
                  r == Err(ValidationError(NotCustomerMessage, InvalidCode)))
            && (v.result.Pass? && !Database.UsernameTaken(old(db.users), phone) && Database.EmailTaken(old(db.users), "") ==>
                  r == Err(IntegrityError(EmailColumn)))
            && (r.Ok? <==> v.result.Pass? &&
                             (CustomerWithUsername(old(db.users), phone) ||
                              (!Database.UsernameTaken(old(db.users), phone) && !Database.EmailTaken(old(db.users), ""))))
            && (r.Ok? ==> otps.records == v.records)
    ensures r.Err? ==> otps.records == old(otps.records) && db.Snapshot() == old(db.Snapshot())
    ensures r.Ok? ==>
              && r.value.user in db.users
              && db.users[r.value.user].username == phone
              && db.users[r.value.user].userType == Database.Customer
              && (r.value.created <==> !Database.UsernameTaken(old(db.users), phone))
              && (r.value.created ==>
                    r.value.user !in old(db.users) && db.users == old(db.users)[r.value.user := NewCustomer(phone)])
              && (!r.value.created ==> db.users == old(db.users))
              && db.Snapshot().(users := old(db.users), nextId := old(db.nextId)) == old(db.Snapshot())
  {
    var otpsBefore := otps.records;
    var dbBefore := db.Snapshot();
    var verified := otps.Verify(phone, code, None, now);
    if verified.Fail? {
      otps.records := otpsBefore;
      return Err(ValidationError(LoginFailedMessage, InvalidCode));
    }
    var user: Database.UserId;
    var created := false;
    if exists id :: id in db.users && db.users[id].username == phone {
      user :| user in db.users && db.users[user].username == phone;
    } else if exists id :: id in db.users && db.users[id].email == "" {
      otps.records := otpsBefore;
      return Err(IntegrityError(EmailColumn));
    } else {
      user := db.CreateUser(NewCustomer(phone));
      created := true;
    }
    if db.users[user].userType != Database.Customer {
      assert !CustomerWithUsername(old(db.users), phone);
      db.Restore(dbBefore);
      otps.records := otpsBefore;
      return Err(ValidationError(NotCustomerMessage, InvalidCode));
    }
    r := Ok(LoggedIn(user, created));
  }

  /** `AuthCustomerChangePhoneNumberViewSet.send_otp` for the signed-in
      customer `currentUser`: issues a code for the user-bound key. */
  method ChangePhoneSendOtp(otps: MobileOtp.MobileOtpTable, db: Database.Db, currentUser: Database.UserId,
                            s: GlobalSettings.GlobalSetting, phone: string, now: int, draw: nat, salt: nat)
    returns (r: Result<OtpSent, ViewError>)
    requires currentUser in db.users
    requires draw < Pow10(s.otpDigitCount)
    modifies otps
    ensures db.users[currentUser].username == phone ==>
              r == Err(ValidationError(SamePhoneMessage, AlreadyUsedPhoneCode)) && otps.records == old(otps.records)
    ensures db.users[currentUser].username != phone ==>
              var testPhone := MobileOtp.TestCustomerPhone(s, db.Snapshot());
              var g := MobileOtp.ChosenGenerator(s, testPhone, phone);
              && (r.Err? <==> g.Err?)
              && (r.Err? ==> r.error == Misconfigured(g.error) && otps.records == old(otps.records))
              && (r.Ok? ==>
                    var code := GenerateOtp(g.value, s.otpDigitCount, draw);
                    var exp := now + s.otpValidDurationSeconds;
                    && r.value == OtpSent(exp, now + s.otpResendWaitDurationSeconds, NotificationTasks.PhoneChangeOtpSms(phone, code))
                    && otps.records == MobileOtp.AfterIssue(old(otps.records), MobileOtp.OtpKey(Some(currentUser), phone), code, salt, exp))
  {
    if db.users[currentUser].username == phone {
      return Err(ValidationError(SamePhoneMessage, AlreadyUsedPhoneCode));
    }
    var testPhone := MobileOtp.TestCustomerPhone(s, db.Snapshot());
    var issued := otps.Generate(phone, Some(currentUser), s, testPhone, now, draw, salt);
    if issued.Err? {
      return Err(Misconfigured(issued.error));
    }
    var retryAfter := now + s.otpResendWaitDurationSeconds;
    r := Ok(OtpSent(issued.value.expirationAt, retryAfter, NotificationTasks.PhoneChangeOtpSms(phone, issued.value.rawOtp)));
  }

  /** `AuthCustomerChangePhoneNumberViewSet.verify_otp` for `currentUser`. */
  method ChangePhoneVerifyOtp(otps: MobileOtp.MobileOtpTable, db: Database.Db, currentUser: Database.UserId,
                              phone: string, code: string, now: int)
    returns (r: Outcome<ViewError>)
    requires db.Valid() && currentUser in db.users
    modifies otps, db
    ensures db.Valid()
    ensures var v := MobileOtp.VerifyStep(old(otps.records), MobileOtp.OtpKey(Some(currentUser), phone), code, now);
            && (v.result.Fail? ==> r == Fail(ValidationError(VerifyFailedMessage, InvalidCode)))
            && (v.result.Pass? && Database.UsernameTaken(old(db.users), phone) ==>
                  r == Fail(ValidationError(PhoneInUseMessage, AlreadyUsedPhoneCode)))
            && (r.Pass? <==> v.result.Pass? && !Database.UsernameTaken(old(db.users), phone))
            && (r.Pass? ==> otps.records == v.records)
    ensures r.Fail? ==> otps.records == old(otps.records) && db.Snapshot() == old(db.Snapshot())
    ensures r.Pass? ==>
              && db.users == old(db.users)[currentUser := old(db.users)[currentUser].(phoneNumber := phone)]
              && db.Snapshot().(users := old(db.users)) == old(db.Snapshot())
  {
    var otpsBefore := otps.records;
    var verified := otps.Verify(phone, code, Some(currentUser), now);
    if verified.Fail? {
      otps.records := otpsBefore;
      return Fail(ValidationError(VerifyFailedMessage, InvalidCode));
    }
    if exists id :: id in db.users && db.users[id].username == phone {
      otps.records := otpsBefore;
      return Fail(ValidationError(PhoneInUseMessage, AlreadyUsedPhoneCode));
    }
    db.SetPhoneNumber(currentUser, phone);
    r := Pass;
  }

  /** A customer's login never depends on another user's code: verifying the
      unbound key of a phone ignores every user-bound row of that phone. */
  lemma LoginIgnoresBoundCodes(records: map<MobileOtp.OtpKey, MobileOtp.OtpRow>, u: Database.UserId, phone: string,
                               row: MobileOtp.OtpRow, code: string, now: int)
    requires MobileOtp.OtpKey(None, phone) !in records
    ensures MobileOtp.VerifyStep(records[MobileOtp.OtpKey(Some(u), phone) := row], MobileOtp.OtpKey(None, phone), code, now).result
            == Fail(MobileOtp.OtpNotCreated)
  {
  }
}
