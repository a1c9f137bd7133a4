/**
 * Notifications and SMS audiences.
 *
 * A `Notification` is validated by `clean` (at least one delivery mode, no
 * SMS or e-mail broadcast, every non-empty comma-separated phone number and
 * e-mail address accepted by its validator), is saved only after that
 * validation, and `send` routes it to the direct SMS, e-mail and push senders
 * or to the broadcast push sender.  A direct sender whose recipient field is
 * empty fills it from the recipient users, saves, then hands the message to
 * the provider; the hand-over is recorded in the `outbox`.
 *
 * An `SmsGroup` selects its audience: the customers assigned to it by hand,
 * plus the customers of its branch that pass its package, age and gender
 * filters.  The phone and e-mail validators and the calendar arithmetic
 * ("the date `n` years before `today`") are parameters.
 */
module Notifications {
  import opened Wrappers
  import opened Text
  import Database

  /** The foreign validators `validate_international_phonenumber` and `validate_email`. */
  datatype Validators = Validators(isPhoneNumber: string -> bool, isEmail: string -> bool)

  datatype NotificationRow = NotificationRow(
    organization: Option<Database.OrgId>,
    title: string,
    message: string,
    smsMessage: string,
    notificationType: string,
    modePush: bool,
    modeSms: bool,
    modeEmail: bool,
    isBroadcast: bool,
    recipientUsers: seq<Database.UserId>,
    recipientPhoneNumbers: string,
    recipientEmails: string,
    recipientPushIds: string)

  datatype CleanError =
    | NoDeliveryMethod
    | SmsBroadcastUnsupported
    | EmailBroadcastUnsupported
    | InvalidPhoneNumber(value: string)
    | InvalidEmail(value: string)
    | BlankField(field: string)        // a required field is empty
    | TooLong(field: string)           // a `CharField` longer than its `max_length`
    | InvalidChoice(field: string)     // a value outside the field's choices

  // ----- validation ----------------------------------------------------------

  /** The first non-empty segment the validator rejects. */
  function FirstInvalid(segments: seq<string>, valid: string -> bool): (r: Option<string>)
    ensures r.None? <==> forall k :: 0 <= k < |segments| && segments[k] != "" ==> valid(segments[k])
    ensures r.Some? ==> r.value in segments && r.value != "" && !valid(r.value)
  {
    if segments == [] then None
    else if segments[0] != "" && !valid(segments[0]) then Some(segments[0])
    else
      var rest := FirstInvalid(segments[1..], valid);
      assert forall k :: 1 <= k < |segments| ==> segments[k] == segments[1..][k - 1];
      rest
  }

  /** Every non-empty comma-separated entry of `field` passes `valid`. */
  predicate EntriesValid(field: string, valid: string -> bool) {
    var segments := Split(field, ",");
    forall k :: 0 <= k < |segments| && segments[k] != "" ==> valid(segments[k])
  }

  /** `Notification.clean`. */
  function Clean(n: NotificationRow, v: Validators): Outcome<CleanError> {
    if !n.modeSms && !n.modePush && !n.modeEmail then Fail(NoDeliveryMethod)
    else if n.modeSms && n.isBroadcast then Fail(SmsBroadcastUnsupported)
    else if n.modeEmail && n.isBroadcast then Fail(EmailBroadcastUnsupported)
    else match FirstInvalid(Split(n.recipientPhoneNumbers, ","), v.isPhoneNumber)
      case Some(p) => Fail(InvalidPhoneNumber(p))
      case None =>
        match FirstInvalid(Split(n.recipientEmails, ","), v.isEmail)
        case Some(e) => Fail(InvalidEmail(e))
        case None => Pass
  }

  /** A notification is valid exactly when it has a delivery mode, does not
      broadcast by SMS or e-mail, and all its non-empty recipient entries pass
      their validators; a reported invalid entry is a non-empty entry of the
      field that its validator rejects. */
  lemma CleanMeaning(n: NotificationRow, v: Validators)
    ensures Clean(n, v).Pass? <==>
              && (n.modeSms || n.modePush || n.modeEmail)
              && !(n.modeSms && n.isBroadcast)
              && !(n.modeEmail && n.isBroadcast)
              && EntriesValid(n.recipientPhoneNumbers, v.isPhoneNumber)
              && EntriesValid(n.recipientEmails, v.isEmail)
    ensures Clean(n, v).Fail? && Clean(n, v).error.InvalidPhoneNumber? ==>
              var p := Clean(n, v).error.value;
              p != "" && p in Split(n.recipientPhoneNumbers, ",") && !v.isPhoneNumber(p)
    ensures Clean(n, v).Fail? && Clean(n, v).error.InvalidEmail? ==>
              var e := Clean(n, v).error.value;
              e != "" && e in Split(n.recipientEmails, ",") && !v.isEmail(e)
  {
  }

  const TitleMaxLength := 255

  /** The values of `NotificationTypes`. */
  const NotificationTypes: set<string> := {"OTP", "BIRTHDAY_WISH", "WELCOME_TO_APP", "WELCOME_TO_BRANCH",
                                           "MEMBERSHIP_RENEW_REMINDER", "MEMBERSHIP_EXPIRY", "MEMBERSHIP_CREATED",
                                           "PASSWORD_RESET", "CUSTOM"}

  /** `clean_fields`: the first field, in declaration order, that its own
      checks reject (the other fields are blank-allowed or always valid). */
  function CleanFields(n: NotificationRow): Option<CleanError> {
    if n.title == "" then Some(BlankField("title"))
    else if |n.title| > TitleMaxLength then Some(TooLong("title"))
    else if n.message == "" then Some(BlankField("message"))
    else if n.notificationType == "" then Some(BlankField("notification_type"))
    else if n.notificationType !in NotificationTypes then Some(InvalidChoice("notification_type"))
    else None
  }

  /** The field-level rules: a non-blank title of at most 255 characters, a
      non-blank message and one of the notification types. */
  predicate FieldsValid(n: NotificationRow) {
    n.title != "" && |n.title| <= TitleMaxLength && n.message != "" && n.notificationType in NotificationTypes
  }

  /** `full_clean`: `clean_fields`, then `clean`. */
  function FullClean(n: NotificationRow, v: Validators): Outcome<CleanError> {
    match CleanFields(n)
    case Some(e) => Fail(e)
    case None => Clean(n, v)
  }

  /** A notification passes `full_clean` exactly when its fields are valid and
      `clean` accepts it; with valid fields the outcome is that of `clean`, and
      otherwise a field error is reported. */
  lemma FullCleanMeaning(n: NotificationRow, v: Validators)
    ensures FullClean(n, v).Pass? <==> FieldsValid(n) && Clean(n, v).Pass?
    ensures FieldsValid(n) ==> FullClean(n, v) == Clean(n, v)
    ensures !FieldsValid(n) ==>
              && FullClean(n, v).Fail?
              && (FullClean(n, v).error.BlankField? || FullClean(n, v).error.TooLong?
                  || FullClean(n, v).error.InvalidChoice?)
  {
  }

  /** Push is the one mode that may be broadcast. */
  lemma OnlyPushMayBroadcast(n: NotificationRow, v: Validators)
    requires n.isBroadcast && Clean(n, v).Pass?
    ensures n.modePush && !n.modeSms && !n.modeEmail
  {
  }

  // ----- routing -------------------------------------------------------------

  datatype Channel = DirectSms | DirectEmail | DirectPush | BroadcastPush

  /** The senders `send` calls, in call order. */
  function Routes(n: NotificationRow): seq<Channel> {
    (if n.modeSms && !n.isBroadcast then [DirectSms] else [])
    + (if n.modeEmail && !n.isBroadcast then [DirectEmail] else [])
    + (if n.modePush && !n.isBroadcast then [DirectPush] else [])
    + (if n.modePush && n.isBroadcast then [BroadcastPush] else [])
  }

  /** Each direct sender runs exactly for its mode on a non-broadcast
      notification, the broadcast push exactly for a broadcast push, no sender
      twice; a valid broadcast sends just one topic push. */
  lemma RoutesMeaning(n: NotificationRow, v: Validators)
    ensures DirectSms in Routes(n) <==> n.modeSms && !n.isBroadcast
    ensures DirectEmail in Routes(n) <==> n.modeEmail && !n.isBroadcast
    ensures DirectPush in Routes(n) <==> n.modePush && !n.isBroadcast
    ensures BroadcastPush in Routes(n) <==> n.modePush && n.isBroadcast
    ensures forall i, j :: 0 <= i < j < |Routes(n)| ==> Routes(n)[i] != Routes(n)[j]
    ensures n.isBroadcast && Clean(n, v).Pass? ==> Routes(n) == [BroadcastPush]
  {
  }

  // ----- recipients and deliveries -------------------------------------------

  /** An FCM device registered for a user. */
  datatype Device = Device(user: Database.UserId, registrationId: string)

  /** Where the senders look recipients up: the user table, the registered
      devices and the SMS mask of the notification's organization. */
  datatype Directory = Directory(users: map<Database.UserId, Database.User>, devices: seq<Device>, smsMask: Option<string>)

  datatype Topic = AllUsersTopic | OrganizationTopic(organization: Database.OrgId)

  /** A message handed to a provider. */
  datatype Delivery =
    | SmsDelivery(phoneNumbers: seq<string>, text: string, smsMask: Option<string>)
    | EmailDelivery(emails: seq<string>, subject: string, text: string)
    | PushDelivery(pushIds: seq<string>, title: string, text: string)
    | BroadcastDelivery(topic: Topic, title: string, text: string)

  function ChannelOf(d: Delivery): Channel {
    match d
    case SmsDelivery(_, _, _) => DirectSms
    case EmailDelivery(_, _, _) => DirectEmail
    case PushDelivery(_, _, _) => DirectPush
    case BroadcastDelivery(_, _, _) => BroadcastPush
  }

  function ChannelsOf(ds: seq<Delivery>): (r: seq<Channel>)
    ensures |r| == |ds|
    ensures forall i :: 0 <= i < |ds| ==> r[i] == ChannelOf(ds[i])
  {
    if ds == [] then [] else [ChannelOf(ds[0])] + ChannelsOf(ds[1..])
  }

  /** `filter(lambda x: x, values)`. */
  function NonEmpty(xs: seq<string>): (r: seq<string>)
    ensures forall k :: 0 <= k < |r| ==> r[k] != "" && r[k] in xs
    ensures forall x :: x in xs && x != "" ==> x in r
  {
    if xs == [] then [] else (if xs[0] != "" then [xs[0]] else []) + NonEmpty(xs[1..])
  }

  /** `recipient_users.values_list("phone_number")`. */
  function PhoneNumbersOf(ids: seq<Database.UserId>, users: map<Database.UserId, Database.User>): seq<string> {
    if ids == [] then []
    else (if ids[0] in users then [users[ids[0]].phoneNumber] else []) + PhoneNumbersOf(ids[1..], users)
  }

  /** `recipient_users.values_list("email")`. */
  function EmailsOf(ids: seq<Database.UserId>, users: map<Database.UserId, Database.User>): seq<string> {
    if ids == [] then []
    else (if ids[0] in users then [users[ids[0]].email] else []) + EmailsOf(ids[1..], users)
  }

  /** The registration ids of the devices of the recipient users. */
  function PushIdsOf(devices: seq<Device>, ids: seq<Database.UserId>): seq<string> {
    if devices == [] then []
    else (if devices[0].user in ids then [devices[0].registrationId] else []) + PushIdsOf(devices[1..], ids)
  }

  /** The phone-number field after `send_sms` derived it (if it was empty). */
  function FillPhoneNumbers(n: NotificationRow, dir: Directory): NotificationRow {
    if n.recipientPhoneNumbers != "" then n
    else n.(recipientPhoneNumbers := Join(NonEmpty(PhoneNumbersOf(n.recipientUsers, dir.users)), ","))
  }

  function FillEmails(n: NotificationRow, dir: Directory): NotificationRow {
    if n.recipientEmails != "" then n
    else n.(recipientEmails := Join(NonEmpty(EmailsOf(n.recipientUsers, dir.users)), ","))
  }

  function FillPushIds(n: NotificationRow, dir: Directory): NotificationRow {
    if n.recipientPushIds != "" then n
    else n.(recipientPushIds := Join(NonEmpty(PushIdsOf(dir.devices, n.recipientUsers)), ","))
  }

  /** The SMS body: `sms_message`, or `message` when that is empty. */
  function SmsText(n: NotificationRow): (r: string)
    ensures n.smsMessage != "" ==> r == n.smsMessage
    ensures n.smsMessage == "" ==> r == n.message
  {
    if n.smsMessage != "" then n.smsMessage else n.message
  }

  function SmsDeliveryOf(n: NotificationRow, dir: Directory): Delivery {
    SmsDelivery(Split(n.recipientPhoneNumbers, ","), SmsText(n), if n.organization.Some? then dir.smsMask else None)
  }

  function EmailDeliveryOf(n: NotificationRow): Delivery {
    EmailDelivery(Split(n.recipientEmails, ","), n.title, n.message)
  }

  function PushDeliveryOf(n: NotificationRow): Delivery {
    PushDelivery(Split(n.recipientPushIds, ","), n.title, n.message)
  }

  function BroadcastDeliveryOf(n: NotificationRow): Delivery {
    BroadcastDelivery(if n.organization.None? then AllUsersTopic else OrganizationTopic(n.organization.value), n.title, n.message)
  }

  /** When the phone field was derived, the SMS goes to exactly the recipients'
      non-empty phone numbers, in order (phone numbers contain no comma). */
  lemma DerivedPhoneNumbersReachRecipients(n: NotificationRow, dir: Directory)
    requires n.recipientPhoneNumbers == ""
    requires var phones := NonEmpty(PhoneNumbersOf(n.recipientUsers, dir.users));
             |phones| >= 1 && forall k :: 0 <= k < |phones| ==> ',' !in phones[k]
    ensures SmsDeliveryOf(FillPhoneNumbers(n, dir), dir).phoneNumbers == NonEmpty(PhoneNumbersOf(n.recipientUsers, dir.users))
  {
    SplitJoin(NonEmpty(PhoneNumbersOf(n.recipientUsers, dir.users)), ',');
  }

  /** When the e-mail field was derived, the e-mail goes to exactly the
      recipients' non-empty addresses, in order. */
  lemma DerivedEmailsReachRecipients(n: NotificationRow, dir: Directory)
    requires n.recipientEmails == ""
    requires var emails := NonEmpty(EmailsOf(n.recipientUsers, dir.users));
             |emails| >= 1 && forall k :: 0 <= k < |emails| ==> ',' !in emails[k]
    ensures EmailDeliveryOf(FillEmails(n, dir)).emails == NonEmpty(EmailsOf(n.recipientUsers, dir.users))
  {
    SplitJoin(NonEmpty(EmailsOf(n.recipientUsers, dir.users)), ',');
  }

  /** A field that is already set is used as given, never overwritten. */
  lemma GivenRecipientsKept(n: NotificationRow, dir: Directory)
    ensures n.recipientPhoneNumbers != "" ==> FillPhoneNumbers(n, dir) == n
    ensures n.recipientEmails != "" ==> FillEmails(n, dir) == n
    ensures n.recipientPushIds != "" ==> FillPushIds(n, dir) == n
  {
  }

  /** A notification object and its persisted row. */
  class Notification {
    var row: NotificationRow
    var stored: Option<NotificationRow>
    var outbox: seq<Delivery>

    constructor (row: NotificationRow)
      ensures this.row == row && stored == None && outbox == []
    {
      this.row := row;
      stored := None;
      outbox := [];
    }

    /** `save`: `full_clean` first; only a valid notification is written. */
    method Save(v: Validators) returns (r: Outcome<CleanError>)
      modifies this`stored
      ensures r == FullClean(row, v)
      ensures r.Pass? ==> stored == Some(row)
      ensures r.Fail? ==> stored == old(stored)
    {
      r := FullClean(row, v);
      if r.Pass? {
        stored := Some(row);
      }
    }

    method SendSms(v: Validators, dir: Directory) returns (r: Outcome<CleanError>)
      modifies this
      ensures var t := SmsStep(old(row), old(stored), dir, v);
              row == t.row && stored == t.stored && r == t.outcome && outbox == old(outbox) + t.delivered
      ensures row == FillPhoneNumbers(old(row), dir)
      ensures old(row).recipientPhoneNumbers != "" ==> r.Pass? && stored == old(stored)
      ensures old(row).recipientPhoneNumbers == "" ==>
                r == FullClean(row, v) && stored == (if r.Pass? then Some(row) else old(stored))
      ensures outbox == old(outbox) + (if r.Pass? then [SmsDeliveryOf(row, dir)] else [])
    {
      if row.recipientPhoneNumbers == "" {
        row := row.(recipientPhoneNumbers := Join(NonEmpty(PhoneNumbersOf(row.recipientUsers, dir.users)), ","));
        r := Save(v);
        if r.Fail? {
          return;
        }
      }
      outbox := outbox + [SmsDeliveryOf(row, dir)];
      r := Pass;
    }

    method SendEmail(v: Validators, dir: Directory) returns (r: Outcome<CleanError>)
      modifies this
      ensures var t := EmailStep(old(row), old(stored), dir, v);
              row == t.row && stored == t.stored && r == t.outcome && outbox == old(outbox) + t.delivered
      ensures row == FillEmails(old(row), dir)
      ensures old(row).recipientEmails != "" ==> r.Pass? && stored == old(stored)
      ensures old(row).recipientEmails == "" ==>
                r == FullClean(row, v) && stored == (if r.Pass? then Some(row) else old(stored))
      ensures outbox == old(outbox) + (if r.Pass? then [EmailDeliveryOf(row)] else [])
    {
      if row.recipientEmails == "" {
        row := row.(recipientEmails := Join(NonEmpty(EmailsOf(row.recipientUsers, dir.users)), ","));
        r := Save(v);
        if r.Fail? {
          return;
        }
      }
      outbox := outbox + [EmailDeliveryOf(row)];
      r := Pass;
    }

    method SendPush(v: Validators, dir: Directory) returns (r: Outcome<CleanError>)
      modifies this
      ensures var t := PushStep(old(row), old(stored), dir, v);
              row == t.row && stored == t.stored && r == t.outcome && outbox == old(outbox) + t.delivered
      ensures row == FillPushIds(old(row), dir)
      ensures old(row).recipientPushIds != "" ==> r.Pass? && stored == old(stored)
      ensures old(row).recipientPushIds == "" ==>
                r == FullClean(row, v) && stored == (if r.Pass? then Some(row) else old(stored))
      ensures outbox == old(outbox) + (if r.Pass? then [PushDeliveryOf(row)] else [])
    {
      if row.recipientPushIds == "" {
        row := row.(recipientPushIds := Join(NonEmpty(PushIdsOf(dir.devices, row.recipientUsers)), ","));
        r := Save(v);
        if r.Fail? {
          return;
        }
      }
      outbox := outbox + [PushDeliveryOf(row)];
      r := Pass;
    }

    method SendPushBroadcast()
      modifies this`outbox
      ensures outbox == old(outbox) + [BroadcastDeliveryOf(row)]
    {
      outbox := outbox + [BroadcastDeliveryOf(row)];
    }

    /** `send`: the senders `Routes` names, in order; a failing save stops it,
        after the earlier senders have handed over their messages. */
    method Send(v: Validators, dir: Directory) returns (r: Outcome<CleanError>)
      modifies this
      ensures r == SendOutcome(old(row), dir, v)
      ensures r.Pass? ==> row == Sent(old(row), dir) && outbox == old(outbox) + Deliveries(old(row), dir)
      ensures var s := DirectSend(old(row), old(stored), dir, v);
              && r == s.outcome && row == s.row && stored == s.stored
              && outbox == old(outbox) + s.delivered
                 + (if r.Pass? && old(row).modePush && old(row).isBroadcast then [BroadcastDeliveryOf(row)] else [])
    {
      var n := row;
      r := SendDirect(v, dir);
      if r.Fail? { return; }
      if n.modePush && n.isBroadcast {
        SendPushBroadcast();
      }
    }

    /** `send_sms` when `routed`, otherwise nothing. */
    method SmsStage(v: Validators, dir: Directory, routed: bool) returns (r: Outcome<CleanError>)
      modifies this
      ensures var t := if routed then SmsStep(old(row), old(stored), dir, v) else Idle(old(row), old(stored));
              row == t.row && stored == t.stored && r == t.outcome && outbox == old(outbox) + t.delivered
    {
      r := Pass;
      if routed {
        r := SendSms(v, dir);
      }
    }

    /** `send_email` when `routed`, otherwise nothing. */
    method EmailStage(v: Validators, dir: Directory, routed: bool) returns (r: Outcome<CleanError>)
      modifies this
      ensures var t := if routed then EmailStep(old(row), old(stored), dir, v) else Idle(old(row), old(stored));
              row == t.row && stored == t.stored && r == t.outcome && outbox == old(outbox) + t.delivered
    {
      r := Pass;
      if routed {
        r := SendEmail(v, dir);
      }
    }

    /** `send_push` when `routed`, otherwise nothing. */
    method PushStage(v: Validators, dir: Directory, routed: bool) returns (r: Outcome<CleanError>)
      modifies this
      ensures var t := if routed then PushStep(old(row), old(stored), dir, v) else Idle(old(row), old(stored));
              row == t.row && stored == t.stored && r == t.outcome && outbox == old(outbox) + t.delivered
    {
      r := Pass;
      if routed {
        r := SendPush(v, dir);
      }
    }

    /** The three direct senders of `send`, each only when routed. */
    method SendDirect(v: Validators, dir: Directory) returns (r: Outcome<CleanError>)
      modifies this
      ensures r == SendOutcome(old(row), dir, v)
      ensures r.Pass? ==> row == Sent(old(row), dir) && outbox == old(outbox) + DirectDeliveries(old(row), dir)
      ensures var s := DirectSend(old(row), old(stored), dir, v);
              r == s.outcome && row == s.row && stored == s.stored && outbox == old(outbox) + s.delivered
    {
      var n := row;
      ghost var stored0, outbox0 := stored, outbox;
      r := SmsStage(v, dir, n.modeSms && !n.isBroadcast);
      ghost var s := AfterSmsStep(n, stored0, dir, v);
      if r.Pass? {
        ghost var s1, outbox1 := s, outbox;
        ghost var t := if n.modeEmail && !n.isBroadcast then EmailStep(row, stored, dir, v) else Idle(row, stored);
        r := EmailStage(v, dir, n.modeEmail && !n.isBroadcast);
        s := AndThen(s1, t);
        assert s == AfterEmailStep(n, s1, dir, v);
        assert outbox == outbox1 + t.delivered;
        ConcatAssoc(outbox0, s1.delivered, t.delivered);
        if r.Pass? {
          ghost var s2, outbox2 := s, outbox;
          t := if n.modePush && !n.isBroadcast then PushStep(row, stored, dir, v) else Idle(row, stored);
          r := PushStage(v, dir, n.modePush && !n.isBroadcast);
          s := AndThen(s2, t);
          assert s == AfterPushStep(n, s2, dir, v);
          assert outbox == outbox2 + t.delivered;
          ConcatAssoc(outbox0, s2.delivered, t.delivered);
        }
      }
      assert s == DirectSend(n, stored0, dir, v);
      DirectSendMeaning(n, stored0, dir, v);
    }
  }

  // ----- the state of a `send` ------------------------------------------------

  /** What a sender, or a run of senders, leaves behind: the row in memory,
      the persisted row, the messages handed to providers and whether a save
      failed. */
  datatype SendState = SendState(row: NotificationRow, stored: Option<NotificationRow>, delivered: seq<Delivery>,
                                 outcome: Outcome<CleanError>)

  /** `send_sms` on row `n` persisted as `stored`: an empty phone field is
      derived and the row saved; a failing save stops before the provider. */
  function SmsStep(n: NotificationRow, stored: Option<NotificationRow>, dir: Directory, v: Validators): SendState {
    if n.recipientPhoneNumbers != "" then SendState(n, stored, [SmsDeliveryOf(n, dir)], Pass)
    else
      var filled := FillPhoneNumbers(n, dir);
      if FullClean(filled, v).Fail? then SendState(filled, stored, [], FullClean(filled, v))
      else SendState(filled, Some(filled), [SmsDeliveryOf(filled, dir)], Pass)
  }

  /** `send_email` on row `n` persisted as `stored`. */
  function EmailStep(n: NotificationRow, stored: Option<NotificationRow>, dir: Directory, v: Validators): SendState {
    if n.recipientEmails != "" then SendState(n, stored, [EmailDeliveryOf(n)], Pass)
    else
      var filled := FillEmails(n, dir);
      if FullClean(filled, v).Fail? then SendState(filled, stored, [], FullClean(filled, v))
      else SendState(filled, Some(filled), [EmailDeliveryOf(filled)], Pass)
  }

  /** `send_push` on row `n` persisted as `stored`. */
  function PushStep(n: NotificationRow, stored: Option<NotificationRow>, dir: Directory, v: Validators): SendState {
    if n.recipientPushIds != "" then SendState(n, stored, [PushDeliveryOf(n)], Pass)
    else
      var filled := FillPushIds(n, dir);
      if FullClean(filled, v).Fail? then SendState(filled, stored, [], FullClean(filled, v))
      else SendState(filled, Some(filled), [PushDeliveryOf(filled)], Pass)
  }

  /** `t` run after `s`: its state, with the messages of both in order. */
  function AndThen(s: SendState, t: SendState): SendState {
    t.(delivered := s.delivered + t.delivered)
  }

  /** Nothing done to row `n` persisted as `stored`. */
  function Idle(n: NotificationRow, stored: Option<NotificationRow>): SendState {
    SendState(n, stored, [], Pass)
  }

  /** The direct senders of `send` run in turn on row `n` persisted as
      `stored`, up to the first failing save. */
  function DirectSend(n: NotificationRow, stored: Option<NotificationRow>, dir: Directory, v: Validators): SendState {
    var s1 := AfterSmsStep(n, stored, dir, v);
    if s1.outcome.Fail? then s1
    else
      var s2 := AfterEmailStep(n, s1, dir, v);
      if s2.outcome.Fail? then s2
      else AfterPushStep(n, s2, dir, v)
  }

  /** The direct senders end with the outcome `SendOutcome` gives.  When every
      save passes they have derived the row `Sent` and handed over exactly
      `DirectDeliveries`; when a save fails, the messages already handed over
      are a proper prefix of `DirectDeliveries`.  Only the recipient fields
      ever change, and only a row that passes `full_clean` is persisted. */
  lemma DirectSendMeaning(n: NotificationRow, stored: Option<NotificationRow>, dir: Directory, v: Validators)
    ensures var s := DirectSend(n, stored, dir, v);
            && s.outcome == SendOutcome(n, dir, v)
            && (s.outcome.Pass? ==> s.row == Sent(n, dir) && s.delivered == DirectDeliveries(n, dir))
            && (s.outcome.Fail? ==>
                  |s.delivered| < |DirectDeliveries(n, dir)| && s.delivered == DirectDeliveries(n, dir)[..|s.delivered|])
            && s.row.(recipientPhoneNumbers := n.recipientPhoneNumbers, recipientEmails := n.recipientEmails,
                      recipientPushIds := n.recipientPushIds) == n
            && (s.stored != stored ==> s.stored.Some? && FullClean(s.stored.value, v).Pass?)
  {
    DirectSendOutcome(n, stored, dir, v);
    DirectSendDeliveries(n, stored, dir, v);
    DirectSendKeepsFields(n, stored, dir, v);
  }

  /** The direct senders after the SMS sender. */
  function AfterSmsStep(n: NotificationRow, stored: Option<NotificationRow>, dir: Directory, v: Validators): SendState {
    if n.modeSms && !n.isBroadcast then SmsStep(n, stored, dir, v) else Idle(n, stored)
  }

  /** The direct senders after the e-mail sender, `s1` being where the SMS sender left. */
  function AfterEmailStep(n: NotificationRow, s1: SendState, dir: Directory, v: Validators): SendState {
    AndThen(s1, if n.modeEmail && !n.isBroadcast then EmailStep(s1.row, s1.stored, dir, v) else Idle(s1.row, s1.stored))
  }

  /** The direct senders after the push sender, `s2` being where the e-mail sender left. */
  function AfterPushStep(n: NotificationRow, s2: SendState, dir: Directory, v: Validators): SendState {
    AndThen(s2, if n.modePush && !n.isBroadcast then PushStep(s2.row, s2.stored, dir, v) else Idle(s2.row, s2.stored))
  }

  /** The stages of `DirectSend`, one sender at a time. */
  lemma DirectSendStages(n: NotificationRow, stored: Option<NotificationRow>, dir: Directory, v: Validators)
    ensures var s1 := AfterSmsStep(n, stored, dir, v);
            var s2 := AfterEmailStep(n, s1, dir, v);
            && (s1.outcome.Pass? ==> s1.row == AfterSms(n, dir))
            && (s1.outcome.Pass? && s2.outcome.Pass? ==> s2.row == AfterEmail(n, dir))
            && DirectSend(n, stored, dir, v) ==
                 if s1.outcome.Fail? then s1
                 else if s2.outcome.Fail? then s2
                 else AfterPushStep(n, s2, dir, v)
  {
  }

  /** The outcome of the direct senders is `SendOutcome`, and when it passes
      the row is `Sent`. */
  lemma DirectSendOutcome(n: NotificationRow, stored: Option<NotificationRow>, dir: Directory, v: Validators)
    ensures var s := DirectSend(n, stored, dir, v);
            s.outcome == SendOutcome(n, dir, v) && (s.outcome.Pass? ==> s.row == Sent(n, dir))
  {
    DirectSendStages(n, stored, dir, v);
  }

  /** The direct senders hand over `DirectDeliveries` when every save passes,
      and a proper prefix of it when one fails. */
  lemma DirectSendDeliveries(n: NotificationRow, stored: Option<NotificationRow>, dir: Directory, v: Validators)
    ensures var s := DirectSend(n, stored, dir, v);
            && (s.outcome.Pass? ==> s.delivered == DirectDeliveries(n, dir))
            && (s.outcome.Fail? ==>
                  |s.delivered| < |DirectDeliveries(n, dir)| && s.delivered == DirectDeliveries(n, dir)[..|s.delivered|])
  {
    var s := DirectSend(n, stored, dir, v);
    var sms, email, push := SmsPart(n, dir), EmailPart(n, dir), PushPart(n, dir);
    DirectSendStages(n, stored, dir, v);
    SmsStageDeliveries(n, stored, dir, v);
    var s1 := AfterSmsStep(n, stored, dir, v);
    if s1.outcome.Pass? {
      EmailStageDeliveries(n, stored, dir, v);
      var s2 := AfterEmailStep(n, s1, dir, v);
      if s2.outcome.Fail? {
        assert (sms + email + push)[..|sms|] == sms;
      } else {
        PushStageDeliveries(n, stored, dir, v);
        if s.outcome.Fail? {
          assert (sms + email + push)[..|sms + email|] == sms + email;
        }
      }
    }
  }

  /** The SMS sender of a direct `send` hands over `SmsPart`, or nothing when
      its save fails. */
  lemma SmsStageDeliveries(n: NotificationRow, stored: Option<NotificationRow>, dir: Directory, v: Validators)
    ensures var s1 := AfterSmsStep(n, stored, dir, v);
            && (s1.outcome.Pass? ==> s1.delivered == SmsPart(n, dir) && s1.row == AfterSms(n, dir))
            && (s1.outcome.Fail? ==> s1.delivered == [] && SmsPart(n, dir) != [])
  {
  }

  /** After a passing SMS sender, the e-mail sender adds `EmailPart`, or
      nothing when its save fails. */
  lemma EmailStageDeliveries(n: NotificationRow, stored: Option<NotificationRow>, dir: Directory, v: Validators)
    requires AfterSmsStep(n, stored, dir, v).outcome.Pass?
    ensures var s1 := AfterSmsStep(n, stored, dir, v);
            var s2 := AfterEmailStep(n, s1, dir, v);
            && (s2.outcome.Pass? ==> s2.delivered == SmsPart(n, dir) + EmailPart(n, dir) && s2.row == AfterEmail(n, dir))
            && (s2.outcome.Fail? ==> s2.delivered == SmsPart(n, dir) && EmailPart(n, dir) != [])
  {
    SmsStageDeliveries(n, stored, dir, v);
  }

  /** After passing SMS and e-mail senders, the push sender adds `PushPart`,
      or nothing when its save fails. */
  lemma PushStageDeliveries(n: NotificationRow, stored: Option<NotificationRow>, dir: Directory, v: Validators)
    requires AfterSmsStep(n, stored, dir, v).outcome.Pass?
    requires AfterEmailStep(n, AfterSmsStep(n, stored, dir, v), dir, v).outcome.Pass?
    ensures var s := DirectSend(n, stored, dir, v);
            && (s.outcome.Pass? ==> s.delivered == SmsPart(n, dir) + EmailPart(n, dir) + PushPart(n, dir))
            && (s.outcome.Fail? ==> s.delivered == SmsPart(n, dir) + EmailPart(n, dir) && PushPart(n, dir) != [])
  {
    EmailStageDeliveries(n, stored, dir, v);
  }

  /** The direct senders change only the recipient fields and persist only a
      row that passes `full_clean`. */
  lemma DirectSendKeepsFields(n: NotificationRow, stored: Option<NotificationRow>, dir: Directory, v: Validators)
    ensures var s := DirectSend(n, stored, dir, v);
            && s.row.(recipientPhoneNumbers := n.recipientPhoneNumbers, recipientEmails := n.recipientEmails,
                      recipientPushIds := n.recipientPushIds) == n
            && (s.stored != stored ==> s.stored.Some? && FullClean(s.stored.value, v).Pass?)
  {
    DirectSendStages(n, stored, dir, v);
    var s1 := AfterSmsStep(n, stored, dir, v);
    SmsStepKeepsFields(n, stored, dir, v);
    EmailStepKeepsFields(s1.row, s1.stored, dir, v);
    var s2 := AfterEmailStep(n, s1, dir, v);
    PushStepKeepsFields(s2.row, s2.stored, dir, v);
  }

  /** `send_sms` changes only the phone field, and persists only a row that
      passes `full_clean`. */
  lemma SmsStepKeepsFields(n: NotificationRow, stored: Option<NotificationRow>, dir: Directory, v: Validators)
    ensures var s := SmsStep(n, stored, dir, v);
            && s.row == n.(recipientPhoneNumbers := s.row.recipientPhoneNumbers)
            && (s.stored != stored ==> s.stored == Some(s.row) && FullClean(s.row, v).Pass?)
  {
    if n.recipientPhoneNumbers == "" {
      var filled := FillPhoneNumbers(n, dir);
      assert filled == n.(recipientPhoneNumbers := filled.recipientPhoneNumbers);
    }
  }

  /** `send_email` changes only the e-mail field, and persists only a row that
      passes `full_clean`. */
  lemma EmailStepKeepsFields(n: NotificationRow, stored: Option<NotificationRow>, dir: Directory, v: Validators)
    ensures var s := EmailStep(n, stored, dir, v);
            && s.row == n.(recipientEmails := s.row.recipientEmails)
            && (s.stored != stored ==> s.stored == Some(s.row) && FullClean(s.row, v).Pass?)
  {
    if n.recipientEmails == "" {
      var filled := FillEmails(n, dir);
      assert filled == n.(recipientEmails := filled.recipientEmails);
    }
  }

  /** `send_push` changes only the device-id field, and persists only a row
      that passes `full_clean`. */
  lemma PushStepKeepsFields(n: NotificationRow, stored: Option<NotificationRow>, dir: Directory, v: Validators)
    ensures var s := PushStep(n, stored, dir, v);
            && s.row == n.(recipientPushIds := s.row.recipientPushIds)
            && (s.stored != stored ==> s.stored == Some(s.row) && FullClean(s.row, v).Pass?)
  {
    if n.recipientPushIds == "" {
      var filled := FillPushIds(n, dir);
      assert filled == n.(recipientPushIds := filled.recipientPushIds);
    }
  }

  /** The row once `send` has derived every recipient field it needed. */
  function Sent(n: NotificationRow, dir: Directory): NotificationRow {
    var n2 := AfterEmail(n, dir);
    if n.modePush && !n.isBroadcast then FillPushIds(n2, dir) else n2
  }

  /** The row once the SMS sender, if routed, has derived the phone numbers. */
  function AfterSms(n: NotificationRow, dir: Directory): NotificationRow {
    if n.modeSms && !n.isBroadcast then FillPhoneNumbers(n, dir) else n
  }

  /** The row once the e-mail sender, if routed, has derived the addresses too. */
  function AfterEmail(n: NotificationRow, dir: Directory): NotificationRow {
    var n1 := AfterSms(n, dir);
    if n.modeEmail && !n.isBroadcast then FillEmails(n1, dir) else n1
  }

  /** The outcome of `send`: the error of the first derived-recipient save that
      fails `full_clean`, or `Pass`. */
  function SendOutcome(n: NotificationRow, dir: Directory, v: Validators): Outcome<CleanError> {
    var n1 := AfterSms(n, dir);
    var n2 := AfterEmail(n, dir);
    var n3 := Sent(n, dir);
    if n.modeSms && !n.isBroadcast && n.recipientPhoneNumbers == "" && FullClean(n1, v).Fail? then FullClean(n1, v)
    else if n.modeEmail && !n.isBroadcast && n1.recipientEmails == "" && FullClean(n2, v).Fail? then FullClean(n2, v)
    else if n.modePush && !n.isBroadcast && n2.recipientPushIds == "" && FullClean(n3, v).Fail? then FullClean(n3, v)
    else Pass
  }

  /** What a `send` that raises nothing hands to the providers, in order. */
  function Deliveries(n: NotificationRow, dir: Directory): seq<Delivery> {
    DirectDeliveries(n, dir) + (if n.modePush && n.isBroadcast then [BroadcastDeliveryOf(Sent(n, dir))] else [])
  }

  /** The deliveries of the three direct senders, in order. */
  function DirectDeliveries(n: NotificationRow, dir: Directory): seq<Delivery> {
    SmsPart(n, dir) + EmailPart(n, dir) + PushPart(n, dir)
  }

  /** The SMS message of a direct `send`, when routed. */
  function SmsPart(n: NotificationRow, dir: Directory): seq<Delivery> {
    if n.modeSms && !n.isBroadcast then [SmsDeliveryOf(AfterSms(n, dir), dir)] else []
  }

  /** The e-mail message of a direct `send`, when routed. */
  function EmailPart(n: NotificationRow, dir: Directory): seq<Delivery> {
    if n.modeEmail && !n.isBroadcast then [EmailDeliveryOf(AfterEmail(n, dir))] else []
  }

  /** The push message of a direct `send`, when routed. */
  function PushPart(n: NotificationRow, dir: Directory): seq<Delivery> {
    if n.modePush && !n.isBroadcast then [PushDeliveryOf(Sent(n, dir))] else []
  }

  /** `send` hands one message to each sender `Routes` names, in that order,
      and deriving recipients changes nothing but the recipient fields. */
  lemma DeliveriesFollowRoutes(n: NotificationRow, dir: Directory)
    ensures ChannelsOf(Deliveries(n, dir)) == Routes(n)
    ensures Sent(n, dir).(recipientPhoneNumbers := n.recipientPhoneNumbers, recipientEmails := n.recipientEmails,
                          recipientPushIds := n.recipientPushIds) == n
  {
    var n1 := AfterSms(n, dir);
    var n2 := AfterEmail(n, dir);
    var n3 := Sent(n, dir);
    var sms := if n.modeSms && !n.isBroadcast then [SmsDeliveryOf(n1, dir)] else [];
    var email := if n.modeEmail && !n.isBroadcast then [EmailDeliveryOf(n2)] else [];
    var push := if n.modePush && !n.isBroadcast then [PushDeliveryOf(n3)] else [];
    var broadcast := if n.modePush && n.isBroadcast then [BroadcastDeliveryOf(n3)] else [];
    assert Deliveries(n, dir) == sms + email + push + broadcast;
    assert ChannelsOf(sms) == if n.modeSms && !n.isBroadcast then [DirectSms] else [];
    assert ChannelsOf(email) == if n.modeEmail && !n.isBroadcast then [DirectEmail] else [];
    assert ChannelsOf(push) == if n.modePush && !n.isBroadcast then [DirectPush] else [];
    assert ChannelsOf(broadcast) == if n.modePush && n.isBroadcast then [BroadcastPush] else [];
    ChannelsOfAppend(sms, email);
    ChannelsOfAppend(sms + email, push);
    ChannelsOfAppend(sms + email + push, broadcast);
    SentChangesOnlyRecipients(n, dir);
  }

  /** Deriving recipients changes nothing but the three recipient fields. */
  lemma SentChangesOnlyRecipients(n: NotificationRow, dir: Directory)
    ensures Sent(n, dir).(recipientPhoneNumbers := n.recipientPhoneNumbers, recipientEmails := n.recipientEmails,
                          recipientPushIds := n.recipientPushIds) == n
  {
    var n1 := AfterSms(n, dir);
    var n2 := AfterEmail(n, dir);
    assert n1 == n.(recipientPhoneNumbers := n1.recipientPhoneNumbers);
    assert n2 == n.(recipientPhoneNumbers := n1.recipientPhoneNumbers, recipientEmails := n2.recipientEmails);
  }

  /** Concatenation is associative. */
  lemma ConcatAssoc<T>(a: seq<T>, b: seq<T>, c: seq<T>)
    ensures a + b + c == a + (b + c)
  {
  }

  /** The channels of two runs of deliveries are those of each run. */
  lemma ChannelsOfAppend(a: seq<Delivery>, b: seq<Delivery>)
    ensures ChannelsOf(a + b) == ChannelsOf(a) + ChannelsOf(b)
  {
    var l, r := ChannelsOf(a + b), ChannelsOf(a) + ChannelsOf(b);
    assert |l| == |r|;
    forall i | 0 <= i < |l| ensures l[i] == r[i] {
      if i < |a| {
        assert (a + b)[i] == a[i];
      } else {
        assert (a + b)[i] == b[i - |a|];
      }
    }
  }

  /** The SMS carries `SmsText`; the e-mail and the pushes carry `message`. */
  lemma DeliveriesCarryText(n: NotificationRow, dir: Directory)
    ensures forall i :: 0 <= i < |Deliveries(n, dir)| ==>
              Deliveries(n, dir)[i].text == if Deliveries(n, dir)[i].SmsDelivery? then SmsText(n) else n.message
  {
    SentChangesOnlyRecipients(n, dir);
    var n1, n2, n3 := AfterSms(n, dir), AfterEmail(n, dir), Sent(n, dir);
    assert n1.message == n.message && n1.smsMessage == n.smsMessage;
    assert n2.message == n.message && n3.message == n.message;
    var d := Deliveries(n, dir);
    var broadcast := if n.modePush && n.isBroadcast then [BroadcastDeliveryOf(n3)] else [];
    assert d == SmsPart(n, dir) + EmailPart(n, dir) + PushPart(n, dir) + broadcast;
    forall i | 0 <= i < |d| ensures d[i].text == if d[i].SmsDelivery? then SmsText(n) else n.message {
      assert d[i] in SmsPart(n, dir) || d[i] in EmailPart(n, dir) || d[i] in PushPart(n, dir) || d[i] in broadcast;
    }
  }

  // ----- SMS groups ----------------------------------------------------------

  datatype Gender = Male | Female

  /** An SMS group; `gender == None` is "ANY", an age bound of `None` or 0 is unset. */
  datatype SmsGroup = SmsGroup(
    branch: Database.BranchId,
    gender: Option<Gender>,
    ageFrom: Option<nat>,
    ageTo: Option<nat>,
    package: Option<Database.PackageId>,
    isActive: bool)

  /** The user fields the audience filters read. */
  datatype Profile = Profile(dateOfBirth: Option<int>, gender: Option<Gender>)

  /** What the audience is drawn from: the enrollments, the memberships, the
      profiles of their users, today's date in the organization's zone and the
      calendar function "the date `n` years before `d`". */
  datatype AudienceSource = AudienceSource(
    enrollments: map<Database.EnrollmentId, Database.CustomerEnrollment>,
    memberships: map<Database.MembershipId, Database.Membership>,
    profiles: map<Database.UserId, Profile>,
    today: int,
    yearsBefore: (int, nat) -> int)

  predicate HasPackage(src: AudienceSource, e: Database.EnrollmentId, p: Database.PackageId) {
    exists m :: m in src.memberships && src.memberships[m].customer == e && src.memberships[m].package == p
  }

  /** An age bound is set when it is present and not 0. */
  predicate BoundSet(bound: Option<nat>) {
    bound.Some? && bound.value != 0
  }

  /** The package, age and gender filters of `filtered_customers` for one
      enrollment; a missing date of birth fails any age bound. */
  predicate PassesFilters(g: SmsGroup, src: AudienceSource, e: Database.EnrollmentId)
    requires e in src.enrollments
  {
    var u := src.enrollments[e].user;
    var profile := if u in src.profiles then src.profiles[u] else Profile(None, None);
    && (g.package.Some? ==> HasPackage(src, e, g.package.value))
    && (BoundSet(g.ageFrom) ==>
          profile.dateOfBirth.Some? && profile.dateOfBirth.value < src.yearsBefore(src.today, g.ageFrom.value))
    && (BoundSet(g.ageTo) ==>
          profile.dateOfBirth.Some? && profile.dateOfBirth.value >= src.yearsBefore(src.today, g.ageTo.value))
    && (g.gender.Some? ==> profile.gender == g.gender)
  }

  /** `SmsGroup.filtered_customers`; `custom` holds the hand-assigned enrollments (`custom_customers`). */
  function FilteredCustomers(g: SmsGroup, custom: set<Database.EnrollmentId>, src: AudienceSource)
    : set<Database.EnrollmentId>
  {
    set e | e in src.enrollments && e !in custom && src.enrollments[e].branch == g.branch && PassesFilters(g, src, e)
  }

  /** `SmsGroup.custom_customers`. */
  function CustomCustomers(custom: set<Database.EnrollmentId>, src: AudienceSource): set<Database.EnrollmentId> {
    set e | e in custom && e in src.enrollments
  }

  /** `SmsGroup.customers`. */
  function Customers(g: SmsGroup, custom: set<Database.EnrollmentId>, src: AudienceSource): set<Database.EnrollmentId> {
    FilteredCustomers(g, custom, src) + CustomCustomers(custom, src)
  }

  /** The audience is the custom customers (whatever the filters say)
      together with exactly the branch's other customers that pass the
      filters; the two parts never overlap. */
  lemma CustomersMeaning(g: SmsGroup, custom: set<Database.EnrollmentId>, src: AudienceSource, e: Database.EnrollmentId)
    ensures e in Customers(g, custom, src) <==>
              e in src.enrollments &&
              (e in custom || (src.enrollments[e].branch == g.branch && PassesFilters(g, src, e)))
    ensures FilteredCustomers(g, custom, src) !! CustomCustomers(custom, src)
  {
  }

  /** An age bound of 0 filters exactly like no bound. */
  lemma ZeroAgeBoundIsUnset(g: SmsGroup, custom: set<Database.EnrollmentId>, src: AudienceSource)
    ensures Customers(g.(ageFrom := Some(0)), custom, src) == Customers(g.(ageFrom := None), custom, src)
    ensures Customers(g.(ageTo := Some(0)), custom, src) == Customers(g.(ageTo := None), custom, src)
  {
    assert FilteredCustomers(g.(ageFrom := Some(0)), custom, src) == FilteredCustomers(g.(ageFrom := None), custom, src);
    assert FilteredCustomers(g.(ageTo := Some(0)), custom, src) == FilteredCustomers(g.(ageTo := None), custom, src);
  }

  /** When every assignment respects the assignment rule, the whole audience
      belongs to the group's branch. */
  lemma AudienceStaysInBranch(g: SmsGroup, custom: set<Database.EnrollmentId>, src: AudienceSource)
    requires forall e :: e in custom && e in src.enrollments ==> src.enrollments[e].branch == g.branch
    ensures forall e :: e in Customers(g, custom, src) ==> src.enrollments[e].branch == g.branch
  {
  }

  // ----- the other `clean` rules ---------------------------------------------

  datatype GroupError = PackageOfOtherBranch | CustomerOfOtherBranch | DuplicateAssignment | ScheduledAtMissing

  /** `SmsGroup.clean`: a chosen package must belong to the group's branch. */
  function CleanSmsGroup(g: SmsGroup, packages: map<Database.PackageId, Database.MembershipPackage>): (r: Outcome<GroupError>)
    ensures r.Fail? <==> g.package.Some? && g.package.value in packages && packages[g.package.value].branch != g.branch
  {
    if g.package.Some? && g.package.value in packages && packages[g.package.value].branch != g.branch
    then Fail(PackageOfOtherBranch) else Pass
  }

  type GroupId = nat

  /** `SmsGroupCustomerAssignment.full_clean` for the pair `(group, customer)`
      against the existing pairs: the branch rule of `clean`, then
      `unique_together`. */
  function CleanAssignment(group: GroupId, groupBranch: Database.BranchId, customer: Database.EnrollmentId,
                           customerBranch: Database.BranchId, existing: set<(GroupId, Database.EnrollmentId)>)
    : (r: Outcome<GroupError>)
  {
    if customerBranch != groupBranch then Fail(CustomerOfOtherBranch)
    else if (group, customer) in existing then Fail(DuplicateAssignment)
    else Pass
  }

  /** An accepted assignment is new and joins a customer of the group's branch. */
  lemma CleanAssignmentMeaning(group: GroupId, groupBranch: Database.BranchId, customer: Database.EnrollmentId,
                               customerBranch: Database.BranchId, existing: set<(GroupId, Database.EnrollmentId)>)
    ensures CleanAssignment(group, groupBranch, customer, customerBranch, existing).Pass? <==>
              customerBranch == groupBranch && (group, customer) !in existing
  {
  }

  /** `SmsCampaign.clean`: a scheduled campaign needs its time. */
  function CleanSmsCampaign(isScheduled: bool, scheduledAt: Option<int>): (r: Outcome<GroupError>)
    ensures r.Fail? <==> isScheduled && scheduledAt.None?
  {
    if isScheduled && scheduledAt.None? then Fail(ScheduledAtMissing) else Pass
  }
}
