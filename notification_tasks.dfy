/**
 * Background tasks of the notifications app: the two OTP text messages and the
 * SMS-campaign task.  The campaign task sends the campaign's message once to
 * the users of its group and records the outcome: COMPLETED with the message
 * count and cost, or FAILED when the SMS provider raises; the attempt time is
 * stamped either way.  A campaign that is not PENDING or SCHEDULED, or whose
 * group is inactive, is left untouched.
 */
module NotificationTasks {
  import opened Wrappers
  import opened Text
  import Database
  import Notifications

  // ----- OTP messages ----------------------------------------------------------

  const LoginOtpPrefix := "Your Login OTP for Fitconnect is "
  const PhoneChangeOtpPrefix := "Your OTP for Fitconnect is "

  /** The SMS body of `send_login_otp_task`. */
  function LoginOtpText(otp: string): string {
    LoginOtpPrefix + otp
  }

  /** The SMS body of `send_phone_number_change_otp_task`. */
  function PhoneChangeOtpText(otp: string): string {
    PhoneChangeOtpPrefix + otp
  }

  /** Both texts end with the code, which can be read back from them, so two
      different codes never give the same text; and the two kinds of message
      never coincide. */
  lemma OtpTextsCarryTheCode(otp: string, other: string)
    ensures StartsWith(LoginOtpText(otp), LoginOtpPrefix) && LoginOtpText(otp)[|LoginOtpPrefix|..] == otp
    ensures StartsWith(PhoneChangeOtpText(otp), PhoneChangeOtpPrefix) && PhoneChangeOtpText(otp)[|PhoneChangeOtpPrefix|..] == otp
    ensures LoginOtpText(otp) == LoginOtpText(other) ==> otp == other
    ensures PhoneChangeOtpText(otp) == PhoneChangeOtpText(other) ==> otp == other
    ensures LoginOtpText(otp) != PhoneChangeOtpText(other)
  {
    assert LoginOtpText(otp)[|LoginOtpPrefix|..] == otp;
    assert LoginOtpText(other)[|LoginOtpPrefix|..] == other;
    assert PhoneChangeOtpText(otp)[|PhoneChangeOtpPrefix|..] == otp;
    assert PhoneChangeOtpText(other)[|PhoneChangeOtpPrefix|..] == other;
    assert LoginOtpText(otp)[5] == 'L' && PhoneChangeOtpText(other)[5] == 'O';
  }

  /** An OTP SMS goes to the one phone number, with no sender mask. */
  datatype OtpSms = OtpSms(phoneNumbers: seq<string>, text: string, smsMask: Option<string>)

  function LoginOtpSms(phone: string, otp: string): OtpSms {
    OtpSms([phone], LoginOtpText(otp), None)
  }

  function PhoneChangeOtpSms(phone: string, otp: string): OtpSms {
    OtpSms([phone], PhoneChangeOtpText(otp), None)
  }

  // ----- SMS campaigns ----------------------------------------------------------

  datatype CampaignState = Pending | Scheduled | Completed | Cancelled | Failed

  datatype CampaignRow = CampaignRow(
    name: string,
    message: string,
    state: CampaignState,
    isScheduled: bool,
    scheduledAt: Option<int>,
    messageCount: nat,
    costCents: nat,
    attemptedAt: Option<int>)

  /** The campaign task only works on a campaign of an active group that is PENDING or SCHEDULED. */
  predicate Eligible(c: CampaignRow, groupActive: bool) {
    groupActive && (c.state == Pending || c.state == Scheduled)
  }

  const CampaignNameMaxLength := 127
  const CampaignMessageMaxLength := 160

  /** `cost` is a `DecimalField(max_digits=9, decimal_places=2)`: at most nine
      digits, two of them after the point, so below 10^9 cents. */
  const CostCentsBound := 1_000_000_000

  /** The `ValidationError` of `SmsCampaign.full_clean`: a field its own checks
      reject, or the error of `clean`. */
  datatype CampaignError = CampaignFieldError(field: string) | CampaignCleanError(error: Notifications.GroupError)

  /** `SmsCampaign.full_clean`: `clean_fields` (name and message non-blank and
      within their `max_length`, the cost within its digits), then `clean`. */
  function CleanCampaign(c: CampaignRow): (r: Outcome<CampaignError>)
    ensures r.Pass? <==>
              && c.name != "" && |c.name| <= CampaignNameMaxLength
              && c.message != "" && |c.message| <= CampaignMessageMaxLength
              && c.costCents < CostCentsBound
              && Notifications.CleanSmsCampaign(c.isScheduled, c.scheduledAt).Pass?
  {
    if c.name == "" || |c.name| > CampaignNameMaxLength then Fail(CampaignFieldError("name"))
    else if c.message == "" || |c.message| > CampaignMessageMaxLength then Fail(CampaignFieldError("message"))
    else if c.costCents >= CostCentsBound then Fail(CampaignFieldError("cost"))
    else match Notifications.CleanSmsCampaign(c.isScheduled, c.scheduledAt)
      case Fail(e) => Fail(CampaignCleanError(e))
      case Pass => Pass
  }

  /** The notification the campaign task creates for campaign `c`. */
  function CampaignNotification(c: CampaignRow, organization: Option<Database.OrgId>, recipients: seq<Database.UserId>)
    : Notifications.NotificationRow
  {
    Notifications.NotificationRow(organization, c.name, c.message, "", "CUSTOM", false, true, false, false,
                                  recipients, "", "", "")
  }

  /** The created notification (SMS only, no broadcast, no recipient entry
      given yet) passes `full_clean` exactly when the campaign's name and
      message are a valid title and message. */
  lemma CampaignNotificationIsValid(c: CampaignRow, organization: Option<Database.OrgId>,
                                    recipients: seq<Database.UserId>, v: Notifications.Validators)
    ensures Notifications.FullClean(CampaignNotification(c, organization, recipients), v).Pass? <==>
              c.name != "" && |c.name| <= Notifications.TitleMaxLength && c.message != ""
  {
    assert Split("", ",") == [""] by {
      assert IndexOf("", ",") == None;
    }
  }

  /** `send` on the created notification runs only `send_sms`: its outcome
      is the `full_clean` of the row with the derived phone numbers, and when
      that passes the one SMS goes to them. */
  lemma CampaignSend(c: CampaignRow, organization: Option<Database.OrgId>, recipients: seq<Database.UserId>,
                     dir: Notifications.Directory, v: Notifications.Validators)
    ensures var n0 := CampaignNotification(c, organization, recipients);
            var filled := Notifications.FillPhoneNumbers(n0, dir);
            && Notifications.SendOutcome(n0, dir, v) == Notifications.FullClean(filled, v)
            && Notifications.Deliveries(n0, dir) == [Notifications.SmsDeliveryOf(filled, dir)]
  {
    var n0 := CampaignNotification(c, organization, recipients);
    assert Notifications.AfterSms(n0, dir) == Notifications.Sent(n0, dir);
    assert Notifications.EmailPart(n0, dir) == [] && Notifications.PushPart(n0, dir) == [];
  }

  /** The campaign as the campaign task sets it before `campaign.save()`. */
  function CampaignNext(c: CampaignRow, providerRaises: bool, recipientCount: nat, smsCostCents: nat, now: int)
    : CampaignRow
  {
    if providerRaises then c.(state := Failed, attemptedAt := Some(now))
    else c.(state := Completed, messageCount := recipientCount, costCents := smsCostCents * recipientCount,
            attemptedAt := Some(now))
  }

  /** The stored campaign after the campaign task, given whether the
      notification's saves passed `full_clean` and whether the provider raised;
      a campaign that `campaign.save()` rejects stays as it was. */
  function CampaignAfterTask(c: CampaignRow, groupActive: bool, notificationSaves: bool, providerRaises: bool,
                             recipientCount: nat, smsCostCents: nat, now: int): CampaignRow
  {
    if !Eligible(c, groupActive) || !notificationSaves then c
    else
      var next := CampaignNext(c, providerRaises, recipientCount, smsCostCents, now);
      if CleanCampaign(next).Fail? then c else next
  }

  /** An ineligible campaign, or one whose notification could not be saved, is
      untouched.  Otherwise, for a campaign that was valid, the campaign task stores
      its result unless the cost `sms_cost * count` needs more than the
      field's digits: the attempt time is recorded; success sets COMPLETED,
      the recipient count and the cost; a provider error sets FAILED and keeps
      count and cost. */
  lemma CampaignAfterTaskMeaning(c: CampaignRow, groupActive: bool, notificationSaves: bool, providerRaises: bool,
                                 recipientCount: nat, smsCostCents: nat, now: int)
    requires CleanCampaign(c).Pass?
    ensures var after := CampaignAfterTask(c, groupActive, notificationSaves, providerRaises, recipientCount,
                                           smsCostCents, now);
            && (!Eligible(c, groupActive) || !notificationSaves ==> after == c)
            && (Eligible(c, groupActive) && notificationSaves ==>
                  && (after == c <==> !providerRaises && smsCostCents * recipientCount >= CostCentsBound)
                  && (after != c ==>
                        && after.attemptedAt == Some(now)
                        && after.(state := c.state, messageCount := c.messageCount, costCents := c.costCents,
                                  attemptedAt := c.attemptedAt) == c
                        && (!providerRaises ==>
                              after.state == Completed && after.messageCount == recipientCount
                              && after.costCents == smsCostCents * recipientCount < CostCentsBound)
                        && (providerRaises ==>
                              after.state == Failed && after.messageCount == c.messageCount && after.costCents == c.costCents)))
  {
  }

  /** Both outcomes are terminal: once the campaign task has changed a campaign, running
      it again, with any inputs, changes nothing. */
  lemma {:induction false} CampaignTaskIdempotent(c: CampaignRow, groupActive: bool, notificationSaves: bool,
                                                  providerRaises: bool, recipientCount: nat, smsCostCents: nat, now: int,
                                                  groupActive2: bool, notificationSaves2: bool, providerRaises2: bool,
                                                  recipientCount2: nat, smsCostCents2: nat, now2: int)
    ensures var once := CampaignAfterTask(c, groupActive, notificationSaves, providerRaises, recipientCount,
                                          smsCostCents, now);
            once == c ||
            CampaignAfterTask(once, groupActive2, notificationSaves2, providerRaises2, recipientCount2, smsCostCents2,
                              now2) == once
  {
    var once := CampaignAfterTask(c, groupActive, notificationSaves, providerRaises, recipientCount, smsCostCents, now);
    if once != c {
      assert once.state == Completed || once.state == Failed;
      assert !Eligible(once, groupActive2);
    }
  }

  /** What became of one run of the campaign task. */
  datatype TaskOutcome =
    | NotAttempted                                       // ineligible campaign
    | Attempted(providerRaised: bool)                    // the campaign was updated
    | Raised(error: Notifications.CleanError)            // the notification failed `full_clean`
    | CampaignRejected(reason: CampaignError)            // `campaign.save()` failed after the SMS went out

  class SmsCampaign {
    var row: CampaignRow

    constructor (row: CampaignRow)
      ensures this.row == row
    {
      this.row := row;
    }
  }

  /** `send_sms_campaign_message_task`.  `recipients` are the users of the
      group's customers, `dir` is where their phone numbers are looked up,
      `providerRaises` whether the SMS provider raises `OperationException`;
      the notification's deliveries are returned. */
  method SendSmsCampaignMessage(campaign: SmsCampaign, groupActive: bool, organization: Option<Database.OrgId>,
                                recipients: seq<Database.UserId>, dir: Notifications.Directory,
                                v: Notifications.Validators, smsCostCents: nat, providerRaises: bool, now: int)
    returns (r: TaskOutcome, deliveries: seq<Notifications.Delivery>)
    modifies campaign
    ensures var n0 := CampaignNotification(old(campaign.row), organization, recipients);
            var filled := Notifications.FillPhoneNumbers(n0, dir);
            var saves := Notifications.FullClean(filled, v).Pass?;
            var next := CampaignNext(old(campaign.row), providerRaises, |recipients|, smsCostCents, now);
            && campaign.row == CampaignAfterTask(old(campaign.row), groupActive, saves, providerRaises,
                                                 |recipients|, smsCostCents, now)
            && (r.NotAttempted? <==> !Eligible(old(campaign.row), groupActive))
            && (r.Raised? <==> Eligible(old(campaign.row), groupActive) && !saves)
            && (r.Raised? ==> r.error == if Notifications.FullClean(n0, v).Fail? then Notifications.FullClean(n0, v).error
                                         else Notifications.FullClean(filled, v).error)
            && (r.CampaignRejected? <==> Eligible(old(campaign.row), groupActive) && saves && CleanCampaign(next).Fail?)
            && (r.CampaignRejected? ==> r.reason == CleanCampaign(next).error)
            && (r.Attempted? ==> r.providerRaised == providerRaises)
            && (r.Attempted? || r.CampaignRejected? ==> deliveries == [Notifications.SmsDeliveryOf(filled, dir)])
            && (r.NotAttempted? || r.Raised? ==> deliveries == [])
  {
    var c := campaign.row;
    if !groupActive || !(c.state == Pending || c.state == Scheduled) {
      return NotAttempted, [];
    }
    var n0 := CampaignNotification(c, organization, recipients);
    var notification := new Notifications.Notification(n0);
    var created := notification.Save(v);
    if created.Fail? {
      return Raised(created.error), [];
    }
    var sent := notification.Send(v, dir);
    CampaignSend(c, organization, recipients, dir, v);
    if sent.Fail? {
      return Raised(sent.error), [];
    }
    deliveries := notification.outbox;
    var next := CampaignNext(c, providerRaises, |recipients|, smsCostCents, now);
    var saved := CleanCampaign(next);
    if saved.Fail? {
      return CampaignRejected(saved.error), deliveries;
    }
    campaign.row := next;
    r := Attempted(providerRaises);
  }
}
