/**
 * The "delivery methods" column of the notification admin list: the labels of
 * the enabled delivery modes, built by successive appends in a fixed order.
 */
module NotificationAdmin {
  import opened Wrappers
  import Notifications

  const PushLabel := "Push"
  const SmsLabel := "SMS"
  const EmailLabel := "Email"

  /** The labels in display order, each with the mode that enables it. */
  function AllLabels(): seq<string> { [PushLabel, SmsLabel, EmailLabel] }

  /** The sub-list of `labels` whose flags are set (`labels` and `flags` run in step). */
  function Kept(labels: seq<string>, flags: seq<bool>): (r: seq<string>)
    requires |labels| == |flags|
    ensures |r| <= |labels|
    ensures forall x :: x in r ==> x in labels
  {
    if labels == [] then []
    else (if flags[0] then [labels[0]] else []) + Kept(labels[1..], flags[1..])
  }

  /** `Kept` over the three labels, written out. */
  lemma KeptOfLabels(push: bool, sms: bool, email: bool)
    ensures Kept(AllLabels(), [push, sms, email])
            == (if push then [PushLabel] else []) + (if sms then [SmsLabel] else []) + (if email then [EmailLabel] else [])
  {
    var labels, flags := AllLabels(), [push, sms, email];
    assert labels[1..] == [SmsLabel, EmailLabel] && flags[1..] == [sms, email];
    assert labels[1..][1..] == [EmailLabel] && flags[1..][1..] == [email];
    assert labels[1..][1..][1..] == [] && flags[1..][1..][1..] == [];
    assert Kept([EmailLabel], [email]) == (if email then [EmailLabel] else []) + Kept([], []);
    assert Kept([SmsLabel, EmailLabel], [sms, email]) == (if sms then [SmsLabel] else []) + Kept([EmailLabel], [email]);
    assert Kept(labels, flags) == (if push then [PushLabel] else []) + Kept([SmsLabel, EmailLabel], [sms, email]);
  }

  function ModeCount(push: bool, sms: bool, email: bool): nat {
    (if push then 1 else 0) + (if sms then 1 else 0) + (if email then 1 else 0)
  }

  /** `NotificationAdmin._delivery_methods` of a notification. */
  method DeliveryMethods(n: Notifications.NotificationRow) returns (methods: seq<string>)
    ensures methods == Kept(AllLabels(), [n.modePush, n.modeSms, n.modeEmail])
    ensures (PushLabel in methods <==> n.modePush) && (SmsLabel in methods <==> n.modeSms)
            && (EmailLabel in methods <==> n.modeEmail)
    ensures |methods| == ModeCount(n.modePush, n.modeSms, n.modeEmail)
    ensures forall i, j :: 0 <= i < j < |methods| ==> methods[i] != methods[j]
  {
    KeptOfLabels(n.modePush, n.modeSms, n.modeEmail);
    methods := [];
    if n.modePush {
      methods := methods + [PushLabel];
    }
    if n.modeSms {
      methods := methods + [SmsLabel];
    }
    if n.modeEmail {
      methods := methods + [EmailLabel];
    }
  }

  /** A notification that shows no delivery method is one `clean` rejects. */
  lemma NoMethodsIsInvalid(n: Notifications.NotificationRow, v: Notifications.Validators)
    requires Kept(AllLabels(), [n.modePush, n.modeSms, n.modeEmail]) == []
    ensures Notifications.Clean(n, v) == Fail(Notifications.NoDeliveryMethod)
  {
    KeptOfLabels(n.modePush, n.modeSms, n.modeEmail);
  }
}
