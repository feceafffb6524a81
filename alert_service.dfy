/** services/alertService.js: creating an alert (with the emergency contact
    forced) and the emergency notification sent for critical alerts. */
module AlertService {
  import opened Util
  import opened AlertModel
  import opened Store

  /** The number every alert created through the service carries. */
  const EMERGENCY_CONTACT: string := "7004398297"

  /** The message the notification hands to the emergency channel. */
  function NoticeFor(doc: Alert): Notice {
    Notice(EMERGENCY_CONTACT, doc.title, doc.message, doc.severity)
  }

  /** `sendEmergencyNotification(alert)`: the message goes out first, then
      `notificationSent` is set and saved. Saving changes only that flag; a
      failed save (the store is down, or the document is gone) is caught and
      reported as `false`. Nothing checks whether the alert was already
      notified. */
  function NotifyStep(s: Stores, doc: Alert): (o: Outcome<bool>)
    ensures o.result <==> doc.id < |s.alerts| && s.budget.Allows()
    ensures o.after.sent == s.sent + [NoticeFor(doc)]
    ensures o.result ==> o.after.alerts == s.alerts[doc.id := s.alerts[doc.id].(notificationSent := true)]
    ensures !o.result ==> o.after.alerts == s.alerts
    ensures o.after.logs == s.logs && o.after.users == s.users
  {
    var s1 := s.(sent := s.sent + [NoticeFor(doc)]);
    if doc.id < |s1.alerts| then
      SetAlert(s1, doc.id, s1.alerts[doc.id].(notificationSent := true))
    else
      Outcome(s1, false)
  }

  /** `createAlert(alertData)`: the contact is overridden, the document is
      validated and saved, and a critical alert is notified. A validation
      or save error is raised to the caller; a failed notification is not. */
  function CreateAlertStep(s: Stores, data: AlertInput, now: int): (o: Outcome<Result<nat, Fault>>)
    ensures o.after.logs == s.logs && o.after.users == s.users
    ensures !s.budget.Allows() ==> o.after == s && o.result.Failure?
  {
    var input := data.(emergencyContact := Some(EMERGENCY_CONTACT));
    match NewAlert(input, |s.alerts|, now)
    case Failure(e) => Outcome(s, Failure(Invalid(e)))
    case Success(a) =>
      var w := PutAlert(s, a);
      if !w.result then Outcome(w.after, Failure(StoreUnavailable))
      else if a.severity == Critical then Outcome(NotifyStep(w.after, a).after, Success(a.id))
      else Outcome(w.after, Success(a.id))
  }

  /** A created alert is appended with the given fields and the emergency
      contact `EMERGENCY_CONTACT`, whatever contact the caller supplied; the
      earlier alerts, the logs and the users are untouched. */
  lemma CreateAlertStoresFields(s: Stores, data: AlertInput, now: int)
    requires CreateAlertStep(s, data, now).result.Success?
    ensures var o := CreateAlertStep(s, data, now);
      var a := NewAlert(data.(emergencyContact := Some(EMERGENCY_CONTACT)), |s.alerts|, now).value;
      && o.result.value == |s.alerts|
      && |o.after.alerts| == |s.alerts| + 1
      && o.after.alerts[..|s.alerts|] == s.alerts
      && o.after.alerts[|s.alerts|] == a.(notificationSent := o.after.alerts[|s.alerts|].notificationSent)
      && o.after.alerts[|s.alerts|].emergencyContact == EMERGENCY_CONTACT
      && o.after.logs == s.logs && o.after.users == s.users
  {
  }

  /** An alert is notified exactly when its stored severity is `critical`:
      one message goes to the emergency channel for it, and, when the store
      takes both writes, the stored flag records it. */
  lemma CreateAlertNotifiesIffCritical(s: Stores, data: AlertInput, now: int)
    requires CreateAlertStep(s, data, now).result.Success?
    ensures var o := CreateAlertStep(s, data, now);
      var stored := o.after.alerts[|s.alerts|];
      && (stored.severity == Critical ==> o.after.sent == s.sent + [NoticeFor(stored.(notificationSent := data.notificationSent.GetOr(false)))])
      && (stored.severity != Critical ==> o.after.sent == s.sent)
      && (s.budget.Covers(2) ==> stored.notificationSent == (stored.severity == Critical || data.notificationSent.GetOr(false)))
  {
    var input := data.(emergencyContact := Some(EMERGENCY_CONTACT));
    var a := NewAlert(input, |s.alerts|, now).value;
    var w := PutAlert(s, a);
    assert w.after.alerts[|s.alerts|] == a;
    if a.severity == Critical {
      var n := NotifyStep(w.after, a);
      assert n.after.alerts[|s.alerts|].(notificationSent := a.notificationSent) == a;
    }
  }

  /** A validation error is re-thrown and nothing is written; so is a save
      that the store refuses. */
  lemma CreateAlertRethrows(s: Stores, data: AlertInput, now: int)
    ensures var o := CreateAlertStep(s, data, now);
      var input := data.(emergencyContact := Some(EMERGENCY_CONTACT));
      && (NewAlert(input, |s.alerts|, now).Failure? ==>
            o.after == s && o.result == Failure(Invalid(AlertErrors(input))))
      && (NewAlert(input, |s.alerts|, now).Success? && !s.budget.Allows() ==>
            o.after == s && o.result == Failure(StoreUnavailable))
  {
  }

  /** Creating an alert keeps the stores consistent: the new alert sits at
      its own position and has a title and a message. */
  lemma CreateAlertKeepsConsistent(s: Stores, data: AlertInput, now: int)
    requires Consistent(s)
    ensures Consistent(CreateAlertStep(s, data, now).after)
  {
    var input := data.(emergencyContact := Some(EMERGENCY_CONTACT));
    var r := NewAlert(input, |s.alerts|, now);
    if r.Success? {
      var a := r.value;
      var w := PutAlert(s, a);
      if w.result && a.severity == Critical {
        var n := NotifyStep(w.after, a);
        assert forall i :: 0 <= i < |n.after.alerts| ==>
          n.after.alerts[i].id == w.after.alerts[i].id && n.after.alerts[i].title == w.after.alerts[i].title
          && n.after.alerts[i].message == w.after.alerts[i].message;
      }
    }
  }

  /** No already-sent guard: notifying an alert whose flag is already set
      sends the message again, and the flag stays set. */
  lemma NotifyHasNoGuard(s: Stores, id: nat)
    requires id < |s.alerts| && s.alerts[id].notificationSent
    ensures var o := NotifyStep(s, s.alerts[id]);
      && o.after.sent == s.sent + [NoticeFor(s.alerts[id])]
      && o.after.alerts[id].notificationSent
      && o.after.alerts[id] == s.alerts[id]
  {
  }

  /** The service as code over the store. */
  method SendEmergencyNotification(db: Database, alert: Alert) returns (ok: bool)
    modifies db
    ensures var o := NotifyStep(old(db.Snapshot()), alert); db.Snapshot() == o.after && ok == o.result
  {
    db.Emit(NoticeFor(alert));
    if alert.id < |db.alerts| {
      ok := db.UpdateAlert(alert.id, db.alerts[alert.id].(notificationSent := true));
    } else {
      ok := false;
    }
  }

  method CreateAlert(db: Database, data: AlertInput, now: int) returns (r: Result<nat, Fault>)
    modifies db
    ensures var o := CreateAlertStep(old(db.Snapshot()), data, now); db.Snapshot() == o.after && r == o.result
  {
    var input := data.(emergencyContact := Some(EMERGENCY_CONTACT));
    var checked := NewAlert(input, |db.alerts|, now);
    if checked.Failure? {
      return Failure(Invalid(checked.error));
    }
    var alert := checked.value;
    var saved := db.InsertAlert(alert);
    if !saved {
      return Failure(StoreUnavailable);
    }
    if alert.severity == Critical {
      var _ := SendEmergencyNotification(db, alert);
    }
    r := Success(alert.id);
  }
}
