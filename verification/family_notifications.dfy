/** Family notifications: an e-mail, a phone call and an SMS, each sent only
    when its contact is configured, and an overall success flag that holds
    when any one of them went through. */
module FamilyNotifications {
  import opened Common

  /** FAMILY_EMAIL and FAMILY_PHONE of the settings; empty means unset. */
  datatype Contacts = Contacts(familyEmail: string, familyPhone: string)

  /** What the three external channels do when called: the e-mail service
      returns a flag, the call and SMS services return result dictionaries,
      and any of them may raise. */
  datatype ChannelOutcomes = ChannelOutcomes(
    email: Outcome<bool>,
    call: Outcome<map<string, Value>>,
    sms: Outcome<map<string, Value>>)

  /** The four messages the family can receive; `Text` gives their wording.
      Coordinates arrive already rendered as text. */
  datatype Notice =
    | CrashAlert(incidentId: string, latText: string, lonText: string, bloodType: string)
    | CrashSms(incidentId: string, latText: string, lonText: string)
    | ArrivalUpdate(incidentId: string, hospitalName: string)
    | ArrivalSms(incidentId: string, hospitalName: string)

  function Text(n: Notice): string
  {
    match n
    case CrashAlert(id, lat, lon, blood) =>
      "Emergency Alert. Your family member has undergone a severe accidental crash. "
      + "Emergency services have been alerted and are on the way to the location. "
      + "GPS coordinates: " + lat + ", " + lon + ". "
      + "Incident reference number: " + id + ". "
      + "Patient blood type: " + blood + ". "
      + "Please stay available for further updates. Help is on the way."
    case CrashSms(id, lat, lon) =>
      "Emergency Alert. Crash detected at " + lat + ", " + lon + ". "
      + "Emergency services dispatched. Incident ID: " + id + "."
    case ArrivalUpdate(id, name) =>
      "Update: Your family member has arrived at the hospital and is now being admitted. "
      + "Hospital name: " + name + ". "
      + "Please check your email for hospital admission fees and detailed information. "
      + "Incident reference number: " + id + ". "
      + "Medical team is providing care. We will keep you updated."
    case ArrivalSms(id, name) =>
      "Update: User has reached " + name + ". Stabilization in progress. Incident ID: " + id + "."
  }

  /** The `incident_info` dictionary handed to the e-mail service; its
      `hospital_address` is "Lat: <lat>, Lon: <lon>". */
  datatype IncidentInfo = IncidentInfo(incidentId: string, hospitalName: string, latText: string, lonText: string,
                                       status: string, message: Notice)

  function HospitalAddress(info: IncidentInfo): string
  {
    "Lat: " + info.latText + ", Lon: " + info.lonText
  }

  /** The requests a notification made: to whom each channel was used and
      with what; `None` for a channel that was not tried. */
  datatype Requests = Requests(email: Option<(string, IncidentInfo)>, call: Option<(string, Notice)>, sms: Option<(string, Notice)>)

  const NoRequests: Requests := Requests(None, None, None)

  datatype NotifyResult = NotifyResult(emailSent: bool, callMade: bool, smsSent: bool, success: bool)

  const NothingSent: NotifyResult := NotifyResult(false, false, false, false)

  /** The e-mail flag is the service's own answer; a raise leaves it false. */
  predicate EmailSent(c: Contacts, o: Outcome<bool>)
  {
    c.familyEmail != "" && o == Returned(true)
  }

  /** A call counts when its result has a truthy `call_id` or `success`. */
  predicate CallMade(c: Contacts, o: Outcome<map<string, Value>>)
  {
    c.familyPhone != "" && o.Returned? && (Truthy(Get(o.value, "call_id", Null)) || Truthy(Get(o.value, "success", Null)))
  }

  /** An SMS counts when its result has a truthy `success` or `message_id`. */
  predicate SmsSent(c: Contacts, o: Outcome<map<string, Value>>)
  {
    c.familyPhone != "" && o.Returned? && (Truthy(Get(o.value, "success", Null)) || Truthy(Get(o.value, "message_id", Null)))
  }

  /** The overall flag: any one channel went through. */
  predicate AnySent(c: Contacts, o: ChannelOutcomes)
  {
    EmailSent(c, o.email) || CallMade(c, o.call) || SmsSent(c, o.sms)
  }

  /** The requests a notification makes: the e-mail when an address is set,
      then the call and the SMS when a phone number is set. */
  function Attempts(c: Contacts, info: IncidentInfo, call: Notice, sms: Notice): (q: Requests)
    ensures q.email.Some? <==> c.familyEmail != ""
    ensures q.call.Some? <==> c.familyPhone != ""
    ensures q.sms.Some? <==> c.familyPhone != ""
  {
    Requests(
      if c.familyEmail != "" then Some((c.familyEmail, info)) else None,
      if c.familyPhone != "" then Some((c.familyPhone, call)) else None,
      if c.familyPhone != "" then Some((c.familyPhone, sms)) else None)
  }

  /** The channel sequence both notifications share: the result starts with
      every flag false, each configured channel sets its own flag, an
      exception in one channel does not stop the next, and success is the
      disjunction of the three flags. */
  method Notify(c: Contacts, info: IncidentInfo, call: Notice, sms: Notice, o: ChannelOutcomes)
    returns (r: NotifyResult, attempts: Requests)
    ensures r.emailSent == EmailSent(c, o.email)
    ensures r.callMade == CallMade(c, o.call)
    ensures r.smsSent == SmsSent(c, o.sms)
    ensures r.success == AnySent(c, o)
    ensures attempts == Attempts(c, info, call, sms)
  {
    r := NothingSent;
    attempts := NoRequests;
    if c.familyEmail != "" {
      attempts := attempts.(email := Some((c.familyEmail, info)));
      match o.email
      case Returned(sent) => r := r.(emailSent := sent);
      case Raised(_) =>
    }
    if c.familyPhone != "" {
      attempts := attempts.(call := Some((c.familyPhone, call)));
      match o.call
      case Returned(m) =>
        if Truthy(Get(m, "call_id", Null)) || Truthy(Get(m, "success", Null)) {
          r := r.(callMade := true);
        }
      case Raised(_) =>
    }
    if c.familyPhone != "" {
      attempts := attempts.(sms := Some((c.familyPhone, sms)));
      match o.sms
      case Returned(m) =>
        if Truthy(Get(m, "success", Null)) || Truthy(Get(m, "message_id", Null)) {
          r := r.(smsSent := true);
        }
      case Raised(_) =>
    }
    r := r.(success := r.emailSent || r.callMade || r.smsSent);
  }

  /** The requests of the crash alert. */
  function CrashAttempts(c: Contacts, incidentId: string, latText: string, lonText: string, bloodType: string): Requests
  {
    var spoken := CrashAlert(incidentId, latText, lonText, bloodType);
    Attempts(c, IncidentInfo(incidentId, "Emergency Services Dispatched", latText, lonText,
                             "crash_detected_emergency_dispatched", spoken),
             spoken, CrashSms(incidentId, latText, lonText))
  }

  /** `notify_family_crash_alert`. */
  method NotifyFamilyCrashAlert(c: Contacts, incidentId: string, latText: string, lonText: string, bloodType: string,
                                o: ChannelOutcomes)
    returns (r: NotifyResult, attempts: Requests)
    ensures r.emailSent == EmailSent(c, o.email) && r.callMade == CallMade(c, o.call) && r.smsSent == SmsSent(c, o.sms)
    ensures r.success == AnySent(c, o)
    ensures attempts == CrashAttempts(c, incidentId, latText, lonText, bloodType)
  {
    var spoken := CrashAlert(incidentId, latText, lonText, bloodType);
    var info := IncidentInfo(incidentId, "Emergency Services Dispatched", latText, lonText,
                             "crash_detected_emergency_dispatched", spoken);
    r, attempts := Notify(c, info, spoken, CrashSms(incidentId, latText, lonText), o);
  }

  /** The requests of the hospital arrival update. */
  function ArrivalAttempts(c: Contacts, incidentId: string, hospitalName: string, latText: string, lonText: string): Requests
  {
    var spoken := ArrivalUpdate(incidentId, hospitalName);
    Attempts(c, IncidentInfo(incidentId, hospitalName, latText, lonText, "stabilization_in_progress", spoken),
             spoken, ArrivalSms(incidentId, hospitalName))
  }

  /** `notify_family_hospital_arrival`: the same gating and aggregation. */
  method NotifyFamilyHospitalArrival(c: Contacts, incidentId: string, hospitalName: string, latText: string, lonText: string,
                                     o: ChannelOutcomes)
    returns (r: NotifyResult, attempts: Requests)
    ensures r.emailSent == EmailSent(c, o.email) && r.callMade == CallMade(c, o.call) && r.smsSent == SmsSent(c, o.sms)
    ensures r.success == AnySent(c, o)
    ensures attempts == ArrivalAttempts(c, incidentId, hospitalName, latText, lonText)
  {
    var spoken := ArrivalUpdate(incidentId, hospitalName);
    var info := IncidentInfo(incidentId, hospitalName, latText, lonText, "stabilization_in_progress", spoken);
    r, attempts := Notify(c, info, spoken, ArrivalSms(incidentId, hospitalName), o);
  }

  /** With no contact configured nothing is requested and nothing counts as
      sent, whatever the services would have answered. */
  lemma NothingConfiguredNothingSent(info: IncidentInfo, call: Notice, sms: Notice, o: ChannelOutcomes)
    ensures !AnySent(Contacts("", ""), o)
    ensures Attempts(Contacts("", ""), info, call, sms) == NoRequests
  {
  }

  /** Without a phone number success rests on the e-mail alone. */
  lemma EmailOnly(c: Contacts, o: ChannelOutcomes)
    requires c.familyPhone == ""
    ensures AnySent(c, o) <==> c.familyEmail != "" && o.email == Returned(true)
  {
  }

  /** A mock call or SMS reply (`success` true) counts as delivered, a failed
      reply without an id does not. */
  lemma MockRepliesCount(c: Contacts, id: string)
    requires c.familyPhone != ""
    ensures CallMade(c, Returned(map["success" := Bool(true), "call_id" := Str(id)]))
    ensures SmsSent(c, Returned(map["success" := Bool(true)]))
    ensures !SmsSent(c, Returned(map["success" := Bool(false), "error" := Str(id)]))
  {
  }

  /** The arrival SMS names the hospital and the incident. */
  lemma {:induction false} ArrivalSmsMentions(incidentId: string, hospitalName: string)
    ensures var t := Text(ArrivalSms(incidentId, hospitalName));
      OccursAt(t, hospitalName, 25) && t[..25] == "Update: User has reached "
  {
    var t := Text(ArrivalSms(incidentId, hospitalName));
    var prefix := "Update: User has reached ";
    assert |prefix| == 25;
    assert t == prefix + (hospitalName + ". Stabilization in progress. Incident ID: " + incidentId + ".");
    assert t[25..25 + |hospitalName|] == hospitalName;
  }
}
