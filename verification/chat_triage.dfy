/** The chat server's triage: the doctor a message is referred to, the alert
    a set of vitals raises, the one-shot hand-over of that alert to the chat,
    and the appointment and alert-context state of a chat turn. */
module ChatTriage {
  import opened Common

  datatype Doctor = Doctor(name: string, specialty: string, keywords: seq<string>)

  const GeneralPhysician: Doctor := Doctor("Dr. Meera Desai", "General Physician", [])

  /** The doctor list, searched in this order. */
  const Doctors: seq<Doctor> := [
    Doctor("Dr. Arvind Sharma", "Endocrinologist", ["glucose", "sugar", "diabetes"]),
    Doctor("Dr. Rhea Kapur", "Cardiologist", ["heart", "bp", "blood pressure", "palpitations"]),
    Doctor("Dr. Sameer Iqbal", "Pulmonologist", ["breath", "lungs", "oxygen", "spo2"]),
    Doctor("Dr. Aditi Verma", "Dietician", ["cholesterol", "diet", "weight", "bmi"]),
    Doctor("Dr. Karan Patel", "Neurologist", ["headache", "dizzy", "nerves"]),
    GeneralPhysician]

  /** One of the doctor's keywords occurs in the (lower-cased) message. */
  predicate Matches(d: Doctor, msg: string)
  {
    exists k :: 0 <= k < |d.keywords| && Contains(msg, d.keywords[k])
  }

  /** The position of the first doctor of ds whose keywords match, or |ds|. */
  function FirstMatching(ds: seq<Doctor>, msg: string): (i: nat)
    ensures i <= |ds|
    ensures i < |ds| ==> Matches(ds[i], msg)
    ensures forall j :: 0 <= j < i ==> !Matches(ds[j], msg)
    decreases |ds|
  {
    if ds == [] then 0
    else if Matches(ds[0], msg) then 0
    else 1 + FirstMatching(ds[1..], msg)
  }

  /** `pick_doctor`: the first doctor in list order with a keyword in the
      lower-cased message, the general physician when there is none. */
  function PickDoctor(message: string): (d: Doctor)
    ensures d in Doctors
    ensures Matches(d, Lower(message)) || d == GeneralPhysician
    ensures forall j :: 0 <= j < |Doctors| && Matches(Doctors[j], Lower(message)) ==>
      exists i :: 0 <= i <= j && d == Doctors[i]
    ensures d == GeneralPhysician <==> forall j :: 0 <= j < |Doctors| ==> !Matches(Doctors[j], Lower(message))
  {
    var i := FirstMatching(Doctors, Lower(message));
    assert !Matches(GeneralPhysician, Lower(message));
    if i < |Doctors| then Doctors[i] else Doctors[|Doctors| - 1]
  }

  /** Lower-casing leaves lower-case ASCII text as it is. */
  lemma {:induction false} LowerKeepsLowercase(s: string)
    requires forall i :: 0 <= i < |s| ==> !('A' <= s[i] <= 'Z')
    ensures Lower(s) == s
  {
  }

  lemma {:induction false} LowerAppend(a: string, b: string)
    ensures Lower(a + b) == Lower(a) + Lower(b)
  {
    assert forall i :: 0 <= i < |a + b| ==> Lower(a + b)[i] == (Lower(a) + Lower(b))[i];
  }

  /** A message that mentions "sugar" anywhere is referred to the
      endocrinologist, the first doctor of the list, whatever else it says. */
  lemma {:induction false} SugarGoesToEndocrinologist(before: string, after: string)
    ensures PickDoctor(before + "sugar" + after) == Doctors[0]
  {
    var m := Lower(before + "sugar" + after);
    LowerAppend(before + "sugar", after);
    LowerAppend(before, "sugar");
    LowerKeepsLowercase("sugar");
    assert m == Lower(before) + "sugar" + Lower(after);
    assert OccursAt(m, "sugar", |before|) by {
      assert m[|before|..|before| + 5] == "sugar";
    }
    ContainsIffOccurs(m, "sugar");
    assert Doctors[0].keywords[1] == "sugar";
    assert Matches(Doctors[0], m);
  }

  /** A message none of whose words is a keyword goes to the general
      physician. */
  lemma {:induction false} NoKeywordGoesToGeneralPhysician(message: string)
    requires forall j, k :: 0 <= j < |Doctors| && 0 <= k < |Doctors[j].keywords| ==> !Contains(Lower(message), Doctors[j].keywords[k])
    ensures PickDoctor(message) == GeneralPhysician
  {
  }

  /** A reading of the vitals: its number and the text Python renders it as
      in an f-string. */
  datatype Reading = Reading(value: real, text: string)

  /** The readings `check_vital_alert` looks at; a missing key or a null
      is None. */
  datatype Readings = Readings(glucose: Option<Reading>, spo2: Option<Reading>, heartRate: Option<Reading>,
                               systolic: Option<Reading>, diastolic: Option<Reading>)

  /** A reading passes the `if x` test: present and non-zero. */
  predicate Present(r: Option<Reading>)
  {
    r.Some? && r.value.value != 0.0
  }

  datatype AlertKind = LowOxygen | HighGlucose | LowGlucose | HighPressure | LowPressure | FastHeart

  /** The order in which the conditions are tried. */
  function Rank(k: AlertKind): nat
  {
    match k
    case LowOxygen => 0
    case HighGlucose => 1
    case LowGlucose => 2
    case HighPressure => 3
    case LowPressure => 4
    case FastHeart => 5
  }

  /** The condition of each alert, on its own. */
  predicate Holds(v: Readings, k: AlertKind)
  {
    match k
    case LowOxygen => Present(v.spo2) && v.spo2.value.value < 92.0
    case HighGlucose => Present(v.glucose) && v.glucose.value.value > 200.0
    case LowGlucose => Present(v.glucose) && v.glucose.value.value < 70.0
    case HighPressure => Present(v.systolic) && Present(v.diastolic)
                         && (v.systolic.value.value > 160.0 || v.diastolic.value.value > 100.0)
    case LowPressure => Present(v.systolic) && Present(v.diastolic) && v.systolic.value.value < 90.0
    case FastHeart => Present(v.heartRate) && v.heartRate.value.value > 120.0
  }

  /** The priority ladder of `check_vital_alert`. */
  function Classify(v: Readings): (a: Option<AlertKind>)
    ensures a.Some? ==> Holds(v, a.value)
  {
    if Present(v.spo2) && v.spo2.value.value < 92.0 then Some(LowOxygen)
    else if Present(v.glucose) && v.glucose.value.value > 200.0 then Some(HighGlucose)
    else if Present(v.glucose) && v.glucose.value.value < 70.0 then Some(LowGlucose)
    else if Present(v.systolic) && Present(v.diastolic) && (v.systolic.value.value > 160.0 || v.diastolic.value.value > 100.0) then Some(HighPressure)
    else if Present(v.systolic) && Present(v.diastolic) && v.systolic.value.value < 90.0 then Some(LowPressure)
    else if Present(v.heartRate) && v.heartRate.value.value > 120.0 then Some(FastHeart)
    else None
  }

  /** The alert raised is the condition of highest priority that holds,
      and no alert is raised exactly when no condition holds. */
  lemma {:induction false} ClassifyIsHighestPriority(v: Readings, k: AlertKind)
    ensures Classify(v).Some? && Holds(v, k) ==> Rank(Classify(v).value) <= Rank(k)
    ensures Classify(v).None? ==> !Holds(v, k)
    ensures Holds(v, k) ==> Classify(v).Some?
  {
    match k
    case LowOxygen =>
    case HighGlucose =>
    case LowGlucose =>
    case HighPressure =>
    case LowPressure =>
    case FastHeart =>
  }

  /** Zero readings are treated as missing. */
  lemma ZeroIsMissing(v: Readings, t: string)
    ensures Classify(v.(spo2 := Some(Reading(0.0, t)))) == Classify(v.(spo2 := None))
    ensures Classify(v.(glucose := Some(Reading(0.0, t)))) == Classify(v.(glucose := None))
    ensures Classify(v.(systolic := Some(Reading(0.0, t)))) == Classify(v.(systolic := None))
    ensures Classify(v.(diastolic := Some(Reading(0.0, t)))) == Classify(v.(diastolic := None))
    ensures Classify(v.(heartRate := Some(Reading(0.0, t)))) == Classify(v.(heartRate := None))
  {
  }

  /** A blood-pressure alert needs both values: a systolic reading alone
      raises nothing, however extreme. */
  lemma PressureNeedsBoth(v: Readings)
    requires !Present(v.diastolic)
    ensures Classify(v) != Some(HighPressure) && Classify(v) != Some(LowPressure)
  {
  }

  /** A reading shown as Python would show a missing one. */
  function TextOf(r: Option<Reading>): string
  {
    if r.Some? then r.value.text else "None"
  }

  /** The question each alert asks, with the readings it quotes, up to
      its closing question mark. */
  function AlertQuestion(k: AlertKind, v: Readings): string
  {
    match k
    case LowOxygen =>
      "I noticed your oxygen is quite low (" + TextOf(v.spo2) + "%). Are you finding it hard to breathe right now"
    case HighGlucose =>
      "Hey, I see your glucose spiked to " + TextOf(v.glucose) + ". Did you miss a dose or eat something sweet recently"
    case LowGlucose =>
      "Your sugar levels are dropping (" + TextOf(v.glucose) + "). Please grab some juice or candy. Are you feeling shaky"
    case HighPressure =>
      "Your blood pressure is reading " + TextOf(v.systolic) + "/" + TextOf(v.diastolic)
      + ", which is high. Are you feeling a headache or dizziness"
    case LowPressure =>
      "Your BP is a bit low (" + TextOf(v.systolic) + "/" + TextOf(v.diastolic)
      + "). You might feel lightheaded—have you had enough water today"
    case FastHeart =>
      "Your heart rate is racing at " + TextOf(v.heartRate) + " BPM. Are you exercising, or do you feel palpitations"
  }

  /** The alert message: every alert asks the patient a question. */
  function AlertMessage(k: AlertKind, v: Readings): (m: string)
    ensures |m| > 0 && m[|m| - 1] == '?'
  {
    AlertQuestion(k, v) + "?"
  }


  /** The alert the vitals leave behind. */
  function AlertFor(v: Readings): (alert: Option<string>)
    ensures alert.None? <==> Classify(v).None?
    ensures alert.Some? ==> alert.value != ""
  {
    match Classify(v)
    case None => None
    case Some(k) => Some(AlertMessage(k, v))
  }

  const BookingPhrases: seq<string> := ["book appointment", "book an appointment", "schedule appointment", "help me book"]

  /** One of the explicit booking phrases occurs in the lower-cased message. */
  predicate BookingRequested(msgLower: string)
  {
    exists k :: 0 <= k < |BookingPhrases| && Contains(msgLower, BookingPhrases[k])
  }

  /** A message about a report, while a PDF is on file, carries the PDF. */
  predicate AsksAboutReport(msgLower: string)
  {
    Contains(msgLower, "pdf") || Contains(msgLower, "report") || Contains(msgLower, "scan")
  }

  /** The whitespace `str.strip()` removes, restricted to ASCII. */
  predicate IsSpace(c: char)
  {
    c == ' ' || c == '\t' || c == '\n' || c == '\r' || c == '\U{000B}' || c == '\U{000C}'
  }

  /** The number of whitespace characters s starts with. */
  function LeadingSpaces(s: string): (n: nat)
    ensures n <= |s|
    ensures forall i :: 0 <= i < n ==> IsSpace(s[i])
    ensures n == |s| || !IsSpace(s[n])
    decreases |s|
  {
    if s != [] && IsSpace(s[0]) then 1 + LeadingSpaces(s[1..]) else 0
  }

  /** Where the text of s[lo..hi] ends once its trailing whitespace is
      dropped. */
  function TextEnd(s: string, lo: nat, hi: nat): (e: nat)
    requires lo <= hi <= |s|
    ensures lo <= e <= hi
    ensures forall i :: e <= i < hi ==> IsSpace(s[i])
    ensures e == lo || !IsSpace(s[e - 1])
    decreases hi
  {
    if hi > lo && IsSpace(s[hi - 1]) then TextEnd(s, lo, hi - 1) else hi
  }

  /** `str.strip()`: the message without its leading and trailing
      whitespace. */
  function Strip(s: string): (r: string)
    ensures |r| <= |s|
  {
    var start := LeadingSpaces(s);
    s[start..TextEnd(s, start, |s|)]
  }

  /** r is the part of s from position k on, and everything of s before
      and after it is whitespace. */
  predicate InnerPartAt(s: string, r: string, k: int)
  {
    && 0 <= k <= |s| - |r| && r == s[k..k + |r|]
    && (forall i :: 0 <= i < k ==> IsSpace(s[i]))
    && (forall i :: k + |r| <= i < |s| ==> IsSpace(s[i]))
  }

  /** The stripped message is the part of the message that starts and ends
      with a non-space; everything before and after it is whitespace. */
  lemma {:induction false} StripKeepsInnerPart(s: string)
    ensures var r := Strip(s);
      && (r == [] || (!IsSpace(r[0]) && !IsSpace(r[|r| - 1])))
      && exists k :: InnerPartAt(s, r, k)
  {
    var start := LeadingSpaces(s);
    var end := TextEnd(s, start, |s|);
    var r := s[start..end];
    assert r != [] ==> r[0] == s[start] && r[|r| - 1] == s[end - 1];
    assert InnerPartAt(s, r, start);
  }

  function BookedReply(d: Doctor, time: string): string
  {
    "Done. I've scheduled you with **" + d.name + "** for **" + time + "**. Take care."
  }

  function SuggestReply(d: Doctor): string
  {
    "I think it would be best if you saw **" + d.name + "** (" + d.specialty + "). What time suits you best?"
  }

  const TroubleReply: string := "I'm having a little trouble accessing my records. Could you repeat that?"

  const VitalsLabel: string := "Current Patient Vitals: "
  const AlertIntro: string := "IMPORTANT CONTEXT: You (the doctor) just proactively asked the patient: '"
  const AlertOutro: string := "'.\nThe patient is now replying to that specific question.\n"
  const ReplyLabel: string := "Patient Reply: "

  /** The lines that tell the model it asked the alert question. */
  function AlertLines(question: string): string
  {
    AlertIntro + question + AlertOutro
  }

  /** The text part of the prompt: the vitals as JSON, the pending alert
      question when there is one, and the patient's message. */
  function ContextText(vitalsJson: string, context: Option<string>, message: string): string
  {
    VitalsLabel + vitalsJson + "\n"
    + (if context.Some? && context.value != "" then AlertLines(context.value) else "")
    + ReplyLabel + message
  }

  /** What a normal chat turn sends to the model. */
  datatype Prompt = Prompt(attachPdf: bool, text: string)

  /** The reply of a chat turn, and the prompt when the model was asked. */
  datatype ChatTurn = ChatTurn(response: string, prompt: Option<Prompt>)

  /** The server's module-level state: the last alert not yet shown, the
      alert question the next chat turn answers, the doctor awaiting an
      appointment time, and whether a PDF report is on file. */
  class ChatServer {
    var latestAlert: Option<string>
    var activeAlertContext: Option<string>
    var pendingAppointment: Option<Doctor>
    var pdfUploaded: bool

    constructor()
      ensures latestAlert == None && activeAlertContext == None && pendingAppointment == None && !pdfUploaded
    {
      latestAlert := None;
      activeAlertContext := None;
      pendingAppointment := None;
      pdfUploaded := false;
    }

    /** `check_vital_alert`: every call replaces the stored alert by the one
        the readings raise, or by nothing. */
    method CheckVitalAlert(v: Readings)
      modifies this
      ensures latestAlert == AlertFor(v)
      ensures activeAlertContext == old(activeAlertContext) && pendingAppointment == old(pendingAppointment)
      ensures pdfUploaded == old(pdfUploaded)
    {
      if Present(v.spo2) && v.spo2.value.value < 92.0 {
        latestAlert := Some(AlertMessage(LowOxygen, v));
        return;
      }
      if Present(v.glucose) {
        if v.glucose.value.value > 200.0 {
          latestAlert := Some(AlertMessage(HighGlucose, v));
          return;
        }
        if v.glucose.value.value < 70.0 {
          latestAlert := Some(AlertMessage(LowGlucose, v));
          return;
        }
      }
      if Present(v.systolic) && Present(v.diastolic) {
        if v.systolic.value.value > 160.0 || v.diastolic.value.value > 100.0 {
          latestAlert := Some(AlertMessage(HighPressure, v));
          return;
        }
        if v.systolic.value.value < 90.0 {
          latestAlert := Some(AlertMessage(LowPressure, v));
          return;
        }
      }
      if Present(v.heartRate) && v.heartRate.value.value > 120.0 {
        latestAlert := Some(AlertMessage(FastHeart, v));
        return;
      }
      latestAlert := None;
    }

    /** `check_alert`: a pending alert is handed out once, becomes the
        question the next chat turn answers, and is cleared. */
    method CheckAlert() returns (alert: Option<string>)
      modifies this
      ensures old(latestAlert).Some? && old(latestAlert).value != "" ==>
        && alert == old(latestAlert) && latestAlert == None && activeAlertContext == old(latestAlert)
      ensures !(old(latestAlert).Some? && old(latestAlert).value != "") ==>
        && alert == None && latestAlert == old(latestAlert) && activeAlertContext == old(activeAlertContext)
      ensures pendingAppointment == old(pendingAppointment) && pdfUploaded == old(pdfUploaded)
    {
      if latestAlert.Some? && latestAlert.value != "" {
        alert := latestAlert;
        latestAlert := None;
        activeAlertContext := alert;
      } else {
        alert := None;
      }
    }

    /** `chat_with_ai`. With a doctor awaiting a time, the message is that
        time; an explicit booking phrase picks a doctor and waits for a
        time; otherwise the model is asked, once with the alert question
        when there is one, and `model` is what that call returns or
        raises. */
    method ChatWithAi(message: string, vitalsJson: string, model: Outcome<string>) returns (turn: ChatTurn)
      modifies this
      ensures latestAlert == old(latestAlert) && pdfUploaded == old(pdfUploaded)
      ensures old(pendingAppointment).Some? ==>
        && turn == ChatTurn(BookedReply(old(pendingAppointment).value, Strip(message)), None)
        && pendingAppointment == None && activeAlertContext == old(activeAlertContext)
      ensures old(pendingAppointment).None? && BookingRequested(Lower(message)) ==>
        && turn == ChatTurn(SuggestReply(PickDoctor(Lower(message))), None)
        && pendingAppointment == Some(PickDoctor(Lower(message)))
        && activeAlertContext == old(activeAlertContext)
      ensures old(pendingAppointment).None? && !BookingRequested(Lower(message)) ==>
        && turn.prompt == Some(Prompt(pdfUploaded && AsksAboutReport(Lower(message)),
                                      ContextText(vitalsJson, old(activeAlertContext), message)))
        && turn.response == (if model.Returned? then model.value else TroubleReply)
        && pendingAppointment == None
        && (old(activeAlertContext).Some? && old(activeAlertContext).value != "" ==> activeAlertContext == None)
        && (!(old(activeAlertContext).Some? && old(activeAlertContext).value != "") ==> activeAlertContext == old(activeAlertContext))
    {
      if pendingAppointment.Some? {
        turn := CompleteBooking(message);
        return;
      }
      var msgLower := Lower(message);
      if BookingRequested(msgLower) {
        turn := StartBooking(msgLower);
        return;
      }
      turn := AskModel(message, msgLower, vitalsJson, model);
    }

    /** Step 0 of a chat turn: the message is the appointment time. */
    method CompleteBooking(message: string) returns (turn: ChatTurn)
      requires pendingAppointment.Some?
      modifies this
      ensures turn == ChatTurn(BookedReply(old(pendingAppointment).value, Strip(message)), None)
      ensures pendingAppointment == None && activeAlertContext == old(activeAlertContext)
      ensures latestAlert == old(latestAlert) && pdfUploaded == old(pdfUploaded)
    {
      var doctor := pendingAppointment.value;
      var appointmentTime := Strip(message);
      pendingAppointment := None;
      turn := ChatTurn(BookedReply(doctor, appointmentTime), None);
    }

    /** Step 1: an explicit booking request picks the doctor who will wait
        for a time. */
    method StartBooking(msgLower: string) returns (turn: ChatTurn)
      modifies this
      ensures turn == ChatTurn(SuggestReply(PickDoctor(msgLower)), None)
      ensures pendingAppointment == Some(PickDoctor(msgLower))
      ensures activeAlertContext == old(activeAlertContext)
      ensures latestAlert == old(latestAlert) && pdfUploaded == old(pdfUploaded)
    {
      var doctor := PickDoctor(msgLower);
      pendingAppointment := Some(doctor);
      turn := ChatTurn(SuggestReply(doctor), None);
    }

    /** A normal chat turn: the prompt carries the pending alert question
        once, and the reply is the model's or the apology. */
    method AskModel(message: string, msgLower: string, vitalsJson: string, model: Outcome<string>)
      returns (turn: ChatTurn)
      modifies this
      ensures turn.prompt == Some(Prompt(pdfUploaded && AsksAboutReport(msgLower),
                                         ContextText(vitalsJson, old(activeAlertContext), message)))
      ensures turn.response == (if model.Returned? then model.value else TroubleReply)
      ensures old(activeAlertContext).Some? && old(activeAlertContext).value != "" ==> activeAlertContext == None
      ensures !(old(activeAlertContext).Some? && old(activeAlertContext).value != "") ==>
        activeAlertContext == old(activeAlertContext)
      ensures latestAlert == old(latestAlert) && pdfUploaded == old(pdfUploaded)
      ensures pendingAppointment == old(pendingAppointment)
    {
      var attachPdf := pdfUploaded && AsksAboutReport(msgLower);
      var contextText := ContextText(vitalsJson, activeAlertContext, message);
      if activeAlertContext.Some? && activeAlertContext.value != "" {
        activeAlertContext := None;
      }
      var reply := if model.Returned? then model.value else TroubleReply;
      turn := ChatTurn(reply, Some(Prompt(attachPdf, contextText)));
    }
  }

  /** The prompt quotes a pending alert question right after the vitals
      line and its introduction, carries no alert lines when none is
      pending, and always ends with the patient's message. */
  lemma {:induction false} PromptCarriesQuestion(vitalsJson: string, question: string, message: string)
    requires question != ""
    ensures var t := ContextText(vitalsJson, Some(question), message);
      OccursAt(t, question, |VitalsLabel + vitalsJson + "\n" + AlertIntro|)
    ensures ContextText(vitalsJson, None, message) == VitalsLabel + vitalsJson + "\n" + ReplyLabel + message
    ensures var t := ContextText(vitalsJson, Some(question), message);
      |t| >= |message| && t[|t| - |message|..] == message
  {
    var a := VitalsLabel + vitalsJson + "\n";
    var head := a + AlertIntro;
    var tail := AlertOutro + ReplyLabel;
    var t := ContextText(vitalsJson, Some(question), message);
    assert t == a + (AlertIntro + question + AlertOutro) + ReplyLabel + message;
    ConcatAssoc(a, AlertIntro + question, AlertOutro);
    ConcatAssoc(a, AlertIntro, question);
    assert t == head + question + AlertOutro + ReplyLabel + message;
    ConcatAssoc(head + question, AlertOutro, ReplyLabel);
    ConcatAssoc(head + question, tail, message);
    FrameSlices(head, question, tail + message);
    assert t == (head + question + tail) + [] + message;
    FrameSlices(head + question + tail, [], message);
  }
}
