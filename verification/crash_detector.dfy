/** Phase 1 of the crash response: the three confirmations (impact, heart
    rate pattern, silence) and the consent-gated verdict built from them. */
module CrashDetector {
  import opened Common
  import opened CrashPayload

  const GForceThreshold: real := 4.0
  const HeartRateSpikeThreshold: real := 140.0
  const HeartRateDropThreshold: real := 50.0
  const VoiceDecibelThreshold: real := 0.0

  /** Confirmation 1: the accelerometer saw more than 4 G. */
  function CheckImpact(gForce: real): (r: bool)
    ensures r <==> gForce > 4.0
  {
    gForce > GForceThreshold
  }

  /** Confirmation 2: a shock spike followed by a rapid drop or by no reading. */
  function CheckHeartChange(hr: real, hrAfter: Option<real>): (r: bool)
    ensures hr <= 140.0 ==> !r
    ensures hr > 140.0 ==> (r <==> hrAfter.None? || hrAfter.value < 50.0)
  {
    var hasSpike := hr > HeartRateSpikeThreshold;
    if !hasSpike then false
    else if hrAfter.None? then true
    else hrAfter.value < HeartRateDropThreshold
  }

  /** Confirmation 3: the consciousness test heard nothing at all. */
  function CheckSilence(decibels: real): (r: bool)
    ensures r <==> decibels == 0.0
  {
    decibels == VoiceDecibelThreshold
  }

  /** The examples of the detector's documentation. */
  lemma DocumentedExamples()
    ensures CheckImpact(5.2) && !CheckImpact(2.1)
    ensures CheckHeartChange(145.0, Some(45.0))
    ensures CheckHeartChange(145.0, None)
    ensures !CheckHeartChange(80.0, Some(75.0))
    ensures !CheckHeartChange(150.0, Some(120.0))
    ensures CheckSilence(0.0) && !CheckSilence(45.2)
  {
  }

  /** The comparison is strict: exactly 4 G is no impact, anything above is. */
  lemma ImpactBoundary(g: real)
    ensures !CheckImpact(4.0)
    ensures g > 4.0 ==> CheckImpact(g)
    ensures g <= 4.0 ==> !CheckImpact(g)
  {
  }

  /** Any audible voice, however faint, fails the silence test. */
  lemma AnyVoiceBreaksSilence(db: real)
    requires db > 0.0
    ensures !CheckSilence(db)
  {
  }

  /** The readings as the Python float formatting renders them in the
      diagnostic text (`heartRateAfter` renders an absent reading as "None"). */
  datatype ReadingText = ReadingText(gForce: string, heartRate: string, heartRateAfter: string, voiceDecibels: string)

  datatype Check = Impact | Heart | Voice

  /** The result of `triangulate`: the verdict and its status text. */
  datatype Verdict = Verdict(isCritical: bool, status: string)

  const ConsentMissingStatus: string := "MONITOR_MODE - User consent not provided"
  const CriticalStatus: string := "CRITICAL_EVENT_CONFIRMED"
  const MonitorPrefix: string := "MONITOR_MODE - "

  predicate Passes(p: CrashPayloadInput, c: Check)
  {
    match c
    case Impact => CheckImpact(p.gForce)
    case Heart => CheckHeartChange(p.heartRate, p.heartRateAfter)
    case Voice => CheckSilence(p.voiceDecibels)
  }

  /** The diagnostic sentence for a failed check. */
  function Reason(c: Check, t: ReadingText): string
  {
    match c
    case Impact => "Impact threshold not met (G-Force: " + t.gForce + "G)"
    case Heart => "Heart rate pattern not detected (HR: " + t.heartRate + " -> " + t.heartRateAfter + ")"
    case Voice => "Voice detected (Decibels: " + t.voiceDecibels + ")"
  }

  function Only(p: CrashPayloadInput, c: Check): (r: seq<Check>)
    ensures r == [] || r == [c]
    ensures r == [c] <==> !Passes(p, c)
  {
    if Passes(p, c) then [] else [c]
  }

  /** The failed checks in the fixed order impact, heart, voice. */
  function FailedChecks(p: CrashPayloadInput): (r: seq<Check>)
    ensures forall c :: c in r <==> !Passes(p, c)
    ensures r == [] <==> Passes(p, Impact) && Passes(p, Heart) && Passes(p, Voice)
    ensures |r| <= 3
  {
    Only(p, Impact) + Only(p, Heart) + Only(p, Voice)
  }

  function Reasons(cs: seq<Check>, t: ReadingText): (r: seq<string>)
    ensures |r| == |cs|
    ensures forall i :: 0 <= i < |cs| ==> r[i] == Reason(cs[i], t)
  {
    seq(|cs|, i requires 0 <= i < |cs| => Reason(cs[i], t))
  }

  lemma ReasonsAppend(a: seq<Check>, b: seq<Check>, t: ReadingText)
    ensures Reasons(a + b, t) == Reasons(a, t) + Reasons(b, t)
  {
  }

  function ReasonIf(failed: bool, c: Check, t: ReadingText): (r: seq<string>)
    ensures r == (if failed then [Reason(c, t)] else [])
  {
    if failed then [Reason(c, t)] else []
  }

  /** `triangulate`: consent first, then the three confirmations, all of which
      are needed; otherwise a monitor-mode status naming each failed check. */
  function Triangulate(p: CrashPayloadInput, t: ReadingText): (v: Verdict)
    ensures !p.userConsent ==> v == Verdict(false, ConsentMissingStatus)
    ensures p.userConsent ==>
      (v.isCritical <==> CheckImpact(p.gForce) && CheckHeartChange(p.heartRate, p.heartRateAfter) && CheckSilence(p.voiceDecibels))
    ensures v.isCritical ==> v.status == CriticalStatus
    ensures p.userConsent && !v.isCritical ==>
      FailedChecks(p) != [] && v.status == MonitorPrefix + Join(Reasons(FailedChecks(p), t), "; ")
  {
    if !p.userConsent then Verdict(false, ConsentMissingStatus)
    else
      var impact := CheckImpact(p.gForce);
      var heart := CheckHeartChange(p.heartRate, p.heartRateAfter);
      var silence := CheckSilence(p.voiceDecibels);
      if impact && heart && silence then Verdict(true, CriticalStatus)
      else
        var parts :=
          (if !impact then [Reason(Impact, t)] else [])
          + (if !heart then [Reason(Heart, t)] else [])
          + (if !silence then [Reason(Voice, t)] else []);
        ReasonsAppend(Only(p, Impact) + Only(p, Heart), Only(p, Voice), t);
        ReasonsAppend(Only(p, Impact), Only(p, Heart), t);
        assert Reasons(Only(p, Impact), t) == ReasonIf(!impact, Impact, t);
        assert Reasons(Only(p, Heart), t) == ReasonIf(!heart, Heart, t);
        assert Reasons(Only(p, Voice), t) == ReasonIf(!silence, Voice, t);
        assert parts == Reasons(FailedChecks(p), t);
        Verdict(false, MonitorPrefix + Join(parts, "; "))
  }

  /** The status text alone tells a confirmed event from every other outcome. */
  lemma StatusDeterminesVerdict(p: CrashPayloadInput, t: ReadingText)
    ensures Triangulate(p, t).isCritical <==> Triangulate(p, t).status == CriticalStatus
  {
    var v := Triangulate(p, t);
    if !v.isCritical {
      if p.userConsent {
        assert v.status[0] == 'M';
      } else {
        assert v.status[0] == 'M';
      }
    }
  }

  /** Without consent the sensor readings are irrelevant. */
  lemma {:induction false} ConsentGatesEverything(p: CrashPayloadInput, q: CrashPayloadInput, t: ReadingText, u: ReadingText)
    requires !p.userConsent && !q.userConsent
    ensures Triangulate(p, t) == Triangulate(q, u)
    ensures !Triangulate(p, t).isCritical
  {
  }

  /** The documented end-to-end example: an impact of 5.2 G, a spike to 145
      falling to 45, and silence, with consent, is a critical event. */
  lemma CriticalExample(t: ReadingText)
    ensures Triangulate(CrashPayloadInput(5.2, 145.0, Some(45.0), 0.0, GpsLocation(19.1680, 72.8500), "O+", ["Penicillin"], true), t)
      == Verdict(true, "CRITICAL_EVENT_CONFIRMED")
  {
  }

  /** A reading that only fails the voice test reports exactly that reason. */
  lemma OnlyVoiceFails(p: CrashPayloadInput, t: ReadingText)
    requires p.userConsent && p.gForce > 4.0 && p.heartRate > 140.0 && p.heartRateAfter.None?
    requires p.voiceDecibels > 0.0
    ensures Triangulate(p, t) == Verdict(false, MonitorPrefix + Reason(Voice, t))
  {
    assert Only(p, Impact) == [] && Only(p, Heart) == [] && Only(p, Voice) == [Voice];
    assert FailedChecks(p) == [Voice];
    assert Reasons([Voice], t) == [Reason(Voice, t)];
    assert Join([Reason(Voice, t)], "; ") == Reason(Voice, t);
  }
}
