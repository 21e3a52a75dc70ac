/** The sensor payload accepted by the crash trigger, the response it
    produces, and the field constraints the schema enforces on input. */
module CrashPayload {
  import opened Common

  datatype GpsLocation = GpsLocation(lat: real, lon: real)

  /** One crash reading. `heartRateAfter == None` means "no reading". */
  datatype CrashPayloadInput = CrashPayloadInput(
    gForce: real,
    heartRate: real,
    heartRateAfter: Option<real>,
    voiceDecibels: real,
    gps: GpsLocation,
    bloodType: string,
    allergies: seq<string>,
    userConsent: bool)

  datatype CrashPayloadOutput = CrashPayloadOutput(
    incidentId: string,
    status: string,
    gps: GpsLocation,
    nearestHospital: Option<map<string, Value>>,
    ambulanceDispatched: bool,
    insurancePreauthToken: Option<string>,
    familyNotified: bool,
    timestamp: string)

  /** The fields whose constraints can be violated. */
  datatype Field = GForce | HeartRate | HeartRateAfter | VoiceDecibels | Lat | Lon | BloodType

  predicate ValidLat(lat: real) { -90.0 <= lat <= 90.0 }
  predicate ValidLon(lon: real) { -180.0 <= lon <= 180.0 }

  predicate ValidGps(g: GpsLocation) { ValidLat(g.lat) && ValidLon(g.lon) }

  /** The pattern `^(A|B|AB|O)[+-]$`, read as: a group letter part followed
      by exactly one sign character and nothing else. */
  predicate MatchesBloodTypePattern(s: string)
  {
    && |s| >= 2
    && (s[|s| - 1] == '+' || s[|s| - 1] == '-')
    && (s[..|s| - 1] == "A" || s[..|s| - 1] == "B" || s[..|s| - 1] == "AB" || s[..|s| - 1] == "O")
  }

  const BloodTypes: set<string> := {"A+", "A-", "B+", "B-", "AB+", "AB-", "O+", "O-"}

  lemma BloodTypePatternIsEightStrings(s: string)
    ensures MatchesBloodTypePattern(s) <==> s in BloodTypes
  {
    if s in BloodTypes {
      assert MatchesBloodTypePattern(s);
    }
    if MatchesBloodTypePattern(s) {
      var group, sign := s[..|s| - 1], s[|s| - 1];
      assert s == group + [sign];
      assert group == "A" || group == "B" || group == "AB" || group == "O";
      assert sign == '+' || sign == '-';
      if group == "A" {
        assert s == "A+" || s == "A-";
      } else if group == "B" {
        assert s == "B+" || s == "B-";
      } else if group == "AB" {
        assert s == "AB+" || s == "AB-";
      } else {
        assert s == "O+" || s == "O-";
      }
    }
  }

  predicate ValidHeartRate(hr: real) { 0.0 < hr <= 300.0 }

  /** Every field constraint of the input schema holds. */
  predicate Valid(p: CrashPayloadInput)
  {
    && p.gForce > 0.0
    && ValidHeartRate(p.heartRate)
    && (p.heartRateAfter.Some? ==> ValidHeartRate(p.heartRateAfter.value))
    && p.voiceDecibels >= 0.0
    && ValidGps(p.gps)
    && MatchesBloodTypePattern(p.bloodType)
  }

  /** Whether the constraint on field f is violated by p. */
  predicate Fails(p: CrashPayloadInput, f: Field)
  {
    match f
    case GForce => !(p.gForce > 0.0)
    case HeartRate => !ValidHeartRate(p.heartRate)
    case HeartRateAfter => p.heartRateAfter.Some? && !ValidHeartRate(p.heartRateAfter.value)
    case VoiceDecibels => p.voiceDecibels < 0.0
    case Lat => !ValidLat(p.gps.lat)
    case Lon => !ValidLon(p.gps.lon)
    case BloodType => !MatchesBloodTypePattern(p.bloodType)
  }

  const AllFields: seq<Field> := [GForce, HeartRate, HeartRateAfter, VoiceDecibels, Lat, Lon, BloodType]

  function FailingAmong(p: CrashPayloadInput, fields: seq<Field>): (r: seq<Field>)
    ensures forall f :: f in r <==> f in fields && Fails(p, f)
  {
    if fields == [] then []
    else (if Fails(p, fields[0]) then [fields[0]] else []) + FailingAmong(p, fields[1..])
  }

  lemma ValidIffNothingFails(p: CrashPayloadInput)
    ensures Valid(p) <==> forall f :: !Fails(p, f)
  {
    if forall f :: !Fails(p, f) {
      assert !Fails(p, GForce) && !Fails(p, HeartRate) && !Fails(p, HeartRateAfter);
      assert !Fails(p, VoiceDecibels) && !Fails(p, Lat) && !Fails(p, Lon) && !Fails(p, BloodType);
    }
  }

  /** The fields whose constraint fails, in declaration order: the payload is
      rejected exactly when the list is non-empty. */
  function Violations(p: CrashPayloadInput): (r: seq<Field>)
    ensures forall f :: f in r <==> Fails(p, f)
    ensures r == [] <==> Valid(p)
  {
    var r := FailingAmong(p, AllFields);
    assert forall f :: f in AllFields;
    ValidIffNothingFails(p);
    if r == [] then r
    else
      assert Fails(p, r[0]) by { assert r[0] in r; }
      r
  }

  /** The field validator of heart_rate_after accepts any value and returns
      it as it is: no ordering against heart_rate is checked. */
  function ValidateHeartRateAfter(v: Option<real>): (r: Option<real>)
    ensures r == v
  {
    v
  }

  /** Validity never compares the two heart rates: any in-range later
      reading, higher or lower than the first, keeps a valid payload valid,
      and the later reading is the only thing that can make it fail. */
  lemma NoOrderingBetweenHeartRates(p: CrashPayloadInput, h: real)
    requires Valid(p)
    ensures Valid(p.(heartRateAfter := Some(h))) <==> ValidHeartRate(h)
    ensures h > p.heartRate && ValidHeartRate(h) ==> Valid(p.(heartRateAfter := Some(h)))
    ensures forall f :: f in Violations(p.(heartRateAfter := Some(h))) <==> f == HeartRateAfter && !ValidHeartRate(h)
  {
    var q := p.(heartRateAfter := Some(h));
    ValidIffNothingFails(p);
    ValidIffNothingFails(q);
    assert forall f :: f != HeartRateAfter ==> (Fails(q, f) <==> Fails(p, f));
  }

  /** `payload.dict()`: the fields under their schema names. */
  function PayloadValue(p: CrashPayloadInput): (v: Value)
    ensures v.Obj? && v.fields.Keys == {"g_force", "heart_rate", "heart_rate_after", "voice_decibels", "gps",
                                         "blood_type", "allergies", "user_consent"}
    ensures v.fields["gps"] == Obj(map["lat" := Num(p.gps.lat), "lon" := Num(p.gps.lon)])
    ensures v.fields["blood_type"] == Str(p.bloodType) && v.fields["user_consent"] == Bool(p.userConsent)
  {
    Obj(map[
      "g_force" := Num(p.gForce),
      "heart_rate" := Num(p.heartRate),
      "heart_rate_after" := (if p.heartRateAfter.Some? then Num(p.heartRateAfter.value) else Null),
      "voice_decibels" := Num(p.voiceDecibels),
      "gps" := Obj(map["lat" := Num(p.gps.lat), "lon" := Num(p.gps.lon)]),
      "blood_type" := Str(p.bloodType),
      "allergies" := List(seq(|p.allergies|, i requires 0 <= i < |p.allergies| => Str(p.allergies[i]))),
      "user_consent" := Bool(p.userConsent)])
  }

  /** A response built from the required fields only takes the schema's
      defaults for the other four. */
  function NewOutput(incidentId: string, status: string, gps: GpsLocation, timestamp: string): (o: CrashPayloadOutput)
    ensures o.incidentId == incidentId && o.status == status && o.gps == gps && o.timestamp == timestamp
    ensures !o.ambulanceDispatched && !o.familyNotified
    ensures o.nearestHospital.None? && o.insurancePreauthToken.None?
  {
    CrashPayloadOutput(incidentId, status, gps, None, false, None, false, timestamp)
  }
}
