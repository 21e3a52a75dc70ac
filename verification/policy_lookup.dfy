/** Insurance policy lookup: two mock policies, a fabricated policy for any
    other user, and coverage checks by policy number. */
module PolicyLookup {
  import opened Common

  datatype Policy = Policy(
    policyNumber: string,
    provider: string,
    coverageAmount: real,
    active: bool,
    userId: string,
    policyType: Option<string>,
    validUntil: Option<string>)

  const Providers: seq<string> := [
    "HealthCare Insurance Ltd", "MediCover Insurance", "Star Health Insurance",
    "HDFC ERGO Health Insurance", "ICICI Lombard Health Insurance", "Bajaj Allianz Health Insurance",
    "Reliance Health Insurance", "Aditya Birla Health Insurance", "Future Generali Health Insurance",
    "ManipalCigna Health Insurance", "Care Health Insurance", "Niva Bupa Health Insurance"]

  const PolicyTypes: seq<string> := ["Individual", "Family", "Group"]

  const NumberPrefix: string := "POL-2024-"

  /** The mock policy table, keyed by user id, in its insertion order. */
  const MockPolicies: seq<(string, Policy)> := [
    ("user_001", Policy("POL-2024-001234", "HealthCare Insurance Ltd", 500000.0, true, "user_001", None, None)),
    ("user_002", Policy("POL-2024-005678", "MediCover Insurance", 1000000.0, true, "user_002", None, None))]

  /** The policy stored under a user id, if any. */
  function MockPolicy(entries: seq<(string, Policy)>, userId: string): (r: Option<Policy>)
    ensures r.None? <==> forall i :: 0 <= i < |entries| ==> entries[i].0 != userId
    ensures r.Some? ==> exists i :: 0 <= i < |entries| && entries[i] == (userId, r.value)
  {
    if entries == [] then None
    else if entries[0].0 == userId then Some(entries[0].1)
    else
      var r := MockPolicy(entries[1..], userId);
      assert r.Some? ==> exists i :: 0 <= i < |entries| && entries[i] == (userId, r.value) by {
        if r.Some? {
          var i :| 0 <= i < |entries[1..]| && entries[1..][i] == (userId, r.value);
          assert entries[i + 1] == (userId, r.value);
        }
      }
      r
  }

  /** The random draws `lookup_policy` makes for an unknown user: a provider,
      a six-digit number, a coverage amount (already rounded) and a policy type. */
  datatype PolicyDraw = PolicyDraw(providerIndex: nat, number: nat, coverage: real, typeIndex: nat)

  predicate ValidDraw(d: PolicyDraw)
  {
    && d.providerIndex < |Providers|
    && 100000 <= d.number <= 999999
    && 300000.0 <= d.coverage <= 1500000.0
    && d.typeIndex < |PolicyTypes|
  }

  /** `lookup_policy`: the stored policy of a known user; for any other user a
      fabricated active policy, so the result is never absent. */
  function LookupPolicy(userId: string, draw: PolicyDraw): (p: Policy)
    requires ValidDraw(draw)
    ensures MockPolicy(MockPolicies, userId).Some? ==> p == MockPolicy(MockPolicies, userId).value
    ensures MockPolicy(MockPolicies, userId).None? ==>
      && p.active && p.userId == userId
      && p.policyNumber == NumberPrefix + NatToString(draw.number)
      && p.provider in Providers
      && 300000.0 <= p.coverageAmount <= 1500000.0
      && p.policyType.Some? && p.policyType.value in PolicyTypes
      && p.validUntil == Some("2025-12-31")
  {
    var stored := MockPolicy(MockPolicies, userId);
    if stored.Some? then stored.value
    else
      Policy(NumberPrefix + NatToString(draw.number), Providers[draw.providerIndex], draw.coverage, true, userId,
             Some(PolicyTypes[draw.typeIndex]), Some("2025-12-31"))
  }

  /** Entry i is the first of the table with the given number. */
  predicate FirstWithNumber(entries: seq<(string, Policy)>, policyNumber: string, i: int)
  {
    && 0 <= i < |entries| && entries[i].1.policyNumber == policyNumber
    && forall j :: 0 <= j < i ==> entries[j].1.policyNumber != policyNumber
  }

  /** The first policy of the table, in order, with the given number. */
  function FindByNumber(entries: seq<(string, Policy)>, policyNumber: string): (r: Option<Policy>)
    ensures r.None? <==> forall i :: 0 <= i < |entries| ==> entries[i].1.policyNumber != policyNumber
    ensures r.Some? ==> exists i :: FirstWithNumber(entries, policyNumber, i) && entries[i].1 == r.value
  {
    if entries == [] then None
    else if entries[0].1.policyNumber == policyNumber then
      assert FirstWithNumber(entries, policyNumber, 0);
      Some(entries[0].1)
    else
      var r := FindByNumber(entries[1..], policyNumber);
      assert r.Some? ==> exists i :: FirstWithNumber(entries, policyNumber, i) && entries[i].1 == r.value by {
        if r.Some? {
          var i :| FirstWithNumber(entries[1..], policyNumber, i) && entries[1..][i].1 == r.value;
          assert forall j :: 1 <= j < i + 1 ==> entries[j] == entries[1..][j - 1];
          assert FirstWithNumber(entries, policyNumber, i + 1);
        }
      }
      r
  }

  /** `verify_coverage`: an active known policy covering the amount; an
      unknown policy number is assumed covered. */
  function VerifyCoverage(amount: real, policyNumber: string): (ok: bool)
    ensures FindByNumber(MockPolicies, policyNumber).None? ==> ok
    ensures FindByNumber(MockPolicies, policyNumber).Some? ==>
      (ok <==> FindByNumber(MockPolicies, policyNumber).value.active
               && amount <= FindByNumber(MockPolicies, policyNumber).value.coverageAmount)
  {
    var found := FindByNumber(MockPolicies, policyNumber);
    if found.Some? then found.value.active && amount <= found.value.coverageAmount else true
  }

  /** `get_policy_by_number`. */
  function GetPolicyByNumber(policyNumber: string): (r: Option<Policy>)
    ensures r.Some? <==> exists i :: 0 <= i < |MockPolicies| && MockPolicies[i].1.policyNumber == policyNumber
    ensures r.Some? ==> r.value.policyNumber == policyNumber && r.value.active
  {
    FindByNumber(MockPolicies, policyNumber)
  }

  /** The two mock policies as the table states them. */
  lemma MockCoverage()
    ensures VerifyCoverage(500000.0, "POL-2024-001234") && !VerifyCoverage(500000.01, "POL-2024-001234")
    ensures VerifyCoverage(1000000.0, "POL-2024-005678") && !VerifyCoverage(1000001.0, "POL-2024-005678")
  {
    assert MockPolicies[0].1.policyNumber == "POL-2024-001234";
    assert MockPolicies[1].1.policyNumber == "POL-2024-005678";
  }

  /** A fabricated policy number never equals a mock one (its digits start
      with a non-zero digit, theirs with 0), so any amount is deemed covered
      under it. */
  lemma {:induction false} FabricatedPolicyIsAlwaysCovered(userId: string, draw: PolicyDraw, amount: real)
    requires ValidDraw(draw) && MockPolicy(MockPolicies, userId).None?
    ensures GetPolicyByNumber(LookupPolicy(userId, draw).policyNumber).None?
    ensures VerifyCoverage(amount, LookupPolicy(userId, draw).policyNumber)
  {
    var n := LookupPolicy(userId, draw).policyNumber;
    assert n[9] == NatToString(draw.number)[0] != '0';
    forall i | 0 <= i < |MockPolicies|
      ensures MockPolicies[i].1.policyNumber != n
    {
      assert MockPolicies[i].1.policyNumber[9] == '0';
    }
  }

  /** The two mock users get their stored policies back unchanged. */
  lemma KnownUsersGetTheirPolicy(draw: PolicyDraw)
    requires ValidDraw(draw)
    ensures LookupPolicy("user_001", draw) == MockPolicies[0].1
    ensures LookupPolicy("user_002", draw) == MockPolicies[1].1
  {
    assert MockPolicy(MockPolicies, "user_001") == Some(MockPolicies[0].1);
    assert MockPolicies[1..][0] == MockPolicies[1];
    assert MockPolicy(MockPolicies, "user_002") == Some(MockPolicies[1].1);
  }

  function Pow10(k: nat): (p: nat)
    ensures p >= 1
  {
    if k == 0 then 1 else 10 * Pow10(k - 1)
  }

  /** A number between 10^k and 10^(k+1) is written with k + 1 digits. */
  lemma {:induction false} DigitCount(n: nat, k: nat)
    requires Pow10(k) <= n < Pow10(k + 1)
    ensures |NatToString(n)| == k + 1
    decreases k
  {
    if k > 0 {
      assert Pow10(k - 1) <= n / 10 < Pow10(k);
      DigitCount(n / 10, k - 1);
    }
  }

  /** A fabricated policy number is "POL-2024-" and exactly six digits. */
  lemma FabricatedNumberShape(userId: string, draw: PolicyDraw)
    requires ValidDraw(draw) && MockPolicy(MockPolicies, userId).None?
    ensures var n := LookupPolicy(userId, draw).policyNumber;
      |n| == 15 && n[..9] == NumberPrefix && forall i :: 9 <= i < 15 ==> IsDigit(n[i])
  {
    assert Pow10(5) == 100000 && Pow10(6) == 1000000;
    DigitCount(draw.number, 5);
  }
}
