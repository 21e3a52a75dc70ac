/** Pre-authorisation tokens for hospital admission: generation, the
    stored record, validation and single use. */
module PreauthGenerator {
  import opened Common

  /** PREAUTH_TOKEN_EXPIRY_HOURS of the settings. */
  const ExpiryHours: nat := 24
  const SecondsPerHour: nat := 3600

  predicate IsLowerHexChar(c: char) { '0' <= c <= '9' || 'a' <= c <= 'f' }
  predicate IsUpperHexChar(c: char) { '0' <= c <= '9' || 'A' <= c <= 'F' }

  /** `str.upper()` on one ASCII character. */
  function UpperChar(c: char): char
  {
    if 'a' <= c <= 'z' then (c as int - 32) as char else c
  }

  function Upper(s: string): (r: string)
    ensures |r| == |s|
    ensures forall i :: 0 <= i < |s| ==> r[i] == UpperChar(s[i])
  {
    seq(|s|, i requires 0 <= i < |s| => UpperChar(s[i]))
  }

  /** The 32 lowercase hexadecimal digits of a random UUID. */
  predicate IsUuidHex(h: string)
  {
    |h| == 32 && forall i :: 0 <= i < |h| ==> IsLowerHexChar(h[i])
  }

  /** "PREAUTH_" + the date + "_" + the first six UUID digits in upper case. */
  function MakeToken(today: DateTime, uuidHex: string): (token: string)
    requires ValidDateTime(today) && IsUuidHex(uuidHex)
    ensures |token| == 23
    ensures token[..8] == "PREAUTH_" && token[16] == '_'
    ensures token[8..16] == CompactDate(today)
    ensures forall i :: 8 <= i < 16 ==> IsDigit(token[i])
    ensures forall i :: 17 <= i < 23 ==> IsUpperHexChar(token[i])
  {
    var randomPart := Upper(uuidHex[..6]);
    var token := "PREAUTH_" + CompactDate(today) + "_" + randomPart;
    assert forall i :: 17 <= i < 23 ==> token[i] == UpperChar(uuidHex[i - 17]);
    token
  }

  datatype TokenRecord = TokenRecord(
    token: string,
    policyNumber: string,
    amount: real,
    hospitalId: string,
    incidentId: string,
    createdAt: int,
    expiresAt: int,
    used: bool)

  /** What `validate_token` reports; `expiresAt` is absent for an unknown
      token (the empty string of the source). */
  datatype Validation = Validation(valid: bool, amount: real, hospitalId: string, expiresAt: Option<int>, used: bool, message: string)

  const NotFound: Validation := Validation(false, 0.0, "", None, false, "Token not found")

  /** `validate_token` at time `now`: unknown, then expired (strictly past the
      expiry), then already used, else valid. */
  function Validate(tokens: map<string, TokenRecord>, token: string, now: int): (v: Validation)
    ensures token !in tokens ==> v == NotFound
    ensures v.valid <==> token in tokens && now <= tokens[token].expiresAt && !tokens[token].used
    ensures token in tokens ==>
      v.amount == tokens[token].amount && v.hospitalId == tokens[token].hospitalId && v.expiresAt == Some(tokens[token].expiresAt)
    ensures token in tokens && now > tokens[token].expiresAt ==> v.message == "Token has expired" && v.used == tokens[token].used
    ensures token in tokens && now <= tokens[token].expiresAt && tokens[token].used ==>
      v.message == "Token has already been used" && v.used
    ensures v.valid ==> v.message == "Token is valid" && !v.used
  {
    if token !in tokens then NotFound
    else
      var data := tokens[token];
      if now > data.expiresAt then
        Validation(false, data.amount, data.hospitalId, Some(data.expiresAt), data.used, "Token has expired")
      else if data.used then
        Validation(false, data.amount, data.hospitalId, Some(data.expiresAt), true, "Token has already been used")
      else
        Validation(true, data.amount, data.hospitalId, Some(data.expiresAt), false, "Token is valid")
  }

  /** The store after `mark_token_used`: only the `used` flag of a known
      token changes. */
  function MarkUsed(tokens: map<string, TokenRecord>, token: string): (r: map<string, TokenRecord>)
    ensures r.Keys == tokens.Keys
    ensures token in tokens ==> r[token] == tokens[token].(used := true)
    ensures forall t :: t in tokens && t != token ==> r[t] == tokens[t]
  {
    if token in tokens then tokens[token := tokens[token].(used := true)] else tokens
  }

  class TokenStore {
    var tokens: map<string, TokenRecord>

    constructor ()
      ensures tokens == map[]
    {
      tokens := map[];
    }

    /** `generate_preauth_token`: the token is stored unused and expires
        24 hours after it is created. */
    method GeneratePreauthToken(policyNumber: string, amount: real, hospitalId: string, incidentId: string,
                                today: DateTime, now: int, uuidHex: string) returns (token: string)
      requires ValidDateTime(today) && IsUuidHex(uuidHex)
      modifies this
      ensures token == MakeToken(today, uuidHex)
      ensures tokens == old(tokens)[token := TokenRecord(token, policyNumber, amount, hospitalId, incidentId,
                                                          now, now + ExpiryHours * SecondsPerHour, false)]
    {
      token := MakeToken(today, uuidHex);
      var expiresAt := now + ExpiryHours * SecondsPerHour;
      tokens := tokens[token := TokenRecord(token, policyNumber, amount, hospitalId, incidentId, now, expiresAt, false)];
    }

    function ValidateToken(token: string, now: int): (v: Validation)
      reads this
      ensures v == Validate(tokens, token, now)
    {
      Validate(tokens, token, now)
    }

    /** `mark_token_used`: false and no change for an unknown token. */
    method MarkTokenUsed(token: string) returns (ok: bool)
      modifies this
      ensures ok <==> token in old(tokens)
      ensures tokens == MarkUsed(old(tokens), token)
    {
      if token in tokens {
        tokens := tokens[token := tokens[token].(used := true)];
        return true;
      }
      return false;
    }
  }

  /** A fresh token validates until its expiry, 24 hours on. */
  lemma FreshTokenIsValid(tokens: map<string, TokenRecord>, token: string, r: TokenRecord, now: int)
    requires r.used == false && r.expiresAt == r.createdAt + ExpiryHours * SecondsPerHour
    requires r.createdAt <= now <= r.createdAt + 86400
    ensures Validate(tokens[token := r], token, now).valid
    ensures !Validate(tokens[token := r], token, r.createdAt + 86401).valid
  {
  }

  /** Once marked, an unexpired token is reported as used; marking is
      idempotent. */
  lemma {:induction false} MarkedTokenIsUsed(tokens: map<string, TokenRecord>, token: string, now: int)
    requires token in tokens && now <= tokens[token].expiresAt
    ensures Validate(MarkUsed(tokens, token), token, now).message == "Token has already been used"
    ensures !Validate(MarkUsed(tokens, token), token, now).valid
    ensures MarkUsed(MarkUsed(tokens, token), token) == MarkUsed(tokens, token)
  {
    var m := MarkUsed(tokens, token);
    assert m[token].used && m[token].expiresAt == tokens[token].expiresAt;
  }

  /** Expiry is checked first: an expired token says so even when used. */
  lemma ExpiryBeforeUse(tokens: map<string, TokenRecord>, token: string, now: int)
    requires token in tokens && now > tokens[token].expiresAt
    ensures Validate(MarkUsed(tokens, token), token, now).message == "Token has expired"
  {
  }
}
