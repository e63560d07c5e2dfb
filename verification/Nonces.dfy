/** The nonce codec: cookie, base64 of the feature bits, base64 of the decimal expiry time followed
    by an HMAC of those digits. */
module Nonces {
  import opened Common
  import Base64

  // HMAC-SHA256 under the server's secret key: any function with 32-byte results.
  type Hmac = seq<Byte> -> seq<Byte>

  ghost predicate IsHmac(hmac: Hmac) {
    forall m :: |hmac(m)| == 32
  }

  const COOKIE := "obMatJos2"
  const COOKIE_LENGTH := 13
  const MIN_SIZE := 42
  const INT64_MAX := 0x7fff_ffff_ffff_ffff
  const NONCE_LIFETIME := 3600

  // ---------------------------------------------------------------- decimal numbers

  predicate IsDigit(b: Byte) {
    48 <= b <= 57
  }

  predicate AllDigits(d: seq<Byte>) {
    forall i :: 0 <= i < |d| ==> IsDigit(d[i])
  }

  function Digits(n: nat): (d: seq<Byte>)
    ensures d != [] && AllDigits(d)
  {
    if n < 10 then [48 + n] else Digits(n / 10) + [48 + n % 10]
  }

  function Decimal(n: int): seq<Byte> {
    if n < 0 then [45] + Digits(-n) else Digits(n)
  }

  function Value(d: seq<Byte>): nat
    requires AllDigits(d)
  {
    if d == [] then 0 else Value(d[..|d|-1]) * 10 + (d[|d|-1] - 48)
  }

  // from_chars into a 64-bit signed integer
  function ParseInt64(d: seq<Byte>): Option<int>
    requires AllDigits(d)
  {
    if d == [] || Value(d) > INT64_MAX then None else Some(Value(d))
  }

  // How many leading bytes are digits.
  function DigitRun(raw: seq<Byte>): (n: nat)
    ensures n <= |raw| && AllDigits(raw[..n])
    ensures n < |raw| ==> !IsDigit(raw[n])
  {
    if raw != [] && IsDigit(raw[0]) then
      var m := DigitRun(raw[1..]);
      assert forall i :: 0 <= i <= m ==> IsDigit(raw[i]) by {
        forall i | 1 <= i <= m ensures IsDigit(raw[i]) { assert raw[i] == raw[1..][..m][i - 1]; }
      }
      1 + m
    else 0
  }

  // ---------------------------------------------------------------- the codec

  function Generate(hmac: Hmac, expiration: int, unixNow: int): string {
    var ts := if expiration == 0 then unixNow + NONCE_LIFETIME else expiration;
    var digits := Decimal(ts);
    COOKIE + Base64.Encode([0x80, 0, 0]) + Base64.Encode(digits + hmac(digits))
  }

  predicate Validate(hmac: Hmac, nonce: string, unixNow: int) {
    if |nonce| <= COOKIE_LENGTH then false
    else
      var raw := Base64.Decode(nonce[COOKIE_LENGTH..]);
      if |raw| < MIN_SIZE then false
      else
        var end := DigitRun(raw);
        if end == 0 then false
        else
          match ParseInt64(raw[..end])
          case None => false
          case Some(expiration) =>
            if unixNow > expiration then false
            else
              var given := raw[end..];
              var expected := hmac(raw[..end]);
              if |given| != |expected| then false else given == expected
  }

  predicate HasPasswordAlgorithmsBit(nonce: string) {
    if !(COOKIE <= nonce) then false
    else
      var rest := nonce[|COOKIE|..];
      var decoded := Base64.Decode(rest[..Min(4, |rest|)]);
      |decoded| >= 3 && decoded[0] / 128 % 2 == 1
  }

  // ---------------------------------------------------------------- facts about numbers and runs

  lemma {:induction false} ValueOfDigits(n: nat)
    ensures Value(Digits(n)) == n
  {
    if n >= 10 {
      ValueOfDigits(n / 10);
      assert Digits(n)[..|Digits(n)|-1] == Digits(n / 10);
    } else {
      assert Value(Digits(n)[..0]) == 0;
    }
  }

  function Pow10(k: nat): nat {
    if k == 0 then 1 else 10 * Pow10(k - 1)
  }

  lemma {:induction false} DigitCount(n: nat, k: nat)
    ensures |Digits(n)| > k <==> k == 0 || n >= Pow10(k)
  {
    if k > 0 {
      if n >= 10 {
        DigitCount(n / 10, k - 1);
        assert n / 10 >= Pow10(k - 1) <==> n >= 10 * Pow10(k - 1);
      } else {
        Pow10Positive(k - 1);
      }
    }
  }

  lemma {:induction false} Pow10Positive(k: nat)
    ensures Pow10(k) >= 1
  {
    if k > 0 { Pow10Positive(k - 1); }
  }

  lemma TenDigits(n: nat)
    ensures |Digits(n)| >= 10 <==> n >= 1_000_000_000
  {
    DigitCount(n, 9);
    assert Pow10(4) == 10_000;
    assert Pow10(7) == 1000 * Pow10(4);
    assert Pow10(9) == 100 * Pow10(7);
  }

  // The run of digits of d ++ rest is d followed by the run of rest.
  lemma {:induction false} RunOfConcat(d: seq<Byte>, rest: seq<Byte>)
    requires AllDigits(d)
    ensures DigitRun(d + rest) == |d| + DigitRun(rest)
  {
    if d == [] {
      assert d + rest == rest;
    } else {
      assert (d + rest)[1..] == d[1..] + rest;
      RunOfConcat(d[1..], rest);
    }
  }

  // ---------------------------------------------------------------- main results

  /* What an accepted nonce is: after the 13 leading characters, base64 of at least ten digits whose
     number is not in the past, followed by their HMAC, which does not itself start with a digit. */
  ghost predicate Wellmade(hmac: Hmac, nonce: string, unixNow: int, d: seq<Byte>) {
    && |nonce| > 13
    && AllDigits(d) && |d| >= 10
    && Base64.Decode(nonce[13..]) == d + hmac(d)
    && |hmac(d)| > 0 && !IsDigit(hmac(d)[0])
    && unixNow <= Value(d) <= 0x7fff_ffff_ffff_ffff
  }

  lemma WellmadeIsAccepted(hmac: Hmac, nonce: string, unixNow: int, d: seq<Byte>)
    requires IsHmac(hmac)
    requires Wellmade(hmac, nonce, unixNow, d)
    ensures Validate(hmac, nonce, unixNow)
  {
    var raw := Base64.Decode(nonce[COOKIE_LENGTH..]);
    RunOfConcat(d, hmac(d));
    assert raw[..|d|] == d && raw[|d|..] == hmac(d);
  }

  /** Acceptance is sound and complete: a nonce is accepted exactly when it is well made. */
  lemma AcceptedIffWellmade(hmac: Hmac, nonce: string, unixNow: int)
    requires IsHmac(hmac)
    ensures Validate(hmac, nonce, unixNow) <==> exists d :: Wellmade(hmac, nonce, unixNow, d)
  {
    if Validate(hmac, nonce, unixNow) {
      var raw := Base64.Decode(nonce[COOKIE_LENGTH..]);
      var d := raw[..DigitRun(raw)];
      assert raw == d + raw[|d|..];
      assert Wellmade(hmac, nonce, unixNow, d);
    }
    if d :| Wellmade(hmac, nonce, unixNow, d) {
      WellmadeIsAccepted(hmac, nonce, unixNow, d);
    }
  }

  /** An accepted nonce parses in one way only. */
  lemma ParseIsUnique(hmac: Hmac, nonce: string, unixNow: int, d: seq<Byte>, e: seq<Byte>)
    requires IsHmac(hmac)
    requires Wellmade(hmac, nonce, unixNow, d) && Wellmade(hmac, nonce, unixNow, e)
    ensures d == e
  {
    RunOfConcat(d, hmac(d));
    RunOfConcat(e, hmac(e));
    assert (d + hmac(d))[..|d|] == d;
    assert (e + hmac(e))[..|e|] == e;
  }

  /** The verdict depends on nothing in the first 13 characters but their being there, so tampering
      with the cookie goes unnoticed. */
  lemma CookieIsIgnored(hmac: Hmac, nonce: string, prefix: string, unixNow: int)
    requires |nonce| >= 13 && |prefix| == 13
    ensures Validate(hmac, prefix + nonce[13..], unixNow) == Validate(hmac, nonce, unixNow)
  {
    var other := prefix + nonce[COOKIE_LENGTH..];
    assert other[COOKIE_LENGTH..] == nonce[COOKIE_LENGTH..];
  }

  lemma GeneratedPayload(hmac: Hmac, ts: int, unixNow: int)
    requires ts != 0
    ensures |Generate(hmac, ts, unixNow)| > COOKIE_LENGTH
    ensures Base64.Decode(Generate(hmac, ts, unixNow)[COOKIE_LENGTH..]) == Decimal(ts) + hmac(Decimal(ts))
  {
    var payload := Decimal(ts) + hmac(Decimal(ts));
    Base64.BlockRoundTrip([0x80, 0, 0]);
    Base64.BlockRoundTrip(payload);
    Base64.RoundTrip(payload);
    assert Generate(hmac, ts, unixNow)[COOKIE_LENGTH..] == Base64.Encode(payload);
  }

  /** The exact round trip.  A generated nonce is accepted if and only if it has not run out, its
      expiry time has ten decimal digits or more, and its HMAC does not start with a digit: in that
      last case the scan for the end of the digits swallows part of the HMAC. */
  lemma RoundTripExact(hmac: Hmac, ts: int, issued: int, unixNow: int)
    requires IsHmac(hmac) && ts != 0 && ts <= INT64_MAX
    ensures Validate(hmac, Generate(hmac, ts, issued), unixNow) <==>
              unixNow <= ts && ts >= 1_000_000_000 && !IsDigit(hmac(Decimal(ts))[0])
  {
    var nonce := Generate(hmac, ts, issued);
    var d := Decimal(ts);
    var raw := d + hmac(d);
    GeneratedPayload(hmac, ts, issued);
    if ts < 0 {
      assert DigitRun(raw) == 0;
    } else {
      RunOfConcat(d, hmac(d));
      ValueOfDigits(ts);
      TenDigits(ts);
      assert raw[..|d|] == d && raw[|d|..] == hmac(d);
    }
  }

  /** The nonce put into a 401 or 438 reply (no explicit time) is good for exactly one hour, unless
      its HMAC happens to start with a digit, and then never. */
  lemma ChallengeNonceIsGoodForAnHour(hmac: Hmac, issued: int, unixNow: int)
    requires IsHmac(hmac) && 1_000_000_000 <= issued && issued + 3600 <= INT64_MAX
    ensures Validate(hmac, Generate(hmac, 0, issued), unixNow) <==>
              unixNow <= issued + 3600 && !IsDigit(hmac(Decimal(issued + 3600))[0])
  {
    RoundTripExact(hmac, issued + 3600, issued, unixNow);
  }

  lemma Features()
    ensures Base64.Encode([0x80, 0, 0]) == "gAAA" && COOKIE + "gAAA" == "obMatJos2gAAA"
  {
    assert Base64.EncodeGroup(0x80, 0, 0) == "gAAA";
  }

  /** Every generated nonce starts with the cookie and the one feature that the server has. */
  lemma GeneratedPrefix(hmac: Hmac, ts: int, unixNow: int)
    ensures |Generate(hmac, ts, unixNow)| >= 13 && Generate(hmac, ts, unixNow)[..13] == "obMatJos2gAAA"
  {
    Features();
  }

  /** The feature bit is read exactly where the cookie is followed by four characters of base64 that
      stand for three bytes, the first of which is 0x80 or more. */
  lemma FeatureBitIff(nonce: string)
    ensures HasPasswordAlgorithmsBit(nonce) <==>
              && |nonce| >= 13 && nonce[..9] == "obMatJos2"
              && (forall i :: 9 <= i < 13 ==> Base64.CharSextet(nonce[i]).Some?)
              && Base64.CharSextet(nonce[9]).value >= 32 && nonce[11] != '=' && nonce[12] != '='
  {
    assert |COOKIE| == 9;
    if |nonce| >= 13 && nonce[..9] == COOKIE {
      var s := nonce[9..][..4];
      assert forall i :: 0 <= i < 4 ==> s[i] == nonce[9 + i];
      assert s[0] == nonce[9] && s[1] == nonce[10] && s[2] == nonce[11] && s[3] == nonce[12];
      DecodedBit(s);
    } else if |nonce| >= 9 && nonce[..9] == COOKIE {
      Base64.BlocksAreKnown(nonce[9..][..|nonce| - 9]);
    }
  }

  lemma TopBit(p: int, q: int)
    requires 0 <= p < 64 && 0 <= q < 64
    ensures (p * 4 + q / 16) / 128 % 2 == 1 <==> p >= 32
  {
  }

  lemma DecodedBit(s: string)
    requires |s| == 4
    ensures |Base64.Decode(s)| >= 3 && Base64.Decode(s)[0] / 128 % 2 == 1 <==>
              && (forall i :: 0 <= i < 4 ==> Base64.CharSextet(s[i]).Some?)
              && s[2] != '=' && s[3] != '=' && Base64.CharSextet(s[0]).value >= 32
  {
    if Base64.DecodeGroup(s).Some? {
      Base64.DecodeOneGroup(s);
      TopBit(Base64.CharSextet(s[0]).value, Base64.CharSextet(s[1]).value);
    } else {
      assert s[..4] == s;
    }
  }

  lemma FeatureBit(features: string, rest: string)
    requires |features| == 4 && Base64.Decode(features) == [0x80, 0, 0]
    ensures HasPasswordAlgorithmsBit(COOKIE + features + rest)
  {
    assert (COOKIE + features + rest)[|COOKIE|..][..4] == features;
  }

  /** Every generated nonce announces the password-algorithms feature. */
  lemma FeatureBitReadsBack(hmac: Hmac, ts: int, unixNow: int)
    ensures HasPasswordAlgorithmsBit(Generate(hmac, ts, unixNow))
  {
    var digits := Decimal(if ts == 0 then unixNow + NONCE_LIFETIME else ts);
    Base64.BlockRoundTrip([0x80, 0, 0]);
    Base64.RoundTrip([0x80, 0, 0]);
    FeatureBit(Base64.Encode([0x80, 0, 0]), Base64.Encode(digits + hmac(digits)));
  }

  // ---------------------------------------------------------------- the authenticator

  class Authenticator {
    const hmac: Hmac

    constructor (hmac: Hmac)
      ensures this.hmac == hmac
    {
      this.hmac := hmac;
    }

    // The payload is put together in one buffer.
    method GenerateNonce(expiration: int, unixNow: int) returns (nonce: string)
      ensures nonce == Generate(hmac, expiration, unixNow)
    {
      var ts := expiration;
      if ts == 0 {
        ts := unixNow + NONCE_LIFETIME;
      }
      var digits := Decimal(ts);
      var mac := hmac(digits);
      var raw := new Byte[|digits| + |mac|];
      forall i | 0 <= i < |digits| {
        raw[i] := digits[i];
      }
      forall i | 0 <= i < |mac| {
        raw[|digits| + i] := mac[i];
      }
      assert raw[..|digits|] == digits && raw[|digits|..] == mac;
      assert raw[..] == digits + mac;
      nonce := COOKIE + Base64.Encode([0x80, 0, 0]) + Base64.Encode(raw[..]);
    }

    // Scans for the end of the digits and compares what follows with their HMAC.
    method ValidateNonce(nonce: string, unixNow: int) returns (ok: bool)
      ensures ok <==> Validate(hmac, nonce, unixNow)
    {
      if |nonce| <= COOKIE_LENGTH {
        return false;
      }
      var raw := Base64.Decode(nonce[COOKIE_LENGTH..]);
      if |raw| < MIN_SIZE {
        return false;
      }
      var end := 0;
      while end < |raw| && IsDigit(raw[end])
        invariant end <= |raw| && AllDigits(raw[..end])
      {
        assert raw[..end + 1] == raw[..end] + [raw[end]];
        end := end + 1;
      }
      RunEnds(raw, end);
      if end == 0 {
        return false;
      }
      var expiration := ParseInt64(raw[..end]);
      if expiration == None || unixNow > expiration.value {
        return false;
      }
      var given, expected := raw[end..], hmac(raw[..end]);
      if |given| != |expected| {
        return false;
      }
      ok := given == expected;
    }
  }

  // Where the digits stop is where their run ends.
  lemma RunEnds(raw: seq<Byte>, end: nat)
    requires end <= |raw| && AllDigits(raw[..end]) && (end < |raw| ==> !IsDigit(raw[end]))
    ensures DigitRun(raw) == end
  {
    assert raw == raw[..end] + raw[end..];
    RunOfConcat(raw[..end], raw[end..]);
  }
}
