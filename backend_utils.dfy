/**
 * The backend's signing and code-generation helpers (backend/pkg/utils).
 * HMAC-SHA256 with hex encoding is an uninterpreted function passed in as
 * `hmac(data, secret)`; the clock and the random number are parameters.
 */
module BackendUtils {
  import opened Wrappers

  type Hmac = (string, string) -> string

  // ------------------------------------------------------------ decimals

  predicate IsDigit(c: char) { '0' <= c <= '9' }

  function DigitChar(d: nat): (c: char)
    requires d < 10
    ensures IsDigit(c) && c as int - '0' as int == d
  {
    ('0' as int + d) as char
  }

  predicate AllDigits(s: string) { forall i :: 0 <= i < |s| ==> IsDigit(s[i]) }

  /** The number a string of digits spells, most significant first. */
  function DigitsValue(s: string): nat
    requires AllDigits(s)
  {
    if s == [] then 0 else DigitsValue(s[..|s| - 1]) * 10 + (s[|s| - 1] as int - '0' as int)
  }

  function Pow10(w: nat): (r: nat)
    ensures r >= 1
  {
    if w == 0 then 1 else 10 * Pow10(w - 1)
  }

  /** The last `width` decimal digits of n, zero-padded (Go's %0Nd for n < 10^width). */
  function Padded(n: nat, width: nat): (s: string)
    ensures |s| == width && AllDigits(s)
  {
    if width == 0 then [] else Padded(n / 10, width - 1) + [DigitChar(n % 10)]
  }

  lemma {:induction false} PaddedValue(n: nat, width: nat)
    requires n < Pow10(width)
    ensures DigitsValue(Padded(n, width)) == n
  {
    if width > 0 {
      var s := Padded(n, width);
      assert s[..|s| - 1] == Padded(n / 10, width - 1);
      PaddedValue(n / 10, width - 1);
    }
  }

  /** Go's %d on a non-negative integer: no leading zeros, at least one digit. */
  function NatDecimal(n: nat): (s: string)
    ensures |s| >= 1 && AllDigits(s)
  {
    if n < 10 then [DigitChar(n)] else NatDecimal(n / 10) + [DigitChar(n % 10)]
  }

  /** Go's %d on a signed integer. */
  function Decimal(n: int): (s: string)
    ensures |s| >= 1 && '|' !in s
  {
    if n < 0 then "-" + NatDecimal(-n) else NatDecimal(n)
  }

  lemma {:induction false} NatDecimalValue(n: nat)
    ensures DigitsValue(NatDecimal(n)) == n
  {
    if n >= 10 {
      var s := NatDecimal(n);
      assert s[..|s| - 1] == NatDecimal(n / 10);
      NatDecimalValue(n / 10);
    }
  }

  /** Reads back what Decimal writes; None for anything else that is not a signed digit string. */
  function ParseDecimal(s: string): (r: Option<int>)
    ensures r.Some? ==> |s| >= 1
  {
    if |s| >= 2 && s[0] == '-' && AllDigits(s[1..]) then Some(0 - DigitsValue(s[1..]) as int)
    else if |s| >= 1 && AllDigits(s) then Some(DigitsValue(s))
    else None
  }

  lemma {:induction false} DecimalRoundTrip(n: int)
    ensures ParseDecimal(Decimal(n)) == Some(n)
  {
    if n < 0 {
      var digits := NatDecimal(-n);
      var s := "-" + digits;
      assert s == Decimal(n);
      assert s[1..] == digits;
      NatDecimalValue(-n);
      assert |s| >= 2 && s[0] == '-' && AllDigits(s[1..]);
      assert ParseDecimal(s) == Some(0 - DigitsValue(digits) as int);
    } else {
      var s := NatDecimal(n);
      assert s == Decimal(n);
      NatDecimalValue(n);
      assert s[0] != '-' by { assert IsDigit(s[0]); }
      assert ParseDecimal(s) == Some(DigitsValue(s));
    }
  }

  // ------------------------------------------------------------- HMAC

  /** GenerateHMAC: the hex HMAC-SHA256 of data under secret. */
  function GenerateHmac(hmac: Hmac, data: string, secret: string): (sig: string)
    ensures sig == hmac(data, secret)
  {
    hmac(data, secret)
  }

  /** VerifyHMAC: recompute and compare (the constant-time comparison is plain equality here). */
  function VerifyHmac(hmac: Hmac, data: string, signature: string, secret: string): (ok: bool)
    ensures ok <==> signature == GenerateHmac(hmac, data, secret)
  {
    hmac(data, secret) == signature
  }

  // ------------------------------------------------------ QR signature

  /** The signed payload "code|amount|creatorID". */
  function QrPayload(code: string, amount: int, creatorId: nat): (s: string)
    ensures |s| == |code| + |Decimal(amount)| + |Decimal(creatorId)| + 2
  {
    code + "|" + Decimal(amount) + "|" + Decimal(creatorId)
  }

  function GenerateQrSignature(hmac: Hmac, code: string, amount: int, creatorId: nat, secret: string): (sig: string)
    ensures sig == hmac(QrPayload(code, amount, creatorId), secret)
  {
    GenerateHmac(hmac, QrPayload(code, amount, creatorId), secret)
  }

  function VerifyQrSignature(hmac: Hmac, code: string, amount: int, creatorId: nat, signature: string, secret: string): (ok: bool)
    ensures ok <==> signature == hmac(QrPayload(code, amount, creatorId), secret)
  {
    VerifyHmac(hmac, QrPayload(code, amount, creatorId), signature, secret)
  }

  /** A signature made with the secret verifies against the same code, amount and creator. */
  lemma {:induction false} QrSignatureRoundTrip(hmac: Hmac, code: string, amount: int, creatorId: nat, secret: string)
    ensures VerifyQrSignature(hmac, code, amount, creatorId,
                              GenerateQrSignature(hmac, code, amount, creatorId, secret), secret)
  {
  }

  /** Index of the first c in s, or |s| when there is none. */
  function IndexOf(s: string, c: char): (i: nat)
    ensures i <= |s| && c !in s[..i]
    ensures i < |s| ==> s[i] == c
  {
    if s == [] then 0 else if s[0] == c then 0 else 1 + IndexOf(s[1..], c)
  }

  lemma {:induction false} IndexOfAfterPrefix(a: string, c: char, b: string)
    requires c !in a
    ensures IndexOf(a + [c] + b, c) == |a|
  {
    if a != [] {
      assert (a + [c] + b)[1..] == a[1..] + [c] + b;
      IndexOfAfterPrefix(a[1..], c, b);
    }
  }

  /** Splits a payload back into code, amount and creator id. */
  function ParseQrPayload(s: string): (r: Option<(string, int, int)>)
  {
    var i := IndexOf(s, '|');
    if i == |s| then None
    else
      var rest := s[i + 1..];
      var j := IndexOf(rest, '|');
      if j == |rest| then None
      else
        var a := ParseDecimal(rest[..j]);
        var u := ParseDecimal(rest[j + 1..]);
        if a.None? || u.None? then None else Some((s[..i], a.value, u.value))
  }

  /**
   * The payload determines the code, the amount and the creator whenever
   * the code holds no '|', so one signature cannot stand for two QR codes.
   */
  lemma {:induction false} QrPayloadRoundTrip(code: string, amount: int, creatorId: nat)
    requires '|' !in code
    ensures ParseQrPayload(QrPayload(code, amount, creatorId)) == Some((code, amount, creatorId))
  {
    DecimalRoundTrip(amount);
    DecimalRoundTrip(creatorId);
    ParseJoined(code, Decimal(amount), Decimal(creatorId), amount, creatorId);
  }

  /** Three '|'-free parts joined by '|' parse back into the code and the two numbers. */
  lemma {:induction false} ParseJoined(code: string, da: string, du: string, a: int, u: int)
    requires '|' !in code && '|' !in da
    requires ParseDecimal(da) == Some(a) && ParseDecimal(du) == Some(u)
    ensures ParseQrPayload(code + "|" + da + "|" + du) == Some((code, a, u))
  {
    var rest := da + ['|'] + du;
    var s := code + ['|'] + rest;
    assert code + "|" + da + "|" + du == s;
    IndexOfAfterPrefix(code, '|', rest);
    SplitAround(code, '|', rest);
    IndexOfAfterPrefix(da, '|', du);
    SplitAround(da, '|', du);
  }

  /** Cutting a + [c] + b around position |a| gives back a and b. */
  lemma {:induction false} SplitAround(a: string, c: char, b: string)
    ensures (a + [c] + b)[..|a|] == a && (a + [c] + b)[|a| + 1..] == b
  {
    assert (a + [c] + b)[..|a|] == a;
  }



  lemma {:induction false} QrPayloadInjective(c1: string, a1: int, u1: nat, c2: string, a2: int, u2: nat)
    requires '|' !in c1 && '|' !in c2
    requires QrPayload(c1, a1, u1) == QrPayload(c2, a2, u2)
    ensures c1 == c2 && a1 == a2 && u1 == u2
  {
    QrPayloadRoundTrip(c1, a1, u1);
    QrPayloadRoundTrip(c2, a2, u2);
  }

  // --------------------------------------------------- transaction code

  /** A calendar date as time.Now() yields it. */
  datatype Date = Date(year: nat, month: nat, day: nat)

  predicate ValidDate(d: Date) { d.year <= 9999 && 1 <= d.month <= 12 && 1 <= d.day <= 31 }

  /** Go's Format("20060102"). */
  function DateStamp(d: Date): (s: string)
    requires ValidDate(d)
    ensures |s| == 8 && AllDigits(s)
  {
    Padded(d.year, 4) + Padded(d.month, 2) + Padded(d.day, 2)
  }

  /** GenerateTransactionCode: PREFIX-YYYYMMDD-NNNN with random drawn by rand.Intn(9999). */
  function TransactionCode(prefix: string, now: Date, random: nat): (code: string)
    requires ValidDate(now) && random < 9999
    ensures |code| == |prefix| + 14
    ensures code[..|prefix|] == prefix && code[|prefix|] == '-' && code[|prefix| + 9] == '-'
    ensures AllDigits(code[|prefix| + 1..|prefix| + 9]) && AllDigits(code[|prefix| + 10..])
  {
    prefix + "-" + DateStamp(now) + "-" + Padded(random, 4)
  }

  /**
   * What a flow reads from outside the database: the clock (Unix seconds and
   * the calendar date), the draws of rand.Intn(9999) for the codes it
   * generates (first and second call), and the UUID it generates.
   */
  datatype Env = Env(now: int, today: Date, random: nat, random2: nat, uuid: string)

  predicate ValidEnv(env: Env) { ValidDate(env.today) && env.random < 9999 && env.random2 < 9999 }

  /** Reads the prefix, the date stamp and the number back from a code. */
  function ParseTransactionCode(code: string): (r: Option<(string, string, nat)>)
  {
    if |code| < 14 then None
    else
      var n := |code|;
      var tail := code[n - 4..];
      if code[n - 14] == '-' && code[n - 5] == '-' && AllDigits(tail) && AllDigits(code[n - 13..n - 5])
      then Some((code[..n - 14], code[n - 13..n - 5], DigitsValue(tail)))
      else None
  }

  lemma {:induction false} TransactionCodeRoundTrip(prefix: string, now: Date, random: nat)
    requires ValidDate(now) && random < 9999
    ensures ParseTransactionCode(TransactionCode(prefix, now, random)) == Some((prefix, DateStamp(now), random))
  {
    var code := TransactionCode(prefix, now, random);
    var n := |code|;
    assert code[n - 4..] == Padded(random, 4);
    assert code[n - 13..n - 5] == DateStamp(now);
    assert Pow10(4) == 10000;
    PaddedValue(random, 4);
  }
}
