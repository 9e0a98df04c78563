/**
 * The rewrite's shared helpers (walletpoint-backend/internal/shared/utils/helpers.go):
 * pagination arithmetic, reading an optional value with a default, the HMAC
 * signature pair and the QR code generator. HMAC-SHA256 with hex encoding is
 * the uninterpreted `hmac(data, secret)` of the older backend's helpers.
 */
module WpHelpers {
  import opened Wrappers
  import opened BackendUtils

  /** Go's integer division, which truncates toward zero. */
  function GoDiv(a: int, b: int): (q: int)
    requires b > 0
    ensures a >= 0 ==> q == a / b
    ensures a < 0 ==> q == -((-a) / b)
  {
    if a >= 0 then a / b else -((-a) / b)
  }

  /** The page CalculatePagination uses: anything below 1 is page 1. */
  function EffectivePage(page: int): (p: int)
    ensures p >= 1
    ensures page >= 1 ==> p == page
    ensures page < 1 ==> p == 1
  {
    if page < 1 then 1 else page
  }

  /** The limit CalculatePagination uses: below 1 becomes 10, above 100 becomes 100. */
  function EffectiveLimit(limit: int): (l: int)
    ensures 1 <= l <= 100
    ensures 1 <= limit <= 100 ==> l == limit
    ensures limit < 1 ==> l == 10
    ensures limit > 100 ==> l == 100
  {
    if limit < 1 then 10 else if limit > 100 then 100 else limit
  }

  datatype Pagination = Pagination(offset: int, totalPages: int)

  /** CalculatePagination: the row offset of the page and the number of pages. */
  function CalculatePagination(page: int, limit: int, total: int): (r: Pagination)
    ensures r.offset >= 0
    ensures r.offset % EffectiveLimit(limit) == 0
    ensures r.offset / EffectiveLimit(limit) == EffectivePage(page) - 1
  {
    var p := EffectivePage(page);
    var l := EffectiveLimit(limit);
    OffsetFacts(p, l);
    Pagination((p - 1) * l, GoDiv(total + l - 1, l))
  }

  lemma {:induction false} OffsetFacts(p: int, l: int)
    requires p >= 1 && l >= 1
    ensures (p - 1) * l >= 0 && ((p - 1) * l) % l == 0 && ((p - 1) * l) / l == p - 1
  {
    var k := p - 1;
    assert k * l == l * k;
    LemmaMulDivExact(k, l);
  }

  lemma {:induction false} MulNonNegative(x: int, y: int)
    requires x >= 0 && y >= 0
    ensures x * y >= 0
  {
    if x > 0 {
      MulNonNegative(x - 1, y);
      assert x * y == (x - 1) * y + y;
    }
  }

  /** a <= b scales to a * l <= b * l for a positive l. */
  lemma {:induction false} MulMonotone(a: int, b: int, l: int)
    requires a <= b && l >= 1
    ensures a * l <= b * l
  {
    MulNonNegative(b - a, l);
    assert (b - a) * l == b * l - a * l;
  }

  lemma {:induction false} LemmaMulDivExact(k: nat, l: int)
    requires l >= 1
    ensures (k * l) % l == 0 && (k * l) / l == k
  {
    var q := (k * l) / l;
    var r := (k * l) % l;
    assert k * l == q * l + r && 0 <= r < l;
    assert (k - q) * l == r;
    if k - q >= 1 {
      MulMonotone(1, k - q, l);
    } else if k - q <= -1 {
      MulMonotone(k - q, -1, l);
    }
  }

  /**
   * For a non-negative row count, totalPages is the ceiling of total / limit:
   * the pages hold every row and the last page is not empty; no rows, no pages.
   */
  lemma {:induction false} TotalPagesIsCeiling(page: int, limit: int, total: int)
    requires total >= 0
    ensures var r := CalculatePagination(page, limit, total);
      var l := EffectiveLimit(limit);
      r.totalPages >= 0 &&
      r.totalPages * l >= total &&
      (total > 0 ==> (r.totalPages - 1) * l < total)
    ensures CalculatePagination(page, limit, total).totalPages == 0 <==> total == 0
  {
    var l := EffectiveLimit(limit);
    assert CalculatePagination(page, limit, total).totalPages == (total + l - 1) / l;
    CeilDiv(total, l);
  }

  /** (total + l - 1) / l is the least t with t * l >= total. */
  lemma {:induction false} CeilDiv(total: int, l: int)
    requires total >= 0 && l >= 1
    ensures var t := (total + l - 1) / l;
      t >= 0 && t * l >= total && (total > 0 ==> (t - 1) * l < total) && (t == 0 <==> total == 0)
  {
    var n := total + l - 1;
    var t := n / l;
    assert n == t * l + n % l && 0 <= n % l < l;
    assert (t - 1) * l == t * l - l;
    if total > 0 {
      if t <= 0 {
        MulMonotone(t, 0, l);
        assert false;
      }
    } else {
      if t >= 1 {
        MulMonotone(1, t, l);
        assert false;
      }
    }
  }


  /** The requested page starts inside the rows exactly when it is one of the totalPages pages. */
  lemma {:induction false} PageStartsInside(page: int, limit: int, total: int)
    requires total >= 0
    ensures var r := CalculatePagination(page, limit, total);
      r.offset < total <==> EffectivePage(page) <= r.totalPages
  {
    var r := CalculatePagination(page, limit, total);
    var l := EffectiveLimit(limit);
    var p := EffectivePage(page);
    TotalPagesIsCeiling(page, limit, total);
    assert r.offset == (p - 1) * l;
    if p <= r.totalPages {
      MulMonotone(p - 1, r.totalPages - 1, l);
    } else {
      MulMonotone(r.totalPages, p - 1, l);
    }
  }

  /** Deref: the referenced value when it is not nil, otherwise the default. */
  function Deref<T>(p: Option<T>, defaultVal: T): (r: T)
    ensures p.Some? ==> r == p.value
    ensures p.None? ==> r == defaultVal
  {
    match p
    case Some(v) => v
    case None => defaultVal
  }

  /** CreateHMACSignature: the hex HMAC-SHA256 of the payload under the secret. */
  function CreateHmacSignature(hmac: Hmac, payload: string, secret: string): (sig: string)
  {
    hmac(payload, secret)
  }

  /** VerifyHMACSignature: recompute the signature and compare (hmac.Equal is plain equality here). */
  function VerifyHmacSignature(hmac: Hmac, payload: string, signature: string, secret: string): (ok: bool)
  {
    CreateHmacSignature(hmac, payload, secret) == signature
  }

  /** A signature created over a payload verifies, and only that signature does. */
  lemma {:induction false} HmacSignatureRoundTrip(hmac: Hmac, payload: string, signature: string, secret: string)
    ensures VerifyHmacSignature(hmac, payload, CreateHmacSignature(hmac, payload, secret), secret)
    ensures VerifyHmacSignature(hmac, payload, signature, secret) ==> signature == CreateHmacSignature(hmac, payload, secret)
  {
  }

  /** GenerateQRCode: "QR_" followed by the first 12 characters of a fresh UUID. */
  function GenerateQrCode(uuid: string): (code: string)
    requires |uuid| >= 12
    ensures |code| == 15 && code[..3] == "QR_" && code[3..] == uuid[..12]
  {
    "QR_" + uuid[..12]
  }
}
