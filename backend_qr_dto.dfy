/** Requests and responses of the backend's QR endpoints. */
module BackendQrDto {
  import opened Wrappers
  import opened BackendEntities
  import opened BackendValidation

  datatype CreateQrRequest = CreateQrRequest(amount: int, description: string, qrType: string, productId: Option<nat>)

  datatype ProcessQrRequest = ProcessQrRequest(qrCode: string, idempotencyKey: string)

  /** The request as CreateQRRequest.Validate leaves it: an empty type becomes PAYMENT. */
  function NormalizeCreateQr(r: CreateQrRequest): (n: CreateQrRequest)
    ensures n.qrType != ""
    ensures n.amount == r.amount && n.description == r.description && n.productId == r.productId
    ensures r.qrType != "" ==> n == r
  {
    if r.qrType == "" then r.(qrType := "PAYMENT") else r
  }

  predicate KnownQrType(t: string) { t == "PAYMENT" || t == "PRODUCT" }

  /**
   * CreateQRRequest.Validate: the errors it reports and the request as it
   * leaves it. The type checks run on the rewritten type.
   */
  function ValidateCreateQr(r: CreateQrRequest): (res: (seq<FieldError>, CreateQrRequest))
    ensures res.1 == NormalizeCreateQr(r)
    ensures res.0 == [] <==>
      r.amount > 0 && KnownQrType(res.1.qrType) && (res.1.qrType == "PRODUCT" ==> r.productId.Some?)
    ensures Reports(res.0, AmountField) <==> r.amount <= 0
    ensures Reports(res.0, TypeField) <==> !KnownQrType(res.1.qrType)
    ensures Reports(res.0, ProductIdField) <==> res.1.qrType == "PRODUCT" && r.productId.None?
  {
    var n := NormalizeCreateQr(r);
    var a := Check(r.amount <= 0, AmountField, "Amount must be positive");
    var b := Check(!KnownQrType(n.qrType), TypeField, "Type must be PAYMENT or PRODUCT");
    var c := Check(n.qrType == "PRODUCT" && n.productId.None?, ProductIdField, "Product ID is required for PRODUCT type");
    ReportsCheck(r.amount <= 0, AmountField, "Amount must be positive");
    ReportsCheck(!KnownQrType(n.qrType), TypeField, "Type must be PAYMENT or PRODUCT");
    ReportsCheck(n.qrType == "PRODUCT" && n.productId.None?, ProductIdField, "Product ID is required for PRODUCT type");
    ReportsConcat(a, b);
    ReportsConcat(a + b, c);
    (a + b + c, n)
  }

  /** A request with no type is a valid PAYMENT request as soon as its amount is positive. */
  lemma {:induction false} EmptyQrTypeIsPayment(r: CreateQrRequest)
    requires r.qrType == "" && r.amount > 0
    ensures ValidateCreateQr(r).0 == [] && ValidateCreateQr(r).1.qrType == "PAYMENT"
  {
  }

  /** ProcessQRRequest.Validate */
  function ValidateProcessQr(r: ProcessQrRequest): (es: seq<FieldError>)
    ensures es == [] <==> r.qrCode != "" && r.idempotencyKey != ""
    ensures Reports(es, QrCodeField) <==> r.qrCode == ""
    ensures Reports(es, IdempotencyKeyField) <==> r.idempotencyKey == ""
  {
    var a := Check(r.qrCode == "", QrCodeField, "QR code is required");
    var b := Check(r.idempotencyKey == "", IdempotencyKeyField, "Idempotency key is required");
    ReportsCheck(r.qrCode == "", QrCodeField, "QR code is required");
    ReportsCheck(r.idempotencyKey == "", IdempotencyKeyField, "Idempotency key is required");
    ReportsConcat(a, b);
    a + b
  }

  /** The JSON view of a QR code; remainingTime 0 is omitted from the JSON. */
  datatype QrCodeResponse = QrCodeResponse(
    id: nat, code: string, qrType: string, amount: int, description: string,
    status: QrStatus, imageBase64: string, expiresAt: int, remainingTime: int)

  /** ToQRCodeResponse, with the clock as `now` (whole seconds). */
  function ToQrCodeResponse(q: QrCode, imageBase64: string, now: int): (r: QrCodeResponse)
    ensures r.remainingTime >= 0
    ensures r.remainingTime > 0 <==> q.expiresAt > now
    ensures r.remainingTime > 0 ==> now + r.remainingTime == q.expiresAt
    ensures r.id == q.id && r.code == q.code && r.amount == q.amount && r.status == q.status
    ensures r.description == if q.description.Some? then q.description.value else ""
  {
    var remaining := q.expiresAt - now;
    QrCodeResponse(q.id, q.code, q.qrType, q.amount, q.description.GetOr(""), q.status,
                   imageBase64, q.expiresAt, if remaining > 0 then remaining else 0)
  }
}
