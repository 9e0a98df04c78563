/**
 * The shape shared by every request validator of the backend: each check
 * that fails appends one FieldError, in the order the checks are written.
 */
module BackendValidation {

  /** The request fields a validator can name, with their JSON names. */
  datatype Field =
    | ToUserIdField | UserIdField | AmountField | ReasonField | IdempotencyKeyField
    | TypeField | ProductIdField | QrCodeField
    | NameField | ProductTypeField | PriceField
    | TitleField | MissionTypeField | RewardPointsField | DifficultyField
    | UsernameField | PasswordField | CurrentPasswordField | NewPasswordField
    | ConfirmPasswordField | EmailField | FullNameField
  {
    function JsonName(): string
    {
      match this
      case ToUserIdField => "to_user_id"
      case UserIdField => "user_id"
      case AmountField => "amount"
      case ReasonField => "reason"
      case IdempotencyKeyField => "idempotency_key"
      case TypeField => "type"
      case ProductIdField => "product_id"
      case QrCodeField => "qr_code"
      case NameField => "name"
      case ProductTypeField => "product_type"
      case PriceField => "price"
      case TitleField => "title"
      case MissionTypeField => "mission_type"
      case RewardPointsField => "reward_points"
      case DifficultyField => "difficulty"
      case UsernameField => "username"
      case PasswordField => "password"
      case CurrentPasswordField => "current_password"
      case NewPasswordField => "new_password"
      case ConfirmPasswordField => "confirm_password"
      case EmailField => "email"
      case FullNameField => "full_name"
    }
  }

  /** One entry of the list a request validator returns. */
  datatype FieldError = FieldError(field: Field, message: string)

  /** One check: a single error when it fails, nothing otherwise. */
  function Check(failed: bool, field: Field, message: string): (es: seq<FieldError>)
    ensures |es| <= 1 && (es != [] <==> failed)
    ensures failed ==> es == [FieldError(field, message)]
  {
    if failed then [FieldError(field, message)] else []
  }

  /** Some error names the field. */
  predicate Reports(es: seq<FieldError>, field: Field)
  {
    exists i :: 0 <= i < |es| && es[i].field == field
  }

  lemma {:induction false} ReportsCheck(failed: bool, field: Field, message: string)
    ensures forall f :: Reports(Check(failed, field, message), f) <==> failed && field == f
  {
    if failed {
      assert Check(failed, field, message)[0].field == field;
    }
  }

  lemma {:induction false} ReportsConcat(a: seq<FieldError>, b: seq<FieldError>)
    ensures forall f :: Reports(a + b, f) <==> Reports(a, f) || Reports(b, f)
  {
    forall f ensures Reports(a + b, f) <==> Reports(a, f) || Reports(b, f) {
      if Reports(a + b, f) {
        var k :| 0 <= k < |a + b| && (a + b)[k].field == f;
        if k >= |a| { assert b[k - |a|] == (a + b)[k]; }
      }
      if Reports(a, f) {
        var k :| 0 <= k < |a| && a[k].field == f;
        assert (a + b)[k] == a[k];
      }
      if Reports(b, f) {
        var k :| 0 <= k < |b| && b[k].field == f;
        assert (a + b)[|a| + k] == b[k];
      }
    }
  }

  /** ReportsConcat over the five checks of a longer validator. */
  lemma {:induction false} ReportsConcat5(a: seq<FieldError>, b: seq<FieldError>, c: seq<FieldError>, d: seq<FieldError>, e: seq<FieldError>)
    ensures forall f :: Reports(a + b + c + d + e, f) <==>
      Reports(a, f) || Reports(b, f) || Reports(c, f) || Reports(d, f) || Reports(e, f)
  {
    ReportsConcat(a, b);
    ReportsConcat(a + b, c);
    ReportsConcat(a + b + c, d);
    ReportsConcat(a + b + c + d, e);
  }

  /**
   * The errors appear in the order in which the validator runs its checks;
   * `rank` numbers the fields in that order.
   */
  predicate InOrder(es: seq<FieldError>, rank: Field -> nat)
  {
    forall i :: 0 < i < |es| ==> rank(es[i - 1].field) <= rank(es[i].field)
  }

  /** No error so far is about a field checked after `field`. */
  predicate UpTo(es: seq<FieldError>, rank: Field -> nat, field: Field)
  {
    forall i :: 0 <= i < |es| ==> rank(es[i].field) <= rank(field)
  }

  /** Five runs of checks report a field exactly when one of them does. */
  lemma {:induction false} ReportsFive(a: seq<FieldError>, b: seq<FieldError>, c: seq<FieldError>, d: seq<FieldError>,
                    e: seq<FieldError>, f: Field)
    ensures Reports(a + b + c + d + e, f) <==>
      Reports(a, f) || Reports(b, f) || Reports(c, f) || Reports(d, f) || Reports(e, f)
  {
    ReportsConcat(a, b);
    ReportsConcat(a + b, c);
    ReportsConcat(a + b + c, d);
    ReportsConcat(a + b + c + d, e);
  }

  /** Appending the next check keeps the errors in order. */
  lemma {:induction false} InOrderThen(es: seq<FieldError>, rank: Field -> nat, failed: bool, field: Field, message: string)
    requires InOrder(es, rank) && UpTo(es, rank, field)
    ensures InOrder(es + Check(failed, field, message), rank)
    ensures UpTo(es + Check(failed, field, message), rank, field)
  {
  }

  lemma {:induction false} UpToLater(es: seq<FieldError>, rank: Field -> nat, field: Field, later: Field)
    requires UpTo(es, rank, field) && rank(field) <= rank(later)
    ensures UpTo(es, rank, later)
  {
  }

  /** How many errors name the field. */
  function Count(es: seq<FieldError>, field: Field): (n: nat)
    ensures n <= |es|
  {
    if es == [] then 0 else (if es[0].field == field then 1 else 0) + Count(es[1..], field)
  }

  lemma {:induction false} CountConcat(a: seq<FieldError>, b: seq<FieldError>, field: Field)
    ensures Count(a + b, field) == Count(a, field) + Count(b, field)
  {
    if a == [] {
      assert a + b == b;
    } else {
      assert (a + b)[1..] == a[1..] + b;
      CountConcat(a[1..], b, field);
    }
  }

  /** Counting over five concatenated check results adds the five counts. */
  lemma {:induction false} CountJoin5(a: seq<FieldError>, b: seq<FieldError>, c: seq<FieldError>,
                                      d: seq<FieldError>, e: seq<FieldError>, field: Field)
    ensures Count(a + b + c + d + e, field) ==
      Count(a, field) + Count(b, field) + Count(c, field) + Count(d, field) + Count(e, field)
  {
    CountConcat(a, b, field);
    CountConcat(a + b, c, field);
    CountConcat(a + b + c, d, field);
    CountConcat(a + b + c + d, e, field);
  }

  lemma {:induction false} CountCheck(failed: bool, field: Field, message: string, f: Field)
    ensures Count(Check(failed, field, message), f) == if failed && field == f then 1 else 0
  {
    if failed {
      assert Check(failed, field, message)[1..] == [];
    }
  }
}
