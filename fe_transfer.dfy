/**
 * The web client's transfer page (walletpoint/www/js/pages/transfer.js):
 * reading a user QR code of the form WPUSER:id:name:email:role, the
 * guards before the confirmation dialog, the local history of transfers,
 * and the 32-bit string hash that seeds the drawn QR pattern.
 */
module FeTransfer {
  import opened Wrappers

  // ------------------------------------------------------------ split/join

  /** String.prototype.split(':'): the fields between colons, empty ones included. */
  function Split(s: string): (r: seq<string>)
    ensures |r| >= 1
  {
    if s == [] then [""]
    else
      var rest := Split(s[1..]);
      if s[0] == ':' then [""] + rest
      else [[s[0]] + rest[0]] + rest[1..]
  }

  /** The fields joined with colons (Array.prototype.join(':')). */
  function Join(parts: seq<string>): string
  {
    if parts == [] then ""
    else if |parts| == 1 then parts[0]
    else parts[0] + ":" + Join(parts[1..])
  }

  predicate NoColon(s: string)
  {
    forall k :: 0 <= k < |s| ==> s[k] != ':'
  }

  /** Splitting and joining again gives the text back. */
  lemma {:induction false} SplitJoin(s: string)
    ensures Join(Split(s)) == s
  {
    if s != [] {
      SplitJoin(s[1..]);
      var rest := Split(s[1..]);
      assert s == [s[0]] + s[1..];
      if s[0] == ':' {
        assert Split(s) == [""] + rest;
        JoinCons("", rest);
      } else {
        var head := [s[0]] + rest[0];
        assert Split(s) == [head] + rest[1..];
        JoinCons(head, rest[1..]);
        assert rest == [rest[0]] + rest[1..];
        JoinCons(rest[0], rest[1..]);
      }
    }
  }

  /** Join of a first field and the rest: the field alone, or the field, a colon and the rest joined. */
  lemma {:induction false} JoinCons(head: string, tail: seq<string>)
    ensures Join([head] + tail) == if tail == [] then head else head + ":" + Join(tail)
  {
    assert ([head] + tail)[1..] == tail;
  }


  /** No field that Split produces holds a colon. */
  lemma {:induction false} SplitFieldsNoColon(s: string)
    ensures forall i :: 0 <= i < |Split(s)| ==> NoColon(Split(s)[i])
  {
    if s != [] {
      SplitFieldsNoColon(s[1..]);
      var rest := Split(s[1..]);
      if s[0] != ':' {
        var head := [s[0]] + rest[0];
        assert Split(s) == [head] + rest[1..];
        assert NoColon(head) by {
          assert NoColon(rest[0]);
        }
      }
    }
  }


  /** A colon-free field followed by a colon splits off as the first field. */
  lemma {:induction false} SplitField(a: string, b: string)
    requires NoColon(a)
    ensures Split(a + ":" + b) == [a] + Split(b)
    decreases |a|
  {
    if a == [] {
      assert a + ":" + b == [':'] + b;
      assert (a + ":" + b)[1..] == b;
    } else {
      assert (a + ":" + b)[1..] == a[1..] + ":" + b;
      SplitField(a[1..], b);
      assert [a[0]] + a[1..] == a;
    }
  }

  /** A colon-free field splits to itself. */
  lemma {:induction false} SplitPlain(a: string)
    requires NoColon(a)
    ensures Split(a) == [a]
    decreases |a|
  {
    if a != [] {
      SplitPlain(a[1..]);
      assert [a[0]] + a[1..] == a;
    }
  }

  /** Joining colon-free fields and splitting gives the fields back. */
  lemma {:induction false} JoinSplit(parts: seq<string>)
    requires |parts| >= 1
    requires forall i :: 0 <= i < |parts| ==> NoColon(parts[i])
    ensures Split(Join(parts)) == parts
  {
    if |parts| == 1 {
      SplitPlain(parts[0]);
    } else {
      JoinSplit(parts[1..]);
      SplitField(parts[0], Join(parts[1..]));
      assert [parts[0]] + parts[1..] == parts;
    }
  }

  // ------------------------------------------------------------- user QR

  /** The user a WPUSER code names. */
  datatype QrUser = QrUser(id: string, name: string, email: string, role: string)

  /** handleScannedQR's parse: WPUSER and at least four more fields; later fields are ignored. */
  function ParseUserQr(data: string): (r: Option<QrUser>)
    ensures r.Some? <==> Split(data)[0] == "WPUSER" && |Split(data)| >= 5
  {
    var parts := Split(data);
    if parts[0] == "WPUSER" && |parts| >= 5 then Some(QrUser(parts[1], parts[2], parts[3], parts[4]))
    else None
  }

  /**
   * A code written as WPUSER:id:name:email:role, with colon-free fields and
   * any trailing fields, reads back as exactly that user.
   */
  lemma {:induction false} UserQrRoundTrip(u: QrUser, extra: seq<string>)
    requires NoColon(u.id) && NoColon(u.name) && NoColon(u.email) && NoColon(u.role)
    requires forall i :: 0 <= i < |extra| ==> NoColon(extra[i])
    ensures ParseUserQr(Join(["WPUSER", u.id, u.name, u.email, u.role] + extra)) == Some(u)
  {
    var parts := ["WPUSER", u.id, u.name, u.email, u.role] + extra;
    assert NoColon("WPUSER");
    forall i | 0 <= i < |parts|
      ensures NoColon(parts[i])
    {
      if i >= 5 {
        assert parts[i] == extra[i - 5];
      }
    }
    JoinSplit(parts);
  }

  /** Text without the WPUSER tag in front is no user code, whatever follows. */
  lemma {:induction false} OtherTagRejected(tag: string, rest: string)
    requires NoColon(tag) && tag != "WPUSER"
    ensures ParseUserQr(tag + ":" + rest).None?
  {
    SplitField(tag, rest);
  }

  // --------------------------------------------------------------- confirm

  /** What confirmTransfer does with the form. */
  datatype ConfirmStep = NeedRecipient | InvalidAmount | ShowConfirmation(recipient: QrUser, amount: int)

  /**
   * confirmTransfer's guards: a recipient first, then an amount that
   * parsed (None is NaN) and is positive.
   */
  function ConfirmGuard(recipient: Option<QrUser>, amount: Option<int>): (r: ConfirmStep)
    ensures r.ShowConfirmation? <==> recipient.Some? && amount.Some? && amount.value > 0
    ensures r == NeedRecipient <==> recipient.None?
    ensures r.ShowConfirmation? ==> r.recipient == recipient.value && r.amount == amount.value
  {
    if recipient.None? then NeedRecipient
    // !amount catches NaN and 0; amount <= 0 the negatives
    else if amount.None? || amount.value <= 0 then InvalidAmount
    else ShowConfirmation(recipient.value, amount.value)
  }

  // --------------------------------------------------------------- history

  /** A transfer remembered on the device. */
  datatype HistoryEntry = HistoryEntry(
    id: string, kind: string, amount: int, recipientName: Option<string>, senderName: Option<string>,
    createdAt: string, note: string)

  const HistoryLimit := 100

  /** The first n entries of a list, or all of them (splice(n)). */
  function Keep<T>(s: seq<T>, n: nat): (r: seq<T>)
    ensures |r| <= n && |r| <= |s|
    ensures r == s[..|r|]
    ensures |s| <= n ==> r == s
  {
    if |s| > n then s[..n] else s
  }

  class TransferPage {
    var recipientInfo: Option<QrUser>
    /** The entry under wp_transfer_history. */
    var history: seq<HistoryEntry>

    constructor ()
      ensures recipientInfo.None? && history == []
    {
      recipientInfo := None;
      history := [];
    }

    /** handleScannedQR: a valid code selects the recipient, anything else leaves the choice alone. */
    method HandleScannedQR(data: string)
      modifies this`recipientInfo
      ensures ParseUserQr(data).Some? ==> recipientInfo == ParseUserQr(data)
      ensures ParseUserQr(data).None? ==> recipientInfo == old(recipientInfo)
    {
      var parts := Split(data);
      if parts[0] == "WPUSER" && |parts| >= 5 {
        recipientInfo := Some(QrUser(parts[1], parts[2], parts[3], parts[4]));
      }
    }

    /** saveTransferToHistory: the new entry goes first and the list is cut back to 100. */
    method SaveTransferToHistory(amount: int, note: string, kind: string, id: string, createdAt: string)
      modifies this`history
      ensures history == Keep([Entry(kind, amount, note, id, createdAt, recipientInfo)] + old(history), HistoryLimit)
    {
      var entry := Entry(kind, amount, note, id, createdAt, recipientInfo);
      var h := [entry] + history;
      if |h| > HistoryLimit {
        h := h[..HistoryLimit];
      }
      history := h;
    }
  }

  /** The history entry: the counterpart's name goes in the field its direction names. */
  function Entry(kind: string, amount: int, note: string, id: string, createdAt: string,
                 recipient: Option<QrUser>): (e: HistoryEntry)
    ensures e.kind == kind && e.amount == amount && e.note == note
    ensures kind != "sent" ==> e.recipientName.None?
    ensures kind != "received" ==> e.senderName.None?
  {
    var name := if recipient.Some? then Some(recipient.value.name) else None;
    HistoryEntry(id, kind, amount, if kind == "sent" then name else None,
                 if kind == "received" then name else None, createdAt, note)
  }

  /**
   * Saving puts the new entry first, keeps the newest earlier entries in
   * order behind it and never lets the history grow past 100.
   */
  lemma {:induction false} HistoryNewestFirst(earlier: seq<HistoryEntry>, e: HistoryEntry)
    ensures var h := Keep([e] + earlier, HistoryLimit);
      1 <= |h| <= HistoryLimit && h[0] == e && h[1..] == earlier[..|h| - 1] &&
      (|earlier| < HistoryLimit ==> |h| == |earlier| + 1)
  {
    var h := Keep([e] + earlier, HistoryLimit);
    assert h[1..] == ([e] + earlier)[1..|h|];
  }

  // ------------------------------------------------------------------ hash

  /** A UTF-16 code unit, what charCodeAt returns. */
  newtype CodeUnit = x: int | 0 <= x < 0x1_0000

  const Two32 := 0x1_0000_0000
  const Two31 := 0x8000_0000

  /** ToInt32: the value modulo 2^32, read as a signed 32-bit integer. */
  function ToInt32(x: int): (r: int)
    ensures -Two31 <= r < Two31
    ensures (r - x) % Two32 == 0
  {
    var m := x % Two32;
    if m >= Two31 then m - Two32 else m
  }

  /** Two numbers that differ by a multiple of 2^32 have the same 32-bit value. */
  lemma {:induction false} ToInt32Congruent(x: int, y: int)
    requires (x - y) % Two32 == 0
    ensures ToInt32(x) == ToInt32(y)
  {
    var k := (x - y) / Two32;
    assert x == y + k * Two32;
    ModShift(y, k);
  }

  lemma {:induction false} ModShift(y: int, k: int)
    ensures (y + k * Two32) % Two32 == y % Two32
    decreases if k < 0 then -k else k
  {
    if k > 0 {
      ModShift(y, k - 1);
      assert y + k * Two32 == (y + (k - 1) * Two32) + Two32;
    } else if k < 0 {
      ModShift(y, k + 1);
      assert y + k * Two32 == (y + (k + 1) * Two32) - Two32;
    }
  }

  /** The hash of a prefix: h := h * 31 + c, wrapped to 32 bits after every character. */
  function HashOf(s: seq<CodeUnit>): (h: int)
    ensures -Two31 <= h < Two31
  {
    if s == [] then 0 else ToInt32(31 * HashOf(s[..|s| - 1]) + s[|s| - 1] as int)
  }

  /** The source's step ((h << 5) - h) + c followed by h & h is h * 31 + c in 32 bits. */
  lemma {:induction false} ShiftStep(h: int, c: int)
    ensures ToInt32(ToInt32(32 * h) - h + c) == ToInt32(31 * h + c)
  {
    var shifted := ToInt32(32 * h);
    assert (shifted - 32 * h) % Two32 == 0;
    assert (shifted - h + c) - (31 * h + c) == shifted - 32 * h;
    ToInt32Congruent(shifted - h + c, 31 * h + c);
  }

  /** simpleHash: the absolute value of the 32-bit hash, so never negative and at most 2^31. */
  method SimpleHash(s: seq<CodeUnit>) returns (r: int)
    ensures r == if HashOf(s) < 0 then -HashOf(s) else HashOf(s)
    ensures 0 <= r <= Two31
  {
    var hash := 0;
    var i := 0;
    while i < |s|
      invariant 0 <= i <= |s|
      invariant hash == HashOf(s[..i])
    {
      var c := s[i] as int;
      ShiftStep(hash, c);
      hash := ToInt32(ToInt32(32 * hash) - hash + c);
      assert s[..i + 1][..i] == s[..i];
      i := i + 1;
    }
    assert s[..|s|] == s;
    r := if hash < 0 then -hash else hash;
  }
}
