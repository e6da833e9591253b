/**
 * The UserPayment record of gweb/payments/models.py and the table that holds
 * it, keyed by the gateway reference (the column is declared unique).
 */
module PaymentRecords {
  import opened Wrappers
  import opened Faults
  import opened Json
  import opened Decimal

  /** Django's primary key of an auth User. */
  type UserId = int

  /** The three STATUS_CHOICES. */
  datatype Status = Pending | Success | Failed

  const DefaultStatus: Status := Pending

  /** paystack_reference is a CharField(max_length=100). */
  const MaxReferenceLength: nat := 100

  /** amount is a DecimalField(max_digits=10, decimal_places=2): |amount| < 10^8, i.e. < 10^10 cents. */
  const AmountLimitCents: nat := 10_000_000_000

  /** The value stored in the status column for each choice. */
  function StatusValue(st: Status): string {
    match st
    case Pending => "pending"
    case Success => "success"
    case Failed => "failed"
  }

  /**
   * Validation of a status column value against STATUS_CHOICES. Django
   * applies it only in full_clean(), which neither payment view calls:
   * create() stores whatever text it is given, and both views give "success".
   */
  function ParseStatus(s: string): (r: Option<Status>)
    ensures r.Some? <==> s in {"pending", "success", "failed"}
    ensures r.Some? ==> StatusValue(r.value) == s
  {
    if s == "pending" then Some(Pending)
    else if s == "success" then Some(Success)
    else if s == "failed" then Some(Failed)
    else None
  }

  /** Every status is stored as a valid choice and read back as itself. */
  lemma StatusRoundTrip(st: Status)
    ensures ParseStatus(StatusValue(st)) == Some(st)
  {
  }

  /**
   * One UserPayment row. The amount is held in cents (the gateway's minor
   * unit); the row's decimal amount is amountCents / 100. Neither `currency`
   * nor `payment_method`, which the views pass to create(), is a field of the
   * model, so the record does not carry them.
   */
  datatype UserPayment = UserPayment(
    user: UserId,
    reference: string,
    amountCents: int,
    status: Status,
    createdAt: int,
    completedAt: Option<int>,
    rawResponse: Option<Json>)

  /**
   * UserPayment(...) as create() builds it: status defaults to pending,
   * created_at is the insertion time and completed_at stays empty.
   */
  function NewPayment(user: UserId, reference: string, amountCents: int, status: Option<Status>,
                      now: int, raw: Option<Json>): (p: UserPayment)
    ensures status.None? ==> p.status == Pending
    ensures status.Some? ==> p.status == status.value
    ensures p.createdAt == now && p.completedAt.None?
    ensures p.user == user && p.reference == reference && p.amountCents == amountCents && p.rawResponse == raw
  {
    UserPayment(user, reference, amountCents, if status.Some? then status.value else DefaultStatus, now, None, raw)
  }

  predicate AmountFits(cents: int) {
    -(AmountLimitCents as int) < cents < AmountLimitCents
  }

  /** The column constraints a single row must meet. */
  predicate Storable(p: UserPayment) {
    |p.reference| <= MaxReferenceLength && AmountFits(p.amountCents)
  }

  /** The payments table, keyed by paystack_reference. */
  type Ledger = map<string, UserPayment>

  predicate ValidLedger(l: Ledger) {
    forall r :: r in l ==> l[r].reference == r && Storable(l[r])
  }

  /**
   * UserPayment.objects.create(...): the row is added when it meets the
   * column constraints and its reference is new; otherwise the database
   * refuses it and the table is left as it was.
   */
  function Insert(l: Ledger, p: UserPayment): (r: Result<Ledger, Fault>)
    ensures r.Ok? <==> Storable(p) && p.reference !in l
    ensures r.Ok? ==> r.value.Keys == l.Keys + {p.reference} && r.value[p.reference] == p
    ensures r.Ok? ==> |r.value| == |l| + 1
    ensures r.Ok? ==> forall k :: k in l ==> r.value[k] == l[k]
    ensures p.reference in l && Storable(p) ==> r == Err(DuplicateReference)
  {
    if |p.reference| > MaxReferenceLength then Err(ReferenceTooLong)
    else if !AmountFits(p.amountCents) then Err(AmountOutOfRange)
    else if p.reference in l then Err(DuplicateReference)
    else Ok(l[p.reference := p])
  }

  /** A successful insert keeps the table well-formed. */
  lemma InsertPreservesValid(l: Ledger, p: UserPayment)
    requires ValidLedger(l)
    requires Insert(l, p).Ok?
    ensures ValidLedger(Insert(l, p).value)
  {
  }

  /** A second insert of the same reference fails, whatever else the second row holds. */
  lemma InsertOnce(l: Ledger, p: UserPayment, q: UserPayment)
    requires Insert(l, p).Ok?
    requires q.reference == p.reference
    ensures Insert(Insert(l, p).value, q).Err?
  {
  }

  /**
   * UserPayment.__str__: "<username> - <status> - <amount> GHS", with the
   * amount as a DecimalField reads it back from the database (two decimal
   * places).
   */
  function Describe(p: UserPayment, username: string): (r: string)
    // username, " - ", the shortest status part "failed - ", the shortest amount "0.00", " GHS"
    ensures |r| >= |username| + |" - "| + |"failed - "| + |"0.00"| + |" GHS"|
    ensures r[..|username| + 3] == username + " - " && r[|r| - 4..] == " GHS"
    ensures StatusPrefix(r[|username| + 3..]) == Some((p.status, |StatusValue(p.status)| + 3))
  {
    var tail := FormatCents(p.amountCents) + " GHS";
    var m := StatusValue(p.status) + " - " + tail;
    StatusPrefixRoundTrip(p.status, tail);
    var r := (username + " - ") + m;
    assert r[|username| + 3..] == m;
    r
  }

  /** Reads "<status> - <amount>" back. */
  function ParseStatusAndAmount(m: string): Option<(Status, int)>
  {
    match StatusPrefix(m)
    case None => None
    case Some((st, n)) => AmountWith(st, m[n..])
  }

  function AmountWith(st: Status, text: string): Option<(Status, int)>
  {
    match ParseCents(text)
    case None => None
    case Some(c) => Some((st, c))
  }

  /** Reads a description back, given the username it starts with. */
  function ParseDescription(text: string, username: string): Option<(Status, int)>
  {
    var head := |username| + 3;
    if |text| < head + 4 || text[..head] != username + " - " || text[|text| - 4..] != " GHS" then None
    else ParseStatusAndAmount(text[head..|text| - 4])
  }

  /** The text before " - " names the status, and what follows it is the amount. */
  function StatusPrefix(m: string): (r: Option<(Status, nat)>)
    ensures r.Some? ==> r.value.1 <= |m|
  {
    if |m| >= 10 && m[..10] == "pending - " then Some((Pending, 10))
    else if |m| >= 10 && m[..10] == "success - " then Some((Success, 10))
    else if |m| >= 9 && m[..9] == "failed - " then Some((Failed, 9))
    else None
  }

  lemma StatusPrefixRoundTrip(st: Status, amount: string)
    ensures StatusPrefix(StatusValue(st) + " - " + amount) == Some((st, |StatusValue(st) + " - "|))
  {
    var m := StatusValue(st) + " - " + amount;
    match st
    case Pending =>
      assert m[..10] == "pending - ";
    case Success =>
      assert m[0] == 's';
      assert m[..10] == "success - ";
    case Failed =>
      assert m[0] == 'f';
      assert m[..9] == "failed - ";
  }

  lemma StatusAndAmountRoundTrip(st: Status, amount: string, c: int)
    requires ParseCents(amount) == Some(c)
    ensures ParseStatusAndAmount(StatusValue(st) + " - " + amount) == Some((st, c))
  {
    var prefix := StatusValue(st) + " - ";
    var m := prefix + amount;
    StatusPrefixRoundTrip(st, amount);
    assert m[|prefix|..] == amount;
  }

  /** The description of a payment determines its status and its amount. */
  lemma DescribeRoundTrip(p: UserPayment, username: string)
    ensures ParseDescription(Describe(p, username), username) == Some((p.status, p.amountCents))
  {
    var m := StatusValue(p.status) + " - " + FormatCents(p.amountCents);
    var text := Describe(p, username);
    var head := |username| + 3;
    assert text == (username + " - ") + m + " GHS";
    assert text[..head] == username + " - ";
    assert text[|text| - 4..] == " GHS";
    assert text[head..|text| - 4] == m;
    CentsRoundTrip(p.amountCents);
    StatusAndAmountRoundTrip(p.status, FormatCents(p.amountCents), p.amountCents);
  }
}
