/**
 * The payment views of gweb/payments/views.py: verify_payment, the redirect
 * callback that asks the gateway about a reference, and paystack_webhook, the
 * signed push from the gateway. The gateway's reply, the HMAC-SHA-512 digest
 * and the JSON parser are parameters; the database is the Store value.
 */
module PaymentViews {
  import opened Wrappers
  import opened Faults
  import opened Json
  import opened Http
  import opened Decimal
  import opened PaymentRecords
  import opened UsageViews

  /** The rows the views read and write: users (id to username), profiles and payments. */
  datatype Store = Store(usernames: map<UserId, string>, profiles: map<UserId, Profile>, payments: Ledger)

  /** Every payment is well-formed, stored under its reference and owned by an existing user. */
  predicate Valid(s: Store) {
    && ValidLedger(s.payments)
    && (forall r :: r in s.payments ==> s.payments[r].user in s.usernames)
    && s.profiles.Keys <= s.usernames.Keys
  }

  /**
   * The profile get_or_create makes. models.py defines no UserProfile model,
   * so its field defaults are not known; a free profile with no usage is used.
   */
  const NewProfile: Profile := Profile(false, 0, 0.0, 0)

  /** `amount / 100` kept in cents: a JSON number n is n cents; true and false divide as 1 and 0. */
  function MinorUnits(j: Json): (r: Result<int, Fault>)
    ensures j.JNum? ==> r == Ok(j.n)
    ensures r.Err? <==> !j.JNum? && !j.JBool?
  {
    match j
    case JNum(n) => Ok(n)
    case JBool(b) => Ok(if b then 1 else 0)
    case _ => Err(NotANumber)
  }

  /** profile.is_premium = True on the (possibly new) profile of the user. */
  function Upgrade(profiles: map<UserId, Profile>, user: UserId): (r: map<UserId, Profile>)
    ensures r.Keys == profiles.Keys + {user}
    ensures r[user].isPremium
    ensures user in profiles ==> r[user] == profiles[user].(isPremium := true)
    ensures forall u :: u in profiles && u != user ==> r[u] == profiles[u]
  {
    var p := if user in profiles then profiles[user] else NewProfile;
    profiles[user := p.(isPremium := true)]
  }

  // ---------------------------------------------------------------------------
  // verify_payment

  /**
   * The gateway's answer to GET /transaction/verify/<reference>: a reply
   * whose body is None when it is not JSON, or NoReply when requests.get
   * raises (connection refused, name resolution, reset).
   */
  datatype GatewayReply = Reply(code: int, body: Option<Json>) | NoReply

  /** What verify_payment did: its response, the store after it and the references it sent to the gateway. */
  datatype Verified = Verified(response: Response, store: Store, queried: seq<string>)

  const MissingReference: Response := Response(400, Text("Missing reference"))

  const ErrorPage: Response :=
    Response(200, Page("payment_error.html", JObj(map["message" := JStr("Payment not successful")])))

  function SuccessPage(data: Json): Response {
    Response(200, Page("payment_success.html", JObj(map["data" := data])))
  }

  /** The gateway confirms the charge: HTTP 200, a JSON body and data.status == "success". */
  predicate GatewaySuccess(reply: GatewayReply) {
    reply.Reply? && reply.code == 200 && reply.body.Some?
    && Path(reply.body.value, ["data", "status"]) == Ok(JStr("success"))
  }

  /** The amount, in cents, that the gateway's data reports. */
  function ReportedCents(data: Json): Result<int, Fault> {
    var amount :- Path(data, ["data", "amount"]);
    MinorUnits(amount)
  }

  /**
   * The row verify_payment creates from the gateway's data. The reference is
   * the one the caller passed, not the one in the data; data.currency and
   * data.channel must be present although the row does not keep them.
   */
  function VerifiedPayment(user: UserId, reference: string, data: Json, now: int): (r: Result<UserPayment, Fault>)
    ensures r.Ok? <==>
      && ReportedCents(data).Ok?
      && Path(data, ["data", "currency"]).Ok?
      && Path(data, ["data", "channel"]).Ok?
    ensures r.Ok? ==> ReportedCents(data) == Ok(r.value.amountCents)
    ensures r.Ok? ==> r.value == NewPayment(user, reference, r.value.amountCents, Some(Success), now, Some(data))
    ensures ReportedCents(data).Err? ==> r == Err(ReportedCents(data).error)
  {
    var cents :- ReportedCents(data);
    var currency :- Path(data, ["data", "currency"]);
    var channel :- Path(data, ["data", "channel"]);
    Ok(NewPayment(user, reference, cents, Some(Success), now, Some(data)))
  }

  /**
   * The record-and-upgrade step once the gateway has confirmed the charge.
   * The create() call runs first: when it raises, nobody is upgraded and the
   * exception escapes as a 500.
   */
  function RecordVerified(s: Store, user: UserId, reference: string, data: Json, now: int): (out: (Response, Store))
    ensures out.1.payments == s.payments ==> out.1 == s
    ensures out.1.payments != s.payments <==> out.0.code != 500
    ensures VerifiedPayment(user, reference, data, now).Err? ==>
      out == (ServerError(VerifiedPayment(user, reference, data, now).error), s)
    ensures VerifiedPayment(user, reference, data, now).Ok?
            && Insert(s.payments, VerifiedPayment(user, reference, data, now).value).Err? ==>
      out == (ServerError(Insert(s.payments, VerifiedPayment(user, reference, data, now).value).error), s)
    ensures VerifiedPayment(user, reference, data, now).Ok?
            && Insert(s.payments, VerifiedPayment(user, reference, data, now).value).Ok? ==>
      out == (SuccessPage(data),
              s.(payments := Insert(s.payments, VerifiedPayment(user, reference, data, now).value).value,
                 profiles := Upgrade(s.profiles, user)))
    ensures out.1.payments != s.payments ==>
      && VerifiedPayment(user, reference, data, now).Ok?
      && Insert(s.payments, VerifiedPayment(user, reference, data, now).value) == Ok(out.1.payments)
      && out.1 == s.(payments := out.1.payments, profiles := Upgrade(s.profiles, user))
      && out.0 == SuccessPage(data)
  {
    match VerifiedPayment(user, reference, data, now)
    case Err(f) => (ServerError(f), s)
    case Ok(p) =>
      match Insert(s.payments, p)
      case Err(f) => (ServerError(f), s)
      case Ok(l) => (SuccessPage(data), s.(payments := l, profiles := Upgrade(s.profiles, user)))
  }

  /**
   * verify_payment for the logged-in `user`. A missing or empty reference is
   * refused before the gateway is asked. A payment row is written, and the
   * user made premium, only when the gateway answers 200 with status
   * "success"; the row is a success for the user, with the gateway's amount,
   * under a reference not seen before. Every other outcome leaves the store
   * exactly as it was: the error page for a refusal or a status other than
   * "success", or a server error for an exception the view does not catch.
   */
  function VerifyPayment(s: Store, user: UserId, reference: Option<string>, gateway: string -> GatewayReply, now: int)
    : (out: Verified)
    requires user in s.usernames
    ensures reference.None? || reference == Some("") ==> out == Verified(MissingReference, s, [])
    ensures reference.Some? && reference.value != "" ==> out.queried == [reference.value]
    ensures out.store.usernames == s.usernames
    ensures out.store.payments == s.payments ==> out.store == s
    ensures out.store.payments == s.payments ==> out.response in {MissingReference, ErrorPage} || out.response.code == 500
    ensures reference.Some? && reference.value != "" && gateway(reference.value).NoReply? ==>
      out.response == ServerError(GatewayUnreachable) && out.store == s
    ensures reference.Some? && reference.value != "" && gateway(reference.value).Reply?
            && gateway(reference.value).code != 200 ==>
      out.response == ErrorPage && out.store == s
    ensures reference.Some? && reference.value != "" && gateway(reference.value) == Reply(200, None) ==>
      out.response == ServerError(InvalidJson) && out.store == s
    ensures reference.Some? && reference.value != "" && gateway(reference.value).Reply?
            && gateway(reference.value).code == 200 && gateway(reference.value).body.Some? ==>
      match Path(gateway(reference.value).body.value, ["data", "status"])
      case Err(f) => out.response == ServerError(f) && out.store == s
      case Ok(status) => status != JStr("success") ==> out.response == ErrorPage && out.store == s
    ensures reference.Some? && reference.value != "" && GatewaySuccess(gateway(reference.value)) ==>
      (out.response, out.store) == RecordVerified(s, user, reference.value, gateway(reference.value).body.value, now)
    ensures out.response.code == 500 ==>
      && out.store == s
      && reference.Some? && reference.value != ""
      && var reply := gateway(reference.value);
      || reply.NoReply?
      || (reply.code == 200 && reply.body.None?)
      || (reply.code == 200 && Path(reply.body.value, ["data", "status"]).Err?)
      || (&& GatewaySuccess(reply)
          && var row := VerifiedPayment(user, reference.value, reply.body.value, now);
          row.Err? || Insert(s.payments, row.value).Err?)
    ensures out.store.payments != s.payments ==>
      && reference.Some? && GatewaySuccess(gateway(reference.value))
      && var ref := reference.value;
      && ref !in s.payments
      && out.store.payments.Keys == s.payments.Keys + {ref}
      && (forall k :: k in s.payments ==> out.store.payments[k] == s.payments[k])
      && out.store.payments[ref].user == user
      && out.store.payments[ref].status == Success
      && ReportedCents(gateway(ref).body.value) == Ok(out.store.payments[ref].amountCents)
      && Path(gateway(ref).body.value, ["data", "currency"]).Ok?
      && Path(gateway(ref).body.value, ["data", "channel"]).Ok?
      && out.store.profiles.Keys == s.profiles.Keys + {user}
      && out.store.profiles[user].isPremium
      && (forall u :: u in s.profiles && u != user ==> out.store.profiles[u] == s.profiles[u])
      && out.response == SuccessPage(gateway(ref).body.value)
  {
    if reference.None? || reference.value == "" then Verified(MissingReference, s, [])
    else
      var ref := reference.value;
      match gateway(ref)
      case NoReply => Verified(ServerError(GatewayUnreachable), s, [ref])
      case Reply(code, body) =>
        if code != 200 then Verified(ErrorPage, s, [ref])
        else if body.None? then Verified(ServerError(InvalidJson), s, [ref])
        else
          var data := body.value;
          match Path(data, ["data", "status"])
          case Err(f) => Verified(ServerError(f), s, [ref])
          case Ok(status) =>
            if status != JStr("success") then Verified(ErrorPage, s, [ref])
            else
              var (response, s') := RecordVerified(s, user, ref, data, now);
              Verified(response, s', [ref])
  }

  /**
   * A confirmed charge with complete data and a fresh, storable reference is
   * recorded: the condition of the previous contract is also sufficient.
   */
  lemma VerifyRecordsConfirmedCharge(s: Store, user: UserId, ref: string, gateway: string -> GatewayReply, now: int,
                                     minor: int)
    requires user in s.usernames && ref != "" && ref !in s.payments
    requires GatewaySuccess(gateway(ref))
    requires var data := gateway(ref).body.value;
      && Path(data, ["data", "amount"]) == Ok(JNum(minor))
      && Path(data, ["data", "currency"]).Ok?
      && Path(data, ["data", "channel"]).Ok?
    requires |ref| <= MaxReferenceLength && AmountFits(minor)
    ensures var out := VerifyPayment(s, user, Some(ref), gateway, now);
      && out.store.payments.Keys == s.payments.Keys + {ref}
      && out.store.payments[ref] == NewPayment(user, ref, minor, Some(Success), now, gateway(ref).body)
      && out.store.profiles[user].isPremium
  {
    var data := gateway(ref).body.value;
    var row := NewPayment(user, ref, minor, Some(Success), now, Some(data));
    assert ReportedCents(data) == Ok(minor);
    assert VerifiedPayment(user, ref, data, now) == Ok(row);
    assert Insert(s.payments, row) == Ok(s.payments[ref := row]);
  }

  /**
   * A confirmed charge for a reference already recorded is not caught: the
   * unique constraint's error escapes as a 500 and the store is unchanged.
   */
  lemma VerifyDuplicateIsServerError(s: Store, user: UserId, ref: string, gateway: string -> GatewayReply, now: int)
    requires user in s.usernames && ref != "" && ref in s.payments
    requires GatewaySuccess(gateway(ref))
    requires VerifiedPayment(user, ref, gateway(ref).body.value, now).Ok?
    requires Storable(VerifiedPayment(user, ref, gateway(ref).body.value, now).value)
    ensures VerifyPayment(s, user, Some(ref), gateway, now) == Verified(ServerError(DuplicateReference), s, [ref])
  {
  }

  /** verify_payment keeps the store valid. */
  lemma VerifyPreservesValid(s: Store, user: UserId, reference: Option<string>, gateway: string -> GatewayReply, now: int)
    requires Valid(s) && user in s.usernames
    ensures Valid(VerifyPayment(s, user, reference, gateway, now).store)
  {
    var out := VerifyPayment(s, user, reference, gateway, now);
    if out.store.payments != s.payments {
      var ref := reference.value;
      var data := gateway(ref).body.value;
      assert out.store == RecordVerified(s, user, ref, data, now).1;
      InsertPreservesValid(s.payments, VerifiedPayment(user, ref, data, now).value);
    }
  }

  /**
   * Landing on the callback again for the same reference, with the gateway
   * giving the same answers, changes nothing more: at most one row per
   * reference, and no second upgrade.
   */
  lemma VerifyRepeatInert(s: Store, user: UserId, reference: Option<string>, gateway: string -> GatewayReply,
                          now1: int, now2: int)
    requires user in s.usernames
    ensures var first := VerifyPayment(s, user, reference, gateway, now1).store;
      VerifyPayment(first, user, reference, gateway, now2).store == first
  {
    var first := VerifyPayment(s, user, reference, gateway, now1).store;
    if first != s {
      var second := VerifyPayment(first, user, reference, gateway, now2);
      assert reference.value in first.payments;
      assert second.store.payments == first.payments;
    } else if reference.Some? && reference.value != "" && GatewaySuccess(gateway(reference.value)) {
      RecordVerifiedTimeless(s, user, reference.value, gateway(reference.value).body.value, now1, now2);
    }
  }

  /** Whether the record-and-upgrade step changes the store does not depend on the time. */
  lemma RecordVerifiedTimeless(s: Store, user: UserId, ref: string, data: Json, now1: int, now2: int)
    ensures RecordVerified(s, user, ref, data, now1).1 == s ==> RecordVerified(s, user, ref, data, now2).1 == s
  {
    VerifiedPaymentTimeless(user, ref, data, now1, now2);
    var p1 := VerifiedPayment(user, ref, data, now1);
    if p1.Ok? {
      var p2 := VerifiedPayment(user, ref, data, now2);
      assert Storable(p1.value) <==> Storable(p2.value);
    }
  }

  /** The row verify_payment builds depends on the time only through created_at. */
  lemma VerifiedPaymentTimeless(user: UserId, ref: string, data: Json, now1: int, now2: int)
    ensures VerifiedPayment(user, ref, data, now1).Ok? <==> VerifiedPayment(user, ref, data, now2).Ok?
    ensures VerifiedPayment(user, ref, data, now1).Ok? ==>
      VerifiedPayment(user, ref, data, now2).value == VerifiedPayment(user, ref, data, now1).value.(createdAt := now2)
  {
  }

  // ---------------------------------------------------------------------------
  // paystack_webhook

  /**
   * The parts of a webhook request the view reads: the HTTP method, the
   * x-paystack-signature header and the body, None when it is not UTF-8.
   */
  datatype WebhookRequest = WebhookRequest(httpMethod: string, signature: Option<string>, body: Option<string>)

  /** What paystack_webhook did: its response and the store after it. */
  datatype Handled = Handled(response: Response, store: Store)

  const NotPost: Response := JsonReply(400, "status", "failed")
  const MissingSignature: Response := JsonReply(403, "status", "missing signature")
  const InvalidSignature: Response := JsonReply(403, "status", "invalid signature")
  const Acknowledged: Response := JsonReply(200, "status", "success")

  const ChargeSuccess: string := "charge.success"

  predicate IsAscii(s: string) {
    forall i :: 0 <= i < |s| ==> s[i] as int < 128
  }

  /**
   * A request that passes every guard: a POST whose non-empty signature is
   * the digest `sign` computes over the body with the shared secret.
   */
  predicate Authentic(req: WebhookRequest, secret: string, sign: (string, string) -> string) {
    && req.httpMethod == "POST"
    && req.signature.Some? && req.signature.value != ""
    && req.body.Some?
    && IsAscii(req.signature.value)
    && req.signature.value == sign(secret, req.body.value)
  }

  /** User.objects.get(id=...) for the metadata's user id. */
  function FindUser(usernames: map<UserId, string>, id: Json): (r: Result<UserId, Fault>)
    ensures r.Ok? <==> id.JNum? && id.n in usernames
    ensures r.Ok? ==> r.value == id.n
  {
    if id.JNum? && id.n in usernames then Ok(id.n) else Err(UnknownUser)
  }

  /** The text a CharField stores for the payload's reference: strings as they are, integers printed. */
  function ReferenceText(j: Json): (r: Result<string, Fault>)
    ensures j.JStr? ==> r == Ok(j.s)
    ensures j.JNum? ==> r == Ok(IntToString(j.n))
    ensures r.Ok? <==> j.JStr? || j.JNum?
  {
    match j
    case JStr(t) => Ok(t)
    case JNum(n) => Ok(IntToString(n))
    case _ => Err(InvalidReference)
  }

  /** The row a charge.success payload asks for, before the database sees it. */
  function ChargePayment(usernames: map<UserId, string>, payload: Json, now: int): (r: Result<UserPayment, Fault>)
    ensures r.Ok? <==>
      && Path(payload, ["data", "reference"]).Ok?
      && Path(payload, ["data", "metadata", "user_id"]).Ok?
      && FindUser(usernames, Path(payload, ["data", "metadata", "user_id"]).value).Ok?
      && ReportedCents(payload).Ok?
      && Path(payload, ["data", "currency"]).Ok?
      && Path(payload, ["data", "channel"]).Ok?
      && ReferenceText(Path(payload, ["data", "reference"]).value).Ok?
    ensures r.Ok? ==> ReferenceText(Path(payload, ["data", "reference"]).value) == Ok(r.value.reference)
    ensures r.Ok? ==> r.value.user in usernames && r.value.status == Success
    ensures r.Ok? ==> Path(payload, ["data", "metadata", "user_id"]) == Ok(JNum(r.value.user))
    ensures r.Ok? ==> ReportedCents(payload) == Ok(r.value.amountCents)
    ensures r.Ok? ==> r.value.createdAt == now && r.value.rawResponse == Some(payload)
    ensures r.Ok? ==> r.value == NewPayment(r.value.user, r.value.reference, r.value.amountCents, Some(Success), now, Some(payload))
  {
    var refValue :- Path(payload, ["data", "reference"]);
    var userValue :- Path(payload, ["data", "metadata", "user_id"]);
    var user :- FindUser(usernames, userValue);
    var cents :- ReportedCents(payload);
    var currency :- Path(payload, ["data", "currency"]);
    var channel :- Path(payload, ["data", "channel"]);
    var reference :- ReferenceText(refValue);
    Ok(NewPayment(user, reference, cents, Some(Success), now, Some(payload)))
  }

  /** The body of the try block: parse, dispatch on the event, record a charge. */
  function Process(s: Store, body: string, parse: string -> Option<Json>, now: int): (r: Result<Store, Fault>)
    ensures r.Err? <==>
      || parse(body).None?
      || Get(parse(body).value, "event").Err?
      || (&& Get(parse(body).value, "event") == Ok(JStr(ChargeSuccess))
          && var row := ChargePayment(s.usernames, parse(body).value, now);
          row.Err? || Insert(s.payments, row.value).Err?)
    ensures parse(body).None? ==> r == Err(InvalidJson)
    ensures (&& parse(body).Some?
             && Get(parse(body).value, "event") == Ok(JStr(ChargeSuccess))
             && ChargePayment(s.usernames, parse(body).value, now).Ok?
             && Insert(s.payments, ChargePayment(s.usernames, parse(body).value, now).value).Ok?)
      ==> r == Ok(s.(payments := Insert(s.payments, ChargePayment(s.usernames, parse(body).value, now).value).value))
    ensures (parse(body).Some? && Get(parse(body).value, "event").Ok?
             && Get(parse(body).value, "event").value != JStr(ChargeSuccess)) ==> r == Ok(s)
    ensures r.Ok? ==> r.value.usernames == s.usernames && r.value.profiles == s.profiles
    ensures r.Ok? && r.value.payments != s.payments ==>
      && parse(body).Some?
      && Get(parse(body).value, "event") == Ok(JStr(ChargeSuccess))
      && ChargePayment(s.usernames, parse(body).value, now).Ok?
      && Insert(s.payments, ChargePayment(s.usernames, parse(body).value, now).value) == Ok(r.value.payments)
  {
    match parse(body)
    case None => Err(InvalidJson)
    case Some(payload) =>
      var event :- Get(payload, "event");
      if event != JStr(ChargeSuccess) then Ok(s)
      else
        var p :- ChargePayment(s.usernames, payload, now);
        var l :- Insert(s.payments, p);
        Ok(s.(payments := l))
  }

  /**
   * paystack_webhook. The guards run in a fixed order (method, signature
   * present, body decodable, digest comparable, digest equal) and each
   * refusal leaves the store untouched. Past them, any failure answers 400
   * and leaves the store untouched too. The webhook never changes a profile:
   * it records payments but does not make anyone premium.
   */
  function PaystackWebhook(s: Store, req: WebhookRequest, secret: string, sign: (string, string) -> string,
                           parse: string -> Option<Json>, now: int): (out: Handled)
    ensures req.httpMethod != "POST" ==> out == Handled(NotPost, s)
    ensures req.httpMethod == "POST" && (req.signature.None? || req.signature.value == "") ==>
      out == Handled(MissingSignature, s)
    ensures (&& req.httpMethod == "POST" && req.signature.Some? && req.signature.value != "" && req.body.Some?
             && IsAscii(req.signature.value) && IsAscii(sign(secret, req.body.value))
             && req.signature.value != sign(secret, req.body.value))
      ==> out == Handled(InvalidSignature, s)
    ensures req.httpMethod == "POST" && req.signature.Some? && req.signature.value != "" && req.body.None? ==>
      out == Handled(ServerError(UndecodableBody), s)
    ensures (&& req.httpMethod == "POST" && req.signature.Some? && req.signature.value != "" && req.body.Some?
             && (!IsAscii(req.signature.value) || !IsAscii(sign(secret, req.body.value))))
      ==> out == Handled(ServerError(NonAsciiDigest), s)
    ensures out.store.usernames == s.usernames && out.store.profiles == s.profiles
    ensures out.response != Acknowledged ==> out.store == s
    ensures Authentic(req, secret, sign) ==>
      && (out.response == Acknowledged <==> Process(s, req.body.value, parse, now).Ok?)
      && (Process(s, req.body.value, parse, now).Ok? ==> out.store == Process(s, req.body.value, parse, now).value)
      && (Process(s, req.body.value, parse, now).Err? ==>
            out.response == Response(400, ErrorReport(Process(s, req.body.value, parse, now).error)))
    ensures out.store.payments != s.payments ==>
      && Authentic(req, secret, sign)
      && s.payments.Keys < out.store.payments.Keys
      && |out.store.payments| == |s.payments| + 1
      && (forall k :: k in s.payments ==> out.store.payments[k] == s.payments[k])
      && parse(req.body.value).Some?
      && ChargePayment(s.usernames, parse(req.body.value).value, now).Ok?
      && var row := ChargePayment(s.usernames, parse(req.body.value).value, now).value;
      && row.reference !in s.payments
      && out.store.payments == s.payments[row.reference := row]
  {
    if req.httpMethod != "POST" then Handled(NotPost, s)
    else if req.signature.None? || req.signature.value == "" then Handled(MissingSignature, s)
    else if req.body.None? then Handled(ServerError(UndecodableBody), s)
    else
      var computed := sign(secret, req.body.value);
      if !IsAscii(computed) || !IsAscii(req.signature.value) then Handled(ServerError(NonAsciiDigest), s)
      else if computed != req.signature.value then Handled(InvalidSignature, s)
      else
        match Process(s, req.body.value, parse, now)
        case Ok(s') => Handled(Acknowledged, s')
        case Err(f) => Handled(Response(400, ErrorReport(f)), s)
  }

  /** A verified event other than charge.success is acknowledged and has no effect. */
  lemma OtherEventsInert(s: Store, req: WebhookRequest, secret: string, sign: (string, string) -> string,
                         parse: string -> Option<Json>, now: int)
    requires Authentic(req, secret, sign)
    requires parse(req.body.value).Some? && parse(req.body.value).value.JObj?
    requires Get(parse(req.body.value).value, "event") != Ok(JStr(ChargeSuccess))
    ensures PaystackWebhook(s, req, secret, sign, parse, now) == Handled(Acknowledged, s)
  {
  }

  /**
   * A verified charge.success whose data names an existing user and carries
   * amount, currency, channel and a fresh, storable reference is recorded as
   * exactly one success row for that user, with the amount in cents.
   */
  lemma ChargeRecorded(s: Store, req: WebhookRequest, secret: string, sign: (string, string) -> string,
                       parse: string -> Option<Json>, now: int,
                       ref: string, user: UserId, minor: int)
    requires Authentic(req, secret, sign)
    requires parse(req.body.value).Some?
    requires var payload := parse(req.body.value).value;
      && Get(payload, "event") == Ok(JStr(ChargeSuccess))
      && Path(payload, ["data", "reference"]) == Ok(JStr(ref))
      && Path(payload, ["data", "metadata", "user_id"]) == Ok(JNum(user))
      && Path(payload, ["data", "amount"]) == Ok(JNum(minor))
      && Path(payload, ["data", "currency"]).Ok?
      && Path(payload, ["data", "channel"]).Ok?
    requires user in s.usernames && ref !in s.payments
    requires |ref| <= MaxReferenceLength && AmountFits(minor)
    ensures var out := PaystackWebhook(s, req, secret, sign, parse, now);
      && out.response == Acknowledged
      && out.store.payments.Keys == s.payments.Keys + {ref}
      && out.store.payments[ref] == NewPayment(user, ref, minor, Some(Success), now, parse(req.body.value))
      && out.store.profiles == s.profiles
  {
    var payload := parse(req.body.value).value;
    var row := NewPayment(user, ref, minor, Some(Success), now, Some(payload));
    assert ReportedCents(payload) == Ok(minor);
    assert ChargePayment(s.usernames, payload, now) == Ok(row);
    assert Insert(s.payments, row) == Ok(s.payments[ref := row]);
    assert Process(s, req.body.value, parse, now) == Ok(s.(payments := s.payments[ref := row]));
  }

  /**
   * The gateway may deliver the same webhook again: the redelivery leaves
   * the store as the first delivery left it, so one reference yields one row.
   */
  lemma WebhookRedeliveryInert(s: Store, req: WebhookRequest, secret: string, sign: (string, string) -> string,
                               parse: string -> Option<Json>, now1: int, now2: int)
    ensures var first := PaystackWebhook(s, req, secret, sign, parse, now1).store;
      PaystackWebhook(first, req, secret, sign, parse, now2).store == first
  {
    var first := PaystackWebhook(s, req, secret, sign, parse, now1).store;
    if Authentic(req, secret, sign) && parse(req.body.value).Some? {
      var payload := parse(req.body.value).value;
      var p1 := ChargePayment(s.usernames, payload, now1);
      var p2 := ChargePayment(s.usernames, payload, now2);
      assert p1.Ok? <==> p2.Ok?;
      if p1.Ok? {
        assert p2.value == p1.value.(createdAt := now2);
        assert Storable(p1.value) <==> Storable(p2.value);
      }
    }
  }

  /**
   * A reference the webhook recorded is never recorded again by
   * verify_payment, and a reference verify_payment recorded is never
   * overwritten by the webhook.
   */
  lemma ChannelsRecordOnce(s: Store, user: UserId, ref: string, gateway: string -> GatewayReply, now: int,
                           req: WebhookRequest, secret: string, sign: (string, string) -> string,
                           parse: string -> Option<Json>)
    requires user in s.usernames && ref in s.payments
    ensures VerifyPayment(s, user, Some(ref), gateway, now).store == s
    ensures var after := PaystackWebhook(s, req, secret, sign, parse, now).store.payments;
      ref in after && after[ref] == s.payments[ref]
  {
  }

  /** The webhook keeps the store valid. */
  lemma WebhookPreservesValid(s: Store, req: WebhookRequest, secret: string, sign: (string, string) -> string,
                              parse: string -> Option<Json>, now: int)
    requires Valid(s)
    ensures Valid(PaystackWebhook(s, req, secret, sign, parse, now).store)
  {
    var out := PaystackWebhook(s, req, secret, sign, parse, now);
    if out.store.payments != s.payments {
      var payload := parse(req.body.value).value;
      InsertPreservesValid(s.payments, ChargePayment(s.usernames, payload, now).value);
    }
  }

  /** Once premium, always premium: neither payment view takes the flag away. */
  lemma PremiumNeverRevoked(s: Store, u: UserId, user: UserId, reference: Option<string>,
                            gateway: string -> GatewayReply, req: WebhookRequest, secret: string,
                            sign: (string, string) -> string, parse: string -> Option<Json>, now: int)
    requires user in s.usernames
    requires u in s.profiles && s.profiles[u].isPremium
    ensures var after := VerifyPayment(s, user, reference, gateway, now).store;
      u in after.profiles && after.profiles[u].isPremium
    ensures PaystackWebhook(s, req, secret, sign, parse, now).store.profiles[u].isPremium
  {
  }

  /** A charge.success for reference r1, 500 pesewas (5.00 GHS) by mobile money, for user 7. */
  const ExamplePayload: Json :=
    JObj(map[
      "event" := JStr("charge.success"),
      "data" := JObj(map[
        "reference" := JStr("r1"),
        "amount" := JNum(500),
        "currency" := JStr("GHS"),
        "channel" := JStr("mobile_money"),
        "metadata" := JObj(map["user_id" := JNum(7)])])])

  lemma ExampleFields()
    ensures Get(ExamplePayload, "event") == Ok(JStr(ChargeSuccess))
    ensures Path(ExamplePayload, ["data", "reference"]) == Ok(JStr("r1"))
    ensures Path(ExamplePayload, ["data", "metadata", "user_id"]) == Ok(JNum(7))
    ensures Path(ExamplePayload, ["data", "amount"]) == Ok(JNum(500))
    ensures Path(ExamplePayload, ["data", "currency"]).Ok?
    ensures Path(ExamplePayload, ["data", "channel"]).Ok?
  {
    var data := ExamplePayload.fields["data"];
    assert Path(data, ["reference"]) == Ok(JStr("r1"));
    assert Path(data.fields["metadata"], ["user_id"]) == Ok(JNum(7));
    assert Path(data, ["metadata", "user_id"]) == Ok(JNum(7));
    assert Path(data, ["amount"]) == Ok(JNum(500));
    assert Path(data, ["currency"]) == Ok(JStr("GHS"));
    assert Path(data, ["channel"]) == Ok(JStr("mobile_money"));
  }

  lemma FiveCedis(row: UserPayment, username: string)
    requires row.status == Success && row.amountCents == 500
    ensures Describe(row, username) == username + " - success - 5.00 GHS"
  {
    assert NatToString(5) == "5";
    assert DigitChar(0) == '0';
    assert FormatCents(500) == "5.00";
  }

  /**
   * Signed delivery of the example payload: one success row r1 of 5.00 GHS
   * for user 7, described as "<username> - success - 5.00 GHS", while user
   * 7's profile is left as it was.
   */
  lemma WebhookExample(s: Store, secret: string, sign: (string, string) -> string,
                       parse: string -> Option<Json>, body: string, now: int)
    requires parse(body) == Some(ExamplePayload)
    requires 7 in s.usernames && "r1" !in s.payments
    requires sign(secret, body) != "" && IsAscii(sign(secret, body))
    ensures var out := PaystackWebhook(s, WebhookRequest("POST", Some(sign(secret, body)), Some(body)), secret, sign, parse, now);
      && out.response == Acknowledged
      && "r1" in out.store.payments
      && out.store.payments["r1"].user == 7
      && out.store.payments["r1"].status == Success
      && Describe(out.store.payments["r1"], s.usernames[7]) == s.usernames[7] + " - success - 5.00 GHS"
      && out.store.profiles == s.profiles
  {
    var req := WebhookRequest("POST", Some(sign(secret, body)), Some(body));
    assert Authentic(req, secret, sign);
    ExampleFields();
    ChargeRecorded(s, req, secret, sign, parse, now, "r1", 7, 500);
    var out := PaystackWebhook(s, req, secret, sign, parse, now);
    FiveCedis(out.store.payments["r1"], s.usernames[7]);
  }
}
