# GLINAX payments and usage quotas, modelled in Dafny

This project models the payment and usage-accounting core of the GLINAX
Django back end:

- **Paystack payment ingestion** (`gweb/gweb/payments/views.py`):
  `verify_payment` asks the gateway about a reference after the payment
  redirect. `paystack_webhook` accepts a payment event that the gateway
  signs with HMAC-SHA-512. Both can write a `UserPayment` row. Only
  `verify_payment` upgrades the user to premium.
- **Free-tier quota ledger** (same file): `generate_question` and
  `generate_audio` gate a request and then consume quota from a per-user
  profile. `reset_usage` clears the counters of free profiles each month.
- **The `UserPayment` record** (`gweb/gweb/payments/models.py`): it has three
  status choices, `pending` is the default status, the reference is unique
  and at most 100 characters, and the amount is a decimal with 2 decimal
  places and at most 10 digits. `__str__` renders the record as text.
- **`get_client_ip`** (`gweb/gweb/chat/utils.py`): returns the first entry of
  `X-Forwarded-For`, stripped of whitespace, or `REMOTE_ADDR` when the
  header is absent or empty.

The model is functional. The database is a `Store` value that holds users,
profiles and a payments table. The table is keyed by reference. Each view is
a pure function from the store and the request to a response and a new store.
Some inputs come from outside the code and are passed in as parameters: the
gateway's reply (`gateway: string -> GatewayReply`), the HMAC-SHA-512 digest
(`sign: (string, string) -> string`), the JSON parser (`parse`), the clock
(`now`) and the request headers. Django either answers an exception with
a 500 or the view catches it. Each exception is a `Faults.Fault` constructor.

Files: `wrappers.dfy` (Option/Result), `faults.dfy`, `json.dfy` (JSON values
and `value[key]`), `http.dfy` (responses), `decimal.dfy` (Python's `str(int)`
and `str(Decimal)` with two places), `payment_records.dfy` (models.py),
`chat_utils.dfy` (`get_client_ip`), `usage_views.dfy` and `payment_views.dfy`
(views.py).

Amounts are integer cents. The gateway sends the amount in minor units `n`.
The view stores `n / 100` as a float in a `DecimalField(max_digits=10,
decimal_places=2)`. The database accepts only |n| < 10^10, and every such
n is below 2^53. So the float quotient rounds back to exactly `n` cents, and
the cents model is exact for every amount the table can hold.

## Behaviour of the code worth knowing

- `paystack_webhook` writes the row but never touches a profile, so a
  payment seen only by the webhook makes nobody premium.
  `PaymentViews.PaystackWebhook` proves that no profile changes.
- `create` is called without looking up the reference first, so the unique
  constraint rejects a second delivery. `verify_payment` does not catch that
  error, so the answer is a 500 (`VerifyDuplicateIsServerError`).
  `paystack_webhook` catches it and answers 400. In both cases the table is
  unchanged, which `VerifyRepeatInert` and `WebhookRedeliveryInert` prove.
- `verify_payment` has no `try`. A gateway body that is not JSON, or that
  lacks a key, makes the view fail with a 500 instead of showing the error
  page.
- `completed_at` is never set. Rows are created with it empty, including
  successful ones.

## Model

| member | source | states |
|---|---|---|
| PaymentRecords.ParseStatus | gweb/gweb/payments/models.py:6-10 | a value passes validation against STATUS_CHOICES exactly when it is pending, success or failed, and then names that choice (Django applies this check only in full_clean, which the views never call) |
| PaymentRecords.StatusRoundTrip | gweb/gweb/payments/models.py:6-15 | every status is stored as a valid choice and read back as itself |
| PaymentRecords.NewPayment | gweb/gweb/payments/models.py:15-17 | a record created without a status is pending; created_at is the insertion time and completed_at is empty |
| PaymentRecords.Insert | gweb/gweb/payments/models.py:13-14 | an insert succeeds exactly when the reference is new, at most 100 characters, and the amount fits 10 digits with 2 decimals; it then adds exactly that row and changes no other row; a duplicate reference fails with the unique-constraint error |
| PaymentRecords.InsertPreservesValid | gweb/gweb/payments/models.py:13-14 | a successful insert keeps every row under its own reference and within the column limits |
| PaymentRecords.InsertOnce | gweb/gweb/payments/models.py:13 | a second insert with the same reference fails, whatever the second row holds |
| PaymentRecords.Describe | gweb/gweb/payments/models.py:20-21 | the text starts with "<username> - ", ends with " GHS", and the status word follows the username |
| PaymentRecords.DescribeRoundTrip | gweb/gweb/payments/models.py:20-21 | "<username> - <status> - <amount> GHS" can be parsed back to the record's status and amount |
| Decimal.FormatCents | gweb/gweb/payments/models.py:14 | a stored amount prints with exactly two digits after the point, and with a minus sign exactly when it is negative |
| Decimal.IntToString | gweb/gweb/payments/views.py:117-123 | str() of an integer reference is a numeral that reads back as the same integer, with a minus sign exactly when it is negative |
| Decimal.CentsRoundTrip | gweb/gweb/payments/models.py:14 | an amount printed with two decimal places reads back as the same number of cents |
| Decimal.FormatCentsInjective | gweb/gweb/payments/models.py:14 | two different amounts never print the same |
| Decimal.CanonicalRoundTrip | gweb/gweb/payments/models.py:21 | a numeral without superfluous leading zeros is exactly what str() prints for its value |
| ChatUtils.IsSpace | gweb/gweb/chat/utils.py:35 | space, tab, newline and carriage return are whitespace to strip(); digits, letters, '.', ':' and ',' are not, so strip() never cuts into an address |
| ChatUtils.FirstSegment | gweb/gweb/chat/utils.py:35 | split(',')[0] is a prefix without a comma that reaches either the end or the first comma |
| ChatUtils.FirstSegmentUnique | gweb/gweb/chat/utils.py:35 | any comma-free prefix that reaches the end or a comma is the first segment |
| ChatUtils.Strip | gweb/gweb/chat/utils.py:35 | strip() keeps a contiguous middle part; everything removed is whitespace and the kept part has no whitespace at either end |
| ChatUtils.StripUnique | gweb/gweb/chat/utils.py:35 | any cut with whitespace outside and non-whitespace ends gives the same text as strip() |
| ChatUtils.GetClientIp | gweb/gweb/chat/utils.py:32-36 | a non-empty forwarded header gives an address with no comma and no whitespace at either end; an absent or empty header gives REMOTE_ADDR, which may be absent |
| ChatUtils.ClientIpIsFirstEntry | gweb/gweb/chat/utils.py:35 | the address from the header is the stripped text before the header's first comma |
| ChatUtils.SingleEntryHeader | gweb/gweb/chat/utils.py:35 | a header with no comma yields the whole header, stripped |
| ChatUtils.BlankFirstEntry | gweb/gweb/chat/utils.py:34-35 | a header whose first entry is only whitespace yields the empty address, not REMOTE_ADDR |
| UsageViews.AskQuestion | gweb/gweb/payments/views.py:141-153 | a free account is refused exactly when it has 20 or more questions or asks for theory, true_false or fill_in; the limit message wins over the type message; a refusal changes nothing; a granted free request adds one; a premium profile never changes |
| UsageViews.GenerateQuestion | gweb/gweb/payments/views.py:136-153 | the type defaults to mcq; a user without a profile gets a server error; no other user's profile changes |
| UsageViews.AskAudio | gweb/gweb/payments/views.py:160-169 | a free account is refused exactly when used + minutes > 10; otherwise it is charged the minutes; a premium profile never changes |
| UsageViews.GenerateAudio | gweb/gweb/payments/views.py:156-169 | minutes defaults to 1.0; a user without a profile gets a server error; no other user's profile changes |
| UsageViews.ResetUsage | gweb/gweb/payments/views.py:171-177 | every free profile has all three counters at 0 afterwards and stays free; premium profiles are unchanged; no profile appears or disappears |
| UsageViews.ResetIdempotent | gweb/gweb/payments/views.py:171-177 | a second reset changes nothing |
| UsageViews.ResetRestoresQuota | gweb/gweb/payments/views.py:171-177 | after a reset a free user is granted an mcq question and any request of up to 10 audio minutes |
| UsageViews.QuestionCeilingHolds | gweb/gweb/payments/views.py:141-151 | over any run of requests a free counter rises by exactly the number granted and never passes 20 once at or below it; at 20 or more nothing is granted |
| UsageViews.PremiumQuestionsUnmetered | gweb/gweb/payments/views.py:141-151 | a premium account is granted every request of any run and its profile never changes |
| UsageViews.AudioCeilingHolds | gweb/gweb/payments/views.py:160-167 | over any run, whatever the signs of the minutes, a free account is charged exactly what it was granted and stays within 10 minutes once within them |
| UsageViews.NegativeMinutesRefund | gweb/gweb/payments/views.py:158-167 | a negative minutes request is granted to a free account and lowers its recorded usage |
| PaymentViews.MinorUnits | gweb/gweb/payments/views.py:69 | amount / 100 succeeds on numbers (and booleans) and fails on every other JSON value; a number n is n cents |
| PaymentViews.Upgrade | gweb/gweb/payments/views.py:77-79 | the user's profile, created if missing, becomes premium and no other profile changes |
| PaymentViews.VerifiedPayment | gweb/gweb/payments/views.py:66-74 | a row is built exactly when data.amount is a number and data.currency and data.channel are present; it is a success for the caller, with the caller's reference, the gateway's amount in cents and the data kept; a missing or non-numeric amount fails with that fault |
| PaymentViews.RecordVerified | gweb/gweb/payments/views.py:66-81 | create() runs before the upgrade: when the row cannot be built or inserted the answer is a 500 with that fault and nothing changes; otherwise the row is inserted, the caller becomes premium and the success page shows the data; the store changes exactly when the answer is not a 500 |
| PaymentViews.VerifyPayment | gweb/gweb/payments/views.py:51-82 | a missing or empty reference gives 400 before any gateway call and changes nothing; otherwise the gateway is asked once; no reply is a 500, a non-200 reply shows the error page, a 200 reply without JSON or without data.status is a 500, and a status other than "success" shows the error page, each leaving the store unchanged; a confirmed charge gets exactly what the record step gives, so a refused row is a 500 and never the error page; a 500 arises only from those causes or a refused row; a row is written only when the gateway reports success and the reference is new; the row is a success for the caller with the gateway's amount, and currency and channel were present; the caller ends premium and no other profile changes |
| PaymentViews.VerifyDuplicateIsServerError | gweb/gweb/payments/views.py:62-74 | a confirmed charge for a reference already recorded answers 500 with the unique-constraint error and leaves the store unchanged |
| PaymentViews.VerifyRecordsConfirmedCharge | gweb/gweb/payments/views.py:62-81 | a confirmed charge with amount, currency and channel present and a fresh, storable reference is recorded as one success row for the caller with the gateway's amount in cents, and the caller becomes premium |
| PaymentViews.VerifyPreservesValid | gweb/gweb/payments/views.py:66-79 | verify_payment keeps every row under its reference, within the column limits and owned by an existing user |
| PaymentViews.VerifyRepeatInert | gweb/gweb/payments/views.py:62-82 | a second callback for the same reference, with the gateway giving the same answer both times, leaves the store as the first left it |
| PaymentViews.FindUser | gweb/gweb/payments/views.py:122 | the metadata user id resolves exactly when it is an existing user's id |
| PaymentViews.ReferenceText | gweb/gweb/payments/views.py:117-123 | a string reference is stored as it is, an integer as its decimal text (`str(n)`, which reads back as n), and anything else fails |
| PaymentViews.ChargePayment | gweb/gweb/payments/views.py:117-129 | a row is built exactly when data.reference, data.metadata.user_id naming an existing user, a numeric data.amount, data.currency and data.channel are all present and the reference can be stored as text; the row is a success for that user, under the text of data.reference, with the amount in cents, the payload kept, created_at set and completed_at empty |
| PaymentViews.Process | gweb/gweb/payments/views.py:112-131 | the handler fails exactly when the body is not JSON, the payload is not an object, or the event is charge.success and its row cannot be built or inserted; an unparseable body fails as invalid JSON; any other event succeeds with the store unchanged; profiles and users never change; a charge.success whose row can be built and inserted is recorded: the store gains exactly that row; a row is added only for a charge.success payload, and it is that payload's row |
| PaymentViews.PaystackWebhook | gweb/gweb/payments/views.py:86-133 | non-POST gives 400, then a missing signature gives 403, then an undecodable body or a non-ASCII digest gives 500, then a wrong signature gives 403, each with no change; an authentic request is acknowledged exactly when the handler succeeds, and then the store is the handler's, otherwise it gets 400 carrying the handler's fault; no profile ever changes; any other reply leaves the store unchanged; a changed table holds exactly one new row, the one built from the payload's user, amount and reference, and keeps every old one |
| PaymentViews.OtherEventsInert | gweb/gweb/payments/views.py:114-131 | an authentic event other than charge.success is acknowledged and changes nothing |
| PaymentViews.ChargeRecorded | gweb/gweb/payments/views.py:116-131 | an authentic, complete charge.success for an existing user with a fresh reference adds exactly one success row with amount data.amount cents and leaves profiles unchanged |
| PaymentViews.WebhookRedeliveryInert | gweb/gweb/payments/views.py:116-133 | redelivering the same webhook leaves the store as the first delivery left it |
| PaymentViews.ChannelsRecordOnce | gweb/gweb/payments/views.py:121-129 | a reference already recorded is never recorded again by verify_payment, and the webhook keeps that row exactly as it was |
| PaymentViews.WebhookPreservesValid | gweb/gweb/payments/views.py:121-129 | the webhook keeps every row under its reference, within the column limits and owned by an existing user |
| PaymentViews.PremiumNeverRevoked | gweb/gweb/payments/views.py:76-79 | neither payment view takes premium away from a profile |
| PaymentViews.WebhookExample | gweb/gweb/payments/views.py:116-131 | the signed charge.success for r1, 500 minor units, user 7, adds a success row described as "<username> - success - 5.00 GHS" and leaves user 7's profile as it was |

## Left out

- `initiate_payment` (views.py:15-48) is omitted. It makes an outbound HTTP call and redirects, and has no logic to model.
- The HTTP call in `verify_payment` is not modelled. Its reply is the `gateway` parameter, and `queried` records which reference was sent. A call that raises is the `NoReply` answer, which gives a 500. A call that never returns is not covered: `requests.get` has no timeout, so such a request hangs.
- HMAC-SHA-512 is the uninterpreted `sign` parameter. The constant-time comparison of `hmac.compare_digest` is modelled as string equality, and its timing behaviour cannot be stated. The model does keep its TypeError on non-ASCII strings, which gives a 500.
- JSON parsing is the `parse` parameter, and the gateway body is already parsed, or absent when it is not JSON. Non-integer JSON numbers are not modelled.
- Float arithmetic is not modelled. `audio_minutes_used` and `minutes` are exact reals, so IEEE rounding, NaN and infinities are not covered. Converting the `minutes` query string with `float()` is not covered either: the view receives the number already converted.
- The text of an exception message (`str(e)` in the webhook's error body) is not modelled. The body carries the `Fault` instead.
- The database is assumed to enforce `max_length=100` and `max_digits=10` when a row is inserted. Some backends (SQLite) do not.
- The request, response, template and decorator plumbing of Django is left out. `@login_required` becomes the requirement that the caller is an existing user. `@csrf_exempt` has no effect on the logic.
- Concurrency is out of scope for a sequential model. This includes the lost-update race between consume and reset, and two deliveries racing on one reference.
- `generate_chat_title_from_openai` (utils.py:7-28) is omitted. It is a thin wrapper over an external LLM client.
- The front-end payment page is not modelled. It is UI only.
- `get_status_display` labels (`Pending`, `Success`, `Failed`) are never used by the views and are not modelled.
- `image_actions` is only ever reset. No view in this core increments it.
- PaymentViews.FindUser: only a JSON integer resolves to a user. Django would also accept a numeric string, or `true` as id 1, so the model treats those as unknown users.
- PaymentViews.ReferenceText: a boolean, list or object reference is treated as a failure. Django would store its `str()` text.
- `currency=` and `payment_method=`: both views pass these keywords to `UserPayment.objects.create`, but `models.py` declares neither field. With the code as written, every `create` call raises TypeError. `verify_payment` would then answer 500 after every confirmed charge, writing no row and upgrading nobody. `paystack_webhook` would answer 400 to every charge.success and write no row. The model drops the two keywords, so its successful paths describe the recording the views evidently intend, not what this `models.py` allows. It still performs the two key lookups, which fail when a key is missing.
- `UserProfile`: `views.py` imports it from `models.py`, which defines no such model, so as written the module fails to import. The model assumes the profile exists with the fields the views use. The profile that `get_or_create` makes is assumed to be free with zero counters.
- PaymentRecords.Describe: the amount is printed as a DecimalField reads it back from the database, with two decimal places. The instance that `create` returns still holds the float it was given, and its `str()` prints, for example, `5.0` instead of `5.00`. That form is not modelled.
- UsageViews.AudioCeilingHolds: the bound is about exact reals. `float()` also accepts "nan", and `used + nan > 10` is false, so the view grants that request and stores NaN as the usage. On a backend that stores NaN, every later request is then granted until the next reset. The model has no NaN, so it does not state this.
- PaymentViews.VerifyRepeatInert: the lemma holds only when the gateway gives the same answer to both callbacks. If the first answer is not "success" and the second is, the second callback records the payment; ChannelsRecordOnce covers every answer once a row exists.
