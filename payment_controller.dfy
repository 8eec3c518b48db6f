/** The payment controller: `initiatePayment` builds the gateway's pay request, sends it, and
    only then records the payment; `paymentCallback` asks the gateway for the transaction's
    status and overwrites the stored status of the matching record.

    The controller writes its own field names (`transactionId`, `paymentStatus`) and status
    values ('Pending', 'Completed', 'Failed'), not those the Payment schema declares; the
    records here follow the controller, and `ControllerDocumentFailsSchema` states the gap.
    The gateway, the payments collection's failures and the clock are parameters. */
module PaymentController {
  import opened Common
  import opened JsValues
  import opened Primitives
  import Decimal
  import PaymentSchema

  /** The merchant's gateway settings and the two service base URLs. */
  datatype Config = Config(
    merchantId: string,
    saltKey: string,
    gatewayBaseUrl: string,
    frontendUrl: string,
    backendUrl: string)

  const PayPath: string := "/pg/v1/pay"
  const StatusPathPrefix: string := "/pg/v1/status/"
  /** The salt key index written after `###` (the number 1 concatenated to a string). */
  const KeyIndex: string := "1"
  const SuccessCode: string := "PAYMENT_SUCCESS"
  const RateLimitedMessage: string := "Please wait a moment before trying again"
  const InitiationFailedMessage: string := "Payment initiation failed"
  const CallbackOkMessage: string := "Payment status updated successfully"
  const CallbackFailedMessage: string := "Failed to process payment callback"

  // ---------------------------------------------------------------------------------------
  // The merchant transaction id

  /** `TXN_${Date.now()}_${Math.random().toString(36).slice(2)}`: the clock reading in decimal
      and the random base-36 digits. */
  function TransactionId(nowMs: nat, randomDigits: string): (id: string)
    ensures |id| > 4 && id[..4] == "TXN_"
  {
    "TXN_" + Decimal.Show(nowMs) + "_" + randomDigits
  }

  /** The position of the first `ch` in `h`, or `|h|` when there is none. */
  function FirstOf(h: string, ch: char): (i: nat)
    ensures i <= |h|
    ensures i < |h| ==> h[i] == ch
    ensures forall j | 0 <= j < i :: h[j] != ch
  {
    if h == [] || h[0] == ch then 0 else 1 + FirstOf(h[1..], ch)
  }

  /** A separator that the left part does not contain is found right after it. */
  lemma {:induction false} FirstOfJoined(a: string, b: string, ch: char)
    requires ch !in a
    ensures FirstOf(a + [ch] + b, ch) == |a|
  {
    if a != [] {
      assert (a + [ch] + b)[1..] == a[1..] + [ch] + b;
      assert a[0] in a;
      FirstOfJoined(a[1..], b, ch);
    }
  }

  /** Two strings joined by a separator that neither left part contains split back uniquely. */
  lemma SplitAtSeparator(a: string, b: string, c: string, d: string, sep: char)
    requires sep !in a && sep !in c
    requires a + [sep] + b == c + [sep] + d
    ensures a == c && b == d
  {
    var x := a + [sep] + b;
    FirstOfJoined(a, b, sep);
    FirstOfJoined(c, d, sep);
    assert |a| == |c|;
    assert a == x[..|a|] && c == x[..|c|];
    assert b == x[|a| + 1..] && d == x[|c| + 1..];
  }

  /** Different clock readings or random digits give different transaction ids: the decimal
      timestamp contains no `_`, so the id splits back into its two parts. */
  lemma TransactionIdInjective(t1: nat, r1: string, t2: nat, r2: string)
    ensures TransactionId(t1, r1) == TransactionId(t2, r2) <==> t1 == t2 && r1 == r2
  {
    if TransactionId(t1, r1) == TransactionId(t2, r2) {
      var a, c := Decimal.Show(t1), Decimal.Show(t2);
      Decimal.DigitsExclude(a, '_');
      Decimal.DigitsExclude(c, '_');
      assert TransactionId(t1, r1)[4..] == a + ['_'] + r1;
      assert TransactionId(t2, r2)[4..] == c + ['_'] + r2;
      SplitAtSeparator(a, r1, c, r2, '_');
      Decimal.ShowInjective(t1, t2);
    }
  }

  // ---------------------------------------------------------------------------------------
  // The pay payload

  /** A member of an object with unique keys is what a read of its key finds. */
  lemma {:induction false} LookupAt(ms: seq<Member>, i: nat)
    requires UniqueKeys(ms) && i < |ms|
    ensures Lookup(ms, ms[i].key) == Value(ms[i].value)
  {
    if i > 0 {
      assert ms[0].key != ms[i].key;
      assert ms[1..][i - 1] == ms[i];
      LookupAt(ms[1..], i - 1);
    }
  }

  /** The object `initiatePayment` serialises for the gateway, in its member order. */
  function PayPayload(cfg: Config, mtid: string, amount: int): (payload: seq<Member>)
    ensures UniqueKeys(payload)
    ensures Lookup(payload, "merchantId") == Value(JStr(cfg.merchantId))
    ensures Lookup(payload, "merchantTransactionId") == Value(JStr(mtid))
    ensures Lookup(payload, "amount") == Value(JNum(amount * 100))
    ensures Lookup(payload, "redirectUrl") == Value(JStr(cfg.frontendUrl + "/payment-status"))
    ensures Lookup(payload, "redirectMode") == Value(JStr("POST"))
    ensures Lookup(payload, "callbackUrl") == Value(JStr(cfg.backendUrl + "/api/payment/callback"))
    ensures Lookup(payload, "mobileNumber") == Value(JStr(""))
    ensures Lookup(payload, "paymentInstrument") == Value(JObj([Member("type", JStr("PAY_PAGE"))]))
  {
    var ms := [
      Member("merchantId", JStr(cfg.merchantId)),
      Member("merchantTransactionId", JStr(mtid)),
      Member("amount", JNum(amount * 100)),
      Member("redirectUrl", JStr(cfg.frontendUrl + "/payment-status")),
      Member("redirectMode", JStr("POST")),
      Member("callbackUrl", JStr(cfg.backendUrl + "/api/payment/callback")),
      Member("mobileNumber", JStr("")),
      Member("paymentInstrument", JObj([Member("type", JStr("PAY_PAGE"))]))
    ];
    assert UniqueKeys(ms);
    LookupAt(ms, 0); LookupAt(ms, 1); LookupAt(ms, 2); LookupAt(ms, 3);
    LookupAt(ms, 4); LookupAt(ms, 5); LookupAt(ms, 6); LookupAt(ms, 7);
    ms
  }

  // ---------------------------------------------------------------------------------------
  // The X-VERIFY header

  /** How the gateway's protocol reads an X-VERIFY header: a digest, `###`, a key index. */
  datatype XVerify = XVerify(digest: string, keyIndex: string)

  /** The header split at its first `#`, which must start `###`. */
  function ParseXVerify(h: string): Option<XVerify> {
    var i := FirstOf(h, '#');
    if i + 3 <= |h| && h[i..i + 3] == "###" then Some(XVerify(h[..i], h[i + 3..])) else None
  }

  /** `sha256(message)` in hex, followed by `"###" + 1`. */
  function SignedHeader(c: Crypto, message: string): (xVerify: string)
    ensures IsLowerHex(c.sha256Hex(message)) ==> ParseXVerify(xVerify) == Some(XVerify(c.sha256Hex(message), KeyIndex))
  {
    var digest := c.sha256Hex(message);
    var h := digest + "###" + KeyIndex;
    if IsLowerHex(digest) then
      assert '#' !in digest;
      assert h == digest + ['#'] + ("##" + KeyIndex);
      FirstOfJoined(digest, "##" + KeyIndex, '#');
      assert h[..|digest|] == digest;
      assert h[|digest| + 3..] == KeyIndex;
      h
    else
      h
  }

  /** The pay checksum: the digest of the base64 payload, the pay path and the salt, in that order. */
  function PayChecksum(c: Crypto, cfg: Config, base64Payload: string): (xVerify: string)
    ensures HexDigests(c) ==>
      ParseXVerify(xVerify) == Some(XVerify(c.sha256Hex(base64Payload + "/pg/v1/pay" + cfg.saltKey), "1"))
  {
    SignedHeader(c, base64Payload + PayPath + cfg.saltKey)
  }

  /** `/pg/v1/status/<merchant id>/<merchant transaction id>` */
  function StatusPath(cfg: Config, mtid: string): string {
    StatusPathPrefix + cfg.merchantId + "/" + mtid
  }

  /** The status checksum: the digest of the status path followed by the salt. */
  function StatusChecksum(c: Crypto, cfg: Config, mtid: string): (xVerify: string)
    ensures HexDigests(c) ==>
      ParseXVerify(xVerify)
      == Some(XVerify(c.sha256Hex("/pg/v1/status/" + cfg.merchantId + "/" + mtid + cfg.saltKey), "1"))
  {
    SignedHeader(c, StatusPath(cfg, mtid) + cfg.saltKey)
  }

  // ---------------------------------------------------------------------------------------
  // Requests to the gateway

  datatype Header = Header(name: string, value: string)

  datatype HttpRequest = HttpRequest(verb: string, url: string, headers: seq<Header>, body: Option<Json>)

  function HeaderValue(headers: seq<Header>, name: string): Option<string>
    decreases |headers|
  {
    if headers == [] then None
    else if headers[0].name == name then Some(headers[0].value)
    else HeaderValue(headers[1..], name)
  }

  /** The gateway's check of a pay request: the `request` string of the body, the pay path and
      the salt hash to the digest of the X-VERIFY header, under key index 1. */
  ghost predicate GatewayAcceptsPay(c: Crypto, salt: string, req: HttpRequest) {
    && req.body.Some? && req.body.value.JObj?
    && var sent := Lookup(req.body.value.members, "request");
    && sent.Value? && sent.json.JStr?
    && HeaderValue(req.headers, "X-VERIFY").Some?
    && ParseXVerify(HeaderValue(req.headers, "X-VERIFY").value)
       == Some(XVerify(c.sha256Hex(sent.json.s + PayPath + salt), KeyIndex))
  }

  /** The gateway's check of a status request: the path after the gateway's base URL, then the
      salt, hash to the digest of the X-VERIFY header, and the merchant id header is set. */
  ghost predicate GatewayAcceptsStatus(c: Crypto, cfg: Config, req: HttpRequest) {
    && |cfg.gatewayBaseUrl| <= |req.url| && req.url[..|cfg.gatewayBaseUrl|] == cfg.gatewayBaseUrl
    && HeaderValue(req.headers, "X-VERIFY").Some?
    && ParseXVerify(HeaderValue(req.headers, "X-VERIFY").value)
       == Some(XVerify(c.sha256Hex(req.url[|cfg.gatewayBaseUrl|..] + cfg.saltKey), KeyIndex))
    && HeaderValue(req.headers, "X-MERCHANT-ID") == Some(cfg.merchantId)
  }

  /** `POST <base>/pg/v1/pay` with body `{request: base64(JSON.stringify(payload))}`. */
  function PayRequest(c: Crypto, cfg: Config, payload: seq<Member>): (req: HttpRequest)
    ensures req.verb == "POST" && req.url == cfg.gatewayBaseUrl + "/pg/v1/pay"
    ensures req.body == Some(JObj([Member("request", JStr(c.base64(c.stringify(JObj(payload)))))]))
    ensures HexDigests(c) ==> GatewayAcceptsPay(c, cfg.saltKey, req)
  {
    var base64Payload := c.base64(c.stringify(JObj(payload)));
    var body := [Member("request", JStr(base64Payload))];
    assert Lookup(body, "request") == Value(JStr(base64Payload));
    HttpRequest("POST", cfg.gatewayBaseUrl + PayPath,
                [Header("Content-Type", "application/json"), Header("X-VERIFY", PayChecksum(c, cfg, base64Payload))],
                Some(JObj(body)))
  }

  /** `GET <base>/pg/v1/status/<merchant id>/<mtid>`, signed over the same path. */
  function StatusRequest(c: Crypto, cfg: Config, mtid: string): (req: HttpRequest)
    ensures req.verb == "GET" && req.url == cfg.gatewayBaseUrl + "/pg/v1/status/" + cfg.merchantId + "/" + mtid
    ensures HexDigests(c) ==> GatewayAcceptsStatus(c, cfg, req)
  {
    var url := cfg.gatewayBaseUrl + StatusPath(cfg, mtid);
    assert url[|cfg.gatewayBaseUrl|..] == StatusPath(cfg, mtid);
    HttpRequest("GET", url,
                [Header("X-VERIFY", StatusChecksum(c, cfg, mtid)), Header("X-MERCHANT-ID", cfg.merchantId)],
                None)
  }

  // ---------------------------------------------------------------------------------------
  // Payment records and the payments collection

  /** What the gateway call gives back: a 2xx response with its parsed body, a non-2xx status
      (the call throws with `error.response.status`), or no response at all. */
  datatype GatewayReply = Responded(body: Json) | HttpFailure(status: int) | NoResponse

  /** A payment record with the field names and values the controller writes. */
  datatype PaymentDoc = PaymentDoc(
    userId: Option<string>,
    appointmentId: string,
    doctorId: string,
    paymentMethod: string,
    paymentStatus: string,
    transactionId: string,
    amount: int,
    createdAt: nat,
    updatedAt: nat)

  /** `i` is the record a `findOneAndUpdate({transactionId: id})` in natural order picks. */
  predicate IsFirstMatch(docs: seq<PaymentDoc>, id: string, i: nat) {
    i < |docs| && docs[i].transactionId == id && forall j | 0 <= j < i :: docs[j].transactionId != id
  }

  /** The collection after `findOneAndUpdate({transactionId: id}, {paymentStatus, updatedAt})`:
      the first record with that id is overwritten, whatever it held; nothing else changes. */
  function UpdateFirst(docs: seq<PaymentDoc>, id: string, paymentStatus: string, now: nat): (r: seq<PaymentDoc>)
    ensures |r| == |docs|
    ensures forall i | 0 <= i < |docs| ::
      r[i] == (if IsFirstMatch(docs, id, i) then docs[i].(paymentStatus := paymentStatus, updatedAt := now) else docs[i])
  {
    match FirstIndex(docs, (d: PaymentDoc) => d.transactionId == id)
    case None => docs
    case Some(k) => docs[k := docs[k].(paymentStatus := paymentStatus, updatedAt := now)]
  }

  /** Overwriting by key twice with the same values is the same as once. */
  lemma UpdateFirstIdempotent(docs: seq<PaymentDoc>, id: string, paymentStatus: string, t1: nat, t2: nat)
    ensures UpdateFirst(UpdateFirst(docs, id, paymentStatus, t1), id, paymentStatus, t2)
            == UpdateFirst(docs, id, paymentStatus, t2)
  {
    var once := UpdateFirst(docs, id, paymentStatus, t1);
    var twice := UpdateFirst(once, id, paymentStatus, t2);
    var direct := UpdateFirst(docs, id, paymentStatus, t2);
    forall i | 0 <= i < |docs| ensures twice[i] == direct[i] {
      assert IsFirstMatch(once, id, i) <==> IsFirstMatch(docs, id, i);
    }
  }

  /** The payments collection, updated in place. */
  class PaymentCollection {
    var docs: seq<PaymentDoc>

    constructor ()
      ensures docs == []
    {
      docs := [];
    }

    /** `Payment.create(doc)` when the write succeeds. */
    method Create(doc: PaymentDoc)
      modifies this
      ensures docs == old(docs) + [doc]
    {
      docs := docs + [doc];
    }

    /** `Payment.findOneAndUpdate({transactionId: id}, {paymentStatus, updatedAt})`. */
    method FindOneAndUpdate(id: string, paymentStatus: string, now: nat)
      modifies this
      ensures docs == UpdateFirst(old(docs), id, paymentStatus, now)
    {
      var k := FirstIndex(docs, (d: PaymentDoc) => d.transactionId == id);
      if k.Some? {
        docs := docs[k.value := docs[k.value].(paymentStatus := paymentStatus, updatedAt := now)];
      }
    }
  }

  // ---------------------------------------------------------------------------------------
  // initiatePayment

  /** The request body `{amount, doctorId, appointmentId, userEmail}`. */
  datatype InitiateBody = InitiateBody(amount: int, doctorId: string, appointmentId: string, userEmail: string)

  /** The three `Date.now()` readings of one call: for the transaction id, `createdAt`, `updatedAt`. */
  datatype Clock = Clock(forTransactionId: nat, forCreatedAt: nat, forUpdatedAt: nat)

  /** The reply: `{success: true, paymentUrl}` with status 200, or `{success: false, message}`. */
  datatype InitReply = PaymentUrl(url: JsVal) | InitFailed(status: int, message: string)

  /** Everything one call decides: the request sent, the record created, the reply. */
  datatype InitOutcome = InitOutcome(sent: HttpRequest, created: Option<PaymentDoc>, reply: InitReply)

  /** Successive property reads; `None` when one of them throws. */
  function PropPath(v: JsVal, path: seq<string>): (r: Option<JsVal>)
    ensures path == [] ==> r == Some(v)
    ensures path != [] && (v.Undefined? || v == Value(JNull)) ==> r.None?
    ensures |path| == 1 ==> r == Prop(v, path[0])
    decreases |path|
  {
    if path == [] then Some(v)
    else
      match Prop(v, path[0])
      case None => None
      case Some(w) => PropPath(w, path[1..])
  }

  /** `response.data.data.instrumentResponse.redirectInfo.url`, read from the response body. */
  const RedirectPath: seq<string> := ["data", "instrumentResponse", "redirectInfo", "url"]

  /** The document `Payment.create` is given: the controller's own field names, status
      'Pending', the amount as requested and the user id when the request carries a user. */
  function ControllerDocument(body: InitiateBody, userId: Option<string>, clock: Clock, randomDigits: string): (d: PaymentDoc)
    ensures d.transactionId == TransactionId(clock.forTransactionId, randomDigits) && d.transactionId[..4] == "TXN_"
    ensures d.paymentMethod == "PhonePe" && d.paymentStatus == "Pending" && d.amount == body.amount
    ensures d.userId == userId && d.appointmentId == body.appointmentId && d.doctorId == body.doctorId
    ensures d.createdAt == clock.forCreatedAt && d.updatedAt == clock.forUpdatedAt
    ensures forall now: nat :: !PaymentSchema.Valid(PaymentSchema.NewPayment(AsSchemaFields(d), now))
  {
    PaymentDoc(userId, body.appointmentId, body.doctorId, "PhonePe", "Pending",
               TransactionId(clock.forTransactionId, randomDigits), body.amount, clock.forCreatedAt, clock.forUpdatedAt)
  }

  /** What `initiatePayment` does, given the gateway's answer to the request it sends and
      whether the database accepts the record. */
  function Initiate(c: Crypto, cfg: Config, body: InitiateBody, userId: Option<string>, clock: Clock,
                    randomDigits: string, gateway: HttpRequest -> GatewayReply, createSucceeds: bool): (o: InitOutcome)
    ensures o.sent == PayRequest(c, cfg, PayPayload(cfg, TransactionId(clock.forTransactionId, randomDigits), body.amount))
    ensures o.created.Some? <==> gateway(o.sent).Responded? && createSucceeds
    ensures o.created.Some? ==>
      && o.created.value == ControllerDocument(body, userId, clock, randomDigits)
      && o.created.value.transactionId == TransactionId(clock.forTransactionId, randomDigits)
      && o.created.value.amount == body.amount
      && o.created.value.paymentStatus == "Pending"
    ensures o.reply.PaymentUrl? ==>
      o.created.Some? && PropPath(Value(gateway(o.sent).body), RedirectPath) == Some(o.reply.url)
    ensures o.reply.PaymentUrl? <==>
      gateway(o.sent).Responded? && createSucceeds && PropPath(Value(gateway(o.sent).body), RedirectPath).Some?
    ensures o.reply == InitFailed(429, RateLimitedMessage) <==> gateway(o.sent) == HttpFailure(429)
    ensures o.reply.InitFailed? && o.reply.status != 429 ==> o.reply == InitFailed(500, InitiationFailedMessage)
    ensures !o.reply.PaymentUrl? && gateway(o.sent) != HttpFailure(429) ==> o.reply == InitFailed(500, InitiationFailedMessage)
  {
    var mtid := TransactionId(clock.forTransactionId, randomDigits);
    var sent := PayRequest(c, cfg, PayPayload(cfg, mtid, body.amount));
    match gateway(sent)
    case Responded(b) =>
      if !createSucceeds then InitOutcome(sent, None, InitFailed(500, InitiationFailedMessage))
      else
        var doc := ControllerDocument(body, userId, clock, randomDigits);
        (match PropPath(Value(b), RedirectPath)
         case Some(url) => InitOutcome(sent, Some(doc), PaymentUrl(url))
         case None => InitOutcome(sent, Some(doc), InitFailed(500, InitiationFailedMessage)))
    case HttpFailure(status) =>
      InitOutcome(sent, None, if status == 429 then InitFailed(429, RateLimitedMessage)
                              else InitFailed(500, InitiationFailedMessage))
    case NoResponse =>
      InitOutcome(sent, None, InitFailed(500, InitiationFailedMessage))
  }

  /** A failed gateway call never leaves a record and never returns a payment URL. */
  lemma GatewayFailureCreatesNothing(c: Crypto, cfg: Config, body: InitiateBody, userId: Option<string>, clock: Clock,
                                     randomDigits: string, gateway: HttpRequest -> GatewayReply, createSucceeds: bool)
    requires !gateway(Initiate(c, cfg, body, userId, clock, randomDigits, gateway, createSucceeds).sent).Responded?
    ensures var o := Initiate(c, cfg, body, userId, clock, randomDigits, gateway, createSucceeds);
            o.created.None? && o.reply.InitFailed?
  {
  }

  /** `initiatePayment(req, res)` over the payments collection. */
  method InitiatePayment(payments: PaymentCollection, c: Crypto, cfg: Config, body: InitiateBody,
                         userId: Option<string>, clock: Clock, randomDigits: string,
                         gateway: HttpRequest -> GatewayReply, createSucceeds: bool)
    returns (sent: HttpRequest, reply: InitReply)
    modifies payments
    ensures var o := Initiate(c, cfg, body, userId, clock, randomDigits, gateway, createSucceeds);
            && sent == o.sent && reply == o.reply
            && payments.docs == old(payments.docs) + (if o.created.Some? then [o.created.value] else [])
  {
    var mtid := TransactionId(clock.forTransactionId, randomDigits);
    var payload := PayPayload(cfg, mtid, body.amount);
    sent := PayRequest(c, cfg, payload);
    var response := gateway(sent);
    if !response.Responded? {
      if response.HttpFailure? && response.status == 429 {
        reply := InitFailed(429, RateLimitedMessage);
      } else {
        reply := InitFailed(500, InitiationFailedMessage);
      }
      return;
    }
    if !createSucceeds {
      reply := InitFailed(500, InitiationFailedMessage);
      return;
    }
    payments.Create(ControllerDocument(body, userId, clock, randomDigits));
    var url := PropPath(Value(response.body), RedirectPath);
    if url.None? {
      reply := InitFailed(500, InitiationFailedMessage);
    } else {
      reply := PaymentUrl(url.value);
    }
  }

  // ---------------------------------------------------------------------------------------
  // paymentCallback

  /** The callback body `{merchantTransactionId, transactionId, status}`. */
  datatype CallbackBody = CallbackBody(merchantTransactionId: string, transactionId: JsVal, status: JsVal)

  datatype CallbackReply = CallbackReply(status: int, success: bool, message: string)

  datatype CallbackOutcome = CallbackOutcome(sent: HttpRequest, docs: seq<PaymentDoc>, reply: CallbackReply)

  const CallbackOk: CallbackReply := CallbackReply(200, true, CallbackOkMessage)
  const CallbackFailed: CallbackReply := CallbackReply(500, false, CallbackFailedMessage)

  /** The stored status for the gateway's `code`: 'Completed' for PAYMENT_SUCCESS, else 'Failed'. */
  function StoredStatus(code: JsVal): (s: string)
    ensures s == "Completed" <==> code == Value(JStr("PAYMENT_SUCCESS"))
    ensures s == "Failed" <==> code != Value(JStr("PAYMENT_SUCCESS"))
  {
    if StrictEquals(code, Value(JStr(SuccessCode))) then "Completed" else "Failed"
  }

  /** What `paymentCallback` does to the records `docs`, given the gateway's answer to the
      status request, the time of the update and whether the database write succeeds. */
  function Callback(c: Crypto, cfg: Config, docs: seq<PaymentDoc>, body: CallbackBody,
                    gateway: HttpRequest -> GatewayReply, now: nat, updateSucceeds: bool): (o: CallbackOutcome)
    ensures o.sent == StatusRequest(c, cfg, body.merchantTransactionId)
    ensures o.reply == CallbackOk || o.reply == CallbackFailed
    ensures o.reply == CallbackFailed ==> o.docs == docs
    ensures o.reply == CallbackOk <==>
      gateway(o.sent).Responded? && gateway(o.sent).body != JNull && updateSucceeds
    ensures o.reply == CallbackOk ==>
      o.docs == UpdateFirst(docs, body.merchantTransactionId,
                            StoredStatus(Prop(Value(gateway(o.sent).body), "code").value), now)
  {
    var sent := StatusRequest(c, cfg, body.merchantTransactionId);
    match gateway(sent)
    case Responded(b) =>
      (match Prop(Value(b), "code")
       case None => CallbackOutcome(sent, docs, CallbackFailed)
       case Some(code) =>
         if !updateSucceeds then CallbackOutcome(sent, docs, CallbackFailed)
         else CallbackOutcome(sent, UpdateFirst(docs, body.merchantTransactionId, StoredStatus(code), now), CallbackOk))
    case HttpFailure(_) => CallbackOutcome(sent, docs, CallbackFailed)
    case NoResponse => CallbackOutcome(sent, docs, CallbackFailed)
  }

  /** On success the first record with the id is 'Completed' exactly when the gateway's code is
      PAYMENT_SUCCESS and 'Failed' otherwise; every other record is untouched. */
  lemma CallbackSetsStatusFromGateway(c: Crypto, cfg: Config, docs: seq<PaymentDoc>, body: CallbackBody,
                                      gateway: HttpRequest -> GatewayReply, now: nat, i: nat)
    requires Callback(c, cfg, docs, body, gateway, now, true).reply == CallbackOk
    requires IsFirstMatch(docs, body.merchantTransactionId, i)
    ensures var o := Callback(c, cfg, docs, body, gateway, now, true);
            var code := Prop(Value(gateway(o.sent).body), "code").value;
            && (o.docs[i].paymentStatus == "Completed" <==> code == Value(JStr("PAYMENT_SUCCESS")))
            && (o.docs[i].paymentStatus == "Failed" <==> code != Value(JStr("PAYMENT_SUCCESS")))
            && o.docs[i].updatedAt == now
            && forall j | 0 <= j < |docs| && j != i :: o.docs[j] == docs[j]
  {
  }

  /** The body's `transactionId` and `status` are never read: two callbacks for the same
      merchant transaction id have the same effect. */
  lemma CallbackIgnoresBodyStatus(c: Crypto, cfg: Config, docs: seq<PaymentDoc>, b1: CallbackBody, b2: CallbackBody,
                                  gateway: HttpRequest -> GatewayReply, now: nat, updateSucceeds: bool)
    requires b1.merchantTransactionId == b2.merchantTransactionId
    ensures Callback(c, cfg, docs, b1, gateway, now, updateSucceeds) == Callback(c, cfg, docs, b2, gateway, now, updateSucceeds)
  {
  }

  /** Delivering the same callback again later, with the same gateway answer, leaves the records
      as a single delivery at the later time does: the same statuses as after the first delivery,
      only the time refreshed; both deliveries get the same reply. */
  lemma CallbackIdempotent(c: Crypto, cfg: Config, docs: seq<PaymentDoc>, body: CallbackBody,
                           gateway: HttpRequest -> GatewayReply, now1: nat, now2: nat)
    ensures var once := Callback(c, cfg, docs, body, gateway, now1, true);
            var again := Callback(c, cfg, once.docs, body, gateway, now2, true);
            && again == Callback(c, cfg, docs, body, gateway, now2, true)
            && again.reply == once.reply
            && forall i | 0 <= i < |docs| :: again.docs[i].paymentStatus == once.docs[i].paymentStatus
  {
    var once := Callback(c, cfg, docs, body, gateway, now1, true);
    if once.reply == CallbackOk {
      var code := Prop(Value(gateway(once.sent).body), "code").value;
      UpdateFirstIdempotent(docs, body.merchantTransactionId, StoredStatus(code), now1, now2);
    }
  }

  /** A callback for an id no record carries changes nothing and is still acknowledged. */
  lemma CallbackUnmatchedAcknowledged(c: Crypto, cfg: Config, docs: seq<PaymentDoc>, body: CallbackBody,
                                      gateway: HttpRequest -> GatewayReply, now: nat)
    requires forall i | 0 <= i < |docs| :: docs[i].transactionId != body.merchantTransactionId
    requires gateway(StatusRequest(c, cfg, body.merchantTransactionId)).Responded?
    requires gateway(StatusRequest(c, cfg, body.merchantTransactionId)).body != JNull
    ensures Callback(c, cfg, docs, body, gateway, now, true) == CallbackOutcome(StatusRequest(c, cfg, body.merchantTransactionId), docs, CallbackOk)
  {
    var o := Callback(c, cfg, docs, body, gateway, now, true);
    assert o.docs == docs;
  }

  /** The overwrite is unconditional: a record already 'Completed' becomes 'Failed' when a later
      status query does not answer PAYMENT_SUCCESS. */
  lemma CallbackOverwritesCompleted(c: Crypto, cfg: Config, docs: seq<PaymentDoc>, body: CallbackBody,
                                    gateway: HttpRequest -> GatewayReply, now: nat, i: nat)
    requires IsFirstMatch(docs, body.merchantTransactionId, i) && docs[i].paymentStatus == "Completed"
    requires gateway(StatusRequest(c, cfg, body.merchantTransactionId)) == Responded(JObj([Member("code", JStr("PAYMENT_ERROR"))]))
    ensures Callback(c, cfg, docs, body, gateway, now, true).docs[i].paymentStatus == "Failed"
  {
    var ms := [Member("code", JStr("PAYMENT_ERROR"))];
    assert Lookup(ms, "code") == Value(JStr("PAYMENT_ERROR"));
  }

  /** `paymentCallback(req, res)` over the payments collection. */
  method PaymentCallback(payments: PaymentCollection, c: Crypto, cfg: Config, body: CallbackBody,
                         gateway: HttpRequest -> GatewayReply, now: nat, updateSucceeds: bool)
    returns (sent: HttpRequest, reply: CallbackReply)
    modifies payments
    ensures var o := Callback(c, cfg, old(payments.docs), body, gateway, now, updateSucceeds);
            sent == o.sent && reply == o.reply && payments.docs == o.docs
  {
    sent := StatusRequest(c, cfg, body.merchantTransactionId);
    var statusResponse := gateway(sent);
    if !statusResponse.Responded? {
      return sent, CallbackFailed;
    }
    var code := Prop(Value(statusResponse.body), "code");
    if code.None? || !updateSucceeds {
      return sent, CallbackFailed;
    }
    payments.FindOneAndUpdate(body.merchantTransactionId, StoredStatus(code.value), now);
    reply := CallbackOk;
  }

  // ---------------------------------------------------------------------------------------
  // The record against the Payment schema

  /** The paths of the controller's record that the schema declares; a strict schema drops
      `paymentMethod`, `paymentStatus` and `transactionId`. */
  function AsSchemaFields(d: PaymentDoc): PaymentSchema.PaymentFields {
    PaymentSchema.PaymentFields(d.userId, Some(d.appointmentId), Some(d.doctorId), None, None,
                                Some(d.amount), None, None, None, Some(d.createdAt), Some(d.updatedAt))
  }

  /** The record `initiatePayment` creates does not satisfy the schema: it lacks the required
      `merchantTransactionId` and `userEmail`, and none of the status values the controller
      writes is in the schema's enumeration. */
  lemma ControllerDocumentFailsSchema(d: PaymentDoc, existing: seq<PaymentSchema.Payment>, now: nat)
    ensures var p := PaymentSchema.NewPayment(AsSchemaFields(d), now);
            && "merchantTransactionId" in PaymentSchema.ValidationErrors(p)
            && "userEmail" in PaymentSchema.ValidationErrors(p)
            && PaymentSchema.Insert(existing, p, now).Err?
    ensures "Pending" !in PaymentSchema.Statuses && "Completed" !in PaymentSchema.Statuses
            && "Failed" !in PaymentSchema.Statuses
  {
  }

  /** Were `Payment.create` to apply the Payment schema, it would reject every record the
      controller writes: no initiation would then create a record or return a payment URL. */
  lemma SchemaRejectsEveryInitiation(c: Crypto, cfg: Config, body: InitiateBody, userId: Option<string>, clock: Clock,
                                     randomDigits: string, gateway: HttpRequest -> GatewayReply,
                                     existing: seq<PaymentSchema.Payment>, now: nat)
    ensures var doc := ControllerDocument(body, userId, clock, randomDigits);
            var accepted := PaymentSchema.Insert(existing, PaymentSchema.NewPayment(AsSchemaFields(doc), now), now).Ok?;
            var o := Initiate(c, cfg, body, userId, clock, randomDigits, gateway, accepted);
            && o.created.None? && !o.reply.PaymentUrl?
            && (gateway(o.sent).Responded? ==> o.reply == InitFailed(500, InitiationFailedMessage))
  {
    ControllerDocumentFailsSchema(ControllerDocument(body, userId, clock, randomDigits), existing, now);
  }

  // ---------------------------------------------------------------------------------------
  // Reading the redirect URL

  /** The response body `{data: {instrumentResponse: {redirectInfo: {url}}}}`. */
  function RedirectBody(url: Json): Json {
    JObj([Member("data", JObj([Member("instrumentResponse", JObj([Member("redirectInfo", JObj([Member("url", url)]))]))]))])
  }

  /** A body of the gateway's documented shape yields its URL. */
  lemma RedirectUrlFound(url: Json)
    ensures PropPath(Value(RedirectBody(url)), RedirectPath) == Some(Value(url))
  {
    var inner := [Member("url", url)];
    var info := [Member("redirectInfo", JObj(inner))];
    var resp := [Member("instrumentResponse", JObj(info))];
    var top := [Member("data", JObj(resp))];
    assert Lookup(top, "data") == Value(JObj(resp));
    assert Lookup(resp, "instrumentResponse") == Value(JObj(info));
    assert Lookup(info, "redirectInfo") == Value(JObj(inner));
    assert Lookup(inner, "url") == Value(url);
    assert RedirectPath[1..][1..][1..] == ["url"];
  }

  /** A body without `data` makes the second read throw. */
  lemma RedirectUrlMissingDataThrows(ms: seq<Member>)
    requires !HasKey(ms, "data")
    ensures PropPath(Value(JObj(ms)), RedirectPath).None?
  {
    assert Prop(Value(JObj(ms)), "data") == Some(Undefined);
  }

  /** A gateway that accepts the request but answers without `data`, with the create succeeding:
      the record is already stored when the reply is 500. */
  lemma RecordStoredThoughUrlUnreadable(c: Crypto, cfg: Config, body: InitiateBody, userId: Option<string>,
                                        clock: Clock, randomDigits: string, gateway: HttpRequest -> GatewayReply)
    requires gateway(PayRequest(c, cfg, PayPayload(cfg, TransactionId(clock.forTransactionId, randomDigits), body.amount)))
             == Responded(JObj([]))
    ensures var o := Initiate(c, cfg, body, userId, clock, randomDigits, gateway, true);
            o.created == Some(ControllerDocument(body, userId, clock, randomDigits))
            && o.reply == InitFailed(500, InitiationFailedMessage)
  {
    RedirectUrlMissingDataThrows([]);
  }

  // ---------------------------------------------------------------------------------------
  // The callback's update against the Payment schema

  /** The callback's `findOneAndUpdate` as Mongoose applies it to documents of the Payment
      schema. `paymentStatus` is not a schema path and is dropped from the update, leaving
      `{updatedAt}`. `transactionId` is not a schema path either: with strict queries it is
      dropped from the filter, and the empty filter matches the first document; otherwise it is
      kept, and as no document has the path, nothing matches. */
  function SchemaCallbackUpdate(docs: seq<PaymentSchema.Payment>, strictQuery: bool, now: nat)
    : (r: seq<PaymentSchema.Payment>)
    ensures |r| == |docs|
    ensures forall i | 0 <= i < |docs| :: r[i].status == docs[i].status
    ensures forall i | 0 <= i < |docs| :: r[i].(updatedAt := docs[i].updatedAt) == docs[i]
    ensures !strictQuery ==> r == docs
    ensures strictQuery && |docs| > 0 ==> r[0].updatedAt == now && r[1..] == docs[1..]
  {
    if strictQuery && |docs| > 0 then docs[0 := docs[0].(updatedAt := now)] else docs
  }
}
