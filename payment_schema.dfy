/** The Payment model: the schema's defaults and field constraints, its two unique indexes,
    and the `pre('save')` hook that refreshes `updatedAt`. Ids of other documents are opaque
    strings; `None` stands for a path that is undefined. */
module PaymentSchema {
  import opened Common
  import opened JsValues

  const Statuses: seq<string> := ["INITIATED", "SUCCESS", "FAILED", "PENDING", "CANCELLED"]
  const DefaultStatus: string := "INITIATED"

  /** The paths a caller may give to `new Payment({...})` or `Payment.create({...})`. */
  datatype PaymentFields = PaymentFields(
    userId: Option<string>,
    appointmentId: Option<string>,
    doctorId: Option<string>,
    merchantTransactionId: Option<string>,
    phonepeTransactionId: Option<string>,
    amount: Option<int>,
    status: Option<string>,
    paymentResponse: Option<Json>,
    userEmail: Option<string>,
    createdAt: Option<nat>,
    updatedAt: Option<nat>)

  /** A payment document once the schema's defaults are applied. */
  datatype Payment = Payment(
    userId: Option<string>,
    appointmentId: Option<string>,
    doctorId: Option<string>,
    merchantTransactionId: Option<string>,
    phonepeTransactionId: Option<string>,
    amount: Option<int>,
    status: string,
    paymentResponse: Json,
    userEmail: Option<string>,
    createdAt: nat,
    updatedAt: nat)

  /** A new document: `status` defaults to INITIATED, `paymentResponse` to null and both
      timestamps to the current time `now`. */
  function NewPayment(f: PaymentFields, now: nat): (p: Payment)
    ensures f.status.None? ==> p.status == DefaultStatus && p.status in Statuses
    ensures f.createdAt.None? ==> p.createdAt == now
    ensures f.updatedAt.None? ==> p.updatedAt == now
    ensures f.paymentResponse.None? ==> p.paymentResponse == JNull
    ensures f.status.Some? ==> p.status == f.status.value
    ensures f.paymentResponse.Some? ==> p.paymentResponse == f.paymentResponse.value
    ensures f.createdAt.Some? ==> p.createdAt == f.createdAt.value
    ensures f.updatedAt.Some? ==> p.updatedAt == f.updatedAt.value
    ensures p.userId == f.userId && p.appointmentId == f.appointmentId && p.doctorId == f.doctorId
    ensures p.merchantTransactionId == f.merchantTransactionId && p.phonepeTransactionId == f.phonepeTransactionId
    ensures p.amount == f.amount && p.userEmail == f.userEmail
  {
    Payment(f.userId, f.appointmentId, f.doctorId, f.merchantTransactionId, f.phonepeTransactionId,
            f.amount, f.status.GetOr(DefaultStatus), f.paymentResponse.GetOr(JNull), f.userEmail,
            f.createdAt.GetOr(now), f.updatedAt.GetOr(now))
  }

  /** A required String path: present and not the empty string, which the required validator
      refuses. */
  predicate RequiredString(v: Option<string>) {
    v.Some? && v.value != ""
  }

  /** The schema's validity: every required path present (a required String path non-empty),
      `amount` at least 0 and `status` one of the enumerated values. */
  predicate Valid(p: Payment) {
    && p.userId.Some?
    && p.appointmentId.Some?
    && p.doctorId.Some?
    && RequiredString(p.merchantTransactionId)
    && p.amount.Some? && p.amount.value >= 0
    && p.status in Statuses
    && RequiredString(p.userEmail)
  }

  /** The paths a validation error reports, in the schema's declaration order. */
  function ValidationErrors(p: Payment): (errs: seq<string>)
    ensures errs == [] <==> Valid(p)
    ensures "merchantTransactionId" in errs <==> p.merchantTransactionId.None? || p.merchantTransactionId == Some("")
    ensures "userEmail" in errs <==> p.userEmail.None? || p.userEmail == Some("")
    ensures "status" in errs <==> p.status !in Statuses
  {
    (if p.userId.None? then ["userId"] else [])
    + (if p.appointmentId.None? then ["appointmentId"] else [])
    + (if p.doctorId.None? then ["doctorId"] else [])
    + (if !RequiredString(p.merchantTransactionId) then ["merchantTransactionId"] else [])
    + (if p.amount.None? || p.amount.value < 0 then ["amount"] else [])
    + (if p.status !in Statuses then ["status"] else [])
    + (if !RequiredString(p.userEmail) then ["userEmail"] else [])
  }

  /** The two unique indexes: `merchantTransactionId` on every document, and the sparse one on
      `phonepeTransactionId`, which only documents that have the path take part in. */
  predicate UniqueIndexes(docs: seq<Payment>) {
    && (forall i, j | 0 <= i < j < |docs| :: docs[i].merchantTransactionId != docs[j].merchantTransactionId)
    && (forall i, j | 0 <= i < j < |docs| && docs[i].phonepeTransactionId.Some? ::
          docs[i].phonepeTransactionId != docs[j].phonepeTransactionId)
  }

  /** What the payments collection holds when every write went through the schema. */
  predicate CollectionValid(docs: seq<Payment>) {
    (forall i | 0 <= i < |docs| :: Valid(docs[i])) && UniqueIndexes(docs)
  }

  /** The `pre('save')` hook's effect: `updatedAt` set to the current time. */
  function Touched(p: Payment, now: nat): Payment {
    p.(updatedAt := now)
  }

  /** A document held by reference, as the hook receives it in `this`. */
  class PaymentDocument {
    var doc: Payment

    constructor (f: PaymentFields, now: nat)
      ensures doc == NewPayment(f, now)
    {
      doc := NewPayment(f, now);
    }

    /** `this.updatedAt = Date.now()`, then `next()`. */
    method PreSave(now: nat)
      modifies this
      ensures doc == Touched(old(doc), now)
      ensures doc.updatedAt == now
    {
      doc := doc.(updatedAt := now);
    }
  }

  /** The hook changes no path other than `updatedAt`, so it neither makes a document valid
      nor invalid. */
  lemma TouchedKeepsValidity(p: Payment, now: nat)
    ensures ValidationErrors(Touched(p, now)) == ValidationErrors(p)
    ensures Touched(p, now).(updatedAt := p.updatedAt) == p
  {
  }

  datatype SaveError = ValidationError(paths: seq<string>) | DuplicateKey(path: string)

  /** `q` would break the unique index on `merchantTransactionId`. */
  predicate MerchantIdTaken(docs: seq<Payment>, q: Payment) {
    exists i | 0 <= i < |docs| :: docs[i].merchantTransactionId == q.merchantTransactionId
  }

  /** `q` has a `phonepeTransactionId` and would break the sparse unique index on it. */
  predicate PhonepeIdTaken(docs: seq<Payment>, q: Payment) {
    q.phonepeTransactionId.Some? && exists i | 0 <= i < |docs| :: docs[i].phonepeTransactionId == q.phonepeTransactionId
  }

  /** Inserting a new document into the collection `docs`: the hook runs with the time `now`,
      the schema validates, and the unique indexes reject a clash. */
  function Insert(docs: seq<Payment>, p: Payment, now: nat): (r: Result<seq<Payment>, SaveError>)
    ensures r.Ok? ==> r.value == docs + [Touched(p, now)] && Valid(p)
    ensures r.Err? ==> (r.error.ValidationError? <==> !Valid(p))
    ensures Valid(p) && !MerchantIdTaken(docs, p) && !PhonepeIdTaken(docs, p) ==> r == Ok(docs + [Touched(p, now)])
    ensures r == Err(DuplicateKey("merchantTransactionId")) <==> Valid(p) && MerchantIdTaken(docs, p)
    ensures r == Err(DuplicateKey("phonepeTransactionId")) <==>
      Valid(p) && !MerchantIdTaken(docs, p) && PhonepeIdTaken(docs, p)
    ensures CollectionValid(docs) && r.Ok? ==> CollectionValid(r.value)
  {
    var q := Touched(p, now);
    var errs := ValidationErrors(q);
    if errs != [] then Err(ValidationError(errs))
    else if MerchantIdTaken(docs, q) then Err(DuplicateKey("merchantTransactionId"))
    else if PhonepeIdTaken(docs, q) then Err(DuplicateKey("phonepeTransactionId"))
    else Ok(docs + [q])
  }

  /** A run of saves, each with its own clock reading; a save that fails leaves the
      collection as it was. */
  function InsertAll(docs: seq<Payment>, saves: seq<(Payment, nat)>): seq<Payment>
    decreases |saves|
  {
    if saves == [] then docs
    else
      var r := Insert(docs, saves[0].0, saves[0].1);
      InsertAll(if r.Ok? then r.value else docs, saves[1..])
  }

  /** Whatever is saved, and in whatever order, a collection written only through the schema
      keeps every document valid and both indexes unique, and never loses a document. */
  lemma {:induction false} InsertAllKeepsCollectionValid(docs: seq<Payment>, saves: seq<(Payment, nat)>)
    requires CollectionValid(docs)
    ensures CollectionValid(InsertAll(docs, saves))
    ensures |InsertAll(docs, saves)| >= |docs|
    ensures InsertAll(docs, saves)[..|docs|] == docs
    decreases |saves|
  {
    if saves != [] {
      var r := Insert(docs, saves[0].0, saves[0].1);
      var next := if r.Ok? then r.value else docs;
      InsertAllKeepsCollectionValid(next, saves[1..]);
      assert next[..|docs|] == docs;
    }
  }
}
