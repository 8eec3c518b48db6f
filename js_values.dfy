/** The values the handlers manipulate: parsed JSON documents, JavaScript's `undefined`,
    property reads and the strict equality operator `===`. A JSON object keeps its members
    in order, because `JSON.stringify` writes them in insertion order. */
module JsValues {
  import opened Common

  datatype Json =
    | JNull
    | JBool(b: bool)
    | JNum(n: int)
    | JStr(s: string)
    | JArr(items: seq<Json>)
    | JObj(members: seq<Member>)

  datatype Member = Member(key: string, value: Json)

  /** A value read out of a request or response body: JSON, or `undefined` for a missing key. */
  datatype JsVal = Undefined | Value(json: Json)

  predicate HasKey(ms: seq<Member>, k: string) {
    exists i | 0 <= i < |ms| :: ms[i].key == k
  }

  /** A property is present iff it is the first member or present in the rest. */
  lemma HasKeyCons(ms: seq<Member>, k: string)
    requires ms != []
    ensures HasKey(ms, k) <==> ms[0].key == k || HasKey(ms[1..], k)
  {
    if HasKey(ms[1..], k) {
      var i :| 0 <= i < |ms[1..]| && ms[1..][i].key == k;
      assert ms[i + 1].key == k;
    }
    if HasKey(ms, k) && ms[0].key != k {
      var i :| 0 <= i < |ms| && ms[i].key == k;
      assert ms[1..][i - 1].key == k;
    }
  }

  /** A JavaScript object never holds two properties with the same name. */
  predicate UniqueKeys(ms: seq<Member>) {
    forall i, j | 0 <= i < j < |ms| :: ms[i].key != ms[j].key
  }

  /** `obj.k` on an object with members `ms`: the member's value, or `undefined`. */
  function Lookup(ms: seq<Member>, k: string): (v: JsVal)
    ensures v.Undefined? <==> !HasKey(ms, k)
    ensures v.Value? ==> Member(k, v.json) in ms
  {
    if ms == [] then Undefined
    else if ms[0].key == k then Value(ms[0].value)
    else
      HasKeyCons(ms, k);
      Lookup(ms[1..], k)
  }

  /** `v[k]` in JavaScript. Reading a property of `undefined` or `null` throws a TypeError
      (`None`); other primitives and arrays have no own property of the names used here,
      so the read gives `undefined`. */
  function Prop(v: JsVal, k: string): (r: Option<JsVal>)
    ensures r.None? <==> v == Undefined || v == Value(JNull)
    ensures r.Some? && r.value.Value? ==> v.Value? && v.json.JObj? && Member(k, r.value.json) in v.json.members
  {
    match v
    case Undefined => None
    case Value(JNull) => None
    case Value(JObj(ms)) => Some(Lookup(ms, k))
    case Value(_) => Some(Undefined)
  }

  /** `delete obj.k` on an object with members `ms`. */
  function RemoveKey(ms: seq<Member>, k: string): (r: seq<Member>)
    ensures !HasKey(r, k)
    ensures |r| <= |ms|
    ensures forall m | m in r :: m in ms
  {
    if ms == [] then []
    else if ms[0].key == k then RemoveKey(ms[1..], k)
    else [ms[0]] + RemoveKey(ms[1..], k)
  }

  /** Deleting a property the object does not have leaves it as it was. */
  lemma {:induction false} RemoveKeyAbsent(ms: seq<Member>, k: string)
    requires !HasKey(ms, k)
    ensures RemoveKey(ms, k) == ms
  {
    if ms != [] {
      assert ms[0].key != k;
      HasKeyCons(ms, k);
      RemoveKeyAbsent(ms[1..], k);
    }
  }

  /** Deleting the property held at position `i` removes exactly that member and keeps the
      others in their original order. */
  lemma {:induction false} RemoveKeyAt(ms: seq<Member>, k: string, i: nat)
    requires UniqueKeys(ms) && i < |ms| && ms[i].key == k
    ensures RemoveKey(ms, k) == RemoveAt(ms, i)
  {
    if i == 0 {
      assert !HasKey(ms[1..], k) by {
        forall j | 0 <= j < |ms[1..]| ensures ms[1..][j].key != k {
          assert ms[1..][j] == ms[j + 1];
        }
      }
      RemoveKeyAbsent(ms[1..], k);
      assert ms[1..] == RemoveAt(ms, 0);
    } else {
      assert ms[0].key != k;
      RemoveKeyAt(ms[1..], k, i - 1);
      assert [ms[0]] + RemoveAt(ms[1..], i - 1) == RemoveAt(ms, i);
    }
  }

  /** A property appended to an object that did not have it is what a read finds. */
  lemma {:induction false} LookupAppended(ms: seq<Member>, k: string, v: Json)
    requires !HasKey(ms, k)
    ensures Lookup(ms + [Member(k, v)], k) == Value(v)
  {
    if ms != [] {
      assert ms[0].key != k;
      HasKeyCons(ms, k);
      assert (ms + [Member(k, v)])[1..] == ms[1..] + [Member(k, v)];
      LookupAppended(ms[1..], k, v);
    }
  }

  /** Deleting a property that was appended to an object without it gives the object back. */
  lemma RemoveKeyAppended(ms: seq<Member>, k: string, v: Json)
    requires !HasKey(ms, k) && UniqueKeys(ms)
    ensures RemoveKey(ms + [Member(k, v)], k) == ms
  {
    var ext := ms + [Member(k, v)];
    assert UniqueKeys(ext) by {
      forall i, j | 0 <= i < j < |ext| ensures ext[i].key != ext[j].key {
        if j == |ms| {
          assert ext[i] == ms[i];
        }
      }
    }
    RemoveKeyAt(ext, k, |ms|);
    assert RemoveAt(ext, |ms|) == ms;
  }

  function IsReference(j: Json): bool {
    j.JArr? || j.JObj?
  }

  /** `a === b`. Primitives compare by type and value; `undefined` equals only itself; two
      objects or arrays parsed from a body are distinct references, never identical. */
  function StrictEquals(a: JsVal, b: JsVal): (same: bool)
    ensures same <==> a == b && !(a.Value? && IsReference(a.json))
  {
    match a
    case Undefined => b.Undefined?
    case Value(x) =>
      b.Value? &&
      match x
      case JNull => b.json.JNull?
      case JBool(p) => b.json.JBool? && b.json.b == p
      case JNum(n) => b.json.JNum? && b.json.n == n
      case JStr(s) => b.json.JStr? && b.json.s == s
      case JArr(_) => false
      case JObj(_) => false
  }
}
