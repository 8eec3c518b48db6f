/** The payload checksum utility: an HMAC-SHA256 of the JSON text of an object, and its
    verification, which deletes the object's `checksum` property in place before recomputing. */
module Checksum {
  import opened Common
  import opened JsValues
  import opened Primitives

  const ChecksumKey := "checksum"

  /** `generateChecksum(data, key)`: hex HMAC-SHA256 under `key` of `JSON.stringify(data)`. */
  function GenerateChecksum(c: Crypto, data: seq<Member>, key: string): (r: string)
    ensures HmacInjective(c) && StringifyInjective(c) ==>
      forall other: seq<Member>, otherKey: string ::
        c.hmacSha256Hex(otherKey, c.stringify(JObj(other))) == r ==> other == data && otherKey == key
  {
    c.hmacSha256Hex(key, c.stringify(JObj(data)))
  }

  /** What `verifyChecksum(data, key)` returns for an object with members `data`. */
  function ChecksumVerifies(c: Crypto, data: seq<Member>, key: string): (ok: bool)
    ensures ok <==> Lookup(data, ChecksumKey) == Value(JStr(GenerateChecksum(c, RemoveKey(data, ChecksumKey), key)))
  {
    var provided := Lookup(data, ChecksumKey);
    var generated := GenerateChecksum(c, RemoveKey(data, ChecksumKey), key);
    StrictEquals(provided, Value(JStr(generated)))
  }

  /** The object a sender signs: `data.checksum = generateChecksum(data, key)`. */
  function WithChecksum(c: Crypto, data: seq<Member>, key: string): seq<Member>
    requires !HasKey(data, ChecksumKey)
  {
    data + [Member(ChecksumKey, JStr(GenerateChecksum(c, data, key)))]
  }

  /** A JavaScript object held by reference; `verifyChecksum` changes it. */
  class JsObject {
    var members: seq<Member>

    constructor (ms: seq<Member>)
      ensures members == ms
    {
      members := ms;
    }
  }

  /** `verifyChecksum(data, key)`: read `data.checksum`, `delete data.checksum`, recompute over
      what is left and compare with `===`. The caller's object loses its checksum property. */
  method VerifyChecksum(c: Crypto, data: JsObject, key: string) returns (ok: bool)
    modifies data
    ensures data.members == RemoveKey(old(data.members), ChecksumKey)
    ensures ok == ChecksumVerifies(c, old(data.members), key)
  {
    var provided := Lookup(data.members, ChecksumKey);
    data.members := RemoveKey(data.members, ChecksumKey);
    var generated := GenerateChecksum(c, data.members, key);
    ok := StrictEquals(provided, Value(JStr(generated)));
  }

  /** Round trip: data without a checksum, signed with `key`, verifies with the same key; the
      attached value is the HMAC of the data's JSON text. */
  lemma SignedVerifies(c: Crypto, data: seq<Member>, key: string)
    requires !HasKey(data, ChecksumKey) && UniqueKeys(data)
    ensures Lookup(WithChecksum(c, data, key), ChecksumKey)
            == Value(JStr(c.hmacSha256Hex(key, c.stringify(JObj(data)))))
    ensures ChecksumVerifies(c, WithChecksum(c, data, key), key)
  {
    var v := JStr(GenerateChecksum(c, data, key));
    LookupAppended(data, ChecksumKey, v);
    RemoveKeyAppended(data, ChecksumKey, v);
  }

  /** Data that carries no checksum property never verifies: `undefined` is not a string. */
  lemma UnsignedNeverVerifies(c: Crypto, data: seq<Member>, key: string)
    requires !HasKey(data, ChecksumKey)
    ensures !ChecksumVerifies(c, data, key)
  {
  }

  /** A checksum other than a string never verifies, whatever the rest of the data. */
  lemma NonStringChecksumNeverVerifies(c: Crypto, data: seq<Member>, key: string)
    requires Lookup(data, ChecksumKey).Value? && !Lookup(data, ChecksumKey).json.JStr?
    ensures !ChecksumVerifies(c, data, key)
  {
  }

  /** Tamper evidence, under the ideal-MAC and injective-serialisation assumptions: a checksum
      made for `data` under `key`, attached to some `data2`, verifies under `key2` exactly when
      `data2` is `data` (same fields, same values, same order) and `key2` is `key`. */
  lemma ChecksumBindsDataAndKey(c: Crypto, data: seq<Member>, key: string, data2: seq<Member>, key2: string)
    requires HmacInjective(c) && StringifyInjective(c)
    requires !HasKey(data, ChecksumKey) && !HasKey(data2, ChecksumKey) && UniqueKeys(data2)
    ensures ChecksumVerifies(c, data2 + [Member(ChecksumKey, JStr(GenerateChecksum(c, data, key)))], key2)
            <==> data2 == data && key2 == key
  {
    var v := JStr(GenerateChecksum(c, data, key));
    LookupAppended(data2, ChecksumKey, v);
    RemoveKeyAppended(data2, ChecksumKey, v);
    if GenerateChecksum(c, data2, key2) == GenerateChecksum(c, data, key) {
      assert c.stringify(JObj(data2)) == c.stringify(JObj(data));
      assert JObj(data2) == JObj(data);
    }
  }

  /** After verification the object has no checksum property and every other property is
      unchanged and in its original place. */
  lemma VerifyLeavesOtherFields(ms: seq<Member>, i: nat)
    requires UniqueKeys(ms) && i < |ms| && ms[i].key == ChecksumKey
    ensures !HasKey(RemoveKey(ms, ChecksumKey), ChecksumKey)
    ensures RemoveKey(ms, ChecksumKey) == ms[..i] + ms[i + 1..]
  {
    RemoveKeyAt(ms, ChecksumKey, i);
  }
}
