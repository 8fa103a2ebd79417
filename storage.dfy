/**
  The device's key-value storage (`UserDefaults`) and the JSON form of the
  subscription list, as `SubscriptionStore` uses them
  (MembershipTracker/Generated/SubscriptionStore.swift, lines 55-67).

  The JSON format itself is not modelled: a stored value is either the
  encoding of a list of records or some other bytes the decoder rejects.
 */
module Storage {
  import opened Wrappers
  import opened Records

  /**
    What `JSONEncoder` can write. Its default strategy for non-conforming
    floats throws on NaN and the infinities, and a `Date` is written as its
    `Double` of seconds, so every amount and every date must be finite.
   */
  predicate Encodable(records: seq<Subscription>) {
    forall i :: 0 <= i < |records| ==>
      records[i].amount.IsFinite() && records[i].nextPaymentDate.timeIntervalSinceReferenceDate.IsFinite()
  }

  /** A `Data` value as found in storage. */
  datatype Data =
    | EncodedSubscriptions(records: seq<Subscription>)
    | OtherData(bytes: seq<bv8>)

  /**
    `JSONDecoder().decode([Subscription].self, from:)` under `try?`. JSON has
    no NaN or infinity, and the decoder's default strategy rejects them, so
    no list holding a non-finite amount or date is ever decoded.
   */
  function Decode(data: Data): (r: Option<seq<Subscription>>)
    ensures r.Some? <==> data.EncodedSubscriptions? && Encodable(data.records)
    ensures r.Some? ==> data == EncodedSubscriptions(r.value) && Encodable(r.value)
  {
    match data
    case EncodedSubscriptions(records) => if Encodable(records) then Some(records) else None
    case OtherData(_) => None
  }

  /** `try? JSONEncoder().encode(subscriptions)`: nil when some value cannot be encoded. */
  function Encode(records: seq<Subscription>): (r: Option<Data>)
    ensures r.Some? <==> Encodable(records)
    ensures r.Some? ==> Decode(r.value) == Some(records)
  {
    if Encodable(records) then Some(EncodedSubscriptions(records)) else None
  }

  /** Decoding what was encoded gives the same list back. */
  lemma DecodeEncodeRoundTrip(records: seq<Subscription>)
    requires Encodable(records)
    ensures Encode(records).Some? && Decode(Encode(records).value) == Some(records)
  {
  }

  /** One record with a non-finite amount or date makes the whole list unencodable. */
  lemma {:induction false} NonFiniteRecordBlocksEncoding(records: seq<Subscription>, i: nat)
    requires i < |records|
    requires !records[i].amount.IsFinite() || !records[i].nextPaymentDate.timeIntervalSinceReferenceDate.IsFinite()
    ensures Encode(records).None?
    ensures forall extra :: Encode(records + extra).None? && Encode(extra + records).None?
  {
    forall extra: seq<Subscription> ensures Encode(records + extra).None? && Encode(extra + records).None? {
      assert (records + extra)[i] == records[i];
      assert (extra + records)[|extra| + i] == records[i];
    }
  }

  /** `UserDefaults.standard`: a mutable dictionary from keys to stored data. */
  class UserDefaults {
    var values: map<string, Data>

    constructor (values: map<string, Data>)
      ensures this.values == values
    {
      this.values := values;
    }

    /** `data(forKey:)`: the stored value, or nil when the key is absent. */
    function DataForKey(key: string): (r: Option<Data>)
      reads this
      ensures r.Some? <==> key in values
      ensures r.Some? ==> r.value == values[key]
    {
      if key in values then Some(values[key]) else None
    }

    /** `set(_:forKey:)`: overwrites the value under one key, leaves the others. */
    method Set(value: Data, key: string)
      modifies this
      ensures values == old(values)[key := value]
    {
      values := values[key := value];
    }
  }
}
