/**
  `SubscriptionStore`: the in-memory list of records, its three mutations and
  its whole-list snapshot in storage
  (MembershipTracker/Generated/SubscriptionStore.swift, lines 27-68).

  The list operations are first specified on values (`FirstIndex`,
  `RemoveFirst`, `ReplaceFirst`); the class's methods are proved against them.
 */
module Store {
  import opened Wrappers
  import opened Records
  import opened Storage

  /** The key under which the store keeps its snapshot. */
  const SaveKey: string := "Subscriptions"

  /** Some record of `s` has this id. */
  predicate HasId(s: seq<Subscription>, id: Uuid) {
    exists i :: 0 <= i < |s| && s[i].id == id
  }

  /** No two records of `s` share an id. */
  predicate DistinctIds(s: seq<Subscription>) {
    forall i, j :: 0 <= i < j < |s| ==> s[i].id != s[j].id
  }

  /** `firstIndex(where: { $0.id == id })`: the first position holding that id. */
  function FirstIndex(s: seq<Subscription>, id: Uuid): (r: Option<nat>)
    ensures r.Some? ==> r.value < |s| && s[r.value].id == id
    ensures r.Some? ==> forall j :: 0 <= j < r.value ==> s[j].id != id
    ensures r.None? <==> !HasId(s, id)
  {
    if |s| == 0 then None
    else if s[0].id == id then Some(0)
    else match FirstIndex(s[1..], id)
      case None => None
      case Some(k) => Some(k + 1)
  }

  /** The linear search the standard library runs for `firstIndex(where:)`. */
  method FindFirstIndex(s: seq<Subscription>, id: Uuid) returns (index: Option<nat>)
    ensures index == FirstIndex(s, id)
  {
    var i := 0;
    while i < |s|
      invariant 0 <= i <= |s|
      invariant forall j :: 0 <= j < i ==> s[j].id != id
    {
      if s[i].id == id {
        return Some(i);
      }
      i := i + 1;
    }
    return None;
  }

  /** The list after `deleteSubscription` of a record with this id. */
  function RemoveFirst(s: seq<Subscription>, id: Uuid): seq<Subscription> {
    match FirstIndex(s, id)
    case None => s
    case Some(i) => s[..i] + s[i + 1..]
  }

  /** The list after `updateSubscription(x)`. */
  function ReplaceFirst(s: seq<Subscription>, x: Subscription): seq<Subscription> {
    match FirstIndex(s, x.id)
    case None => s
    case Some(i) => s[i := x]
  }

  /**
    Delete with a matching id removes exactly the element at the first match:
    one element fewer, the others in their old order; with no match nothing
    changes.
   */
  lemma {:induction false} RemoveFirstSpec(s: seq<Subscription>, id: Uuid)
    ensures !HasId(s, id) ==> RemoveFirst(s, id) == s
    ensures HasId(s, id) ==> |RemoveFirst(s, id)| == |s| - 1
    ensures HasId(s, id) ==>
      exists i :: 0 <= i < |s| && s[i].id == id
        && (forall j :: 0 <= j < i ==> s[j].id != id)
        && (forall j :: 0 <= j < i ==> RemoveFirst(s, id)[j] == s[j])
        && (forall j :: i <= j < |s| - 1 ==> RemoveFirst(s, id)[j] == s[j + 1])
  {
    match FirstIndex(s, id)
    case None =>
    case Some(i) =>
      var r := s[..i] + s[i + 1..];
      assert RemoveFirst(s, id) == r;
      assert forall j :: 0 <= j < i ==> r[j] == s[j];
      assert forall j :: i <= j < |s| - 1 ==> r[j] == s[j + 1];
  }

  /** Delete with a matching id takes exactly one matching record out of the multiset of records. */
  lemma RemoveFirstMultiset(s: seq<Subscription>, id: Uuid)
    requires HasId(s, id)
    ensures exists i :: 0 <= i < |s| && s[i].id == id && multiset(RemoveFirst(s, id)) + multiset{s[i]} == multiset(s)
  {
    var i := FirstIndex(s, id).value;
    var front, back := s[..i], s[i + 1..];
    assert RemoveFirst(s, id) == front + back;
    assert s == front + [s[i]] + back;
    assert multiset(s) == multiset(front) + multiset{s[i]} + multiset(back);
  }

  /**
    Update with a matching id overwrites only the first match; every other
    position, the length and every id stay as they were.
   */
  lemma {:induction false} ReplaceFirstSpec(s: seq<Subscription>, x: Subscription)
    ensures !HasId(s, x.id) ==> ReplaceFirst(s, x) == s
    ensures |ReplaceFirst(s, x)| == |s|
    ensures forall j :: 0 <= j < |s| ==> ReplaceFirst(s, x)[j].id == s[j].id
    ensures HasId(s, x.id) ==>
      exists i :: 0 <= i < |s| && s[i].id == x.id
        && (forall j :: 0 <= j < i ==> s[j].id != x.id)
        && ReplaceFirst(s, x)[i] == x
        && (forall j :: 0 <= j < |s| && j != i ==> ReplaceFirst(s, x)[j] == s[j])
  {
    match FirstIndex(s, x.id)
    case None =>
    case Some(i) =>
      assert ReplaceFirst(s, x)[i] == x;
  }

  /** Appending a record whose id is new keeps ids distinct. */
  lemma AppendKeepsIdsDistinct(s: seq<Subscription>, x: Subscription)
    requires DistinctIds(s) && !HasId(s, x.id)
    ensures DistinctIds(s + [x])
  {
    var r := s + [x];
    forall i, j | 0 <= i < j < |r| ensures r[i].id != r[j].id {
      if j == |s| {
        assert r[i] == s[i];
      }
    }
  }

  /** Delete keeps ids distinct, and afterwards no record carries the deleted id. */
  lemma {:induction false} RemoveFirstKeepsIdsDistinct(s: seq<Subscription>, id: Uuid)
    requires DistinctIds(s)
    ensures DistinctIds(RemoveFirst(s, id))
    ensures !HasId(RemoveFirst(s, id), id)
  {
    match FirstIndex(s, id)
    case None =>
    case Some(i) =>
      var r := RemoveFirst(s, id);
      assert r == s[..i] + s[i + 1..];
      assert forall j :: 0 <= j < |r| ==> r[j] == s[if j < i then j else j + 1];
  }

  /** Update keeps ids distinct; with distinct ids, the one record with `x.id` is then `x`. */
  lemma ReplaceFirstKeepsIdsDistinct(s: seq<Subscription>, x: Subscription)
    requires DistinctIds(s)
    ensures DistinctIds(ReplaceFirst(s, x))
    ensures HasId(s, x.id) ==> forall j :: 0 <= j < |s| && ReplaceFirst(s, x)[j].id == x.id ==> ReplaceFirst(s, x)[j] == x
  {
    ReplaceFirstSpec(s, x);
  }

  /**
    The app's single store. The snapshot it writes is what `defaults` holds
    under `SaveKey`.
   */
  class SubscriptionStore {
    var subscriptions: seq<Subscription>
    const defaults: UserDefaults

    /** The invariant the add, update and delete paths keep: ids are unique. */
    ghost predicate Valid()
      reads this
    {
      DistinctIds(subscriptions)
    }

    /** The stored snapshot decodes to the in-memory list. */
    ghost predicate Persisted()
      reads this, defaults
    {
      SaveKey in defaults.values && Decode(defaults.values[SaveKey]) == Some(subscriptions)
    }

    /** `init()`: starts empty, then loads the stored list when it exists and decodes. */
    constructor (defaults: UserDefaults)
      ensures this.defaults == defaults
      ensures Encodable(subscriptions)
      ensures SaveKey !in defaults.values ==> subscriptions == []
      ensures SaveKey in defaults.values && Decode(defaults.values[SaveKey]).None? ==> subscriptions == []
      ensures SaveKey in defaults.values && Decode(defaults.values[SaveKey]).Some? ==>
        subscriptions == Decode(defaults.values[SaveKey]).value
    {
      this.defaults := defaults;
      subscriptions := [];
      new;
      LoadSubscriptions();
    }

    /** `addSubscription`: appends, then writes the snapshot when the list encodes. */
    method AddSubscription(subscription: Subscription)
      modifies this, defaults
      ensures subscriptions == old(subscriptions) + [subscription]
      ensures Encodable(subscriptions) ==>
        defaults.values == old(defaults.values)[SaveKey := Encode(subscriptions).value] && Persisted()
      ensures !Encodable(subscriptions) ==> unchanged(defaults)
      ensures old(Valid()) && !HasId(old(subscriptions), subscription.id) ==> Valid()
    {
      if Valid() && !HasId(subscriptions, subscription.id) {
        AppendKeepsIdsDistinct(subscriptions, subscription);
      }
      subscriptions := subscriptions + [subscription];
      SaveSubscriptions();
    }

    /** `deleteSubscription`: removes the first record with the same id; no match, no write. */
    method DeleteSubscription(subscription: Subscription)
      modifies this, defaults
      ensures subscriptions == RemoveFirst(old(subscriptions), subscription.id)
      ensures HasId(old(subscriptions), subscription.id) && Encodable(subscriptions) ==>
        defaults.values == old(defaults.values)[SaveKey := Encode(subscriptions).value] && Persisted()
      ensures !HasId(old(subscriptions), subscription.id) || !Encodable(subscriptions) ==> unchanged(defaults)
      ensures old(Valid()) ==> Valid()
    {
      if Valid() {
        RemoveFirstKeepsIdsDistinct(subscriptions, subscription.id);
      }
      var index := FindFirstIndex(subscriptions, subscription.id);
      if index.Some? {
        subscriptions := subscriptions[..index.value] + subscriptions[index.value + 1..];
        SaveSubscriptions();
      }
    }

    /** `updateSubscription`: overwrites the first record with the same id; no match, no write. */
    method UpdateSubscription(subscription: Subscription)
      modifies this, defaults
      ensures subscriptions == ReplaceFirst(old(subscriptions), subscription)
      ensures HasId(old(subscriptions), subscription.id) && Encodable(subscriptions) ==>
        defaults.values == old(defaults.values)[SaveKey := Encode(subscriptions).value] && Persisted()
      ensures !HasId(old(subscriptions), subscription.id) || !Encodable(subscriptions) ==> unchanged(defaults)
      ensures old(Valid()) ==> Valid()
    {
      if Valid() {
        ReplaceFirstKeepsIdsDistinct(subscriptions, subscription);
      }
      var index := FindFirstIndex(subscriptions, subscription.id);
      if index.Some? {
        subscriptions := subscriptions[index.value := subscription];
        SaveSubscriptions();
      }
    }

    /**
      `saveSubscriptions`: the whole list, encoded, replaces the value under
      `SaveKey`; when encoding fails nothing is written.
     */
    method SaveSubscriptions()
      modifies defaults
      ensures Encodable(subscriptions) ==>
        defaults.values == old(defaults.values)[SaveKey := Encode(subscriptions).value] && Persisted()
      ensures !Encodable(subscriptions) ==> unchanged(defaults)
    {
      var encoded := Encode(subscriptions);
      if encoded.Some? {
        defaults.Set(encoded.value, SaveKey);
      }
    }

    /** `loadSubscriptions`: replaces the list only when stored data exists and decodes. */
    method LoadSubscriptions()
      modifies this
      ensures SaveKey in defaults.values && Decode(defaults.values[SaveKey]).Some? ==>
        subscriptions == Decode(defaults.values[SaveKey]).value
      ensures !(SaveKey in defaults.values && Decode(defaults.values[SaveKey]).Some?) ==>
        subscriptions == old(subscriptions)
    {
      var data := defaults.DataForKey(SaveKey);
      if data.Some? {
        var decoded := Decode(data.value);
        if decoded.Some? {
          subscriptions := decoded.value;
        }
      }
    }
  }
}
