/**
  The list screen's filter: which records `filteredSubscriptions` shows and
  how the filter header's buttons and toggle change the filter
  (MembershipTracker/Generated/SubscriptionListView.swift, lines 5-6, 14-20, 60-79).
 */
module SubscriptionList {
  import opened Wrappers
  import opened Records

  /** The two `@State` fields that drive filtering. */
  datatype ListFilter = ListFilter(selectedCategory: Option<SubscriptionCategory>, showActiveOnly: bool)

  /** The state a freshly created list view starts in: every category, active records only. */
  const InitialFilter: ListFilter := ListFilter(None, true)

  /** The predicate passed to `filter`. */
  predicate Matches(filter: ListFilter, s: Subscription) {
    var categoryMatch := filter.selectedCategory.None? || Some(s.category) == filter.selectedCategory;
    var activeMatch := !filter.showActiveOnly || s.isActive;
    categoryMatch && activeMatch
  }

  /** `filteredSubscriptions`: the records that match, front to back. */
  function Filtered(filter: ListFilter, subscriptions: seq<Subscription>): (r: seq<Subscription>)
    ensures |r| <= |subscriptions|
    ensures forall i :: 0 <= i < |r| ==> Matches(filter, r[i]) && r[i] in subscriptions
  {
    if subscriptions == [] then []
    else
      (if Matches(filter, subscriptions[0]) then [subscriptions[0]] else [])
      + Filtered(filter, subscriptions[1..])
  }

  /** `a` can be obtained from `b` by deleting elements, without reordering. */
  predicate IsSubsequence<T(==)>(a: seq<T>, b: seq<T>)
    decreases |b|
  {
    if a == [] then true
    else if b == [] then false
    else if a[0] == b[0] then IsSubsequence(a[1..], b[1..])
    else IsSubsequence(a, b[1..])
  }

  /** The filtered list keeps the store's order. */
  lemma {:induction false} FilteredIsSubsequence(filter: ListFilter, subscriptions: seq<Subscription>)
    ensures IsSubsequence(Filtered(filter, subscriptions), subscriptions)
  {
    if subscriptions != [] {
      var r := Filtered(filter, subscriptions);
      var rest := Filtered(filter, subscriptions[1..]);
      FilteredIsSubsequence(filter, subscriptions[1..]);
      if Matches(filter, subscriptions[0]) {
        assert r == [subscriptions[0]] + rest;
        assert r[1..] == rest;
      } else {
        assert r == rest;
        if r != [] {
          assert Matches(filter, r[0]);
          assert r[0] != subscriptions[0];
        }
      }
    }
  }

  /**
    Nothing that matches is dropped and nothing else is kept: each record
    occurs in the result exactly as often as in the store if it matches,
    and not at all otherwise.
   */
  lemma {:induction false} FilteredCounts(filter: ListFilter, subscriptions: seq<Subscription>)
    ensures forall x :: multiset(Filtered(filter, subscriptions))[x] ==
                          (if Matches(filter, x) then multiset(subscriptions)[x] else 0)
    ensures forall i :: 0 <= i < |subscriptions| && Matches(filter, subscriptions[i]) ==>
      subscriptions[i] in Filtered(filter, subscriptions)
  {
    if subscriptions != [] {
      var head, tail := subscriptions[0], subscriptions[1..];
      FilteredCounts(filter, tail);
      assert subscriptions == [head] + tail;
      assert multiset(subscriptions) == multiset{head} + multiset(tail);
      if Matches(filter, head) {
        assert Filtered(filter, subscriptions) == [head] + Filtered(filter, tail);
      } else {
        assert Filtered(filter, subscriptions) == Filtered(filter, tail);
      }
      forall i | 0 <= i < |subscriptions| && Matches(filter, subscriptions[i])
        ensures subscriptions[i] in Filtered(filter, subscriptions)
      {
        assert multiset(subscriptions)[subscriptions[i]] > 0;
      }
    }
  }

  /** With no category selected and inactive records shown, the full list comes back. */
  lemma {:induction false} UnfilteredShowsAll(subscriptions: seq<Subscription>)
    ensures Filtered(ListFilter(None, false), subscriptions) == subscriptions
  {
    if subscriptions != [] {
      UnfilteredShowsAll(subscriptions[1..]);
      assert subscriptions == [subscriptions[0]] + subscriptions[1..];
    }
  }

  /** By default inactive records are hidden and every category is shown. */
  lemma InitialFilterShowsActiveOnly(subscriptions: seq<Subscription>)
    ensures forall i :: 0 <= i < |Filtered(InitialFilter, subscriptions)| ==>
      Filtered(InitialFilter, subscriptions)[i].isActive
    ensures forall s :: Matches(InitialFilter, s) <==> s.isActive
  {
  }

  /** One button of the filter header: its title and whether it is highlighted. */
  datatype FilterButton = FilterButton(title: string, isSelected: bool)

  /** The header's buttons: "All" first, then one per category in `allCases` order. */
  function FilterButtons(filter: ListFilter): (buttons: seq<FilterButton>)
    ensures |buttons| == 1 + |AllCategories|
    ensures buttons[0].title == "All"
    ensures buttons[0].isSelected <==> filter.selectedCategory.None?
    ensures forall k :: 0 <= k < |AllCategories| ==>
      buttons[k + 1].title == AllCategories[k].RawValue()
      && (buttons[k + 1].isSelected <==> filter.selectedCategory == Some(AllCategories[k]))
  {
    [FilterButton("All", filter.selectedCategory.None?)]
    + seq(|AllCategories|, k requires 0 <= k < |AllCategories| =>
        FilterButton(AllCategories[k].RawValue(), filter.selectedCategory == Some(AllCategories[k])))
  }

  /** The action of button `k` of the header: "All" clears the category, the others select theirs. */
  function TapFilterButton(filter: ListFilter, k: nat): (r: ListFilter)
    requires k < 1 + |AllCategories|
    ensures r.showActiveOnly == filter.showActiveOnly
    ensures k == 0 ==> r.selectedCategory.None?
    ensures k > 0 ==> r.selectedCategory == Some(AllCategories[k - 1])
  {
    if k == 0 then filter.(selectedCategory := None)
    else filter.(selectedCategory := Some(AllCategories[k - 1]))
  }

  /** The "Show Active Only" toggle writes its new position into the filter. */
  function SetShowActiveOnly(filter: ListFilter, isOn: bool): (r: ListFilter)
    ensures r.showActiveOnly == isOn && r.selectedCategory == filter.selectedCategory
  {
    filter.(showActiveOnly := isOn)
  }

  /** Exactly one header button is highlighted, and after tapping a button it is that one. */
  lemma {:induction false} ExactlyOneButtonSelected(filter: ListFilter, k: nat)
    requires k < 1 + |AllCategories|
    ensures exists i :: 0 <= i < |FilterButtons(filter)| && FilterButtons(filter)[i].isSelected
    ensures forall i, j :: 0 <= i < j < |FilterButtons(filter)| ==>
      !(FilterButtons(filter)[i].isSelected && FilterButtons(filter)[j].isSelected)
    ensures FilterButtons(TapFilterButton(filter, k))[k].isSelected
  {
    var buttons := FilterButtons(filter);
    match filter.selectedCategory
    case None =>
      assert buttons[0].isSelected;
    case Some(c) =>
      AllCasesComplete(Monthly, c);
      var k' :| 0 <= k' < |AllCategories| && AllCategories[k'] == c;
      assert buttons[k' + 1].isSelected;
  }
}
