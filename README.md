# MembershipTracker subscription store — a Dafny model

MembershipTracker is an iOS app for tracking recurring subscriptions. Its
data core is `SubscriptionStore`: an ordered, in-memory list of
`Subscription` records that three operations change in place (add appends;
delete and update act on the first record whose id matches, and do nothing
when none does). Every change that happens writes a snapshot of the whole
list to `UserDefaults` under the key `"Subscriptions"`, provided the list
can be encoded as JSON. At start-up the
store loads that snapshot if it exists and decodes. Around the store sit four
screens with small state rules, also modelled here:

- the list screen's category and "active only" filter;
- the three-page onboarding carousel;
- the detail screen's edit buffer with its Edit, Save, Cancel and Delete actions;
- the add screen's form, which builds a new record and appends it.

Files and modules:

| file | module | models |
|---|---|---|
| `wrappers.dfy` | `Wrappers` | Swift optionals (`Option`) |
| `records.dfy` | `Records` | `Subscription`, `PaymentFrequency`, `SubscriptionCategory`, the memberwise initialiser |
| `storage.dfy` | `Storage` | `UserDefaults` as a mutable key-value map; JSON encoding and decoding of the list, kept abstract |
| `store.dfy` | `Store` | first-match search, delete and update specified on sequences; the `SubscriptionStore` class |
| `subscription_list.dfy` | `SubscriptionList` | `filteredSubscriptions` and the filter header |
| `onboarding.dfy` | `Onboarding` | the carousel's page and completion flag |
| `subscription_detail.dfy` | `SubscriptionDetail` | the detail screen's edit buffer |
| `add_subscription.dfy` | `AddSubscription` | the add screen's form |

Modelling choices:

- A `UUID` is 128 bits compared only for equality. The caller of
  `SaveSubscription` passes the fresh id that `UUID()` would draw.
- Nothing computes on an amount or a date. A `Double` is therefore carried
  as its 64 bits, and a `Date` as its `Double` of seconds.
- `UserDefaults.standard` is an object passed to the store's constructor.
  A stored value is either a list of records in JSON form or other bytes.
  The decoder accepts the first kind only when every amount and date in it
  is finite, because JSON has no NaN or infinity and `JSONDecoder` rejects
  them by default. `JSONEncoder` throws on a NaN or infinite
  `Double`, which is its default float strategy, and a `Date` is encoded as
  its `Double`. So `Encode` fails exactly when some amount or date is not
  finite. The save step then writes nothing and the old snapshot stays.
- One stored value stands for every byte string that decodes to the same
  list.
- The store's state is the `seq` field `subscriptions`, which the methods
  reassign. The id-uniqueness invariant `Valid()` is not something the store
  enforces. Update and delete preserve it. Add preserves it when the new id
  is absent from the list.
- `Filtered` is a pure function of the filter state and the list. The
  filter buttons and the toggle are functions from filter state to filter
  state.
- Onboarding's transition is stated once as `AfterNextTapped` on a value
  `Progress`. The class method `NextButtonTapped` is proved to perform it.
  The lemmas about repeated taps are stated on `AfterTaps`.

Two facts about the code that the model keeps:

- `addSubscription` appends without checking that the id is new, so the
  store does not enforce uniqueness. The model proves that update and
  delete keep it, and that add keeps it when the id is fresh.
- `PaymentFrequency.allCases` is monthly, yearly, weekly, in declaration
  order.

## Model

| member | source | states |
|---|---|---|
| `Records.PaymentFrequency.RawValue` | MembershipTracker/Generated/SubscriptionStore.swift:13-17 | each frequency has a non-empty raw string |
| `Records.SubscriptionCategory.RawValue` | MembershipTracker/Generated/SubscriptionStore.swift:19-24 | each category has a non-empty raw string |
| `Records.RawValuesDistinct` | MembershipTracker/Generated/SubscriptionStore.swift:13-24 | two cases have the same raw value exactly when they are the same case |
| `Records.AllCasesComplete` | MembershipTracker/Generated/SubscriptionStore.swift:13-24 | `allCases` lists every frequency and every category, each once |
| `Records.NewSubscription` | MembershipTracker/Generated/SubscriptionStore.swift:3-11 | the initialiser stores each argument in its field, with `isActive` true unless one is passed |
| `Records.NewSubscriptionIsActiveByDefault` | MembershipTracker/Generated/SubscriptionStore.swift:11 | a record built without `isActive` is active |
| `Storage.Decode` | MembershipTracker/Generated/SubscriptionStore.swift:63 | decoding succeeds exactly on data that holds a list whose amounts and dates are all finite, and then gives back that list |
| `Storage.Encode` | MembershipTracker/Generated/SubscriptionStore.swift:56 | encoding succeeds exactly when every amount and date is finite, and then decodes to that same list |
| `Storage.DecodeEncodeRoundTrip` | MembershipTracker/Generated/SubscriptionStore.swift:55-67 | for a list that encodes, decode undoes encode |
| `Storage.NonFiniteRecordBlocksEncoding` | MembershipTracker/Generated/SubscriptionStore.swift:56 | one record with a non-finite amount or date makes the list unencodable, however many records come before or after it |
| `Storage.UserDefaults.DataForKey` | MembershipTracker/Generated/SubscriptionStore.swift:62 | the lookup gives a value exactly when the key is stored, and that value is the stored one |
| `Storage.UserDefaults.Set` | MembershipTracker/Generated/SubscriptionStore.swift:57 | a write replaces the value under one key and leaves every other key as it was |
| `Store.FirstIndex` | MembershipTracker/Generated/SubscriptionStore.swift:42 | the result is the position of a record with the id with no earlier such record; it is absent exactly when no record has the id |
| `Store.FindFirstIndex` | MembershipTracker/Generated/SubscriptionStore.swift:49 | the front-to-back search finds exactly the first matching position, or reports none |
| `Store.RemoveFirstSpec` | MembershipTracker/Generated/SubscriptionStore.swift:41-45 | with a match, the list loses exactly the element at the first match: length drops by one, earlier elements stay, later ones shift down one; with no match the list is unchanged |
| `Store.RemoveFirstMultiset` | MembershipTracker/Generated/SubscriptionStore.swift:42-43 | with a match, the records after delete plus one record carrying the id make up exactly the records before |
| `Store.ReplaceFirstSpec` | MembershipTracker/Generated/SubscriptionStore.swift:48-53 | with a match, only the first matching position is overwritten by the new record; length, every other position and every id stay; with no match the list is unchanged |
| `Store.AppendKeepsIdsDistinct` | MembershipTracker/Generated/SubscriptionStore.swift:36-38 | appending a record whose id is not yet present keeps ids pairwise distinct |
| `Store.RemoveFirstKeepsIdsDistinct` | MembershipTracker/Generated/SubscriptionStore.swift:41-45 | delete keeps ids distinct, and with distinct ids no record with the deleted id remains |
| `Store.ReplaceFirstKeepsIdsDistinct` | MembershipTracker/Generated/SubscriptionStore.swift:48-53 | update keeps ids distinct, and the one record with the updated id is then the new record |
| `Store.SubscriptionStore.constructor` | MembershipTracker/Generated/SubscriptionStore.swift:28-34 | the list starts empty. It becomes the decoded list when the key is stored and decodes. With the key absent or the data undecodable it stays empty. Either way every amount and date in the list is finite |
| `Store.SubscriptionStore.AddSubscription` | MembershipTracker/Generated/SubscriptionStore.swift:36-39 | the list becomes the old list plus the record at the end. If the new list encodes, the snapshot is written and decodes to it; otherwise storage is untouched. Uniqueness is kept for a fresh id |
| `Store.SubscriptionStore.DeleteSubscription` | MembershipTracker/Generated/SubscriptionStore.swift:41-46 | the list becomes the old list with the first match removed. Storage is rewritten to the new list on a match when it encodes, and is untouched otherwise. Uniqueness is kept |
| `Store.SubscriptionStore.UpdateSubscription` | MembershipTracker/Generated/SubscriptionStore.swift:48-53 | the list becomes the old list with the first match replaced. Storage is rewritten on a match when the new list encodes, and is untouched otherwise. Uniqueness is kept |
| `Store.SubscriptionStore.SaveSubscriptions` | MembershipTracker/Generated/SubscriptionStore.swift:55-59 | if the list encodes, its encoding replaces the value under `"Subscriptions"`, other keys are untouched, and the snapshot decodes to the list. If it does not encode, storage is untouched |
| `Store.SubscriptionStore.LoadSubscriptions` | MembershipTracker/Generated/SubscriptionStore.swift:61-67 | the list is replaced by the stored list when it exists and decodes, and left as it was otherwise |
| `SubscriptionList.Filtered` | MembershipTracker/Generated/SubscriptionListView.swift:14-20 | every element of the result matches the filter and comes from the store's list |
| `SubscriptionList.FilteredIsSubsequence` | MembershipTracker/Generated/SubscriptionListView.swift:14-20 | the result is a subsequence of the store's list, in the same order |
| `SubscriptionList.FilteredCounts` | MembershipTracker/Generated/SubscriptionListView.swift:15-19 | a matching record occurs in the result as often as in the list, a non-matching one not at all; every matching element is shown |
| `SubscriptionList.UnfilteredShowsAll` | MembershipTracker/Generated/SubscriptionListView.swift:16-17 | with no category and "active only" off, the result is the whole list |
| `SubscriptionList.InitialFilterShowsActiveOnly` | MembershipTracker/Generated/SubscriptionListView.swift:5-18 | the initial filter (no category, active only) shows exactly the active records |
| `SubscriptionList.FilterButtons` | MembershipTracker/Generated/SubscriptionListView.swift:64-72 | the header shows "All" first, then one button per category in `allCases` order. "All" is highlighted iff no category is selected. A category's button is highlighted iff that category is |
| `SubscriptionList.TapFilterButton` | MembershipTracker/Generated/SubscriptionListView.swift:64-71 | "All" clears the selected category, a category button selects that category; "active only" is kept |
| `SubscriptionList.SetShowActiveOnly` | MembershipTracker/Generated/SubscriptionListView.swift:77 | the toggle sets "active only" and keeps the category |
| `SubscriptionList.ExactlyOneButtonSelected` | MembershipTracker/Generated/SubscriptionListView.swift:64-71 | exactly one header button is highlighted at any time, and after a tap it is the tapped one |
| `Onboarding.AfterNextTapped` | MembershipTracker/Generated/OnboardingView.swift:48-56 | on the last page a tap completes onboarding and keeps the page; elsewhere it moves one page on and keeps the flag |
| `Onboarding.TapsStayInRange` | MembershipTracker/Generated/OnboardingView.swift:7-56 | from a page in range, any number of taps keeps the page within the three pages and never moves back |
| `Onboarding.CompletedStaysCompleted` | MembershipTracker/Generated/OnboardingView.swift:49-50 | once completed on the last page, further taps change nothing |
| `Onboarding.ThreeTapsComplete` | MembershipTracker/Generated/OnboardingView.swift:4-56 | from the initial state, onboarding is complete after n taps exactly when n is at least three |
| `Onboarding.OnboardingView.constructor` | MembershipTracker/Generated/OnboardingView.swift:4-5 | the view starts on page 0 with onboarding not completed |
| `Onboarding.OnboardingView.NextButtonTitle` | MembershipTracker/Generated/OnboardingView.swift:37 | the label is "Get Started" exactly on the last page, and "Next" exactly elsewhere |
| `Onboarding.OnboardingView.NextButtonTapped` | MembershipTracker/Generated/OnboardingView.swift:48-56 | the view's state becomes `AfterNextTapped` of the old state, and the page stays in range |
| `Onboarding.OnboardingView.PageSelected` | MembershipTracker/Generated/OnboardingView.swift:27-31 | swiping selects one of the page tags and keeps the completion flag |
| `SubscriptionDetail.SubscriptionDetailView.EditedSubscription` | MembershipTracker/Generated/SubscriptionDetailView.swift:111-120 | the record built from the buffer always carries the original record's id |
| `SubscriptionDetail.SubscriptionDetailView.constructor` | MembershipTracker/Generated/SubscriptionDetailView.swift:18-28 | all seven buffer fields are copied from the record; not editing, no alert |
| `SubscriptionDetail.SubscriptionDetailView.TrailingButtonTitle` | MembershipTracker/Generated/SubscriptionDetailView.swift:83 | the button reads "Save" exactly while editing and "Edit" otherwise |
| `SubscriptionDetail.SubscriptionDetailView.SetFields` | MembershipTracker/Generated/SubscriptionDetailView.swift:34-52 | the editing controls write the seven buffer fields; the id stays the original one |
| `SubscriptionDetail.SubscriptionDetailView.SaveChanges` | MembershipTracker/Generated/SubscriptionDetailView.swift:110-122 | the store is updated with the buffer under the original id. Length is kept. Every record with another id is unchanged. On a match with an encodable list, only the snapshot key is rewritten and it equals the new list; otherwise storage is untouched. Uniqueness is kept |
| `SubscriptionDetail.SubscriptionDetailView.TrailingButtonTapped` | MembershipTracker/Generated/SubscriptionDetailView.swift:83-88 | while editing: saves, with the same storage outcome as `SaveChanges`, and leaves editing. Otherwise: enters editing and touches neither the store nor storage. The buffer is kept either way |
| `SubscriptionDetail.SubscriptionDetailView.ResetFields` | MembershipTracker/Generated/SubscriptionDetailView.swift:129-137 | the buffer becomes the record the view was created with |
| `SubscriptionDetail.SubscriptionDetailView.CancelTapped` | MembershipTracker/Generated/SubscriptionDetailView.swift:92-95 | Cancel leaves editing and restores the buffer to the original record, without touching the store |
| `SubscriptionDetail.SubscriptionDetailView.DeleteButtonTapped` | MembershipTracker/Generated/SubscriptionDetailView.swift:72-78 | offered only when not editing, it raises the confirmation alert |
| `SubscriptionDetail.SubscriptionDetailView.DeleteAlertCancelled` | MembershipTracker/Generated/SubscriptionDetailView.swift:99-100 | the alert's Cancel closes it and changes nothing else |
| `SubscriptionDetail.SubscriptionDetailView.DeleteAlertConfirmed` | MembershipTracker/Generated/SubscriptionDetailView.swift:99-103 | the alert's Delete closes it, removes the original record by its id and dismisses the view. The snapshot follows as for `DeleteSubscription`. The buffer and `isEditing` are kept |
| `SubscriptionDetail.SubscriptionDetailView.DeleteSubscription` | MembershipTracker/Generated/SubscriptionDetailView.swift:124-127 | the first record with the original id is removed from the store and the view is dismissed. On a match with an encodable list, only the snapshot key is rewritten and it equals the new list; otherwise storage is untouched. The buffer is kept. With distinct ids, none with that id remains |
| `SubscriptionDetail.EditSaveThenCancel` | MembershipTracker/Generated/SubscriptionDetailView.swift:83-137 | after Edit, change, Save, Edit, Cancel, the store holds the saved record. The buffer shows the values the view was opened with |
| `AddSubscription.AddSubscriptionView.constructor` | MembershipTracker/Generated/AddSubscriptionView.swift:7-13 | the form starts with name "", amount 0, today's date, monthly, entertainment, notes "" and no toast |
| `AddSubscription.AddSubscriptionView.FormSubscription` | MembershipTracker/Generated/AddSubscriptionView.swift:69-76 | the record carries the form's six fields, the fresh id, and `isActive` true |
| `AddSubscription.AddSubscriptionView.SetFields` | MembershipTracker/Generated/AddSubscriptionView.swift:19-43 | the form's controls write its six fields |
| `AddSubscription.AddSubscriptionView.SaveSubscription` | MembershipTracker/Generated/AddSubscriptionView.swift:68-79 | the store's list becomes the old list with the form's record appended. If the list encodes, only the snapshot key is rewritten and it matches the list; otherwise storage is untouched. The toast shows. Uniqueness is kept for a fresh id |
| `AddSubscription.AddSubscriptionView.CancelTapped` | MembershipTracker/Generated/AddSubscriptionView.swift:56-59 | Cancel closes the sheet, keeps the form, and does not touch the store |

## Left out

- The JSON format is not modelled. `JSONEncoder` and `JSONDecoder` are represented by `Encode` and `Decode` over an abstract stored value.
- `UUID()` randomness is not modelled. The fresh id is a parameter, and nothing proves that a random id is new.
- `Date()` is the clock. The add form receives the current date as a parameter.
- The delayed dismissal of the add sheet after 1.5 seconds and the toast hiding after 2 seconds are not modelled. They are timers on the main queue.
- Amounts and dates are carried as bits. Currency, `%.2f` and date formatting are not modelled.
- `@Published` change notification is not modelled. The same goes for SwiftUI re-rendering, and for access from several threads, which the app never does.
- The persistence of `hasCompletedOnboarding` under its own `UserDefaults` key is not modelled. The onboarding view starts from the declared default (nothing stored), and `ContentView`'s gate on that flag is not part of this model.
- The alert's buttons closing the alert is SwiftUI behaviour, not app code. The model sets `showingDeleteAlert` to false in both alert actions.
- The list screen's swipe-to-delete, row selection and add-sheet toggles belong to the view body. The swipe action calls the store's `deleteSubscription`, which is modelled.
- View layouts, colours, `DetailRow`, `ToastView`, `SubscriptionCard`, `OnboardingPageView` and navigation chrome are not modelled.
- `SettingsView`'s StoreKit review request and share sheet are platform calls and are not modelled.
- App start-up (Firebase, RemoteConfig, the rating manager) is external service set-up and is not modelled.
