/**
  The add screen: a form whose fields start at fixed defaults and whose Save
  button appends a new record to the store
  (MembershipTracker/Generated/AddSubscriptionView.swift, lines 3-84).
 */
module AddSubscription {
  import opened Records
  import opened Storage
  import opened Store

  class AddSubscriptionView {
    const store: SubscriptionStore
    /** The `@Binding` that keeps this sheet on screen. */
    var isPresented: bool

    // The form's `@State` fields.
    var name: string
    var amount: Double
    var nextPaymentDate: Date
    var frequency: PaymentFrequency
    var category: SubscriptionCategory
    var notes: string
    var showingSuccessToast: bool

    /** A freshly shown form; `now` is the `Date()` read when the form is created. */
    constructor (store: SubscriptionStore, now: Date)
      ensures this.store == store && isPresented
      ensures name == "" && amount == Zero && nextPaymentDate == now
      ensures frequency == Monthly && category == Entertainment && notes == ""
      ensures !showingSuccessToast
    {
      this.store := store;
      isPresented := true;
      name := "";
      amount := Zero;
      nextPaymentDate := now;
      frequency := Monthly;
      category := Entertainment;
      notes := "";
      showingSuccessToast := false;
    }

    /**
      The record `saveSubscription` builds from the form: `id` stands for the
      fresh `UUID()`, and `isActive` is left at its default.
     */
    function FormSubscription(id: Uuid): (s: Subscription)
      reads this
      ensures s.id == id && s.isActive
      ensures s.name == name && s.amount == amount && s.nextPaymentDate == nextPaymentDate
      ensures s.frequency == frequency && s.category == category && s.notes == notes
    {
      NewSubscription(id, name, amount, nextPaymentDate, frequency, category, notes)
    }

    /** The form's text fields, date picker and pickers write their fields. */
    method SetFields(name: string, amount: Double, nextPaymentDate: Date, frequency: PaymentFrequency,
                     category: SubscriptionCategory, notes: string)
      modifies this
      ensures this.name == name && this.amount == amount && this.nextPaymentDate == nextPaymentDate
      ensures this.frequency == frequency && this.category == category && this.notes == notes
      ensures isPresented == old(isPresented) && showingSuccessToast == old(showingSuccessToast)
    {
      this.name, this.amount, this.nextPaymentDate := name, amount, nextPaymentDate;
      this.frequency, this.category, this.notes := frequency, category, notes;
    }

    /** `saveSubscription`: appends the form's record under `freshId` and shows the toast. */
    method SaveSubscription(freshId: Uuid)
      modifies this, store, store.defaults
      ensures store.subscriptions == old(store.subscriptions) + [old(FormSubscription(freshId))]
      ensures Encodable(store.subscriptions) ==>
        store.defaults.values == old(store.defaults.values)[SaveKey := Encode(store.subscriptions).value]
        && store.Persisted()
      ensures !Encodable(store.subscriptions) ==> unchanged(store.defaults)
      ensures showingSuccessToast && isPresented == old(isPresented)
      ensures FormSubscription(freshId) == old(FormSubscription(freshId))
      ensures old(store.Valid()) && !HasId(old(store.subscriptions), freshId) ==> store.Valid()
    {
      var subscription := FormSubscription(freshId);
      store.AddSubscription(subscription);
      showingSuccessToast := true;
    }

    /** The Cancel button closes the sheet; the store is not touched. */
    method CancelTapped()
      modifies this
      ensures !isPresented
      ensures name == old(name) && amount == old(amount) && nextPaymentDate == old(nextPaymentDate)
      ensures frequency == old(frequency) && category == old(category) && notes == old(notes)
      ensures showingSuccessToast == old(showingSuccessToast)
    {
      isPresented := false;
    }
  }
}
