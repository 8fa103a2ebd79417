/**
  The detail screen: an edit buffer over one record with Edit, Save, Cancel
  and Delete actions
  (MembershipTracker/Generated/SubscriptionDetailView.swift, lines 3-137).
 */
module SubscriptionDetail {
  import opened Records
  import opened Storage
  import opened Store

  class SubscriptionDetailView {
    /** The record the view was opened on; a `let`, so it never changes. */
    const subscription: Subscription
    const store: SubscriptionStore

    // The seven `@State` buffer fields.
    var name: string
    var amount: Double
    var nextPaymentDate: Date
    var frequency: PaymentFrequency
    var category: SubscriptionCategory
    var notes: string
    var isActive: bool

    var showingDeleteAlert: bool
    var isEditing: bool
    /** Set once the view has called the environment's `dismiss()`. */
    var dismissed: bool

    /** The record `saveChanges` builds: the original id with the buffer's fields. */
    function EditedSubscription(): (s: Subscription)
      reads this
      ensures s.id == subscription.id
    {
      Subscription(subscription.id, name, amount, nextPaymentDate, frequency, category, notes, isActive)
    }

    /** `init(subscription:store:)`: the buffer starts as a copy of the record. */
    constructor (subscription: Subscription, store: SubscriptionStore)
      ensures this.subscription == subscription && this.store == store
      ensures EditedSubscription() == subscription
      ensures !showingDeleteAlert && !isEditing && !dismissed
    {
      this.subscription := subscription;
      this.store := store;
      name := subscription.name;
      amount := subscription.amount;
      nextPaymentDate := subscription.nextPaymentDate;
      frequency := subscription.frequency;
      category := subscription.category;
      notes := subscription.notes;
      isActive := subscription.isActive;
      showingDeleteAlert := false;
      isEditing := false;
      dismissed := false;
    }

    /** The toolbar's trailing button reads "Save" while editing and "Edit" otherwise. */
    function TrailingButtonTitle(): (title: string)
      reads this
      ensures title == "Save" <==> isEditing
      ensures title == "Edit" <==> !isEditing
    {
      if isEditing then "Save" else "Edit"
    }

    /** The delete button is part of the form only when not editing. */
    predicate DeleteButtonShown()
      reads this
    {
      !isEditing
    }

    /** The form's text fields, pickers and toggle write the buffer; they exist only while editing. */
    method SetFields(name: string, amount: Double, nextPaymentDate: Date, frequency: PaymentFrequency,
                     category: SubscriptionCategory, notes: string, isActive: bool)
      requires isEditing
      modifies this
      ensures EditedSubscription() ==
        Subscription(subscription.id, name, amount, nextPaymentDate, frequency, category, notes, isActive)
      ensures isEditing && showingDeleteAlert == old(showingDeleteAlert) && dismissed == old(dismissed)
    {
      this.name, this.amount, this.nextPaymentDate := name, amount, nextPaymentDate;
      this.frequency, this.category, this.notes, this.isActive := frequency, category, notes, isActive;
    }

    /** `saveChanges`: the buffer, under the original id, goes through `updateSubscription`. */
    method SaveChanges()
      modifies store, store.defaults
      ensures store.subscriptions == ReplaceFirst(old(store.subscriptions), EditedSubscription())
      ensures |store.subscriptions| == |old(store.subscriptions)|
      ensures forall j :: 0 <= j < |store.subscriptions| && old(store.subscriptions)[j].id != subscription.id ==>
        store.subscriptions[j] == old(store.subscriptions)[j]
      ensures HasId(old(store.subscriptions), subscription.id) && Encodable(store.subscriptions) ==>
        store.defaults.values == old(store.defaults.values)[SaveKey := Encode(store.subscriptions).value]
        && store.Persisted()
      ensures !HasId(old(store.subscriptions), subscription.id) || !Encodable(store.subscriptions) ==>
        unchanged(store.defaults)
      ensures old(store.Valid()) ==> store.Valid()
    {
      var updatedSubscription := EditedSubscription();
      ReplaceFirstSpec(store.subscriptions, updatedSubscription);
      store.UpdateSubscription(updatedSubscription);
    }

    /** The Edit/Save button: saves when editing, then flips `isEditing`. */
    method TrailingButtonTapped()
      modifies this, store, store.defaults
      ensures isEditing == !old(isEditing)
      ensures old(isEditing) ==>
        store.subscriptions == ReplaceFirst(old(store.subscriptions), old(EditedSubscription()))
      ensures old(isEditing) && HasId(old(store.subscriptions), subscription.id) && Encodable(store.subscriptions) ==>
        store.defaults.values == old(store.defaults.values)[SaveKey := Encode(store.subscriptions).value]
        && store.Persisted()
      ensures old(isEditing) && (!HasId(old(store.subscriptions), subscription.id) || !Encodable(store.subscriptions)) ==>
        unchanged(store.defaults)
      ensures !old(isEditing) ==> unchanged(store) && unchanged(store.defaults)
      ensures EditedSubscription() == old(EditedSubscription())
      ensures showingDeleteAlert == old(showingDeleteAlert) && dismissed == old(dismissed)
      ensures old(store.Valid()) ==> store.Valid()
    {
      if isEditing {
        SaveChanges();
      }
      isEditing := !isEditing;
    }

    /** `resetFields`: the buffer is the record the view was created with. */
    method ResetFields()
      modifies this
      ensures EditedSubscription() == subscription
      ensures isEditing == old(isEditing) && showingDeleteAlert == old(showingDeleteAlert)
      ensures dismissed == old(dismissed)
    {
      name := subscription.name;
      amount := subscription.amount;
      nextPaymentDate := subscription.nextPaymentDate;
      frequency := subscription.frequency;
      category := subscription.category;
      notes := subscription.notes;
      isActive := subscription.isActive;
    }

    /** The Cancel button: leaves editing and discards the buffer, without touching the store. */
    method CancelTapped()
      modifies this
      ensures !isEditing && EditedSubscription() == subscription
      ensures showingDeleteAlert == old(showingDeleteAlert) && dismissed == old(dismissed)
    {
      isEditing := false;
      ResetFields();
    }

    /** The "Delete Subscription" button asks for confirmation. */
    method DeleteButtonTapped()
      requires DeleteButtonShown()
      modifies this
      ensures showingDeleteAlert && !isEditing
      ensures EditedSubscription() == old(EditedSubscription()) && dismissed == old(dismissed)
    {
      showingDeleteAlert := true;
    }

    /** The alert's Cancel button: the alert closes, nothing else happens. */
    method DeleteAlertCancelled()
      modifies this
      ensures !showingDeleteAlert
      ensures isEditing == old(isEditing) && EditedSubscription() == old(EditedSubscription())
      ensures dismissed == old(dismissed)
    {
      showingDeleteAlert := false;
    }

    /** The alert's Delete button: the alert closes and `deleteSubscription` runs. */
    method DeleteAlertConfirmed()
      modifies this, store, store.defaults
      ensures !showingDeleteAlert
      ensures store.subscriptions == RemoveFirst(old(store.subscriptions), subscription.id)
      ensures HasId(old(store.subscriptions), subscription.id) && Encodable(store.subscriptions) ==>
        store.defaults.values == old(store.defaults.values)[SaveKey := Encode(store.subscriptions).value]
        && store.Persisted()
      ensures !HasId(old(store.subscriptions), subscription.id) || !Encodable(store.subscriptions) ==>
        unchanged(store.defaults)
      ensures dismissed && isEditing == old(isEditing) && EditedSubscription() == old(EditedSubscription())
      ensures old(store.Valid()) ==> store.Valid() && !HasId(store.subscriptions, subscription.id)
    {
      showingDeleteAlert := false;
      DeleteSubscription();
    }

    /** `deleteSubscription`: removes the original record by its id and dismisses the view. */
    method DeleteSubscription()
      modifies this, store, store.defaults
      ensures store.subscriptions == RemoveFirst(old(store.subscriptions), subscription.id)
      ensures HasId(old(store.subscriptions), subscription.id) && Encodable(store.subscriptions) ==>
        store.defaults.values == old(store.defaults.values)[SaveKey := Encode(store.subscriptions).value]
        && store.Persisted()
      ensures !HasId(old(store.subscriptions), subscription.id) || !Encodable(store.subscriptions) ==>
        unchanged(store.defaults)
      ensures dismissed && EditedSubscription() == old(EditedSubscription())
      ensures showingDeleteAlert == old(showingDeleteAlert) && isEditing == old(isEditing)
      ensures old(store.Valid()) ==> store.Valid() && !HasId(store.subscriptions, subscription.id)
    {
      if store.Valid() {
        RemoveFirstKeepsIdsDistinct(store.subscriptions, subscription.id);
      }
      store.DeleteSubscription(subscription);
      dismissed := true;
    }
  }

  /**
    Edit, change the fields, Save, then Edit and Cancel: the store keeps the
    saved record, but the buffer goes back to the values the view was opened
    with, not to the ones just saved.
   */
  method EditSaveThenCancel(view: SubscriptionDetailView, edited: Subscription)
    requires !view.isEditing && edited.id == view.subscription.id
    requires HasId(view.store.subscriptions, view.subscription.id)
    modifies view, view.store, view.store.defaults
    ensures HasId(view.store.subscriptions, edited.id)
    ensures edited in view.store.subscriptions
    ensures !view.isEditing && view.EditedSubscription() == view.subscription
  {
    view.TrailingButtonTapped();
    view.SetFields(edited.name, edited.amount, edited.nextPaymentDate, edited.frequency,
                   edited.category, edited.notes, edited.isActive);
    assert view.EditedSubscription() == edited;
    ghost var before := view.store.subscriptions;
    view.TrailingButtonTapped();
    ReplaceFirstSpec(before, edited);
    view.TrailingButtonTapped();
    view.CancelTapped();
  }
}
