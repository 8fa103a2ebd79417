/**
  The subscription record and its two closed enumerations
  (MembershipTracker/Generated/SubscriptionStore.swift, lines 3-25).

  The app computes nothing with an amount or a date: they are carried from a
  form into the store and back. They are therefore modelled by their bits.
 */
module Records {

  /** A Foundation `UUID`: 128 bits, compared for equality only. */
  datatype Uuid = Uuid(bits: bv128)

  /** A Swift `Double`, carried as its IEEE-754 bit pattern. */
  datatype Double = Double(bits: bv64)
  {
    /** Not NaN and not an infinity: the eleven exponent bits are not all ones. */
    predicate IsFinite() {
      (bits >> 52) & 0x7FF != 0x7FF
    }
  }

  /** A Foundation `Date`: seconds since the reference date, as a `Double`. */
  datatype Date = Date(timeIntervalSinceReferenceDate: Double)

  /** The literal `0.0`, the amount an empty form starts with. */
  const Zero: Double := Double(0)

  datatype PaymentFrequency = Monthly | Yearly | Weekly
  {
    /** The enum's raw string value, shown by pickers and detail rows. */
    function RawValue(): (r: string)
      ensures |r| > 0
    {
      match this
      case Monthly => "Monthly"
      case Yearly => "Yearly"
      case Weekly => "Weekly"
    }
  }

  datatype SubscriptionCategory = Entertainment | Sports | Professional | Other
  {
    function RawValue(): (r: string)
      ensures |r| > 0
    {
      match this
      case Entertainment => "Entertainment"
      case Sports => "Sports"
      case Professional => "Professional"
      case Other => "Other"
    }
  }

  /** `PaymentFrequency.allCases`, in declaration order. */
  const AllFrequencies: seq<PaymentFrequency> := [Monthly, Yearly, Weekly]

  /** `SubscriptionCategory.allCases`, in declaration order. */
  const AllCategories: seq<SubscriptionCategory> := [Entertainment, Sports, Professional, Other]

  datatype Subscription = Subscription(
    id: Uuid,
    name: string,
    amount: Double,
    nextPaymentDate: Date,
    frequency: PaymentFrequency,
    category: SubscriptionCategory,
    notes: string,
    isActive: bool)

  /**
    The memberwise initialiser. Swift's `id = UUID()` default draws a random
    id; here the caller supplies it. `isActive` keeps its declared default.
   */
  function NewSubscription(
    id: Uuid, name: string, amount: Double, nextPaymentDate: Date,
    frequency: PaymentFrequency, category: SubscriptionCategory, notes: string,
    isActive: bool := true): (s: Subscription)
    ensures s.id == id && s.name == name && s.amount == amount
    ensures s.nextPaymentDate == nextPaymentDate && s.frequency == frequency
    ensures s.category == category && s.notes == notes && s.isActive == isActive
  {
    Subscription(id, name, amount, nextPaymentDate, frequency, category, notes, isActive)
  }

  /** A record built without an explicit `isActive` is active. */
  lemma NewSubscriptionIsActiveByDefault(
    id: Uuid, name: string, amount: Double, nextPaymentDate: Date,
    frequency: PaymentFrequency, category: SubscriptionCategory, notes: string)
    ensures NewSubscription(id, name, amount, nextPaymentDate, frequency, category, notes).isActive
  {
  }

  /** Every enumeration value is listed exactly once in its `allCases`. */
  lemma AllCasesComplete(f: PaymentFrequency, c: SubscriptionCategory)
    ensures f in AllFrequencies && c in AllCategories
    ensures forall i, j :: 0 <= i < j < |AllCategories| ==> AllCategories[i] != AllCategories[j]
    ensures forall i, j :: 0 <= i < j < |AllFrequencies| ==> AllFrequencies[i] != AllFrequencies[j]
  {
  }

  /** Raw values tell the cases apart (they are what the JSON encoding stores). */
  lemma RawValuesDistinct(c: SubscriptionCategory, d: SubscriptionCategory, f: PaymentFrequency, g: PaymentFrequency)
    ensures c.RawValue() == d.RawValue() <==> c == d
    ensures f.RawValue() == g.RawValue() <==> f == g
  {
  }
}
