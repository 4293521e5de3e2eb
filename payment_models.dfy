/**
 * The tables of the payments application: payment plans, the payment ledger,
 * generated codes and payment messages, with the constraints their columns
 * and `Meta` options impose.
 */
module PaymentModels {
  import opened Wrappers
  import opened Money

  /** The keys of `PaymentPlan.INTERVAL_TYPES`. */
  const IntervalTypes: seq<string> := ["hourly", "daily", "weekly", "monthly"]

  /** Money amounts are integer cents (see module Money). */
  datatype PaymentPlan = PaymentPlan(
    id: int,
    distributor: Option<int>,
    name: string,
    totalAmount: int,
    intervalType: string,
    intervalAmount: int)

  /** Every interval-type key fits the 50-character `interval_type` column. */
  lemma IntervalTypesFitColumn(t: string)
    ensures t in IntervalTypes ==> |t| <= 50
  {
    if t in IntervalTypes {
      assert t == "hourly" || t == "daily" || t == "weekly" || t == "monthly";
    }
  }

  /** What the columns of a stored plan admit. */
  predicate StoredPlan(p: PaymentPlan) {
    && |p.name| <= 100
    && Fits(p.totalAmount)
    && |p.intervalType| <= 50
    && Fits(p.intervalAmount)
  }

  /** A ledger row; the item it belongs to is the item whose `payments` hold it. */
  datatype Payment = Payment(planId: Option<int>, amountPaid: int, customer: Option<int>, note: string)

  datatype PaymentMessage = PaymentMessage(message: string)

  /** `days` is null for the code that marks completion of a plan. */
  datatype GeneratedCode = GeneratedCode(itemId: int, code: string, days: Option<int>, messageId: int)

  predicate IsCompletionCode(c: GeneratedCode) {
    c.days.None?
  }

  /** Maximum length of the `code` column. */
  const CodeMaxLength: int := 20

  predicate CodeTaken(codes: seq<GeneratedCode>, code: string) {
    exists i | 0 <= i < |codes| :: codes[i].code == code
  }

  /** The `unique=True` constraint of the `code` column. */
  predicate CodesUnique(codes: seq<GeneratedCode>) {
    forall i, j | 0 <= i < j < |codes| :: codes[i].code != codes[j].code
  }

  /** Inserting a code that is not taken keeps the codes unique. */
  lemma CodesUniqueAppend(codes: seq<GeneratedCode>, c: GeneratedCode)
    requires CodesUnique(codes) && !CodeTaken(codes, c.code)
    ensures CodesUnique(codes + [c])
  {
    var all := codes + [c];
    forall i, j | 0 <= i < j < |all|
      ensures all[i].code != all[j].code
    {
      if j == |codes| {
        assert all[i] == codes[i];
      }
    }
  }

  /**
   * Two plans occupy the same `unique_together = ('distributor', 'name')` slot.
   * A NULL distributor never collides: SQL treats NULLs as distinct.
   */
  predicate SameNameSlot(p: PaymentPlan, q: PaymentPlan) {
    p.distributor.Some? && p.distributor == q.distributor && p.name == q.name
  }

  predicate PlanNamesUnique(plans: map<int, PaymentPlan>) {
    forall i, j | i in plans && j in plans && i != j :: !SameNameSlot(plans[i], plans[j])
  }

  datatype PlanInsertError = DuplicateId | DuplicateName

  /** Inserting a plan row, as the database's primary key and uniqueness constraint allow it. */
  function InsertPlan(plans: map<int, PaymentPlan>, p: PaymentPlan): (r: Result<map<int, PaymentPlan>, PlanInsertError>)
    ensures r.Success? <==> p.id !in plans && forall k | k in plans :: !SameNameSlot(plans[k], p)
    ensures r.Success? ==> r.value.Keys == plans.Keys + {p.id} && r.value[p.id] == p
    ensures r.Success? ==> forall k | k in plans :: r.value[k] == plans[k]
    ensures r.Success? && PlanNamesUnique(plans) ==> PlanNamesUnique(r.value)
  {
    if p.id in plans then Failure(DuplicateId)
    else if exists k | k in plans :: SameNameSlot(plans[k], p) then Failure(DuplicateName)
    else Success(plans[p.id := p])
  }

  /** `on_delete=SET_NULL` of `Payment.payment_plan`: what deleting plan `planId` does to a ledger. */
  function DetachPlan(payments: seq<Payment>, planId: int): (r: seq<Payment>)
    ensures |r| == |payments|
    ensures forall i :: 0 <= i < |r| ==> r[i].planId != Some(planId)
    ensures forall i :: 0 <= i < |r| ==> r[i].amountPaid == payments[i].amountPaid && r[i].customer == payments[i].customer
    ensures forall i :: 0 <= i < |r| && payments[i].planId != Some(planId) ==> r[i] == payments[i]
  {
    seq(|payments|, i requires 0 <= i < |payments| =>
      if payments[i].planId == Some(planId) then payments[i].(planId := None) else payments[i])
  }
}
