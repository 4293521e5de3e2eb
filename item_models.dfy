/**
 * The inventory tables: fleets owned by distributors and the pay-as-you-go
 * items, whose balance, status and payment ledger the payment view updates.
 */
module ItemModels {
  import opened Wrappers
  import opened Money
  import opened PaymentModels

  /** `Item.STATUS_CHOICES`. */
  datatype Status = Pending | PartiallyPaid | FullyPaid

  /** A ledger in which every payment is for a positive amount, as the view only records those. */
  predicate AllPositive(payments: seq<Payment>) {
    forall i | 0 <= i < |payments| :: payments[i].amountPaid > 0
  }

  /**
   * The SQL `SUM(amount_paid)` over a ledger, 0 for an empty one. A ledger of
   * positive payments never totals less than zero, and more than zero unless empty.
   */
  function SumPaid(payments: seq<Payment>): (r: int)
    ensures payments == [] ==> r == 0
    ensures AllPositive(payments) ==> r >= 0 && (payments != [] ==> r > 0)
  {
    if payments == [] then 0
    else
      assert AllPositive(payments) ==> AllPositive(payments[1..]);
      payments[0].amountPaid + SumPaid(payments[1..])
  }

  lemma {:induction false} SumPaidAppend(payments: seq<Payment>, p: Payment)
    ensures SumPaid(payments + [p]) == SumPaid(payments) + p.amountPaid
  {
    if payments == [] {
      assert [p][1..] == [];
    } else {
      assert (payments + [p])[1..] == payments[1..] + [p];
      SumPaidAppend(payments[1..], p);
    }
  }

  /** Deleting a plan (which nulls the plan of its payments) does not change what was paid. */
  lemma {:induction false} SumPaidDetach(payments: seq<Payment>, planId: int)
    ensures SumPaid(DetachPlan(payments, planId)) == SumPaid(payments)
  {
    if payments != [] {
      var d := DetachPlan(payments, planId);
      assert d[1..] == DetachPlan(payments[1..], planId);
      SumPaidDetach(payments[1..], planId);
    }
  }

  /** The status `update_status` derives from a plan and a total paid. */
  function StatusFor(plan: Option<PaymentPlan>, total: int, current: Status): (s: Status)
    ensures plan.None? ==> s == current
    ensures plan.Some? ==> (s == FullyPaid <==> total >= plan.value.totalAmount)
    ensures plan.Some? ==> (s == PartiallyPaid <==> 0 < total < plan.value.totalAmount)
    ensures plan.Some? ==> (s == Pending <==> total <= 0 && total < plan.value.totalAmount)
  {
    match plan
    case None => current
    case Some(p) =>
      if total >= p.totalAmount then FullyPaid
      else if total > 0 then PartiallyPaid
      else Pending
  }

  /** With a plan, the derived status does not depend on the status it replaces. */
  lemma StatusForIgnoresPrevious(plan: PaymentPlan, total: int, a: Status, b: Status)
    ensures StatusFor(Some(plan), total, a) == StatusFor(Some(plan), total, b)
  {
  }

  /** Deriving the status a second time changes nothing. */
  lemma StatusForIdempotent(plan: Option<PaymentPlan>, total: int, current: Status)
    ensures StatusFor(plan, total, StatusFor(plan, total, current)) == StatusFor(plan, total, current)
  {
  }

  class Fleet {
    const id: int
    const distributor: int
    var assignedAgent: Option<int>

    /** A new fleet has no agent. */
    constructor (id: int, distributor: int)
      ensures this.id == id && this.distributor == distributor && assignedAgent == None
    {
      this.id := id;
      this.distributor := distributor;
      assignedAgent := None;
    }
  }

  class Item {
    const id: int
    var fleet: Option<int>
    var customer: Option<int>
    /** Accumulated, not yet converted payment, in cents. */
    var balance: int
    var status: Status
    var plan: Option<PaymentPlan>
    /** The item's payment ledger (`item.payments`). */
    var payments: seq<Payment>

    /** A new item: balance 0.00, status pending, no payments. */
    constructor (id: int, fleet: Option<int>, customer: Option<int>, plan: Option<PaymentPlan>)
      ensures this.id == id && this.fleet == fleet && this.customer == customer && this.plan == plan
      ensures balance == 0 && status == Pending && payments == []
      ensures Stored()
    {
      this.id := id;
      this.fleet := fleet;
      this.customer := customer;
      this.plan := plan;
      balance := 0;
      status := Pending;
      payments := [];
    }

    /** The balance fits its `numeric(10, 2)` column. */
    predicate Stored()
      reads this
    {
      Fits(balance)
    }

    /** `calculate_total_paid` */
    function CalculateTotalPaid(): (total: int)
      reads this
      ensures payments == [] ==> total == 0
      ensures AllPositive(payments) ==> (total > 0 <==> payments != [])
    {
      SumPaid(payments)
    }

    /** `update_status`: recomputes the status from the ledger when the item has a plan. */
    method UpdateStatus()
      modifies this`status
      ensures status == StatusFor(plan, CalculateTotalPaid(), old(status))
    {
      var totalPaid := CalculateTotalPaid();
      if plan.Some? {
        if totalPaid >= plan.value.totalAmount {
          status := FullyPaid;
        } else if totalPaid > 0 {
          status := PartiallyPaid;
        } else {
          status := Pending;
        }
      }
    }
  }

  /** The item table keyed by primary key (distinct keys are therefore distinct objects). */
  predicate KeyedById(items: map<int, Item>) {
    forall k | k in items :: items[k].id == k
  }

  /** The fleet table keyed by primary key. */
  predicate FleetsKeyedById(fleets: map<int, Fleet>) {
    forall k | k in fleets :: fleets[k].id == k
  }

  /** The `assigned_agent` column of the fleet table. */
  function FleetAgents(fleets: map<int, Fleet>): (col: map<int, Option<int>>)
    reads fleets.Values
    ensures col.Keys == fleets.Keys
  {
    map k | k in fleets :: fleets[k].assignedAgent
  }

  /** The `distributor` column of the fleet table. */
  function FleetOwners(fleets: map<int, Fleet>): (col: map<int, int>)
    ensures col.Keys == fleets.Keys
  {
    map k | k in fleets :: fleets[k].distributor
  }

  /** The `fleet` column of the item table. */
  function ItemFleets(items: map<int, Item>): (col: map<int, Option<int>>)
    reads items.Values
    ensures col.Keys == items.Keys
  {
    map k | k in items :: items[k].fleet
  }

  /** Every fleet an item points to is one of `fleetIds` (the foreign key holds). */
  predicate FleetsExist(items: map<int, Item>, fleetIds: set<int>)
    reads items.Values
  {
    forall k | k in items :: items[k].fleet.Some? ==> items[k].fleet.value in fleetIds
  }
}
