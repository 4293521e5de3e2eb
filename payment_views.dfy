/**
 * `make_payment_view`: the request checks, then the atomic block that records
 * the payment on the item, credits its balance and issues a completion or
 * interval code. The item and the code and message tables are updated in place;
 * a fault inside the block restores them (the transaction is rolled back).
 */
module PaymentViews {
  import opened Wrappers
  import opened Money
  import opened Text
  import opened Accounts
  import opened PaymentModels
  import opened ItemModels
  import opened PaymentEngine
  import opened PaymentProperties

  /** The `GeneratedCode` and `PaymentMessage` tables. */
  class PaymentTables {
    var codes: seq<GeneratedCode>
    var messages: seq<PaymentMessage>

    constructor ()
      ensures codes == [] && messages == []
    {
      codes := [];
      messages := [];
    }
  }

  /** The part of the database the atomic block writes for one item. */
  function Snapshot(item: Item, tables: PaymentTables): Ledger
    reads item, tables
  {
    Ledger(item.balance, item.status, item.payments, tables.codes, tables.messages)
  }

  /** `get_object_or_404(Item, pk=item_id)`, and what the view reads of the item it finds. */
  function Lookup(itemId: Option<int>, items: map<int, Item>, fleets: map<int, Fleet>): Option<ItemFacts>
    reads items.Values
    requires FleetsExist(items, fleets.Keys)
  {
    if itemId.None? || itemId.value !in items then None
    else
      var pk := itemId.value;
      var item := items[pk];
      var owner := if item.fleet.None? then None else Some(fleets[item.fleet.value].distributor);
      Some(ItemFacts(owner, item.plan))
  }

  /** Rolls the written rows back to a saved snapshot. */
  method Restore(item: Item, tables: PaymentTables, saved: Ledger)
    modifies item, tables
    ensures Snapshot(item, tables) == saved
    ensures item.fleet == old(item.fleet) && item.customer == old(item.customer) && item.plan == old(item.plan)
  {
    item.balance := saved.balance;
    item.status := saved.status;
    item.payments := saved.payments;
    tables.codes := saved.codes;
    tables.messages := saved.messages;
  }

  /**
   * The completion branch inside the block, on the item whose payment has just
   * been recorded: a completion code, then `update_status`.
   */
  method CompleteInPlace(item: Item, tables: PaymentTables, saved: Ledger, plan: PaymentPlan, code: string)
    returns (outcome: Outcome)
    requires item.plan == Some(plan)
    modifies item, tables
    ensures (outcome, Snapshot(item, tables)) == old(Complete(saved, Snapshot(item, tables), item.id, plan, code))
    ensures item.fleet == old(item.fleet) && item.customer == old(item.customer) && item.plan == old(item.plan)
  {
    var found := GetOrCreateMessage(tables.messages, CompletionMessage);
    if found.None? {
      Restore(item, tables, saved);
      return RolledBack(AmbiguousMessage);
    }
    if CodeTaken(tables.codes, code) {
      Restore(item, tables, saved);
      return RolledBack(DuplicateCode);
    }
    tables.messages := found.value.rows;
    tables.codes := tables.codes + [GeneratedCode(item.id, code, None, found.value.id)];
    item.UpdateStatus();
    return Completed(code, item.balance, item.status);
  }

  /** The interval branch inside the block: debit whole intervals and issue a code for their days. */
  method GrantInPlace(item: Item, tables: PaymentTables, saved: Ledger, plan: PaymentPlan, code: string)
    returns (outcome: Outcome)
    modifies item, tables
    ensures (outcome, Snapshot(item, tables)) == old(Grant(saved, Snapshot(item, tables), item.id, plan, code))
    ensures item.fleet == old(item.fleet) && item.customer == old(item.customer) && item.plan == old(item.plan)
  {
    if plan.intervalAmount == 0 {
      Restore(item, tables, saved);
      return RolledBack(DivisionByZero);
    }
    var intervals := TruncDiv(item.balance, plan.intervalAmount);
    item.balance := item.balance - plan.intervalAmount * intervals;
    if !Fits(item.balance) {
      Restore(item, tables, saved);
      return RolledBack(BalanceOverflow);
    }
    var days := StoredDays(DayFactorOf(Lower(plan.intervalType)), intervals);
    var found := GetOrCreateMessage(tables.messages, GrantMessage(plan.intervalType));
    if found.None? {
      Restore(item, tables, saved);
      return RolledBack(AmbiguousMessage);
    }
    if !FitsInt32(days) {
      Restore(item, tables, saved);
      return RolledBack(DaysOverflow);
    }
    if CodeTaken(tables.codes, code) {
      Restore(item, tables, saved);
      return RolledBack(DuplicateCode);
    }
    tables.messages := found.value.rows;
    tables.codes := tables.codes + [GeneratedCode(item.id, code, Some(days), found.value.id)];
    return Granted(code, days, item.balance);
  }

  /**
   * `transaction.atomic()` of the view for an accepted amount: record the
   * payment, credit the balance, then take the branch its totals select.
   */
  method ApplyInPlace(item: Item, tables: PaymentTables, plan: PaymentPlan, cents: int, note: Option<string>, code: string)
    returns (outcome: Outcome)
    requires cents > 0 && item.plan == Some(plan)
    modifies item, tables
    ensures (outcome, Snapshot(item, tables))
      == old(ApplyPayment(Snapshot(item, tables), item.id, item.customer, plan, cents, note, code))
    ensures item.fleet == old(item.fleet) && item.customer == old(item.customer) && item.plan == old(item.plan)
  {
    var totalPaid := item.CalculateTotalPaid();
    var willComplete := totalPaid + cents >= plan.totalAmount;
    var isFullyPaid := totalPaid >= plan.totalAmount;
    var saved := Snapshot(item, tables);
    if !Fits(cents) {
      return RolledBack(PaymentOverflow);
    }
    if note.None? {
      return RolledBack(NullNote);
    }
    item.payments := item.payments + [Payment(Some(plan.id), cents, item.customer, note.value)];
    item.balance := item.balance + cents;
    if !Fits(item.balance) {
      Restore(item, tables, saved);
      return RolledBack(BalanceOverflow);
    }
    if isFullyPaid {
      return RecordedFullyPaid(item.balance, item.status);
    } else if willComplete {
      outcome := CompleteInPlace(item, tables, saved, plan, code);
    } else if item.balance >= plan.intervalAmount {
      outcome := GrantInPlace(item, tables, saved, plan, code);
    } else {
      return RecordedInsufficient(item.balance);
    }
  }

  /**
   * POST /payments/make_payment/. `uuid` is the text of the fresh `uuid4()`
   * the view draws; the same one serves either code branch.
   */
  method MakePayment(user: User, itemId: Option<int>, amount: AmountField, note: Option<string>,
                     items: map<int, Item>, fleets: map<int, Fleet>, tables: PaymentTables, uuid: string)
    returns (outcome: Outcome)
    requires KeyedById(items) && FleetsExist(items, fleets.Keys)
    requires IsUuidText(uuid)
    modifies items.Values, tables
    ensures var screened := old(Screen(user, itemId, amount, Lookup(itemId, items, fleets)));
      && (screened.Failure? ==> outcome == screened.error && unchanged(items.Values) && unchanged(tables))
      && (screened.Success? ==>
            var item := items[itemId.value];
            && (outcome, Snapshot(item, tables))
                 == old(ApplyPayment(Snapshot(item, tables), item.id, item.customer, screened.value.plan,
                                     screened.value.amount, note, CodeFromUuid(uuid)))
            && item.fleet == old(item.fleet) && item.customer == old(item.customer) && item.plan == old(item.plan)
            && (forall k | k in items && k != itemId.value :: unchanged(items[k])))
    ensures outcome.Completed? ==> IsCode(outcome.completionCode)
    ensures outcome.Granted? ==> IsCode(outcome.code)
  {
    if user.role != Distributor && user.role != SuperAdmin {
      return Rejected(PaymentNotPermitted);
    }
    if !IdGiven(itemId) {
      return Rejected(ItemIdRequired);
    }
    if amount.Missing? {
      return Rejected(AmountRequired);
    }
    if amount.Malformed? {
      return Rejected(InvalidAmountFormat);
    }
    if amount.cents <= 0 {
      return Rejected(AmountNotPositive);
    }
    if itemId.value !in items {
      return Rejected(ItemNotFound);
    }
    var item := items[itemId.value];
    if user.role == Distributor {
      if item.fleet.None? {
        return Crashed(ItemHasNoFleet);
      }
      if fleets[item.fleet.value].distributor != user.id {
        return Rejected(NotItemOwner);
      }
    }
    if item.plan.None? {
      return Crashed(ItemHasNoPlan);
    }
    CodeFromUuidShape(uuid);
    outcome := ApplyInPlace(item, tables, item.plan.value, amount.cents, note, CodeFromUuid(uuid));
  }
}
