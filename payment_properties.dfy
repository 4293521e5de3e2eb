/**
 * What one application of a payment does to an item's ledger, and what a
 * sequence of them keeps: the payment is always recorded unless the block is
 * rolled back, codes are issued only when a plan completes or a whole interval
 * is paid, the balance stays within its column and never goes negative, codes
 * stay unique, and a completed plan stays completed.
 */
module PaymentProperties {
  import opened Wrappers
  import opened Money
  import opened Text
  import opened PaymentModels
  import opened ItemModels
  import opened PaymentEngine

  /** The payment the view records. */
  function Recorded(plan: PaymentPlan, amount: int, customer: Option<int>, note: string): Payment {
    Payment(Some(plan.id), amount, customer, note)
  }

  /** A rolled-back block leaves the ledger and both tables as they were. */
  lemma RollbackChangesNothing(s: Ledger, itemId: int, customer: Option<int>, plan: PaymentPlan,
                               amount: int, note: Option<string>, code: string)
    requires amount > 0
    ensures var (o, t) := ApplyPayment(s, itemId, customer, plan, amount, note, code);
      o.RolledBack? ==> t == s
  {
  }

  /**
   * Unless the block is rolled back, the payment is appended to the ledger, the
   * total paid grows by exactly the amount.
   */
  lemma PaymentIsRecorded(s: Ledger, itemId: int, customer: Option<int>, plan: PaymentPlan,
                          amount: int, note: Option<string>, code: string)
    requires amount > 0
    ensures var (o, t) := ApplyPayment(s, itemId, customer, plan, amount, note, code);
      !o.RolledBack? ==>
        && note.Some?
        && t.payments == s.payments + [Recorded(plan, amount, customer, note.value)]
        && SumPaid(t.payments) == SumPaid(s.payments) + amount
  {
    if note.Some? {
      SumPaidAppend(s.payments, Recorded(plan, amount, customer, note.value));
    }
  }

  /** Which branch runs, from the totals alone, when nothing faults. */
  lemma BranchSelection(s: Ledger, itemId: int, customer: Option<int>, plan: PaymentPlan,
                        amount: int, note: Option<string>, code: string)
    requires amount > 0
    ensures var (o, t) := ApplyPayment(s, itemId, customer, plan, amount, note, code);
      && (o.RecordedFullyPaid? <==>
            Fits(amount) && note.Some? && Fits(s.balance + amount) && SumPaid(s.payments) >= plan.totalAmount)
      && (o.Completed? ==> SumPaid(s.payments) < plan.totalAmount <= SumPaid(s.payments) + amount)
      && (o.Granted? ==> SumPaid(s.payments) + amount < plan.totalAmount && s.balance + amount >= plan.intervalAmount)
      && (o.RecordedInsufficient? <==>
            && Fits(amount) && note.Some? && Fits(s.balance + amount)
            && SumPaid(s.payments) + amount < plan.totalAmount
            && s.balance + amount < plan.intervalAmount)
  {
  }

  /**
   * A payment on an already paid-off item, or one too small for an interval,
   * only credits the balance: no code is issued and the status is untouched.
   */
  lemma NoCodeWithoutCompletionOrInterval(s: Ledger, itemId: int, customer: Option<int>, plan: PaymentPlan,
                                          amount: int, note: Option<string>, code: string)
    requires amount > 0
    ensures var (o, t) := ApplyPayment(s, itemId, customer, plan, amount, note, code);
      (o.RecordedFullyPaid? || o.RecordedInsufficient?) ==>
        && t.codes == s.codes && t.messages == s.messages
        && t.status == s.status
        && t.balance == s.balance + amount
        && (o.RecordedFullyPaid? ==> o.balance == t.balance && o.status == s.status)
        && (o.RecordedInsufficient? ==> o.balance == t.balance)
  {
  }

  /**
   * The payment that completes a plan issues one completion code (no days) for
   * the item, keeps the whole credited balance and marks the item fully paid.
   */
  lemma CompletionIssuesOneCode(s: Ledger, itemId: int, customer: Option<int>, plan: PaymentPlan,
                                amount: int, note: Option<string>, code: string)
    requires amount > 0
    ensures var (o, t) := ApplyPayment(s, itemId, customer, plan, amount, note, code);
      o.Completed? ==>
        && |t.codes| == |s.codes| + 1
        && t.codes[..|s.codes|] == s.codes
        && IsCompletionCode(t.codes[|s.codes|])
        && t.codes[|s.codes|].itemId == itemId && t.codes[|s.codes|].code == code
        && 0 <= t.codes[|s.codes|].messageId < |t.messages|
        && t.balance == s.balance + amount && o.remaining == t.balance
        && t.status == FullyPaid && o.status == FullyPaid && o.completionCode == code
  {
    var (o, t) := ApplyPayment(s, itemId, customer, plan, amount, note, code);
    if o.Completed? {
      SumPaidAppend(s.payments, Recorded(plan, amount, customer, note.value));
      assert (s.codes + [t.codes[|s.codes|]])[..|s.codes|] == s.codes;
    }
  }

  /**
   * The interval branch takes as many whole intervals as the credited balance
   * holds, at least one, issues one code for their days, leaves less than one
   * interval on the balance and does not touch the status.
   */
  lemma GrantDebitsWholeIntervals(s: Ledger, itemId: int, customer: Option<int>, plan: PaymentPlan,
                                  amount: int, note: Option<string>, code: string)
    requires amount > 0 && plan.intervalAmount > 0 && s.balance >= 0
    ensures var (o, t) := ApplyPayment(s, itemId, customer, plan, amount, note, code);
      o.Granted? ==>
        var credited := s.balance + amount;
        var n := credited / plan.intervalAmount;
        && n >= 1
        && t.balance == credited % plan.intervalAmount == o.remaining
        && 0 <= t.balance < plan.intervalAmount
        && t.balance + n * plan.intervalAmount == credited
        && o.days == StoredDays(DayFactorOf(Lower(plan.intervalType)), n)
        && t.codes == s.codes + [GeneratedCode(itemId, code, Some(o.days), 0)]
        && o.code == code
        && t.status == s.status
  {
    var (o, t) := ApplyPayment(s, itemId, customer, plan, amount, note, code);
    if o.Granted? {
      var credited := s.balance + amount;
      TruncDivIsFloor(credited, plan.intervalAmount);
      TruncDivAtLeastOne(credited, plan.intervalAmount);
      NatRemainder(credited, plan.intervalAmount);
    }
  }

  /**
   * The remainder check of the interval branch can never fail: what is left is
   * no larger than the credited balance, which already fits its column.
   */
  lemma BalanceOverflowOnlyWhenCrediting(s: Ledger, itemId: int, customer: Option<int>, plan: PaymentPlan,
                                         amount: int, note: Option<string>, code: string)
    requires amount > 0
    ensures var (o, t) := ApplyPayment(s, itemId, customer, plan, amount, note, code);
      o == RolledBack(BalanceOverflow) ==> Fits(amount) && note.Some? && !Fits(s.balance + amount)
  {
    var credited := s.balance + amount;
    if Fits(amount) && Fits(credited) && plan.intervalAmount != 0 {
      TruncDivRemainder(credited, plan.intervalAmount);
    }
  }

  /** The view's ledger invariant: the balance fits its column and is never negative. */
  predicate LedgerValid(s: Ledger) {
    0 <= s.balance && Fits(s.balance) && CodesUnique(s.codes) && |s.messages| <= 1
  }

  /**
   * Every application of a payment keeps the ledger invariant, whatever the
   * plan's interval amount: a zero interval rolls back, and a negative one
   * still leaves a remainder between zero and the credited balance.
   */
  lemma ApplyPaymentKeepsLedgerValid(s: Ledger, itemId: int, customer: Option<int>, plan: PaymentPlan,
                                     amount: int, note: Option<string>, code: string)
    requires amount > 0 && LedgerValid(s)
    ensures LedgerValid(ApplyPayment(s, itemId, customer, plan, amount, note, code).1)
  {
    var (o, t) := ApplyPayment(s, itemId, customer, plan, amount, note, code);
    var credited := s.balance + amount;
    match o
    case Completed(_, _, _) =>
      CodesUniqueAppend(s.codes, t.codes[|s.codes|]);
    case Granted(_, _, _) =>
      TruncDivRemainder(credited, plan.intervalAmount);
      CodesUniqueAppend(s.codes, t.codes[|s.codes|]);
    case _ =>
  }

  /**
   * The view never adds a second message row: it creates the first one when the
   * table is empty and otherwise leaves the table as it is.
   */
  lemma MessageTableNeverGrowsPastOne(s: Ledger, itemId: int, customer: Option<int>, plan: PaymentPlan,
                                      amount: int, note: Option<string>, code: string)
    requires amount > 0
    ensures var t := ApplyPayment(s, itemId, customer, plan, amount, note, code).1;
      t.messages == s.messages || (s.messages == [] && |t.messages| == 1)
  {
  }

  /**
   * A ledger with several message rows can never issue a code: both code
   * branches roll back on the ambiguous `get_or_create`.
   */
  lemma SeveralMessagesBlockCodes(s: Ledger, itemId: int, customer: Option<int>, plan: PaymentPlan,
                                  amount: int, note: Option<string>, code: string)
    requires amount > 0 && |s.messages| >= 2
    ensures var (o, t) := ApplyPayment(s, itemId, customer, plan, amount, note, code);
      !o.Completed? && !o.Granted?
  {
  }

  /** A code that is already in the table is never issued a second time. */
  lemma TakenCodeNeverIssued(s: Ledger, itemId: int, customer: Option<int>, plan: PaymentPlan,
                             amount: int, note: Option<string>, code: string)
    requires amount > 0 && CodeTaken(s.codes, code)
    ensures var (o, t) := ApplyPayment(s, itemId, customer, plan, amount, note, code);
      !o.Completed? && !o.Granted? && t.codes == s.codes
  {
  }

  /**
   * Once a payment completes the plan, every later payment on the same plan is
   * recorded as a payment on a fully paid item (or rolled back): no further
   * code is issued.
   */
  lemma CompletionIsTerminal(s: Ledger, itemId: int, customer: Option<int>, plan: PaymentPlan,
                             amount: int, note: Option<string>, code: string,
                             customer2: Option<int>, amount2: int, note2: Option<string>, code2: string)
    requires amount > 0 && amount2 > 0
    requires ApplyPayment(s, itemId, customer, plan, amount, note, code).0.Completed?
    ensures var t := ApplyPayment(s, itemId, customer, plan, amount, note, code).1;
      var (o2, t2) := ApplyPayment(t, itemId, customer2, plan, amount2, note2, code2);
      (o2.RecordedFullyPaid? || o2.RolledBack?) && t2.codes == t.codes && t2.status == FullyPaid
  {
    var t := ApplyPayment(s, itemId, customer, plan, amount, note, code).1;
    var p := Recorded(plan, amount, customer, note.value);
    SumPaidAppend(s.payments, p);
    assert t.payments == s.payments + [p];
    assert SumPaid(t.payments) >= plan.totalAmount && t.status == FullyPaid;
  }

  /** A plan of 100.00 paid in daily intervals of 20.00, used by the worked examples below. */
  function ExamplePlan(): PaymentPlan {
    PaymentPlan(1, Some(7), "Solar kit", 10000, "daily", 2000)
  }

  function FreshLedger(): Ledger {
    Ledger(0, Pending, [], [], [])
  }

  /** Paying 45.00 on a fresh item buys two days and leaves 5.00; the item stays pending. */
  lemma ExampleTwoDays(code: string)
    ensures ApplyPayment(FreshLedger(), 3, None, ExamplePlan(), 4500, Some(""), code)
      == (Granted(code, 2, 500),
          Ledger(500, Pending, [Recorded(ExamplePlan(), 4500, None, "")],
                 [GeneratedCode(3, code, Some(2), 0)], [PaymentMessage(GrantMessage("daily"))]))
  {
    var plan := ExamplePlan();
    var s := FreshLedger();
    var recorded := s.(balance := 4500, payments := [Recorded(plan, 4500, None, "")]);
    assert s.payments + [Recorded(plan, 4500, None, "")] == recorded.payments;
    assert SumPaid(s.payments) == 0;
    assert Decide(0, 4500, 4500, plan) == IntervalGrant;
    assert TruncDiv(4500, 2000) == 2;
    assert Lower("daily") == "daily";
    assert StoredDays(DayFactorOf(Lower(plan.intervalType)), 2) == 2;
    assert GetOrCreateMessage([], GrantMessage("daily")) == Some(MessageLookup(0, [PaymentMessage(GrantMessage("daily"))]));
    assert !CodeTaken([], code);
    assert plan.intervalAmount != 0;
    var n := TruncDiv(recorded.balance, plan.intervalAmount);
    assert n == 2;
    assert recorded.balance - plan.intervalAmount * n == 500;
    assert Fits(500) && FitsInt32(2);
    assert recorded.codes + [GeneratedCode(3, code, Some(2), 0)] == [GeneratedCode(3, code, Some(2), 0)];
    assert Grant(s, recorded, 3, plan, code)
      == (Granted(code, 2, 500),
          recorded.(balance := 500, codes := [GeneratedCode(3, code, Some(2), 0)],
                    messages := [PaymentMessage(GrantMessage("daily"))]));
  }

  /** Paying 10.00 on a fresh item is less than one interval: it is only credited. */
  lemma ExampleInsufficient(code: string)
    ensures ApplyPayment(FreshLedger(), 3, None, ExamplePlan(), 1000, Some(""), code).0 == RecordedInsufficient(1000)
  {
  }

  /**
   * With 90.00 already paid and 5.00 on the balance, paying 15.00 completes the
   * plan: a completion code, the whole 20.00 kept on the balance, fully paid.
   */
  lemma ExampleCompletion(code: string)
    ensures var paid := [Recorded(ExamplePlan(), 9000, None, "")];
      ApplyPayment(Ledger(500, PartiallyPaid, paid, [], []), 3, None, ExamplePlan(), 1500, Some(""), code).0
        == Completed(code, 2000, FullyPaid)
  {
    var paid := [Recorded(ExamplePlan(), 9000, None, "")];
    assert SumPaid(paid) == 9000;
    SumPaidAppend(paid, Recorded(ExamplePlan(), 1500, None, ""));
  }
}
