/**
 * The payment-application engine of `make_payment_view`, as values: the checks
 * made before the transaction (`Screen`) and what the atomic block does to an
 * item's ledger and to the code and message tables (`ApplyPayment`).
 * The view itself, which mutates the item in place, is PaymentViews.MakePayment.
 */
module PaymentEngine {
  import opened Wrappers
  import opened Money
  import opened Text
  import opened Accounts
  import opened PaymentModels
  import opened ItemModels

  /** The `amount` field of the request: absent or falsy, not a decimal, or a decimal in cents. */
  datatype AmountField = Missing | Malformed | Amount(cents: int)

  /** Requests refused with a 400, 403 or 404 before anything is written. */
  datatype Rejection =
    | PaymentNotPermitted
    | ItemIdRequired
    | AmountRequired
    | InvalidAmountFormat
    | AmountNotPositive
    | ItemNotFound
    | NotItemOwner

  /** `AttributeError`s raised outside the `try` block: the request fails before anything is written. */
  datatype Crash = ItemHasNoFleet | ItemHasNoPlan

  /** Exceptions inside `transaction.atomic()`: the block is rolled back and a 500 is returned. */
  datatype Fault =
    | PaymentOverflow    // amount_paid does not fit numeric(10, 2)
    | NullNote           // a null note in the body: the note column is NOT NULL
    | BalanceOverflow    // balance does not fit numeric(10, 2)
    | DivisionByZero     // Decimal // by an interval amount of 0
    | AmbiguousMessage   // get_or_create with no lookup finds several rows
    | DaysOverflow       // days does not fit the integer column
    | DuplicateCode      // the code is already in the unique code column

  datatype Outcome =
    | Rejected(rejection: Rejection)
    | Crashed(crash: Crash)
    | RolledBack(fault: Fault)
    | RecordedFullyPaid(balance: int, status: Status)
    | Completed(completionCode: string, remaining: int, status: Status)
    | Granted(code: string, days: int, remaining: int)
    | RecordedInsufficient(balance: int)

  /** What the view reads of the item it found: the owner of its fleet (if it has one) and its plan. */
  datatype ItemFacts = ItemFacts(fleetOwner: Option<int>, plan: Option<PaymentPlan>)

  datatype Accepted = Accepted(amount: int, plan: PaymentPlan)

  /**
   * The checks of the view before its transaction, in the order it makes them.
   * `item` is what `get_object_or_404` found, if anything.
   */
  function Screen(user: User, itemId: Option<int>, amount: AmountField, item: Option<ItemFacts>): (r: Result<Accepted, Outcome>)
    ensures r.Success? <==>
      && (user.role == Distributor || user.role == SuperAdmin)
      && IdGiven(itemId)
      && amount.Amount? && amount.cents > 0
      && item.Some?
      && (user.role == Distributor ==> item.value.fleetOwner == Some(user.id))
      && item.value.plan.Some?
    ensures r.Success? ==> r.value == Accepted(amount.cents, item.value.plan.value)
    ensures r.Failure? ==> r.error.Rejected? || r.error.Crashed?
  {
    if user.role != Distributor && user.role != SuperAdmin then Failure(Rejected(PaymentNotPermitted))
    else if !IdGiven(itemId) then Failure(Rejected(ItemIdRequired))
    else if amount.Missing? then Failure(Rejected(AmountRequired))
    else if amount.Malformed? then Failure(Rejected(InvalidAmountFormat))
    else if amount.cents <= 0 then Failure(Rejected(AmountNotPositive))
    else if item.None? then Failure(Rejected(ItemNotFound))
    else if user.role == Distributor && item.value.fleetOwner.None? then Failure(Crashed(ItemHasNoFleet))
    else if user.role == Distributor && item.value.fleetOwner.value != user.id then Failure(Rejected(NotItemOwner))
    else if item.value.plan.None? then Failure(Crashed(ItemHasNoPlan))
    else Success(Accepted(amount.cents, item.value.plan.value))
  }

  /** An accepted request without a plan is impossible: the plan is dereferenced before the transaction. */
  lemma PlanlessItemNeverReachesTransaction(user: User, itemId: Option<int>, amount: AmountField, fleetOwner: Option<int>)
    requires user.role == SuperAdmin || (user.role == Distributor && fleetOwner == Some(user.id))
    requires IdGiven(itemId) && amount.Amount? && amount.cents > 0
    ensures Screen(user, itemId, amount, Some(ItemFacts(fleetOwner, None))) == Failure(Crashed(ItemHasNoPlan))
  {
  }

  /** The item's ledger and the two shared tables the atomic block writes. */
  datatype Ledger = Ledger(
    balance: int,
    status: Status,
    payments: seq<Payment>,
    codes: seq<GeneratedCode>,
    messages: seq<PaymentMessage>)

  /** The four branches of the view, in its order of priority. */
  datatype Branch = AlreadyPaid | CompletesPlan | IntervalGrant | Insufficient

  /** Branch selection from the total paid before this payment and the balance after crediting it. */
  function Decide(totalBefore: int, amount: int, credited: int, plan: PaymentPlan): (b: Branch)
    ensures b == AlreadyPaid <==> totalBefore >= plan.totalAmount
    ensures b == CompletesPlan <==> totalBefore < plan.totalAmount <= totalBefore + amount
    ensures b == IntervalGrant <==> totalBefore + amount < plan.totalAmount && totalBefore < plan.totalAmount
                                    && credited >= plan.intervalAmount
    ensures b == Insufficient <==> totalBefore + amount < plan.totalAmount && totalBefore < plan.totalAmount
                                   && credited < plan.intervalAmount
  {
    if totalBefore >= plan.totalAmount then AlreadyPaid
    else if totalBefore + amount >= plan.totalAmount then CompletesPlan
    else if credited >= plan.intervalAmount then IntervalGrant
    else Insufficient
  }

  /** The `interval_type_to_days` table: whole days per interval, or one hour (1/24 day). */
  datatype DayFactor = WholeDays(days: int) | OneHour

  /** `interval_type_to_days.get(t, 1)` */
  function DayFactorOf(t: string): DayFactor {
    if t == "hourly" then OneHour
    else if t == "daily" then WholeDays(1)
    else if t == "weekly" then WholeDays(7)
    else if t == "monthly" then WholeDays(30)
    else WholeDays(1)
  }

  /**
   * The value stored in the integer `days` column for `n` intervals. For hours
   * the product is the float `n / 24`, which the integer column truncates.
   */
  function StoredDays(f: DayFactor, n: int): (days: int)
    ensures f.WholeDays? && f.days >= 0 && n >= 0 ==> days >= 0
    ensures f.WholeDays? && f.days > 0 && n > 0 ==> days >= n
    ensures f.OneHour? && n >= 0 ==> 0 <= 24 * days <= n < 24 * (days + 1)
  {
    match f
    case WholeDays(d) => ProductBounds(d, n); d * n
    case OneHour => TruncDivRemainder(n, 24); TruncDiv(n, 24)
  }

  lemma ProductBounds(d: int, n: int)
    ensures d >= 0 && n >= 0 ==> d * n >= 0
    ensures d > 0 && n > 0 ==> d * n >= n
  {
    if d > 0 && n > 0 {
      assert d * n == (d - 1) * n + n;
    }
  }

  /** Days granted per interval type. */
  lemma StoredDaysByType(t: string, n: int)
    ensures t == "daily" ==> StoredDays(DayFactorOf(t), n) == n
    ensures t == "weekly" ==> StoredDays(DayFactorOf(t), n) == 7 * n
    ensures t == "monthly" ==> StoredDays(DayFactorOf(t), n) == 30 * n
    ensures t !in IntervalTypes ==> StoredDays(DayFactorOf(t), n) == n
    ensures t == "hourly" && n >= 0 ==> StoredDays(DayFactorOf(t), n) == n / 24
  {
    if t == "hourly" && n >= 0 {
      TruncDivIsFloor(n, 24);
    }
  }

  const CompletionMessage: string := "Congratulations! Full payment completed."

  function GrantMessage(intervalType: string): string {
    "Code generated for " + intervalType + " usage."
  }

  datatype MessageLookup = MessageLookup(id: int, rows: seq<PaymentMessage>)

  /**
   * `PaymentMessage.objects.get_or_create(defaults=...)` with no lookup fields:
   * it matches every row, so it creates the first row, returns the only row, or
   * fails when there are several. The default text is used only on creation.
   */
  function GetOrCreateMessage(rows: seq<PaymentMessage>, default: string): (r: Option<MessageLookup>)
    ensures r.Some? <==> |rows| <= 1
    ensures r.Some? ==> |r.value.rows| == 1 && 0 <= r.value.id < |r.value.rows|
    ensures r.Some? && rows != [] ==> r.value.rows == rows
    ensures r.Some? && rows == [] ==> r.value.rows[0].message == default
  {
    if |rows| == 0 then Some(MessageLookup(0, [PaymentMessage(default)]))
    else if |rows| == 1 then Some(MessageLookup(0, rows))
    else None
  }

  predicate IsLowerHexDigit(c: char) {
    '0' <= c <= '9' || 'a' <= c <= 'f'
  }

  predicate IsUpperHexDigit(c: char) {
    '0' <= c <= '9' || 'A' <= c <= 'F'
  }

  /** `str(uuid.uuid4())`: 32 lower-case hex digits in groups 8-4-4-4-12. */
  predicate IsUuidText(u: string) {
    && |u| == 36
    && forall i | 0 <= i < |u| ::
         if i == 8 || i == 13 || i == 18 || i == 23 then u[i] == '-' else IsLowerHexDigit(u[i])
  }

  /** The shape of every code the view issues. */
  predicate IsCode(code: string) {
    |code| == 12 && forall i | 0 <= i < |code| :: IsUpperHexDigit(code[i])
  }

  /** `str(uuid).replace('-', '').upper()[:12]` */
  function CodeFromUuid(u: string): (code: string)
    ensures |code| == if |RemoveChar(u, '-')| <= 12 then |RemoveChar(u, '-')| else 12
    ensures forall i | 0 <= i < |code| :: code[i] != '-' && !('a' <= code[i] <= 'z')
    ensures forall i | 0 <= i < |code| :: code[i] == UpperChar(RemoveChar(u, '-')[i])
  {
    var t := Upper(RemoveChar(u, '-'));
    if |t| <= 12 then t else t[..12]
  }

  /** Removing the dashes of a uuid text leaves its first two groups in front. */
  lemma UuidDashesRemoved(u: string)
    requires IsUuidText(u)
    ensures |RemoveChar(u, '-')| >= 12 && RemoveChar(u, '-')[..12] == u[..8] + u[9..13]
  {
    var a, d, b, rest := u[..8], u[8..9], u[9..13], u[13..];
    assert u == a + (d + (b + rest));
    RemoveCharAbsent(a, '-');
    RemoveCharAbsent(b, '-');
    assert d == ['-'];
    RemoveCharConcat(b, rest, '-');
    RemoveCharConcat(d, b + rest, '-');
    RemoveCharConcat(a, d + (b + rest), '-');
    assert RemoveChar(u, '-') == a + (b + RemoveChar(rest, '-'));
    assert (a + (b + RemoveChar(rest, '-')))[..12] == a + b;
  }

  /** Every code is 12 upper-case hex digits, so it fits the 20-character column. */
  lemma CodeFromUuidShape(u: string)
    requires IsUuidText(u)
    ensures IsCode(CodeFromUuid(u)) && |CodeFromUuid(u)| <= CodeMaxLength
  {
    UuidDashesRemoved(u);
    var t := RemoveChar(u, '-');
    var code := CodeFromUuid(u);
    forall i | 0 <= i < 12
      ensures IsUpperHexDigit(code[i])
    {
      assert t[i] == (u[..8] + u[9..13])[i];
      assert IsLowerHexDigit(if i < 8 then u[i] else u[i + 1]);
    }
  }

  /**
   * The atomic block of the view for an accepted amount: record the payment,
   * credit the balance, then take one branch. A fault leaves the ledger as it was.
   */
  function ApplyPayment(s: Ledger, itemId: int, customer: Option<int>, plan: PaymentPlan,
                        amount: int, note: Option<string>, code: string): (r: (Outcome, Ledger))
    requires amount > 0
    ensures !r.0.Rejected? && !r.0.Crashed?
    ensures r.0 == RolledBack(NullNote) <==> Fits(amount) && note.None?
    ensures |s.codes| <= |r.1.codes| <= |s.codes| + 1 && r.1.codes[..|s.codes|] == s.codes
    ensures |r.1.codes| == |s.codes| + 1 <==> r.0.Completed? || r.0.Granted?
    ensures r.1.status != s.status ==> r.0.Completed?
  {
    if !Fits(amount) then (RolledBack(PaymentOverflow), s)
    else if note.None? then (RolledBack(NullNote), s)
    else
      var recorded := s.(balance := s.balance + amount,
                         payments := s.payments + [Payment(Some(plan.id), amount, customer, note.value)]);
      if !Fits(recorded.balance) then (RolledBack(BalanceOverflow), s)
      else match Decide(SumPaid(s.payments), amount, recorded.balance, plan)
        case AlreadyPaid => (RecordedFullyPaid(recorded.balance, recorded.status), recorded)
        case CompletesPlan => Complete(s, recorded, itemId, plan, code)
        case IntervalGrant => Grant(s, recorded, itemId, plan, code)
        case Insufficient => (RecordedInsufficient(recorded.balance), recorded)
  }

  /** The completion branch: a code with no days, the status recomputed, no debit. */
  function Complete(s: Ledger, recorded: Ledger, itemId: int, plan: PaymentPlan, code: string): (Outcome, Ledger) {
    match GetOrCreateMessage(recorded.messages, CompletionMessage)
    case None => (RolledBack(AmbiguousMessage), s)
    case Some(m) =>
      if CodeTaken(recorded.codes, code) then (RolledBack(DuplicateCode), s)
      else
        var status := StatusFor(Some(plan), SumPaid(recorded.payments), recorded.status);
        (Completed(code, recorded.balance, status),
         recorded.(status := status,
                   codes := recorded.codes + [GeneratedCode(itemId, code, None, m.id)],
                   messages := m.rows))
  }

  /** The interval branch: debit whole intervals, issue a code for their days; the status is not recomputed. */
  function Grant(s: Ledger, recorded: Ledger, itemId: int, plan: PaymentPlan, code: string): (Outcome, Ledger) {
    if plan.intervalAmount == 0 then (RolledBack(DivisionByZero), s)
    else
      var n := TruncDiv(recorded.balance, plan.intervalAmount);
      var remaining := recorded.balance - plan.intervalAmount * n;
      if !Fits(remaining) then (RolledBack(BalanceOverflow), s)
      else
        var days := StoredDays(DayFactorOf(Lower(plan.intervalType)), n);
        match GetOrCreateMessage(recorded.messages, GrantMessage(plan.intervalType))
        case None => (RolledBack(AmbiguousMessage), s)
        case Some(m) =>
          if !FitsInt32(days) then (RolledBack(DaysOverflow), s)
          else if CodeTaken(recorded.codes, code) then (RolledBack(DuplicateCode), s)
          else
            (Granted(code, days, remaining),
             recorded.(balance := remaining,
                       codes := recorded.codes + [GeneratedCode(itemId, code, Some(days), m.id)],
                       messages := m.rows))
  }
}
