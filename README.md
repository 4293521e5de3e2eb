# PAYG back office — a Dafny model of payments and batch assignments

This project models the core of a pay-as-you-go (PAYG) back office written in
Django. Distributors own fleets of items, such as solar kits. They sell items to
customers and assign fleets and customers to their agents. Customers pay for an
item in instalments under a payment plan.

## Payments

The payment view records a payment on an item, credits the item's balance and
then takes exactly one branch:

- the item was already paid off;
- the payment completes the plan, which issues a completion code;
- the balance covers whole intervals, which are debited and turned into a code
  for so many days of use;
- the balance is too small for an interval.

The model is built in these layers:

- **Money.** Money is in integer cents. Every amount column is
  `numeric(10, 2)`, so a value fits when its magnitude is below 10^10 cents
  (`Money.Fits`). Python `Decimal` floor division truncates toward zero, so it
  is written out as `Money.TruncDiv`.
- **Pure specification.** `PaymentEngine` defines the view on values. `Screen`
  holds the checks before the transaction. `ApplyPayment` is the atomic block
  acting on an item's ledger (balance, status, payments) and on the code and
  message tables. An exception inside the block is a `RolledBack` outcome and
  changes nothing.
- **Properties.** `PaymentProperties` proves what a payment does:
  - the ledger append and the balance credit;
  - the branch conditions;
  - the completion code and the interval debit;
  - bounds, the uniqueness of codes, and the single message row;
  - that completion is final;
  - three worked examples.
- **The view itself.** `PaymentViews.MakePayment` is imperative, like the
  source. It updates an `Item` object and a `PaymentTables` object in place,
  and restores them when the block faults. It is proved equal to
  `Screen`/`ApplyPayment`. `Item.UpdateStatus` is the model's `update_status`.

## Batch assignments and guards

The batch endpoints loop over a list of ids. Each id either updates one
nullable foreign key of its row or is recorded as an error:

- fleets to an agent;
- items to a fleet;
- customers to an agent.

The loop is defined once, as a fold over the affected column (`Batch.Apply`).
Generic lemmas about the fold state:

- every id is reported exactly once, in request order;
- which rows change, and to what;
- which old values are reported;
- why each id was refused;
- sending the same batch again changes nothing further.

Each endpoint is an imperative method that mutates the `Fleet`, `Item` or
`Customer` objects. Its loop is proved equal to the fold. A lemma per endpoint
spells out its own guard.

## Where the model follows the code rather than the view's docstring

The docstring of `make_payment_view` (payments/views.py:27-52) describes a
single branch that debits one interval when the balance covers it, and a "no
plan" branch. The code does otherwise, and the model follows the code:

- The interval branch does not recompute the item's status. An item paid by
  intervals stays `pending` until the payment that completes the plan.
- The payment view has no "no plan" outcome. It reads `total_amount` from the
  plan before testing whether the plan exists, so a plan-less item fails
  before anything is written (`ItemHasNoPlan`).
- A payment on a paid-off item reports the status already stored; it does not
  recompute it.
- `get_or_create` for the payment message has no lookup fields. It returns the
  table's only row, whatever its text, so a completion code can point at a
  "Code generated for … usage." message. With two or more rows it raises, and
  the payment is rolled back.
- Codes are issued as database rows only. No token gateway and no
  `DISABLE_PAYG` / `ADD_TIME` tokens are generated.
- A mixed-case interval type such as `"Daily"` is refused by the model
  field's choice validation before `validate_interval_type` can lower-case it.
- A distributor paying for an item without a fleet, or buying one, fails with
  a server error, because `item.fleet.distributor` is read on `None`.
- Assigning items to a fleet claims any item that has no fleet. Who created
  the item is not checked.
- A null `note` in the payment body reaches the insert, because
  `request.data.get('note', '')` returns the `None` it finds. The note column
  is `NOT NULL`, so the block rolls back (`NullNote`).
- A distributor creating a customer may name any user as `assigned_agent`.
  The customer serializer lists the field as writable and nothing checks that
  the user is one of the distributor's agents
  (`ClientViews.DistributorPicksAnyAgent`).
- Once the field list is fixed (see "## Findings"), a plan name is stripped
  of surrounding white space, and a blank name or one holding a NUL character
  is refused, as the generated `CharField` does. A name the distributor already
  uses reaches the database: the serializer does not list `distributor`, so no
  uniqueness validator is generated, and the `unique_together` constraint
  turns the insert into a server error rather than a validation error.

## Model

| member | source | states |
|---|---|---|
| Money.TruncDivIsFloor | payments/views.py:151 | `Decimal` floor division of a non-negative balance by a positive interval is ordinary floor division |
| Money.TruncDivRemainder | payments/views.py:151-155 | what is left after debiting the whole intervals is smaller than one interval, no larger than the balance, and of the balance's sign |
| Money.TruncDivAtLeastOne | payments/views.py:149-152 | a balance of at least one positive interval yields at least one whole interval |
| Text.LowerIdempotent | payments/serializers.py:69 | lower-casing twice is lower-casing once |
| Text.Strip | payments/models.py:30 | `str.strip()` as the generated `CharField` applies it: no white space is left at either end, the result is empty exactly when the input is all white space, and it is never longer than the input |
| Text.StripIdempotent | payments/models.py:30 | stripping twice is stripping once |
| Text.StripPadded | payments/models.py:30 | stripping takes off exactly the white space around a piece that neither starts nor ends with white space |
| PaymentModels.CodesUniqueAppend | payments/models.py:80 | inserting a code not already in the table keeps the `code` column unique |
| PaymentModels.InsertPlan | payments/models.py:36-37 | a plan row is inserted if and only if its key is new and no plan of the same distributor has its name; existing rows are kept and uniqueness per distributor is preserved |
| PaymentModels.DetachPlan | payments/models.py:51-57 | deleting a plan nulls exactly the plan reference of its payments and keeps their amounts and customers |
| ItemModels.SumPaidAppend | items/models.py:118-119 | appending a payment raises the total paid by exactly its amount |
| ItemModels.SumPaid | items/models.py:118-119 | an empty ledger totals 0; a ledger of positive payments totals at least 0, and more than 0 unless it is empty |
| ItemModels.SumPaidDetach | items/models.py:118-119 | deleting a plan does not change an item's total paid |
| ItemModels.StatusFor | items/models.py:121-130 | with a plan: fully paid if and only if the total reaches the plan total, partially paid if and only if it is positive but short, pending if and only if it is not positive and short; without a plan the status is kept |
| ItemModels.StatusForIgnoresPrevious | items/models.py:121-130 | with a plan, the new status does not depend on the previous status |
| ItemModels.StatusForIdempotent | items/models.py:121-130 | updating the status twice is updating it once |
| ItemModels.Fleet.constructor | items/models.py:23-40 | a new fleet belongs to its distributor and has no agent |
| ItemModels.Item.constructor | items/models.py:99-104 | a new item has balance 0.00, which fits its `numeric(10, 2)` column, status pending and no payments |
| ItemModels.Item.CalculateTotalPaid | items/models.py:118-119 | an item without payments has paid 0 (the `or Decimal('0.00')` of an empty sum); with positive payments the total is positive exactly when there is a payment |
| ItemModels.Item.UpdateStatus | items/models.py:121-130 | changes only `status`, to the status the item's plan and total paid determine |
| ClientModels.Customer.constructor | clients/models.py:7-28 | a new customer has the given owner and agent |
| PaymentSerializers.ValidateIntervalType | payments/serializers.py:65-69 | accepts a value if and only if its lower-case form is an interval type, and returns that lower-case form |
| PaymentSerializers.ValidateIntervalTypeIdempotent | payments/serializers.py:65-69 | validating an accepted interval type again returns it unchanged |
| PaymentSerializers.LowerIdempotentOnChoices | payments/models.py:15-21 | an interval-type key is already lower case, so lower-casing it returns it unchanged |
| PaymentModels.IntervalTypesFitColumn | payments/models.py:15-32 | every interval-type key fits the 50-character `interval_type` column |
| PaymentSerializers.NameErrors | payments/models.py:30 | the name is accepted if and only if, once stripped, it is non-empty, at most 100 characters long and free of NUL characters; a blank name is reported exactly when the stripped name is empty, and a NUL character exactly when a non-blank stripped name holds one |
| PaymentSerializers.AmountErrors | payments/models.py:31-33 | an amount is accepted if and only if it fits `numeric(10, 2)` |
| PaymentSerializers.IntervalTypeErrors | payments/models.py:32 | the interval type is accepted if and only if it is exactly one of the choice keys; any other value is an invalid choice, so the lower-casing validator never sees it |
| PaymentSerializers.PlanErrors | payments/serializers.py:59-69 | the plan body is valid if and only if every field is; a blank name, a NUL character in the name and an invalid choice are each reported exactly when they occur |
| PaymentSerializers.CreatePlanAsWrittenAlwaysFails | payments/serializers.py:59-63 | with `updated_at` in the field list, every request from a super admin or distributor ends in a server error before validation |
| PaymentSerializers.CreatePlan | payments/views.py:328-344 | only super admins and distributors may create; a plan is created if and only if every field is valid (the stripped name non-blank, at most 100 characters and free of NUL characters) and the caller has no plan of the stripped name; it is then the caller's, stored under the stripped name, added without touching other plans, and names stay unique per distributor; invalid fields give exactly the field errors; a duplicate name gives the database's integrity error |
| PaymentSerializers.OnlyChoiceRefused | payments/models.py:15-32 | a request by a super admin or distributor whose name, amounts and id are acceptable but whose interval type is not one of the four choices is refused with exactly one invalid-choice error |
| PaymentSerializers.MixedCaseIntervalTypeRefused | payments/serializers.py:65-69 | any interval type that is a choice only after lower-casing is refused with only an invalid-choice error, although `validate_interval_type` alone would accept it as its lower-cased form |
| PaymentSerializers.DailyIsMixedCase | payments/models.py:15-20 | "Daily" is such an interval type: it is not a choice, and lower-cased it is "daily" |
| PaymentSerializers.PaddedNameCollides | payments/models.py:30-37 | for every name that differs from one of the distributor's plan names (free of NUL characters) only by white space around it, creating the plan ends in the database's integrity error, because the name is stripped before the insert |
| PaymentSerializers.ValidateAssignPlan | payments/serializers.py:34-53 | assignment is accepted if and only if the item and the plan exist and the plan is the user's own or the user is a super admin; every refusal carries an error, and with both ids valid the only error is the ownership one |
| PaymentEngine.Screen | payments/views.py:54-90 | a request reaches the transaction if and only if the caller is a distributor or super admin, an item id and a positive amount are given, the item exists, a distributor owns its fleet and it has a plan; everything else is a refusal or a failure before any write |
| PaymentEngine.PlanlessItemNeverReachesTransaction | payments/views.py:86-90 | for a super admin, or a distributor who owns the item's fleet, an item without a plan fails before the transaction, so the "no plan" response cannot be produced |
| PaymentEngine.Decide | payments/views.py:90-149 | the already-paid branch is taken exactly when the earlier payments reach the plan total; the completing branch exactly when this payment reaches it; the interval branch exactly when the total stays short and the credited balance covers an interval; otherwise the payment is insufficient |
| PaymentEngine.StoredDays | payments/views.py:162-171 | whole-day intervals give at least one day per interval; for hours the stored days are the whole days in n hours: 24·days ≤ n < 24·(days + 1) |
| PaymentEngine.StoredDaysByType | payments/views.py:162-171 | days granted are n for daily, 7n for weekly, 30n for monthly, n for an unknown type, and n/24 rounded down for hourly |
| PaymentEngine.GetOrCreateMessage | payments/views.py:126-128 | the lookup succeeds if and only if the message table has at most one row; the table then has exactly one row, the existing one whatever its text, or a new one with the default text |
| PaymentEngine.CodeFromUuid | payments/views.py:124 | the code is the first 12 characters of the upper-cased text without dashes: no dash and no lower-case letter remains |
| PaymentEngine.CodeFromUuidShape | payments/views.py:124 | every issued code is 12 upper-case hexadecimal digits and fits the 20-character column |
| PaymentEngine.ApplyPayment | payments/views.py:97-207 | inside the block there is no refusal or crash; a null note rolls back exactly when the amount fits; the code table keeps its rows and gains at most one, exactly when a code is issued; the status changes only on completion |
| PaymentProperties.RollbackChangesNothing | payments/views.py:209-214 | a fault inside the atomic block leaves the ledger and both tables as they were |
| PaymentProperties.PaymentIsRecorded | payments/views.py:97-110 | unless rolled back, the note was given and exactly one payment of the amount, with that note, is appended; the total paid grows by the amount |
| PaymentProperties.BranchSelection | payments/views.py:90-149 | the branch taken follows the priority: already paid, completes the plan, covers an interval, insufficient |
| PaymentProperties.NoCodeWithoutCompletionOrInterval | payments/views.py:113-202 | a payment on a paid-off item or below one interval issues no code, keeps the status and leaves balance plus amount |
| PaymentProperties.CompletionIssuesOneCode | payments/views.py:122-148 | the completing payment adds exactly one code, with no days, for the item; it does not debit the balance and marks the item fully paid |
| PaymentProperties.GrantDebitsWholeIntervals | payments/views.py:149-196 | the interval branch debits floor(balance / interval) ≥ 1 intervals, leaves 0 ≤ balance < interval, issues one code for the matching days and keeps the status |
| PaymentProperties.BalanceOverflowOnlyWhenCrediting | payments/views.py:149-156 | the debited balance always fits its column; a balance overflow can only come from crediting a fitting amount with a note |
| PaymentProperties.ApplyPaymentKeepsLedgerValid | payments/views.py:97-202 | a non-negative balance that fits, unique codes and at most one message row are preserved by every payment, whatever the plan's interval amount |
| PaymentProperties.MessageTableNeverGrowsPastOne | payments/views.py:173-177 | the view creates the first message row or leaves the table unchanged |
| PaymentProperties.SeveralMessagesBlockCodes | payments/views.py:126-128 | with two or more message rows no code can be issued |
| PaymentProperties.TakenCodeNeverIssued | payments/views.py:131-136 | a code already in the table is never issued again |
| PaymentProperties.CompletionIsTerminal | payments/views.py:93-95 | after the completing payment, every later payment on the plan is only recorded (or rolled back), with no new code and the item still fully paid |
| PaymentProperties.ExampleTwoDays | payments/views.py:149-196 | on a 100.00 plan of 20.00 daily intervals, paying 45.00 grants 2 days, leaves 5.00 and keeps the item pending |
| PaymentProperties.ExampleInsufficient | payments/views.py:197-202 | paying 10.00 on a fresh item under that plan is only credited, leaving 10.00 on the balance |
| PaymentProperties.ExampleCompletion | payments/views.py:122-148 | with 90.00 paid and 5.00 on the balance, paying 15.00 completes the plan with 20.00 kept and status fully paid |
| PaymentViews.PaymentTables.constructor | payments/models.py:74-93 | the code and message tables start empty |
| PaymentViews.Restore | payments/views.py:209-214 | a rollback puts back the saved balance, status, ledger and tables, and nothing else of the item changes |
| PaymentViews.CompleteInPlace | payments/views.py:122-148 | the completion branch, done in place, leaves exactly the state the specification gives |
| PaymentViews.GrantInPlace | payments/views.py:149-196 | the interval branch, done in place, leaves exactly the state the specification gives |
| PaymentViews.ApplyInPlace | payments/views.py:97-207 | the atomic block, done in place on the item and the tables, returns the outcome and leaves the state the specification gives |
| PaymentViews.MakePayment | payments/views.py:26-214 | a refused request changes nothing; an accepted one changes only its item's ledger and the tables, as the specification gives; every issued code has the code shape |
| Batch.InterleavesCount | items/views.py:273-311 | the done list and the error list together hold each requested id as often as the request does |
| Batch.Apply | items/views.py:276-306 | the fold reports one previous value per id done, and one entry, done or error, per requested id |
| Batch.ApplyReportsEveryId | items/views.py:276-306 | every requested id is reported exactly once, as done or as an error, in request order |
| Batch.ApplyColumn | items/views.py:276-306 | a row changes exactly when it was requested and its guard accepts its original value; it then holds the target; no row is added or removed |
| Batch.ApplyDone | items/views.py:276-306 | the ids reported done are exactly the requested rows whose guard accepts them |
| Batch.ApplyPrevious | items/views.py:383-391 | the previous value reported for a done id is its original value, or the target if the id was already done earlier in the request |
| Batch.ApplyErrors | items/views.py:276-300 | each error concerns a requested id; a missing row is reported as not existing; any other refusal is the guard's verdict on the row's value at that point |
| Batch.ApplyIdempotent | clients/views.py:194-208 | repeating the same batch changes no further row |
| Batch.AgentRequest | items/views.py:250-271 | the loop runs if and only if the caller is a distributor, the agent id is given, the id list is a non-empty list and the agent id names an agent; only non-distributors get a 403 |
| FleetViews.AssignFleets | items/views.py:236-312 | a refused request changes no fleet; otherwise the agent column and the response are exactly the batch fold with the assign guard |
| FleetViews.ReassignFleets | items/views.py:317-397 | likewise, with the reassign guard, reporting each fleet's previous agent |
| FleetViews.AssignFleetsNeverOverwrites | items/views.py:286-306 | assigning never replaces an existing agent and never touches another distributor's fleet; a fleet changes if and only if it was requested, is the caller's and had no agent |
| FleetViews.ReassignFleetsMovesOnlyAssigned | items/views.py:367-391 | reassigning moves exactly the caller's requested fleets that have an agent; every previous value reported is an agent, never null |
| FleetViews.GiveFleetTo | items/views.py:303-305 | setting one fleet's agent changes that fleet's entry of the agent column and nothing else |
| FleetViews.CanModifyFleet | items/views.py:206-214 | a super admin may modify any fleet and a distributor exactly its own; agents and other roles may not |
| ItemViews.FleetRequest | items/views.py:553-567 | the item loop runs if and only if the caller is a distributor, the fleet id is given and names a fleet the caller owns, and the item ids are a non-empty list; a missing fleet is a 404 and a foreign one a 403 |
| ItemViews.PutInFleet | items/views.py:588-589 | moving one item changes that item's entry of the fleet column and nothing else |
| ItemViews.AssignItemsToFleet | items/views.py:542-595 | a refused request changes no item; otherwise the fleet column and the response are exactly the batch fold; fleet references stay valid |
| ItemViews.ReassignItemsToFleet | items/views.py:600-662 | likewise, with the reassign guard |
| ItemViews.AssignItemsClaimsOnlyFleetless | items/views.py:579-590 | assignment moves exactly the requested items that have no fleet, whoever they belong to |
| ItemViews.ReassignItemsStaysWithOwner | items/views.py:638-657 | an item moves only out of one of the caller's fleets and into the caller's fleet; every such requested item moves |
| ItemViews.Sale | items/views.py:780-827 | an item is sold if and only if a distributor owns its fleet, it has no customer yet and an existing customer id is given; a sold item is never sold again; a fleetless item gives a server error |
| ItemViews.BuyItem | items/views.py:780-827 | the response is the sale decision; only a sale changes anything, and only that item's customer |
| ItemViews.CanModifyItem | items/views.py:506-513 | the item guard is the fleet guard on the item's fleet; an item without a fleet may be modified by a super admin only |
| ClientViews.CreatePlacement | clients/views.py:47-72 | super admins are refused, then an invalid body; a valid body creates a distributor's own customer with the agent the body names, or an agent's customer owned by the agent's distributor and assigned to the agent whatever the body says; an agent without a distributor is refused |
| ClientViews.CreateCustomer | clients/views.py:47-72 | the new customer row has exactly the placement the rules give |
| ClientViews.AgentCreatesOwnCustomer | clients/views.py:60-68 | an agent's new customer is owned by the agent's distributor and readable by the agent, whichever agent the body names |
| ClientViews.DistributorPicksAnyAgent | clients/views.py:52-58 | a distributor's new customer gets whichever agent the body names, even another distributor's agent, who can then read it |
| ClientViews.CustomerAccess | clients/views.py:89-128 | a super admin may do anything; otherwise access needs the caller to own the customer, or to be its assigned agent and only read; other roles get nothing |
| ClientViews.CustomerAccessRoles | clients/views.py:89-128 | whatever may be updated or deleted may be read; agents may only read, and only their assigned customers; distributors may act exactly on their own |
| ClientViews.AssignCustomers | clients/views.py:133-215 | a refused request changes no customer; otherwise the agent column and the response are exactly the batch fold with the assign guard |
| ClientViews.ReassignCustomers | clients/views.py:220-304 | likewise, with the reassign guard, reporting each customer's previous agent |
| ClientViews.GiveCustomerTo | clients/views.py:206-207 | setting one customer's agent changes that customer's entry of the agent column and nothing else |
| ClientViews.AssignCustomersKeepsOtherAgents | clients/views.py:186-208 | a customer with another agent keeps it; the caller's requested customers with no agent or this agent get this agent |
| ClientViews.ReassignCustomersTakesAllOwned | clients/views.py:274-298 | every requested customer of the caller gets the new agent whatever it had; the only refusals are a missing customer or a foreign one |

## Left out

- Randomness: `uuid4()` is a parameter of `MakePayment`, assumed to be
  well-formed UUID text. The uniqueness of codes is checked against the table,
  not assumed.
- `PaymentEngine.StoredDays`: for hourly plans the source multiplies by the
  float 1/24 and stores the result in an integer column. The model truncates
  n/24 exactly and ignores binary floating-point rounding.
- `PaymentViews.MakePayment`: the interval response reports `days` from the
  code object it has just created, so for hourly plans it is the float n/24,
  not the truncated value stored. The model's `Granted` outcome carries the
  stored whole days.
- `PaymentViews.MakePayment`: a note that is not text (a number or a list in a
  JSON body) is stored by the database as its string form; the model takes
  the note as text or null.
- `PaymentSerializers.CreatePlan`: the body fields are given as values. A
  missing or null field, which the serializer reports as required or null,
  is not modelled; nor is a name or interval type that is not a string.
- Decimal parsing: an amount arrives already classified as missing, malformed
  or a number of cents. Amounts with more than two decimals, `Infinity` and
  `NaN` are not modelled. Ids that are not integers are not modelled.
- Database enforcement: the model assumes the database rejects values that
  overflow `numeric(10, 2)` or the integer `days` column, and that this error
  rolls the block back. Backends that do not enforce these limits are not
  modelled.
- Unicode: lower- and upper-casing are ASCII only.
- Concurrency and isolation: one request is one sequential step. Two payments
  racing on one item, or on one message row, are not modelled.
- Framework: ORM queries, HTTP responses beyond their kind, rendering
  serializers, URL configuration, admin classes and migrations are out.
- Authentication: users are given as a role, an id and an optional
  distributor.
- Read-only list and detail GET views are not modelled. Of the detail views,
  only the modify guards are.
- The content of PUT and PATCH on fleets, items and customers is not modelled.
  The customer serializer's validation is a boolean input of
  `CreatePlacement`. It covers the check that `assigned_agent` names an
  existing user; the user's role is not checked by the source either.
- `EncoderState` and the token fields that the code serializer and admin name
  but the model does not have.
- The payment-plan assignment view that uses `AssignPaymentPlanSerializer` is
  not part of this model. Only the serializer's rules are.
- Cascading deletes other than a plan's `SET_NULL` on payments.

## Findings

| source | as written | input that shows it | evidently intended | confidence | as-written member | corrected member |
|---|---|---|---|---|---|---|
| payments/serializers.py:59-63 | `CreatePaymentPlanSerializer` lists `updated_at`, which the plan table does not have, so building its fields raises `ImproperlyConfigured` (the display serializer at lines 25-29 lists it too) | any POST to create a plan by a super admin or distributor | the serializer lists only the plan's columns, validates the body and inserts the plan | not executed | PaymentSerializers.CreatePlanAsWrittenAlwaysFails | PaymentSerializers.CreatePlan |
