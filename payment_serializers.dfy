/**
 * Input validation of the payments application: the interval type of a new
 * plan, and the rules for assigning a plan to an item.
 */
module PaymentSerializers {
  import opened Wrappers
  import opened Money
  import opened Text
  import opened Accounts
  import opened PaymentModels

  datatype ValidationError =
    | InvalidChoice
    | InvalidIntervalType
    | TooManyDigits
    | BlankName
    | NameTooLong
    | NullCharacter
    | ItemDoesNotExist
    | PlanDoesNotExist
    | NotYourPlan

  /** `CreatePaymentPlanSerializer.validate_interval_type`: case-insensitive membership, result lower-cased. */
  function ValidateIntervalType(value: string): (r: Result<string, ValidationError>)
    ensures r.Success? <==> Lower(value) in IntervalTypes
    ensures r.Success? ==> r.value == Lower(value) && r.value in IntervalTypes
  {
    if Lower(value) !in IntervalTypes then Failure(InvalidIntervalType)
    else Success(Lower(value))
  }

  /** Validating an accepted interval type again returns it unchanged. */
  lemma ValidateIntervalTypeIdempotent(value: string)
    requires ValidateIntervalType(value).Success?
    ensures ValidateIntervalType(ValidateIntervalType(value).value) == ValidateIntervalType(value)
  {
    LowerIdempotent(value);
  }

  /** The field names a plan serializer can list. */
  datatype PlanField =
    | IdField | DistributorField | NameField | TotalAmountField | IntervalTypeField
    | IntervalAmountField | CreatedAtField | UpdatedAtField

  /** The columns of the payment-plan table: every field name but `updated_at`. */
  const PlanColumns: set<PlanField> :=
    {IdField, DistributorField, NameField, TotalAmountField, IntervalTypeField, IntervalAmountField, CreatedAtField}

  /** `CreatePaymentPlanSerializer.Meta.fields` as written: it lists `updated_at`, which the plan table lacks. */
  const CreatePlanFieldsAsWritten: seq<PlanField> :=
    [IdField, NameField, TotalAmountField, IntervalTypeField, IntervalAmountField, CreatedAtField, UpdatedAtField]

  /** The same field list without the column the table does not have. */
  const CreatePlanFields: seq<PlanField> :=
    [IdField, NameField, TotalAmountField, IntervalTypeField, IntervalAmountField, CreatedAtField]

  /** A model serializer builds its fields only when every listed name is a column; otherwise it raises `ImproperlyConfigured`. */
  predicate FieldsBuild(fields: seq<PlanField>) {
    forall i | 0 <= i < |fields| :: fields[i] in PlanColumns
  }

  /** A name the generated `name` field accepts: non-blank once stripped, at most 100 characters, no NUL. */
  predicate AcceptableName(name: string) {
    var n := Strip(name);
    0 < |n| <= 100 && '\0' !in n
  }

  /**
   * The `name` field generated for `CharField(max_length=100)` without
   * `blank=True`: the value is stripped and must not be blank; then every
   * validator of the field reports its error: at most 100 characters after
   * stripping, and no NUL character. (Surrogate code points, which the field
   * also refuses, are not values of `char`.)
   */
  function NameErrors(name: string): (r: seq<ValidationError>)
    ensures r == [] <==> AcceptableName(name)
    ensures BlankName in r <==> Strip(name) == []
    ensures NullCharacter in r <==> Strip(name) != [] && '\0' in Strip(name)
    ensures InvalidChoice !in r
  {
    var n := Strip(name);
    if n == [] then [BlankName]
    else (if |n| > 100 then [NameTooLong] else []) + (if '\0' in n then [NullCharacter] else [])
  }

  /** A decimal field generated for `DecimalField(max_digits=10, decimal_places=2)`. */
  function AmountErrors(cents: int): (r: seq<ValidationError>)
    ensures r == [] <==> Fits(cents)
    ensures BlankName !in r && InvalidChoice !in r && NullCharacter !in r
  {
    if Fits(cents) then [] else [TooManyDigits]
  }

  /** The choice field generated for `interval_type`, then `validate_interval_type` on what it accepts. */
  function IntervalTypeErrors(t: string): (r: seq<ValidationError>)
    ensures r == [] <==> t in IntervalTypes
    ensures InvalidChoice in r <==> t !in IntervalTypes
    ensures BlankName !in r && NullCharacter !in r
  {
    LowerIdempotentOnChoices(t);
    if t !in IntervalTypes then [InvalidChoice]
    else match ValidateIntervalType(t)
      case Failure(e) => [e]
      case Success(_) => []
  }

  /** `is_valid()` collects the errors of every field, in the order the fields are declared. */
  function PlanErrors(name: string, totalAmount: int, intervalType: string, intervalAmount: int): (r: seq<ValidationError>)
    ensures r == [] <==>
      AcceptableName(name) && Fits(totalAmount) && intervalType in IntervalTypes && Fits(intervalAmount)
    ensures BlankName in r <==> Strip(name) == []
    ensures NullCharacter in r <==> Strip(name) != [] && '\0' in Strip(name)
    ensures InvalidChoice in r <==> intervalType !in IntervalTypes
  {
    NameErrors(name) + AmountErrors(totalAmount) + IntervalTypeErrors(intervalType) + AmountErrors(intervalAmount)
  }

  /** What POST /payments/create_plan/ can end in. */
  datatype PlanCreation =
    | Forbidden                                // 403: neither super admin nor distributor
    | Invalid(errors: seq<ValidationError>)    // 400: the serializer's errors
    | ServerFault(fault: PlanFault)            // 500: an uncaught exception
    | Created(plans: map<int, PaymentPlan>)    // 201: the plan table with the new row

  datatype PlanFault =
    | UnknownSerializerField  // `ImproperlyConfigured`: a listed field is not a column
    | IntegrityError          // the `(distributor, name)` uniqueness constraint refuses the insert

  /**
   * `create_payment_plan` with a `CreatePaymentPlanSerializer` declaring
   * `fields`: the role check, `is_valid()`, then `create`, which stores the
   * plan under the requesting user. The serializer does not list
   * `distributor`, so no uniqueness validator is generated and a duplicate
   * name reaches the database. `id` is the key the database assigns.
   */
  function CreatePlanWith(fields: seq<PlanField>, plans: map<int, PaymentPlan>, user: User, id: int, name: string,
                          totalAmount: int, intervalType: string, intervalAmount: int): PlanCreation
    requires id !in plans
  {
    if user.role != SuperAdmin && user.role != Distributor then Forbidden
    else if !FieldsBuild(fields) then ServerFault(UnknownSerializerField)
    else
      var errors := PlanErrors(name, totalAmount, intervalType, intervalAmount);
      if errors != [] then Invalid(errors)
      else match InsertPlan(plans, PaymentPlan(id, Some(user.id), Strip(name), totalAmount, Lower(intervalType), intervalAmount))
        case Failure(_) => ServerFault(IntegrityError)
        case Success(m) => Created(m)
  }

  /** With its field list as written the serializer cannot be built: every permitted request ends in a 500. */
  lemma CreatePlanAsWrittenAlwaysFails(plans: map<int, PaymentPlan>, user: User, id: int, name: string,
                                       totalAmount: int, intervalType: string, intervalAmount: int)
    requires id !in plans && (user.role == SuperAdmin || user.role == Distributor)
    ensures CreatePlanWith(CreatePlanFieldsAsWritten, plans, user, id, name, totalAmount, intervalType, intervalAmount)
      == ServerFault(UnknownSerializerField)
  {
    assert CreatePlanFieldsAsWritten[6] !in PlanColumns;
  }

  /**
   * Creating a plan once the field list names only columns: the plan is
   * created exactly when the caller may create plans, every field is valid
   * and the caller has no plan of that (stripped) name; it then belongs to the
   * caller and is added without touching other plans.
   */
  function CreatePlan(plans: map<int, PaymentPlan>, user: User, id: int, name: string,
                      totalAmount: int, intervalType: string, intervalAmount: int): (r: PlanCreation)
    requires id !in plans
    ensures r.Forbidden? <==> user.role != SuperAdmin && user.role != Distributor
    ensures r.Created? <==>
      && (user.role == SuperAdmin || user.role == Distributor)
      && AcceptableName(name) && Fits(totalAmount) && intervalType in IntervalTypes && Fits(intervalAmount)
      && forall k | k in plans :: !(plans[k].distributor == Some(user.id) && plans[k].name == Strip(name))
    ensures r.Created? ==>
      && r.plans.Keys == plans.Keys + {id}
      && r.plans[id] == PaymentPlan(id, Some(user.id), Strip(name), totalAmount, intervalType, intervalAmount)
      && (forall k | k in plans :: r.plans[k] == plans[k])
      && StoredPlan(r.plans[id])
      && (PlanNamesUnique(plans) ==> PlanNamesUnique(r.plans))
    ensures r.Invalid? ==>
      && r.errors == PlanErrors(name, totalAmount, intervalType, intervalAmount) != []
      && (BlankName in r.errors <==> Strip(name) == [])
      && (NullCharacter in r.errors <==> Strip(name) != [] && '\0' in Strip(name))
      && (InvalidChoice in r.errors <==> intervalType !in IntervalTypes)
    ensures r.ServerFault? <==>
      && (user.role == SuperAdmin || user.role == Distributor)
      && PlanErrors(name, totalAmount, intervalType, intervalAmount) == []
      && exists k | k in plans :: plans[k].distributor == Some(user.id) && plans[k].name == Strip(name)
    ensures r.ServerFault? ==> r.fault == IntegrityError
  {
    assert FieldsBuild(CreatePlanFields);
    LowerIdempotentOnChoices(intervalType);
    IntervalTypesFitColumn(intervalType);
    var c := CreatePlanWith(CreatePlanFields, plans, user, id, name, totalAmount, intervalType, intervalAmount);
    var errors := PlanErrors(name, totalAmount, intervalType, intervalAmount);
    var p := PaymentPlan(id, Some(user.id), Strip(name), totalAmount, intervalType, intervalAmount);
    if user.role != SuperAdmin && user.role != Distributor then
      assert c == Forbidden; c
    else if errors != [] then
      assert c == Invalid(errors); c
    else if InsertPlan(plans, p).Failure? then
      assert c == ServerFault(IntegrityError); c
    else
      assert c == Created(InsertPlan(plans, p).value); c
  }

  /** The choice keys are already lower case, so the validator returns them unchanged. */
  lemma LowerIdempotentOnChoices(t: string)
    ensures t in IntervalTypes ==> Lower(t) == t
  {
    assert Lower("hourly") == "hourly";
    assert Lower("daily") == "daily";
    assert Lower("weekly") == "weekly";
    assert Lower("monthly") == "monthly";
  }

  /** A body whose only fault is its interval type is refused with exactly one invalid-choice error. */
  lemma OnlyChoiceRefused(plans: map<int, PaymentPlan>, user: User, id: int, name: string,
                          totalAmount: int, intervalType: string, intervalAmount: int)
    requires id !in plans && (user.role == SuperAdmin || user.role == Distributor)
    requires AcceptableName(name) && Fits(totalAmount) && Fits(intervalAmount)
    requires intervalType !in IntervalTypes
    ensures CreatePlan(plans, user, id, name, totalAmount, intervalType, intervalAmount) == Invalid([InvalidChoice])
  {
    assert NameErrors(name) == [] && AmountErrors(totalAmount) == [] && AmountErrors(intervalAmount) == [];
    assert IntervalTypeErrors(intervalType) == [InvalidChoice];
    assert PlanErrors(name, totalAmount, intervalType, intervalAmount) == [InvalidChoice];
  }

  /**
   * An interval type that is a choice only once lower-cased, such as "Daily",
   * is refused by the choice field although `validate_interval_type` alone
   * would accept it.
   */
  lemma MixedCaseIntervalTypeRefused(plans: map<int, PaymentPlan>, user: User, id: int, name: string,
                                     totalAmount: int, intervalType: string, intervalAmount: int)
    requires id !in plans && (user.role == SuperAdmin || user.role == Distributor)
    requires AcceptableName(name) && Fits(totalAmount) && Fits(intervalAmount)
    requires intervalType !in IntervalTypes && Lower(intervalType) in IntervalTypes
    ensures CreatePlan(plans, user, id, name, totalAmount, intervalType, intervalAmount) == Invalid([InvalidChoice])
    ensures ValidateIntervalType(intervalType) == Success(Lower(intervalType))
  {
    OnlyChoiceRefused(plans, user, id, name, totalAmount, intervalType, intervalAmount);
  }

  /** "Daily" is such a value: not a choice key, but "daily" once lower-cased. */
  lemma DailyIsMixedCase()
    ensures "Daily" !in IntervalTypes && Lower("Daily") == "daily" && "daily" in IntervalTypes
  {
    assert "Daily" !in IntervalTypes by {
      assert "Daily"[0] == 'D';
      assert IntervalTypes[0][0] == 'h' && IntervalTypes[1][0] == 'd';
      assert IntervalTypes[2][0] == 'w' && IntervalTypes[3][0] == 'm';
    }
    assert Lower("Daily") == "daily" by {
      assert LowerChar('D') == 'd';
    }
    assert IntervalTypes[1] == "daily";
  }

  /**
   * Names are stripped before they are stored, so a name padded with white
   * space is the name without it: a caller who already has a plan of that
   * name gets a 500 from the database rather than a validation error.
   */
  lemma PaddedNameCollides(plans: map<int, PaymentPlan>, user: User, id: int, pre: string, core: string, post: string,
                           totalAmount: int, intervalType: string, intervalAmount: int, other: int)
    requires id !in plans && (user.role == SuperAdmin || user.role == Distributor)
    requires forall i | 0 <= i < |pre| :: IsSpace(pre[i])
    requires forall i | 0 <= i < |post| :: IsSpace(post[i])
    requires core != [] && |core| <= 100 && '\0' !in core && !IsSpace(core[0]) && !IsSpace(core[|core| - 1])
    requires Fits(totalAmount) && intervalType in IntervalTypes && Fits(intervalAmount)
    requires other in plans && plans[other].distributor == Some(user.id) && plans[other].name == core
    ensures CreatePlan(plans, user, id, pre + core + post, totalAmount, intervalType, intervalAmount)
      == ServerFault(IntegrityError)
  {
    var name := pre + core + post;
    StripPadded(pre, core, post);
    assert Strip(name) == core;
    var p := PaymentPlan(id, Some(user.id), core, totalAmount, intervalType, intervalAmount);
    assert InsertPlan(plans, p).Failure?;
  }

  /** `AssignPaymentPlanSerializer.validate_item_id` */
  function ValidateItemId(itemId: int, itemIds: set<int>): Result<int, ValidationError> {
    if itemId !in itemIds then Failure(ItemDoesNotExist) else Success(itemId)
  }

  /** `AssignPaymentPlanSerializer.validate_payment_plan_id` */
  function ValidatePlanId(planId: int, plans: map<int, PaymentPlan>): Result<int, ValidationError> {
    if planId !in plans then Failure(PlanDoesNotExist) else Success(planId)
  }

  /**
   * `AssignPaymentPlanSerializer.is_valid()`: both field validators run and
   * their errors are collected; only when both pass does `validate` check that
   * the plan is the user's own (or the user is a super admin).
   */
  function ValidateAssignPlan(user: User, itemId: int, planId: int, itemIds: set<int>, plans: map<int, PaymentPlan>)
    : (r: Result<(int, int), seq<ValidationError>>)
    ensures r.Success? <==>
      && itemId in itemIds
      && planId in plans
      && (plans[planId].distributor == Some(user.id) || user.role == SuperAdmin)
    ensures r.Success? ==> r.value == (itemId, planId)
    ensures r.Failure? ==> r.error != []
    ensures r.Failure? && planId in plans && itemId in itemIds ==> r.error == [NotYourPlan]
  {
    var fieldErrors :=
      (if ValidateItemId(itemId, itemIds).Failure? then [ItemDoesNotExist] else [])
      + (if ValidatePlanId(planId, plans).Failure? then [PlanDoesNotExist] else []);
    if fieldErrors != [] then Failure(fieldErrors)
    else if plans[planId].distributor != Some(user.id) && user.role != SuperAdmin then Failure([NotYourPlan])
    else Success((itemId, planId))
  }
}
