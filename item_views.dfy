/**
 * The item endpoints of the inventory: putting fleetless items into a fleet,
 * moving items between the caller's fleets, selling an item to a customer,
 * and who may modify an item.
 */
module ItemViews {
  import opened Wrappers
  import opened Accounts
  import opened ItemModels
  import opened Batch
  import opened FleetViews

  /**
   * The checks of the item-to-fleet endpoints before their loop: the caller is
   * a distributor, the fleet id is given, names a fleet (404 otherwise) that
   * the caller owns, and the item ids are a non-empty list.
   */
  function FleetRequest(user: User, fleetId: Option<int>, owners: map<int, int>, ids: Option<seq<int>>)
    : (r: Result<(int, seq<int>), Response>)
    ensures r.Success? <==>
      && user.role == Distributor && IdGiven(fleetId) && fleetId.value in owners
      && owners[fleetId.value] == user.id && ids.Some? && ids.value != []
    ensures r.Success? ==> r.value == (fleetId.value, ids.value)
    ensures r.Failure? && user.role == Distributor && IdGiven(fleetId) && fleetId.value in owners
      ==> (r.error == Denied <==> owners[fleetId.value] != user.id)
    ensures r.Failure? ==> (r.error == NotFound <==>
      user.role == Distributor && IdGiven(fleetId) && fleetId.value !in owners)
  {
    if user.role != Distributor then Failure(Denied)
    else if !IdGiven(fleetId) then Failure(BadRequest(FleetIdRequired))
    else if fleetId.value !in owners then Failure(NotFound)
    else if owners[fleetId.value] != user.id then Failure(Denied)
    else if ids.None? || ids.value == [] then Failure(BadRequest(IdListRequired))
    else Success((fleetId.value, ids.value))
  }

  /** The per-item check of POST /items/assign_fleet/: the item has no fleet yet (whoever's it is). */
  function AssignItemCheck(): Guard {
    (id: int, fleet: Option<int>) => if fleet.Some? then Some(HasFleet) else None
  }

  /** The per-item check of POST /items/reassign_fleet/: the item is in one of the caller's fleets. */
  function ReassignItemCheck(owners: map<int, int>, user: int): Guard {
    (id: int, fleet: Option<int>) =>
      if fleet.None? then Some(NoFleet)
      else if fleet.value !in owners || owners[fleet.value] != user then Some(ForeignFleet)
      else None
  }

  /** Sets the fleet of item `iid`, leaving every other item as it was. */
  method PutInFleet(items: map<int, Item>, iid: int, item: Item, target: int)
    requires KeyedById(items) && iid in items && items[iid] == item
    modifies item`fleet
    ensures ItemFleets(items) == old(ItemFleets(items))[iid := Some(target)]
    ensures forall k | k in items :: items[k].fleet == if k == iid then Some(target) else old(items[k].fleet)
  {
    item.fleet := Some(target);
    forall k | k in items
      ensures items[k].fleet == if k == iid then Some(target) else old(items[k].fleet)
    {
      assert k != iid ==> items[k].id != item.id;
    }
  }

  /** POST /items/assign_fleet/: put each listed item that has no fleet into the caller's fleet. */
  method AssignItemsToFleet(user: User, fleetId: Option<int>, itemIds: Option<seq<int>>,
                            items: map<int, Item>, fleets: map<int, Fleet>)
    returns (response: Response)
    requires KeyedById(items)
    modifies items.Values`fleet
    ensures match FleetRequest(user, fleetId, FleetOwners(fleets), itemIds)
      case Failure(refusal) => response == refusal && ItemFleets(items) == old(ItemFleets(items))
      case Success((target, ids)) =>
        var run := Apply(old(ItemFleets(items)), ids, AssignItemCheck(), target);
        response == Done(run.done, run.errors) && ItemFleets(items) == run.col
    ensures old(FleetsExist(items, fleets.Keys)) ==> FleetsExist(items, fleets.Keys)
  {
    var request := FleetRequest(user, fleetId, FleetOwners(fleets), itemIds);
    if request.Failure? {
      return request.error;
    }
    var (target, ids) := request.value;
    ghost var col0 := ItemFleets(items);
    ghost var check := AssignItemCheck();
    var done: seq<int> := [];
    ghost var previous: seq<Option<int>> := [];
    var errors: seq<Refused> := [];
    var i := 0;
    while i < |ids|
      invariant 0 <= i <= |ids|
      invariant Run(ItemFleets(items), done, previous, errors) == Apply(col0, ids[..i], check, target)
      invariant old(FleetsExist(items, fleets.Keys)) ==> FleetsExist(items, fleets.Keys)
    {
      ApplyExtend(col0, ids, i, check, target);
      var iid := ids[i];
      if iid !in items {
        errors := errors + [Refused(iid, DoesNotExist)];
      } else {
        var item := items[iid];
        if item.fleet.Some? {
          errors := errors + [Refused(iid, HasFleet)];
        } else {
          previous := previous + [item.fleet];
          PutInFleet(items, iid, item, target);
          done := done + [iid];
        }
      }
      i := i + 1;
    }
    assert ids[..i] == ids;
    return Done(done, errors);
  }

  /** POST /items/reassign_fleet/: move each listed item of the caller's fleets into the caller's new fleet. */
  method ReassignItemsToFleet(user: User, fleetId: Option<int>, itemIds: Option<seq<int>>,
                              items: map<int, Item>, fleets: map<int, Fleet>)
    returns (response: Response)
    requires KeyedById(items)
    modifies items.Values`fleet
    ensures match FleetRequest(user, fleetId, FleetOwners(fleets), itemIds)
      case Failure(refusal) => response == refusal && ItemFleets(items) == old(ItemFleets(items))
      case Success((target, ids)) =>
        var run := Apply(old(ItemFleets(items)), ids, ReassignItemCheck(FleetOwners(fleets), user.id), target);
        response == Done(run.done, run.errors) && ItemFleets(items) == run.col
    ensures old(FleetsExist(items, fleets.Keys)) ==> FleetsExist(items, fleets.Keys)
  {
    var request := FleetRequest(user, fleetId, FleetOwners(fleets), itemIds);
    if request.Failure? {
      return request.error;
    }
    var (target, ids) := request.value;
    ghost var col0 := ItemFleets(items);
    ghost var check := ReassignItemCheck(FleetOwners(fleets), user.id);
    var done: seq<int> := [];
    ghost var previous: seq<Option<int>> := [];
    var errors: seq<Refused> := [];
    var i := 0;
    while i < |ids|
      invariant 0 <= i <= |ids|
      invariant Run(ItemFleets(items), done, previous, errors) == Apply(col0, ids[..i], check, target)
      invariant old(FleetsExist(items, fleets.Keys)) ==> FleetsExist(items, fleets.Keys)
    {
      ApplyExtend(col0, ids, i, check, target);
      var iid := ids[i];
      if iid !in items {
        errors := errors + [Refused(iid, DoesNotExist)];
      } else {
        var item := items[iid];
        if item.fleet.None? {
          errors := errors + [Refused(iid, NoFleet)];
        } else if item.fleet.value !in fleets || fleets[item.fleet.value].distributor != user.id {
          errors := errors + [Refused(iid, ForeignFleet)];
        } else {
          previous := previous + [item.fleet];
          PutInFleet(items, iid, item, target);
          done := done + [iid];
        }
      }
      i := i + 1;
    }
    assert ids[..i] == ids;
    return Done(done, errors);
  }

  /**
   * Assigning claims every requested item that has no fleet, whoever created
   * it, and never moves an item that already has one.
   */
  lemma AssignItemsClaimsOnlyFleetless(col: map<int, Option<int>>, ids: seq<int>, target: int)
    ensures var after := Apply(col, ids, AssignItemCheck(), target).col;
      && after.Keys == col.Keys
      && forall k | k in col ::
           after[k] == if k in ids && col[k].None? then Some(target) else col[k]
  {
    ApplyColumn(col, ids, AssignItemCheck(), target);
  }

  /**
   * Reassigning moves exactly the requested items that sit in one of the
   * caller's fleets, and only into the caller's fleet: an item never leaves
   * another distributor's fleet.
   */
  lemma ReassignItemsStaysWithOwner(col: map<int, Option<int>>, owners: map<int, int>, user: int,
                                    ids: seq<int>, target: int)
    requires target in owners && owners[target] == user
    ensures var after := Apply(col, ids, ReassignItemCheck(owners, user), target).col;
      && after.Keys == col.Keys
      && forall k | k in col ::
           && (after[k] != col[k] ==> col[k].Some? && col[k].value in owners && owners[col[k].value] == user)
           && (after[k] != col[k] ==> after[k] == Some(target))
           && (k in ids && col[k].Some? && col[k].value in owners && owners[col[k].value] == user ==> after[k] == Some(target))
  {
    ApplyColumn(col, ids, ReassignItemCheck(owners, user), target);
  }

  /** What POST /items/<id>/buy/ reads of the item: the owner of its fleet (if any) and its customer. */
  datatype SaleFacts = SaleFacts(fleetOwner: Option<int>, customer: Option<int>)

  /**
   * POST /items/<id>/buy/ as a decision: a distributor sells an item of one of
   * their fleets, not yet sold, to an existing customer. An item without a
   * fleet makes the view fail (500) before any check on the customer.
   */
  function Sale(user: User, itemId: int, item: Option<SaleFacts>, customerId: Option<int>, customers: set<int>)
    : (r: Response)
    ensures r.Purchased? <==>
      && user.role == Distributor && item.Some? && item.value.fleetOwner == Some(user.id)
      && item.value.customer.None? && IdGiven(customerId) && customerId.value in customers
    ensures r.Purchased? ==> r == Purchased(itemId, customerId.value)
    ensures item.Some? && item.value.customer.Some? ==> !r.Purchased?
    ensures r.ServerError? <==> user.role == Distributor && item.Some? && item.value.fleetOwner.None?
  {
    if user.role != Distributor then Denied
    else if item.None? then NotFound
    else if item.value.fleetOwner.None? then ServerError
    else if item.value.fleetOwner.value != user.id then Denied
    else if item.value.customer.Some? then BadRequest(AlreadyPurchased)
    else if !IdGiven(customerId) then BadRequest(CustomerIdRequired)
    else if customerId.value !in customers then NotFound
    else Purchased(itemId, customerId.value)
  }

  /** What the purchase view reads of the item table. */
  function SaleLookup(itemId: int, items: map<int, Item>, fleets: map<int, Fleet>): Option<SaleFacts>
    reads items.Values
  {
    if itemId !in items then None
    else
      var item := items[itemId];
      var owner := if item.fleet.None? || item.fleet.value !in fleets then None
                   else Some(fleets[item.fleet.value].distributor);
      Some(SaleFacts(owner, item.customer))
  }

  /** POST /items/<id>/buy/: ties the item to the customer when the sale is allowed. */
  method BuyItem(user: User, itemId: int, customerId: Option<int>,
                 items: map<int, Item>, fleets: map<int, Fleet>, customers: set<int>)
    returns (response: Response)
    requires KeyedById(items) && FleetsExist(items, fleets.Keys)
    modifies items.Values`customer
    ensures response == old(Sale(user, itemId, SaleLookup(itemId, items, fleets), customerId, customers))
    ensures response.Purchased? ==> items[itemId].customer == Some(response.customerId)
    ensures forall k | k in items :: items[k].customer == old(items[k].customer) || (response.Purchased? && k == itemId)
  {
    if user.role != Distributor {
      return Denied;
    }
    if itemId !in items {
      return NotFound;
    }
    var item := items[itemId];
    if item.fleet.None? {
      return ServerError;
    }
    if fleets[item.fleet.value].distributor != user.id {
      return Denied;
    }
    if item.customer.Some? {
      return BadRequest(AlreadyPurchased);
    }
    if !IdGiven(customerId) {
      return BadRequest(CustomerIdRequired);
    }
    if customerId.value !in customers {
      return NotFound;
    }
    item.customer := customerId;
    return Purchased(itemId, customerId.value);
  }

  /**
   * Whom PUT, PATCH and DELETE on /items/<id>/ let through; `owner` is the
   * owner of the item's fleet, if it has one. The item guard is the fleet
   * guard applied to the item's fleet, and an item without a fleet can be
   * modified by a super admin only.
   */
  function CanModifyItem(user: User, owner: Option<int>): (r: bool)
    ensures owner.Some? ==> (r <==> CanModifyFleet(user, owner.value))
    ensures owner.None? ==> (r <==> user.role == SuperAdmin)
  {
    match user.role
    case SuperAdmin => true
    case Distributor => owner.Some? && owner.value == user.id
    case _ => false
  }
}
