/**
 * The customer endpoints: who may create a customer and on whose behalf, who
 * may read, update or delete one, and the batch assignment of customers to an
 * agent.
 */
module ClientViews {
  import opened Wrappers
  import opened Accounts
  import opened ClientModels
  import opened Batch

  /** The owner and agent a new customer gets, or why creation is refused. */
  datatype Placement = Placement(distributor: Option<int>, agent: Option<int>)

  datatype CreateRefusal = CreateDenied | InvalidCustomer

  /**
   * POST /customers/: super admins are refused first, then the serializer
   * validates the body (`valid`). `assigned_agent` is a writable field of the
   * body (`bodyAgent`); only `distributor` is read-only. A distributor creates
   * an own customer with the body's agent; an agent creates a customer of their
   * distributor assigned to themselves, whatever the body says; an agent
   * without a distributor and any other role are refused.
   */
  function CreatePlacement(user: User, valid: bool, bodyAgent: Option<int>): (r: Result<Placement, CreateRefusal>)
    ensures r.Success? <==>
      valid && (user.role == Distributor || (user.role == Agent && user.distributor.Some?))
    ensures r.Success? && user.role == Distributor ==> r.value == Placement(Some(user.id), bodyAgent)
    ensures r.Success? && user.role == Agent ==> r.value == Placement(user.distributor, Some(user.id))
    ensures r.Success? ==> r.value.distributor.Some?
    ensures user.role == SuperAdmin ==> r == Failure(CreateDenied)
    ensures !valid && user.role != SuperAdmin ==> r == Failure(InvalidCustomer)
  {
    if user.role == SuperAdmin then Failure(CreateDenied)
    else if !valid then Failure(InvalidCustomer)
    else if user.role == Distributor then Success(Placement(Some(user.id), bodyAgent))
    else if user.role == Agent then
      if user.distributor.None? then Failure(CreateDenied)
      else Success(Placement(user.distributor, Some(user.id)))
    else Failure(CreateDenied)
  }

  /** POST /customers/: creates the customer row `id` with the placement the caller's role gives it. */
  method CreateCustomer(user: User, id: int, valid: bool, bodyAgent: Option<int>) returns (r: Result<Customer, CreateRefusal>)
    ensures CreatePlacement(user, valid, bodyAgent).Failure? ==> r == Failure(CreatePlacement(user, valid, bodyAgent).error)
    ensures CreatePlacement(user, valid, bodyAgent).Success? ==>
      && r.Success? && fresh(r.value) && r.value.id == id
      && Placement(r.value.distributor, r.value.assignedAgent) == CreatePlacement(user, valid, bodyAgent).value
  {
    var placement := CreatePlacement(user, valid, bodyAgent);
    if placement.Failure? {
      return Failure(placement.error);
    }
    var customer := new Customer(id, placement.value.distributor, placement.value.agent);
    return Success(customer);
  }

  /**
   * A customer an agent creates is owned by the agent's distributor and
   * readable by the agent, whichever agent the body names.
   */
  lemma AgentCreatesOwnCustomer(user: User, valid: bool, bodyAgent: Option<int>)
    requires user.role == Agent && CreatePlacement(user, valid, bodyAgent).Success?
    ensures var p := CreatePlacement(user, valid, bodyAgent).value;
      p.distributor == user.distributor && CustomerAccess(user, p.distributor, p.agent, Read)
  {
  }

  /**
   * A distributor's new customer is assigned to whichever user the body names:
   * nothing checks that it is one of the distributor's agents, so the customer
   * may be readable by another distributor's agent from the start.
   */
  lemma DistributorPicksAnyAgent(user: User, other: User)
    requires user.role == Distributor && other.role == Agent && other.distributor != Some(user.id)
    ensures CreatePlacement(user, true, Some(other.id)) == Success(Placement(Some(user.id), Some(other.id)))
    ensures CustomerAccess(other, Some(user.id), Some(other.id), Read)
  {
  }

  datatype Action = Read | Update | Delete

  /**
   * GET, PUT, PATCH and DELETE on /customers/<id>/: the viewing check (super
   * admin any, a distributor its own, an agent its assigned), then agents may
   * not update or delete.
   */
  function CustomerAccess(user: User, owner: Option<int>, agent: Option<int>, action: Action): (r: bool)
    ensures r ==> user.role != OtherRole
    ensures r && user.role != SuperAdmin ==> owner == Some(user.id) || (agent == Some(user.id) && action == Read)
    ensures user.role == SuperAdmin ==> r
  {
    match user.role
    case SuperAdmin => true
    case Distributor => owner == Some(user.id)
    case Agent => agent == Some(user.id) && action == Read
    case OtherRole => false
  }

  /** Every action allowed is allowed for reading too; agents only ever read, and only their own customers. */
  lemma CustomerAccessRoles(user: User, owner: Option<int>, agent: Option<int>, action: Action)
    ensures CustomerAccess(user, owner, agent, action) ==> CustomerAccess(user, owner, agent, Read)
    ensures user.role == Agent && action != Read ==> !CustomerAccess(user, owner, agent, action)
    ensures user.role == Agent ==> (CustomerAccess(user, owner, agent, Read) <==> agent == Some(user.id))
    ensures user.role == Distributor ==> (CustomerAccess(user, owner, agent, action) <==> owner == Some(user.id))
  {
  }

  /**
   * The per-customer check of POST /customers/assign_agent/: the caller's own
   * customer, with no agent or already this agent.
   */
  function AssignCustomerCheck(owners: map<int, Option<int>>, user: int, agent: int): Guard {
    (id: int, current: Option<int>) =>
      if id !in owners || owners[id] != Some(user) then Some(NotOwner)
      else if current.Some? && current.value != agent then Some(AssignedElsewhere)
      else None
  }

  /** The per-customer check of POST /customers/reassign_agent/: the caller's own customer. */
  function ReassignCustomerCheck(owners: map<int, Option<int>>, user: int): Guard {
    (id: int, current: Option<int>) =>
      if id !in owners || owners[id] != Some(user) then Some(NotOwner) else None
  }

  /** Sets the agent of customer `cid`, leaving every other customer as it was. */
  method GiveCustomerTo(customers: map<int, Customer>, cid: int, customer: Customer, agent: int)
    requires CustomersKeyedById(customers) && cid in customers && customers[cid] == customer
    modifies customer`assignedAgent
    ensures CustomerAgents(customers) == old(CustomerAgents(customers))[cid := Some(agent)]
  {
    customer.assignedAgent := Some(agent);
    forall k | k in customers
      ensures customers[k].assignedAgent == if k == cid then Some(agent) else old(customers[k].assignedAgent)
    {
      assert k != cid ==> customers[k].id != customer.id;
    }
  }

  /** POST /customers/assign_agent/ */
  method AssignCustomers(user: User, agentId: Option<int>, customerIds: Option<seq<int>>,
                         roles: map<int, Role>, customers: map<int, Customer>)
    returns (response: Response)
    requires CustomersKeyedById(customers)
    modifies customers.Values`assignedAgent
    ensures match AgentRequest(user, agentId, customerIds, roles)
      case Failure(refusal) => response == refusal && CustomerAgents(customers) == old(CustomerAgents(customers))
      case Success((agent, ids)) =>
        var run := Apply(old(CustomerAgents(customers)), ids, AssignCustomerCheck(CustomerOwners(customers), user.id, agent), agent);
        response == Done(run.done, run.errors) && CustomerAgents(customers) == run.col
  {
    var request := AgentRequest(user, agentId, customerIds, roles);
    if request.Failure? {
      return request.error;
    }
    var (agent, ids) := request.value;
    ghost var col0 := CustomerAgents(customers);
    ghost var check := AssignCustomerCheck(CustomerOwners(customers), user.id, agent);
    var done: seq<int> := [];
    ghost var previous: seq<Option<int>> := [];
    var errors: seq<Refused> := [];
    var i := 0;
    while i < |ids|
      invariant 0 <= i <= |ids|
      invariant Run(CustomerAgents(customers), done, previous, errors) == Apply(col0, ids[..i], check, agent)
    {
      ApplyExtend(col0, ids, i, check, agent);
      var cid := ids[i];
      if cid !in customers {
        errors := errors + [Refused(cid, DoesNotExist)];
      } else {
        var customer := customers[cid];
        if customer.distributor != Some(user.id) {
          errors := errors + [Refused(cid, NotOwner)];
        } else if customer.assignedAgent.Some? && customer.assignedAgent.value != agent {
          errors := errors + [Refused(cid, AssignedElsewhere)];
        } else {
          previous := previous + [customer.assignedAgent];
          GiveCustomerTo(customers, cid, customer, agent);
          done := done + [cid];
        }
      }
      i := i + 1;
    }
    assert ids[..i] == ids;
    return Done(done, errors);
  }

  /** POST /customers/reassign_agent/ */
  method ReassignCustomers(user: User, newAgentId: Option<int>, customerIds: Option<seq<int>>,
                           roles: map<int, Role>, customers: map<int, Customer>)
    returns (response: Response)
    requires CustomersKeyedById(customers)
    modifies customers.Values`assignedAgent
    ensures match AgentRequest(user, newAgentId, customerIds, roles)
      case Failure(refusal) => response == refusal && CustomerAgents(customers) == old(CustomerAgents(customers))
      case Success((agent, ids)) =>
        var run := Apply(old(CustomerAgents(customers)), ids, ReassignCustomerCheck(CustomerOwners(customers), user.id), agent);
        response == DoneWithPrevious(run.done, run.previous, run.errors) && CustomerAgents(customers) == run.col
  {
    var request := AgentRequest(user, newAgentId, customerIds, roles);
    if request.Failure? {
      return request.error;
    }
    var (agent, ids) := request.value;
    ghost var col0 := CustomerAgents(customers);
    ghost var check := ReassignCustomerCheck(CustomerOwners(customers), user.id);
    var done: seq<int> := [];
    var previous: seq<Option<int>> := [];
    var errors: seq<Refused> := [];
    var i := 0;
    while i < |ids|
      invariant 0 <= i <= |ids|
      invariant Run(CustomerAgents(customers), done, previous, errors) == Apply(col0, ids[..i], check, agent)
    {
      ApplyExtend(col0, ids, i, check, agent);
      var cid := ids[i];
      if cid !in customers {
        errors := errors + [Refused(cid, DoesNotExist)];
      } else {
        var customer := customers[cid];
        if customer.distributor != Some(user.id) {
          errors := errors + [Refused(cid, NotOwner)];
        } else {
          var oldAgent := customer.assignedAgent;
          GiveCustomerTo(customers, cid, customer, agent);
          done := done + [cid];
          previous := previous + [oldAgent];
        }
      }
      i := i + 1;
    }
    assert ids[..i] == ids;
    return DoneWithPrevious(done, previous, errors);
  }

  /**
   * Assigning never takes a customer from another agent: after the batch every
   * requested customer of the caller that had no agent or this agent has this
   * agent, and every other customer keeps the agent it had.
   */
  lemma AssignCustomersKeepsOtherAgents(col: map<int, Option<int>>, owners: map<int, Option<int>>, user: int,
                                        ids: seq<int>, agent: int)
    requires col.Keys == owners.Keys
    ensures var r := Apply(col, ids, AssignCustomerCheck(owners, user, agent), agent);
      && r.col.Keys == col.Keys
      && (forall k | k in col ::
            r.col[k] == if k in ids && owners[k] == Some(user) && (col[k].None? || col[k] == Some(agent))
                        then Some(agent) else col[k])
      && (forall k | k in col && col[k].Some? && col[k] != Some(agent) :: r.col[k] == col[k])
      && (forall k | k in r.done :: k in col && (col[k].None? || col[k] == Some(agent)))
  {
    var check := AssignCustomerCheck(owners, user, agent);
    ApplyColumn(col, ids, check, agent);
    ApplyDone(col, ids, check, agent);
  }

  /**
   * Reassigning gives every requested customer of the caller the new agent,
   * whichever agent it had (including none or the same one); customers of
   * other distributors are untouched.
   */
  lemma ReassignCustomersTakesAllOwned(col: map<int, Option<int>>, owners: map<int, Option<int>>, user: int,
                                       ids: seq<int>, agent: int)
    requires col.Keys == owners.Keys
    ensures var r := Apply(col, ids, ReassignCustomerCheck(owners, user), agent);
      && r.col.Keys == col.Keys
      && (forall k | k in col ::
            r.col[k] == if k in ids && owners[k] == Some(user) then Some(agent) else col[k])
      && (forall e | e in r.errors :: e.why == DoesNotExist || e.why == NotOwner)
  {
    var check := ReassignCustomerCheck(owners, user);
    ApplyColumn(col, ids, check, agent);
    ApplyErrors(col, ids, check, agent);
  }
}
