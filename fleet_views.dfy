/**
 * The fleet endpoints of the inventory: assigning unassigned fleets to an
 * agent, moving assigned fleets to another agent, and who may modify a fleet.
 */
module FleetViews {
  import opened Wrappers
  import opened Accounts
  import opened ItemModels
  import opened Batch

  /** The per-fleet check of POST /fleets/assign/: the caller's own fleet, with no agent yet. */
  function AssignFleetCheck(owners: map<int, int>, user: int): Guard {
    (id: int, agent: Option<int>) =>
      if id !in owners || owners[id] != user then Some(NotOwner)
      else if agent.Some? then Some(AlreadyAssigned)
      else None
  }

  /** The per-fleet check of POST /fleets/reassign/: the caller's own fleet, with an agent already. */
  function ReassignFleetCheck(owners: map<int, int>, user: int): Guard {
    (id: int, agent: Option<int>) =>
      if id !in owners || owners[id] != user then Some(NotOwner)
      else if agent.None? then Some(NotAssigned)
      else None
  }

  /** Sets the agent of fleet `fid`, leaving every other fleet as it was. */
  method GiveFleetTo(fleets: map<int, Fleet>, fid: int, fleet: Fleet, agent: int)
    requires FleetsKeyedById(fleets) && fid in fleets && fleets[fid] == fleet
    modifies fleet`assignedAgent
    ensures FleetAgents(fleets) == old(FleetAgents(fleets))[fid := Some(agent)]
  {
    fleet.assignedAgent := Some(agent);
    forall k | k in fleets
      ensures fleets[k].assignedAgent == if k == fid then Some(agent) else old(fleets[k].assignedAgent)
    {
      assert k != fid ==> fleets[k].id != fleet.id;
    }
  }

  /** POST /fleets/assign/: give each listed, owned, unassigned fleet to the agent. */
  method AssignFleets(user: User, agentId: Option<int>, fleetIds: Option<seq<int>>,
                      roles: map<int, Role>, fleets: map<int, Fleet>)
    returns (response: Response)
    requires FleetsKeyedById(fleets)
    modifies fleets.Values`assignedAgent
    ensures match AgentRequest(user, agentId, fleetIds, roles)
      case Failure(refusal) => response == refusal && FleetAgents(fleets) == old(FleetAgents(fleets))
      case Success((agent, ids)) =>
        var run := Apply(old(FleetAgents(fleets)), ids, AssignFleetCheck(FleetOwners(fleets), user.id), agent);
        response == Done(run.done, run.errors) && FleetAgents(fleets) == run.col
  {
    var request := AgentRequest(user, agentId, fleetIds, roles);
    if request.Failure? {
      return request.error;
    }
    var (agent, ids) := request.value;
    ghost var col0 := FleetAgents(fleets);
    ghost var check := AssignFleetCheck(FleetOwners(fleets), user.id);
    var done: seq<int> := [];
    ghost var previous: seq<Option<int>> := [];
    var errors: seq<Refused> := [];
    var i := 0;
    while i < |ids|
      invariant 0 <= i <= |ids|
      invariant Run(FleetAgents(fleets), done, previous, errors) == Apply(col0, ids[..i], check, agent)
    {
      ApplyExtend(col0, ids, i, check, agent);
      var fid := ids[i];
      if fid !in fleets {
        errors := errors + [Refused(fid, DoesNotExist)];
      } else {
        var fleet := fleets[fid];
        if fleet.distributor != user.id {
          errors := errors + [Refused(fid, NotOwner)];
        } else if fleet.assignedAgent.Some? {
          errors := errors + [Refused(fid, AlreadyAssigned)];
        } else {
          previous := previous + [fleet.assignedAgent];
          GiveFleetTo(fleets, fid, fleet, agent);
          done := done + [fid];
        }
      }
      i := i + 1;
    }
    assert ids[..i] == ids;
    return Done(done, errors);
  }

  /** POST /fleets/reassign/: move each listed, owned, assigned fleet to the new agent, reporting the old one. */
  method ReassignFleets(user: User, newAgentId: Option<int>, fleetIds: Option<seq<int>>,
                        roles: map<int, Role>, fleets: map<int, Fleet>)
    returns (response: Response)
    requires FleetsKeyedById(fleets)
    modifies fleets.Values`assignedAgent
    ensures match AgentRequest(user, newAgentId, fleetIds, roles)
      case Failure(refusal) => response == refusal && FleetAgents(fleets) == old(FleetAgents(fleets))
      case Success((agent, ids)) =>
        var run := Apply(old(FleetAgents(fleets)), ids, ReassignFleetCheck(FleetOwners(fleets), user.id), agent);
        response == DoneWithPrevious(run.done, run.previous, run.errors) && FleetAgents(fleets) == run.col
  {
    var request := AgentRequest(user, newAgentId, fleetIds, roles);
    if request.Failure? {
      return request.error;
    }
    var (agent, ids) := request.value;
    ghost var col0 := FleetAgents(fleets);
    ghost var check := ReassignFleetCheck(FleetOwners(fleets), user.id);
    var done: seq<int> := [];
    var previous: seq<Option<int>> := [];
    var errors: seq<Refused> := [];
    var i := 0;
    while i < |ids|
      invariant 0 <= i <= |ids|
      invariant Run(FleetAgents(fleets), done, previous, errors) == Apply(col0, ids[..i], check, agent)
    {
      ApplyExtend(col0, ids, i, check, agent);
      var fid := ids[i];
      if fid !in fleets {
        errors := errors + [Refused(fid, DoesNotExist)];
      } else {
        var fleet := fleets[fid];
        if fleet.distributor != user.id {
          errors := errors + [Refused(fid, NotOwner)];
        } else if fleet.assignedAgent.None? {
          errors := errors + [Refused(fid, NotAssigned)];
        } else {
          var oldAgent := fleet.assignedAgent;
          GiveFleetTo(fleets, fid, fleet, agent);
          done := done + [fid];
          previous := previous + [oldAgent];
        }
      }
      i := i + 1;
    }
    assert ids[..i] == ids;
    return DoneWithPrevious(done, previous, errors);
  }

  /**
   * Assigning never takes a fleet from an agent and never touches another
   * distributor's fleet: a fleet changes exactly when it was requested, is the
   * caller's and had no agent, and it then has the requested agent.
   */
  lemma AssignFleetsNeverOverwrites(col: map<int, Option<int>>, owners: map<int, int>, user: int,
                                    ids: seq<int>, agent: int)
    requires col.Keys == owners.Keys
    ensures var after := Apply(col, ids, AssignFleetCheck(owners, user), agent).col;
      && after.Keys == col.Keys
      && forall k | k in col ::
           && (col[k].Some? ==> after[k] == col[k])
           && (owners[k] != user ==> after[k] == col[k])
           && (after[k] != col[k] <==> k in ids && owners[k] == user && col[k].None?)
           && (after[k] != col[k] ==> after[k] == Some(agent))
  {
    ApplyColumn(col, ids, AssignFleetCheck(owners, user), agent);
  }

  /**
   * Reassigning moves exactly the requested fleets that are the caller's and
   * already have an agent; every one reported done had an agent before.
   */
  lemma ReassignFleetsMovesOnlyAssigned(col: map<int, Option<int>>, owners: map<int, int>, user: int,
                                        ids: seq<int>, agent: int)
    requires col.Keys == owners.Keys
    ensures var r := Apply(col, ids, ReassignFleetCheck(owners, user), agent);
      && r.col.Keys == col.Keys
      && (forall k | k in col ::
            r.col[k] == if k in ids && owners[k] == user && col[k].Some? then Some(agent) else col[k])
      && (forall j | 0 <= j < |r.previous| :: r.previous[j].Some?)
  {
    var check := ReassignFleetCheck(owners, user);
    ApplyColumn(col, ids, check, agent);
    ApplyPrevious(col, ids, check, agent);
    ApplyDone(col, ids, check, agent);
    var r := Apply(col, ids, check, agent);
    forall j | 0 <= j < |r.previous|
      ensures r.previous[j].Some?
    {
      assert r.done[j] in r.done;
    }
  }

  /** Whom PUT, PATCH and DELETE on /fleets/<id>/ let through. */
  function CanModifyFleet(user: User, owner: int): (r: bool)
    ensures user.role == Agent ==> !r
    ensures r && user.role != SuperAdmin ==> user.role == Distributor && owner == user.id
    ensures user.role == SuperAdmin || (user.role == Distributor && owner == user.id) ==> r
  {
    match user.role
    case SuperAdmin => true
    case Distributor => owner == user.id
    case _ => false
  }
}
