/**
 * The batch endpoints (assign or reassign fleets to an agent, items to a
 * fleet, customers to an agent) share one shape: for each id of the request,
 * in order, look the row up, check it, and either set one nullable foreign
 * key of the row to the request's target or record why it was skipped.
 * `Apply` is that loop as a value: the column before and after, the ids done
 * (with the value each had just before) and the errors.
 */
module Batch {
  import opened Wrappers
  import opened Accounts

  /** Why one id of a batch was skipped. */
  datatype Refusal =
    | DoesNotExist       // no row with this primary key
    | NotOwner           // the row belongs to another distributor
    | AlreadyAssigned    // the fleet already has an agent
    | NotAssigned        // the fleet has no agent yet
    | AssignedElsewhere  // the customer already has another agent
    | HasFleet           // the item already belongs to a fleet
    | NoFleet            // the item belongs to no fleet yet
    | ForeignFleet       // the item's fleet belongs to another distributor

  datatype Refused = Refused(id: int, why: Refusal)

  /** A nullable foreign-key column of a table, by primary key. */
  type Column = map<int, Option<int>>

  /** The state of a batch loop: the column, the ids done with their previous values, the errors. */
  datatype Run = Run(col: Column, done: seq<int>, previous: seq<Option<int>>, errors: seq<Refused>)

  /** The per-row check of an endpoint, given the row's id and current value; `None` lets it through. */
  type Guard = (int, Option<int>) -> Option<Refusal>

  /** One iteration of the loop. */
  function Step(r: Run, id: int, guard: Guard, target: int): Run {
    if id !in r.col then r.(errors := r.errors + [Refused(id, DoesNotExist)])
    else match guard(id, r.col[id])
      case Some(why) => r.(errors := r.errors + [Refused(id, why)])
      case None => Run(r.col[id := Some(target)], r.done + [id], r.previous + [r.col[id]], r.errors)
  }

  /** The whole loop over `ids`, in order. */
  function Apply(col: Column, ids: seq<int>, guard: Guard, target: int): (r: Run)
    ensures |r.done| == |r.previous| && |r.done| + |r.errors| == |ids|
    decreases |ids|
  {
    if ids == [] then Run(col, [], [], [])
    else Step(Apply(col, ids[..|ids| - 1], guard, target), ids[|ids| - 1], guard, target)
  }

  /** Running the loop one id further is one more step. */
  lemma ApplyExtend(col: Column, ids: seq<int>, i: int, guard: Guard, target: int)
    requires 0 <= i < |ids|
    ensures Apply(col, ids[..i + 1], guard, target) == Step(Apply(col, ids[..i], guard, target), ids[i], guard, target)
  {
    assert ids[..i + 1][..i] == ids[..i];
  }

  /** The ids of a list of errors. */
  function ErrorIds(errors: seq<Refused>): (r: seq<int>)
    ensures |r| == |errors| && forall j :: 0 <= j < |r| ==> r[j] == errors[j].id
  {
    seq(|errors|, j requires 0 <= j < |errors| => errors[j].id)
  }

  /** `s` is an order-preserving merge of `a` and `b`. */
  predicate Interleaves(s: seq<int>, a: seq<int>, b: seq<int>)
    decreases |s|
  {
    if s == [] then a == [] && b == []
    else
      || (a != [] && a[|a| - 1] == s[|s| - 1] && Interleaves(s[..|s| - 1], a[..|a| - 1], b))
      || (b != [] && b[|b| - 1] == s[|s| - 1] && Interleaves(s[..|s| - 1], a, b[..|b| - 1]))
  }

  /** A merge holds each element exactly as often as its two parts together. */
  lemma {:induction false} InterleavesCount(s: seq<int>, a: seq<int>, b: seq<int>)
    requires Interleaves(s, a, b)
    ensures multiset(s) == multiset(a) + multiset(b)
    decreases |s|
  {
    if s != [] {
      var s', x := s[..|s| - 1], s[|s| - 1];
      assert s == s' + [x];
      assert multiset(s) == multiset(s') + multiset{x};
      if a != [] && a[|a| - 1] == x && Interleaves(s', a[..|a| - 1], b) {
        var a' := a[..|a| - 1];
        InterleavesCount(s', a', b);
        assert a == a' + [x];
        assert multiset(a) == multiset(a') + multiset{x};
      } else {
        assert b != [] && b[|b| - 1] == x;
        var b' := b[..|b| - 1];
        assert Interleaves(s', a, b');
        InterleavesCount(s', a, b');
        assert b == b' + [x];
        assert multiset(b) == multiset(b') + multiset{x};
      }
    }
  }

  /** Appending the same id to a merge and to its first part keeps it a merge. */
  lemma InterleavesAppendDone(s: seq<int>, a: seq<int>, b: seq<int>, x: int)
    requires Interleaves(s, a, b)
    ensures Interleaves(s + [x], a + [x], b)
  {
    assert (s + [x])[..|s|] == s;
    assert (a + [x])[..|a|] == a;
  }

  /** Appending the same id to a merge and to its second part keeps it a merge. */
  lemma InterleavesAppendError(s: seq<int>, a: seq<int>, b: seq<int>, x: int)
    requires Interleaves(s, a, b)
    ensures Interleaves(s + [x], a, b + [x])
  {
    assert (s + [x])[..|s|] == s;
    assert (b + [x])[..|b|] == b;
  }

  lemma ErrorIdsAppend(errors: seq<Refused>, e: Refused)
    ensures ErrorIds(errors + [e]) == ErrorIds(errors) + [e.id]
  {
  }

  /**
   * Every id of the request is reported exactly once, in request order: the
   * ids done and the ids refused interleave to the request.
   */
  lemma {:induction false} ApplyReportsEveryId(col: Column, ids: seq<int>, guard: Guard, target: int)
    ensures var r := Apply(col, ids, guard, target);
      && Interleaves(ids, r.done, ErrorIds(r.errors))
      && multiset(ids) == multiset(r.done) + multiset(ErrorIds(r.errors))
      && |r.done| == |r.previous|
    decreases |ids|
  {
    var r := Apply(col, ids, guard, target);
    if ids != [] {
      var p, x := ids[..|ids| - 1], ids[|ids| - 1];
      assert ids == p + [x];
      var q := Apply(col, p, guard, target);
      ApplyReportsEveryId(col, p, guard, target);
      assert r == Step(q, x, guard, target);
      if x !in q.col {
        ErrorIdsAppend(q.errors, Refused(x, DoesNotExist));
        InterleavesAppendError(p, q.done, ErrorIds(q.errors), x);
      } else if guard(x, q.col[x]).Some? {
        ErrorIdsAppend(q.errors, Refused(x, guard(x, q.col[x]).value));
        InterleavesAppendError(p, q.done, ErrorIds(q.errors), x);
      } else {
        InterleavesAppendDone(p, q.done, ErrorIds(q.errors), x);
      }
    }
    InterleavesCount(ids, r.done, ErrorIds(r.errors));
  }

  /**
   * The column after the batch: a row is set to the target exactly when its id
   * was requested and the check lets its original value through; every other
   * row keeps its value. No row is added or removed.
   */
  lemma {:induction false} ApplyColumn(col: Column, ids: seq<int>, guard: Guard, target: int)
    ensures var r := Apply(col, ids, guard, target);
      && r.col.Keys == col.Keys
      && forall k | k in col :: r.col[k] == if k in ids && guard(k, col[k]).None? then Some(target) else col[k]
    decreases |ids|
  {
    if ids != [] {
      var p := ids[..|ids| - 1];
      ApplyColumn(col, p, guard, target);
      assert ids == p + [ids[|ids| - 1]];
    }
  }

  /** The ids reported done are exactly the requested rows whose check passes on their original value. */
  lemma {:induction false} ApplyDone(col: Column, ids: seq<int>, guard: Guard, target: int)
    ensures var r := Apply(col, ids, guard, target);
      forall k :: k in r.done <==> k in ids && k in col && guard(k, col[k]).None?
    decreases |ids|
  {
    if ids != [] {
      var p := ids[..|ids| - 1];
      ApplyDone(col, p, guard, target);
      ApplyColumn(col, p, guard, target);
      assert ids == p + [ids[|ids| - 1]];
    }
  }

  /**
   * The value reported as previous for a done id is its original value, or the
   * target when the same id was already done earlier in the batch.
   */
  lemma {:induction false} ApplyPrevious(col: Column, ids: seq<int>, guard: Guard, target: int)
    ensures var r := Apply(col, ids, guard, target);
      && |r.previous| == |r.done|
      && forall j | 0 <= j < |r.done| :: r.done[j] in col &&
           r.previous[j] == if r.done[j] in r.done[..j] then Some(target) else col[r.done[j]]
    decreases |ids|
  {
    var r := Apply(col, ids, guard, target);
    if ids != [] {
      var p := ids[..|ids| - 1];
      var q := Apply(col, p, guard, target);
      ApplyPrevious(col, p, guard, target);
      ApplyColumn(col, p, guard, target);
      ApplyDone(col, p, guard, target);
      if r.done != q.done {
        var n := |q.done|;
        assert r.done[..n] == q.done;
        forall j | 0 <= j < n
          ensures r.done[..j] == q.done[..j]
        {
        }
      }
    }
  }

  /**
   * A refusal is the check's verdict on the row as it stood at that point: its
   * original value, or the target if an earlier copy of the id was done.
   */
  lemma {:induction false} ApplyErrors(col: Column, ids: seq<int>, guard: Guard, target: int)
    ensures var r := Apply(col, ids, guard, target);
      forall e | e in r.errors ::
        && e.id in ids
        && (e.id !in col ==> e.why == DoesNotExist)
        && (e.id in col ==> guard(e.id, col[e.id]) == Some(e.why) || guard(e.id, Some(target)) == Some(e.why))
    decreases |ids|
  {
    if ids != [] {
      var p, x := ids[..|ids| - 1], ids[|ids| - 1];
      var q := Apply(col, p, guard, target);
      var r := Apply(col, ids, guard, target);
      ApplyErrors(col, p, guard, target);
      ApplyColumn(col, p, guard, target);
      assert ids == p + [x];
      assert r == Step(q, x, guard, target);
      forall e | e in r.errors
        ensures e.id in ids
        ensures e.id !in col ==> e.why == DoesNotExist
        ensures e.id in col ==> guard(e.id, col[e.id]) == Some(e.why) || guard(e.id, Some(target)) == Some(e.why)
      {
        if e !in q.errors {
          assert e.id == x;
          if x in col {
            assert q.col[x] == col[x] || q.col[x] == Some(target);
          }
        }
      }
    }
  }

  /** Sending the same batch again changes no further row. */
  lemma ApplyIdempotent(col: Column, ids: seq<int>, guard: Guard, target: int)
    ensures var once := Apply(col, ids, guard, target).col;
      Apply(once, ids, guard, target).col == once
  {
    var once := Apply(col, ids, guard, target).col;
    var twice := Apply(once, ids, guard, target).col;
    ApplyColumn(col, ids, guard, target);
    ApplyColumn(once, ids, guard, target);
    forall k | k in once
      ensures twice[k] == once[k]
    {
    }
  }

  /** Why a whole request is refused with a 400. */
  datatype Problem =
    | AgentIdRequired
    | IdListRequired      // the id list is not a list or is empty
    | InvalidAgent        // no user with that key, or not an agent
    | FleetIdRequired
    | AlreadyPurchased
    | CustomerIdRequired

  /** The responses of the batch and purchase endpoints. */
  datatype Response =
    | Denied                                                        // 403
    | BadRequest(problem: Problem)                                  // 400
    | NotFound                                                      // 404
    | ServerError                                                   // 500 from an uncaught exception
    | Done(done: seq<int>, errors: seq<Refused>)                // 200
    | DoneWithPrevious(done: seq<int>, previous: seq<Option<int>>, errors: seq<Refused>)
    | Purchased(itemId: int, customerId: int)

  /**
   * The checks every agent-assignment endpoint makes before its loop: the
   * caller must be a distributor, the agent id must be given, the id list must
   * be a non-empty list (`ids` is `None` when it is not a list; a missing list
   * is the empty list) and the agent id must name a user whose role is agent.
   * `roles` is the `user_type` column of the user table.
   */
  function AgentRequest(user: User, agentId: Option<int>, ids: Option<seq<int>>, roles: map<int, Role>)
    : (r: Result<(int, seq<int>), Response>)
    ensures r.Success? <==>
      && user.role == Distributor && IdGiven(agentId) && ids.Some? && ids.value != []
      && agentId.value in roles && roles[agentId.value] == Agent
    ensures r.Success? ==> r.value == (agentId.value, ids.value)
    ensures r.Failure? ==> (r.error == Denied <==> user.role != Distributor)
    ensures r.Failure? ==> r.error.Denied? || r.error.BadRequest?
  {
    if user.role != Distributor then Failure(Denied)
    else if !IdGiven(agentId) then Failure(BadRequest(AgentIdRequired))
    else if ids.None? || ids.value == [] then Failure(BadRequest(IdListRequired))
    else if agentId.value !in roles || roles[agentId.value] != Agent then Failure(BadRequest(InvalidAgent))
    else Success((agentId.value, ids.value))
  }
}
