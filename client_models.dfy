/** The customer table: each customer is owned by a distributor and may be assigned to an agent. */
module ClientModels {
  import opened Wrappers

  class Customer {
    const id: int
    /** The owning distributor (nullable in the table). */
    const distributor: Option<int>
    var assignedAgent: Option<int>

    constructor (id: int, distributor: Option<int>, assignedAgent: Option<int>)
      ensures this.id == id && this.distributor == distributor && this.assignedAgent == assignedAgent
    {
      this.id := id;
      this.distributor := distributor;
      this.assignedAgent := assignedAgent;
    }
  }

  /** The customer table keyed by primary key. */
  predicate CustomersKeyedById(customers: map<int, Customer>) {
    forall k | k in customers :: customers[k].id == k
  }

  /** The `assigned_agent` column of the customer table. */
  function CustomerAgents(customers: map<int, Customer>): (col: map<int, Option<int>>)
    reads customers.Values
    ensures col.Keys == customers.Keys
  {
    map k | k in customers :: customers[k].assignedAgent
  }

  /** The `distributor` column of the customer table. */
  function CustomerOwners(customers: map<int, Customer>): (col: map<int, Option<int>>)
    ensures col.Keys == customers.Keys
  {
    map k | k in customers :: customers[k].distributor
  }
}
