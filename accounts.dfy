/** The user record of the system: a role and, for agents, the distributor they work for. */
module Accounts {
  import opened Wrappers

  /** `User.USER_TYPES`; `OtherRole` stands for any other value of the `user_type` column. */
  datatype Role = SuperAdmin | Distributor | Agent | OtherRole

  datatype User = User(id: int, role: Role, distributor: Option<int>)

  /** A primary key taken from a request body and tested with `if not ...`: absent, or the falsy 0. */
  predicate IdGiven(id: Option<int>) {
    id.Some? && id.value != 0
  }
}
