// backend/manage_users.py: the older copy of the user-management tool.  It has
// the same admin gate and delete, creates users without groups, and has no
// wipe command.
module LegacyManageUsers {
  import opened Results
  import opened Users
  import opened Security
  import ManageUsers

  /** create_user of this copy: the row never carries groups. */
  method CreateUser(table: UserTable, h: Hasher, email: string, password: string, fullName: Option<string>, isAdmin: bool, now: int)
    returns (out: ManageUsers.CreateOutcome)
    requires table.Valid()
    modifies table
    ensures table.Valid()
    ensures FindByEmail(old(table.users), email).Some? ==>
      out == ManageUsers.AlreadyExists(FindByEmail(old(table.users), email).value) && table.users == old(table.users)
    ensures FindByEmail(old(table.users), email).None? ==>
      out == ManageUsers.Created(ManageUsers.NewUser(h, email, password, fullName, isAdmin, [], now))
      && out.user.groups == [] && table.users == old(table.users) + [out.user]
  {
    out := ManageUsers.CreateUser(table, h, email, password, fullName, isAdmin, None, now);
  }

  datatype Command =
    | Create(email: string, password: string, fullName: Option<string>, admin: bool)
    | Delete(email: string)
    | List

  /** main of this copy: the same gate in front of create; a refused gate changes nothing. */
  method RunCommand(table: UserTable, h: Hasher, cmd: Command, secretEnv: Option<string>, provided: string, now: int)
    returns (out: ManageUsers.CommandOutcome)
    requires table.Valid()
    modifies table
    ensures table.Valid()
    ensures out.GateRefused? ==> cmd.Create? && table.users == old(table.users)
    ensures cmd.Create? ==> (out.GateRefused? <==> ManageUsers.AdminGate(cmd.admin, secretEnv, provided).Err?)
    ensures cmd.Create? && out.CreateDone? && out.created.Created? ==>
      out.created.user.isAdmin == cmd.admin && (cmd.admin ==> secretEnv == Some(provided) && provided != "")
    ensures cmd.Create? && !cmd.admin ==> out.CreateDone?
    ensures cmd.Create? && ManageUsers.AdminGate(cmd.admin, secretEnv, provided).Ok? ==>
      var isAdmin := ManageUsers.AdminGate(cmd.admin, secretEnv, provided).value;
      if FindByEmail(old(table.users), cmd.email).Some? then
        out == ManageUsers.CreateDone(ManageUsers.AlreadyExists(FindByEmail(old(table.users), cmd.email).value))
        && table.users == old(table.users)
      else
        out == ManageUsers.CreateDone(ManageUsers.Created(ManageUsers.NewUser(h, cmd.email, cmd.password, cmd.fullName, isAdmin, [], now)))
        && table.users == old(table.users) + [out.created.user]
    ensures cmd.Delete? ==>
      if FindByEmail(old(table.users), cmd.email).Some? then
        out == ManageUsers.DeleteDone(ManageUsers.Deleted) && table.users == RemoveEmail(old(table.users), cmd.email)
      else
        out == ManageUsers.DeleteDone(ManageUsers.NotFound) && table.users == old(table.users)
    ensures cmd.List? ==> out == ManageUsers.Listed(old(table.users)) && table.users == old(table.users)
  {
    match cmd
    case Create(email, password, fullName, admin) =>
      var gate := ManageUsers.AdminGate(admin, secretEnv, provided);
      if gate.Err? {
        return ManageUsers.GateRefused(gate.error);
      }
      var created := CreateUser(table, h, email, password, fullName, gate.value, now);
      return ManageUsers.CreateDone(created);
    case Delete(email) =>
      var deleted := ManageUsers.DeleteUser(table, email);
      return ManageUsers.DeleteDone(deleted);
    case List =>
      return ManageUsers.Listed(table.users);
  }
}
