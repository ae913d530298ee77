// backend/scripts/db/manage_users.py: the command-line tool that creates,
// deletes, lists and wipes users.  Each command opens its own session on the
// users table; the table is the `UserTable` passed in.  The environment's
// ADMIN_CREATION_SECRET, the secret typed at the prompt, the wipe
// confirmation and the clock are parameters; printed messages are left out.
module ManageUsers {
  import opened Results
  import opened Strings
  import opened Users
  import opened Security
  import opened Seqs

  // ---------------------------------------------------------------------------
  // parse_groups
  // ---------------------------------------------------------------------------

  /** A group name as parse_groups normalises it: surrounding whitespace removed, lower case. */
  function NormalizeGroup(p: string): (g: string)
    ensures ',' !in p ==> ',' !in g
  {
    var t := Trim(Python, p);
    assert forall c | c in t :: c in p;
    Lower(t)
  }

  lemma NormalizeGroupIdempotent(p: string)
    ensures NormalizeGroup(NormalizeGroup(p)) == NormalizeGroup(p)
  {
    var t := Trim(Python, p);
    LowerTrim(Python, t);
    TrimIdempotent(Python, p);
    LowerIdempotent(t);
  }

  function NormalizeAll(parts: seq<string>): (r: seq<string>)
    ensures |r| == |parts|
    ensures forall k | 0 <= k < |parts| :: r[k] == NormalizeGroup(parts[k])
  {
    if parts == [] then [] else [NormalizeGroup(parts[0])] + NormalizeAll(parts[1..])
  }

  /** `[p for p in parts if p]`: every non-empty piece, in order, as often as it occurs. */
  function DropEmpty(parts: seq<string>): (r: seq<string>)
    ensures forall g | g in r :: g != "" && g in parts
    ensures (forall p | p in parts :: p != "") ==> r == parts
    ensures SubsequenceOf(r, parts)
    ensures forall g :: multiset(r)[g] == if g == "" then 0 else multiset(parts)[g]
  {
    if parts == [] then []
    else
      assert parts == [parts[0]] + parts[1..];
      assert forall g | g in parts[1..] :: g in parts;
      assert parts[0] in parts;
      if parts[0] == "" then DropEmpty(parts[1..])
      else [parts[0]] + DropEmpty(parts[1..])
  }

  /** A group list as parse_groups returns it. */
  predicate NormalGroups(groups: seq<string>)
  {
    forall g | g in groups :: g != "" && ',' !in g && NormalizeGroup(g) == g
  }

  /** parse_groups: no text gives no groups; otherwise the comma-separated pieces, normalised, empty ones dropped. */
  function ParseGroups(raw: Option<string>): (groups: seq<string>)
    ensures NormalGroups(groups)
    ensures raw.None? || raw.value == "" ==> groups == []
    ensures raw.Some? && raw.value != "" ==> groups == DropEmpty(NormalizeAll(Split(raw.value, ',')))
  {
    if raw.None? || raw.value == "" then []
    else
      var parts := Split(raw.value, ',');
      forall k | 0 <= k < |parts| ensures NormalizeGroup(NormalizeGroup(parts[k])) == NormalizeGroup(parts[k]) {
        NormalizeGroupIdempotent(parts[k]);
      }
      DropEmpty(NormalizeAll(parts))
  }

  /** `"A, ,b,a"`: the blank piece is dropped, the others lower-cased, and the repeated group kept twice. */
  lemma ParseGroupsExample()
    ensures ParseGroups(Some("A, ,b,a")) == ["a", "b", "a"]
  {
    ExamplePieces();
    ExampleNormalized();
    ExampleDropped();
  }

  lemma ExamplePieces()
    ensures Split("A, ,b,a", ',') == ["A", " ", "b", "a"]
  {
    var parts := ["A", " ", "b", "a"];
    assert Join(parts[2..], [',']) == "b,a";
    assert Join(parts, [',']) == "A, ,b,a";
    SplitJoin(parts, ',');
  }

  lemma ExampleNormalized()
    ensures NormalizeAll(["A", " ", "b", "a"]) == ["a", "", "b", "a"]
  {
    var parts := ["A", " ", "b", "a"];
    assert NormalizeGroup(" ") == "" by {
      TrimEmptyIff(Python, " ");
    }
    NormalizeLetter('A');
    NormalizeLetter('b');
    NormalizeLetter('a');
    var normalized := NormalizeAll(parts);
    assert normalized[0] == "a" && normalized[1] == "" && normalized[2] == "b" && normalized[3] == "a";
  }

  lemma ExampleDropped()
    ensures DropEmpty(["a", "", "b", "a"]) == ["a", "b", "a"]
  {
    var parts := ["a", "", "b", "a"];
    assert DropEmpty(parts[3..]) == ["a"];
    assert DropEmpty(parts[2..]) == ["b", "a"];
  }

  lemma NormalizeLetter(c: char)
    requires 'a' <= c <= 'z' || 'A' <= c <= 'Z'
    ensures NormalizeGroup([c]) == [LowerChar(c)]
  {
    TrimStartFixed(Python, [c]);
    TrimEndFixed(Python, [c]);
  }

  /** Writing a parsed group list back with commas and parsing it again gives the same list. */
  lemma ParseGroupsRoundTrip(groups: seq<string>)
    requires NormalGroups(groups)
    ensures ParseGroups(Some(Join(groups, ","))) == groups
  {
    if groups != [] {
      assert "," == [','];
      SplitJoin(groups, ',');
      assert groups[0] in groups;
      JoinHoldsFirst(groups, ",");
      var normalized := NormalizeAll(groups);
      assert normalized == groups;
    }
  }

  lemma JoinHoldsFirst(parts: seq<string>, sep: string)
    requires |parts| >= 1
    ensures |Join(parts, sep)| >= |parts[0]|
  {
  }

  /** Commas alone, or only whitespace between them, give no groups. */
  lemma ParseGroupsBlankPieces(raw: string)
    requires forall k | 0 <= k < |raw| :: raw[k] == ',' || IsSpace(Python, raw[k])
    ensures ParseGroups(Some(raw)) == []
  {
    if raw != "" {
      var parts := Split(raw, ',');
      forall k | 0 <= k < |parts| ensures NormalizeGroup(parts[k]) == "" {
        BlankPiece(raw, parts, k);
        TrimEmptyIff(Python, parts[k]);
      }
      var normalized := NormalizeAll(parts);
      DropAllEmpty(normalized);
    }
  }

  lemma BlankPiece(raw: string, parts: seq<string>, k: nat)
    requires forall i | 0 <= i < |raw| :: raw[i] == ',' || IsSpace(Python, raw[i])
    requires parts == Split(raw, ',') && k < |parts|
    ensures forall i | 0 <= i < |parts[k]| :: IsSpace(Python, parts[k][i])
  {
    JoinSplit(raw, ',');
    PieceOfJoin(parts, [','], k);
    forall i | 0 <= i < |parts[k]| ensures IsSpace(Python, parts[k][i]) {
      assert ',' !in parts[k] by { assert parts[k] in parts; }
      assert parts[k][i] in Join(parts, [',']);
    }
  }

  lemma {:induction false} PieceOfJoin(parts: seq<string>, sep: string, k: nat)
    requires k < |parts|
    ensures forall c | c in parts[k] :: c in Join(parts, sep)
    decreases |parts|
  {
    if |parts| > 1 && k > 0 {
      PieceOfJoin(parts[1..], sep, k - 1);
    }
  }

  lemma {:induction false} DropAllEmpty(parts: seq<string>)
    requires forall p | p in parts :: p == ""
    ensures DropEmpty(parts) == []
    decreases |parts|
  {
    if parts != [] {
      assert forall p | p in parts[1..] :: p in parts;
      assert parts[0] in parts;
      DropAllEmpty(parts[1..]);
    }
  }

  // ---------------------------------------------------------------------------
  // create_user, delete_user, wipe_users
  // ---------------------------------------------------------------------------

  /** The row create_user adds: active, admin only when asked for, both timestamps the same instant. */
  function NewUser(h: Hasher, email: string, password: string, fullName: Option<string>, isAdmin: bool, groups: seq<string>, now: int): (u: User)
    ensures u.email == email && u.isActive && u.isAdmin == isAdmin && u.createdAt == u.updatedAt == now
  {
    User(email, fullName, h.hash(password), true, isAdmin, groups, now, now)
  }

  datatype CreateOutcome = AlreadyExists(existing: User) | Created(user: User)

  /** create_user: an existing e-mail is reported and nothing changes; otherwise the new row is committed. */
  method CreateUser(table: UserTable, h: Hasher, email: string, password: string, fullName: Option<string>, isAdmin: bool, groups: Option<seq<string>>, now: int)
    returns (out: CreateOutcome)
    requires table.Valid()
    modifies table
    ensures table.Valid()
    ensures FindByEmail(old(table.users), email).Some? ==>
      out == AlreadyExists(FindByEmail(old(table.users), email).value) && table.users == old(table.users)
    ensures FindByEmail(old(table.users), email).None? ==>
      out == Created(NewUser(h, email, password, fullName, isAdmin, groups.GetOr([]), now))
      && table.users == old(table.users) + [out.user]
  {
    var existing := FindByEmail(table.users, email);
    if existing.Some? {
      return AlreadyExists(existing.value);
    }
    var user := NewUser(h, email, password, fullName, isAdmin, groups.GetOr([]), now);
    AppendFresh(table.users, user);
    table.users := table.users + [user];
    return Created(user);
  }

  datatype DeleteOutcome = NotFound | Deleted

  /** delete_user: an unknown e-mail is reported; otherwise that user's row, and only it, is removed. */
  method DeleteUser(table: UserTable, email: string) returns (out: DeleteOutcome)
    requires table.Valid()
    modifies table
    ensures table.Valid()
    ensures FindByEmail(old(table.users), email).None? ==> out == NotFound && table.users == old(table.users)
    ensures FindByEmail(old(table.users), email).Some? ==> out == Deleted && table.users == RemoveEmail(old(table.users), email)
  {
    var user := FindByEmail(table.users, email);
    if user.None? {
      return NotFound;
    }
    RemoveEmailKeepsUnique(table.users, email);
    table.users := RemoveEmail(table.users, email);
    return Deleted;
  }

  /** After a delete the e-mail is free again and every other user is still there. */
  lemma DeleteFreesEmail(users: seq<User>, email: string)
    ensures FindByEmail(RemoveEmail(users, email), email).None?
    ensures forall u | u in users && u.email != email :: u in RemoveEmail(users, email)
  {
  }

  datatype WipeOutcome = Aborted | Wiped(count: nat)

  /** The text the wipe prompt asks for. */
  const WipeConfirmation := "WIPE"

  /** wipe_users: without `--yes` only the exact confirmation proceeds; a wipe reports how many rows it deleted. */
  method WipeUsers(table: UserTable, yes: bool, confirmation: string) returns (out: WipeOutcome)
    requires table.Valid()
    modifies table
    ensures table.Valid()
    ensures !yes && confirmation != WipeConfirmation ==> out == Aborted && table.users == old(table.users)
    ensures yes || confirmation == WipeConfirmation ==> out == Wiped(|old(table.users)|) && table.users == []
  {
    if !yes {
      if confirmation != WipeConfirmation {
        return Aborted;
      }
    }
    var count := |table.users|;
    table.users := [];
    return Wiped(count);
  }

  // ---------------------------------------------------------------------------
  // main
  // ---------------------------------------------------------------------------

  datatype GateRefusal = AdminSecretNotSet | AdminSecretMismatch

  /**
   * The admin gate of the create command: without `--admin` the user is not an
   * admin; with it, the environment's secret must be set and non-empty, and
   * the secret typed at the prompt must equal it.
   */
  function AdminGate(wantsAdmin: bool, secretEnv: Option<string>, provided: string): (r: Result<bool, GateRefusal>)
    ensures r == Ok(true) <==> wantsAdmin && secretEnv == Some(provided) && provided != ""
    ensures r == Ok(false) <==> !wantsAdmin
    ensures r.Err? <==> wantsAdmin && (secretEnv.None? || secretEnv.value == "" || provided != secretEnv.value)
  {
    if !wantsAdmin then Ok(false)
    else if secretEnv.None? || secretEnv.value == "" then Err(AdminSecretNotSet)
    else if provided != secretEnv.value then Err(AdminSecretMismatch)
    else Ok(true)
  }

  /** The sub-commands and their arguments. */
  datatype Command =
    | Create(email: string, password: string, fullName: Option<string>, admin: bool, groupsArg: Option<string>)
    | Delete(email: string)
    | List
    | Wipe(yes: bool)

  datatype CommandOutcome =
    | GateRefused(refusal: GateRefusal)
    | CreateDone(created: CreateOutcome)
    | DeleteDone(deleted: DeleteOutcome)
    | Listed(users: seq<User>)
    | WipeDone(wiped: WipeOutcome)

  /** main: dispatch on the sub-command; a refused admin gate changes nothing. */
  method RunCommand(table: UserTable, h: Hasher, cmd: Command, secretEnv: Option<string>, provided: string, confirmation: string, now: int)
    returns (out: CommandOutcome)
    requires table.Valid()
    modifies table
    ensures table.Valid()
    ensures out.GateRefused? ==> cmd.Create? && table.users == old(table.users)
    ensures cmd.Create? && out.CreateDone? && out.created.Created? ==>
      out.created.user.isAdmin == cmd.admin && out.created.user.groups == ParseGroups(cmd.groupsArg)
      && (cmd.admin ==> secretEnv == Some(provided) && provided != "")
    ensures cmd.Create? ==> (out.GateRefused? <==> AdminGate(cmd.admin, secretEnv, provided).Err?)
    ensures cmd.Create? && AdminGate(cmd.admin, secretEnv, provided).Ok? ==>
      var isAdmin := AdminGate(cmd.admin, secretEnv, provided).value;
      if FindByEmail(old(table.users), cmd.email).Some? then
        out == CreateDone(AlreadyExists(FindByEmail(old(table.users), cmd.email).value)) && table.users == old(table.users)
      else
        out == CreateDone(Created(NewUser(h, cmd.email, cmd.password, cmd.fullName, isAdmin, ParseGroups(cmd.groupsArg), now)))
        && table.users == old(table.users) + [out.created.user]
    ensures cmd.Delete? ==>
      if FindByEmail(old(table.users), cmd.email).Some? then
        out == DeleteDone(Deleted) && table.users == RemoveEmail(old(table.users), cmd.email)
      else
        out == DeleteDone(NotFound) && table.users == old(table.users)
    ensures cmd.List? ==> out == Listed(old(table.users)) && table.users == old(table.users)
    ensures cmd.Wipe? ==>
      if cmd.yes || confirmation == WipeConfirmation then
        out == WipeDone(Wiped(|old(table.users)|)) && table.users == []
      else
        out == WipeDone(Aborted) && table.users == old(table.users)
  {
    match cmd
    case Create(email, password, fullName, admin, groupsArg) =>
      var gate := AdminGate(admin, secretEnv, provided);
      if gate.Err? {
        return GateRefused(gate.error);
      }
      var groups := ParseGroups(groupsArg);
      var created := CreateUser(table, h, email, password, fullName, gate.value, Some(groups), now);
      return CreateDone(created);
    case Delete(email) =>
      var deleted := DeleteUser(table, email);
      return DeleteDone(deleted);
    case List =>
      return Listed(table.users);
    case Wipe(yes) =>
      var wiped := WipeUsers(table, yes, confirmation);
      return WipeDone(wiped);
  }
}
