/** Keeping an administrator: creating, updating and deleting dashboard users.
    internal/admin_users_handlers.go, lines 137-454. */
module AdminGuard {
  import opened Text
  import opened Options

  datatype Role = Admin | Viewer

  datatype User = User(username: string, role: Role, disabled: bool)

  type Rows = map<nat, User>

  /** The user table; ids are given out in turn. */
  datatype Table = Table(rows: Rows, nextId: nat)

  /** How the database compares names, and the name of the configured runtime administrator. */
  datatype Names = Names(collated: string -> string, configured: string)

  datatype Create = Create(username: string, password: string, role: string, othersValid: bool)

  /** An absent field stays as it is. */
  datatype Update = Update(role: Option<string>, disabled: Option<bool>, password: Option<string>, othersValid: bool)

  datatype Reply = Ok | BadRequest | NotFound | Conflict | LastAdmin | OwnUser

  // ---------------------------------------------------------------- who can administer

  predicate EnabledAdmin(u: User) {
    u.role == Admin && !u.disabled
  }

  function EnabledAdmins(rows: Rows): set<nat> {
    set id | id in rows && EnabledAdmin(rows[id])
  }

  function RuntimeAdmin(names: Names): string {
    if Trim(names.configured) == "" then "admin" else Trim(names.configured)
  }

  predicate IsRuntimeAdmin(names: Names, username: string) {
    names.collated(username) == names.collated(RuntimeAdmin(names))
  }

  /** The configured account can log in as long as no row has its name. */
  predicate FallbackInEffect(names: Names, rows: Rows) {
    forall id :: id in rows ==> !IsRuntimeAdmin(names, rows[id].username)
  }

  predicate HasAccess(names: Names, rows: Rows) {
    EnabledAdmins(rows) != {} || FallbackInEffect(names, rows)
  }

  /** adminChangeRemovesLastAccess */
  predicate RemovesLastAccess(names: Names, rows: Rows) {
    |EnabledAdmins(rows)| + (if FallbackInEffect(names, rows) then 1 else 0) <= 1
  }

  // ---------------------------------------------------------------- the steps

  function ParsedRole(role: string): Option<Role> {
    if role == "admin" then Some(Admin) else if role == "viewer" then Some(Viewer) else None
  }

  predicate NameTaken(names: Names, rows: Rows, username: string) {
    exists id :: id in rows && names.collated(rows[id].username) == names.collated(username)
  }

  function NewRole(body: Create): Option<Role> {
    if Trim(body.role) == "" then Some(Viewer) else ParsedRole(Trim(body.role))
  }

  predicate WellFormed(body: Create) {
    2 <= ByteLen(Trim(body.username)) <= 64 && ByteLen(body.password) >= 8 && NewRole(body).Some? && body.othersValid
  }

  function Created(names: Names, t: Table, body: Create): (Table, Reply) {
    if !WellFormed(body) then (t, BadRequest)
    else if NameTaken(names, t.rows, Trim(body.username)) then (t, Conflict)
    else (Table(t.rows[t.nextId := User(Trim(body.username), NewRole(body).value, false)], t.nextId + 1), Ok)
  }

  /** The row an update asks for; None if it names no role. */
  function Wanted(u: User, body: Update): Option<User> {
    var role := if body.role.None? then Some(u.role) else ParsedRole(Trim(body.role.value));
    if role.None? then None
    else Some(User(u.username, role.value, if body.disabled.None? then u.disabled else body.disabled.value))
  }

  predicate Acceptable(body: Update) {
    body.othersValid && (body.password.None? || Trim(body.password.value) == "" || ByteLen(Trim(body.password.value)) >= 8)
  }

  function Updated(names: Names, t: Table, id: int, body: Update): (Table, Reply) {
    if id <= 0 then (t, BadRequest)
    else if id !in t.rows then (t, NotFound)
    else
      var wanted := Wanted(t.rows[id], body);
      if wanted.None? then (t, BadRequest)
      else if EnabledAdmin(t.rows[id]) && !EnabledAdmin(wanted.value) && RemovesLastAccess(names, t.rows) then
        (t, LastAdmin)
      else if !Acceptable(body) then (t, BadRequest)
      else (t.(rows := t.rows[id := wanted.value]), Ok)
  }

  function Deleted(names: Names, t: Table, id: int, caller: Option<string>): (Table, Reply) {
    if id <= 0 then (t, BadRequest)
    else if id !in t.rows then (t, NotFound)
    else if EnabledAdmin(t.rows[id]) && RemovesLastAccess(names, t.rows) then (t, LastAdmin)
    else if caller.Some? && Lower(caller.value) == Lower(t.rows[id].username) then (t, OwnUser)
    else (t.(rows := t.rows - {id}), Ok)
  }

  // ---------------------------------------------------------------- what the replies say

  /** Some row is an enabled administrator other than row id. */
  predicate OtherAdmin(rows: Rows, id: int) {
    exists k :: k in rows && k != id && rows[k].role == Admin && !rows[k].disabled
  }

  /** Some row has the name of the configured account, "admin" if none is configured. */
  predicate RuntimeNameTaken(names: Names, rows: Rows) {
    exists k :: k in rows
      && names.collated(rows[k].username) == names.collated(if Trim(names.configured) == "" then "admin" else Trim(names.configured))
  }

  /** Row id is an enabled administrator and without it nobody is left: no other, and a row takes the
      configured account's name. */
  predicate IsLastAdmin(names: Names, rows: Rows, id: int) {
    id in rows && rows[id].role == Admin && !rows[id].disabled && !OtherAdmin(rows, id) && RuntimeNameTaken(names, rows)
  }

  lemma GuardIs(names: Names, rows: Rows, id: nat)
    requires id in rows
    ensures EnabledAdmin(rows[id]) && RemovesLastAccess(names, rows) <==> IsLastAdmin(names, rows, id)
  {
    if EnabledAdmin(rows[id]) {
      GuardMeans(names, rows, id);
      hide RemovesLastAccess, Trim;
      assert EnabledAdmins(rows) == {id} <==> !OtherAdmin(rows, id) by {
        assert id in EnabledAdmins(rows);
        assert forall k :: k in EnabledAdmins(rows) <==> k in rows && rows[k].role == Admin && !rows[k].disabled;
      }
      assert FallbackInEffect(names, rows) <==> !RuntimeNameTaken(names, rows);
    }
  }

  lemma LastIsEnabled(names: Names, rows: Rows, id: nat)
    requires id in rows
    ensures IsLastAdmin(names, rows, id) ==> rows[id].role == Admin && !rows[id].disabled
  {
  }

  lemma LastIsRow(names: Names, rows: Rows, id: int)
    ensures IsLastAdmin(names, rows, id) ==> id in rows
  {
  }

  predicate ValidRole(role: string) {
    role == "admin" || role == "viewer"
  }

  function RoleNamed(role: string): Role {
    if role == "admin" then Admin else Viewer
  }

  class Directory {
    const names: Names
    var table: Table

    constructor (names: Names, table: Table)
      ensures this.names == names && this.table == table
    {
      this.names := names;
      this.table := table;
    }

    method HandleCreate(body: Create) returns (reply: Reply)
      modifies this
      ensures (table, reply) == Created(names, old(table), body)
      ensures reply in {Ok, BadRequest, Conflict}
      ensures reply == BadRequest <==>
                || ByteLen(Trim(body.username)) < 2 || ByteLen(Trim(body.username)) > 64 || ByteLen(body.password) < 8
                || !(Trim(body.role) == "" || ValidRole(Trim(body.role))) || !body.othersValid
      ensures reply == Ok ==> forall id :: id in old(table).rows ==>
                names.collated(old(table).rows[id].username) != names.collated(Trim(body.username))
      ensures reply == Conflict ==> exists id ::
                (id in old(table).rows && names.collated(old(table).rows[id].username) == names.collated(Trim(body.username)))
      ensures reply == Ok ==>
                && table.rows == old(table).rows[old(table).nextId := User(Trim(body.username), RoleNamed(Trim(body.role)), false)]
                && table.nextId == old(table).nextId + 1
      ensures reply != Ok ==> table == old(table)
    {
      hide Trim, ByteLen;
      var u := Trim(body.username);
      if ByteLen(u) < 2 || ByteLen(u) > 64 {
        return BadRequest;
      }
      if ByteLen(body.password) < 8 {
        return BadRequest;
      }
      var role := Trim(body.role);
      if role == "" {
        role := "viewer";
      }
      if role != "admin" && role != "viewer" {
        return BadRequest;
      }
      if !body.othersValid {
        return BadRequest;
      }
      if NameTaken(names, table.rows, u) {
        return Conflict;
      }
      var row := User(u, if role == "admin" then Admin else Viewer, false);
      table := Table(table.rows[table.nextId := row], table.nextId + 1);
      return Ok;
    }

    method HandleUpdate(id: int, body: Update) returns (reply: Reply)
      modifies this
      ensures (table, reply) == Updated(names, old(table), id, body)
      ensures reply in {Ok, BadRequest, NotFound, LastAdmin}
      ensures reply == NotFound <==> id > 0 && id !in old(table).rows
      ensures reply == LastAdmin <==>
                && id > 0 && IsLastAdmin(names, old(table).rows, id)
                && (body.role.Some? ==> ValidRole(Trim(body.role.value)))
                && (body.disabled == Some(true) || (body.role.Some? && Trim(body.role.value) == "viewer"))
      ensures reply == Ok ==>
                && id in old(table).rows && body.othersValid && (body.role.Some? ==> ValidRole(Trim(body.role.value)))
                && (body.password.None? || Trim(body.password.value) == "" || ByteLen(Trim(body.password.value)) >= 8)
      ensures reply == BadRequest && id > 0 ==>
                || !body.othersValid || (body.role.Some? && !ValidRole(Trim(body.role.value)))
                || (body.password.Some? && Trim(body.password.value) != "" && ByteLen(Trim(body.password.value)) < 8)
      ensures reply == Ok ==>
                var was := old(table).rows[id];
                table == old(table).(rows := old(table).rows[id := User(was.username,
                           if body.role.None? then was.role else RoleNamed(Trim(body.role.value)),
                           if body.disabled.None? then was.disabled else body.disabled.value)])
      ensures reply != Ok ==> table == old(table)
    {
      hide Trim, ByteLen, RemovesLastAccess, IsLastAdmin;
      if id > 0 && id in table.rows {
        GuardIs(names, table.rows, id);
        LastIsEnabled(names, table.rows, id);
      }
      LastIsRow(names, table.rows, id);
      if id <= 0 {
        return BadRequest;
      }
      if id !in table.rows {
        return NotFound;
      }
      var cur := table.rows[id];
      var role, disabled := cur.role, cur.disabled;
      if body.role.Some? {
        var r := Trim(body.role.value);
        if r != "admin" && r != "viewer" {
          return BadRequest;
        }
        role := if r == "admin" then Admin else Viewer;
      }
      if body.disabled.Some? {
        disabled := body.disabled.value;
      }
      if cur.role == Admin && !cur.disabled && (role != Admin || disabled) {
        if RemovesLastAccess(names, table.rows) {
          return LastAdmin;
        }
      }
      if body.password.Some? && Trim(body.password.value) != "" {
        if ByteLen(Trim(body.password.value)) < 8 {
          return BadRequest;
        }
      }
      if !body.othersValid {
        return BadRequest;
      }
      table := table.(rows := table.rows[id := User(cur.username, role, disabled)]);
      return Ok;
    }

    method HandleDelete(id: int, caller: Option<string>) returns (reply: Reply)
      modifies this
      ensures (table, reply) == Deleted(names, old(table), id, caller)
      ensures reply in {Ok, BadRequest, NotFound, LastAdmin, OwnUser}
      ensures reply == BadRequest <==> id <= 0
      ensures reply == NotFound <==> id > 0 && id !in old(table).rows
      ensures reply == LastAdmin <==> id > 0 && IsLastAdmin(names, old(table).rows, id)
      ensures reply == OwnUser <==>
                && id > 0 && id in old(table).rows && !IsLastAdmin(names, old(table).rows, id)
                && caller.Some? && Lower(caller.value) == Lower(old(table).rows[id].username)
      ensures reply == Ok ==> table == old(table).(rows := old(table).rows - {id})
      ensures reply != Ok ==> table == old(table)
    {
      hide Trim, Lower, RemovesLastAccess, IsLastAdmin;
      if id > 0 && id in table.rows {
        GuardIs(names, table.rows, id);
      }
      LastIsRow(names, table.rows, id);
      if id <= 0 {
        return BadRequest;
      }
      if id !in table.rows {
        return NotFound;
      }
      var cur := table.rows[id];
      if cur.role == Admin && !cur.disabled {
        if RemovesLastAccess(names, table.rows) {
          return LastAdmin;
        }
      }
      if caller.Some? && Lower(caller.value) == Lower(cur.username) {
        return OwnUser;
      }
      table := table.(rows := table.rows - {id});
      return Ok;
    }
  }

  // ---------------------------------------------------------------- the guard

  /** With an enabled admin in hand, the count says whether any other way in is left. */
  lemma GuardMeans(names: Names, rows: Rows, id: nat)
    requires id in rows && EnabledAdmin(rows[id])
    ensures RemovesLastAccess(names, rows) <==> EnabledAdmins(rows) == {id} && !FallbackInEffect(names, rows)
  {
    var admins := EnabledAdmins(rows);
    assert id in admins;
    assert |admins - {id}| == |admins| - 1;
    if admins != {id} {
      assert admins - {id} != {};
    }
  }

  /** An update is refused as removing the last admin exactly when it would leave no way in. */
  lemma UpdateRefusedExactly(names: Names, t: Table, id: nat, body: Update)
    requires id > 0 && id in t.rows && Wanted(t.rows[id], body).Some?
    ensures Updated(names, t, id, body).1 == LastAdmin
            <==> HasAccess(names, t.rows) && !HasAccess(names, t.rows[id := Wanted(t.rows[id], body).value])
  {
    hide RemovesLastAccess, IsRuntimeAdmin;
    var was, wanted := t.rows[id], Wanted(t.rows[id], body).value;
    var after := t.rows[id := wanted];
    SameNamesSameFallback(names, t.rows, id, wanted);
    var others := EnabledAdmins(t.rows) - {id};
    assert EnabledAdmins(after) == others + if EnabledAdmin(wanted) then {id} else {};
    if EnabledAdmin(was) {
      GuardMeans(names, t.rows, id);
      assert id in EnabledAdmins(t.rows);
      assert others == {} <==> EnabledAdmins(t.rows) == {id};
    } else {
      assert others == EnabledAdmins(t.rows);
    }
  }

  lemma SameNamesSameFallback(names: Names, rows: Rows, id: nat, row: User)
    requires id in rows && row.username == rows[id].username
    ensures FallbackInEffect(names, rows[id := row]) == FallbackInEffect(names, rows)
  {
    var after := rows[id := row];
    assert forall k :: k in rows <==> k in after;
    assert forall k :: k in rows ==> after[k].username == rows[k].username;
  }

  predicate DistinctNames(names: Names, rows: Rows) {
    forall i, j :: i in rows && j in rows && i != j ==>
      names.collated(rows[i].username) != names.collated(rows[j].username)
  }

  /** A delete that would leave no way in is refused; one refused needlessly is that of the last
      enabled admin who bears the runtime name, since the runtime account would be back. */
  lemma DeleteRefusal(names: Names, t: Table, id: nat, caller: Option<string>)
    requires id > 0 && id in t.rows && DistinctNames(names, t.rows)
    ensures var refused := Deleted(names, t, id, caller).1 == LastAdmin;
            && (refused <==> EnabledAdmins(t.rows) == {id} && !FallbackInEffect(names, t.rows))
            && (!HasAccess(names, t.rows - {id}) && HasAccess(names, t.rows) ==> refused)
            && (refused && HasAccess(names, t.rows - {id})
                <==> EnabledAdmins(t.rows) == {id} && IsRuntimeAdmin(names, t.rows[id].username))
  {
    hide RemovesLastAccess, Lower;
    var rows, after := t.rows, t.rows - {id};
    assert EnabledAdmins(after) == EnabledAdmins(rows) - {id};
    FallbackAfterDelete(names, rows, id);
    if EnabledAdmin(rows[id]) {
      GuardMeans(names, rows, id);
      assert id in EnabledAdmins(rows);
      assert EnabledAdmins(after) == {} <==> EnabledAdmins(rows) == {id};
    } else {
      assert EnabledAdmins(rows) != {id};
      assert EnabledAdmins(after) == EnabledAdmins(rows);
    }
  }

  lemma FallbackAfterDelete(names: Names, rows: Rows, id: nat)
    requires id in rows && DistinctNames(names, rows)
    ensures FallbackInEffect(names, rows - {id})
            <==> FallbackInEffect(names, rows) || IsRuntimeAdmin(names, rows[id].username)
  {
    hide RuntimeAdmin;
    var after := rows - {id};
    if FallbackInEffect(names, after) && !IsRuntimeAdmin(names, rows[id].username) {
      forall k | k in rows ensures !IsRuntimeAdmin(names, rows[k].username) {
        if k != id {
          assert k in after;
        }
      }
    }
  }

  // ---------------------------------------------------------------- runs

  datatype Op = CreateOp(create: Create) | UpdateOp(id: int, update: Update) | DeleteOp(id: int, caller: Option<string>)

  function Step(names: Names, t: Table, op: Op): Table {
    match op
    case CreateOp(body) => Created(names, t, body).0
    case UpdateOp(id, body) => Updated(names, t, id, body).0
    case DeleteOp(id, caller) => Deleted(names, t, id, caller).0
  }

  predicate Inv(names: Names, t: Table) {
    DistinctNames(names, t.rows) && forall id :: id in t.rows ==> id < t.nextId
  }

  /** A create that shuts out the runtime account while no row can take over: the one step the
      handlers do not check. */
  predicate LocksOut(names: Names, t: Table, op: Op) {
    && op.CreateOp? && WellFormed(op.create) && NewRole(op.create) == Some(Viewer)
    && IsRuntimeAdmin(names, Trim(op.create.username)) && EnabledAdmins(t.rows) == {}
    && FallbackInEffect(names, t.rows)
  }

  lemma CreateKeeps(names: Names, t: Table, body: Create)
    requires Inv(names, t) && HasAccess(names, t.rows)
    ensures Inv(names, Step(names, t, CreateOp(body)))
    ensures HasAccess(names, Step(names, t, CreateOp(body)).rows) <==> !LocksOut(names, t, CreateOp(body))
  {
    hide Trim, ByteLen, RuntimeAdmin;
    var u := Trim(body.username);
    if WellFormed(body) && !NameTaken(names, t.rows, u) {
      var row := User(u, NewRole(body).value, false);
      var after := t.rows[t.nextId := row];
      hide WellFormed, NewRole;
      assert EnabledAdmins(after) == EnabledAdmins(t.rows) + if row.role == Admin then {t.nextId} else {};
      assert forall k :: k in t.rows ==> after[k] == t.rows[k];
      assert after[t.nextId] == row;
      if IsRuntimeAdmin(names, u) {
        assert !FallbackInEffect(names, after);
        assert FallbackInEffect(names, t.rows);
      }
    } else if WellFormed(body) {
      assert IsRuntimeAdmin(names, u) ==> !FallbackInEffect(names, t.rows);
    }
  }

  lemma UpdateKeeps(names: Names, t: Table, id: int, body: Update)
    requires Inv(names, t) && HasAccess(names, t.rows)
    ensures var after := Step(names, t, UpdateOp(id, body)); Inv(names, after) && HasAccess(names, after.rows)
  {
    if id > 0 && id in t.rows && Wanted(t.rows[id], body).Some? {
      UpdateRefusedExactly(names, t, id, body);
      hide HasAccess, RemovesLastAccess, Trim, ByteLen;
    }
  }

  lemma DeleteKeeps(names: Names, t: Table, id: int, caller: Option<string>)
    requires Inv(names, t) && HasAccess(names, t.rows)
    ensures var after := Step(names, t, DeleteOp(id, caller)); Inv(names, after) && HasAccess(names, after.rows)
  {
    if id > 0 && id in t.rows {
      DeleteRefusal(names, t, id, caller);
      hide HasAccess, RemovesLastAccess, Lower;
    }
  }

  /** Someone can administer after a step exactly when it is not a create that locks everyone out. */
  lemma StepKeepsAccess(names: Names, t: Table, op: Op)
    requires Inv(names, t) && HasAccess(names, t.rows)
    ensures Inv(names, Step(names, t, op))
    ensures HasAccess(names, Step(names, t, op).rows) <==> !LocksOut(names, t, op)
  {
    hide Inv, HasAccess, Created, Updated, Deleted;
    match op {
      case CreateOp(body) => CreateKeeps(names, t, body);
      case UpdateOp(id, body) => UpdateKeeps(names, t, id, body);
      case DeleteOp(id, caller) => DeleteKeeps(names, t, id, caller);
    }
  }

  predicate AlwaysAccess(names: Names, t: Table, ops: seq<Op>)
    decreases |ops|
  {
    HasAccess(names, t.rows) && (ops == [] || AlwaysAccess(names, Step(names, t, ops[0]), ops[1..]))
  }

  predicate NeverLocksOut(names: Names, t: Table, ops: seq<Op>)
    decreases |ops|
  {
    ops == [] || (!LocksOut(names, t, ops[0]) && NeverLocksOut(names, Step(names, t, ops[0]), ops[1..]))
  }

  /** Over any run: someone can administer throughout exactly when no create locks everyone out. */
  lemma {:induction false} RunKeepsAccess(names: Names, t: Table, ops: seq<Op>)
    requires Inv(names, t) && HasAccess(names, t.rows)
    ensures AlwaysAccess(names, t, ops) <==> NeverLocksOut(names, t, ops)
    decreases |ops|
  {
    hide Inv, HasAccess, LocksOut, Step;
    if ops != [] {
      StepKeepsAccess(names, t, ops[0]);
      if !LocksOut(names, t, ops[0]) {
        RunKeepsAccess(names, Step(names, t, ops[0]), ops[1..]);
      } else {
        assert !AlwaysAccess(names, Step(names, t, ops[0]), ops[1..]);
      }
    }
  }

  /** The gap is real: on an empty table, a viewer named like the runtime account ends all access. */
  lemma ViewerNamedAdmin(names: Names, password: string)
    requires names.configured == "" && ByteLen(password) >= 8
    ensures var body := Create("admin", password, "viewer", true);
            && HasAccess(names, Table(map[], 1).rows)
            && Created(names, Table(map[], 1), body).1 == Ok
            && !HasAccess(names, Created(names, Table(map[], 1), body).0.rows)
  {
    var body := Create("admin", password, "viewer", true);
    AdminIsTrimmed();
    var after := Created(names, Table(map[], 1), body).0.rows;
    assert RuntimeAdmin(names) == "admin";
    assert after[1] == User("admin", Viewer, false);
    assert IsRuntimeAdmin(names, after[1].username);
  }

  lemma AdminIsTrimmed()
    ensures Trim("admin") == "admin" && Trim("viewer") == "viewer" && 2 <= ByteLen("admin") <= 64
  {
    assert "admin"[..4] == "admi" && "admi"[..3] == "adm" && "adm"[..2] == "ad" && "ad"[..1] == "a" && "a"[..0] == "";
    assert ByteLen("a") == 1 && ByteLen("ad") == 2 && ByteLen("adm") == 3 && ByteLen("admi") == 4;
  }

  /** A needless refusal: the only enabled administrator bears the runtime name, and without the row
      the runtime account could log in. */
  lemma NeedlessRefusal(names: Names, caller: Option<string>)
    requires names.configured == ""
    ensures var t := Table(map[1 := User("admin", Admin, false)], 2);
            Deleted(names, t, 1, caller).1 == LastAdmin && HasAccess(names, t.rows - {1})
  {
    var t := Table(map[1 := User("admin", Admin, false)], 2);
    DeleteRefusal(names, t, 1, caller);
    hide RemovesLastAccess, Lower;
    assert RuntimeAdmin(names) == "admin";
    assert EnabledAdmins(t.rows) == {1};
  }
}
