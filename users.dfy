/** User accounts: creation with a normalised, unique username and a hashed
    four-digit PIN, the field-by-field update, and the soft delete. The PIN
    hash is a parameter (`hash`), as is the fresh id of a new account. */
module Users {
  import opened Common
  import opened Store
  import Shifts

  const DefaultRole := "employee"

  const RequiredFields := "Se requieren: name, username, pin_code"
  const PinFormat := "El PIN debe ser de 4 dígitos"
  const UsernameTaken := "El nombre de usuario ya existe"
  const UserNotFound := "Usuario no encontrado"
  const NothingToUpdate := "No hay campos para actualizar"
  const UserUpdated := "Usuario actualizado exitosamente"
  const UpdateFailed := "Error actualizando usuario"
  const UserCreated := "Usuario creado exitosamente"
  const CreateFailed := "Error creando usuario"
  const OpenShiftError := "No se puede eliminar un usuario con turno abierto"
  const UserDeactivated := "Usuario desactivado exitosamente"

  /** `username.toLowerCase().trim()`. */
  function Normalize(username: string): (r: string)
    ensures IsNormalized(r)
  {
    LowerIsLower(username);
    TrimKeepsLower(ToLower(username));
    Trim(ToLower(username))
  }

  /** A stored username: lower-case, with no white space at either end. */
  predicate IsNormalized(u: string)
  {
    IsLower(u) && (u == [] || (!IsSpace(u[0]) && !IsSpace(u[|u| - 1])))
  }

  lemma LowerIsLower(s: string)
    ensures IsLower(ToLower(s))
  {
    var t := ToLower(s);
    forall k | 0 <= k < |t| ensures !IsUpper(t[k]) {
      assert t[k] == LowerChar(s[k]);
    }
  }

  lemma SliceIsLower(t: string, i: nat, j: nat)
    requires IsLower(t) && i <= j <= |t|
    ensures IsLower(t[i..j])
  {
    forall k | 0 <= k < j - i ensures !IsUpper(t[i..j][k]) {
      assert t[i..j][k] == t[i + k];
    }
  }

  lemma TrimKeepsLower(t: string)
    requires IsLower(t)
    ensures IsLower(Trim(t))
  {
    var a := TrimStart(t);
    SliceIsLower(t, |t| - |a|, |t|);
    assert a == t[|t| - |a|..|t|];
    var b := TrimEnd(a);
    SliceIsLower(a, 0, |b|);
    assert b == a[0..|b|];
  }

  /** Every normalised username is in stored form. */
  predicate UsernameInUse(users: map<Id, User>, username: string)
  {
    exists u :: u in users && users[u].username == username
  }

  /** `SELECT id FROM users WHERE username = ? AND id != ?` finds a row. */
  predicate UsernameUsedByOther(users: map<Id, User>, username: string, id: Id)
  {
    exists u :: u in users && u != id && users[u].username == username
  }

  /** No two accounts share a username. */
  ghost predicate UniqueUsernames(users: map<Id, User>)
  {
    forall a, b :: a in users && b in users && a != b ==> users[a].username != users[b].username
  }

  /** Every stored username is in normalised form. */
  ghost predicate NormalizedUsernames(users: map<Id, User>)
  {
    forall a :: a in users ==> IsNormalized(users[a].username)
  }

  // ===== createUser (and registerEmergency) =====

  datatype CreateReply =
    | CreateRejected(status: nat, error: string)
    | Created(message: string, id: Id, name: string, username: string, role: string)

  /** The row a new account gets: trimmed name, normalised username, hashed
      PIN, active. */
  function NewUser(id: Id, name: string, username: string, pin: string, role: string, hash: string -> string): User
  {
    User(id, Trim(name), Normalize(username), hash(pin), role, true)
  }

  /** The role of a new account: the body's, or the default when the body
      has none (a destructuring default, so an empty role is kept). */
  function RoleOr(role: Option<string>, default: string): (r: string)
    ensures role.Some? ==> r == role.value
    ensures role.None? ==> r == default
  {
    if role.Some? then role.value else default
  }

  /** The checks and the insert shared by account creation and emergency
      registration; `created` and `failed` are the caller's messages. */
  method AddUser(db: Db, name: Option<string>, username: Option<string>, pin: Option<string>, role: string,
                 newId: Id, hash: string -> string, created: string, failed: string)
    returns (r: CreateReply)
    modifies db`users
    ensures !Truthy(name) || !Truthy(username) || !Truthy(pin) ==>
      r == CreateRejected(400, RequiredFields) && db.users == old(db.users)
    ensures Truthy(name) && Truthy(username) && Truthy(pin) && !IsFourDigitPin(pin.value) ==>
      r == CreateRejected(400, PinFormat) && db.users == old(db.users)
    ensures Truthy(name) && Truthy(username) && Truthy(pin) && IsFourDigitPin(pin.value)
            && UsernameInUse(old(db.users), Normalize(username.value)) ==>
      r == CreateRejected(400, UsernameTaken) && db.users == old(db.users)
    ensures r.Created? <==>
      Truthy(name) && Truthy(username) && Truthy(pin) && IsFourDigitPin(pin.value)
      && !UsernameInUse(old(db.users), Normalize(username.value)) && newId !in old(db.users)
    ensures r.Created? ==>
      var u := NewUser(newId, name.value, username.value, pin.value, role, hash);
      && db.users == old(db.users)[newId := u]
      && r == Created(created, newId, u.name, u.username, role)
    ensures !r.Created? ==> db.users == old(db.users)
    ensures r.CreateRejected? && r.status == 500 ==> r.error == failed
  {
    if !Truthy(name) || !Truthy(username) || !Truthy(pin) {
      return CreateRejected(400, RequiredFields);
    }
    if !IsFourDigitPin(pin.value) {
      return CreateRejected(400, PinFormat);
    }
    if UsernameInUse(db.users, Normalize(username.value)) {
      return CreateRejected(400, UsernameTaken);
    }
    if newId in db.users {
      // the insert fails on the primary key
      return CreateRejected(500, failed);
    }
    var u := NewUser(newId, name.value, username.value, pin.value, role, hash);
    db.users := db.users[newId := u];
    r := Created(created, newId, u.name, u.username, role);
  }

  method CreateUser(db: Db, name: Option<string>, username: Option<string>, pin: Option<string>,
                    role: Option<string>, newId: Id, hash: string -> string)
    returns (r: CreateReply)
    modifies db`users
    ensures !Truthy(name) || !Truthy(username) || !Truthy(pin) ==>
      r == CreateRejected(400, RequiredFields) && db.users == old(db.users)
    ensures Truthy(name) && Truthy(username) && Truthy(pin) && !IsFourDigitPin(pin.value) ==>
      r == CreateRejected(400, PinFormat) && db.users == old(db.users)
    ensures Truthy(name) && Truthy(username) && Truthy(pin) && IsFourDigitPin(pin.value)
            && UsernameInUse(old(db.users), Normalize(username.value)) ==>
      r == CreateRejected(400, UsernameTaken) && db.users == old(db.users)
    ensures r.Created? <==>
      Truthy(name) && Truthy(username) && Truthy(pin) && IsFourDigitPin(pin.value)
      && !UsernameInUse(old(db.users), Normalize(username.value)) && newId !in old(db.users)
    ensures r.Created? ==>
      && db.users == old(db.users)[newId := NewUser(newId, name.value, username.value, pin.value, RoleOr(role, DefaultRole), hash)]
      && r.message == UserCreated && r.role == RoleOr(role, DefaultRole)
    ensures !r.Created? ==> db.users == old(db.users)
    ensures r.CreateRejected? && r.status == 500 ==> r.error == CreateFailed
  {
    r := AddUser(db, name, username, pin, RoleOr(role, DefaultRole), newId, hash, UserCreated, CreateFailed);
  }

  /** Creating an account keeps usernames unique and normalised, and the new
      account is active, with the default role unless the body names one. */
  lemma AddKeepsUsernamesUnique(users: map<Id, User>, u: User)
    requires UniqueUsernames(users) && NormalizedUsernames(users)
    requires u.id !in users && !UsernameInUse(users, u.username) && IsNormalized(u.username)
    ensures UniqueUsernames(users[u.id := u]) && NormalizedUsernames(users[u.id := u])
  {
    var after := users[u.id := u];
    forall a, b | a in after && b in after && a != b ensures after[a].username != after[b].username {
      if a == u.id {
        assert b in users;
      } else if b == u.id {
        assert a in users;
      }
    }
  }

  lemma NewUserSpec(id: Id, name: string, username: string, pin: string, role: string, hash: string -> string)
    ensures var u := NewUser(id, name, username, pin, role, hash);
      && u.id == id && u.isActive && u.role == role && u.pinCode == hash(pin)
      && IsNormalized(u.username) && u.username == Normalize(username)
      && (u.name == [] || (!IsSpace(u.name[0]) && !IsSpace(u.name[|u.name| - 1])))
  {
  }

  // ===== updateUser =====

  /** The body of an update. `None` (or `Undefined`) is a field the body
      leaves out; for name, username and PIN `Some(None)` is a `null` the
      body sends, which `!== undefined` counts as sent. */
  datatype UserPatch = UserPatch(
    name: Option<Option<string>>,
    username: Option<Option<string>>,
    pinCode: Option<Option<string>>,
    role: Option<string>,
    isActive: JsValue)

  /** `null.trim()` and `null.toLowerCase()` throw, so a `null` name or
      username ends the handler in its `catch`. */
  predicate ThrowsOnNull(p: UserPatch)
  {
    SentNull(p.name) || SentNull(p.username)
  }

  /** One `column = ?` entry of the `UPDATE … SET` list, with its value. */
  datatype Change = SetName(name: string) | SetUsername(username: string) | SetPin(pinCode: string)
                  | SetRole(role: string) | SetActive(active: bool)

  function ApplyChange(u: User, c: Change): User
  {
    match c
    case SetName(n) => u.(name := n)
    case SetUsername(n) => u.(username := n)
    case SetPin(p) => u.(pinCode := p)
    case SetRole(r) => u.(role := r)
    case SetActive(a) => u.(isActive := a)
  }

  /** The row after `UPDATE users SET <changes> WHERE id = ?`. */
  function ApplyChanges(u: User, cs: seq<Change>): User
  {
    if cs == [] then u else ApplyChange(ApplyChanges(u, cs[..|cs| - 1]), cs[|cs| - 1])
  }

  lemma {:induction false} ApplyChangesAppend(u: User, cs: seq<Change>, ds: seq<Change>)
    ensures ApplyChanges(u, cs + ds) == ApplyChanges(ApplyChanges(u, cs), ds)
    decreases |ds|
  {
    if ds == [] {
      assert cs + ds == cs;
    } else {
      var n := |ds| - 1;
      assert (cs + ds)[..|cs + ds| - 1] == cs + ds[..n];
      ApplyChangesAppend(u, cs, ds[..n]);
    }
  }

  /** The entry of each field the body carries. */
  function NameChange(p: UserPatch): seq<Change>
  {
    if SentValue(p.name).Some? then [SetName(Trim(SentValue(p.name).value))] else []
  }

  function UsernameChange(p: UserPatch): seq<Change>
  {
    if SentValue(p.username).Some? then [SetUsername(Normalize(SentValue(p.username).value))] else []
  }

  function PinChange(p: UserPatch, hash: string -> string): seq<Change>
  {
    if SentValue(p.pinCode).Some? then [SetPin(hash(SentValue(p.pinCode).value))] else []
  }

  function RoleChange(p: UserPatch): seq<Change>
  {
    if p.role.Some? then [SetRole(p.role.value)] else []
  }

  function ActiveChange(p: UserPatch): seq<Change>
  {
    if !p.isActive.Undefined? then [SetActive(JsTruthy(p.isActive))] else []
  }

  /** The list the handler builds, one entry per field the body carries, in
      the handler's order. */
  function PatchChanges(p: UserPatch, hash: string -> string): seq<Change>
  {
    NameChange(p) + UsernameChange(p) + PinChange(p, hash) + RoleChange(p) + ActiveChange(p)
  }

  /** Reference definition of the updated row: each field the body carries
      replaces the stored one, in the handler's order. */
  function Patched(u: User, p: UserPatch, hash: string -> string): (r: User)
    ensures r.id == u.id && r.pinCode == (if SentValue(p.pinCode).Some? then hash(SentValue(p.pinCode).value) else u.pinCode)
    ensures PatchChanges(p, hash) == [] ==> r == u
  {
    var u1 := if SentValue(p.name).Some? then u.(name := Trim(SentValue(p.name).value)) else u;
    var u2 := if SentValue(p.username).Some? then u1.(username := Normalize(SentValue(p.username).value)) else u1;
    var u3 := if SentValue(p.pinCode).Some? then u2.(pinCode := hash(SentValue(p.pinCode).value)) else u2;
    var u4 := if p.role.Some? then u3.(role := p.role.value) else u3;
    if !p.isActive.Undefined? then u4.(isActive := JsTruthy(p.isActive)) else u4
  }

  /** Field by field: the trimmed name, the normalised username, the hashed
      PIN, the role and `is_active ? 1 : 0` replace what the body carries;
      the id and every field the body leaves out are kept. */
  lemma PatchedFields(u: User, p: UserPatch, hash: string -> string)
    ensures var v := Patched(u, p, hash);
      && v.id == u.id
      && v.name == (if SentValue(p.name).Some? then Trim(SentValue(p.name).value) else u.name)
      && v.username == (if SentValue(p.username).Some? then Normalize(SentValue(p.username).value) else u.username)
      && v.pinCode == (if SentValue(p.pinCode).Some? then hash(SentValue(p.pinCode).value) else u.pinCode)
      && v.role == (if p.role.Some? then p.role.value else u.role)
      && v.isActive == (if !p.isActive.Undefined? then JsTruthy(p.isActive) else u.isActive)
  {
  }

  /** Appending at most one entry applies at most one more change. */
  lemma ApplyOneMore(u: User, cs: seq<Change>, c: seq<Change>)
    requires |c| <= 1
    ensures ApplyChanges(u, cs + c) == if c == [] then ApplyChanges(u, cs) else ApplyChange(ApplyChanges(u, cs), c[0])
  {
    if c == [] {
      assert cs + c == cs;
    } else {
      assert (cs + c)[..|cs|] == cs;
    }
  }

  lemma NameStep(u: User, p: UserPatch)
    ensures ApplyChanges(u, NameChange(p)) == if SentValue(p.name).Some? then u.(name := Trim(SentValue(p.name).value)) else u
  {
    if SentValue(p.name).Some? {
      assert NameChange(p)[..0] == [];
    }
  }

  lemma UsernameStep(u: User, cs: seq<Change>, p: UserPatch, v: User)
    requires ApplyChanges(u, cs) == v
    ensures ApplyChanges(u, cs + UsernameChange(p))
            == if SentValue(p.username).Some? then v.(username := Normalize(SentValue(p.username).value)) else v
  {
    ApplyOneMore(u, cs, UsernameChange(p));
  }

  lemma PinStep(u: User, cs: seq<Change>, p: UserPatch, hash: string -> string, v: User)
    requires ApplyChanges(u, cs) == v
    ensures ApplyChanges(u, cs + PinChange(p, hash)) == if SentValue(p.pinCode).Some? then v.(pinCode := hash(SentValue(p.pinCode).value)) else v
  {
    ApplyOneMore(u, cs, PinChange(p, hash));
  }

  lemma RoleStep(u: User, cs: seq<Change>, p: UserPatch, v: User)
    requires ApplyChanges(u, cs) == v
    ensures ApplyChanges(u, cs + RoleChange(p)) == if p.role.Some? then v.(role := p.role.value) else v
  {
    ApplyOneMore(u, cs, RoleChange(p));
  }

  lemma ActiveStep(u: User, cs: seq<Change>, p: UserPatch, v: User)
    requires ApplyChanges(u, cs) == v
    ensures ApplyChanges(u, cs + ActiveChange(p))
            == if !p.isActive.Undefined? then v.(isActive := JsTruthy(p.isActive)) else v
  {
    ApplyOneMore(u, cs, ActiveChange(p));
  }

  /** Applying the built list gives the field-by-field row; the id never changes. */
  lemma PatchApplies(u: User, p: UserPatch, hash: string -> string)
    ensures ApplyChanges(u, PatchChanges(p, hash)) == Patched(u, p, hash)
  {
    var c1 := NameChange(p);
    var c2 := c1 + UsernameChange(p);
    var c3 := c2 + PinChange(p, hash);
    var c4 := c3 + RoleChange(p);
    var u1 := if SentValue(p.name).Some? then u.(name := Trim(SentValue(p.name).value)) else u;
    var u2 := if SentValue(p.username).Some? then u1.(username := Normalize(SentValue(p.username).value)) else u1;
    var u3 := if SentValue(p.pinCode).Some? then u2.(pinCode := hash(SentValue(p.pinCode).value)) else u2;
    var u4 := if p.role.Some? then u3.(role := p.role.value) else u3;
    NameStep(u, p);
    UsernameStep(u, c1, p, u1);
    PinStep(u, c2, p, hash, u2);
    RoleStep(u, c3, p, u3);
    ActiveStep(u, c4, p, u4);
  }

  /** Once the checks pass, the update has something to write exactly when
      the body carries a field; a `null` counts as carried. */
  lemma NoChangesIffEmptyBody(p: UserPatch, hash: string -> string)
    requires !ThrowsOnNull(p) && PinAcceptable(p)
    ensures PatchChanges(p, hash) == [] <==>
      p.name.None? && p.username.None? && p.pinCode.None? && p.role.None? && p.isActive.Undefined?
  {
    if PatchChanges(p, hash) == [] {
      assert |PatchChanges(p, hash)| == 0;
    }
  }

  /** The username is free for this account, or the body does not send one. */
  predicate UsernameAcceptable(users: map<Id, User>, id: Id, p: UserPatch)
  {
    SentValue(p.username).Some? ==> !UsernameUsedByOther(users, Normalize(SentValue(p.username).value), id)
  }

  /** `/^\d{4}$/.test(pin_code)` for a PIN the body sends; `null` is tested
      as the text "null", which fails. */
  predicate PinAcceptable(p: UserPatch)
  {
    p.pinCode.Some? ==> SentValue(p.pinCode).Some? && IsFourDigitPin(SentValue(p.pinCode).value)
  }

  lemma AppendNothing(cs: seq<Change>)
    ensures cs + [] == cs
  {
  }

  /** The name and username part of the `updates` list. */
  method CollectIdentity(users: map<Id, User>, id: Id, p: UserPatch) returns (updates: seq<Change>, refusal: Option<Reply>)
    ensures ThrowsOnNull(p) ==> refusal == Some(Failure(500, UpdateFailed))
    ensures !ThrowsOnNull(p) && !UsernameAcceptable(users, id, p) ==> refusal == Some(Failure(400, UsernameTaken))
    ensures refusal.None? <==> !ThrowsOnNull(p) && UsernameAcceptable(users, id, p)
    ensures refusal.None? ==> updates == NameChange(p) + UsernameChange(p)
  {
    if SentNull(p.name) {
      return [], Some(Failure(500, UpdateFailed));
    }
    var name := SentValue(p.name);
    updates := if name.Some? then [SetName(Trim(name.value))] else [];
    if SentNull(p.username) {
      return updates, Some(Failure(500, UpdateFailed));
    }
    var username := SentValue(p.username);
    if username.Some? {
      var normalized := Normalize(username.value);
      if UsernameUsedByOther(users, normalized, id) {
        return updates, Some(Failure(400, UsernameTaken));
      }
      updates := updates + [SetUsername(normalized)];
    } else {
      AppendNothing(updates);
    }
    refusal := None;
  }

  /** Builds the `updates` list field by field, stopping at the first refused
      field: a `null` name or username throws, then a username used by
      another account and a malformed PIN are refused. */
  method CollectUpdates(users: map<Id, User>, id: Id, p: UserPatch, hash: string -> string)
    returns (updates: seq<Change>, refusal: Option<Reply>)
    ensures ThrowsOnNull(p) ==> refusal == Some(Failure(500, UpdateFailed))
    ensures !ThrowsOnNull(p) && !UsernameAcceptable(users, id, p) ==> refusal == Some(Failure(400, UsernameTaken))
    ensures !ThrowsOnNull(p) && UsernameAcceptable(users, id, p) && !PinAcceptable(p) ==>
      refusal == Some(Failure(400, PinFormat))
    ensures refusal.None? <==> !ThrowsOnNull(p) && UsernameAcceptable(users, id, p) && PinAcceptable(p)
    ensures refusal.None? ==> updates == PatchChanges(p, hash)
  {
    updates, refusal := CollectIdentity(users, id, p);
    if refusal.Some? {
      return;
    }
    if p.pinCode.Some? {
      if p.pinCode.value.None? || !IsFourDigitPin(p.pinCode.value.value) {
        return updates, Some(Failure(400, PinFormat));
      }
      updates := updates + [SetPin(hash(p.pinCode.value.value))];
    } else {
      AppendNothing(updates);
    }
    assert updates == NameChange(p) + UsernameChange(p) + PinChange(p, hash);
    if p.role.Some? {
      updates := updates + [SetRole(p.role.value)];
    } else {
      AppendNothing(updates);
    }
    assert updates == NameChange(p) + UsernameChange(p) + PinChange(p, hash) + RoleChange(p);
    if !p.isActive.Undefined? {
      updates := updates + [SetActive(JsTruthy(p.isActive))];
    } else {
      AppendNothing(updates);
    }
    assert updates == PatchChanges(p, hash);
    refusal := None;
  }

  /** The checks run in the handler's order: existence, a `null` name or
      username, the username, the PIN, and an empty update; nothing is
      written unless all pass. */
  method UpdateUser(db: Db, id: Id, p: UserPatch, hash: string -> string) returns (r: Reply)
    modifies db`users
    ensures id !in old(db.users) ==> r == Failure(404, UserNotFound) && db.users == old(db.users)
    ensures id in old(db.users) && ThrowsOnNull(p) ==> r == Failure(500, UpdateFailed) && db.users == old(db.users)
    ensures id in old(db.users) && !ThrowsOnNull(p) && !UsernameAcceptable(old(db.users), id, p) ==>
      r == Failure(400, UsernameTaken) && db.users == old(db.users)
    ensures id in old(db.users) && !ThrowsOnNull(p) && UsernameAcceptable(old(db.users), id, p) && !PinAcceptable(p) ==>
      r == Failure(400, PinFormat) && db.users == old(db.users)
    ensures id in old(db.users) && !ThrowsOnNull(p) && UsernameAcceptable(old(db.users), id, p) && PinAcceptable(p)
            && PatchChanges(p, hash) == [] ==>
      r == Failure(400, NothingToUpdate) && db.users == old(db.users)
    ensures r.Success? <==>
      id in old(db.users) && !ThrowsOnNull(p) && UsernameAcceptable(old(db.users), id, p) && PinAcceptable(p)
      && PatchChanges(p, hash) != []
    ensures r.Success? ==> r == Success(UserUpdated) && db.users == old(db.users)[id := Patched(old(db.users)[id], p, hash)]
    ensures r.Failure? ==> db.users == old(db.users)
  {
    if id !in db.users {
      return Failure(404, UserNotFound);
    }
    var updates, refusal := CollectUpdates(db.users, id, p, hash);
    if refusal.Some? {
      return refusal.value;
    }
    if updates == [] {
      return Failure(400, NothingToUpdate);
    }
    PatchApplies(db.users[id], p, hash);
    db.users := db.users[id := ApplyChanges(db.users[id], updates)];
    r := Success(UserUpdated);
  }

  /** An accepted update keeps usernames unique and normalised. */
  lemma UpdateKeepsUsernamesUnique(users: map<Id, User>, id: Id, p: UserPatch, hash: string -> string)
    requires UniqueUsernames(users) && NormalizedUsernames(users) && id in users
    requires UsernameAcceptable(users, id, p)
    ensures var after := users[id := Patched(users[id], p, hash)];
      UniqueUsernames(after) && NormalizedUsernames(after)
  {
    var after := users[id := Patched(users[id], p, hash)];
    if SentValue(p.username).Some? {
    }
    forall a, b | a in after && b in after && a != b ensures after[a].username != after[b].username {
      if a == id {
        assert b in users && b != id;
      } else if b == id {
        assert a in users && a != id;
      }
    }
  }

  // ===== deleteUser =====

  /** `SELECT id FROM shifts WHERE opened_by_id = ? AND status = 'open'` finds a row. */
  predicate HasOpenShift(shifts: map<Id, Shift>, userId: Id)
  {
    exists s :: s in shifts && shifts[s].openedById == userId && shifts[s].status == Shifts.OpenStatus
  }

  /** Soft delete: `is_active = 0`, nothing else. */
  function Deactivated(u: User): User
  {
    u.(isActive := false)
  }

  method DeleteUser(db: Db, id: Id) returns (r: Reply)
    modifies db`users
    ensures id !in old(db.users) ==> r == Failure(404, UserNotFound) && db.users == old(db.users)
    ensures id in old(db.users) && HasOpenShift(db.shifts, id) ==>
      r == Failure(400, OpenShiftError) && db.users == old(db.users)
    ensures r.Success? <==> id in old(db.users) && !HasOpenShift(db.shifts, id)
    ensures r.Success? ==> r == Success(UserDeactivated) && db.users == old(db.users)[id := Deactivated(old(db.users)[id])]
  {
    if id !in db.users {
      return Failure(404, UserNotFound);
    }
    if HasOpenShift(db.shifts, id) {
      return Failure(400, OpenShiftError);
    }
    db.users := db.users[id := Deactivated(db.users[id])];
    r := Success(UserDeactivated);
  }

  /** The soft delete keeps the row, its username and its PIN; only the flag
      drops, so usernames stay unique and the name stays reserved. */
  lemma DeactivationKeepsAccount(users: map<Id, User>, id: Id)
    requires id in users
    ensures var after := users[id := Deactivated(users[id])];
      && after.Keys == users.Keys && !after[id].isActive
      && after[id] == users[id].(isActive := false)
      && (UniqueUsernames(users) ==> UniqueUsernames(after))
      && (forall n :: UsernameInUse(users, n) <==> UsernameInUse(after, n))
  {
    var after := users[id := Deactivated(users[id])];
    forall n ensures UsernameInUse(users, n) <==> UsernameInUse(after, n) {
      if UsernameInUse(users, n) {
        var u :| u in users && users[u].username == n;
        assert after[u].username == n;
      }
      if UsernameInUse(after, n) {
        var u :| u in after && after[u].username == n;
        assert users[u].username == n;
      }
    }
  }
}
