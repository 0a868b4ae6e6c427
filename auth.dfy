/** The login handlers: PIN login by account id, PIN login by username, and
    the emergency registration of an administrator. bcrypt is given as
    `compare` and `hash`, token signing as `sign`. */
module Auth {
  import opened Common
  import opened Store
  import Users
  import Access

  const IdAndPinRequired := "Se requiere userId y pin"
  const UsernameAndPinRequired := "Se requiere username y pin"
  const WrongPin := "PIN incorrecto"
  const LoginOk := "Login exitoso"
  const EmergencyRole := "admin"
  const EmergencyCreated := "Usuario de emergencia creado exitosamente"
  const EmergencyFailed := "Error creando usuario de emergencia"
  /** The prefix of every bcrypt hash. */
  const BcryptPrefix := "$2"

  datatype LoginReply =
    | LoginRejected(status: nat, error: string)
    | LoggedIn(message: string, token: string, user: Access.RequestUser)

  // ===== the PIN check =====

  /** A stored PIN that is a bcrypt hash; any other stored PIN is plain text
      left from before hashing. */
  predicate IsHashed(stored: string)
  {
    StartsWith(stored, BcryptPrefix)
  }

  /** A hashed PIN is checked with bcrypt, a plain one by equality. */
  predicate PinMatches(stored: string, pin: string, compare: (string, string) -> bool)
  {
    if IsHashed(stored) then compare(pin, stored) else stored == pin
  }

  /** A plain stored PIN that the login just matched is replaced by its hash. */
  predicate NeedsMigration(stored: string, pin: string)
  {
    !IsHashed(stored) && stored == pin
  }

  /** The accounts after the automatic migration of account `id`'s PIN. */
  function Rehashed(users: map<Id, User>, id: Id, pin: string, hash: string -> string): (r: map<Id, User>)
    requires id in users
    ensures r.Keys == users.Keys && r[id].pinCode == hash(pin)
    ensures var u := users[id]; r[id] == User(u.id, u.name, u.username, hash(pin), u.role, u.isActive)
    ensures forall k :: k in users && k != id ==> r[k] == users[k]
  {
    users[id := users[id].(pinCode := hash(pin))]
  }

  /** What both logins do once they have looked the account up: 401 without
      an account, 401 for a deactivated one, 401 for a wrong PIN, and
      otherwise a token for the account and its public fields. */
  function AccountCheck(found: Option<User>, pin: string, compare: (string, string) -> bool,
                        sign: Access.TokenPayload -> string): (r: LoginReply)
    ensures r.LoggedIn? <==> found.Some? && found.value.isActive && PinMatches(found.value.pinCode, pin, compare)
    ensures found.None? ==> r == LoginRejected(401, Access.UserMissing)
    ensures found.Some? && !found.value.isActive ==> r == LoginRejected(401, Access.UserInactive)
    ensures found.Some? && found.value.isActive && !PinMatches(found.value.pinCode, pin, compare) ==>
      r == LoginRejected(401, WrongPin)
    ensures r.LoggedIn? ==>
      && r.message == LoginOk
      && r.token == sign(Access.TokenPayload(found.value.id, found.value.username, found.value.role))
      && r.user == Access.RequestUser(found.value.id, found.value.name, found.value.username, found.value.role)
  {
    if found.None? then LoginRejected(401, Access.UserMissing)
    else if !found.value.isActive then LoginRejected(401, Access.UserInactive)
    else if !PinMatches(found.value.pinCode, pin, compare) then LoginRejected(401, WrongPin)
    else LoggedIn(LoginOk, sign(Access.Payload(found.value)), Access.Public(found.value))
  }

  // ===== login =====

  /** `login`: 400 without an id or a PIN, 400 for a PIN that is not four
      digits, then the account check; a plain stored PIN that matched is
      replaced by its hash, and nothing else is written. */
  method Login(db: Db, userId: Option<string>, pin: Option<string>, compare: (string, string) -> bool,
               hash: string -> string, sign: Access.TokenPayload -> string)
    returns (r: LoginReply)
    modifies db`users
    ensures !Truthy(userId) || !Truthy(pin) ==> r == LoginRejected(400, IdAndPinRequired)
    ensures Truthy(userId) && Truthy(pin) && !IsFourDigitPin(pin.value) ==> r == LoginRejected(400, Users.PinFormat)
    ensures Truthy(userId) && Truthy(pin) && IsFourDigitPin(pin.value) ==>
      r == AccountCheck(RowById(old(db.users), userId.value), pin.value, compare, sign)
    ensures r.LoggedIn? ==> userId.Some? && pin.Some? && userId.value in old(db.users)
    ensures r.LoggedIn? && NeedsMigration(old(db.users)[userId.value].pinCode, pin.value) ==>
      db.users == Rehashed(old(db.users), userId.value, pin.value, hash)
    ensures !(r.LoggedIn? && NeedsMigration(old(db.users)[userId.value].pinCode, pin.value)) ==>
      db.users == old(db.users)
  {
    if !Truthy(userId) || !Truthy(pin) {
      return LoginRejected(400, IdAndPinRequired);
    }
    if !IsFourDigitPin(pin.value) {
      return LoginRejected(400, Users.PinFormat);
    }
    var found := RowById(db.users, userId.value);
    r := AccountCheck(found, pin.value, compare, sign);
    if r.LoggedIn? && NeedsMigration(found.value.pinCode, pin.value) {
      db.users := Rehashed(db.users, userId.value, pin.value, hash);
    }
  }

  // ===== loginByUsername =====

  /** `loginByUsername`: 400 without a username or a PIN (there is no PIN
      format check here), then the account whose username is the normalised
      one, then the same account check and migration as `login`.
      `account` is the row the query returned, when it returned one. */
  method LoginByUsername(db: Db, username: Option<string>, pin: Option<string>, compare: (string, string) -> bool,
                         hash: string -> string, sign: Access.TokenPayload -> string)
    returns (r: LoginReply, ghost account: Option<Id>)
    modifies db`users
    ensures !Truthy(username) || !Truthy(pin) ==>
      r == LoginRejected(400, UsernameAndPinRequired) && account.None?
    ensures Truthy(username) && Truthy(pin) ==>
      (account.Some? <==> Users.UsernameInUse(old(db.users), Users.Normalize(username.value)))
    ensures account.Some? ==>
      && pin.Some? && username.Some?
      && account.value in old(db.users)
      && old(db.users)[account.value].username == Users.Normalize(username.value)
      && r == AccountCheck(Some(old(db.users)[account.value]), pin.value, compare, sign)
    ensures Truthy(username) && Truthy(pin) && account.None? ==> r == LoginRejected(401, Access.UserMissing)
    ensures account.Some? && r.LoggedIn? && NeedsMigration(old(db.users)[account.value].pinCode, pin.value) ==>
      db.users == Rehashed(old(db.users), account.value, pin.value, hash)
    ensures !(account.Some? && r.LoggedIn? && NeedsMigration(old(db.users)[account.value].pinCode, pin.value)) ==>
      db.users == old(db.users)
  {
    account := None;
    if !Truthy(username) || !Truthy(pin) {
      return LoginRejected(400, UsernameAndPinRequired), account;
    }
    var key := Users.Normalize(username.value);
    if !Users.UsernameInUse(db.users, key) {
      return LoginRejected(401, Access.UserMissing), account;
    }
    // the first row of the query: which one is not specified
    var id :| id in db.users && db.users[id].username == key;
    account := Some(id);
    r := AccountCheck(Some(db.users[id]), pin.value, compare, sign);
    if r.LoggedIn? && NeedsMigration(db.users[id].pinCode, pin.value) {
      db.users := Rehashed(db.users, id, pin.value, hash);
    }
  }

  /** With unique usernames the query of `loginByUsername` has at most one
      row, so the account it checks is determined. */
  lemma UsernameLoginAccountUnique(users: map<Id, User>, key: string, a: Id, b: Id)
    requires Users.UniqueUsernames(users)
    requires a in users && b in users && users[a].username == key && users[b].username == key
    ensures a == b
  {
  }

  // ===== registerEmergency =====

  /** `registerEmergency`: the checks and the insert of account creation,
      with `admin` as the default role and its own messages. */
  method RegisterEmergency(db: Db, name: Option<string>, username: Option<string>, pin: Option<string>,
                           role: Option<string>, newId: Id, hash: string -> string)
    returns (r: Users.CreateReply)
    modifies db`users
    ensures !Truthy(name) || !Truthy(username) || !Truthy(pin) ==>
      r == Users.CreateRejected(400, Users.RequiredFields) && db.users == old(db.users)
    ensures Truthy(name) && Truthy(username) && Truthy(pin) && !IsFourDigitPin(pin.value) ==>
      r == Users.CreateRejected(400, Users.PinFormat) && db.users == old(db.users)
    ensures Truthy(name) && Truthy(username) && Truthy(pin) && IsFourDigitPin(pin.value)
            && Users.UsernameInUse(old(db.users), Users.Normalize(username.value)) ==>
      r == Users.CreateRejected(400, Users.UsernameTaken) && db.users == old(db.users)
    ensures r.Created? <==>
      Truthy(name) && Truthy(username) && Truthy(pin) && IsFourDigitPin(pin.value)
      && !Users.UsernameInUse(old(db.users), Users.Normalize(username.value)) && newId !in old(db.users)
    ensures r.Created? ==>
      && db.users == old(db.users)[newId := Users.NewUser(newId, name.value, username.value, pin.value,
                                                          Users.RoleOr(role, EmergencyRole), hash)]
      && r.message == EmergencyCreated && r.role == Users.RoleOr(role, EmergencyRole)
    ensures !r.Created? ==> db.users == old(db.users)
    ensures r.CreateRejected? && r.status == 500 ==> r.error == EmergencyFailed
  {
    r := Users.AddUser(db, name, username, pin, Users.RoleOr(role, EmergencyRole), newId, hash,
                       EmergencyCreated, EmergencyFailed);
  }

  // ===== properties =====

  /** A deactivated account never logs in, whatever the PIN. */
  lemma DeactivatedCannotLogIn(u: User, pin: string, compare: (string, string) -> bool,
                               sign: Access.TokenPayload -> string)
    requires !u.isActive
    ensures AccountCheck(Some(u), pin, compare, sign) == LoginRejected(401, Access.UserInactive)
  {
  }

  /** A four-digit PIN is never mistaken for a bcrypt hash, so a PIN the
      handlers accept is always stored in plain or hashed form unambiguously. */
  lemma FourDigitPinIsNotHashed(pin: string)
    requires IsFourDigitPin(pin)
    ensures !IsHashed(pin)
  {
    assert pin[0] != '$';
    assert pin[..2] != BcryptPrefix by {
      assert pin[..2][0] == pin[0];
    }
  }

  /** The migration keeps the login working: once the plain PIN is replaced
      by a hash that bcrypt accepts for it, the same PIN gives the same
      answer, and the account no longer needs migrating. */
  lemma MigrationKeepsLogin(u: User, pin: string, compare: (string, string) -> bool,
                            hash: string -> string, sign: Access.TokenPayload -> string)
    requires NeedsMigration(u.pinCode, pin)
    requires IsHashed(hash(pin)) && compare(pin, hash(pin))
    ensures var m := User(u.id, u.name, u.username, hash(pin), u.role, u.isActive);
      && AccountCheck(Some(m), pin, compare, sign) == AccountCheck(Some(u), pin, compare, sign)
      && !NeedsMigration(m.pinCode, pin)
  {
  }

  /** An account created with a PIN logs in with that PIN, given a bcrypt
      whose `compare` accepts the PIN against its own hash. */
  lemma CreatedAccountCanLogIn(id: Id, name: string, username: string, pin: string, role: string,
                               compare: (string, string) -> bool, hash: string -> string,
                               sign: Access.TokenPayload -> string)
    requires IsHashed(hash(pin)) && compare(pin, hash(pin))
    ensures var u := Users.NewUser(id, name, username, pin, role, hash);
      && AccountCheck(Some(u), pin, compare, sign).LoggedIn?
      && AccountCheck(Some(u), pin, compare, sign).user.username == Users.Normalize(username)
      && !NeedsMigration(u.pinCode, pin)
  {
  }

  /** The token a login hands out authenticates the same caller at the
      middleware, with or without the PIN migration that login made. */
  lemma LoginTokenAuthenticates(users: map<Id, User>, id: Id, pin: string, compare: (string, string) -> bool,
                                hash: string -> string, sign: Access.TokenPayload -> string,
                                decode: string -> Access.Decoded, migrated: bool)
    requires id in users && users[id].id == id
    requires AccountCheck(Some(users[id]), pin, compare, sign).LoggedIn?
    requires decode(sign(Access.Payload(users[id]))) == Access.Valid(Access.Payload(users[id]))
    ensures var after := if migrated then Rehashed(users, id, pin, hash) else users;
      var r := AccountCheck(Some(users[id]), pin, compare, sign);
      Access.Authenticate(after, Some(Access.BearerPrefix + r.token), decode) == Access.Authenticated(r.user)
  {
    var after := if migrated then Rehashed(users, id, pin, hash) else users;
    assert Access.Payload(after[id]) == Access.Payload(users[id]);
    assert Access.Public(after[id]) == Access.Public(users[id]);
    Access.IssuedTokenRoundTrip(after, sign(Access.Payload(users[id])), decode, id);
  }
}
