/** Request authentication and the role guards: the bearer-token check that
    attaches the caller to the request, the three role guards, and the token
    payload. Signing and verifying the token is a parameter (`decode`). */
module Access {
  import opened Common
  import opened Store

  const BearerPrefix := "Bearer "
  const AdminRole := "admin"
  const InventoryRole := "auxiliar_inventario"
  const KitchenRole := "kitchen"

  const NoToken := "Token no proporcionado"
  const TokenExpired := "Token expirado"
  const TokenInvalid := "Token inválido"
  const UserMissing := "Usuario no encontrado"
  const UserInactive := "Usuario desactivado"
  const AuthError := "Error de autenticación"
  const NotAuthenticated := "No autenticado"
  const AdminRequired := "Acceso denegado. Se requiere rol de administrador."
  const InventoryRequired := "Acceso denegado. Se requiere acceso a inventario."
  const KitchenRequired := "Acceso denegado. Se requiere acceso a cocina."

  // ===== generateToken =====

  /** The claims a token carries. */
  datatype TokenPayload = TokenPayload(userId: Id, username: string, role: string)

  /** `generateToken`: the id, username and role of the account, nothing else. */
  function Payload(u: User): (t: TokenPayload)
    ensures t.userId == u.id && t.username == u.username && t.role == u.role
  {
    TokenPayload(u.id, u.username, u.role)
  }

  // ===== verifyToken =====

  /** The outcome of `jwt.verify` on a token: its claims, or the error it
      throws (`TokenExpiredError`, `JsonWebTokenError`, anything else). */
  datatype Decoded = Valid(payload: TokenPayload) | Expired | Malformed | OtherError

  /** What `req.user` holds after the check: exactly id, name, username and role. */
  datatype RequestUser = RequestUser(id: Id, name: string, username: string, role: string)

  function Public(u: User): RequestUser
  {
    RequestUser(u.id, u.name, u.username, u.role)
  }

  datatype AuthOutcome = Denied(status: nat, error: string) | Authenticated(user: RequestUser)

  /** The token of an `Authorization: Bearer <token>` header, from index 7. */
  function BearerToken(header: Option<string>): (t: Option<string>)
    ensures t.Some? <==> header.Some? && StartsWith(header.value, BearerPrefix)
    ensures t.Some? ==> header.value == BearerPrefix + t.value
  {
    if header.Some? && StartsWith(header.value, BearerPrefix) then
      assert header.value == header.value[..7] + header.value[7..];
      Some(header.value[7..])
    else None
  }

  /** The decision of `verifyToken` for the header and the stored accounts. */
  function Authenticate(users: map<Id, User>, header: Option<string>, decode: string -> Decoded): (r: AuthOutcome)
    ensures BearerToken(header).None? ==> r == Denied(401, NoToken)
    ensures r.Denied? ==> r.status == 401 || r.status == 500
    ensures r.Authenticated? ==> exists id :: id in users && users[id].isActive && r.user == Public(users[id])
  {
    var token := BearerToken(header);
    if token.None? then Denied(401, NoToken)
    else
      match decode(token.value)
      case Expired => Denied(401, TokenExpired)
      case Malformed => Denied(401, TokenInvalid)
      case OtherError => Denied(500, AuthError)
      case Valid(claims) =>
        if claims.userId !in users then Denied(401, UserMissing)
        else if !users[claims.userId].isActive then Denied(401, UserInactive)
        else Authenticated(Public(users[claims.userId]))
  }

  /** Every refusal is a 401 except a verification error of another kind; a request passes exactly with a bearer token
      that decodes to the id of an active account, and then carries that
      account's public fields. */
  lemma AuthenticateSpec(users: map<Id, User>, header: Option<string>, decode: string -> Decoded)
    ensures var r := Authenticate(users, header, decode);
      && (r.Denied? ==> (r.status == 500 <==> BearerToken(header).Some? && decode(BearerToken(header).value).OtherError?))
      && (r.Denied? ==> r.status in {401, 500})
      && (BearerToken(header).None? ==> r == Denied(401, NoToken))
      && (r.Authenticated? <==>
            BearerToken(header).Some? && decode(BearerToken(header).value).Valid?
            && decode(BearerToken(header).value).payload.userId in users
            && users[decode(BearerToken(header).value).payload.userId].isActive)
      && (r.Authenticated? ==>
            var u := users[decode(BearerToken(header).value).payload.userId];
            r.user == RequestUser(u.id, u.name, u.username, u.role))
  {
  }

  /** A token issued for an account authenticates that account for as long
      as it stays active, and stops working once it is deactivated. */
  lemma IssuedTokenRoundTrip(users: map<Id, User>, token: string, decode: string -> Decoded, id: Id)
    requires id in users && decode(token) == Valid(Payload(users[id]))
    requires users[id].id == id
    ensures users[id].isActive ==>
      Authenticate(users, Some(BearerPrefix + token), decode) == Authenticated(Public(users[id]))
    ensures !users[id].isActive ==>
      Authenticate(users, Some(BearerPrefix + token), decode) == Denied(401, UserInactive)
  {
    var h := BearerPrefix + token;
    assert StartsWith(h, BearerPrefix) by {
      assert h[..|BearerPrefix|] == BearerPrefix;
    }
    assert h[7..] == token;
  }

  /** The request whose `user` the middleware sets. */
  class Request {
    var user: Option<RequestUser>

    constructor ()
      ensures user.None?
    {
      user := None;
    }
  }

  /** `verifyToken`: on success `req.user` is set and the chain goes on;
      otherwise the request is answered and `req.user` is left alone. */
  method VerifyToken(req: Request, users: map<Id, User>, header: Option<string>, decode: string -> Decoded)
    returns (r: AuthOutcome)
    modifies req`user
    ensures r == Authenticate(users, header, decode)
    ensures r.Authenticated? ==> req.user == Some(r.user)
    ensures r.Denied? ==> req.user == old(req.user)
  {
    var token := BearerToken(header);
    if token.None? {
      return Denied(401, NoToken);
    }
    var decoded := decode(token.value);
    if decoded.Expired? {
      return Denied(401, TokenExpired);
    }
    if decoded.Malformed? {
      return Denied(401, TokenInvalid);
    }
    if decoded.OtherError? {
      return Denied(500, AuthError);
    }
    var userId := decoded.payload.userId;
    if userId !in users {
      return Denied(401, UserMissing);
    }
    var u := users[userId];
    if !u.isActive {
      return Denied(401, UserInactive);
    }
    req.user := Some(Public(u));
    r := Authenticated(Public(u));
  }

  // ===== role guards =====

  datatype Guard = RequireAdmin | RequireInventory | RequireKitchen

  datatype GuardOutcome = Pass | Refuse(status: nat, error: string)

  /** The roles a guard admits. */
  predicate Admits(g: Guard, role: string)
  {
    match g
    case RequireAdmin => role == AdminRole
    case RequireInventory => role == AdminRole || role == InventoryRole
    case RequireKitchen => role == AdminRole || role == KitchenRole
  }

  function DeniedMessage(g: Guard): string
  {
    match g
    case RequireAdmin => AdminRequired
    case RequireInventory => InventoryRequired
    case RequireKitchen => KitchenRequired
  }

  /** A guard answers 401 without a caller, 403 for a role it does not
      admit, and lets the request through otherwise. */
  function Check(g: Guard, user: Option<RequestUser>): (r: GuardOutcome)
    ensures user.None? <==> r == Refuse(401, NotAuthenticated)
    ensures r == Pass <==> user.Some? && Admits(g, user.value.role)
    ensures r.Refuse? && user.Some? ==> r == Refuse(403, DeniedMessage(g))
  {
    if user.None? then Refuse(401, NotAuthenticated)
    else if !Admits(g, user.value.role) then Refuse(403, DeniedMessage(g))
    else Pass
  }

  /** An administrator passes every guard; the inventory guard admits
      exactly the administrator and the inventory assistant, the kitchen
      guard exactly the administrator and the kitchen. */
  lemma AdminPassesEveryGuard(user: RequestUser)
    requires Check(RequireAdmin, Some(user)) == Pass
    ensures Check(RequireInventory, Some(user)) == Pass && Check(RequireKitchen, Some(user)) == Pass
  {
  }

  lemma GuardRoles(role: string)
    ensures Admits(RequireAdmin, role) <==> role == AdminRole
    ensures Admits(RequireInventory, role) <==> role in {AdminRole, InventoryRole}
    ensures Admits(RequireKitchen, role) <==> role in {AdminRole, KitchenRole}
    ensures Admits(RequireAdmin, role) ==> Admits(RequireInventory, role) && Admits(RequireKitchen, role)
  {
  }
}
