/** The signed-in user's roles, read from the custom claims of their ID token:
    a role is held only when its claim is exactly `true`. */
module Auth {
  import opened Text
  import opened Values

  /** The two roles the portal knows. */
  datatype RoleState = RoleState(admin: bool, operational: bool)

  /** `createRoleState(claims = {})`; `None` is a call without claims. */
  function CreateRoleState(claims: Option<Doc>): (r: RoleState)
    ensures r.admin <==> claims.Some? && "admin" in claims.value && claims.value["admin"] == Bool(true)
    ensures r.operational <==> claims.Some? && "operational" in claims.value && claims.value["operational"] == Bool(true)
  {
    match claims
    case None => RoleState(false, false)
    case Some(c) =>
      RoleState(Get(c, "admin") == Some(Bool(true)), Get(c, "operational") == Some(Bool(true)))
  }

  /** A truthy claim that is not the boolean `true` grants nothing. */
  lemma OnlyTrueGrants(c: Doc)
    ensures ("admin" in c && c["admin"] in {Str("true"), Num(1), Obj(map[])}) ==> !CreateRoleState(Some(c)).admin
    ensures CreateRoleState(Some(map[])) == CreateRoleState(None) == RoleState(false, false)
  {
  }

  /** `hasRole(role)`: `roles[role] === true`; a name other than the two
      roles finds no flag. */
  function HasRole(roles: RoleState, role: string): (b: bool)
    ensures b ==> role == "admin" || role == "operational"
    ensures role == "admin" ==> (b <==> roles.admin)
    ensures role == "operational" ==> (b <==> roles.operational)
  {
    (role == "admin" && roles.admin) || (role == "operational" && roles.operational)
  }

  /** `hasAnyRole(candidates = [])`: `candidates.some(hasRole)`. */
  function HasAnyRole(roles: RoleState, candidates: seq<string>): (b: bool)
    ensures b <==> exists k :: 0 <= k < |candidates| && HasRole(roles, candidates[k])
    decreases |candidates|
  {
    if candidates == [] then false
    else
      var init := candidates[..|candidates| - 1];
      assert forall k :: 0 <= k < |init| ==> init[k] == candidates[k];
      HasAnyRole(roles, init) || HasRole(roles, candidates[|candidates| - 1])
  }

  /** `isAdmin || isOperational`. */
  function CanAccessPortal(roles: RoleState): (b: bool)
    ensures b <==> HasRole(roles, "admin") || HasRole(roles, "operational")
  {
    roles.admin || roles.operational
  }

  /** Access to the portal is holding either role. */
  lemma CanAccessPortalIsAnyRole(roles: RoleState)
    ensures CanAccessPortal(roles) <==> HasAnyRole(roles, ["admin", "operational"])
    ensures !HasAnyRole(roles, [])
  {
    assert HasRole(roles, ["admin", "operational"][0]) <==> roles.admin;
    assert HasRole(roles, ["admin", "operational"][1]) <==> roles.operational;
  }

  /** The roles a finished claim fetch sets: the token's claims, or none when
      the refresh or the read failed. */
  function FetchedRoles(token: Result<Doc, string>): (r: RoleState)
    ensures token.Err? ==> r == RoleState(false, false)
    ensures token.Ok? ==> r == CreateRoleState(Some(token.value))
  {
    match token
    case Ok(claims) => CreateRoleState(Some(claims))
    case Err(_) => CreateRoleState(None)
  }

  /** The roles after one call of the auth listener has run to its end: none
      without a user, the token's claims after a successful fetch, none after
      a failed one. */
  function ListenerRoles(user: Option<User>, token: Result<Doc, string>): (r: RoleState)
    ensures user.None? || token.Err? ==> r == RoleState(false, false)
    ensures user.Some? && token.Ok? ==> r == CreateRoleState(Some(token.value))
  {
    if user.None? then CreateRoleState(None) else FetchedRoles(token)
  }

  /** A user who signed out, or whose claims could not be fetched, cannot use
      the portal. */
  lemma NoClaimsNoAccess(user: Option<User>, token: Result<Doc, string>)
    ensures user.None? || token.Err? ==> !CanAccessPortal(ListenerRoles(user, token))
    ensures CanAccessPortal(ListenerRoles(user, token)) ==>
              user.Some? && token.Ok? && exists r :: r in {"admin", "operational"} && Get(token.value, r) == Some(Bool(true))
  {
    if CanAccessPortal(ListenerRoles(user, token)) {
      if ListenerRoles(user, token).admin {
        assert "admin" in {"admin", "operational"};
      } else {
        assert "operational" in {"admin", "operational"};
      }
    }
  }

  /** The provider's state: the current user, their roles, and whether the
      first answer of the listener is still awaited (children are hidden
      meanwhile). */
  class AuthProvider {
    var currentUser: Option<User>
    var roles: RoleState
    var loading: bool

    constructor ()
      ensures currentUser == None && roles == CreateRoleState(None) && loading
    {
      currentUser := None;
      roles := CreateRoleState(None);
      loading := true;
    }

    /** The effect's start: without a configured auth service the roles are
        cleared and loading ends at once; otherwise the listener is
        subscribed and nothing changes yet. */
    method Start(authConfigured: bool)
      modifies this
      ensures currentUser == old(currentUser)
      ensures !authConfigured ==> roles == RoleState(false, false) && !loading
      ensures authConfigured ==> roles == old(roles) && loading == old(loading)
    {
      if !authConfigured {
        roles := CreateRoleState(None);
        loading := false;
      }
    }

    /** The synchronous start of one call of the `onAuthStateChanged`
        listener: the user is stored at once; without a user the roles are
        cleared and loading ends, with one the claim fetch is started and the
        roles and loading are left for `ClaimsFetched`. */
    method OnAuthStateChanged(user: Option<User>)
      modifies this
      ensures currentUser == user
      ensures user.None? ==> roles == RoleState(false, false) && !loading
      ensures user.Some? ==> roles == old(roles) && loading == old(loading)
    {
      currentUser := user;
      if user.None? {
        roles := CreateRoleState(None);
        loading := false;
      }
    }

    /** The end of a listener call that had a user, once its token refresh
        and claim read have answered with `token`. It sets the roles whatever
        user is current by then: a late answer of an earlier call overwrites
        the roles of a later one. */
    method ClaimsFetched(token: Result<Doc, string>)
      modifies this
      ensures currentUser == old(currentUser)
      ensures roles == FetchedRoles(token) && !loading
    {
      match token {
        case Ok(claims) => roles := CreateRoleState(Some(claims));
        case Err(_) => roles := CreateRoleState(None);
      }
      loading := false;
    }

    /** One listener call that runs to its end before any other starts. */
    method RunListener(user: Option<User>, token: Result<Doc, string>)
      modifies this
      ensures currentUser == user && roles == ListenerRoles(user, token) && !loading
    {
      OnAuthStateChanged(user);
      if user.Some? {
        ClaimsFetched(token);
      }
    }
  }
}
