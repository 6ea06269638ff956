/**
 * API authentication: bearer tokens from three environment variables map to roles, the
 * map is loaded once and cached until a reload, and two guards turn a role into an
 * HTTP refusal. The environment is an input; the request's bearer credentials are the
 * token it carries, if any.
 */
module Auth {
  import opened Wrappers
  import Strings

  datatype Role = Owner | Agent | Viewer | Public

  /** The three variables `_load_tokens` reads; `None` when a variable is unset. */
  datatype Environment = Environment(ownerToken: Option<string>, agentTokens: Option<string>, viewerTokens: Option<string>)

  // ================================================================ the token map

  /** `t.strip()` for each entry of a split list. */
  const Clean: string -> string := (p: string) => Strings.Strip(p)

  /** The non-empty cleaned entries of a list. */
  function Listed(parts: seq<string>, clean: string -> string): (r: set<string>)
    ensures forall t :: t in r ==> t != []
  {
    set p | p in parts && clean(p) != [] :: clean(p)
  }

  /** The entries of `parts`, cleaned and without the empty ones, assigned `role` in order. */
  function Assigned(m: map<string, Role>, parts: seq<string>, role: Role, clean: string -> string): map<string, Role>
  {
    if parts == [] then m
    else
      var before := Assigned(m, parts[..|parts| - 1], role, clean);
      var t := clean(parts[|parts| - 1]);
      if t != [] then before[t := role] else before
  }

  /** Assigning one more entry of `parts`. */
  lemma AssignedSnoc(m: map<string, Role>, parts: seq<string>, i: nat, role: Role, clean: string -> string)
    requires i < |parts|
    ensures Assigned(m, parts[..i + 1], role, clean) ==
            var before := Assigned(m, parts[..i], role, clean);
            if clean(parts[i]) != [] then before[clean(parts[i]) := role] else before
  {
    var p := parts[..i + 1];
    assert p[..|p| - 1] == parts[..i];
  }

  /**
   * Assigning a list adds exactly its listed tokens, all with `role`, overriding what
   * they had; every other token keeps its role.
   */
  lemma {:induction false} AssignedFacts(m: map<string, Role>, parts: seq<string>, role: Role,
                                         clean: string -> string, t: string)
    ensures t in Assigned(m, parts, role, clean) <==> t in m || t in Listed(parts, clean)
    ensures t in Listed(parts, clean) ==> Assigned(m, parts, role, clean)[t] == role
    ensures t !in Listed(parts, clean) && t in m ==> Assigned(m, parts, role, clean)[t] == m[t]
  {
    if parts != [] {
      var n := |parts| - 1;
      var init := parts[..n];
      AssignedFacts(m, init, role, clean, t);
      assert parts == init + [parts[n]];
      assert Listed(parts, clean) == Listed(init, clean) + (if clean(parts[n]) != [] then {clean(parts[n])} else {}) by {
        forall u | u in Listed(parts, clean)
          ensures u in Listed(init, clean) + (if clean(parts[n]) != [] then {clean(parts[n])} else {})
        {
          var p :| p in parts && clean(p) != [] && clean(p) == u;
          if p != parts[n] {
            var k :| 0 <= k < |parts| && parts[k] == p;
            assert init[k] == p;
          }
        }
        forall u | u in Listed(init, clean) ensures u in Listed(parts, clean) {
          var p :| p in init && clean(p) != [] && clean(p) == u;
          assert p in parts;
        }
      }
    }
  }

  /** The owner token, if set and non-empty, as the starting map. */
  function OwnerMap(env: Environment): map<string, Role>
  {
    if env.ownerToken.Some? && env.ownerToken.value != [] then map[env.ownerToken.value := Owner] else map[]
  }

  function AgentParts(env: Environment): seq<string>
  {
    Strings.Split(env.agentTokens.GetOr(""), ',')
  }

  function ViewerParts(env: Environment): seq<string>
  {
    Strings.Split(env.viewerTokens.GetOr(""), ',')
  }

  /** `_load_tokens`: owner first, then the agent list, then the viewer list. */
  function TokenMap(env: Environment): map<string, Role>
  {
    Assigned(Assigned(OwnerMap(env), AgentParts(env), Agent, Clean), ViewerParts(env), Viewer, Clean)
  }

  /**
   * A token has a role exactly when it is the (non-empty) owner token or listed among the
   * agent or viewer tokens; a later list wins, so viewer beats agent beats owner, and no
   * token is ever mapped to `public`.
   */
  lemma TokenMapFacts(env: Environment, t: string)
    ensures t in TokenMap(env) <==>
              (env.ownerToken == Some(t) && t != []) || t in Listed(AgentParts(env), Clean) || t in Listed(ViewerParts(env), Clean)
    ensures t in Listed(ViewerParts(env), Clean) ==> TokenMap(env)[t] == Viewer
    ensures t !in Listed(ViewerParts(env), Clean) && t in Listed(AgentParts(env), Clean) ==> TokenMap(env)[t] == Agent
    ensures t !in Listed(ViewerParts(env), Clean) && t !in Listed(AgentParts(env), Clean) && t in TokenMap(env) ==> TokenMap(env)[t] == Owner
    ensures t in TokenMap(env) ==> TokenMap(env)[t] != Public
  {
    var m1 := Assigned(OwnerMap(env), AgentParts(env), Agent, Clean);
    AssignedFacts(OwnerMap(env), AgentParts(env), Agent, Clean, t);
    AssignedFacts(m1, ViewerParts(env), Viewer, Clean, t);
  }

  /** One `for t in tokens.split(",")` loop of `_load_tokens`. */
  method AssignAll(m: map<string, Role>, parts: seq<string>, role: Role) returns (mapping: map<string, Role>)
    ensures mapping == Assigned(m, parts, role, Clean)
  {
    mapping := m;
    var i := 0;
    while i < |parts|
      invariant 0 <= i <= |parts|
      invariant mapping == Assigned(m, parts[..i], role, Clean)
    {
      AssignedSnoc(m, parts, i, role, Clean);
      var t := Strings.Strip(parts[i]);
      if t != [] {
        mapping := mapping[t := role];
      }
      i := i + 1;
    }
    assert parts[..i] == parts;
  }

  /** `_load_tokens`. */
  method LoadTokens(env: Environment) returns (mapping: map<string, Role>)
    ensures mapping == TokenMap(env)
  {
    mapping := map[];
    if env.ownerToken.Some? && env.ownerToken.value != [] {
      mapping := mapping[env.ownerToken.value := Owner];
    }
    mapping := AssignAll(mapping, Strings.Split(env.agentTokens.GetOr(""), ','), Agent);
    mapping := AssignAll(mapping, Strings.Split(env.viewerTokens.GetOr(""), ','), Viewer);
  }

  // ================================================================ roles and guards

  /** `tokens.get(token, "public")`. */
  function RoleOf(token: string, tokens: map<string, Role>): (r: Role)
    ensures token in tokens ==> r == tokens[token]
    ensures token !in tokens ==> r == Public
  {
    if token in tokens then tokens[token] else Public
  }

  /** A request is public exactly when it carries no token or one the map does not know. */
  lemma PublicIff(credentials: Option<string>, env: Environment)
    ensures (credentials.None? || RoleOf(credentials.value, TokenMap(env)) == Public) <==>
            (credentials.None? || credentials.value !in TokenMap(env))
  {
    if credentials.Some? {
      TokenMapFacts(env, credentials.value);
    }
  }

  datatype HttpError = HttpError(status: int, detail: string)

  /** `require_owner`: 403 unless the role is owner. */
  function RequireOwner(role: Role): (r: Result<Role, HttpError>)
    ensures r.Ok? <==> role == Owner
    ensures r.Ok? ==> r.value == role
    ensures r.Err? ==> r.error.status == 403
  {
    if role != Owner then Err(HttpError(403, "Owner access required")) else Ok(role)
  }

  /** `require_authenticated`: 401 exactly for the public role. */
  function RequireAuthenticated(role: Role): (r: Result<Role, HttpError>)
    ensures r.Err? <==> role == Public
    ensures r.Ok? ==> r.value == role
    ensures r.Err? ==> r.error.status == 401
  {
    if role == Public then Err(HttpError(401, "Authentication required")) else Ok(role)
  }

  /** Every role that passes the owner guard passes the authentication guard. */
  lemma OwnerIsAuthenticated(role: Role)
    requires RequireOwner(role).Ok?
    ensures RequireAuthenticated(role).Ok?
  {
  }

  // ================================================================ the cache

  /** The module-level `_tokens`: the map loaded on first use, kept until `reload_tokens`. */
  class TokenCache {
    var tokens: Option<map<string, Role>>
    /** The environment the cached map was loaded from. */
    ghost var loadedFrom: Environment

    ghost predicate Valid()
      reads this
    {
      tokens.Some? ==> tokens.value == TokenMap(loadedFrom)
    }

    constructor()
      ensures tokens.None? && Valid()
    {
      tokens := None;
      loadedFrom := Environment(None, None, None);
    }

    /** `_get_tokens`: load on first use, then answer from the cache whatever `env` now says. */
    method GetTokens(env: Environment) returns (m: map<string, Role>)
      requires Valid()
      modifies this
      ensures Valid()
      ensures m == TokenMap(loadedFrom)
      ensures old(tokens).Some? ==> m == old(tokens).value && tokens == old(tokens) && loadedFrom == old(loadedFrom)
      ensures old(tokens).None? ==> tokens == Some(m) && loadedFrom == env
    {
      if tokens.None? {
        var loaded := LoadTokens(env);
        tokens := Some(loaded);
        loadedFrom := env;
      }
      m := tokens.value;
    }

    /** `reload_tokens`: forget the cached map. */
    method Reload()
      modifies this
      ensures tokens.None? && Valid()
    {
      tokens := None;
    }

    /** `resolve_role`: public without a token (the cache is not consulted), else the token's role. */
    method ResolveRole(credentials: Option<string>, env: Environment) returns (role: Role)
      requires Valid()
      modifies this
      ensures Valid()
      ensures credentials.None? ==> role == Public && tokens == old(tokens) && loadedFrom == old(loadedFrom)
      ensures credentials.Some? ==> role == RoleOf(credentials.value, TokenMap(loadedFrom))
      ensures credentials.Some? && old(tokens).Some? ==> tokens == old(tokens) && loadedFrom == old(loadedFrom)
      ensures credentials.Some? && old(tokens).None? ==> loadedFrom == env && tokens.Some?
    {
      if credentials.None? {
        return Public;
      }
      var m := GetTokens(env);
      role := RoleOf(credentials.value, m);
    }
  }
}
