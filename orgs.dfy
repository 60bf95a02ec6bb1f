/** The organisation gatekeeper of lib/orgs.ts: the allow-list read from
    FLY_ALLOWED_ORGS, the lookup of the organisation the proxy itself runs
    in, and the decision whether a requested organisation slug is let
    through. The two module-level caches are the fields of `OrgGate`; the
    environment and the lookup's reply are parameters. */
module Orgs {
  import opened Wrappers
  import opened Strings
  import opened Http
  import opened Api

  /** The parsed allow-list. */
  datatype OrgConfig = OrgConfig(allowedOrgs: seq<string>, isWildcard: bool)

  /** The two environment variables read here; `None` is an unset variable. */
  datatype OrgEnv = OrgEnv(appName: Option<string>, allowedOrgs: Option<string>)

  const AppNameUnset := "FLY_APP_NAME not set"
  const LookupFailed := "Failed to get current app info"

  /** FLY_APP_NAME is set and non-empty: the proxy runs on a Fly machine. */
  predicate InFlyMachine(env: OrgEnv) {
    env.appName.Some? && env.appName.value != ""
  }

  function TrimAll(parts: seq<string>): (r: seq<string>)
    ensures |r| == |parts| && forall i :: 0 <= i < |r| ==> r[i] == Trim(parts[i])
  {
    seq(|parts|, i requires 0 <= i < |parts| => Trim(parts[i]))
  }

  /** `parseAllowedOrgs`: unset or empty allows no listed organisation, "*"
      alone is the wildcard, and anything else is a comma-separated list
      whose entries are trimmed. */
  function ParseAllowedOrgs(allowed: Option<string>): (c: OrgConfig)
    ensures allowed.None? || allowed.value == "" ==> c == OrgConfig([], false)
    ensures c.isWildcard <==> allowed == Some("*")
    ensures c.isWildcard ==> c.allowedOrgs == []
    ensures allowed.Some? && allowed.value !in {"", "*"} ==>
      |c.allowedOrgs| == Occurrences(allowed.value, ',') + 1
  {
    match allowed
    case None => OrgConfig([], false)
    case Some(s) =>
      if s == "" then OrgConfig([], false)
      else if s == "*" then OrgConfig([], true)
      else OrgConfig(TrimAll(Split(s, ',')), false)
  }

  /** The list is empty and not the wildcard exactly when the variable is
      unset or empty, so only then does the decision fall back to the
      proxy's own organisation. */
  lemma FallsBackExactlyWhenUnset(allowed: Option<string>)
    ensures var c := ParseAllowedOrgs(allowed);
      (!c.isWildcard && c.allowedOrgs == []) <==> (allowed.None? || allowed.value == "")
  {
  }

  /** Trimming adds no character. */
  lemma TrimKeepsOut(p: string, ch: char)
    requires ch !in p
    ensures ch !in Trim(p)
  {
    TrimIsSlice(p);
  }

  lemma InTrimAll(parts: seq<string>, slug: string)
    ensures slug in TrimAll(parts) <==> exists i :: 0 <= i < |parts| && Trim(parts[i]) == slug
  {
    var listed := TrimAll(parts);
    if slug in listed {
      var i :| 0 <= i < |listed| && listed[i] == slug;
      assert Trim(parts[i]) == slug;
    }
    if exists i :: 0 <= i < |parts| && Trim(parts[i]) == slug {
      var i :| 0 <= i < |parts| && Trim(parts[i]) == slug;
      assert listed[i] == slug;
    }
  }

  /** A slug is listed exactly when one comma-separated piece of the
      variable trims to it. */
  lemma ListedExactly(s: string, slug: string)
    requires s !in {"", "*"}
    ensures slug in ParseAllowedOrgs(Some(s)).allowedOrgs <==>
      exists i :: 0 <= i < |Split(s, ',')| && Trim(Split(s, ',')[i]) == slug
  {
    assert ParseAllowedOrgs(Some(s)).allowedOrgs == TrimAll(Split(s, ','));
    InTrimAll(Split(s, ','), slug);
  }

  /** No listed entry contains a comma. */
  lemma ListedHaveNoComma(s: string)
    requires s !in {"", "*"}
    ensures forall org :: org in ParseAllowedOrgs(Some(s)).allowedOrgs ==> ',' !in org
  {
    var parts := Split(s, ',');
    var listed := ParseAllowedOrgs(Some(s)).allowedOrgs;
    assert listed == TrimAll(parts);
    forall i | 0 <= i < |listed|
      ensures ',' !in listed[i]
    {
      TrimKeepsOut(parts[i], ',');
    }
  }

  /** The options getCurrentOrg passes to `api.fetch`. */
  function LookupInit(token: string): RequestInit {
    RequestInit(None, [("Authorization", token)], NoBody)
  }

  function AppPath(app: string): string {
    "/v1/apps/" + app
  }

  /** What getCurrentOrg yields when it starts with the cache `cached`:
      `slug` is the result of reading `organization.slug` from the lookup's
      body. A non-empty cache answers without a lookup; otherwise the lookup
      must be made, be answered ok, and have a readable slug. */
  function CurrentOrg(cached: string, env: OrgEnv, reply: FetchReply, slug: Result<string>): (r: Result<string>)
    ensures cached != "" ==> r == Ok(cached)
    ensures r.Ok? <==> cached != "" || (InFlyMachine(env) && Delivered(reply) && slug.Ok?)
    ensures cached == "" && r.Ok? ==> r == slug
    ensures cached == "" && !InFlyMachine(env) ==> r == Err(AppNameUnset)
    ensures cached == "" && InFlyMachine(env) && reply.Responded? && !reply.response.Ok() ==> r == Err(LookupFailed)
  {
    if cached != "" then Ok(cached)
    else if !InFlyMachine(env) then Err(AppNameUnset)
    else match reply
      case Rejected(message) => Err(message)
      case Responded(response) => if !response.Ok() then Err(LookupFailed) else slug
  }

  /** The cache after getCurrentOrg: the slug it returned, or what it was
      when the call threw. */
  function CacheAfter(cached: string, env: OrgEnv, reply: FetchReply, slug: Result<string>): string {
    var r := CurrentOrg(cached, env, reply, slug);
    if r.Ok? then r.value else cached
  }

  /** Once a lookup has produced a non-empty slug, every later call answers
      that slug, whatever its environment, token or reply. */
  lemma LookupMemoised(
    cached: string, env: OrgEnv, reply: FetchReply, slug: Result<string>,
    env': OrgEnv, reply': FetchReply, slug': Result<string>)
    requires CurrentOrg(cached, env, reply, slug).Ok? && CurrentOrg(cached, env, reply, slug).value != ""
    ensures CurrentOrg(CacheAfter(cached, env, reply, slug), env', reply', slug') == CurrentOrg(cached, env, reply, slug)
    ensures CacheAfter(CacheAfter(cached, env, reply, slug), env', reply', slug') == CacheAfter(cached, env, reply, slug)
  {
  }

  /** A failed lookup leaves the cache as it was. */
  lemma FailedLookupKeepsCache(cached: string, env: OrgEnv, reply: FetchReply, slug: Result<string>)
    requires CurrentOrg(cached, env, reply, slug).Err?
    ensures CacheAfter(cached, env, reply, slug) == cached == ""
  {
  }

  /** The decision validateOrg takes once the allow-list is known; `current`
      is what getCurrentOrg would yield, consulted only when the list is
      empty and not the wildcard. */
  function Decision(c: OrgConfig, orgSlug: string, current: Result<string>): (r: Result<bool>)
    ensures r == Ok(true) <==> c.isWildcard || orgSlug in c.allowedOrgs || (|c.allowedOrgs| == 0 && current == Ok(orgSlug))
    ensures r.Err? <==> !c.isWildcard && |c.allowedOrgs| == 0 && current.Err?
    ensures r.Err? ==> r.message == current.message
  {
    if c.isWildcard then Ok(true)
    else if |c.allowedOrgs| > 0 then Ok(orgSlug in c.allowedOrgs)
    else match current
      case Ok(org) => Ok(org == orgSlug)
      case Err(message) => Err(message)
  }

  /** The decision asks for the proxy's own organisation. */
  predicate NeedsLookup(c: OrgConfig) {
    !c.isWildcard && |c.allowedOrgs| == 0
  }

  /** The two module-level caches. */
  class OrgGate {
    /** `cachedOrg`: the organisation slug found by the last successful lookup, "" before. */
    var cachedOrg: string
    /** `orgConfig`: the allow-list, parsed on first use. */
    var orgConfig: Option<OrgConfig>

    constructor ()
      ensures cachedOrg == "" && orgConfig == None
    {
      cachedOrg, orgConfig := "", None;
    }

    /** `getCurrentOrg`: the cached slug, or a GET of the proxy's own app
        with the caller's token. */
    method GetCurrentOrg(env: OrgEnv, token: string, reply: FetchReply, slug: Result<string>)
      returns (sent: Option<Outgoing>, res: Result<string>)
      modifies this`cachedOrg
      ensures res == CurrentOrg(old(cachedOrg), env, reply, slug)
      ensures cachedOrg == CacheAfter(old(cachedOrg), env, reply, slug)
      ensures sent.Some? <==> old(cachedOrg) == "" && InFlyMachine(env)
      ensures sent.Some? ==> IsUpstreamRequest(sent.value, AppPath(env.appName.value), LookupInit(token))
    {
      if cachedOrg != "" {
        return None, Ok(cachedOrg);
      }
      if env.appName.None? || env.appName.value == "" {
        return None, Err(AppNameUnset);
      }
      var request := Fetch(AppPath(env.appName.value), LookupInit(token));
      sent := Some(request);
      match reply
      case Rejected(message) =>
        res := Err(message);
      case Responded(response) =>
        if !response.Ok() {
          res := Err(LookupFailed);
        } else if slug.Err? {
          res := slug;
        } else {
          cachedOrg := slug.value;
          res := slug;
        }
    }

    /** `validateOrg`: allow everything off a Fly machine; otherwise parse the
        allow-list on first use and decide by the wildcard, the list, or the
        proxy's own organisation. */
    method ValidateOrg(env: OrgEnv, token: string, orgSlug: string, reply: FetchReply, slug: Result<string>)
      returns (sent: Option<Outgoing>, res: Result<bool>)
      modifies this
      ensures !InFlyMachine(env) ==> res == Ok(true) && sent.None? && unchanged(this)
      ensures InFlyMachine(env) ==> orgConfig == Some(old(orgConfig).GetOr(ParseAllowedOrgs(env.allowedOrgs)))
      ensures InFlyMachine(env) ==>
        res == Decision(orgConfig.value, orgSlug, CurrentOrg(old(cachedOrg), env, reply, slug))
      ensures sent.Some? <==> InFlyMachine(env) && NeedsLookup(orgConfig.value) && old(cachedOrg) == ""
      ensures sent.Some? ==> IsUpstreamRequest(sent.value, AppPath(env.appName.value), LookupInit(token))
      ensures cachedOrg == if InFlyMachine(env) && NeedsLookup(orgConfig.value)
                           then CacheAfter(old(cachedOrg), env, reply, slug) else old(cachedOrg)
    {
      if env.appName.None? || env.appName.value == "" {
        return None, Ok(true);
      }
      if orgConfig.None? {
        orgConfig := Some(ParseAllowedOrgs(env.allowedOrgs));
      }
      var c := orgConfig.value;
      if c.isWildcard {
        sent, res := None, Ok(true);
      } else if |c.allowedOrgs| > 0 {
        sent, res := None, Ok(orgSlug in c.allowedOrgs);
      } else {
        var current;
        sent, current := GetCurrentOrg(env, token, reply, slug);
        res := if current.Ok? then Ok(current.value == orgSlug) else Err(current.message);
      }
    }
  }
}
