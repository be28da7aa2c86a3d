/** Connector (MCP server) credential resolution: for each connector, build
    the connection parameters handed to the multi-server client, validating
    the user's linked account for provider-bound connectors. Every validation
    failure is an HTTP 400 whose detail is the message kept here, and aborts
    the whole resolution before tool discovery. */
module McpTools {
  import opened Results
  import Text

  datatype Mcp = Mcp(id: string, name: string, url: string, providerId: Option<string>, scopes: seq<string>)

  /** The linked-account fields read; times are in one integer clock. */
  datatype Account = Account(
    providerId: string,
    userId: string,
    accessToken: Option<string>,
    refreshToken: Option<string>,
    accessTokenExpiresAt: Option<int>,
    scope: Option<string>)

  datatype GoogleSettings = GoogleSettings(clientId: string, clientSecret: string)

  /** A header value: text, the string form of a timestamp, or `None`. */
  datatype HeaderValue = Text(text: string) | Timestamp(at: int) | Null

  /** The headers of a connection: none, or the six sent to a Google-bound
      connector. */
  datatype Headers =
    | NoHeaders
    | GoogleHeaderSet(accessToken: HeaderValue, refreshToken: HeaderValue, scopes: HeaderValue,
                      expiresAt: HeaderValue, clientId: HeaderValue, clientSecret: HeaderValue)

  datatype ServerParams = ServerParams(url: string, transport: string, headers: Headers)

  const Transport := "streamable_http"
  const GoogleProvider := "google"
  const ScopesRequiredMsg := "Account scopes required"

  function NoAccountMsg(provider: string): string {
    "No account found for provider_id " + provider
  }

  function ScopeMismatchMsg(provider: string): string {
    "Account scopes do not match MCP scopes for provider_id " + provider
  }

  function ExpiredTokenMsg(provider: string): string {
    "Access token for provider_id " + provider + " has expired"
  }

  /** The first account row for the provider and user (`.first()`). */
  function FindAccount(accounts: seq<Account>, provider: string, user: string): (r: Option<Account>)
    ensures r.Some? ==> r.value in accounts && r.value.providerId == provider && r.value.userId == user
    ensures r.None? <==> forall a :: a in accounts ==> !(a.providerId == provider && a.userId == user)
  {
    if |accounts| == 0 then None
    else if accounts[0].providerId == provider && accounts[0].userId == user then Some(accounts[0])
    else
      assert accounts == [accounts[0]] + accounts[1..];
      FindAccount(accounts[1..], provider, user)
  }

  /** The scopes an account grants: its scope string split on "," exactly
      (no trimming, empty pieces kept). */
  function GrantedScopes(scope: string): set<string> {
    set p | p in Text.Split(scope, ',')
  }

  function OptionText(s: Option<string>): HeaderValue {
    if s.Some? then Text(s.value) else Null
  }

  /** The six headers sent to a Google-bound connector: the account's
      tokens, its scope string, its token expiry (`None` when unset) and the
      Google client credentials. */
  function GoogleHeaders(a: Account, scope: string, settings: GoogleSettings): Headers {
    GoogleHeaderSet(
      OptionText(a.accessToken),
      OptionText(a.refreshToken),
      Text(scope),
      if a.accessTokenExpiresAt.Some? then Timestamp(a.accessTokenExpiresAt.value) else Null,
      Text(settings.clientId),
      Text(settings.clientSecret))
  }

  const GoogleHeaderNames := {"X-ACCESS-TOKEN", "X-REFRESH-TOKEN", "X-SCOPES", "X-ACCESS-TOKEN-EXPIRES-AT",
                              "X-CLIENT-ID", "X-CLIENT-SECRET"}

  /** The headers as the dict handed to the client. */
  function HeaderMap(h: Headers): (m: map<string, HeaderValue>)
    ensures h.NoHeaders? ==> m == map[]
    ensures h.GoogleHeaderSet? ==> m.Keys == GoogleHeaderNames
    ensures h.GoogleHeaderSet? ==>
      && m["X-ACCESS-TOKEN"] == h.accessToken && m["X-REFRESH-TOKEN"] == h.refreshToken
      && m["X-SCOPES"] == h.scopes && m["X-ACCESS-TOKEN-EXPIRES-AT"] == h.expiresAt
      && m["X-CLIENT-ID"] == h.clientId && m["X-CLIENT-SECRET"] == h.clientSecret
  {
    match h
    case NoHeaders => map[]
    case GoogleHeaderSet(access, refresh, scopes, expires, clientId, clientSecret) =>
      map[
        "X-ACCESS-TOKEN" := access,
        "X-REFRESH-TOKEN" := refresh,
        "X-SCOPES" := scopes,
        "X-ACCESS-TOKEN-EXPIRES-AT" := expires,
        "X-CLIENT-ID" := clientId,
        "X-CLIENT-SECRET" := clientSecret
      ]
  }

  /** Whether a provider-bound connector's account passes every check. */
  predicate AccountValid(m: Mcp, a: Account, now: int) {
    && a.scope.Some?
    && (forall s :: s in m.scopes ==> s in GrantedScopes(a.scope.value))
    && (m.providerId == Some(GoogleProvider) ==>
          !(a.accessTokenExpiresAt.Some? && a.accessTokenExpiresAt.value < now))
  }

  /** The body of the per-connector loop: the parameters for one connector,
      or the first check it fails, in the order account, scope present, scope
      superset, Google token expiry. */
  function ConnectorParams(m: Mcp, user: string, accounts: seq<Account>, settings: GoogleSettings, now: int)
    : (r: Result<ServerParams>)
    ensures m.providerId.None? ==> r == Ok(ServerParams(m.url, Transport, NoHeaders))
    ensures m.providerId.Some? ==>
      var acct := FindAccount(accounts, m.providerId.value, user);
      && (acct.None? ==> r == Err(NoAccountMsg(m.providerId.value)))
      && (acct.Some? ==> (r.Ok? <==> AccountValid(m, acct.value, now)))
      && (acct.Some? && acct.value.scope.None? ==> r == Err(ScopesRequiredMsg))
      && (acct.Some? && acct.value.scope.Some? &&
          !(forall sc :: sc in m.scopes ==> sc in GrantedScopes(acct.value.scope.value)) ==>
            r == Err(ScopeMismatchMsg(m.providerId.value)))
      && (acct.Some? && !AccountValid(m, acct.value, now) && acct.value.scope.Some? &&
          (forall sc :: sc in m.scopes ==> sc in GrantedScopes(acct.value.scope.value)) ==>
            r == Err(ExpiredTokenMsg(m.providerId.value)))
    ensures r.Ok? ==> r.value.url == m.url && r.value.transport == Transport
    ensures r.Ok? && m.providerId != Some(GoogleProvider) ==> r.value.headers == NoHeaders
    ensures r.Ok? && m.providerId == Some(GoogleProvider) ==>
      var a := FindAccount(accounts, GoogleProvider, user).value;
      r.value.headers == GoogleHeaders(a, a.scope.value, settings)
  {
    var base := ServerParams(m.url, Transport, NoHeaders);
    match m.providerId
    case None => Ok(base)
    case Some(provider) =>
      match FindAccount(accounts, provider, user)
      case None => Err(NoAccountMsg(provider))
      case Some(a) =>
        if a.scope.None? then Err(ScopesRequiredMsg)
        else if !(forall s :: s in m.scopes ==> s in GrantedScopes(a.scope.value)) then Err(ScopeMismatchMsg(provider))
        else if provider == GoogleProvider then
          if a.accessTokenExpiresAt.Some? && a.accessTokenExpiresAt.value < now then Err(ExpiredTokenMsg(provider))
          else Ok(base.(headers := GoogleHeaders(a, a.scope.value, settings)))
        else Ok(base)
  }

  /** An account whose scope string is "first, second" does not grant
      `second` (say "read, write" and "write"): the split does not trim, so
      a connector asking for it is rejected. */
  lemma SpacesAreNotTrimmed(m: Mcp, user: string, accounts: seq<Account>, a: Account, settings: GoogleSettings,
                            now: int, first: string, second: string)
    requires m.providerId.Some? && FindAccount(accounts, m.providerId.value, user) == Some(a)
    requires ',' !in first && ',' !in second && second != first
    requires a.scope == Some(first + ", " + second)
    requires second in m.scopes
    ensures ConnectorParams(m, user, accounts, settings, now) == Err(ScopeMismatchMsg(m.providerId.value))
  {
    SpacedScopes(first, second);
    assert |" " + second| != |second|;
  }

  /** Splitting "first, second" keeps the space: the pieces are `first` and
      " second". */
  lemma SpacedScopes(first: string, second: string)
    requires ',' !in first && ',' !in second
    ensures GrantedScopes(first + ", " + second) == {first, " " + second}
  {
    var pieces := [first, " " + second];
    assert ',' !in pieces[1];
    assert Text.Join(pieces[1..], ',') == " " + second;
    assert Text.Join(pieces, ',') == first + ", " + second;
    Text.SplitJoin(pieces, ',');
  }

  /** Expiry is strict: a Google token expiring exactly now is still
      accepted, and rejected one tick later. */
  lemma GoogleExpiryBoundary(m: Mcp, user: string, accounts: seq<Account>, a: Account, settings: GoogleSettings)
    requires m.providerId == Some(GoogleProvider)
    requires FindAccount(accounts, GoogleProvider, user) == Some(a)
    requires a.scope.Some? && forall s :: s in m.scopes ==> s in GrantedScopes(a.scope.value)
    requires a.accessTokenExpiresAt.Some?
    ensures ConnectorParams(m, user, accounts, settings, a.accessTokenExpiresAt.value).Ok?
    ensures ConnectorParams(m, user, accounts, settings, a.accessTokenExpiresAt.value + 1)
      == Err(ExpiredTokenMsg(GoogleProvider))
  {
  }

  /** Whether connector `i` is the last one with its name. */
  predicate LastWithName(mcps: seq<Mcp>, i: int)
    requires 0 <= i < |mcps|
  {
    forall j :: i < j < |mcps| ==> mcps[j].name != mcps[i].name
  }

  /** The loop of `get_tools_from_mcps` over any per-connector resolution:
      every connector must resolve, the first failure is the result, and a
      later connector overwrites an earlier one of the same name. */
  method ResolveAll(mcps: seq<Mcp>, resolve: Mcp -> Result<ServerParams>)
    returns (r: Result<map<string, ServerParams>>)
    ensures r.Ok? <==> forall i :: 0 <= i < |mcps| ==> resolve(mcps[i]).Ok?
    ensures r.Err? ==> exists i :: (0 <= i < |mcps| && resolve(mcps[i]) == Err(r.message)
      && forall j :: 0 <= j < i ==> resolve(mcps[j]).Ok?)
    ensures r.Ok? ==> r.value.Keys == set i | 0 <= i < |mcps| :: mcps[i].name
    ensures r.Ok? ==> forall i :: 0 <= i < |mcps| && LastWithName(mcps, i) ==>
      r.value[mcps[i].name] == resolve(mcps[i]).value
  {
    var params: map<string, ServerParams> := map[];
    var n := 0;
    while n < |mcps|
      invariant 0 <= n <= |mcps|
      invariant forall i :: 0 <= i < n ==> resolve(mcps[i]).Ok?
      invariant params.Keys == set i | 0 <= i < n :: mcps[i].name
      invariant forall i :: 0 <= i < n && (forall j :: i < j < n ==> mcps[j].name != mcps[i].name) ==>
        params[mcps[i].name] == resolve(mcps[i]).value
    {
      var p := resolve(mcps[n]);
      if p.Err? {
        return Err(p.message);
      }
      params := params[mcps[n].name := p.value];
      n := n + 1;
    }
    return Ok(params);
  }

  /** The parameter map `server_params` built by the loop of
      `get_tools_from_mcps`, with `ConnectorParams` as the loop body. */
  method ResolveServerParams(mcps: seq<Mcp>, user: string, accounts: seq<Account>, settings: GoogleSettings, now: int)
    returns (r: Result<map<string, ServerParams>>)
    ensures r.Ok? <==> forall i :: 0 <= i < |mcps| ==> ConnectorParams(mcps[i], user, accounts, settings, now).Ok?
    ensures r.Err? ==> exists i :: (0 <= i < |mcps|
      && ConnectorParams(mcps[i], user, accounts, settings, now) == Err(r.message)
      && forall j :: 0 <= j < i ==> ConnectorParams(mcps[j], user, accounts, settings, now).Ok?)
    ensures r.Ok? ==> r.value.Keys == set i | 0 <= i < |mcps| :: mcps[i].name
    ensures r.Ok? ==> forall i :: 0 <= i < |mcps| && LastWithName(mcps, i) ==>
      r.value[mcps[i].name] == ConnectorParams(mcps[i], user, accounts, settings, now).value
  {
    r := ResolveAll(mcps, m => ConnectorParams(m, user, accounts, settings, now));
  }

  /** `get_tools_from_mcps`: resolve every connector's parameters, then hand
      the whole map to tool discovery (`discover`, the network client). A
      validation failure is returned without discovery being consulted. */
  method GetToolsFromMcps(mcps: seq<Mcp>, user: string, accounts: seq<Account>, settings: GoogleSettings,
                          now: int, discover: map<string, ServerParams> -> Result<seq<string>>)
    returns (r: Result<seq<string>>)
    ensures (exists i :: 0 <= i < |mcps| && ConnectorParams(mcps[i], user, accounts, settings, now).Err?) ==>
      r.Err? && exists i :: (0 <= i < |mcps|
        && ConnectorParams(mcps[i], user, accounts, settings, now) == Err(r.message)
        && forall j :: 0 <= j < i ==> ConnectorParams(mcps[j], user, accounts, settings, now).Ok?)
    ensures (forall i :: 0 <= i < |mcps| ==> ConnectorParams(mcps[i], user, accounts, settings, now).Ok?) ==>
      exists params: map<string, ServerParams> ::
        && params.Keys == (set i | 0 <= i < |mcps| :: mcps[i].name)
        && (forall i :: 0 <= i < |mcps| && LastWithName(mcps, i) ==>
              params[mcps[i].name] == ConnectorParams(mcps[i], user, accounts, settings, now).value)
        && r == discover(params)
  {
    var params := ResolveServerParams(mcps, user, accounts, settings, now);
    if params.Err? {
      return Err(params.message);
    }
    r := discover(params.value);
  }
}
