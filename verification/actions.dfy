/** Model dispatch, session-token verification and agent lookup. Table reads
    are the rows passed in; the clock is the `now` argument. */
module Actions {
  import opened Results
  import Constants
  import Entitlement
  import Caching

  /** The chat backend a model name selects (the SDK client objects themselves
      are opaque; only the configuration that distinguishes them is kept). */
  datatype Backend =
    | AzureOpenAi(deployment: string, apiVersion: string)
    | GoogleGenAi(model: string)

  const AzureApiVersion := "2025-01-01-preview"
  /** Every Google-family name is served by this one model. */
  const GoogleBackendModel := "gemini-2.0-flash"

  const NotSupportedMsg := "This model is not supported"
  const UnknownModelTypeMsg := "Unknown model type"

  /** The dispatch part of `get_right_model`, after the entitlement check. */
  function Dispatch(llm: string): (r: Result<Backend>)
    ensures llm !in Constants.SupportModels ==> r == Err(NotSupportedMsg)
    ensures llm in Constants.SupportOpenAiModels ==> r == Ok(AzureOpenAi(llm, AzureApiVersion))
    ensures llm in Constants.SupportGoogleModels ==> r == Ok(GoogleGenAi(GoogleBackendModel))
    ensures r != Err(UnknownModelTypeMsg)
  {
    if llm !in Constants.SupportModels then Err(NotSupportedMsg)
    else if llm in Constants.SupportOpenAiModels then Ok(AzureOpenAi(llm, AzureApiVersion))
    else if llm in Constants.SupportGoogleModels then Ok(GoogleGenAi(GoogleBackendModel))
    else Err(UnknownModelTypeMsg)
  }

  /** `get_right_model`: the entitlement check runs first and its failure is
      the call's failure; a permitted model is always supported, so every
      failure is an entitlement failure. */
  function GetRightModel(llm: string, user: string, subs: seq<Entitlement.Subscription>,
                         plans: seq<Entitlement.Plan>): (r: Result<Backend>)
    ensures Entitlement.CheckAllowedModelForUser(llm, user, subs, plans).Err? ==>
      r == Err(Entitlement.CheckAllowedModelForUser(llm, user, subs, plans).message)
    ensures r.Err? ==> Entitlement.CheckAllowedModelForUser(llm, user, subs, plans).Err?
    ensures r.Ok? ==> Entitlement.CheckAllowedModelForUser(llm, user, subs, plans) == Ok(true)
    ensures r.Ok? && llm in Constants.SupportOpenAiModels ==> r.value == AzureOpenAi(llm, AzureApiVersion)
    ensures r.Ok? && llm in Constants.SupportGoogleModels ==> r.value == GoogleGenAi(GoogleBackendModel)
  {
    var allowed := Entitlement.CheckAllowedModelForUser(llm, user, subs, plans);
    if allowed.Err? then Err(allowed.message)
    else
      var plan := Entitlement.ActivePlanName(subs, plans, user).value;
      Constants.PassportModelsSupported(plan, llm);
      Constants.FamiliesPartitionSupport();
      Dispatch(llm)
  }

  /** The session row fields `verify_token` reads. */
  datatype Session = Session(id: string, token: string, userId: string, expiresAt: int)

  /** Texts of the SQL library's `NoResultFound` / `MultipleResultsFound`. */
  const NoRowText := "No row was found when one was required"
  const MultipleRowsText := "Multiple rows were found when exactly one is required"
  const ExpiredSessionMsg := "Expired session"

  function MatchingSessions(sessions: seq<Session>, token: string): (r: seq<Session>)
    ensures forall s :: s in r <==> s in sessions && s.token == token
    ensures forall s :: multiset(r)[s] == if s.token == token then multiset(sessions)[s] else 0
  {
    if |sessions| == 0 then []
    else
      var rest := MatchingSessions(sessions[1..], token);
      assert sessions == [sessions[0]] + sessions[1..];
      if sessions[0].token == token then [sessions[0]] + rest else rest
  }

  /** `verify_token` (uncached): the token must match exactly one session
      row, and that session must not have expired; expiry is strict, so a
      session is still valid at the instant it expires. */
  function VerifyToken(sessions: seq<Session>, token: string, now: int): (r: Result<Session>)
    ensures var m := MatchingSessions(sessions, token);
      && (|m| == 0 ==> r == Err("Invalid session " + NoRowText))
      && (|m| > 1 ==> r == Err("Invalid session " + MultipleRowsText))
      && (|m| == 1 ==> r == (if now > m[0].expiresAt then Err(ExpiredSessionMsg) else Ok(m[0])))
    ensures r.Ok? ==> r.value in sessions && r.value.token == token && now <= r.value.expiresAt
  {
    var m := MatchingSessions(sessions, token);
    if |m| == 0 then Err("Invalid session " + NoRowText)
    else if |m| > 1 then Err("Invalid session " + MultipleRowsText)
    else if now > m[0].expiresAt then Err(ExpiredSessionMsg)
    else Ok(m[0])
  }

  lemma {:induction false} NoneMatch(sessions: seq<Session>, token: string)
    requires forall j :: 0 <= j < |sessions| ==> sessions[j].token != token
    ensures MatchingSessions(sessions, token) == []
    decreases |sessions|
  {
    if |sessions| > 0 {
      NoneMatch(sessions[1..], token);
    }
  }

  /** When row `i` is the only one carrying the token, it is the one match. */
  lemma {:induction false} OnlyMatch(sessions: seq<Session>, token: string, i: nat)
    requires i < |sessions| && sessions[i].token == token
    requires forall j :: 0 <= j < |sessions| && j != i ==> sessions[j].token != token
    ensures MatchingSessions(sessions, token) == [sessions[i]]
    decreases |sessions|
  {
    assert sessions == [sessions[0]] + sessions[1..];
    if i == 0 {
      NoneMatch(sessions[1..], token);
    } else {
      OnlyMatch(sessions[1..], token, i - 1);
    }
  }

  /** A token carried by exactly one row verifies to that row until it
      expires, and fails as expired afterwards. */
  lemma SingleSessionVerified(sessions: seq<Session>, token: string, now: int, i: nat)
    requires i < |sessions| && sessions[i].token == token
    requires forall j :: 0 <= j < |sessions| && j != i ==> sessions[j].token != token
    ensures now <= sessions[i].expiresAt ==> VerifyToken(sessions, token, now) == Ok(sessions[i])
    ensures now > sessions[i].expiresAt ==> VerifyToken(sessions, token, now) == Err(ExpiredSessionMsg)
  {
    OnlyMatch(sessions, token, i);
  }

  /** Two rows carrying the same token make verification fail, whichever is
      fresher. */
  lemma {:induction false} AmbiguousTokenRejected(sessions: seq<Session>, token: string, now: int, s1: Session, s2: Session)
    requires s1 in sessions && s2 in sessions && s1 != s2 && s1.token == token && s2.token == token
    ensures VerifyToken(sessions, token, now) == Err("Invalid session " + MultipleRowsText)
  {
    var m := MatchingSessions(sessions, token);
    assert s1 in m && s2 in m;
    var i :| 0 <= i < |m| && m[i] == s1;
    var j :| 0 <= j < |m| && m[j] == s2;
    assert i != j;
    assert |m| > 1;
  }

  /** The agent fields the service reads. */
  datatype Agent = Agent(id: string, name: Option<string>, systemPrompt: Option<string>)

  function AgentNotFoundMsg(id: string): string {
    "Agent with id " + id + " not found"
  }

  /** `get_agent`: the first agent row with the id, or a not-found error. */
  function GetAgent(agents: seq<Agent>, id: string): (r: Result<Agent>)
    ensures r.Ok? ==> r.value in agents && r.value.id == id
    ensures r.Err? <==> forall a :: a in agents ==> a.id != id
    ensures r.Err? ==> r.message == AgentNotFoundMsg(id)
  {
    if |agents| == 0 then Err(AgentNotFoundMsg(id))
    else if agents[0].id == id then Ok(agents[0])
    else
      assert agents == [agents[0]] + agents[1..];
      GetAgent(agents[1..], id)
  }

  // ---------------------------------------------------------------------------
  // verify_token behind the memo cache
  // ---------------------------------------------------------------------------

  /** `verify_token` as deployed: wrapped by `async_cached_function()` with no
      time-to-live, called with the token as its one positional argument. */
  function CachedVerifyToken(t: Caching.Table<Session>, digest: Caching.Digest, token: string,
                             sessions: seq<Session>, now: int, storedAt: int): (c: Caching.Call<Session>)
    ensures c.result.Ok? && c.computed ==> now <= c.result.value.expiresAt
  {
    Caching.CachedCall(t, digest, "verify_token", [Caching.Str(token)], [], None,
                       (args, kwargs) => VerifyToken(sessions, token, now), now, storedAt)
  }

  /** As deployed, a session that verified once keeps verifying after it has
      expired: the second call is a cache hit and never reaches the expiry
      check. Here a session expiring at 20 is verified at 10 and again at 30. */
  lemma CachedVerifyAcceptsExpiredSession(digest: Caching.Digest)
    ensures var s := Session("s1", "tok", "u1", 20);
      var first := CachedVerifyToken(map[], digest, "tok", [s], 10, 10);
      var second := CachedVerifyToken(first.table, digest, "tok", [s], 30, 30);
      && VerifyToken([s], "tok", 30) == Err(ExpiredSessionMsg)
      && second.result == Ok(s)
      && !second.computed
  {
    var s := Session("s1", "tok", "u1", 20);
    assert MatchingSessions([s], "tok") == [s];
    var args := [Caching.Str("tok")];
    assert args[1..] == [];
    assert Caching.SerializeArg(args[0]) == Some(Caching.JStr("tok"));
    assert Caching.SerializeArgs(args[1..]) == Some([]);
    assert [Caching.JStr("tok")] + [] == [Caching.JStr("tok")];
    assert Caching.SerializeArgs(args) == Some([Caching.JStr("tok")]);
    assert Caching.SortByName([]) == [];
  }

  /** `verify_token` behind the cache with the expiry check repeated on every
      call, cached or not: a session is accepted only while it is unexpired. */
  function VerifyTokenRechecked(t: Caching.Table<Session>, digest: Caching.Digest, token: string,
                                sessions: seq<Session>, now: int, storedAt: int): (c: Caching.Call<Session>)
    ensures c.result.Ok? ==> now <= c.result.value.expiresAt
    ensures var v := CachedVerifyToken(t, digest, token, sessions, now, storedAt);
      v.result.Err? || now <= v.result.value.expiresAt ==> c.result == v.result
    ensures var v := CachedVerifyToken(t, digest, token, sessions, now, storedAt);
      v.result.Ok? && now > v.result.value.expiresAt ==> c.result == Err(ExpiredSessionMsg)
    ensures c.table == CachedVerifyToken(t, digest, token, sessions, now, storedAt).table
  {
    var c := CachedVerifyToken(t, digest, token, sessions, now, storedAt);
    if c.result.Ok? && now > c.result.value.expiresAt then c.(result := Err(ExpiredSessionMsg))
    else c
  }

  /** With the check repeated, the scenario above is rejected at time 30. */
  lemma RecheckedRejectsExpiredSession(digest: Caching.Digest)
    ensures var s := Session("s1", "tok", "u1", 20);
      var first := VerifyTokenRechecked(map[], digest, "tok", [s], 10, 10);
      var second := VerifyTokenRechecked(first.table, digest, "tok", [s], 30, 30);
      first.result == Ok(s) && second.result == Err(ExpiredSessionMsg)
  {
    var s := Session("s1", "tok", "u1", 20);
    assert MatchingSessions([s], "tok") == [s];
    var args := [Caching.Str("tok")];
    assert args[1..] == [];
    assert Caching.SerializeArg(args[0]) == Some(Caching.JStr("tok"));
    assert Caching.SerializeArgs(args[1..]) == Some([]);
    assert [Caching.JStr("tok")] + [] == [Caching.JStr("tok")];
    assert Caching.SerializeArgs(args) == Some([Caching.JStr("tok")]);
    assert Caching.SortByName([]) == [];
  }

  /** `get_right_model` as deployed: wrapped by `cached_function()` with no
      time-to-live and called with the keyword arguments `llm` and `user_id`. */
  function CachedGetRightModel(t: Caching.Table<Backend>, digest: Caching.Digest, llm: string, user: string,
                               subs: seq<Entitlement.Subscription>, plans: seq<Entitlement.Plan>,
                               now: int, storedAt: int): (c: Caching.Call<Backend>)
    ensures c.computed ==> c.result == GetRightModel(llm, user, subs, plans)
    ensures c.result.Ok? && c.computed ==> Entitlement.CheckAllowedModelForUser(llm, user, subs, plans) == Ok(true)
  {
    Caching.CachedCall(t, digest, "get_right_model", [], [("llm", Caching.Str(llm)), ("user_id", Caching.Str(user))],
                       None, (a, k) => GetRightModel(llm, user, subs, plans), now, storedAt)
  }

  /** Entitlement is checked once per llm and user: after a computed
      success, a later call returns the cached backend without re-reading
      the subscriptions, whatever they have become (a cancelled or
      downgraded plan included). */
  lemma CachedRightModelIgnoresDowngrade(t: Caching.Table<Backend>, digest: Caching.Digest, llm: string, user: string,
                                         subs: seq<Entitlement.Subscription>, laterSubs: seq<Entitlement.Subscription>,
                                         plans: seq<Entitlement.Plan>, now: int, storedAt: int,
                                         later: int, storedLater: int)
    requires CachedGetRightModel(t, digest, llm, user, subs, plans, now, storedAt).computed
    requires CachedGetRightModel(t, digest, llm, user, subs, plans, now, storedAt).result.Ok?
    ensures var first := CachedGetRightModel(t, digest, llm, user, subs, plans, now, storedAt);
      var second := CachedGetRightModel(first.table, digest, llm, user, laterSubs, plans, later, storedLater);
      && !second.computed
      && second.result == first.result
  {
    var kwargs := [("llm", Caching.Str(llm)), ("user_id", Caching.Str(user))];
    Caching.SecondCallHits(t, digest, "get_right_model", [], kwargs, kwargs,
                           (a, k) => GetRightModel(llm, user, subs, plans),
                           (a, k) => GetRightModel(llm, user, laterSubs, plans),
                           now, storedAt, later, storedLater);
  }

  /** `check_allowed_model` behind the cache only ever returns `true`: the
      wrapped check either raises (nothing is stored) or returns `true`. */
  lemma {:induction false} CachedModelCheckOnlyTrue(t: Caching.Table<bool>, digest: Caching.Digest, llm: string,
                                                    user: string, subs: seq<Entitlement.Subscription>,
                                                    plans: seq<Entitlement.Plan>, now: int, storedAt: int)
    requires Caching.HexValued(digest) && Caching.WellKeyed(t)
    requires forall k :: k in t && t[k].funcName == "check_allowed_model" ==> t[k].result
    ensures var kwargs := [("llm", Caching.Str(llm)), ("user_id", Caching.Str(user))];
      var c := Caching.CachedCall(t, digest, "check_allowed_model", [], kwargs, None,
                                  (a, k) => Entitlement.CheckAllowedModelForUser(llm, user, subs, plans), now, storedAt);
      c.result.Ok? ==> c.result.value
  {
    var kwargs := [("llm", Caching.Str(llm)), ("user_id", Caching.Str(user))];
    var func := (a: seq<Caching.Value>, k: Caching.Kwargs) => Entitlement.CheckAllowedModelForUser(llm, user, subs, plans);
    Caching.CachedResultsKeepInvariant(t, digest, "check_allowed_model", [], kwargs, None, func,
                                       (b: bool) => b, now, storedAt);
  }
}
