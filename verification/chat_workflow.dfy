/** The two-node chat graph: `verification` merges the per-call
    configuration into the durable state and runs the checks, `error_router`
    ends the turn on an error, and `chat` prepends the system prompt and makes
    one model call. Every external call is an oracle argument; a raised
    exception becomes the `error` field (its text), as the nodes' `except`
    branches do. */
module ChatWorkflow {
  import opened Results
  import Constants
  import Entitlement
  import Actions

  datatype Role = SystemRole | HumanRole | AiRole | ToolRole

  datatype Message = Message(role: Role, content: string)

  /** The graph state fields the nodes read and return. */
  datatype State = State(
    messages: seq<Message>,
    systemMessage: Option<string>,
    llm: Option<string>,
    userId: Option<string>,
    authToken: Option<string>,
    sessionId: Option<string>,
    agentId: Option<string>,
    error: Option<string>)

  /** The `configurable` part of the per-call configuration. */
  datatype Config = Config(
    llm: Option<string>,
    agentId: Option<string>,
    userId: Option<string>,
    authToken: Option<string>,
    sessionId: Option<string>)

  /** The calls `verification_node` makes: `verify_token(token)`,
      `check_llm_token_limit(user_id, llm)`, `check_usage_limit(user_id)` and
      `get_agent(agent_id)`. */
  datatype Oracles = Oracles(
    verifyToken: string -> Result<Actions.Session>,
    tokenLimit: (string, string) -> Outcome,
    usageLimit: string -> Outcome,
    getAgent: string -> Result<Actions.Agent>)

  const AuthTokenRequired := "auth_token value is required!"
  const LlmRequired := "LLM value is required!"
  const UserIdRequired := "user_id value is required!"
  const SessionIdRequired := "session_id value is required!"
  const AgentIdRequired := "agent_id value is required!"
  const DefaultAgentName := "Untitled Agent"
  const IndexErrorMsg := "list index out of range"

  /** The durable value when there is one, else the incoming one. */
  function Coalesce(durable: Option<string>, incoming: Option<string>): (r: Option<string>)
    ensures durable.Some? ==> r == durable
    ensures durable.None? ==> r == incoming
  {
    if durable.Some? then durable else incoming
  }

  /** Python's f-string rendering of an optional string. */
  function PyStr(s: Option<string>): string {
    if s.Some? then s.value else "None"
  }

  /** The system prompt derived from an agent: a named agent (any name but the
      default) is introduced by name. */
  function AgentPrompt(a: Actions.Agent): (p: Option<string>)
    ensures a.name.Some? && a.name.value != DefaultAgentName ==>
      p == Some("Your name is " + a.name.value + ", " + PyStr(a.systemPrompt))
    ensures a.name.None? || a.name.value == DefaultAgentName ==> p == a.systemPrompt
  {
    if a.name.Some? && a.name.value != DefaultAgentName then
      Some("Your name is " + a.name.value + ", " + PyStr(a.systemPrompt))
    else a.systemPrompt
  }

  /** Whether verification would look up the agent to derive a prompt. */
  predicate DerivesPrompt(s: State, c: Config) {
    s.systemMessage.None? && c.agentId.Some?
  }

  /** Every check up to and including the agent lookup passes: the merged
      token is present and verifies, the merged llm and user id are present,
      both limits pass, and the agent is found when a prompt is derived. */
  predicate PassesChecks(s: State, c: Config, o: Oracles) {
    var token := Coalesce(s.authToken, c.authToken);
    var llm := Coalesce(s.llm, c.llm);
    var user := Coalesce(s.userId, c.userId);
    && token.Some? && o.verifyToken(token.value).Ok?
    && llm.Some? && user.Some?
    && o.tokenLimit(user.value, llm.value) == Pass
    && o.usageLimit(user.value) == Pass
    && (DerivesPrompt(s, c) ==> o.getAgent(c.agentId.value).Ok?)
  }

  /** Every check passes: the above, and the merged session and agent ids
      are present. */
  predicate Passes(s: State, c: Config, o: Oracles) {
    && PassesChecks(s, c, o)
    && Coalesce(s.sessionId, c.sessionId).Some?
    && Coalesce(s.agentId, c.agentId).Some?
  }

  /** `verification_node`. The checks run in the order: auth token present,
      token verified, llm present, user id present, token limit, usage limit,
      agent lookup (only when a prompt is derived), session id present, agent
      id present; the first failure ends the node with the fields merged so
      far. */
  function Verification(s: State, c: Config, o: Oracles): (r: State)
    ensures r.messages == s.messages
    ensures r.error.None? <==> Passes(s, c, o)
    ensures r.authToken == Coalesce(s.authToken, c.authToken)
    ensures r.error.None? ==>
      && r.llm == Coalesce(s.llm, c.llm) && r.userId == Coalesce(s.userId, c.userId)
      && r.sessionId == Coalesce(s.sessionId, c.sessionId) && r.agentId == Coalesce(s.agentId, c.agentId)
    ensures r.error.None? && !DerivesPrompt(s, c) ==> r.systemMessage == s.systemMessage
    ensures s.authToken.Some? ==> r.authToken == s.authToken
    ensures s.llm.Some? ==> r.llm == s.llm
    ensures s.userId.Some? ==> r.userId == s.userId
    ensures s.sessionId.Some? ==> r.sessionId == s.sessionId
    ensures s.agentId.Some? ==> r.agentId == s.agentId
    ensures s.systemMessage.Some? ==> r.systemMessage == s.systemMessage
    ensures Coalesce(s.authToken, c.authToken).None? ==> r.error == Some(AuthTokenRequired)
    ensures r.error.None? ==>
      && r.authToken.Some? && r.llm.Some? && r.userId.Some? && r.sessionId.Some? && r.agentId.Some?
      && o.verifyToken(r.authToken.value).Ok?
      && o.tokenLimit(r.userId.value, r.llm.value) == Pass
      && o.usageLimit(r.userId.value) == Pass
    ensures r.error.None? && DerivesPrompt(s, c) ==>
      o.getAgent(c.agentId.value).Ok? && r.systemMessage == AgentPrompt(o.getAgent(c.agentId.value).value)
  {
    var token := Coalesce(s.authToken, c.authToken);
    var s1 := s.(authToken := token, error := None);
    if token.None? then s1.(error := Some(AuthTokenRequired))
    else
      match o.verifyToken(token.value)
      case Err(e) => s1.(error := Some(e))
      case Ok(_) =>
        var s2 := s1.(llm := Coalesce(s.llm, c.llm), userId := Coalesce(s.userId, c.userId));
        if s2.llm.None? then s2.(error := Some(LlmRequired))
        else if s2.userId.None? then s2.(error := Some(UserIdRequired))
        else
          match o.tokenLimit(s2.userId.value, s2.llm.value)
          case Fail(e) => s2.(error := Some(e))
          case Pass =>
            match o.usageLimit(s2.userId.value)
            case Fail(e) => s2.(error := Some(e))
            case Pass =>
              if DerivesPrompt(s, c) && o.getAgent(c.agentId.value).Err? then
                s2.(error := Some(o.getAgent(c.agentId.value).message))
              else
                var s3 := if DerivesPrompt(s, c) then s2.(systemMessage := AgentPrompt(o.getAgent(c.agentId.value).value)) else s2;
                MergeIds(s, c, s3)
  }

  /** The last step of `verification_node`: merge the session and agent ids,
      then require the session id and the agent id, in that order. */
  function MergeIds(s: State, c: Config, s3: State): (r: State)
    requires s3.error.None?
    ensures r.sessionId == Coalesce(s.sessionId, c.sessionId) && r.agentId == Coalesce(s.agentId, c.agentId)
    ensures r == s3.(sessionId := r.sessionId, agentId := r.agentId, error := r.error)
    ensures r.error.None? <==> r.sessionId.Some? && r.agentId.Some?
    ensures r.sessionId.None? ==> r.error == Some(SessionIdRequired)
    ensures r.sessionId.Some? && r.agentId.None? ==> r.error == Some(AgentIdRequired)
  {
    var s4 := s3.(sessionId := Coalesce(s.sessionId, c.sessionId), agentId := Coalesce(s.agentId, c.agentId));
    if s4.sessionId.None? then s4.(error := Some(SessionIdRequired))
    else if s4.agentId.None? then s4.(error := Some(AgentIdRequired))
    else s4
  }

  /** Without an auth token nothing else is consulted: the outcome is the same
      whatever the oracles would say, and no later field is merged. */
  lemma MissingTokenStopsFirst(s: State, c: Config, o1: Oracles, o2: Oracles)
    requires Coalesce(s.authToken, c.authToken).None?
    ensures Verification(s, c, o1) == Verification(s, c, o2)
    ensures Verification(s, c, o1) == s.(error := Some(AuthTokenRequired))
  {
  }

  /** A failed token verification ends the node with its message; the later
      checks are never consulted and the llm and user id are not merged. */
  lemma FailedVerifyStopsRest(s: State, c: Config, o1: Oracles, o2: Oracles)
    requires Coalesce(s.authToken, c.authToken).Some?
    requires o1.verifyToken(Coalesce(s.authToken, c.authToken).value).Err?
    requires o2.verifyToken(Coalesce(s.authToken, c.authToken).value) == o1.verifyToken(Coalesce(s.authToken, c.authToken).value)
    ensures Verification(s, c, o1) == Verification(s, c, o2)
    ensures Verification(s, c, o1).error == Some(o1.verifyToken(Coalesce(s.authToken, c.authToken).value).message)
    ensures Verification(s, c, o1).llm == s.llm && Verification(s, c, o1).userId == s.userId
  {
  }

  /** A failed token-limit check ends the node before the usage limit, the
      agent lookup and the session and agent id checks. */
  lemma FailedTokenLimitStopsRest(s: State, c: Config, o1: Oracles, o2: Oracles)
    requires Coalesce(s.authToken, c.authToken).Some?
    requires Coalesce(s.llm, c.llm).Some? && Coalesce(s.userId, c.userId).Some?
    requires var tok := Coalesce(s.authToken, c.authToken).value;
      o1.verifyToken(tok).Ok? && o2.verifyToken(tok) == o1.verifyToken(tok)
    requires var u := Coalesce(s.userId, c.userId).value; var l := Coalesce(s.llm, c.llm).value;
      o1.tokenLimit(u, l).Fail? && o2.tokenLimit(u, l) == o1.tokenLimit(u, l)
    ensures Verification(s, c, o1) == Verification(s, c, o2)
    ensures Verification(s, c, o1).error == Some(o1.tokenLimit(Coalesce(s.userId, c.userId).value, Coalesce(s.llm, c.llm).value).message)
    ensures Verification(s, c, o1).sessionId == s.sessionId && Verification(s, c, o1).systemMessage == s.systemMessage
  {
  }

  /** A missing llm is reported before a missing user id, and before either
      limit is consulted. */
  lemma MissingLlmStopsBeforeUserId(s: State, c: Config, o1: Oracles, o2: Oracles)
    requires Coalesce(s.authToken, c.authToken).Some?
    requires var tok := Coalesce(s.authToken, c.authToken).value;
      o1.verifyToken(tok).Ok? && o2.verifyToken(tok) == o1.verifyToken(tok)
    requires Coalesce(s.llm, c.llm).None?
    ensures Verification(s, c, o1) == Verification(s, c, o2)
    ensures Verification(s, c, o1).error == Some(LlmRequired)
    ensures Verification(s, c, o1).userId == Coalesce(s.userId, c.userId)
  {
  }

  /** A failed usage-limit check ends the node before the agent lookup and
      the session and agent id merges. */
  lemma FailedUsageLimitStopsRest(s: State, c: Config, o1: Oracles, o2: Oracles)
    requires Coalesce(s.authToken, c.authToken).Some?
    requires Coalesce(s.llm, c.llm).Some? && Coalesce(s.userId, c.userId).Some?
    requires var tok := Coalesce(s.authToken, c.authToken).value;
      o1.verifyToken(tok).Ok? && o2.verifyToken(tok) == o1.verifyToken(tok)
    requires var u := Coalesce(s.userId, c.userId).value; var l := Coalesce(s.llm, c.llm).value;
      o1.tokenLimit(u, l) == Pass && o2.tokenLimit(u, l) == Pass
    requires var u := Coalesce(s.userId, c.userId).value;
      o1.usageLimit(u).Fail? && o2.usageLimit(u) == o1.usageLimit(u)
    ensures Verification(s, c, o1) == Verification(s, c, o2)
    ensures Verification(s, c, o1).error == Some(o1.usageLimit(Coalesce(s.userId, c.userId).value).message)
    ensures Verification(s, c, o1).systemMessage == s.systemMessage
    ensures Verification(s, c, o1).sessionId == s.sessionId && Verification(s, c, o1).agentId == s.agentId
  {
  }

  /** A failed agent lookup ends the node with its message, before the
      session and agent id merges and with the prompt unchanged. */
  lemma FailedAgentLookupStopsRest(s: State, c: Config, o: Oracles)
    requires Coalesce(s.authToken, c.authToken).Some? && o.verifyToken(Coalesce(s.authToken, c.authToken).value).Ok?
    requires Coalesce(s.llm, c.llm).Some? && Coalesce(s.userId, c.userId).Some?
    requires o.tokenLimit(Coalesce(s.userId, c.userId).value, Coalesce(s.llm, c.llm).value) == Pass
    requires o.usageLimit(Coalesce(s.userId, c.userId).value) == Pass
    requires DerivesPrompt(s, c) && o.getAgent(c.agentId.value).Err?
    ensures Verification(s, c, o).error == Some(o.getAgent(c.agentId.value).message)
    ensures Verification(s, c, o).systemMessage == s.systemMessage
    ensures Verification(s, c, o).sessionId == s.sessionId && Verification(s, c, o).agentId == s.agentId
  {
  }

  /** Once the checks pass, a missing session id is reported before a
      missing agent id, and a missing agent id alone is reported last. */
  lemma SessionIdCheckedBeforeAgentId(s: State, c: Config, o: Oracles)
    requires PassesChecks(s, c, o)
    ensures Coalesce(s.sessionId, c.sessionId).None? ==> Verification(s, c, o).error == Some(SessionIdRequired)
    ensures Coalesce(s.sessionId, c.sessionId).Some? && Coalesce(s.agentId, c.agentId).None? ==>
      Verification(s, c, o).error == Some(AgentIdRequired)
  {
  }

  /** A missing session id is reported only after the prompt has been
      derived, so the failed state still carries the new prompt. */
  lemma MissingSessionKeepsDerivedPrompt(s: State, c: Config, o: Oracles)
    requires Coalesce(s.authToken, c.authToken).Some? && o.verifyToken(Coalesce(s.authToken, c.authToken).value).Ok?
    requires Coalesce(s.llm, c.llm).Some? && Coalesce(s.userId, c.userId).Some?
    requires o.tokenLimit(Coalesce(s.userId, c.userId).value, Coalesce(s.llm, c.llm).value) == Pass
    requires o.usageLimit(Coalesce(s.userId, c.userId).value) == Pass
    requires DerivesPrompt(s, c) && o.getAgent(c.agentId.value).Ok?
    requires Coalesce(s.sessionId, c.sessionId).None?
    ensures Verification(s, c, o).error == Some(SessionIdRequired)
    ensures Verification(s, c, o).systemMessage == AgentPrompt(o.getAgent(c.agentId.value).value)
  {
  }

  datatype Node = Chat | End

  /** `error_router`: end the turn exactly when `error` is truthy. */
  function Route(s: State): (n: Node)
    ensures n == End <==> Truthy(s.error)
  {
    if Truthy(s.error) then End else Chat
  }

  /** Oracles whose failures always carry a message. */
  ghost predicate NonEmptyFailures(o: Oracles) {
    && (forall t :: o.verifyToken(t).Err? ==> o.verifyToken(t).message != "")
    && (forall u, l :: o.tokenLimit(u, l).Fail? ==> o.tokenLimit(u, l).message != "")
    && (forall u :: o.usageLimit(u).Fail? ==> o.usageLimit(u).message != "")
    && (forall a :: o.getAgent(a).Err? ==> o.getAgent(a).message != "")
  }

  /** When every failure has a message, a failed verification always ends
      the turn and a passed one always goes on to `chat`. */
  lemma FailedVerificationEndsTurn(s: State, c: Config, o: Oracles)
    requires NonEmptyFailures(o)
    ensures var r := Verification(s, c, o);
      Route(r) == End <==> r.error.Some?
  {
  }

  /** A check that fails with an empty message is routed on to `chat` as if
      verification had passed: `error` is `""`, which is falsy. Here it is the
      token limit, whose exceptions carry whatever text the limit check gives. */
  lemma EmptyFailureIsRoutedToChat(s: State, c: Config, o: Oracles)
    requires Coalesce(s.authToken, c.authToken).Some?
    requires o.verifyToken(Coalesce(s.authToken, c.authToken).value).Ok?
    requires Coalesce(s.llm, c.llm).Some? && Coalesce(s.userId, c.userId).Some?
    requires o.tokenLimit(Coalesce(s.userId, c.userId).value, Coalesce(s.llm, c.llm).value) == Fail("")
    ensures Verification(s, c, o).error == Some("")
    ensures Route(Verification(s, c, o)) == Chat
  {
  }

  /** The message list the model is called with: the system prompt is put in
      front when it is truthy and the list does not already start with a
      system message; with a truthy prompt and no messages, reading the first
      message raises. */
  function WithSystemPrompt(prompt: Option<string>, msgs: seq<Message>): (r: Result<seq<Message>>)
    ensures !Truthy(prompt) ==> r == Ok(msgs)
    ensures Truthy(prompt) && |msgs| == 0 ==> r == Err(IndexErrorMsg)
    ensures Truthy(prompt) && |msgs| > 0 && msgs[0].role == SystemRole ==> r == Ok(msgs)
    ensures Truthy(prompt) && |msgs| > 0 && msgs[0].role != SystemRole ==>
      r == Ok([Message(SystemRole, prompt.value)] + msgs)
  {
    if !Truthy(prompt) then Ok(msgs)
    else if |msgs| == 0 then Err(IndexErrorMsg)
    else if msgs[0].role == SystemRole then Ok(msgs)
    else Ok([Message(SystemRole, prompt.value)] + msgs)
  }

  /** Prepending is idempotent: a list that already went through it is left
      as it is, so a prompt is never added twice. */
  lemma PrependIdempotent(prompt: Option<string>, msgs: seq<Message>)
    requires WithSystemPrompt(prompt, msgs).Ok?
    ensures WithSystemPrompt(prompt, WithSystemPrompt(prompt, msgs).value) == WithSystemPrompt(prompt, msgs)
  {
  }

  /** `chat_node`, given the outcome of `get_right_model` for the state's llm
      and user and the model call `invoke`. On success the node returns just
      the model's reply; on failure the message list as it stood when the
      exception was raised (possibly with the prompt prepended). */
  function ChatNode(s: State, model: Result<Actions.Backend>,
                    invoke: (Actions.Backend, seq<Message>) -> Result<Message>): (r: State)
    ensures r.systemMessage == s.systemMessage && r.llm == s.llm && r.userId == s.userId
    ensures r.authToken == s.authToken && r.sessionId == s.sessionId && r.agentId == s.agentId
    ensures model.Err? ==> r == s.(error := Some(model.message))
    ensures model.Ok? && WithSystemPrompt(s.systemMessage, s.messages).Err? ==>
      r == s.(error := Some(IndexErrorMsg))
    ensures model.Ok? && WithSystemPrompt(s.systemMessage, s.messages).Ok? ==>
      var sent := WithSystemPrompt(s.systemMessage, s.messages).value;
      && (invoke(model.value, sent).Ok? ==> r.messages == [invoke(model.value, sent).value] && r.error.None?)
      && (invoke(model.value, sent).Err? ==> r.messages == sent && r.error == Some(invoke(model.value, sent).message))
  {
    match model
    case Err(e) => s.(error := Some(e))
    case Ok(backend) =>
      match WithSystemPrompt(s.systemMessage, s.messages)
      case Err(e) => s.(error := Some(e))
      case Ok(sent) =>
        match invoke(backend, sent)
        case Err(e) => s.(messages := sent, error := Some(e))
        case Ok(reply) => s.(messages := [reply], error := None)
  }

  /** `get_right_model` as `chat_node` calls it, with possibly missing llm or
      user: a missing user id matches no subscription row (lowest plan), and a
      missing llm is in no allow-list. */
  function RightModelFor(llm: Option<string>, user: Option<string>, subs: seq<Entitlement.Subscription>,
                         plans: seq<Entitlement.Plan>): (r: Result<Actions.Backend>)
    ensures llm.Some? && user.Some? ==> r == Actions.GetRightModel(llm.value, user.value, subs, plans)
    ensures llm.None? ==> r.Err?
  {
    if llm.Some? && user.Some? then Actions.GetRightModel(llm.value, user.value, subs, plans)
    else
      var plan := if user.Some? then Entitlement.ActivePlanName(subs, plans, user.value)
                  else Entitlement.ResolvePlan([], plans);
      if plan.Err? then Err(plan.message)
      else if llm.None? then
        if plan.value !in Constants.ModelsPassport then Err(Entitlement.KeyErrorMsg(plan.value))
        else Err(Entitlement.UpgradeModelMsg)
      else
        match Entitlement.CheckAllowedModel(llm.value, plan.value)
        case Err(e) => Err(e)
        case Ok(_) => Actions.Dispatch(llm.value)
  }

  /** One turn of the graph: verification, the router, then `chat` if routed
      there. The reducer that merges node output into the durable state is
      not modelled; this is the last node's output. */
  function RunTurn(s: State, c: Config, o: Oracles, subs: seq<Entitlement.Subscription>,
                   plans: seq<Entitlement.Plan>,
                   invoke: (Actions.Backend, seq<Message>) -> Result<Message>): (r: State)
    ensures Truthy(Verification(s, c, o).error) ==> r == Verification(s, c, o)
    ensures var v := Verification(s, c, o);
      && r.systemMessage == v.systemMessage && r.llm == v.llm && r.userId == v.userId
      && r.authToken == v.authToken && r.sessionId == v.sessionId && r.agentId == v.agentId
    ensures var v := Verification(s, c, o);
      var model := RightModelFor(v.llm, v.userId, subs, plans);
      !Truthy(v.error) && model.Err? ==> r.error == Some(model.message) && r.messages == v.messages
    ensures var v := Verification(s, c, o);
      var model := RightModelFor(v.llm, v.userId, subs, plans);
      var sent := WithSystemPrompt(v.systemMessage, v.messages);
      !Truthy(v.error) && model.Ok? && sent.Ok? ==>
        && (invoke(model.value, sent.value).Ok? ==>
              r.error.None? && r.messages == [invoke(model.value, sent.value).value])
        && (invoke(model.value, sent.value).Err? ==>
              r.error == Some(invoke(model.value, sent.value).message) && r.messages == sent.value)
    ensures r.error.None? ==>
      var v := Verification(s, c, o);
      var model := RightModelFor(v.llm, v.userId, subs, plans);
      var sent := WithSystemPrompt(v.systemMessage, v.messages);
      && !Truthy(v.error) && model.Ok? && sent.Ok?
      && invoke(model.value, sent.value).Ok? && r.messages == [invoke(model.value, sent.value).value]
  {
    var v := Verification(s, c, o);
    if Route(v) == End then v
    else ChatNode(v, RightModelFor(v.llm, v.userId, subs, plans), invoke)
  }

  /** A turn whose verification passes calls the model with the entitlement-
      checked backend for the merged llm and user. */
  lemma PassedTurnUsesEntitledModel(s: State, c: Config, o: Oracles, subs: seq<Entitlement.Subscription>,
                                    plans: seq<Entitlement.Plan>,
                                    invoke: (Actions.Backend, seq<Message>) -> Result<Message>)
    requires Verification(s, c, o).error.None?
    ensures var v := Verification(s, c, o);
      var r := RunTurn(s, c, o, subs, plans, invoke);
      r.error.None? ==> Entitlement.CheckAllowedModelForUser(v.llm.value, v.userId.value, subs, plans) == Ok(true)
  {
  }

  /** A silent failure is erased: a token-limit check that fails with an
      empty message still lets the turn reach the model, and a successful
      model call clears the error, so the turn ends as if the limit had
      passed. */
  lemma SilentLimitFailureReachesModel(s: State, c: Config, o: Oracles, subs: seq<Entitlement.Subscription>,
                                       plans: seq<Entitlement.Plan>,
                                       invoke: (Actions.Backend, seq<Message>) -> Result<Message>)
    requires Coalesce(s.authToken, c.authToken).Some?
    requires o.verifyToken(Coalesce(s.authToken, c.authToken).value).Ok?
    requires s.llm.Some? && s.userId.Some? && !Truthy(s.systemMessage)
    requires o.tokenLimit(s.userId.value, s.llm.value) == Fail("")
    requires Actions.GetRightModel(s.llm.value, s.userId.value, subs, plans).Ok?
    requires invoke(Actions.GetRightModel(s.llm.value, s.userId.value, subs, plans).value, s.messages).Ok?
    ensures RunTurn(s, c, o, subs, plans, invoke).error.None?
  {
  }
}
