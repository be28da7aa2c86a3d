/** The hard-coded model and connector configuration of the service: which
    model names exist, which backend family each belongs to, and which models
    and connectors each plan tier may use. Each tier's allow-list is built by
    appending the tier's own additions to the list of the tier below it. */
module Constants {

  const SupportOpenAiModels: seq<string> := ["gpt-4.1-mini", "gpt-4.1"]
  const SupportGoogleModels: seq<string> := ["gemini-flash", "gemini-2.5-pro"]
  const DefaultModel: string := "gpt-4.1-mini"

  const BasicModelAdditions: seq<string> := ["gpt-4.1-mini"]
  const ProModelAdditions: seq<string> := ["gpt-4.1", "gemini-flash"]
  const EnterpriseModelAdditions: seq<string> := ["gemini-2.5-pro"]

  const BasicMcpAdditions: seq<string> := ["009ff9fb-1883-4d50-b5bf-b9135c116f73"]
  const ProMcpAdditions: seq<string> := []
  const EnterpriseMcpAdditions: seq<string> := []

  /** Every model the dispatcher knows: the OpenAI family, then the Google family. */
  const SupportModels: seq<string> := SupportOpenAiModels + SupportGoogleModels

  const BasicModels: seq<string> := BasicModelAdditions
  const ProModels: seq<string> := BasicModels + ProModelAdditions
  const EnterpriseModels: seq<string> := ProModels + EnterpriseModelAdditions

  const BasicMcps: seq<string> := BasicMcpAdditions
  const ProMcps: seq<string> := BasicMcps + ProMcpAdditions
  const EnterpriseMcps: seq<string> := ProMcps + EnterpriseMcpAdditions

  /** The plan names the allow-list tables are keyed by. */
  const PlanNames: set<string> := {"basic", "pro", "enterprise"}

  /** Plan name to permitted model names. */
  const ModelsPassport: map<string, seq<string>> :=
    map["basic" := BasicModels, "pro" := ProModels, "enterprise" := EnterpriseModels]

  /** Plan name to permitted connector ids. */
  const McpsPassport: map<string, seq<string>> :=
    map["basic" := BasicMcps, "pro" := ProMcps, "enterprise" := EnterpriseMcps]

  /** Every element of `a` also occurs in `b`. */
  predicate Within(a: seq<string>, b: seq<string>) {
    forall x :: x in a ==> x in b
  }

  /** The tiers are cumulative: basic within pro within enterprise, for
      models and for connectors alike. */
  lemma TiersCumulative()
    ensures Within(ModelsPassport["basic"], ModelsPassport["pro"])
    ensures Within(ModelsPassport["pro"], ModelsPassport["enterprise"])
    ensures Within(McpsPassport["basic"], McpsPassport["pro"])
    ensures Within(McpsPassport["pro"], McpsPassport["enterprise"])
  {
  }

  /** Both allow-list tables are keyed by exactly the three plan names. */
  lemma PassportKeys()
    ensures ModelsPassport.Keys == PlanNames
    ensures McpsPassport.Keys == PlanNames
  {
  }

  /** The two backend families partition the supported models. */
  lemma FamiliesPartitionSupport()
    ensures forall m :: m in SupportModels <==> m in SupportOpenAiModels || m in SupportGoogleModels
    ensures forall m :: m in SupportOpenAiModels ==> m !in SupportGoogleModels
  {
  }

  /** No tier permits a model the dispatcher does not support. */
  lemma PassportModelsSupported(plan: string, m: string)
    requires plan in ModelsPassport
    requires m in ModelsPassport[plan]
    ensures m in SupportModels
  {
  }

  /** The default model is available on the lowest tier (hence on every tier). */
  lemma DefaultModelOnEveryTier(plan: string)
    requires plan in ModelsPassport
    ensures DefaultModel in ModelsPassport[plan]
  {
  }
}
