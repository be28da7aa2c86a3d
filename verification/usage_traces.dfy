/** `extract_usage_from_traces`: per-model token totals over a list of
    observability traces. Only the integer token counters are modelled. */
module UsageTraces {
  import opened Results

  /** A response's `response_metadata`: the model name and, when the key is
      present at all, the provider's `token_usage` dict. */
  datatype Metadata = Metadata(modelName: Option<string>, tokenUsage: Option<map<string, int>>)

  /** One recorded response; an absent `usage_metadata` is the empty map. */
  datatype Response = Response(metadata: Metadata, usageMetadata: map<string, int>)

  /** A trace: `None` when its output is falsy or has no "response" key. */
  datatype Trace = Trace(responses: Option<seq<Response>>)

  datatype Totals = Totals(input: int, output: int, total: int)

  const Zero := Totals(0, 0, 0)

  /** A dict lookup with default 0. */
  function Get(m: map<string, int>, key: string): int {
    if key in m then m[key] else 0
  }

  /** The usage a response is counted with, as the three counters read from
      the chosen dict (`prompt_tokens`, `completion_tokens`, `total_tokens`,
      each 0 when absent) and whether that dict is truthy. */
  datatype Usage = Usage(counts: Totals, truthy: bool)

  /** The counters a `token_usage` dict carries. */
  function ProviderCounts(u: map<string, int>): Totals {
    Totals(Get(u, "prompt_tokens"), Get(u, "completion_tokens"), Get(u, "total_tokens"))
  }

  /** The counters of `usage_metadata`, renamed to the `token_usage` names. */
  function MetadataCounts(u: map<string, int>): Totals {
    Totals(Get(u, "input_tokens"), Get(u, "output_tokens"), Get(u, "total_tokens"))
  }

  /** The usage source: `token_usage` whenever the key is present (even when
      empty), else `usage_metadata` when that is non-empty (the renamed dict
      then always has three keys), else none. A falsy choice carries no
      counts. */
  function TokenUsage(r: Response): (u: Usage)
    ensures !u.truthy ==> u.counts == Zero
    ensures r.metadata.tokenUsage.Some? ==> u.counts == ProviderCounts(r.metadata.tokenUsage.value)
    ensures r.metadata.tokenUsage.Some? ==> (u.truthy <==> r.metadata.tokenUsage.value != map[])
    ensures r.metadata.tokenUsage.None? ==> (u.truthy <==> r.usageMetadata != map[])
    ensures r.metadata.tokenUsage.None? && u.truthy ==> u.counts == MetadataCounts(r.usageMetadata)
  {
    if r.metadata.tokenUsage.Some? then
      Usage(ProviderCounts(r.metadata.tokenUsage.value), r.metadata.tokenUsage.value != map[])
    else if r.usageMetadata != map[] then Usage(MetadataCounts(r.usageMetadata), true)
    else Usage(Zero, false)
  }

  /** What one response adds to its model's counters. */
  function Increment(r: Response): Totals {
    TokenUsage(r).counts
  }

  function Plus(a: Totals, b: Totals): Totals {
    Totals(a.input + b.input, a.output + b.output, a.total + b.total)
  }

  /** The responses of a trace that qualifies, none for one that does not. */
  function ResponsesOf(t: Trace): seq<Response> {
    if t.responses.Some? then t.responses.value else []
  }

  /** All responses of all traces, in order. */
  function AllResponses(traces: seq<Trace>): seq<Response> {
    if |traces| == 0 then [] else AllResponses(traces[..|traces| - 1]) + ResponsesOf(traces[|traces| - 1])
  }

  /** One step of the fold: a named response opens its model's entry at zero
      if needed and adds its increment; an unnamed one is skipped. */
  function Add(m: map<string, Totals>, r: Response): map<string, Totals> {
    match r.metadata.modelName
    case None => m
    case Some(name) => m[name := Bumped(m, name, r)]
  }

  /** A model's counters after one more of its responses. */
  function Bumped(m: map<string, Totals>, name: string, r: Response): Totals {
    Plus(if name in m then m[name] else Zero, Increment(r))
  }

  function Fold(m: map<string, Totals>, rs: seq<Response>): map<string, Totals> {
    if |rs| == 0 then m else Add(Fold(m, rs[..|rs| - 1]), rs[|rs| - 1])
  }

  /** The reference description of the result: the model names seen, and per
      model the sum of its responses' increments. */
  function Names(rs: seq<Response>): set<string> {
    if |rs| == 0 then {}
    else
      var last := rs[|rs| - 1];
      Names(rs[..|rs| - 1]) + (if last.metadata.modelName.Some? then {last.metadata.modelName.value} else {})
  }

  function SumFor(rs: seq<Response>, name: string): Totals {
    if |rs| == 0 then Zero
    else
      var last := rs[|rs| - 1];
      Plus(SumFor(rs[..|rs| - 1], name), if last.metadata.modelName == Some(name) then Increment(last) else Zero)
  }

  /** The fold computes the reference: its keys are exactly the names seen and
      each model's counters are the sums over that model's responses. */
  lemma {:induction false} FoldIsSum(rs: seq<Response>)
    ensures Fold(map[], rs).Keys == Names(rs)
    ensures forall name :: name in Names(rs) ==> Fold(map[], rs)[name] == SumFor(rs, name)
    decreases |rs|
  {
    if |rs| > 0 {
      var init := rs[..|rs| - 1];
      FoldIsSum(init);
      forall name | name !in Names(init)
        ensures SumFor(init, name) == Zero
      {
        SumAbsent(init, name);
      }
    }
  }

  /** A model that never appears sums to zero. */
  lemma {:induction false} SumAbsent(rs: seq<Response>, name: string)
    requires name !in Names(rs)
    ensures SumFor(rs, name) == Zero
    decreases |rs|
  {
    if |rs| > 0 {
      SumAbsent(rs[..|rs| - 1], name);
    }
  }

  lemma FoldStep(m: map<string, Totals>, xs: seq<Response>, rs: seq<Response>, j: nat)
    requires j < |rs|
    ensures Fold(m, xs + rs[..j + 1]) == Add(Fold(m, xs + rs[..j]), rs[j])
  {
    assert (xs + rs[..j + 1])[..|xs + rs[..j + 1]| - 1] == xs + rs[..j];
  }

  lemma AllResponsesStep(traces: seq<Trace>, i: nat)
    requires i < |traces|
    ensures AllResponses(traces[..i + 1]) == AllResponses(traces[..i]) + ResponsesOf(traces[i])
  {
    assert traces[..i + 1][..i] == traces[..i];
  }

  /** A counter update: the counts are added only when the chosen usage is
      truthy, which adds the same as always adding them. */
  method AddUsage(entry: Totals, usage: Usage) returns (entry': Totals)
    requires !usage.truthy ==> usage.counts == Zero
    ensures entry' == Plus(entry, usage.counts)
  {
    entry' := entry;
    if usage.truthy {
      entry' := Totals(entry.input + usage.counts.input,
                       entry.output + usage.counts.output,
                       entry.total + usage.counts.total);
    }
  }

  /** The body of the inner loop: a named response opens its model's entry
      at zero if needed and adds its chosen usage. */
  method AddResponse(totals: map<string, Totals>, response: Response) returns (totals': map<string, Totals>)
    ensures totals' == Add(totals, response)
  {
    totals' := totals;
    var name := response.metadata.modelName;
    if name.Some? {
      var entry := if name.value in totals' then totals'[name.value] else Zero;
      entry := AddUsage(entry, TokenUsage(response));
      totals' := totals'[name.value := entry];
    }
  }

  /** The inner loop over one trace's responses. */
  method AddResponses(totals: map<string, Totals>, seen: seq<Response>, rs: seq<Response>)
    returns (totals': map<string, Totals>)
    requires totals == Fold(map[], seen)
    ensures totals' == Fold(map[], seen + rs)
  {
    totals' := totals;
    var j := 0;
    assert seen + rs[..0] == seen;
    while j < |rs|
      invariant 0 <= j <= |rs|
      invariant totals' == Fold(map[], seen + rs[..j])
    {
      totals' := AddResponse(totals', rs[j]);
      FoldStep(map[], seen, rs, j);
      j := j + 1;
    }
    assert rs[..j] == rs;
  }

  /** The nested loop of the source, with the dict updated in place. */
  method ExtractUsageFromTraces(traces: seq<Trace>) returns (totals: map<string, Totals>)
    ensures totals.Keys == Names(AllResponses(traces))
    ensures forall name :: name in totals ==> totals[name] == SumFor(AllResponses(traces), name)
  {
    totals := map[];
    var i := 0;
    while i < |traces|
      invariant 0 <= i <= |traces|
      invariant totals == Fold(map[], AllResponses(traces[..i]))
    {
      if traces[i].responses.Some? {
        totals := AddResponses(totals, AllResponses(traces[..i]), traces[i].responses.value);
      } else {
        assert AllResponses(traces[..i]) + [] == AllResponses(traces[..i]);
      }
      AllResponsesStep(traces, i);
      i := i + 1;
    }
    assert traces[..i] == traces;
    FoldIsSum(AllResponses(traces));
  }

  /** `token_usage` wins whenever present, even empty: the response's
      `usage_metadata` is then irrelevant. */
  lemma TokenUsageTakesPrecedence(r: Response, other: map<string, int>)
    requires r.metadata.tokenUsage.Some?
    ensures Increment(r) == Increment(r.(usageMetadata := other))
  {
  }

  /** A named response with no usage source still opens its model's entry,
      and leaves the counters as they were. */
  lemma NoUsageStillCounted(m: map<string, Totals>, r: Response)
    requires r.metadata.modelName.Some? && r.metadata.tokenUsage.None? && r.usageMetadata == map[]
    ensures r.metadata.modelName.value in Add(m, r)
    ensures r.metadata.modelName.value in m ==> Add(m, r) == m
    ensures r.metadata.modelName.value !in m ==> Add(m, r)[r.metadata.modelName.value] == Zero
  {
  }

  /** A trace that does not qualify changes nothing. */
  lemma {:induction false} SkippedTraceContributesNothing(traces: seq<Trace>, t: Trace)
    requires t.responses.None?
    ensures AllResponses(traces + [t]) == AllResponses(traces)
  {
    assert (traces + [t])[..|traces + [t]| - 1] == traces;
  }
}
