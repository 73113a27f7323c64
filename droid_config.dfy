/** Model selection of the Factory Droid adapter (`FactoryDroidAgent.__init__`
    in custom_agents/factory_droid.py): a short model name is chosen from the
    harness model name, and the short name is mapped to a Factory model id. */
module DroidConfig {
  import opened Wrappers
  import opened Text
  import opened Keywords

  /** The keyword arguments the constructor reads, with their defaults in
      `DefaultDroidKwargs`. `reasoningEffort == None` is an explicit `None`. */
  datatype DroidKwargs = DroidKwargs(droidModel: string, reasoningEffort: Option<string>, timeoutSeconds: int)

  const DefaultDroidKwargs := DroidKwargs("sonnet", Some("medium"), 1800)

  /** `_model_id_map`: short name to Factory model id. */
  const ModelIdMap: map<string, string> := map[
    "sonnet" := "claude-sonnet-4-20250514",
    "opus" := "claude-opus-4-1-20250805",
    "haiku" := "claude-sonnet-4-20250514",
    "gpt-5" := "gpt-5-codex",
    "gpt-5-codex" := "gpt-5-codex",
    "gpt-5-high" := "gpt-5-codex-high"
  ]

  /** The Claude keyword chain: haiku, then opus, then sonnet; `None` keeps
      the default short name. */
  function AnthropicShortModel(lower: string): (r: Option<string>)
    ensures r.None? <==> !Contains(lower, "haiku") && !Contains(lower, "opus") && !Contains(lower, "sonnet")
    ensures r.Some? ==> r.value in ModelIdMap
    ensures Contains(lower, "haiku") ==> r == Some("haiku")
  {
    if Contains(lower, "haiku") then Some("haiku")
    else if Contains(lower, "opus") then Some("opus")
    else if Contains(lower, "sonnet") then Some("sonnet")
    else None
  }

  /** The short model name: `default` (the `droid_model` argument) unless the
      model name is `provider/model` with provider exactly `anthropic` or
      `openai` and the model part holds one of the keywords. */
  function ShortModel(modelName: Option<string>, default: string): (r: string)
    ensures r == default || r in ModelIdMap
    ensures modelName.None? || '/' !in modelName.value ==> r == default
  {
    if modelName.None? || modelName.value == "" || '/' !in modelName.value then default
    else
      var (provider, model) := SplitFirst(modelName.value, '/').value;
      var lower := Lower(model);
      if provider == "anthropic" then
        match AnthropicShortModel(lower)
        case Some(s) => s
        case None => default
      else if provider == "openai" && Contains(lower, "gpt-5") then "gpt-5"
      else default
  }

  /** The four model ids Factory runs. */
  const FactoryIds: set<string> :=
    {"claude-sonnet-4-20250514", "claude-opus-4-1-20250805", "gpt-5-codex", "gpt-5-codex-high"}

  /** `self._model_id_map.get(short_model, short_model)`: a name the map knows
      becomes a Factory id, haiku running on the sonnet id since Factory has
      no haiku; any other name is passed through unchanged. */
  function DroidModelId(short: string): (r: string)
    ensures short in ModelIdMap ==> r in FactoryIds
    ensures short !in ModelIdMap ==> r == short
    ensures short == "haiku" || short == "sonnet" ==> r == "claude-sonnet-4-20250514"
    ensures r in FactoryIds <==> short in ModelIdMap || short in FactoryIds
  {
    if short in ModelIdMap then ModelIdMap[short] else short
  }

  /** The Claude chain as an ordered table. */
  const AnthropicRules: seq<Rule<Option<string>>> := [
    Rule(["haiku"], Some("haiku")),
    Rule(["opus"], Some("opus")),
    Rule(["sonnet"], Some("sonnet"))
  ]

  /** The chain picks the first table entry whose keyword occurs. */
  lemma AnthropicShortModelFollowsTable(lower: string)
    ensures AnthropicShortModel(lower) == FirstMatch(AnthropicRules, lower, None)
  {
    var t := AnthropicRules;
    forall i | 0 <= i < |t|
      ensures Fires(t[i], lower) <==> Contains(lower, t[i].keywords[0])
    {
      FiresSingle(t[i], lower);
    }
    var first :=
      if Contains(lower, "haiku") then 0
      else if Contains(lower, "opus") then 1
      else if Contains(lower, "sonnet") then 2
      else 3;
    assert forall j :: 0 <= j < first ==> !Fires(t[j], lower);
    if first < 3 {
      assert Fires(t[first], lower);
      assert AnthropicShortModel(lower) == t[first].id;
    }
  }

  /** For `provider/model` with a `/`-free provider, the short name depends on
      the provider and the lower-cased model part only, as follows. */
  lemma ShortModelOfQualified(provider: string, model: string, default: string)
    requires '/' !in provider
    ensures var r := ShortModel(Some(provider + "/" + model), default);
            var lower := Lower(model);
            && (provider == "anthropic" ==>
                  r == match FirstMatch(AnthropicRules, lower, None) case Some(s) => s case None => default)
            && (provider == "openai" ==> r == if Contains(lower, "gpt-5") then "gpt-5" else default)
            && (provider != "anthropic" && provider != "openai" ==> r == default)
  {
    var name := provider + "/" + model;
    assert name == provider + ['/'] + model;
    SplitFirstConcat(provider, '/', model);
    assert name[|provider|] == '/';
    AnthropicShortModelFollowsTable(Lower(model));
  }

  /** Mapping is idempotent: an id that already came out of the map is kept. */
  lemma DroidModelIdIdempotent(short: string)
    ensures DroidModelId(DroidModelId(short)) == DroidModelId(short)
  {
  }
}
