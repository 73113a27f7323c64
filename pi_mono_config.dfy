/** Configuration of the pi-mono adapter (`PiMonoAgent.__init__` and
    `_normalize_model_id` in custom_agents/pi_mono_agent.py): resolve the
    provider and model from the harness arguments, check the provider against
    the fixed allow-list, choose the pi model id, and strip a redundant
    provider prefix from it. */
module PiMonoConfig {
  import opened Wrappers
  import opened Text
  import opened Harbor
  import opened Keywords

  /** The `ValueError`s the constructor raises. */
  datatype ConfigError =
    | ModelNameNotQualified        // no provider given and model_name is not `provider/model`
    | UnknownProvider(provider: string)

  /** The keyword arguments the constructor reads. `None` stands for an absent
      (or `None`) argument; the others carry their defaults in `DefaultKwargs`. */
  datatype PiKwargs = PiKwargs(provider: Option<string>, piModel: Option<string>,
                               outputMode: string, noSession: bool, timeoutSeconds: int)

  const DefaultKwargs := PiKwargs(None, None, "json", false, 1800)

  /** A constructed agent: the fields later steps read. */
  datatype PiMonoAgent = PiMonoAgent(provider: string, piModel: Option<string>,
                                     outputMode: string, noSession: bool, timeoutSeconds: int)

  /** Harness provider names and the pi provider names they map to. */
  const ProviderMap: map<string, string> := map[
    "anthropic" := "anthropic",
    "openai" := "openai",
    "google" := "google",
    "groq" := "groq",
    "cerebras" := "cerebras",
    "xai" := "xai",
    "openrouter" := "openrouter"
  ]

  const AllowedProviders: set<string> :=
    {"anthropic", "openai", "google", "groq", "cerebras", "xai", "openrouter"}

  /** The allow-list has exactly the seven names and maps each to itself. */
  lemma ProviderMapIsIdentity()
    ensures ProviderMap.Keys == AllowedProviders
    ensures forall p :: p in ProviderMap ==> ProviderMap[p] == p
  {
  }

  /** Provider and model string, before the allow-list check. Without a
      provider argument both come from a `provider/model` name, split at its
      first `/`, and any other name is refused. With one, it is the provider,
      and the model is the part after the first `/` of a qualified name,
      otherwise the name itself (`""` for `None`). */
  function ResolveProviderModel(providerArg: Option<string>, modelName: Option<string>)
    : (r: Result<(string, string), ConfigError>)
    ensures r.Failure? <==> !Truthy(providerArg) && (!Truthy(modelName) || '/' !in modelName.value)
    ensures r.Failure? ==> r.error == ModelNameNotQualified
    ensures r.Success? && Truthy(modelName) && '/' in modelName.value ==>
              r.value.1 == modelName.value[Find(modelName.value, '/') + 1..]
    ensures r.Success? && !Truthy(providerArg) ==> r.value.0 == modelName.value[..Find(modelName.value, '/')]
    ensures Truthy(providerArg) ==> r.Success? && r.value.0 == providerArg.value
    ensures Truthy(providerArg) && !(Truthy(modelName) && '/' in modelName.value) ==>
              r.value.1 == (if modelName.Some? then modelName.value else "")
  {
    if !Truthy(providerArg) then
      if !Truthy(modelName) || '/' !in modelName.value then Failure(ModelNameNotQualified)
      else Success(SplitFirst(modelName.value, '/').value)
    else
      var model :=
        if Truthy(modelName) && '/' in modelName.value then SplitFirst(modelName.value, '/').value.1
        else if modelName.Some? then modelName.value
        else "";
      Success((providerArg.value, model))
  }

  /** The pi model ids the Claude chain can choose. */
  const ClaudeIds: set<string> := {"claude-3-5-haiku-latest", "claude-3-opus-latest", "claude-3-5-sonnet-latest"}

  /** The pi model ids the GPT chain can choose. */
  const GptIds: set<string> :=
    {"gpt-5.1-codex-mini", "gpt-5.1-codex", "gpt-5.1", "gpt-4o", "gpt-4-turbo", "o1-preview", "gpt-3.5-turbo"}

  /** Claude model names: haiku, then opus, then sonnet; `None` leaves the
      pi model unset, which happens exactly when no keyword occurs. */
  function ClaudeModel(lower: string): (r: Option<string>)
    ensures r.None? <==> !Contains(lower, "haiku") && !Contains(lower, "opus") && !Contains(lower, "sonnet")
    ensures r.Some? ==> r.value in ClaudeIds
    ensures Contains(lower, "haiku") ==> r == Some("claude-3-5-haiku-latest")
  {
    if Contains(lower, "haiku") then Some("claude-3-5-haiku-latest")
    else if Contains(lower, "opus") then Some("claude-3-opus-latest")
    else if Contains(lower, "sonnet") then Some("claude-3-5-sonnet-latest")
    else None
  }

  /** GPT model names, most specific keyword first; unknown ones become gpt-4o. */
  function GptModel(lower: string): (r: string)
    ensures r in GptIds
    ensures Contains(lower, "5.1-codex-mini") ==> r == "gpt-5.1-codex-mini"
  {
    if Contains(lower, "5.1-codex-mini") then "gpt-5.1-codex-mini"
    else if Contains(lower, "5.1-codex") then "gpt-5.1-codex"
    else if Contains(lower, "5.1") then "gpt-5.1"
    else if Contains(lower, "4o") then "gpt-4o"
    else if Contains(lower, "4-turbo") || Contains(lower, "4turbo") then "gpt-4-turbo"
    else if Contains(lower, "o1") then "o1-preview"
    else if Contains(lower, "3.5") then "gpt-3.5-turbo"
    else "gpt-4o"
  }

  /** The mapping applied when no explicit pi model was given; `None` means
      the pi model is left as it was. Only a Claude name without a keyword
      gives `None`; any other result is a known pi id or the model itself. */
  function MapModel(model: string): (r: Option<string>)
    ensures r.None? <==> Contains(Lower(model), "claude") && !Contains(Lower(model), "haiku")
                         && !Contains(Lower(model), "opus") && !Contains(Lower(model), "sonnet")
    ensures r.Some? ==> r.value in ClaudeIds || r.value in GptIds || r.value == "gemini-2.0-flash-exp" || r.value == model
    ensures !Contains(Lower(model), "claude") && !Contains(Lower(model), "gpt") && !Contains(Lower(model), "gemini")
            ==> r == Some(model)
  {
    var lower := Lower(model);
    if Contains(lower, "claude") then ClaudeModel(lower)
    else if Contains(lower, "gpt") then Some(GptModel(lower))
    else if Contains(lower, "gemini") then Some("gemini-2.0-flash-exp")
    else Some(model)
  }

  /** `_normalize_model_id`: drop a `prefix/` that names the selected provider,
      compared case-insensitively. */
  function NormalizeModelId(provider: string, model: Option<string>): (r: Option<string>)
    ensures r.None? <==> model.None?
    ensures r.Some? ==> |r.value| <= |model.value|
    ensures !Truthy(model) || '/' !in model.value ==> r == model
  {
    if !Truthy(model) || '/' !in model.value then model
    else
      var (prefix, remainder) := SplitFirst(model.value, '/').value;
      if Lower(prefix) == Lower(provider) then Some(remainder) else model
  }

  /** `PiMonoAgent.__init__`. */
  function Init(modelName: Option<string>, kwargs: PiKwargs): (r: Result<PiMonoAgent, ConfigError>)
    ensures r.Success? ==> r.value.provider in AllowedProviders
    ensures r.Success? ==> r.value.outputMode == kwargs.outputMode
                           && r.value.noSession == kwargs.noSession
                           && r.value.timeoutSeconds == kwargs.timeoutSeconds
  {
    match ResolveProviderModel(kwargs.provider, modelName)
    case Failure(e) => Failure(e)
    case Success((provider, model)) =>
      if provider !in ProviderMap then Failure(UnknownProvider(provider))
      else
        var piProvider := ProviderMap[provider];
        var chosen :=
          if Truthy(kwargs.piModel) then kwargs.piModel
          else match MapModel(model)
            case Some(m) => Some(m)
            case None => kwargs.piModel;
        Success(PiMonoAgent(piProvider, NormalizeModelId(piProvider, chosen),
                            kwargs.outputMode, kwargs.noSession, kwargs.timeoutSeconds))
  }

  // ---------------------------------------------------------------------------
  // Normalisation

  /** For a model `prefix/rest` whose prefix has no `/`, normalisation returns
      `rest` exactly when the prefix names the provider case-insensitively,
      and the model unchanged otherwise. */
  lemma NormalizeSplitsAtFirstSlash(provider: string, prefix: string, rest: string)
    requires '/' !in prefix
    ensures NormalizeModelId(provider, Some(prefix + "/" + rest))
            == if Lower(prefix) == Lower(provider) then Some(rest) else Some(prefix + "/" + rest)
  {
    var m := prefix + "/" + rest;
    SplitFirstConcat(prefix, '/', rest);
    assert m == prefix + ['/'] + rest;
    assert m[|prefix|] == '/';
  }

  /** Normalising twice is normalising once when no `/` is left after the first `/`. */
  lemma NormalizeIdempotent(provider: string, model: Option<string>)
    requires model.Some? && '/' in model.value ==> '/' !in SplitFirst(model.value, '/').value.1
    ensures NormalizeModelId(provider, NormalizeModelId(provider, model)) == NormalizeModelId(provider, model)
  {
  }

  /** With provider `openai`, `openai/gpt-5.1-codex` normalises to `gpt-5.1-codex`. */
  lemma NormalizeOpenAiExample()
    ensures NormalizeModelId("openai", Some("openai/gpt-5.1-codex")) == Some("gpt-5.1-codex")
  {
    assert "openai/gpt-5.1-codex" == "openai" + "/" + "gpt-5.1-codex";
    NormalizeSplitsAtFirstSlash("openai", "openai", "gpt-5.1-codex");
  }

  // ---------------------------------------------------------------------------
  // Provider resolution and the allow-list

  /** Without an explicit provider, a missing, empty or unqualified model name
      is refused, and a qualified one is split at its first `/` only. */
  lemma InitWithoutProvider(modelName: Option<string>, kwargs: PiKwargs)
    requires !Truthy(kwargs.provider)
    ensures !Truthy(modelName) || '/' !in modelName.value ==> Init(modelName, kwargs) == Failure(ModelNameNotQualified)
    ensures forall p, m :: modelName == Some(p + "/" + m) && '/' !in p
              ==> ResolveProviderModel(kwargs.provider, modelName) == Success((p, m))
  {
    forall p, m | modelName == Some(p + "/" + m) && '/' !in p
      ensures ResolveProviderModel(kwargs.provider, modelName) == Success((p, m))
    {
      assert p + "/" + m == p + ['/'] + m;
      SplitFirstConcat(p, '/', m);
      assert (p + "/" + m)[|p|] == '/';
    }
  }

  /** A provider outside the allow-list is refused, naming that provider; an
      allowed one is kept as it is. Nothing else makes the constructor fail. */
  lemma InitChecksProvider(modelName: Option<string>, kwargs: PiKwargs)
    ensures ResolveProviderModel(kwargs.provider, modelName).Success? ==>
              var provider := ResolveProviderModel(kwargs.provider, modelName).value.0;
              && (provider !in AllowedProviders ==> Init(modelName, kwargs) == Failure(UnknownProvider(provider)))
              && (provider in AllowedProviders ==>
                    Init(modelName, kwargs).Success? && Init(modelName, kwargs).value.provider == provider)
    ensures Init(modelName, kwargs).Failure? <==>
              ResolveProviderModel(kwargs.provider, modelName).Failure?
              || ResolveProviderModel(kwargs.provider, modelName).value.0 !in AllowedProviders
  {
    ProviderMapIsIdentity();
  }

  // ---------------------------------------------------------------------------
  // Model selection

  /** The GPT chain as an ordered table. */
  const GptRules: seq<Rule<string>> := [
    Rule(["5.1-codex-mini"], "gpt-5.1-codex-mini"),
    Rule(["5.1-codex"], "gpt-5.1-codex"),
    Rule(["5.1"], "gpt-5.1"),
    Rule(["4o"], "gpt-4o"),
    Rule(["4-turbo", "4turbo"], "gpt-4-turbo"),
    Rule(["o1"], "o1-preview"),
    Rule(["3.5"], "gpt-3.5-turbo")
  ]

  const ClaudeRules: seq<Rule<Option<string>>> := [
    Rule(["haiku"], Some("claude-3-5-haiku-latest")),
    Rule(["opus"], Some("claude-3-opus-latest")),
    Rule(["sonnet"], Some("claude-3-5-sonnet-latest"))
  ]

  /** The GPT chain picks the first table entry one of whose keywords occurs,
      and gpt-4o when none does. */
  lemma GptModelFollowsTable(lower: string)
    ensures GptModel(lower) == FirstMatch(GptRules, lower, "gpt-4o")
  {
    var t := GptRules;
    forall i | 0 <= i < |t| && i != 4
      ensures Fires(t[i], lower) <==> Contains(lower, t[i].keywords[0])
    {
      FiresSingle(t[i], lower);
    }
    FiresPair(t[4], lower);
    var first :=
      if Contains(lower, "5.1-codex-mini") then 0
      else if Contains(lower, "5.1-codex") then 1
      else if Contains(lower, "5.1") then 2
      else if Contains(lower, "4o") then 3
      else if Contains(lower, "4-turbo") || Contains(lower, "4turbo") then 4
      else if Contains(lower, "o1") then 5
      else if Contains(lower, "3.5") then 6
      else 7;
    assert forall j :: 0 <= j < first ==> !Fires(t[j], lower);
    if first < 7 {
      assert Fires(t[first], lower);
      assert GptModel(lower) == t[first].id;
    }
  }

  /** The Claude chain picks the first of haiku, opus, sonnet, and leaves the
      model unset when none occurs. */
  lemma ClaudeModelFollowsTable(lower: string)
    ensures ClaudeModel(lower) == FirstMatch(ClaudeRules, lower, None)
  {
    var t := ClaudeRules;
    forall i | 0 <= i < |t|
      ensures Fires(t[i], lower) <==> Contains(lower, t[i].keywords[0])
    {
      FiresSingle(t[i], lower);
    }
    var first :=
      if Contains(lower, "haiku") then 0
      else if Contains(lower, "opus") then 1
      else if Contains(lower, "sonnet") then 2
      else 3;
    assert forall j :: 0 <= j < first ==> !Fires(t[j], lower);
    if first < 3 {
      assert Fires(t[first], lower);
      assert ClaudeModel(lower) == t[first].id;
    }
  }

  /** The order of the GPT table matters: a name with `5.1-codex-mini` also
      holds `5.1-codex` and `5.1`, and the most specific entry wins. */
  lemma GptPrecedence(lower: string)
    requires Contains(lower, "5.1-codex-mini")
    ensures Contains(lower, "5.1-codex") && Contains(lower, "5.1")
    ensures GptModel(lower) == "gpt-5.1-codex-mini"
  {
    assert IsPrefix("5.1-codex", "5.1-codex-mini");
    assert IsPrefix("5.1", "5.1-codex-mini");
    ContainsTrans(lower, "5.1-codex-mini", "5.1-codex");
    ContainsTrans(lower, "5.1-codex-mini", "5.1");
  }

  /** `5.1-codex` without `-mini` gives gpt-5.1-codex, although `5.1` occurs too. */
  lemma GptCodexBeforePlain(lower: string)
    requires Contains(lower, "5.1-codex") && !Contains(lower, "5.1-codex-mini")
    ensures Contains(lower, "5.1")
    ensures GptModel(lower) == "gpt-5.1-codex"
  {
    assert IsPrefix("5.1", "5.1-codex");
    ContainsTrans(lower, "5.1-codex", "5.1");
  }

  /** The fallbacks of the mapping: an unmatched GPT name gives gpt-4o, a
      Claude name without a keyword gives nothing, and a name that is neither
      Claude, GPT nor Gemini is used as given. */
  lemma MapModelFallbacks(model: string)
    ensures var lower := Lower(model);
      (!Contains(lower, "claude") && Contains(lower, "gpt")
       && (forall i :: 0 <= i < |GptRules| ==> !Fires(GptRules[i], lower)))
      ==> MapModel(model) == Some("gpt-4o")
    ensures var lower := Lower(model);
      (Contains(lower, "claude") && !Contains(lower, "haiku") && !Contains(lower, "opus")
       && !Contains(lower, "sonnet")) ==> MapModel(model) == None
    ensures var lower := Lower(model);
      (!Contains(lower, "claude") && !Contains(lower, "gpt") && !Contains(lower, "gemini"))
      ==> MapModel(model) == Some(model)
  {
    GptModelFollowsTable(Lower(model));
  }

  /** The mapping follows the keyword tables in the order of the source's
      chain: a Claude name takes the Claude table's pick, otherwise a GPT
      name takes the GPT table's pick (gpt-4o when no rule fires), otherwise
      a Gemini name takes the Gemini id. */
  lemma MapModelFollowsTables(model: string)
    ensures var lower := Lower(model);
      Contains(lower, "claude") ==> MapModel(model) == FirstMatch(ClaudeRules, lower, None)
    ensures var lower := Lower(model);
      !Contains(lower, "claude") && Contains(lower, "gpt")
      ==> MapModel(model) == Some(FirstMatch(GptRules, lower, "gpt-4o"))
    ensures var lower := Lower(model);
      !Contains(lower, "claude") && !Contains(lower, "gpt") && Contains(lower, "gemini")
      ==> MapModel(model) == Some("gemini-2.0-flash-exp")
  {
    ClaudeModelFollowsTable(Lower(model));
    GptModelFollowsTable(Lower(model));
  }

  /** A qualified GPT name such as `openai/gpt-5.1-codex-mini`, given without
      a provider or pi model, selects the most specific GPT id under the
      provider named by its prefix. */
  lemma InitPicksCodexMini(provider: string, model: string, kwargs: PiKwargs)
    requires provider in AllowedProviders && '/' !in provider
    requires !Truthy(kwargs.provider) && !Truthy(kwargs.piModel)
    requires Contains(Lower(model), "gpt") && Contains(Lower(model), "5.1-codex-mini")
             && !Contains(Lower(model), "claude")
    ensures Init(Some(provider + "/" + model), kwargs)
            == Success(PiMonoAgent(provider, Some("gpt-5.1-codex-mini"),
                                   kwargs.outputMode, kwargs.noSession, kwargs.timeoutSeconds))
  {
    var name := provider + "/" + model;
    assert name == provider + ['/'] + model;
    SplitFirstConcat(provider, '/', model);
    assert name[|provider|] == '/';
    assert ResolveProviderModel(kwargs.provider, Some(name)) == Success((provider, model));
    GptPrecedence(Lower(model));
    assert MapModel(model) == Some("gpt-5.1-codex-mini");
    assert '/' !in "gpt-5.1-codex-mini";
    assert NormalizeModelId(provider, Some("gpt-5.1-codex-mini")) == Some("gpt-5.1-codex-mini");
    ProviderMapIsIdentity();
  }

  /** An explicit pi model is never replaced by the mapping (only normalised),
      and a Claude model without a keyword leaves the pi model as given. */
  lemma InitPiModel(modelName: Option<string>, kwargs: PiKwargs)
    requires Init(modelName, kwargs).Success?
    ensures var a := Init(modelName, kwargs).value;
      Truthy(kwargs.piModel) ==> a.piModel == NormalizeModelId(a.provider, kwargs.piModel)
    ensures var a := Init(modelName, kwargs).value;
      var model := ResolveProviderModel(kwargs.provider, modelName).value.1;
      !Truthy(kwargs.piModel) && MapModel(model).None? ==> a.piModel == kwargs.piModel
    ensures var a := Init(modelName, kwargs).value;
      var model := ResolveProviderModel(kwargs.provider, modelName).value.1;
      !Truthy(kwargs.piModel) && MapModel(model).Some? ==> a.piModel == NormalizeModelId(a.provider, MapModel(model))
  {
  }
}
