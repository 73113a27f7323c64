/** `PiMonoAgent.create_run_agent_commands`: choose the environment variables
    to forward, build the `pi` argument list, and list the commands in the
    order the harness runs them. */
module PiMonoCommands {
  import opened Wrappers
  import opened Harbor
  import opened PiMonoConfig

  const PiSessionDir := "/logs/agent/pi_session"

  /** The API-key variables tried for each provider, in order. */
  function ApiKeyNames(provider: string): (r: Option<seq<string>>)
    ensures r.Some? <==> provider in AllowedProviders
  {
    match provider
    case "anthropic" => Some(["ANTHROPIC_API_KEY", "ANTHROPIC_OAUTH_TOKEN"])
    case "openai" => Some(["OPENAI_API_KEY"])
    case "google" => Some(["GEMINI_API_KEY"])
    case "groq" => Some(["GROQ_API_KEY"])
    case "cerebras" => Some(["CEREBRAS_API_KEY"])
    case "xai" => Some(["XAI_API_KEY"])
    case "openrouter" => Some(["OPENROUTER_API_KEY"])
    case _ => None
  }

  /** Keys always passed through when present and not already chosen. */
  const CommonKeys := ["ANTHROPIC_API_KEY", "OPENAI_API_KEY", "GEMINI_API_KEY"]

  /** OpenAI account context, passed through whenever present. */
  const OpenAiContextKeys := ["OPENAI_USER_EMAIL", "OPENAI_ORG", "OPENAI_ORG_ID",
                              "OPENAI_PROJECT", "OPENAI_PROJECT_ID", "OPENAI_API_BASE"]

  /** Index of the first key with a non-empty value, `|keys|` when none has one. */
  function FirstSetIndex(keys: seq<string>, environ: Env): (i: nat)
    ensures i <= |keys|
    ensures forall j :: 0 <= j < i ==> !IsSet(environ, keys[j])
    ensures i < |keys| ==> IsSet(environ, keys[i])
  {
    if keys == [] then 0
    else if IsSet(environ, keys[0]) then 0
    else 1 + FirstSetIndex(keys[1..], environ)
  }

  /** The provider API key that is forwarded: the first one set, if any. */
  function ProviderKey(provider: string, environ: Env): Option<string>
  {
    match ApiKeyNames(provider)
    case None => None
    case Some(keys) =>
      var i := FirstSetIndex(keys, environ);
      if i < |keys| then Some(keys[i]) else None
  }

  function ProviderKeyEnv(provider: string, environ: Env): Env
  {
    match ProviderKey(provider, environ)
    case None => map[]
    case Some(k) => map[k := environ[k]]
  }

  /** Every entry of `e` is copied from `environ`. */
  predicate CopiedFrom(e: Env, environ: Env)
  {
    forall k :: k in e ==> k in environ && e[k] == environ[k]
  }

  /** Add each of `keys` present in `environ` and not yet in `e`, in order. */
  function AddIfAbsent(e: Env, keys: seq<string>, environ: Env): Env
    decreases |keys|
  {
    if keys == [] then e
    else
      var p := AddIfAbsent(e, keys[..|keys| - 1], environ);
      var k := keys[|keys| - 1];
      if k !in p && k in environ then p[k := environ[k]] else p
  }

  /** Set each of `keys` present in `environ`, in order, overwriting. */
  function Overlay(e: Env, keys: seq<string>, environ: Env): Env
    decreases |keys|
  {
    if keys == [] then e
    else
      var p := Overlay(e, keys[..|keys| - 1], environ);
      var k := keys[|keys| - 1];
      if k in environ then p[k := environ[k]] else p
  }

  /** The environment the pi commands run with: every entry is copied from
      the process environment, and the provider key chosen is in it. */
  function PiEnv(provider: string, environ: Env): (r: Env)
    ensures CopiedFrom(r, environ)
    ensures ProviderKey(provider, environ).Some? ==> ProviderKey(provider, environ).value in r
  {
    var base := ProviderKeyEnv(provider, environ);
    AddIfAbsentContents(base, CommonKeys, environ);
    OverlayContents(AddIfAbsent(base, CommonKeys, environ), OpenAiContextKeys, environ);
    Overlay(AddIfAbsent(ProviderKeyEnv(provider, environ), CommonKeys, environ),
            OpenAiContextKeys, environ)
  }

  lemma {:induction false} AddIfAbsentContents(e: Env, keys: seq<string>, environ: Env)
    requires CopiedFrom(e, environ)
    ensures CopiedFrom(AddIfAbsent(e, keys, environ), environ)
    ensures forall k :: k in AddIfAbsent(e, keys, environ) <==> k in e || (k in keys && k in environ)
    decreases |keys|
  {
    if keys != [] {
      var init := keys[..|keys| - 1];
      AddIfAbsentContents(e, init, environ);
      assert keys == init + [keys[|keys| - 1]];
    }
  }

  lemma {:induction false} OverlayContents(e: Env, keys: seq<string>, environ: Env)
    requires CopiedFrom(e, environ)
    ensures CopiedFrom(Overlay(e, keys, environ), environ)
    ensures forall k :: k in Overlay(e, keys, environ) <==> k in e || (k in keys && k in environ)
    decreases |keys|
  {
    if keys != [] {
      var init := keys[..|keys| - 1];
      OverlayContents(e, init, environ);
      assert keys == init + [keys[|keys| - 1]];
    }
  }

  /** The forwarded environment holds values from the process environment
      only, and exactly these keys: the first set API key of the provider,
      the common keys and the OpenAI context keys that are present. */
  lemma PiEnvContents(provider: string, environ: Env)
    ensures CopiedFrom(PiEnv(provider, environ), environ)
    ensures forall k :: k in PiEnv(provider, environ) <==>
              ProviderKey(provider, environ) == Some(k)
              || (k in environ && (k in CommonKeys || k in OpenAiContextKeys))
  {
    var base := ProviderKeyEnv(provider, environ);
    assert CopiedFrom(base, environ);
    AddIfAbsentContents(base, CommonKeys, environ);
    OverlayContents(AddIfAbsent(base, CommonKeys, environ), OpenAiContextKeys, environ);
  }

  /** "First present key wins": the chosen provider key is one of the
      provider's keys, has a non-empty value, and every key before it has none. */
  lemma ProviderKeyIsFirstSet(provider: string, environ: Env)
    ensures ProviderKey(provider, environ).Some? ==>
              var keys := ApiKeyNames(provider).value;
              exists i :: 0 <= i < |keys| && keys[i] == ProviderKey(provider, environ).value
                && IsSet(environ, keys[i]) && forall j :: 0 <= j < i ==> !IsSet(environ, keys[j])
    ensures ProviderKey(provider, environ).None? ==>
              ApiKeyNames(provider).None?
              || forall j :: 0 <= j < |ApiKeyNames(provider).value| ==> !IsSet(environ, ApiKeyNames(provider).value[j])
  {
    if ApiKeyNames(provider).Some? {
      var keys := ApiKeyNames(provider).value;
      var i := FirstSetIndex(keys, environ);
      if i < |keys| {
        assert keys[i] == ProviderKey(provider, environ).value;
      }
    }
  }

  /** The `pi` argument list; `quoted` is the shell-quoted instruction. It
      starts with `pi`, ends with the instruction, and has two elements per
      flag with a value, one for `--no-session` and one for the instruction. */
  function PiParts(agent: PiMonoAgent, quoted: string): (r: seq<string>)
    ensures |r| == 4 + (if agent.provider != "" then 2 else 0) + (if Truthy(agent.piModel) then 2 else 0)
                     + (if agent.noSession then 1 else 0)
    ensures r[0] == "pi" && r[|r| - 1] == quoted
  {
    ["pi"]
    + (if agent.provider != "" then ["--provider", agent.provider] else [])
    + (if Truthy(agent.piModel) then ["--model", agent.piModel.value] else [])
    + ["--mode", agent.outputMode]
    + (if agent.noSession then ["--no-session"] else [])
    + [quoted]
  }

  /** What can be read back from a `pi` argument list. */
  datatype PiInvocation = PiInvocation(provider: Option<string>, model: Option<string>,
                                       mode: string, noSession: bool, message: string)

  /** Reads an argument list position by position: `pi`, an optional
      `--provider p`, an optional `--model m`, `--mode x`, an optional
      `--no-session`, and the message as the last element. */
  function ParsePiParts(parts: seq<string>): Option<PiInvocation>
  {
    if |parts| < 4 || parts[0] != "pi" then None
    else
      var (provider, a) := if parts[1] == "--provider" && |parts| > 2 then (Some(parts[2]), parts[3..]) else (None, parts[1..]);
      if |a| < 3 then None
      else
        var (model, b) := if a[0] == "--model" then (Some(a[1]), a[2..]) else (None, a);
        if |b| < 3 || b[0] != "--mode" then None
        else if |b| == 3 then Some(PiInvocation(provider, model, b[1], false, b[2]))
        else if |b| == 4 && b[2] == "--no-session" then Some(PiInvocation(provider, model, b[1], true, b[3]))
        else None
  }

  /** The argument list is decodable back into the configuration it was
      built from: the provider and model flags appear exactly when they are
      set, the mode is given, `--no-session` appears exactly in ephemeral
      mode, and the quoted instruction is the last element. */
  lemma PiPartsRoundTrip(agent: PiMonoAgent, quoted: string)
    ensures ParsePiParts(PiParts(agent, quoted)) == Some(PiInvocation(
              if agent.provider != "" then Some(agent.provider) else None,
              if Truthy(agent.piModel) then agent.piModel else None,
              agent.outputMode, agent.noSession, quoted))
  {
    var parts := PiParts(agent, quoted);
    var pv := if agent.provider != "" then ["--provider", agent.provider] else [];
    var mv := if Truthy(agent.piModel) then ["--model", agent.piModel.value] else [];
    var tail := ["--mode", agent.outputMode] + (if agent.noSession then ["--no-session"] else []) + [quoted];
    assert parts == ["pi"] + pv + mv + tail;
    assert (if parts[1] == "--provider" && |parts| > 2 then parts[3..] else parts[1..]) == mv + tail;
  }

  /** The `env_vars` dictionary, filled in the source's three loops. */
  method SelectEnv(provider: string, environ: Env) returns (envVars: Env)
    ensures envVars == PiEnv(provider, environ)
  {
    // The provider's API key: the first one that is set.
    envVars := map[];
    var names := ApiKeyNames(provider);
    if names.Some? {
      var keys := names.value;
      var i := 0;
      while i < |keys|
        invariant 0 <= i <= |keys|
        invariant forall j :: 0 <= j < i ==> !IsSet(environ, keys[j])
        invariant envVars == map[]
      {
        var value := Get(environ, keys[i]);
        if Truthy(value) {
          envVars := envVars[keys[i] := value.value];
          break;
        }
        i := i + 1;
      }
    }
    assert envVars == ProviderKeyEnv(provider, environ);

    // Common keys, unless already chosen.
    ghost var base := envVars;
    for i := 0 to |CommonKeys|
      invariant envVars == AddIfAbsent(base, CommonKeys[..i], environ)
    {
      var key := CommonKeys[i];
      if key !in envVars && key in environ {
        envVars := envVars[key := environ[key]];
      }
      assert CommonKeys[..i + 1][..i] == CommonKeys[..i];
    }
    assert CommonKeys[..|CommonKeys|] == CommonKeys;

    // OpenAI context, whenever present.
    ghost var withCommon := envVars;
    for i := 0 to |OpenAiContextKeys|
      invariant envVars == Overlay(withCommon, OpenAiContextKeys[..i], environ)
    {
      var key := OpenAiContextKeys[i];
      if key in environ {
        envVars := envVars[key := environ[key]];
      }
      assert OpenAiContextKeys[..i + 1][..i] == OpenAiContextKeys[..i];
    }
    assert OpenAiContextKeys[..|OpenAiContextKeys|] == OpenAiContextKeys;
  }

  /** Builds the commands, as the source does, step by step. */
  method CreateRunAgentCommands(agent: PiMonoAgent, instruction: string, environ: Env,
                                quote: string -> string)
    returns (commands: seq<ExecInput>)
    ensures |commands| == if agent.outputMode == "json" then 4 else 3
    ensures forall i :: 0 <= i < |commands| ==>
              commands[i].env == EnvOrNone(PiEnv(agent.provider, environ))
              && commands[i].cwd == Workspace
    ensures commands[0].step == MakeDir(PiSessionDir) && commands[0].timeoutSec == None
    ensures commands[1].step == RunAgent(PiParts(agent, quote(instruction)), agent.timeoutSeconds)
    ensures commands[1].timeoutSec == Some(agent.timeoutSeconds + 60)
    ensures agent.outputMode == "json" ==> commands[2].step == ExtractJson && commands[2].timeoutSec == None
    ensures commands[|commands| - 1].step == ReportStatus && commands[|commands| - 1].timeoutSec == None
  {
    var escaped := quote(instruction);
    var envVars := SelectEnv(agent.provider, environ);
    var env := if envVars != map[] then Some(envVars) else None;
    commands := [ExecInput(MakeDir(PiSessionDir), env, Workspace, None)];

    var parts := ["pi"];
    if agent.provider != "" {
      parts := parts + ["--provider", agent.provider];
    }
    if Truthy(agent.piModel) {
      parts := parts + ["--model", agent.piModel.value];
    }
    parts := parts + ["--mode", agent.outputMode];
    if agent.noSession {
      parts := parts + ["--no-session"];
    }
    parts := parts + [escaped];

    commands := commands + [ExecInput(RunAgent(parts, agent.timeoutSeconds), env, Workspace,
                                      Some(agent.timeoutSeconds + 60))];
    if agent.outputMode == "json" {
      commands := commands + [ExecInput(ExtractJson, env, Workspace, None)];
    }
    commands := commands + [ExecInput(ReportStatus, env, Workspace, None)];
  }
}
