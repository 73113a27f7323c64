/** `FactoryDroidAgent` (custom_agents/factory_droid.py): an agent object that
    is configured once, records the instruction when it builds the commands,
    and later fills in the context from the droid log. */
module DroidAgent {
  import opened Wrappers
  import opened Text
  import opened Harbor
  import opened DroidConfig
  import opened DroidMetrics

  const SessionDir := "/logs/agent/droid_session"

  /** The API keys passed through to the droid commands when set, in the
      order the source tests them. */
  const ApiKeys := ["FACTORY_API_KEY", "ANTHROPIC_API_KEY", "OPENAI_API_KEY"]

  const AuthTokenKey := "FACTORY_AUTH_TOKEN"

  /** `env_vars[key] = value` when the key is set to a non-empty value. */
  function PassIfSet(env: Env, environ: Env, key: string): Env
  {
    if IsSet(environ, key) then env[key := environ[key]] else env
  }

  /** `env_vars`, filled in the order the source tests the keys: the API keys
      that are set, then the auth token read at construction when non-empty. */
  function DroidEnv(environ: Env, authToken: Option<string>): (r: Env)
    ensures forall k :: k in r ==> (k in ApiKeys || k == AuthTokenKey) && r[k] != ""
  {
    var keys := PassIfSet(PassIfSet(PassIfSet(map[], environ, ApiKeys[0]), environ, ApiKeys[1]), environ, ApiKeys[2]);
    if Truthy(authToken) then keys[AuthTokenKey := authToken.value] else keys
  }

  /** Nothing but the four names is passed, each exactly when it is set, and
      never with an empty value. */
  lemma DroidEnvContents(environ: Env, authToken: Option<string>)
    ensures var env := DroidEnv(environ, authToken);
            && (forall k :: k in env <==> (k in ApiKeys && IsSet(environ, k)) || (k == AuthTokenKey && Truthy(authToken)))
            && (forall k :: k in ApiKeys && k in env ==> env[k] == environ[k])
            && (AuthTokenKey in env ==> env[AuthTokenKey] == authToken.value)
            && (forall k :: k in env ==> env[k] != "")
            && (env == map[] <==> (forall i :: 0 <= i < |ApiKeys| ==> !IsSet(environ, ApiKeys[i])) && !Truthy(authToken))
  {
    var env := DroidEnv(environ, authToken);
    if env == map[] {
      forall i | 0 <= i < |ApiKeys|
        ensures !IsSet(environ, ApiKeys[i])
      {
        assert ApiKeys[i] !in env;
      }
    } else {
      var k :| k in env;
    }
  }

  /** The reasoning effort is used when it is non-empty and not `"off"`. */
  predicate EffortActive(effort: Option<string>)
  {
    Truthy(effort) && effort.value != "off"
  }

  /** The `--auto` level: the active effort, otherwise `high`. */
  function AutoLevel(effort: Option<string>): string
  {
    if EffortActive(effort) then effort.value else "high"
  }

  /** `droid_cmd_parts`: `droid exec -m <model> [-r <effort>] --auto <level> <instruction>`. */
  function DroidParts(droidModel: string, effort: Option<string>, quoted: string): (r: seq<string>)
    ensures |r| == if EffortActive(effort) then 9 else 7
    ensures r[..4] == ["droid", "exec", "-m", droidModel] && r[|r| - 1] == quoted
  {
    ["droid", "exec", "-m", droidModel]
    + (if EffortActive(effort) then ["-r", effort.value] else [])
    + ["--auto", AutoLevel(effort), quoted]
  }

  /** What a droid argument list asks for. */
  datatype DroidInvocation = DroidInvocation(model: string, effort: Option<string>, auto: string, instruction: string)

  /** Reads a droid argument list back, by position. */
  function ParseDroidParts(parts: seq<string>): Option<DroidInvocation>
  {
    if |parts| < 7 || parts[0] != "droid" || parts[1] != "exec" || parts[2] != "-m" then None
    else if |parts| == 7 && parts[4] == "--auto" then
      Some(DroidInvocation(parts[3], None, parts[5], parts[6]))
    else if |parts| == 9 && parts[4] == "-r" && parts[6] == "--auto" then
      Some(DroidInvocation(parts[3], Some(parts[5]), parts[7], parts[8]))
    else None
  }

  /** The argument list decodes back to the model, the effort exactly when it
      is active, the `--auto` level that equals the active effort and is
      `high` otherwise, and the quoted instruction as the last element. */
  lemma DroidPartsRoundTrip(droidModel: string, effort: Option<string>, quoted: string)
    ensures var p := ParseDroidParts(DroidParts(droidModel, effort, quoted));
            && p.Some? && p.value.model == droidModel && p.value.instruction == quoted
            && (p.value.effort.Some? <==> Truthy(effort) && effort.value != "off")
            && (p.value.effort.Some? ==> p.value.effort == effort && p.value.auto == effort.value)
            && (p.value.effort.None? ==> p.value.auto == "high")
    ensures var parts := DroidParts(droidModel, effort, quoted);
            ("-r" in parts <==> EffortActive(effort) || droidModel == "-r" || quoted == "-r")
  {
    var parts := DroidParts(droidModel, effort, quoted);
    if EffortActive(effort) {
      assert parts == ["droid", "exec", "-m", droidModel, "-r", effort.value, "--auto", effort.value, quoted];
    } else {
      assert parts == ["droid", "exec", "-m", droidModel, "--auto", "high", quoted];
    }
  }

  class FactoryDroidAgent {
    /** `FACTORY_AUTH_TOKEN` as found at construction. */
    const authToken: Option<string>
    const droidModel: string
    const reasoningEffort: Option<string>
    const timeoutSeconds: int
    /** The instruction of the last `CreateRunAgentCommands`, used by the metrics. */
    var lastInstruction: Option<string>

    /** `__init__`: read the auth token and choose the Factory model id. */
    constructor (modelName: Option<string>, kwargs: DroidKwargs, environ: Env)
      ensures authToken == Get(environ, AuthTokenKey)
      ensures droidModel == DroidModelId(ShortModel(modelName, kwargs.droidModel))
      ensures reasoningEffort == kwargs.reasoningEffort && timeoutSeconds == kwargs.timeoutSeconds
      ensures lastInstruction == None
    {
      authToken := Get(environ, AuthTokenKey);
      var shortModel := ShortModel(modelName, kwargs.droidModel);
      droidModel := DroidModelId(shortModel);
      reasoningEffort := kwargs.reasoningEffort;
      timeoutSeconds := kwargs.timeoutSeconds;
      lastInstruction := None;
    }

    /** `create_run_agent_commands`: record the instruction and build the four
        commands (session directory, auth check, main run, status). */
    method CreateRunAgentCommands(instruction: string, environ: Env, quote: string -> string)
      returns (commands: seq<ExecInput>)
      modifies this`lastInstruction
      ensures lastInstruction == Some(instruction)
      ensures |commands| == 4
      ensures forall i :: 0 <= i < |commands| ==>
                commands[i].env == EnvOrNone(DroidEnv(environ, authToken)) && commands[i].cwd == Workspace
      ensures commands[0].step == MakeDir(SessionDir) && commands[0].timeoutSec == None
      ensures commands[1].step == CheckAuth && commands[1].timeoutSec == None
      ensures commands[2].step == RunAgent(DroidParts(droidModel, reasoningEffort, quote(instruction)), timeoutSeconds)
      ensures commands[2].timeoutSec == Some(timeoutSeconds + 60)
      ensures commands[3].step == ReportStatus && commands[3].timeoutSec == None
    {
      lastInstruction := Some(instruction);
      var escaped := quote(instruction);

      var envVars: Env := map[];
      var factoryKey := Get(environ, "FACTORY_API_KEY");
      if Truthy(factoryKey) {
        envVars := envVars["FACTORY_API_KEY" := factoryKey.value];
      }
      var anthropicKey := Get(environ, "ANTHROPIC_API_KEY");
      if Truthy(anthropicKey) {
        envVars := envVars["ANTHROPIC_API_KEY" := anthropicKey.value];
      }
      var openaiKey := Get(environ, "OPENAI_API_KEY");
      if Truthy(openaiKey) {
        envVars := envVars["OPENAI_API_KEY" := openaiKey.value];
      }
      if Truthy(authToken) {
        envVars := envVars[AuthTokenKey := authToken.value];
      }
      assert envVars == DroidEnv(environ, authToken);
      var env := if envVars != map[] then Some(envVars) else None;

      commands := [ExecInput(MakeDir(SessionDir), env, Workspace, None)];
      commands := commands + [ExecInput(CheckAuth, env, Workspace, None)];

      var parts := ["droid", "exec"];
      parts := parts + ["-m", droidModel];
      if Truthy(reasoningEffort) && reasoningEffort.value != "off" {
        parts := parts + ["-r", reasoningEffort.value];
      }
      var autoLevel := if Truthy(reasoningEffort) && reasoningEffort.value != "off" then reasoningEffort.value else "high";
      parts := parts + ["--auto", autoLevel];
      parts := parts + [escaped];

      commands := commands + [ExecInput(RunAgent(parts, timeoutSeconds), env, Workspace, Some(timeoutSeconds + 60))];
      commands := commands + [ExecInput(ReportStatus, env, Workspace, None)];
    }

    /** `populate_context_post_run`: the main log (`log`) and the stdout of
        the first commands (`stdouts`, by command index) are given. */
    method PopulateContextPostRun(log: MainLog, stdouts: map<int, string>, context: AgentContext)
      modifies context
      ensures context.nCacheTokens == old(context.nCacheTokens)
      ensures (match DroidPostRunOf(droidModel, reasoningEffort, lastInstruction, log, stdouts)
        case NoChange =>
          context.metadata == old(context.metadata)
          && context.nInputTokens == old(context.nInputTokens)
          && context.nOutputTokens == old(context.nOutputTokens)
          && context.costUsd == old(context.costUsd)
        case MetadataOnly(m) =>
          context.metadata == Some(m)
          && context.nInputTokens == old(context.nInputTokens)
          && context.nOutputTokens == old(context.nOutputTokens)
          && context.costUsd == old(context.costUsd)
        case Estimated(nIn, nOut, cost, m) =>
          context.nInputTokens == nIn && context.nOutputTokens == nOut
          && context.costUsd == cost && context.metadata == Some(m))
    {
      match log {
        case Read(content) =>
          EstimateFromLog(content, context);
        case Unreadable(e) =>
          context.metadata := Some(DroidParseError(e, droidModel));
        case Absent =>
          SampleCommandOutput(stdouts, context);
      }
    }

    /** The estimates and the summary for a readable log. */
    method EstimateFromLog(content: string, context: AgentContext)
      modifies context
      ensures context.nInputTokens == InputEstimate(lastInstruction)
      ensures context.nOutputTokens == OutputEstimate(content)
      ensures context.costUsd == EstimatedCost(InputEstimate(lastInstruction), OutputEstimate(content), droidModel)
      ensures context.metadata == Some(DroidSummary(droidModel, reasoningEffort, Contains(content, SessionMarker),
                                                    |SplitOn(content, '\n')|, FirstErrors(SplitOn(content, '\n'))))
      ensures context.nCacheTokens == old(context.nCacheTokens)
    {
      var lines := SplitOn(content, '\n');
      var estimatedTokens := |content| / 4;
      var approxInputTokens := InputEstimate(lastInstruction);
      var approxOutputTokens := if estimatedTokens > 0 then Some(estimatedTokens) else None;
      context.nInputTokens := approxInputTokens;
      context.nOutputTokens := approxOutputTokens;
      var rate := RateFor(droidModel);
      var totalTokens := OrZero(approxInputTokens) + OrZero(approxOutputTokens);
      context.costUsd := if totalTokens != 0 then Some((totalTokens as real / 1000.0) * rate) else None;
      var success := Contains(content, SessionMarker);
      var errorLines := ErrorLines(lines);
      var errors := if errorLines != [] then Some(errorLines[..if |errorLines| < MaxErrors then |errorLines| else MaxErrors]) else None;
      context.metadata := Some(DroidSummary(droidModel, reasoningEffort, success, |lines|, errors));
    }

    /** Without a main log: sample the first non-empty stdout of commands 0 to 4. */
    method SampleCommandOutput(stdouts: map<int, string>, context: AgentContext)
      modifies context
      ensures FirstStdout(stdouts, 0).None? ==> unchanged(context)
      ensures FirstStdout(stdouts, 0).Some? ==>
                context.metadata == Some(DroidNoMainOutput(Sample(stdouts[FirstStdout(stdouts, 0).value]), droidModel))
                && context.nInputTokens == old(context.nInputTokens)
                && context.nOutputTokens == old(context.nOutputTokens)
                && context.nCacheTokens == old(context.nCacheTokens)
                && context.costUsd == old(context.costUsd)
    {
      var i := 0;
      while i < StdoutProbes
        invariant 0 <= i <= StdoutProbes
        invariant FirstStdout(stdouts, 0) == FirstStdout(stdouts, i)
        invariant unchanged(context)
      {
        if i in stdouts {
          var content := stdouts[i];
          if content != "" {
            context.metadata := Some(DroidNoMainOutput(Sample(content), droidModel));
            return;
          }
        }
        i := i + 1;
      }
    }
  }

  /** `CreateRunAgentCommands` records `Some(instruction)` as the last
      instruction, and `PopulateContextPostRun` reads it: with a readable
      main log, the input estimate is present exactly when that instruction
      is non-empty, and is a quarter of its length, at least 1. */
  lemma InstructionDrivesInputEstimate(droidModel: string, reasoningEffort: Option<string>,
                                       instruction: string, content: string, stdouts: map<int, string>)
    ensures var r := DroidPostRunOf(droidModel, reasoningEffort, Some(instruction), Read(content), stdouts);
      r.Estimated? && (r.nIn.Some? <==> instruction != "")
    ensures var r := DroidPostRunOf(droidModel, reasoningEffort, Some(instruction), Read(content), stdouts);
      instruction != "" ==> r.nIn == Some(if |instruction| >= 4 then |instruction| / 4 else 1)
  {
  }
}
