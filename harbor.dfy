/** The few pieces of the harness both adapters talk to: the process
    environment, the command descriptors an adapter hands back (`ExecInput`),
    and the result record it fills in after the run (`AgentContext`). */
module Harbor {
  import opened Wrappers
  import opened Text

  /** The process environment (`os.environ`), passed in explicitly. */
  type Env = map<string, string>

  /** `os.environ.get(key)`. */
  function Get(environ: Env, key: string): Option<string>
  {
    if key in environ then Some(environ[key]) else None
  }

  /** Python truthiness of an optional string: present and non-empty. */
  predicate Truthy(s: Option<string>)
  {
    s.Some? && s.value != ""
  }

  /** `os.environ.get(key)` is truthy. */
  predicate IsSet(environ: Env, key: string)
  {
    key in environ && environ[key] != ""
  }

  /** What a command does. The shell text of each command is not modelled;
      the main run keeps its argument list and its `timeout N` prefix. */
  datatype Step =
    | MakeDir(path: string)
    | CheckAuth
    | RunAgent(parts: seq<string>, shellTimeout: int)
    | ExtractJson
    | ReportStatus

  /** One command descriptor (`ExecInput`). */
  datatype ExecInput = ExecInput(step: Step, env: Option<Env>, cwd: string, timeoutSec: Option<int>)

  const Workspace := "/workspace"

  /** `env_vars if env_vars else None`. */
  function EnvOrNone(env: Env): Option<Env>
  {
    if env == map[] then None else Some(env)
  }

  /** The error scan both adapters apply to a log line: `"error"` or
      `"failed"` occurs in its lower-cased text. */
  predicate IsErrorLine(line: string)
  {
    Contains(Lower(line), "error") || Contains(Lower(line), "failed")
  }

  /** The metadata dictionaries the adapters write, one constructor per shape.
      The text of a caught exception is an opaque string. */
  datatype Metadata =
    | PiNoOutputFile(provider: string, model: string)
    | PiParseFailed(provider: string, model: string)
    | PiSummary(provider: string, model: string, outputMode: string, success: bool,
                sessionSaved: bool, actualApiUsage: bool)
    | DroidSummary(droidModel: string, reasoningEffort: Option<string>, success: bool,
                   outputLines: nat, errors: Option<seq<string>>)
    | DroidNoMainOutput(commandOutputSample: string, droidModel: string)
    | DroidParseError(error: string, droidModel: string)

  /** The result record the harness hands to `populate_context_post_run`. */
  class AgentContext {
    var nInputTokens: Option<int>
    var nOutputTokens: Option<int>
    var nCacheTokens: Option<int>
    var costUsd: Option<real>
    var metadata: Option<Metadata>

    constructor ()
      ensures nInputTokens == None && nOutputTokens == None && nCacheTokens == None
      ensures costUsd == None && metadata == None
    {
      nInputTokens, nOutputTokens, nCacheTokens := None, None, None;
      costUsd, metadata := None, None;
    }
  }
}
