# harbor-tbench adapters, modelled in Dafny

This project models the two custom agents of harbor-tbench, which adapt
third-party coding CLIs to the Harbor benchmark harness:

- **pi-mono** (`custom_agents/pi_mono_agent.py`).
  - The constructor resolves a provider and a model from the harness `model_name`, checks the provider against a seven-entry allow-list, and picks a pi model id with keyword rules.
  - `_normalize_model_id` strips a redundant `provider/` prefix.
  - `create_run_agent_commands` selects the forwarded API keys, builds the `pi` argument list and lists the commands (session directory, main run, JSON extraction in json mode, status).
  - `populate_context_post_run` sums the token usage of the assistant's `message_end` events in pi's JSON-lines log. When the log reports no tokens it falls back to a size estimate. It then decides the success flag from the first 20 lines.
- **Factory Droid** (`custom_agents/factory_droid.py`).
  - The constructor picks a short model name with keyword rules and maps it to a Factory model id.
  - `create_run_agent_commands` records the instruction on the agent object, selects the forwarded keys and builds the `droid exec` argument list and the four commands.
  - `populate_context_post_run` estimates tokens from text lengths, detects the session marker, and keeps the first five error lines. Without a main log it samples the first non-empty command stdout.
  - `setup` patches the `config.json` placeholders for the OpenAI and Ollama keys.

Modules, one per concern:

- `Wrappers`: `Option` and `Result`.
- `Text`: the string operations the adapters use.
  - `in` becomes `Contains`.
  - `lower` is ASCII-only.
  - `strip` uses Python's whitespace set.
  - Also `split("/", 1)`, `split("\n")` with its inverse `join`, and `replace`.
- `Harbor`:
  - the process environment, as an explicit map;
  - the `ExecInput` command descriptor;
  - the metadata shapes;
  - the `AgentContext` result record, a class whose fields the adapters assign.
- `Keywords`: ordered keyword tables. They are an independent restatement of the adapters' if/elif chains, and lemmas prove that each chain and its table agree.
- `PiMonoConfig`, `PiMonoCommands`, `PiMonoUsage`: the pi-mono adapter. The pi agent never changes after construction, so it is a datatype built by `Init`, which returns a `Result` carrying the constructor's `ValueError`s.
- `DroidConfig`, `DroidMetrics`, `DroidAgent`, `DroidSetup`: the Factory Droid adapter. The agent is a class, because building the commands updates `lastInstruction`, which the post-run metrics read.

The loops of the source are methods with loop invariants, each proved against a specification function:

- the key-selection loops with `break` (`PiMonoCommands.SelectEnv`);
- the usage accumulation (`PiMonoUsage.AccumulateUsage`, whose invariant is that the totals equal the recursive sum `Accumulate` over the lines read so far);
- the fallback character count (`PiMonoUsage.CountContentChars`);
- the stdout probe (`DroidAgent.FactoryDroidAgent.SampleCommandOutput`).

Properties are then proved about those functions.

The rate lookup in `populate_context_post_run` of the droid agent uses the Factory model id. Its entries keyed by short names (`sonnet`, `opus`, `haiku`) therefore never apply to a model that came through the id map. `DroidMetrics.MappedModelsUseDefaultRate` states this, and the model keeps that behaviour as written.

## Model

| member | source | states |
|---|---|---|
| PiMonoConfig.NormalizeModelId | custom_agents/pi_mono_agent.py:108-114 | The result is `None` exactly when the model is; it is never longer than the model; a falsy model or one without `/` is returned unchanged |
| PiMonoConfig.NormalizeSplitsAtFirstSlash | custom_agents/pi_mono_agent.py:108-114 | For `prefix/rest` with a `/`-free prefix, the result is `rest` exactly when the prefix equals the provider case-insensitively, and the model unchanged otherwise |
| PiMonoConfig.NormalizeIdempotent | custom_agents/pi_mono_agent.py:108-114 | Normalising twice equals normalising once when no `/` follows the first one |
| PiMonoConfig.NormalizeOpenAiExample | custom_agents/pi_mono_agent.py:96-98 | `openai/gpt-5.1-codex` with provider `openai` becomes `gpt-5.1-codex` |
| PiMonoConfig.ResolveProviderModel | custom_agents/pi_mono_agent.py:36-43 | Fails exactly when no provider is given and the model name is missing, empty or has no `/`. Without a provider, the provider is the text before the first `/`. With one, it is that provider. The model is the text after the first `/` of a qualified name, and otherwise the name itself, `""` for `None` |
| PiMonoConfig.Init | custom_agents/pi_mono_agent.py:25-98 | A constructed agent's provider is in the allow-list; output mode, session flag and timeout are the keyword arguments |
| PiMonoConfig.ClaudeModel | custom_agents/pi_mono_agent.py:64-70 | A Claude id is chosen exactly when haiku, opus or sonnet occurs, haiku first; otherwise nothing is chosen |
| PiMonoConfig.GptModel | custom_agents/pi_mono_agent.py:71-89 | The result is always one of the seven GPT ids, and `gpt-5.1-codex-mini` whenever that keyword occurs |
| PiMonoConfig.MapModel | custom_agents/pi_mono_agent.py:62-94 | Nothing is chosen exactly for a Claude name without a keyword. Any choice is a Claude id, a GPT id, the Gemini id or the model itself, and a name that is neither Claude, GPT nor Gemini is kept |
| PiMonoConfig.InitWithoutProvider | custom_agents/pi_mono_agent.py:36-40 | Without a provider argument, a missing, empty or `/`-free model name is refused; `p/m` with `/`-free `p` resolves to exactly `(p, m)` |
| PiMonoConfig.InitChecksProvider | custom_agents/pi_mono_agent.py:37-59 | A provider outside the allow-list is refused with that provider named; an allowed one is kept; construction fails exactly in these two cases |
| PiMonoConfig.ProviderMapIsIdentity | custom_agents/pi_mono_agent.py:46-59 | The provider map has exactly the seven allowed names and maps each to itself |
| PiMonoConfig.GptModelFollowsTable | custom_agents/pi_mono_agent.py:71-89 | The GPT chain returns the id of the first table rule one of whose keywords occurs, and `gpt-4o` when none does |
| PiMonoConfig.ClaudeModelFollowsTable | custom_agents/pi_mono_agent.py:64-70 | The Claude chain returns the first of haiku, opus, sonnet that occurs, and nothing when none does |
| PiMonoConfig.GptPrecedence | custom_agents/pi_mono_agent.py:72-77 | A name holding `5.1-codex-mini` also holds `5.1-codex` and `5.1`, and gets `gpt-5.1-codex-mini` |
| PiMonoConfig.GptCodexBeforePlain | custom_agents/pi_mono_agent.py:74-77 | `5.1-codex` without `-mini` gets `gpt-5.1-codex`, although `5.1` occurs too |
| PiMonoConfig.MapModelFallbacks | custom_agents/pi_mono_agent.py:62-94 | An unmatched GPT name gives `gpt-4o`; a Claude name without keyword gives nothing; a name that is neither Claude, GPT nor Gemini is used as given |
| PiMonoConfig.MapModelFollowsTables | custom_agents/pi_mono_agent.py:62-90 | A Claude name takes the first Claude rule that fires (none if none fires). Otherwise a GPT name takes the first GPT rule that fires, or `gpt-4o`. Otherwise a Gemini name takes `gemini-2.0-flash-exp` |
| PiMonoConfig.InitPicksCodexMini | custom_agents/pi_mono_agent.py:34-98 | A name `provider/model` given without a provider or pi model, whose model mentions `gpt` and `5.1-codex-mini` but not `claude`, builds an agent for that provider with pi model `gpt-5.1-codex-mini` |
| PiMonoConfig.InitPiModel | custom_agents/pi_mono_agent.py:61-98 | An explicit pi model is only normalised, never replaced; an unmatched Claude name leaves the pi model as given; otherwise the mapped model is normalised |
| Keywords.FirstMatch | custom_agents/pi_mono_agent.py:64-94 | The result is the id of the first rule that fires, and the default when none fires |
| Keywords.FirstMatchShadows | custom_agents/pi_mono_agent.py:72-85 | When rule `i` fires, the chosen id is that of rule `i` or of an earlier rule |
| PiMonoCommands.ApiKeyNames | custom_agents/pi_mono_agent.py:173-184 | A provider has an API-key list exactly when it is in the allow-list |
| PiMonoCommands.FirstSetIndex | custom_agents/pi_mono_agent.py:185-189 | The index found is the first key whose value is non-empty: all before it are unset, and it is set unless it is past the end |
| PiMonoCommands.ProviderKeyIsFirstSet | custom_agents/pi_mono_agent.py:184-189 | The forwarded provider key is one of the provider's keys with a non-empty value, and no earlier key has one; no key is forwarded only when none is set |
| PiMonoCommands.AddIfAbsentContents | custom_agents/pi_mono_agent.py:192-194 | The pass-through keeps existing entries and adds exactly the listed keys present in the environment, copying their values |
| PiMonoCommands.OverlayContents | custom_agents/pi_mono_agent.py:197-206 | The OpenAI context loop adds exactly the listed keys present in the environment, copying their values |
| PiMonoCommands.PiEnv | custom_agents/pi_mono_agent.py:170-206 | Every forwarded value is copied from the process environment, and the chosen provider key is forwarded |
| PiMonoCommands.PiEnvContents | custom_agents/pi_mono_agent.py:170-206 | The forwarded environment holds only values from the process environment, and exactly the first set provider key, the present common keys and the present OpenAI context keys |
| PiMonoCommands.SelectEnv | custom_agents/pi_mono_agent.py:170-206 | The three loops build exactly `PiEnv` |
| PiMonoCommands.PiParts | custom_agents/pi_mono_agent.py:220-237 | The list starts with `pi` and ends with the quoted instruction. Its length counts two elements per set provider and model flag, two for `--mode`, one for `--no-session` in ephemeral mode and one for the instruction |
| PiMonoCommands.PiPartsRoundTrip | custom_agents/pi_mono_agent.py:220-237 | Parsing the parts by position recovers the provider and model flags exactly when they are set, the mode, `--no-session` exactly in ephemeral mode, and the quoted instruction as the last element |
| PiMonoCommands.CreateRunAgentCommands | custom_agents/pi_mono_agent.py:208-291 | 4 commands in json mode and 3 otherwise. Each has the same env (`None` when empty) and cwd `/workspace`. The order is mkdir, main run with `timeout_sec` = timeout + 60, JSON extraction only in json mode, status last |
| PiMonoUsage.LineEffect | custom_agents/pi_mono_agent.py:327-357 | A line raises exactly when its decoded `message_end` has a non-object `message`, or its assistant `usage` is not an object or holds a non-numeric count or cost. It adds exactly when it is a stripped `{` line decoding to an assistant `message_end` with usage that does not raise, and then adds that usage with missing fields as 0. Every other line is skipped |
| PiMonoUsage.BracedIsCandidate | custom_agents/pi_mono_agent.py:328-330 | A line that is `{...}` without surrounding whitespace is decoded |
| PiMonoUsage.AccumulateAppend | custom_agents/pi_mono_agent.py:326-354 | The totals of a log are the sum of the totals of its two parts, and a raise in either part aborts |
| PiMonoUsage.AccumulateSnoc | custom_agents/pi_mono_agent.py:326-354 | One more line applies that line's effect to the running totals |
| PiMonoUsage.SkippedLineIrrelevant | custom_agents/pi_mono_agent.py:328-356 | A skipped line can be removed from the log without changing the totals |
| PiMonoUsage.AccumulateFailsIff | custom_agents/pi_mono_agent.py:332-356 | The parse aborts exactly when some line raises |
| PiMonoUsage.AccumulateWithoutMessageEnd | custom_agents/pi_mono_agent.py:335-339 | A log without `message_end` events sums to zero |
| PiMonoUsage.AccumulateNonNegative | custom_agents/pi_mono_agent.py:344-347 | Non-negative counts in every usage event give non-negative totals |
| PiMonoUsage.AccumulateIsUsageSum | custom_agents/pi_mono_agent.py:326-354 | When no line raises, each total is the sum of its `usage` field over the usage events of the log |
| PiMonoUsage.CostFormsBothAdd | custom_agents/pi_mono_agent.py:349-354 | A bare-number cost and a `{"total": x}` cost are both added to the total cost |
| PiMonoUsage.ContentCharsOf | custom_agents/pi_mono_agent.py:375-383 | A line adds characters only when its raw text mentions both the assistant role and a content field and it decodes (its stripped text starts with `{`) to a message with content, and then adds exactly the content length |
| PiMonoUsage.ApplyLine | custom_agents/pi_mono_agent.py:327-354 | One iteration raises exactly on a raising line, leaves the totals on a skipped line, and adds the line's usage otherwise |
| PiMonoUsage.AccumulateUsage | custom_agents/pi_mono_agent.py:319-354 | The loop succeeds exactly when `Accumulate` does, with its totals |
| PiMonoUsage.CountContentChars | custom_agents/pi_mono_agent.py:366-378 | The second pass counts exactly `ContentChars`, the lengths of assistant contents on lines mentioning both the role and a content field |
| PiMonoUsage.PostRunTokens | custom_agents/pi_mono_agent.py:357-387 | The reported counts are the log's totals when it reports tokens. Otherwise input is 500 and output is `max(chars // 4, 100)`. Cache tokens are the cache-read total |
| PiMonoUsage.PostRunOf | custom_agents/pi_mono_agent.py:293-433 | Only metadata is written exactly when the log is missing or some line raises. When counts are written, input and output are never both 0 |
| PiMonoUsage.PostRunSuccess | custom_agents/pi_mono_agent.py:404-416 | Success holds exactly when the first 20 lines are clean and the log's own output total is positive. So success implies real usage, and a fallback estimate is never a success |
| PiMonoUsage.PostRunErrors | custom_agents/pi_mono_agent.py:308-316 | A missing log gives the no-output metadata only; a raising line gives the parse-failure metadata only |
| PiMonoUsage.PopulateContextPostRun | custom_agents/pi_mono_agent.py:293-433 | The context fields are set as `PostRunOf` says; on the metadata-only paths the counts are left as they were |
| DroidConfig.ShortModel | custom_agents/factory_droid.py:61-73 | The short name is the default or a key of the id map; without a qualified model name it is the default |
| DroidConfig.ShortModelOfQualified | custom_agents/factory_droid.py:62-73 | For `provider/model` the short name is: the first of haiku, opus, sonnet by the table for `anthropic`; `gpt-5` exactly when `gpt-5` occurs for `openai`; the default for any other provider |
| DroidConfig.AnthropicShortModel | custom_agents/factory_droid.py:64-70 | A short name is chosen exactly when haiku, opus or sonnet occurs, haiku first, and it is always a key of the id map |
| DroidConfig.AnthropicShortModelFollowsTable | custom_agents/factory_droid.py:64-70 | The haiku, opus, sonnet chain agrees with its ordered table |
| DroidConfig.DroidModelId | custom_agents/factory_droid.py:51-76 | A short name the map knows becomes one of the four Factory ids, `haiku` and `sonnet` both the sonnet id; any other name is kept; the result is a Factory id exactly when the name is a map key or already a Factory id |
| DroidConfig.DroidModelIdIdempotent | custom_agents/factory_droid.py:51-76 | Mapping an already mapped name changes nothing |
| DroidAgent.DroidEnvContents | custom_agents/factory_droid.py:213-231 | The env holds exactly the three API keys that are set and the auth token when non-empty, with their values, never an empty value; it is empty exactly when none of them is set |
| DroidAgent.DroidEnv | custom_agents/factory_droid.py:213-231 | Only the three API keys and the auth token can appear, and never with an empty value |
| DroidAgent.DroidPartsRoundTrip | custom_agents/factory_droid.py:264-283 | Parsing the parts recovers the model. `-r` appears exactly for a non-empty effort other than `off`. The `--auto` level is that effort, and `high` otherwise. The quoted instruction is last |
| DroidAgent.DroidParts | custom_agents/factory_droid.py:264-283 | The list starts `droid exec -m <model>` and ends with the quoted instruction. It has 9 elements when the effort is active and 7 otherwise |
| DroidAgent.FactoryDroidAgent.constructor | custom_agents/factory_droid.py:44-81 | The auth token is read from the environment; the model is the mapped short model; no instruction is recorded yet |
| DroidAgent.FactoryDroidAgent.CreateRunAgentCommands | custom_agents/factory_droid.py:196-316 | Records the instruction. Builds exactly four commands: mkdir, auth check, main run, status. All share one env (`None` when empty) and cwd `/workspace`. The main run carries the droid parts and `timeout_sec` = timeout + 60 |
| DroidAgent.FactoryDroidAgent.PopulateContextPostRun | custom_agents/factory_droid.py:318-416 | The context is set as `DroidPostRunOf` says; cache tokens are never touched and nothing at all changes when no output is found |
| DroidAgent.FactoryDroidAgent.EstimateFromLog | custom_agents/factory_droid.py:334-388 | A readable log sets the estimates, the cost and the summary |
| DroidAgent.FactoryDroidAgent.SampleCommandOutput | custom_agents/factory_droid.py:404-416 | The probe loop writes the sample of the first non-empty stdout among commands 0 to 4, and changes nothing when there is none |
| DroidAgent.InstructionDrivesInputEstimate | custom_agents/factory_droid.py:349-352 | With the instruction that `CreateRunAgentCommands` records and a readable main log, the post-run input estimate exists exactly when the instruction is non-empty, and is `len // 4`, at least 1 |
| DroidMetrics.InputEstimate | custom_agents/factory_droid.py:349-352 | Present exactly for a truthy instruction, at least 1, and a quarter of the length rounded down once the length is at least 4 |
| DroidMetrics.OutputEstimate | custom_agents/factory_droid.py:343-355 | Present exactly when the log has at least 4 characters, and then a quarter of its length rounded down |
| DroidMetrics.ErrorLines | custom_agents/factory_droid.py:374-378 | The filter keeps exactly the lines that mention an error or a failure, case-insensitively |
| DroidMetrics.ErrorLinesAppend | custom_agents/factory_droid.py:374-378 | The filter distributes over concatenation, so it keeps the log order |
| DroidMetrics.FirstErrors | custom_agents/factory_droid.py:374-387 | `None` exactly when no line is an error line; otherwise 1 to 5 lines taken from the front of the filtered lines |
| DroidMetrics.FirstErrorsSpec | custom_agents/factory_droid.py:374-387 | `errors` is `None` exactly when no line is an error line. Otherwise it holds 1 to 5 lines: a prefix of the filtered lines, and all of them when there are fewer than five |
| DroidMetrics.FirstErrorsKeepsEarlyErrors | custom_agents/factory_droid.py:374-387 | An error line preceded by fewer than five error lines is reported |
| DroidMetrics.Sample | custom_agents/factory_droid.py:413 | The sample is the prefix of the stdout: all of it when it has at most 500 characters, exactly its first 500 otherwise |
| DroidMetrics.FirstStdout | custom_agents/factory_droid.py:405-416 | Finds the first probed index, below 5, whose stdout exists and is non-empty; finds none exactly when there is no such index |
| DroidMetrics.DroidPostRunOf | custom_agents/factory_droid.py:318-416 | Estimates are written exactly for a readable log. Nothing changes only without a main log. A metadata-only outcome is the read failure or the stdout sample, and names the agent's model |
| DroidMetrics.DroidEstimates | custom_agents/factory_droid.py:343-368 | For a readable log: input tokens exist exactly for a truthy instruction, and output tokens exactly for a log of at least 4 characters. The cost is absent exactly when both are absent, and is otherwise the total over 1000 times the model's rate |
| DroidMetrics.DroidSummaryFields | custom_agents/factory_droid.py:339-388 | Success holds exactly when the log contains the session marker. The line count is that of `split("\n")`: at least 1, and the lines join back to the log |
| DroidMetrics.DroidWithoutMainLog | custom_agents/factory_droid.py:401-416 | Without a main log, nothing changes exactly when all five stdouts are missing or empty; otherwise the first non-empty one is sampled |
| DroidMetrics.MappedModelsUseDefaultRate | custom_agents/factory_droid.py:358-366 | Each Factory id the map produces is priced at the default 0.003 |
| DroidSetup.PatchConfig | custom_agents/factory_droid.py:145-155 | With neither key set, or with neither placeholder present, the config is unchanged |
| DroidSetup.PatchFillsSlots | custom_agents/factory_droid.py:145-155 | For a config cut into any number of placeholders of both kinds and plain text in which no `${` opens (other `$`, as in `"$schema"`, allowed), every placeholder whose key is set becomes that key, every other placeholder stays, and all other text is unchanged (given an OpenAI key that opens no `${`) |
| DroidSetup.PatchSchemaExample | custom_agents/factory_droid.py:148-151 | A config holding a `"$schema"` key and the OpenAI placeholder gets the key substituted and keeps `$schema` |
| DroidSetup.PatchFirstOpenAiPlaceholder | custom_agents/factory_droid.py:148-151 | The text before the first `${` is kept. The OpenAI placeholder after it becomes the key when the key is set, and stays when it is not |
| DroidSetup.PatchOrder | custom_agents/factory_droid.py:148-155 | The OpenAI substitution runs before the Ollama one, so an OpenAI key holding the Ollama placeholder is resolved further |
| Text.JoinSplit | custom_agents/factory_droid.py:339 | Joining the lines of `split("\n")` with `\n` gives back the text |
| Text.Replace | custom_agents/factory_droid.py:148-155 | Text without the pattern is returned unchanged |

## Left out

- File reads, `Path.exists` and the log-path fallbacks. The pi log arrives as an already-read `Option<seq<Line>>`, with `None` meaning no file. The droid main log is `Absent`, `Unreadable(message)` or `Read(content)`, and the command stdouts are a map from command index to content.
- The pi log's two candidate paths, and which file was found, are not modelled. Nor is the fact that the error scan reads the file a third time.
- `json.loads` is not modelled. Each log line carries its decoded value: malformed, or an object with the fields the loop reads.
- The text of the caught exception in pi's parse-failure metadata is not modelled. The droid's read-failure message is an opaque parameter.
- `shlex.quote` is a parameter `quote: string -> string`. No shell-level property of it is claimed. The shell text of the commands is not modelled either: the auth check, the inline Python JSON extraction, the status echo, `tee` and the `|| echo` fallbacks. The main run keeps its argument list and its `timeout` value.
- `os.environ` is an explicit map parameter.
- For the auth token, the droid constructor reads the environment it is given.
- The async `setup` of both agents is not modelled: uploading the pi bundle, running the installer, and the droid loop over `auth.json`, `settings.json` and `config.json` with its `uploaded_count`. These are I/O against the container. Only the text substitution applied to `config.json` is modelled.
- The temporary file and the fallback to the unpatched config when patching raises are not modelled.
- Logging, `name()`, `version()`, the install template paths and `_template_variables` are not modelled.
- Costs are exact `real` numbers, so floating-point rounding is not modelled.
- Token counts are integers. In pi's accumulation a float count from the log would make the Python totals floats; the model's `Count` holds integers only.
- `Text.Lower` lowers ASCII letters only, whereas Python's `lower()` is Unicode.
- PiMonoUsage.ContentCharsOf: `str()` of a non-string content is taken as already rendered. The model does not compute Python's `repr` of lists or dicts.
- PiMonoUsage.LineEffect: a decoded usage count is either an integer, missing, or a value that raises on `+=`. Booleans, which Python adds as 0 or 1, are not distinguished.
- `custom_agents/__init__.py` is only a re-export.
- DroidSetup.PatchFillsSlots: stated for plain text in which every `$` is followed by a character other than `{`, and for an OpenAI key of that kind. Plain text that spells a placeholder across two pieces, or a key that itself holds the Ollama placeholder, is substituted by a later scan; `DroidSetup.PatchOrder` states the key case separately.
