/** The metrics `FactoryDroidAgent.populate_context_post_run` derives from the
    droid log (custom_agents/factory_droid.py): the CLI reports no usage, so
    token counts are estimated from text lengths (4 characters per token),
    the success flag is a marker search, and up to five error lines are kept. */
module DroidMetrics {
  import opened Wrappers
  import opened Text
  import opened Harbor

  /** Input tokens: a quarter of the recorded instruction's length, at least
      1; `None` when no (or an empty) instruction was recorded. */
  function InputEstimate(instruction: Option<string>): (r: Option<int>)
    ensures r.Some? <==> Truthy(instruction)
    ensures r.Some? ==> r.value >= 1 && 4 * r.value <= |instruction.value| + 3
    ensures r.Some? && |instruction.value| >= 4 ==>
              4 * r.value <= |instruction.value| < 4 * r.value + 4
  {
    if Truthy(instruction) then
      var q := |instruction.value| / 4;
      Some(if q >= 1 then q else 1)
    else None
  }

  /** Output tokens: a quarter of the log's length, `None` when that is 0. */
  function OutputEstimate(content: string): (r: Option<int>)
    ensures r.Some? <==> |content| >= 4
    ensures r.Some? ==> r.value >= 1 && 4 * r.value <= |content| < 4 * r.value + 4
  {
    var q := |content| / 4;
    if q > 0 then Some(q) else None
  }

  /** `cost_per_1k_tokens.get(self.droid_model, 0.003)`. */
  function RateFor(droidModel: string): real
  {
    match droidModel
    case "sonnet" => 0.003
    case "opus" => 0.015
    case "haiku" => 0.0008
    case "GPT-5" => 0.01
    case "droid-core" => 0.002
    case _ => 0.003
  }

  /** `x or 0` for an optional count. */
  function OrZero(x: Option<int>): int
  {
    if x.Some? then x.value else 0
  }

  /** The cost of all estimated tokens at the model's rate; `None` when the
      total is 0. */
  function EstimatedCost(nIn: Option<int>, nOut: Option<int>, droidModel: string): Option<real>
  {
    var total := OrZero(nIn) + OrZero(nOut);
    if total != 0 then Some((total as real / 1000.0) * RateFor(droidModel)) else None
  }

  /** The text whose presence in the log counts as success. */
  const SessionMarker := "Factory Droid Session Complete"

  /** The number of error lines the metadata keeps. */
  const MaxErrors := 5

  /** The lines that mention an error or a failure, in log order. */
  function ErrorLines(lines: seq<string>): (r: seq<string>)
    ensures |r| <= |lines|
    ensures forall x :: x in r <==> x in lines && IsErrorLine(x)
    decreases |lines|
  {
    if lines == [] then []
    else (if IsErrorLine(lines[0]) then [lines[0]] else []) + ErrorLines(lines[1..])
  }

  /** `error_lines[:5] if error_lines else None`: at most five error lines,
      taken from the front of the filtered lines. */
  function FirstErrors(lines: seq<string>): (r: Option<seq<string>>)
    ensures r.None? <==> ErrorLines(lines) == []
    ensures r.Some? ==> 1 <= |r.value| <= MaxErrors && r.value <= ErrorLines(lines)
  {
    var e := ErrorLines(lines);
    if e == [] then None else Some(e[..if |e| < MaxErrors then |e| else MaxErrors])
  }

  /** The droid log as found after the run. */
  datatype MainLog =
    | Absent                    // the file does not exist
    | Unreadable(error: string) // opening or reading it raised, with this message
    | Read(content: string)

  /** How many `command-<i>/stdout.txt` files are probed, and how much of one is kept. */
  const StdoutProbes := 5
  const SampleLength := 500

  /** `content[:500]`. */
  function Sample(s: string): (r: string)
    ensures |r| <= SampleLength && |r| <= |s| && r == s[..|r|]
    ensures |s| <= SampleLength ==> r == s
    ensures |s| > SampleLength ==> |r| == SampleLength
  {
    if |s| <= SampleLength then s else s[..SampleLength]
  }

  /** The first probed command, from `i` on, whose stdout exists and is not
      empty. `stdouts` maps a command index to its stdout (absent when the
      file does not exist). */
  function FirstStdout(stdouts: map<int, string>, i: nat): (r: Option<nat>)
    ensures r.None? <==> forall k :: i <= k < StdoutProbes ==> k !in stdouts || stdouts[k] == ""
    ensures r.Some? ==> i <= r.value < StdoutProbes && r.value in stdouts && stdouts[r.value] != ""
                        && forall k :: i <= k < r.value ==> k !in stdouts || stdouts[k] == ""
    decreases StdoutProbes - i
  {
    if i >= StdoutProbes then None
    else if i in stdouts && stdouts[i] != "" then Some(i)
    else FirstStdout(stdouts, i + 1)
  }

  /** What the post-run step writes into the context. */
  datatype DroidOutcome =
    | NoChange
    | MetadataOnly(metadata: Metadata)
    | Estimated(nIn: Option<int>, nOut: Option<int>, cost: Option<real>, metadata: Metadata)

  /** The post-run result for the agent's model, reasoning effort and
      recorded instruction. */
  function DroidPostRunOf(droidModel: string, reasoningEffort: Option<string>, lastInstruction: Option<string>,
                          log: MainLog, stdouts: map<int, string>): (r: DroidOutcome)
    ensures r.Estimated? <==> log.Read?
    ensures r.NoChange? ==> log.Absent?
    ensures r.MetadataOnly? ==> (r.metadata.DroidNoMainOutput? || r.metadata.DroidParseError?) && r.metadata.droidModel == droidModel
  {
    match log
    case Read(content) =>
      var lines := SplitOn(content, '\n');
      var nIn := InputEstimate(lastInstruction);
      var nOut := OutputEstimate(content);
      Estimated(nIn, nOut, EstimatedCost(nIn, nOut, droidModel),
                DroidSummary(droidModel, reasoningEffort, Contains(content, SessionMarker),
                             |lines|, FirstErrors(lines)))
    case Unreadable(e) => MetadataOnly(DroidParseError(e, droidModel))
    case Absent =>
      match FirstStdout(stdouts, 0)
      case None => NoChange
      case Some(i) => MetadataOnly(DroidNoMainOutput(Sample(stdouts[i]), droidModel))
  }

  // ---------------------------------------------------------------------------
  // Properties

  /** The error filter distributes over concatenation, so it keeps log order. */
  lemma {:induction false} ErrorLinesAppend(a: seq<string>, b: seq<string>)
    ensures ErrorLines(a + b) == ErrorLines(a) + ErrorLines(b)
    decreases |a|
  {
    if a == [] {
      assert a + b == b;
    } else {
      assert (a + b)[0] == a[0] && (a + b)[1..] == a[1..] + b;
      ErrorLinesAppend(a[1..], b);
    }
  }

  /** `errors` is `None` exactly when no line mentions an error; otherwise it
      holds the first (at most five) error lines, in order. */
  lemma FirstErrorsSpec(lines: seq<string>)
    ensures FirstErrors(lines).None? <==> forall i :: 0 <= i < |lines| ==> !IsErrorLine(lines[i])
    ensures FirstErrors(lines).Some? ==>
              var e := FirstErrors(lines).value;
              && 1 <= |e| <= MaxErrors
              && e == ErrorLines(lines)[..|e|]
              && (|e| < MaxErrors ==> e == ErrorLines(lines))
              && forall x :: x in e ==> x in lines && IsErrorLine(x)
  {
    var e := ErrorLines(lines);
    if e == [] {
      forall i | 0 <= i < |lines|
        ensures !IsErrorLine(lines[i])
      {
        assert lines[i] in lines;
      }
    } else {
      assert e[0] in e;
      var f := FirstErrors(lines).value;
      forall x | x in f
        ensures x in lines && IsErrorLine(x)
      {
        assert x in e;
      }
    }
  }

  /** An error line preceded by fewer than five error lines is reported. */
  lemma FirstErrorsKeepsEarlyErrors(a: seq<string>, line: string, b: seq<string>)
    requires IsErrorLine(line) && |ErrorLines(a)| < MaxErrors
    ensures FirstErrors(a + [line] + b).Some?
    ensures line in FirstErrors(a + [line] + b).value
  {
    ErrorLinesAppend(a + [line], b);
    ErrorLinesAppend(a, [line]);
    assert ErrorLines([line]) == [line] + ErrorLines([]);
    var e := ErrorLines(a + [line] + b);
    assert e[|ErrorLines(a)|] == line;
  }

  /** The estimates of a readable log, and when a cost is given. */
  lemma DroidEstimates(droidModel: string, effort: Option<string>, instruction: Option<string>,
                       content: string, stdouts: map<int, string>)
    ensures var r := DroidPostRunOf(droidModel, effort, instruction, Read(content), stdouts);
            && r.Estimated?
            && (r.nIn.Some? <==> Truthy(instruction))
            && (r.nOut.Some? <==> |content| >= 4)
            && (r.cost.None? <==> r.nIn.None? && r.nOut.None?)
            && (r.cost.Some? ==> r.cost.value == ((OrZero(r.nIn) + OrZero(r.nOut)) as real / 1000.0) * RateFor(droidModel))
  {
  }

  /** Success is the marker search, and the line count is that of
      `split("\n")`: at least one, and the lines join back to the log. */
  lemma DroidSummaryFields(droidModel: string, effort: Option<string>, instruction: Option<string>,
                           content: string, stdouts: map<int, string>)
    ensures var m := DroidPostRunOf(droidModel, effort, instruction, Read(content), stdouts).metadata;
            && m.DroidSummary?
            && m.droidModel == droidModel && m.reasoningEffort == effort
            && (m.success <==> Contains(content, SessionMarker))
            && m.outputLines >= 1
            && m.outputLines == |SplitOn(content, '\n')|
            && JoinWith(SplitOn(content, '\n'), '\n') == content
  {
    JoinSplit(content, '\n');
  }

  /** Without a main log, the first non-empty stdout of commands 0 to 4 is
      sampled, and nothing is written when all of them are missing or empty. */
  lemma DroidWithoutMainLog(droidModel: string, effort: Option<string>, instruction: Option<string>,
                            stdouts: map<int, string>)
    ensures var r := DroidPostRunOf(droidModel, effort, instruction, Absent, stdouts);
            && (r == NoChange <==> forall k :: 0 <= k < StdoutProbes ==> k !in stdouts || stdouts[k] == "")
            && (r != NoChange ==>
                  exists j :: 0 <= j < StdoutProbes && j in stdouts && stdouts[j] != ""
                    && (forall k :: 0 <= k < j ==> k !in stdouts || stdouts[k] == "")
                    && r == MetadataOnly(DroidNoMainOutput(Sample(stdouts[j]), droidModel)))
  {
    var f := FirstStdout(stdouts, 0);
    if f.Some? {
      var j := f.value;
      assert DroidPostRunOf(droidModel, effort, instruction, Absent, stdouts)
             == MetadataOnly(DroidNoMainOutput(Sample(stdouts[j]), droidModel));
    }
  }

  /** The rate table is keyed by short names, but the lookup uses the
      Factory model id: every model that came through the id map is priced
      at the default rate. */
  lemma MappedModelsUseDefaultRate(id: string)
    requires id in {"claude-sonnet-4-20250514", "claude-opus-4-1-20250805", "gpt-5-codex", "gpt-5-codex-high"}
    ensures RateFor(id) == 0.003
  {
  }
}
