/** `PiMonoAgent.populate_context_post_run`: sum the token usage reported by
    the assistant's `message_end` events in pi's JSON-lines log, fall back to
    a size estimate when the log reports none, and decide the success flag.

    A log line is its text together with what `json.loads` makes of the
    stripped text (`Event`); decoding itself is not modelled. The values that
    make the source's arithmetic or attribute access raise (a `message` or
    `usage` that is not an object, a count or cost that is not a number) are
    kept as their own constructors, because such a line aborts the whole parse. */
module PiMonoUsage {
  import opened Wrappers
  import opened Text
  import opened Harbor
  import opened PiMonoConfig

  /** A token count field of `usage`: absent, an integer, or something that
      cannot be added to an integer (`null`, a string, ...). */
  datatype Count = Missing | Int(n: int) | NotNumber

  /** The `cost` field of `usage`: absent, a bare number, an object with an
      optional `total`, or a value that cannot be added to a number. */
  datatype CostField = NoCost | Number(amount: real) | Breakdown(total: Option<real>) | BadCost

  datatype Usage =
    | UsageObject(input: Count, output: Count, cacheRead: Count, cacheWrite: Count, cost: CostField)
    | UsageNotObject

  /** The `message` field of an event. `content` is `str()` of its content. */
  datatype Message =
    | MessageObject(role: Option<string>, usage: Option<Usage>, content: Option<string>)
    | MessageNotObject

  /** What `json.loads` yields for the stripped line: a JSON object with its
      `type` and `message` fields, or anything else (a decode error, a value
      that is not an object). */
  datatype Event = Malformed | Object(eventType: Option<string>, message: Option<Message>)

  datatype Line = Line(text: string, event: Event)

  datatype Totals = Totals(input: int, output: int, cacheRead: int, cacheWrite: int, cost: real)

  const Zero := Totals(0, 0, 0, 0, 0.0)

  function Plus(a: Totals, b: Totals): Totals
  {
    Totals(a.input + b.input, a.output + b.output, a.cacheRead + b.cacheRead,
           a.cacheWrite + b.cacheWrite, a.cost + b.cost)
  }

  /** `usage.get(field, 0)` for a numeric field. */
  function CountValue(c: Count): int
  {
    match c
    case Int(n) => n
    case _ => 0
  }

  /** What a cost field adds: a bare number, or the `total` of an object (0 if absent). */
  function CostValue(c: CostField): real
  {
    match c
    case Number(x) => x
    case Breakdown(Some(x)) => x
    case _ => 0.0
  }

  /** The stripped line is non-blank and starts with `{`: only such lines are decoded. */
  predicate IsCandidate(line: Line)
  {
    var s := Strip(line.text);
    s != [] && s[0] == '{'
  }

  /** A completed assistant message carrying usage (the test at lines 336-339). */
  predicate IsUsageEvent(line: Line)
  {
    IsCandidate(line)
    && line.event.Object? && line.event.eventType == Some("message_end")
    && line.event.message.Some? && line.event.message.value.MessageObject?
    && line.event.message.value.role == Some("assistant")
    && line.event.message.value.usage.Some?
  }

  /** What one line does to the running totals. */
  datatype Effect = Skip | Add(amount: Totals) | Fail

  /** What a decoded candidate line does. */
  function EventEffect(event: Event): Effect
  {
    match event
    case Malformed => Skip
    case Object(ty, msg) =>
      if ty != Some("message_end") || msg.None? then Skip
      else match msg.value
        case MessageNotObject => Fail
        case MessageObject(role, usage, _) =>
          if role != Some("assistant") || usage.None? then Skip
          else match usage.value
            case UsageNotObject => Fail
            case UsageObject(i, o, cr, cw, c) =>
              if i.NotNumber? || o.NotNumber? || cr.NotNumber? || cw.NotNumber? || c.BadCost? then Fail
              else Add(Totals(CountValue(i), CountValue(o), CountValue(cr), CountValue(cw), CostValue(c)))
  }

  /** A `usage` value the accumulation cannot add: not an object, or with a
      count or cost that is not a number. */
  predicate BadUsage(u: Usage)
  {
    u.UsageNotObject? || u.input.NotNumber? || u.output.NotNumber?
    || u.cacheRead.NotNumber? || u.cacheWrite.NotNumber? || u.cost.BadCost?
  }

  /** The lines that make the accumulation raise: a decoded `message_end`
      whose `message` is not an object, or an assistant message whose `usage`
      the accumulation cannot add (lines 336-354). */
  predicate Raises(line: Line)
  {
    IsCandidate(line) && line.event.Object? && line.event.eventType == Some("message_end")
    && line.event.message.Some?
    && (line.event.message.value.MessageNotObject?
        || (line.event.message.value.role == Some("assistant") && line.event.message.value.usage.Some?
            && BadUsage(line.event.message.value.usage.value)))
  }

  /** The totals one well-formed `usage` object contributes. */
  function UsageAmount(u: Usage): Totals
  {
    match u
    case UsageObject(i, o, cr, cw, c) =>
      Totals(CountValue(i), CountValue(o), CountValue(cr), CountValue(cw), CostValue(c))
    case UsageNotObject => Zero
  }

  /** What one log line does: it raises exactly on the shapes of `Raises`,
      adds exactly when it is a usage event that does not raise, and then adds
      that event's usage; every other line is skipped. */
  function LineEffect(line: Line): (e: Effect)
    ensures e == Fail <==> Raises(line)
    ensures e.Add? <==> IsUsageEvent(line) && !Raises(line)
    ensures e.Add? ==> e.amount == UsageAmount(line.event.message.value.usage.value)
  {
    if IsCandidate(line) then EventEffect(line.event) else Skip
  }

  /** A line holding `{...}` with no surrounding whitespace is decoded. */
  lemma BracedIsCandidate(line: Line)
    requires |line.text| > 0 && line.text[0] == '{' && line.text[|line.text| - 1] == '}'
    ensures IsCandidate(line)
  {
    StripUnpadded(line.text);
  }

  /** The running totals after a sequence of line effects, or `None` once
      one of them raised. */
  function SumEffects(effects: seq<Effect>): Option<Totals>
    decreases |effects|
  {
    if effects == [] then Some(Zero)
    else match SumEffects(effects[..|effects| - 1])
      case None => None
      case Some(t) =>
        match effects[|effects| - 1]
        case Skip => Some(t)
        case Fail => None
        case Add(u) => Some(Plus(t, u))
  }

  function Effects(lines: seq<Line>): seq<Effect>
  {
    MapSeq(LineEffect, lines)
  }

  /** The totals over a log, or `None` when some line makes the parse raise. */
  function Accumulate(lines: seq<Line>): Option<Totals>
  {
    SumEffects(Effects(lines))
  }

  /** The parse aborts exactly when some line raises. */
  lemma AccumulateFailsIff(lines: seq<Line>)
    ensures Accumulate(lines).None? <==> exists i :: 0 <= i < |lines| && LineEffect(lines[i]) == Fail
  {
    SumEffectsFailsIff(Effects(lines));
  }

  function Combine(a: Option<Totals>, b: Option<Totals>): Option<Totals>
  {
    if a.Some? && b.Some? then Some(Plus(a.value, b.value)) else None
  }

  lemma {:induction false} SumEffectsAppend(a: seq<Effect>, b: seq<Effect>)
    ensures SumEffects(a + b) == Combine(SumEffects(a), SumEffects(b))
    decreases |b|
  {
    if b == [] {
      assert a + b == a;
    } else {
      var b' := b[..|b| - 1];
      assert (a + b)[..|a + b| - 1] == a + b';
      assert (a + b)[|a + b| - 1] == b[|b| - 1];
      SumEffectsAppend(a, b');
    }
  }

  /** The totals of a log are the sum of the totals of its parts. */
  lemma AccumulateAppend(a: seq<Line>, b: seq<Line>)
    ensures Accumulate(a + b) == Combine(Accumulate(a), Accumulate(b))
  {
    MapSeqAppend(LineEffect, a, b);
    SumEffectsAppend(Effects(a), Effects(b));
  }

  /** Extending a log by one line applies that line's effect. */
  lemma AccumulateSnoc(a: seq<Line>, line: Line)
    ensures Accumulate(a + [line]) == match Accumulate(a)
      case None => None
      case Some(t) => (match LineEffect(line)
        case Skip => Some(t)
        case Fail => None
        case Add(u) => Some(Plus(t, u)))
  {
    var e := Effects(a + [line]);
    assert e[..|e| - 1] == Effects(a);
    assert e[|e| - 1] == LineEffect(line);
  }

  /** Skipped lines (blank, not starting with `{`, malformed, or not a usage
      event) can be left out without changing the result. */
  lemma SkippedLineIrrelevant(a: seq<Line>, line: Line, b: seq<Line>)
    requires LineEffect(line) == Skip
    ensures Accumulate(a + [line] + b) == Accumulate(a + b)
  {
    AccumulateAppend(a + [line], b);
    AccumulateSnoc(a, line);
    AccumulateAppend(a, b);
  }

  lemma {:induction false} SumEffectsFailsIff(effects: seq<Effect>)
    ensures SumEffects(effects).None? <==> exists i :: 0 <= i < |effects| && effects[i] == Fail
    decreases |effects|
  {
    if effects != [] {
      var init := effects[..|effects| - 1];
      SumEffectsFailsIff(init);
      assert forall i :: 0 <= i < |init| ==> init[i] == effects[i];
    }
  }

  lemma {:induction false} SumEffectsWithoutAdd(effects: seq<Effect>)
    requires forall i :: 0 <= i < |effects| ==> effects[i] == Skip
    ensures SumEffects(effects) == Some(Zero)
    decreases |effects|
  {
    if effects != [] {
      var init := effects[..|effects| - 1];
      assert forall i :: 0 <= i < |init| ==> init[i] == effects[i];
      SumEffectsWithoutAdd(init);
    }
  }

  /** A decoded line whose `type` is `message_end`. */
  predicate IsMessageEnd(line: Line)
  {
    IsCandidate(line) && line.event.Object? && line.event.eventType == Some("message_end")
  }

  /** A log without `message_end` events sums to zero. */
  lemma AccumulateWithoutMessageEnd(lines: seq<Line>)
    requires forall i :: 0 <= i < |lines| ==> !IsMessageEnd(lines[i])
    ensures Accumulate(lines) == Some(Zero)
  {
    SumEffectsWithoutAdd(Effects(lines));
  }

  predicate NonNegative(t: Totals)
  {
    t.input >= 0 && t.output >= 0 && t.cacheRead >= 0 && t.cacheWrite >= 0
  }

  lemma {:induction false} SumEffectsNonNegative(effects: seq<Effect>)
    requires forall i :: 0 <= i < |effects| && effects[i].Add? ==> NonNegative(effects[i].amount)
    ensures SumEffects(effects).Some? ==> NonNegative(SumEffects(effects).value)
    decreases |effects|
  {
    if effects != [] {
      var init := effects[..|effects| - 1];
      assert forall i :: 0 <= i < |init| ==> init[i] == effects[i];
      SumEffectsNonNegative(init);
    }
  }

  /** With non-negative counts in every usage event, the totals are non-negative. */
  lemma AccumulateNonNegative(lines: seq<Line>)
    requires forall i :: 0 <= i < |lines| && LineEffect(lines[i]).Add? ==> NonNegative(LineEffect(lines[i]).amount)
    ensures Accumulate(lines).Some? ==> NonNegative(Accumulate(lines).value)
  {
    SumEffectsNonNegative(Effects(lines));
  }

  /** The per-field sums of `usage` over the usage events of a log: a
      reference for `Accumulate` that does not go through `Effect`. */
  function UsageTotals(lines: seq<Line>): Totals
    decreases |lines|
  {
    if lines == [] then Zero
    else
      var last := lines[|lines| - 1];
      var before := UsageTotals(lines[..|lines| - 1]);
      if IsUsageEvent(last) then Plus(before, UsageAmount(last.event.message.value.usage.value)) else before
  }

  /** When no line raises, each total is the sum of its field over the usage
      events of the log. */
  lemma {:induction false} AccumulateIsUsageSum(lines: seq<Line>)
    requires forall i :: 0 <= i < |lines| ==> !Raises(lines[i])
    ensures Accumulate(lines) == Some(UsageTotals(lines))
    decreases |lines|
  {
    if lines != [] {
      var init := lines[..|lines| - 1];
      var last := lines[|lines| - 1];
      assert forall i :: 0 <= i < |init| ==> init[i] == lines[i];
      AccumulateIsUsageSum(init);
      var t := UsageTotals(init);
      SplitLast(lines);
      AccumulateSnoc(init, last);
      CleanLineEffect(last);
      if IsUsageEvent(last) {
        var u := UsageAmount(last.event.message.value.usage.value);
        assert LineEffect(last) == Add(u);
        assert UsageTotals(lines) == Plus(t, u);
      } else {
        assert LineEffect(last) == Skip;
        assert UsageTotals(lines) == t;
      }
    }
  }

  lemma CleanLineEffect(line: Line)
    requires !Raises(line)
    ensures IsUsageEvent(line) ==> LineEffect(line) == Add(UsageAmount(line.event.message.value.usage.value))
    ensures !IsUsageEvent(line) ==> LineEffect(line) == Skip
  {
  }

  /** A usage event whose cost is a bare number and one whose cost is an
      object with a `total` both add to the total cost. */
  lemma CostFormsBothAdd(a: real, b: real)
    ensures var first := Line("{\"type\":\"message_end\"}", Object(Some("message_end"),
              Some(MessageObject(Some("assistant"), Some(UsageObject(Missing, Missing, Missing, Missing, Number(a))), None))));
            var second := Line("{\"type\":\"message_end\"}", Object(Some("message_end"),
              Some(MessageObject(Some("assistant"), Some(UsageObject(Missing, Missing, Missing, Missing, Breakdown(Some(b)))), None))));
            Accumulate([first, second]) == Some(Totals(0, 0, 0, 0, a + b))
  {
    var text := "{\"type\":\"message_end\"}";
    var first := Line(text, Object(Some("message_end"),
      Some(MessageObject(Some("assistant"), Some(UsageObject(Missing, Missing, Missing, Missing, Number(a))), None))));
    var second := Line(text, Object(Some("message_end"),
      Some(MessageObject(Some("assistant"), Some(UsageObject(Missing, Missing, Missing, Missing, Breakdown(Some(b)))), None))));
    assert text[0] == '{' && text[|text| - 1] == '}';
    BracedIsCandidate(first);
    BracedIsCandidate(second);
    assert LineEffect(first) == Add(Totals(0, 0, 0, 0, a));
    assert LineEffect(second) == Add(Totals(0, 0, 0, 0, b));
    AccumulateSnoc([], first);
    assert [] + [first] == [first];
    AccumulateSnoc([first], second);
    assert [first] + [second] == [first, second];
  }

  /** One iteration of the accumulation loop: skip the line, add its usage
      to the running totals, or report that it raised. */
  method ApplyLine(line: Line, before: Totals) returns (raised: bool, after: Totals)
    ensures raised <==> LineEffect(line) == Fail
    ensures LineEffect(line) == Skip ==> after == before
    ensures LineEffect(line).Add? ==> after == Plus(before, LineEffect(line).amount)
  {
    raised, after := false, before;
    var stripped := Strip(line.text);
    if stripped == [] || stripped[0] != '{' {
      return;
    }
    assert LineEffect(line) == EventEffect(line.event);
    if line.event.Malformed? {
      return;
    }
    var event := line.event;
    if event.eventType == Some("message_end") && event.message.Some? {
      var message := event.message.value;
      if message.MessageNotObject? {
        return true, before;
      }
      if message.role == Some("assistant") && message.usage.Some? {
        var usage := message.usage.value;
        if usage.UsageNotObject? || usage.input.NotNumber? || usage.output.NotNumber?
           || usage.cacheRead.NotNumber? || usage.cacheWrite.NotNumber? || usage.cost.BadCost?
        {
          return true, before;
        }
        var cost := after.cost;
        if !usage.cost.NoCost? {
          if usage.cost.Breakdown? {
            cost := cost + (if usage.cost.total.Some? then usage.cost.total.value else 0.0);
          } else {
            cost := cost + usage.cost.amount;
          }
        }
        after := Totals(after.input + CountValue(usage.input), after.output + CountValue(usage.output),
                        after.cacheRead + CountValue(usage.cacheRead), after.cacheWrite + CountValue(usage.cacheWrite),
                        cost);
      }
    }
  }

  /** The accumulation loop, as the source runs it. `ok` is false when a line
      raised; the totals are then meaningless. */
  method AccumulateUsage(lines: seq<Line>) returns (ok: bool, totals: Totals)
    ensures ok <==> Accumulate(lines).Some?
    ensures ok ==> totals == Accumulate(lines).value
  {
    totals := Zero;
    var i := 0;
    while i < |lines|
      invariant 0 <= i <= |lines|
      invariant Accumulate(lines[..i]) == Some(totals)
    {
      var line := lines[i];
      AccumulateSnoc(lines[..i], line);
      assert lines[..i + 1] == lines[..i] + [line];
      var raised;
      raised, totals := ApplyLine(line, totals);
      i := i + 1;
      if raised {
        AccumulateAppend(lines[..i], lines[i..]);
        assert lines[..i] + lines[i..] == lines;
        return false, Zero;
      }
    }
    assert lines[..|lines|] == lines;
    ok := true;
  }

  // ---------------------------------------------------------------------------
  // The fallback estimate and the success flag

  /** The raw line mentions an assistant role and a content field. */
  predicate MentionsAssistantContent(text: string)
  {
    Contains(text, "\"role\":\"assistant\"") && Contains(text, "\"content\"")
  }

  /** Characters of assistant content one line contributes to the fallback:
      the length of the message content, for a line whose raw text mentions
      both the assistant role and a content field, and nothing otherwise.
      The source has no `{` test here, but a stripped line that `json.loads`
      turns into an object starts with `{`, so a line that is not a
      candidate adds nothing whatever event it carries. */
  predicate HasContent(line: Line)
  {
    line.event.Object? && line.event.message.Some? && line.event.message.value.MessageObject?
    && line.event.message.value.content.Some?
  }

  function ContentCharsOf(line: Line): (r: nat)
    ensures r > 0 ==> MentionsAssistantContent(line.text) && IsCandidate(line) && HasContent(line)
    ensures MentionsAssistantContent(line.text) && IsCandidate(line) && HasContent(line)
            ==> r == |line.event.message.value.content.value|
  {
    if !MentionsAssistantContent(line.text) || !IsCandidate(line) then 0
    else match line.event
      case Object(_, Some(MessageObject(_, _, Some(content)))) => |content|
      case _ => 0
  }

  function ContentChars(lines: seq<Line>): nat
    decreases |lines|
  {
    if lines == [] then 0 else ContentChars(lines[..|lines| - 1]) + ContentCharsOf(lines[|lines| - 1])
  }

  /** The fallback character count, as the source's second pass computes it. */
  method CountContentChars(lines: seq<Line>) returns (chars: nat)
    ensures chars == ContentChars(lines)
  {
    chars := 0;
    for i := 0 to |lines|
      invariant chars == ContentChars(lines[..i])
    {
      assert lines[..i + 1][..i] == lines[..i];
      var line := lines[i];
      if Contains(line.text, "\"role\":\"assistant\"") && Contains(line.text, "\"content\"") {
        // `json.loads` gives an object only for a stripped line starting with `{`.
        if IsCandidate(line) && line.event.Object? && line.event.message.Some? && line.event.message.value.MessageObject?
           && line.event.message.value.content.Some?
        {
          chars := chars + |line.event.message.value.content.value|;
        }
      }
    }
    assert lines[..|lines|] == lines;
  }

  /** Lines the error scan reads. */
  const HeadLines := 20

  /** One of the first 20 lines mentions an error or a failure. */
  predicate HeadHasErrors(lines: seq<Line>)
  {
    exists i :: 0 <= i < |lines| && i < HeadLines && IsErrorLine(lines[i].text)
  }

  const FallbackInputTokens := 500
  const MinFallbackOutputTokens := 100

  function Max(a: int, b: int): int
  {
    if a >= b then a else b
  }

  /** Output price per 1000 tokens used by the fallback estimate. */
  function OutputRate(provider: string): real
  {
    match provider
    case "anthropic" => 0.015
    case "openai" => 0.002
    case "google" => 0.001
    case "groq" => 0.0
    case _ => 0.002
  }

  /** The fallback cost: input tokens priced at a fifth of the output rate. */
  function FallbackCost(provider: string, nIn: int, nOut: int): real
  {
    (nIn as real / 1000.0) * (OutputRate(provider) / 5.0) + (nOut as real / 1000.0) * OutputRate(provider)
  }

  function ModelLabel(piModel: Option<string>): string
  {
    if Truthy(piModel) then piModel.value else "default"
  }

  /** What the post-run step writes into the context. */
  datatype PostRun =
    | MetadataOnly(metadata: Metadata)
    | Populated(nIn: int, nOut: int, nCache: int, cost: real, metadata: Metadata)

  /** The post-run result for a log that is missing (`None`) or has the given lines. */
  function PostRunOf(agent: PiMonoAgent, log: Option<seq<Line>>): (r: PostRun)
    ensures r.MetadataOnly? <==> log.None? || Accumulate(log.value).None?
    ensures r.Populated? ==> r.nIn != 0 || r.nOut != 0
  {
    var shownModel := ModelLabel(agent.piModel);
    match log
    case None => MetadataOnly(PiNoOutputFile(agent.provider, shownModel))
    case Some(lines) =>
      match Accumulate(lines)
      case None => MetadataOnly(PiParseFailed(agent.provider, shownModel))
      case Some(t) =>
        var fallback := t.input == 0 && t.output == 0;
        var nIn := if fallback then FallbackInputTokens else t.input;
        var nOut := if fallback then Max(ContentChars(lines) / 4, MinFallbackOutputTokens) else t.output;
        var cost := if fallback then FallbackCost(agent.provider, nIn, nOut) else t.cost;
        Populated(nIn, nOut, t.cacheRead, cost,
                  PiSummary(agent.provider, shownModel, agent.outputMode,
                            !HeadHasErrors(lines) && t.output > 0,
                            !agent.noSession, t.input > 0 || t.output > 0))
  }

  /** The reported numbers: the log's own totals when it reports any tokens,
      otherwise 500 input tokens and at least 100 output tokens (a quarter of
      the assistant content characters). Cache tokens are the cache-read total. */
  lemma PostRunTokens(agent: PiMonoAgent, lines: seq<Line>)
    requires Accumulate(lines).Some?
    ensures var t := Accumulate(lines).value;
            var r := PostRunOf(agent, Some(lines));
            r.Populated? && r.nCache == t.cacheRead
            && (t.input != 0 || t.output != 0 ==> r.nIn == t.input && r.nOut == t.output && r.cost == t.cost)
            && (t.input == 0 && t.output == 0 ==>
                  r.nIn == 500 && r.nOut >= 100 && r.nOut == Max(ContentChars(lines) / 4, 100))
  {
  }

  /** Success needs a clean head of the log and output tokens in the log
      itself, so a fallback estimate never counts as success, and success
      implies the log reported real usage. */
  lemma PostRunSuccess(agent: PiMonoAgent, lines: seq<Line>)
    requires Accumulate(lines).Some?
    ensures var t := Accumulate(lines).value;
            var m := PostRunOf(agent, Some(lines)).metadata;
            m.PiSummary?
            && (m.success <==> !HeadHasErrors(lines) && t.output > 0)
            && (m.success ==> m.actualApiUsage)
            && (t.input == 0 && t.output == 0 ==> !m.success && !m.actualApiUsage)
  {
  }

  /** A missing log and a log that makes the parse raise give metadata only. */
  lemma PostRunErrors(agent: PiMonoAgent, lines: seq<Line>)
    ensures PostRunOf(agent, None) == MetadataOnly(PiNoOutputFile(agent.provider, ModelLabel(agent.piModel)))
    ensures (exists i :: 0 <= i < |lines| && LineEffect(lines[i]) == Fail) ==>
              PostRunOf(agent, Some(lines)) == MetadataOnly(PiParseFailed(agent.provider, ModelLabel(agent.piModel)))
  {
    AccumulateFailsIff(lines);
  }

  /** `populate_context_post_run`: read the log (given as `log`, `None` when
      the file does not exist) and fill in the context. */
  method PopulateContextPostRun(agent: PiMonoAgent, log: Option<seq<Line>>, context: AgentContext)
    modifies context
    ensures (match PostRunOf(agent, log)
      case MetadataOnly(m) =>
        context.metadata == Some(m)
        && context.nInputTokens == old(context.nInputTokens)
        && context.nOutputTokens == old(context.nOutputTokens)
        && context.nCacheTokens == old(context.nCacheTokens)
        && context.costUsd == old(context.costUsd)
      case Populated(nIn, nOut, nCache, cost, m) =>
        context.nInputTokens == Some(nIn) && context.nOutputTokens == Some(nOut)
        && context.nCacheTokens == Some(nCache) && context.costUsd == Some(cost)
        && context.metadata == Some(m))
  {
    var shownModel := ModelLabel(agent.piModel);
    if log.None? {
      context.metadata := Some(PiNoOutputFile(agent.provider, shownModel));
      return;
    }
    var lines := log.value;
    var ok, totals := AccumulateUsage(lines);
    if !ok {
      context.metadata := Some(PiParseFailed(agent.provider, shownModel));
      return;
    }
    context.nInputTokens := Some(totals.input);
    context.nOutputTokens := Some(totals.output);
    context.nCacheTokens := Some(totals.cacheRead);
    context.costUsd := Some(totals.cost);

    if totals.input == 0 && totals.output == 0 {
      var chars := CountContentChars(lines);
      context.nInputTokens := Some(FallbackInputTokens);
      var nOut := Max(chars / 4, MinFallbackOutputTokens);
      context.nOutputTokens := Some(nOut);
      context.costUsd := Some(FallbackCost(agent.provider, FallbackInputTokens, nOut));
    }

    var hasErrors := HeadHasErrors(lines);
    context.metadata := Some(PiSummary(agent.provider, shownModel, agent.outputMode,
                                       !hasErrors && totals.output > 0, !agent.noSession,
                                       totals.input > 0 || totals.output > 0));
  }
}
