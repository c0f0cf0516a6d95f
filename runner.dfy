/** The orchestrator (src/orchestrator/runner.py): one planner call, the
    trailing-window frame, then every step of the plan in order, each writing
    one of four slots; the slots are returned together. */
module Runner {
  import opened Wrappers
  import opened Json
  import opened DataLoader
  import opened DataAgent
  import opened LlmClient
  import opened Planner
  import opened InsightAgent
  import opened Evaluator
  import opened CreativeGenerator

  /** The window, in days, of both the orchestrator's frame and `load_and_prepare`'s default. */
  const WindowDays: int := 7

  /** What the orchestrator is built with: the loaded configuration and prompt
      templates, the files on disk, the clock reading, and the library
      functions the agents apply (`pd.to_datetime` on one cell, `json.loads`,
      and `json.dumps` of a summary, which may raise). */
  datatype Env = Env(config: Config, files: map<string, seq<Row>>, now: int,
                     parseDate: string -> Option<int>, parseJson: string -> Option<Json>,
                     dumpSummary: Summary -> Result<string, Exception>,
                     plannerTemplate: string, insightTemplate: string)

  /** A plan step after the `isinstance(step, str)` test: an offline tag, or a
      dict's `agent` and `action` entries (each defaulting to ""). */
  datatype Step = Named(tag: string) | Directive(agent: Json, action: Json)

  /** The four local variables of `run`, returned as its result dict. None is
      a slot never assigned; a slot holding `Some(JNull)` (a reply that parsed
      as `null`) is Python None as well, and behaves like it in every later step. */
  datatype Bundle = Bundle(summary: Option<Prepared>, hypotheses: Option<Json>,
                           evaluated: Option<seq<Evaluation>>, creatives: Option<seq<Creative>>)

  const EmptyBundle: Bundle := Bundle(None, None, None, None)

  /** The slots between steps, and the prompts sent to the model so far. */
  datatype State = State(bundle: Bundle, sent: seq<string>)

  /** What a run ends with: the bundle or the exception that escaped, and every prompt sent. */
  datatype Outcome = Outcome(result: Result<Bundle, Exception>, sent: seq<string>)

  /** Everything a step may read besides the slots. */
  datatype Context = Context(env: Env, respond: seq<string> -> string, df: seq<Row>, query: string)

  datatype Slot = SummarySlot | HypothesesSlot | EvaluatedSlot | CreativesSlot

  /** The slot a step assigns, if any. */
  function Writes(step: Step): Option<Slot> {
    match step
    case Named(tag) =>
      if tag == "load_data" || tag == "analyze_metrics" then Some(SummarySlot)
      else if tag == "generate_insights" then Some(HypothesesSlot)
      else if tag == "evaluate_insights" then Some(EvaluatedSlot)
      else if tag == "produce_creatives" then Some(CreativesSlot)
      else None
    case Directive(agent, _) =>
      if agent == JStr("data_agent") then Some(SummarySlot)
      else if agent == JStr("insight_agent") then Some(HypothesesSlot)
      else if agent == JStr("evaluator") then Some(EvaluatedSlot)
      else if agent == JStr("creative_generator") then Some(CreativesSlot)
      else None
  }

  /** `a` and `b` hold the same value in `slot`. */
  predicate Agrees(a: Bundle, b: Bundle, slot: Slot) {
    match slot
    case SummarySlot => a.summary == b.summary
    case HypothesesSlot => a.hypotheses == b.hypotheses
    case EvaluatedSlot => a.evaluated == b.evaluated
    case CreativesSlot => a.creatives == b.creatives
  }

  /** `a` and `b` agree on every slot other than `w`. */
  predicate SameExcept(a: Bundle, b: Bundle, w: Option<Slot>) {
    forall s: Slot :: Some(s) != w ==> Agrees(a, b, s)
  }

  // ---------------------------------------------------------------------
  // The plan
  // ---------------------------------------------------------------------

  /** `plan["steps"]` followed by `for step in ...`. */
  function StepsOf(plan: Json): (r: Result<seq<Json>, Exception>)
    ensures !plan.JObj? ==> r == Err(TypeError)
    ensures plan.JObj? && "steps" !in FieldNames(plan.fields) ==> r == Err(KeyError("steps"))
    ensures plan.JObj? && "steps" in FieldNames(plan.fields) ==>
              r == Iterate(Get(plan.fields, "steps").value)
  {
    var steps :- Subscript(plan, "steps");
    Iterate(steps)
  }

  /** A string is a tag; a dict yields its `agent` and `action`; on anything
      else `step.get` raises AttributeError. */
  function DecodeStep(j: Json): (r: Result<Step, Exception>)
    ensures j.JStr? <==> r.Ok? && r.value.Named?
    ensures j.JStr? ==> r.value.tag == j.s
    ensures j.JObj? ==> r == Ok(Directive(GetOr(j.fields, "agent", JStr("")), GetOr(j.fields, "action", JStr(""))))
    ensures !j.JStr? && !j.JObj? ==> r == Err(AttributeError)
  {
    match j
    case JStr(s) => Ok(Named(s))
    case JObj(fields) => Ok(Directive(GetOr(fields, "agent", JStr("")), GetOr(fields, "action", JStr(""))))
    case _ => Err(AttributeError)
  }

  // ---------------------------------------------------------------------
  // Steps
  // ---------------------------------------------------------------------

  /** `data_summary = self.data_agent.load_and_prepare()`. */
  function LoadData(ctx: Context, st: State): (r: Result<State, Exception>)
    ensures r.Ok? <==> DatasetPath(ctx.env.config.data) in ctx.env.files
    ensures r.Err? ==> r.error == FileNotFoundError(DatasetPath(ctx.env.config.data))
    ensures r.Ok? ==> SameExcept(st.bundle, r.value.bundle, Some(SummarySlot)) && r.value.sent == st.sent
    ensures r.Ok? ==> r.value.bundle.summary
                      == Some(LoadAndPrepare(ctx.env.config, ctx.env.files, ctx.env.parseDate, ctx.env.now, WindowDays).value)
  {
    var p :- LoadAndPrepare(ctx.env.config, ctx.env.files, ctx.env.parseDate, ctx.env.now, WindowDays);
    Ok(st.(bundle := st.bundle.(summary := Some(p))))
  }

  /** `insights = self.insight_agent.generate_hypotheses(summary, user_query)`:
      the exception of a failing serialisation with no prompt sent, or one more
      prompt and the parsed reply. */
  function Insights(ctx: Context, st: State, s: Summary): (r: Result<State, Exception>)
    ensures r.Ok? <==> ctx.env.dumpSummary(s).Ok?
    ensures r.Err? ==> r.error == ctx.env.dumpSummary(s).error
    ensures r.Ok? ==> SameExcept(st.bundle, r.value.bundle, Some(HypothesesSlot))
    ensures r.Ok? ==> r.value.sent == st.sent + [InsightPrompt(ctx.env.insightTemplate, ctx.env.dumpSummary(s).value, ctx.query)]
    ensures r.Ok? ==> r.value.bundle.hypotheses == Some(HypothesesFromReply(ctx.env.parseJson, ctx.respond(r.value.sent)))
  {
    var dumped :- ctx.env.dumpSummary(s);
    var sent := st.sent + [InsightPrompt(ctx.env.insightTemplate, dumped, ctx.query)];
    Ok(State(st.bundle.(hypotheses := Some(HypothesesFromReply(ctx.env.parseJson, ctx.respond(sent)))), sent))
  }

  /** `evaluated = self.evaluator.evaluate(df, insights)`. */
  function EvaluateStep(st: State): (r: Result<State, Exception>)
    ensures r.Ok? <==> EvaluatorOutput(st.bundle.hypotheses).Ok?
    ensures r.Ok? ==> SameExcept(st.bundle, r.value.bundle, Some(EvaluatedSlot)) && r.value.sent == st.sent
    ensures r.Ok? ==> r.value.bundle.evaluated == Some(EvaluatorOutput(st.bundle.hypotheses).value)
    ensures r.Err? ==> r.error == TypeError
  {
    var e :- EvaluatorOutput(st.bundle.hypotheses);
    Ok(st.(bundle := st.bundle.(evaluated := Some(e))))
  }

  /** `creatives = self.creative_gen.generate(df)`. */
  function CreativesStep(ctx: Context, st: State): (r: State)
    ensures SameExcept(st.bundle, r.bundle, Some(CreativesSlot)) && r.sent == st.sent
    ensures r.bundle.creatives == Some(Generate(Some(ctx.df)))
  {
    st.(bundle := st.bundle.(creatives := Some(Generate(Some(ctx.df)))))
  }

  /** One pass of the loop body. A step assigns at most the slot it names and
      sends at most one prompt, which only an insight step does; a step that
      raises sends nothing. */
  function ExecStep(ctx: Context, st: State, step: Step): (r: Result<State, Exception>)
    ensures r.Ok? ==> SameExcept(st.bundle, r.value.bundle, Writes(step))
    ensures r.Ok? && Writes(step) != Some(HypothesesSlot) ==> r.value.sent == st.sent
    ensures r.Ok? && Writes(step) == Some(HypothesesSlot) ==>
              exists p :: r.value.sent == st.sent + [p]
  {
    match step
    case Named(tag) =>
      if tag == "load_data" then LoadData(ctx, st)
      else if tag == "analyze_metrics" then
        (if st.bundle.summary.Some? then Ok(st) else LoadData(ctx, st))
      else if tag == "generate_insights" then
        // `data_summary.get("summary", {})` on None
        (if st.bundle.summary.None? then Err(AttributeError)
         else Insights(ctx, st, st.bundle.summary.value.summary))
      else if tag == "evaluate_insights" then EvaluateStep(st)
      else if tag == "produce_creatives" then Ok(CreativesStep(ctx, st))
      else Ok(st)
    case Directive(agent, _) =>
      if agent == JStr("data_agent") then LoadData(ctx, st)
      else if agent == JStr("insight_agent") then
        // `data_summary["summary"]` on None
        (if st.bundle.summary.None? then Err(TypeError)
         else Insights(ctx, st, st.bundle.summary.value.summary))
      else if agent == JStr("evaluator") then EvaluateStep(st)
      else if agent == JStr("creative_generator") then Ok(CreativesStep(ctx, st))
      else Ok(st)
  }

  /** One plan entry: decoded, then executed. An entry that is neither a
      string nor a dict raises AttributeError; an entry changes at most the
      slot it names. */
  function RunStep(ctx: Context, st: State, j: Json): (r: Result<State, Exception>)
    ensures DecodeStep(j).Err? ==> r == Err(AttributeError)
    ensures r.Ok? ==> SameExcept(st.bundle, r.value.bundle, WritesEntry(j))
  {
    var step :- DecodeStep(j);
    ExecStep(ctx, st, step)
  }

  /** The slot a plan entry assigns, if any. */
  function WritesEntry(j: Json): Option<Slot> {
    match DecodeStep(j)
    case Ok(step) => Writes(step)
    case Err(_) => None
  }

  /** The plan entries that call the insight agent. */
  function InsightEntries(steps: seq<Json>): nat {
    if steps == [] then 0
    else (if WritesEntry(steps[0]) == Some(HypothesesSlot) then 1 else 0) + InsightEntries(steps[1..])
  }

  /** The loop over the plan. The first exception ends the run; the prompts
      already sent stay sent, so the log only ever grows. */
  function ExecSteps(ctx: Context, st: State, steps: seq<Json>): (o: Outcome)
    ensures st.sent <= o.sent
    ensures o.result.Err? ==> |steps| > 0
    decreases |steps|
  {
    if steps == [] then Outcome(Ok(st.bundle), st.sent)
    else
      match RunStep(ctx, st, steps[0])
      case Err(e) => Outcome(Err(e), st.sent)
      case Ok(next) => ExecSteps(ctx, next, steps[1..])
  }

  /** `run(user_query)` with the model answering through `respond` and
      `sent0` already sent. */
  function Pipeline(env: Env, respond: seq<string> -> string, sent0: seq<string>, query: string): (o: Outcome)
    ensures sent0 + [PlannerPrompt(env.plannerTemplate, query)] <= o.sent
    ensures DatasetPath(env.config.data) !in env.files ==>
              o == Outcome(Err(FileNotFoundError(DatasetPath(env.config.data))),
                           sent0 + [PlannerPrompt(env.plannerTemplate, query)])
  {
    var sent := sent0 + [PlannerPrompt(env.plannerTemplate, query)];
    var plan := PlanFromReply(env.parseJson, respond(sent));
    match ReadDataset(env.config, env.files)
    case Err(e) => Outcome(Err(e), sent)
    case Ok(raw) =>
      var df := LastNDays(raw, WindowDays, env.now, env.parseDate);
      match StepsOf(plan)
      case Err(e) => Outcome(Err(e), sent)
      case Ok(steps) => ExecSteps(Context(env, respond, df, query), State(EmptyBundle, sent), steps)
  }

  // ---------------------------------------------------------------------
  // Properties of the dispatcher
  // ---------------------------------------------------------------------

  /** The two step shapes mean the same: each offline tag behaves as the agent
      it stands for, except that a missing summary surfaces as AttributeError
      for the tag and as TypeError for the dict. */
  lemma TagsMatchAgents(ctx: Context, st: State, action: Json)
    ensures ExecStep(ctx, st, Named("load_data")) == ExecStep(ctx, st, Directive(JStr("data_agent"), action))
    ensures ExecStep(ctx, st, Named("evaluate_insights")) == ExecStep(ctx, st, Directive(JStr("evaluator"), action))
    ensures ExecStep(ctx, st, Named("produce_creatives"))
            == ExecStep(ctx, st, Directive(JStr("creative_generator"), action))
    ensures st.bundle.summary.Some? ==>
              ExecStep(ctx, st, Named("generate_insights")) == ExecStep(ctx, st, Directive(JStr("insight_agent"), action))
    ensures st.bundle.summary.None? ==>
              && ExecStep(ctx, st, Named("generate_insights")) == Err(AttributeError)
              && ExecStep(ctx, st, Directive(JStr("insight_agent"), action)) == Err(TypeError)
  {
    LoadTagMatches(ctx, st, action);
    EvaluateTagMatches(ctx, st, action);
    CreativesTagMatches(ctx, st, action);
    InsightTagMatches(ctx, st, action);
  }

  /** Each tag and its agent run the same step function. */
  lemma LoadTagMatches(ctx: Context, st: State, action: Json)
    ensures ExecStep(ctx, st, Named("load_data")) == LoadData(ctx, st)
    ensures ExecStep(ctx, st, Directive(JStr("data_agent"), action)) == LoadData(ctx, st)
  {
  }

  lemma EvaluateTagMatches(ctx: Context, st: State, action: Json)
    ensures ExecStep(ctx, st, Named("evaluate_insights")) == EvaluateStep(st)
    ensures ExecStep(ctx, st, Directive(JStr("evaluator"), action)) == EvaluateStep(st)
  {
  }

  lemma CreativesTagMatches(ctx: Context, st: State, action: Json)
    ensures ExecStep(ctx, st, Named("produce_creatives")) == Ok(CreativesStep(ctx, st))
    ensures ExecStep(ctx, st, Directive(JStr("creative_generator"), action)) == Ok(CreativesStep(ctx, st))
  {
  }

  lemma InsightTagMatches(ctx: Context, st: State, action: Json)
    ensures st.bundle.summary.Some? ==>
              && ExecStep(ctx, st, Named("generate_insights")) == Insights(ctx, st, st.bundle.summary.value.summary)
              && ExecStep(ctx, st, Directive(JStr("insight_agent"), action)) == Insights(ctx, st, st.bundle.summary.value.summary)
    ensures st.bundle.summary.None? ==>
              && ExecStep(ctx, st, Named("generate_insights")) == Err(AttributeError)
              && ExecStep(ctx, st, Directive(JStr("insight_agent"), action)) == Err(TypeError)
  {
  }

  /** A dict step's `action` is read and never used. */
  lemma ActionIgnored(ctx: Context, st: State, agent: Json, a1: Json, a2: Json)
    ensures ExecStep(ctx, st, Directive(agent, a1)) == ExecStep(ctx, st, Directive(agent, a2))
  {
  }

  /** `analyze_metrics` keeps a summary already there and otherwise loads one,
      so running it twice is running it once. */
  lemma AnalyzeMetricsIdempotent(ctx: Context, st: State)
    ensures st.bundle.summary.Some? ==> ExecStep(ctx, st, Named("analyze_metrics")) == Ok(st)
    ensures st.bundle.summary.None? ==>
              ExecStep(ctx, st, Named("analyze_metrics")) == ExecStep(ctx, st, Named("load_data"))
    ensures var once := ExecStep(ctx, st, Named("analyze_metrics"));
            once.Ok? ==> ExecStep(ctx, once.value, Named("analyze_metrics")) == once
  {
    var once := ExecStep(ctx, st, Named("analyze_metrics"));
    if once.Ok? && st.bundle.summary.None? {
      assert once.value.bundle.summary.Some?;
    }
  }

  /** A step naming no slot — an unknown tag, an unknown or missing agent —
      changes nothing and sends nothing. */
  lemma UnknownStepIsNoOp(ctx: Context, st: State, step: Step)
    requires Writes(step) == None
    ensures ExecStep(ctx, st, step) == Ok(st)
  {
  }

  /** What a writing step leaves does not depend on what its slot held before
      (except for `analyze_metrics`, which reads its own slot), so when a step
      repeats, the last write wins. */
  lemma LastWriteWins(ctx: Context, st1: State, st2: State, step: Step)
    requires step != Named("analyze_metrics")
    requires Writes(step).Some?
    requires st1.sent == st2.sent && SameExcept(st1.bundle, st2.bundle, Writes(step))
    ensures ExecStep(ctx, st1, step) == ExecStep(ctx, st2, step)
  {
    var w := Writes(step).value;
    assert w != SummarySlot ==> Agrees(st1.bundle, st2.bundle, SummarySlot);
    assert w != HypothesesSlot ==> Agrees(st1.bundle, st2.bundle, HypothesesSlot);
    assert w != EvaluatedSlot ==> Agrees(st1.bundle, st2.bundle, EvaluatedSlot);
    assert w != CreativesSlot ==> Agrees(st1.bundle, st2.bundle, CreativesSlot);
  }

  /** A step that needs a slot no earlier step filled ends the run with the
      exception Python raises, having sent nothing more. */
  lemma MissingDependencyRaises(ctx: Context, st: State, rest: seq<Json>)
    ensures st.bundle.summary.None? ==>
              ExecSteps(ctx, st, [JStr("generate_insights")] + rest) == Outcome(Err(AttributeError), st.sent)
    ensures st.bundle.summary.None? ==>
              ExecSteps(ctx, st, [JObj([("agent", JStr("insight_agent"))])] + rest) == Outcome(Err(TypeError), st.sent)
    ensures st.bundle.hypotheses.None? ==>
              ExecSteps(ctx, st, [JStr("evaluate_insights")] + rest) == Outcome(Err(TypeError), st.sent)
  {
    assert ([JStr("generate_insights")] + rest)[0] == JStr("generate_insights");
    assert ([JObj([("agent", JStr("insight_agent"))])] + rest)[0] == JObj([("agent", JStr("insight_agent"))]);
    assert ([JStr("evaluate_insights")] + rest)[0] == JStr("evaluate_insights");
  }

  /** Running a plan in two parts is running it whole: the second part starts
      from the slots and the prompt log the first part ended with. */
  lemma {:induction false} ExecStepsAppend(ctx: Context, st: State, a: seq<Json>, b: seq<Json>)
    ensures ExecSteps(ctx, st, a + b)
            == (var o := ExecSteps(ctx, st, a);
                if o.result.Err? then o else ExecSteps(ctx, State(o.result.value, o.sent), b))
    decreases |a|
  {
    if a == [] {
      assert a + b == b;
    } else {
      assert (a + b)[0] == a[0];
      assert (a + b)[1..] == a[1..] + b;
      match RunStep(ctx, st, a[0])
      case Err(_) =>
      case Ok(next) => ExecStepsAppend(ctx, next, a[1..], b);
    }
  }

  /** A slot no entry of the plan names ends the run as it started. */
  lemma {:induction false} UnnamedSlotUnchanged(ctx: Context, st: State, steps: seq<Json>, slot: Slot)
    requires forall j :: j in steps ==> WritesEntry(j) != Some(slot)
    ensures ExecSteps(ctx, st, steps).result.Ok? ==>
              Agrees(st.bundle, ExecSteps(ctx, st, steps).result.value, slot)
    decreases |steps|
  {
    if steps != [] {
      assert steps[0] in steps;
      match RunStep(ctx, st, steps[0])
      case Err(_) =>
      case Ok(next) =>
        var step := DecodeStep(steps[0]).value;
        assert SameExcept(st.bundle, next.bundle, Writes(step));
        assert Agrees(st.bundle, next.bundle, slot);
        forall j | j in steps[1..] ensures WritesEntry(j) != Some(slot) {
          assert j in steps;
        }
        UnnamedSlotUnchanged(ctx, next, steps[1..], slot);
    }
  }

  /** The model is called once per insight entry that runs: exactly once per
      insight entry when the run completes, and never more. */
  lemma {:induction false} PromptsPerInsightEntry(ctx: Context, st: State, steps: seq<Json>)
    ensures |ExecSteps(ctx, st, steps).sent| <= |st.sent| + InsightEntries(steps)
    ensures ExecSteps(ctx, st, steps).result.Ok? ==>
              |ExecSteps(ctx, st, steps).sent| == |st.sent| + InsightEntries(steps)
    decreases |steps|
  {
    if steps != [] {
      match RunStep(ctx, st, steps[0])
      case Err(_) =>
      case Ok(next) =>
        var step := DecodeStep(steps[0]).value;
        assert WritesEntry(steps[0]) == Writes(step);
        assert |next.sent| == |st.sent| + (if Writes(step) == Some(HypothesesSlot) then 1 else 0);
        PromptsPerInsightEntry(ctx, next, steps[1..]);
    }
  }

  // ---------------------------------------------------------------------
  // Properties of a whole run
  // ---------------------------------------------------------------------

  /** A plan without a `steps` entry (or one that is not a dict) raises once
      the dataset is loaded, after the planner call alone. */
  lemma PlanWithoutSteps(env: Env, respond: seq<string> -> string, sent0: seq<string>, query: string)
    requires DatasetPath(env.config.data) in env.files
    requires var plan := PlanFromReply(env.parseJson, respond(sent0 + [PlannerPrompt(env.plannerTemplate, query)]));
             !plan.JObj? || "steps" !in FieldNames(plan.fields)
    ensures var plan := PlanFromReply(env.parseJson, respond(sent0 + [PlannerPrompt(env.plannerTemplate, query)]));
            Pipeline(env, respond, sent0, query)
            == Outcome(Err(if plan.JObj? then KeyError("steps") else TypeError),
                       sent0 + [PlannerPrompt(env.plannerTemplate, query)])
  {
  }

  /** An entry of the fallback plan is a dict step naming its agent, with no action. */
  lemma DecodeAgentStep(agent: string)
    ensures DecodeStep(AgentStep(agent)) == Ok(Directive(JStr(agent), JStr("")))
  {
    assert Get([("agent", JStr(agent))], "action") == None;
  }

  /** What each entry of the fallback plan does to the slots. */
  lemma FallbackEntries(ctx: Context, st: State)
    ensures DatasetPath(ctx.env.config.data) in ctx.env.files ==>
              RunStep(ctx, st, AgentStep("data_agent"))
              == Ok(st.(bundle := st.bundle.(summary := Some(LoadAndPrepare(ctx.env.config, ctx.env.files,
                                                                             ctx.env.parseDate, ctx.env.now, WindowDays).value))))
    ensures st.bundle.summary.Some? ==>
              RunStep(ctx, st, AgentStep("insight_agent")) == Insights(ctx, st, st.bundle.summary.value.summary)
    ensures RunStep(ctx, st, AgentStep("evaluator")) == EvaluateStep(st)
    ensures RunStep(ctx, st, AgentStep("creative_generator")) == Ok(CreativesStep(ctx, st))
  {
    DecodeAgentStep("data_agent");
    DecodeAgentStep("insight_agent");
    DecodeAgentStep("evaluator");
    DecodeAgentStep("creative_generator");
  }

  /** An insight step whose summary serialises and whose reply does not parse
      stores the fallback hypotheses after one prompt. */
  lemma InsightsFallback(ctx: Context, st: State, s: Summary)
    requires ctx.env.dumpSummary(s).Ok?
    requires forall h :: ctx.env.parseJson(ctx.respond(h)).None?
    ensures Insights(ctx, st, s)
            == Ok(State(st.bundle.(hypotheses := Some(FallbackHypotheses())),
                        st.sent + [InsightPrompt(ctx.env.insightTemplate, ctx.env.dumpSummary(s).value, ctx.query)]))
  {
    var r := Insights(ctx, st, s).value;
    assert ctx.env.parseJson(ctx.respond(r.sent)).None?;
  }

  /** The four steps of the fallback plan, run from empty slots when the
      model's replies never parse and the summary serialises. */
  lemma FallbackSteps(ctx: Context, sent: seq<string>)
    requires forall h :: ctx.env.parseJson(ctx.respond(h)).None?
    requires forall s :: ctx.env.dumpSummary(s).Ok?
    requires DatasetPath(ctx.env.config.data) in ctx.env.files
    ensures var prepared := LoadAndPrepare(ctx.env.config, ctx.env.files, ctx.env.parseDate, ctx.env.now, WindowDays);
            && prepared.Ok?
            && ExecSteps(ctx, State(EmptyBundle, sent), FallbackPlan().fields[0].1.items)
               == Outcome(Ok(Bundle(Some(prepared.value), Some(FallbackHypotheses()),
                                    Some(Verdicts(FallbackHypotheses().items)), Some(Generate(Some(ctx.df))))),
                          sent + [InsightPrompt(ctx.env.insightTemplate, ctx.env.dumpSummary(prepared.value.summary).value,
                                                ctx.query)])
  {
    var steps := FallbackPlan().fields[0].1.items;
    assert steps == [AgentStep("data_agent"), AgentStep("insight_agent"), AgentStep("evaluator"),
                     AgentStep("creative_generator")];
    var prepared := LoadAndPrepare(ctx.env.config, ctx.env.files, ctx.env.parseDate, ctx.env.now, WindowDays).value;
    var s0 := State(EmptyBundle, sent);
    var s1 := State(Bundle(Some(prepared), None, None, None), sent);
    FallbackEntries(ctx, s0);
    assert ExecSteps(ctx, s0, steps) == ExecSteps(ctx, s1, steps[1..]);
    assert ctx.env.dumpSummary(prepared.summary).Ok?;
    InsightsFallback(ctx, s1, prepared.summary);
    var s2 := State(Bundle(Some(prepared), Some(FallbackHypotheses()), None, None),
                    sent + [InsightPrompt(ctx.env.insightTemplate, ctx.env.dumpSummary(prepared.summary).value, ctx.query)]);
    FallbackEntries(ctx, s1);
    assert ExecSteps(ctx, s1, steps[1..]) == ExecSteps(ctx, s2, steps[2..]);
    assert steps[2..] == [AgentStep("evaluator"), AgentStep("creative_generator")];
    FallbackLastTwo(ctx, s2);
  }

  /** The fallback plan's last two entries, run after the fallback hypotheses:
      their verdicts and the three creatives, with no prompt. */
  lemma FallbackLastTwo(ctx: Context, st: State)
    requires st.bundle.hypotheses == Some(FallbackHypotheses())
    ensures ExecSteps(ctx, st, [AgentStep("evaluator"), AgentStep("creative_generator")])
            == Outcome(Ok(st.bundle.(evaluated := Some(Verdicts(FallbackHypotheses().items)),
                                     creatives := Some(Generate(Some(ctx.df))))), st.sent)
  {
    var steps := [AgentStep("evaluator"), AgentStep("creative_generator")];
    var verdicts := Verdicts(FallbackHypotheses().items);
    assert EvaluatorOutput(Some(FallbackHypotheses())) == Ok(verdicts);
    var s3 := State(st.bundle.(evaluated := Some(verdicts)), st.sent);
    FallbackEntries(ctx, st);
    assert ExecSteps(ctx, st, steps) == ExecSteps(ctx, s3, steps[1..]);
    var s4 := CreativesStep(ctx, s3);
    FallbackEntries(ctx, s3);
    assert ExecSteps(ctx, s3, steps[1..]) == ExecSteps(ctx, s4, []);
  }

  /** When the summary does not serialise, the fallback plan stops at its
      insight step with the serialiser's exception, before the model is called. */
  lemma FallbackStepsDumpFails(ctx: Context, sent: seq<string>)
    requires DatasetPath(ctx.env.config.data) in ctx.env.files
    requires ctx.env.dumpSummary(LoadAndPrepare(ctx.env.config, ctx.env.files, ctx.env.parseDate, ctx.env.now,
                                                WindowDays).value.summary).Err?
    ensures var prepared := LoadAndPrepare(ctx.env.config, ctx.env.files, ctx.env.parseDate, ctx.env.now, WindowDays);
            ExecSteps(ctx, State(EmptyBundle, sent), FallbackPlan().fields[0].1.items)
            == Outcome(Err(ctx.env.dumpSummary(prepared.value.summary).error), sent)
  {
    var steps := FallbackPlan().fields[0].1.items;
    assert steps == [AgentStep("data_agent"), AgentStep("insight_agent"), AgentStep("evaluator"),
                     AgentStep("creative_generator")];
    var prepared := LoadAndPrepare(ctx.env.config, ctx.env.files, ctx.env.parseDate, ctx.env.now, WindowDays).value;
    var s0 := State(EmptyBundle, sent);
    var s1 := State(Bundle(Some(prepared), None, None, None), sent);
    FallbackEntries(ctx, s0);
    assert ExecSteps(ctx, s0, steps) == ExecSteps(ctx, s1, steps[1..]);
    FallbackEntries(ctx, s1);
    assert RunStep(ctx, s1, steps[1..][0]) == Err(ctx.env.dumpSummary(prepared.summary).error);
  }

  /** With a model whose replies never parse, a summary that always serialises
      and an existing dataset, the fallback plan fills all four slots: the
      summary of the window, the two fallback hypotheses with their verdicts,
      and the three creatives, after exactly two prompts — the planner's and
      the insight agent's. */
  lemma OfflineRun(env: Env, respond: seq<string> -> string, sent0: seq<string>, query: string)
    requires forall h :: env.parseJson(respond(h)).None?
    requires forall s :: env.dumpSummary(s).Ok?
    requires DatasetPath(env.config.data) in env.files
    ensures var o := Pipeline(env, respond, sent0, query);
            var prepared := LoadAndPrepare(env.config, env.files, env.parseDate, env.now, WindowDays);
            var df := LastNDays(env.files[DatasetPath(env.config.data)], WindowDays, env.now, env.parseDate);
            && prepared.Ok?
            && o.result == Ok(Bundle(Some(prepared.value), Some(FallbackHypotheses()),
                                     Some(Verdicts(FallbackHypotheses().items)), Some(Generate(Some(df)))))
            && o.sent == sent0 + [PlannerPrompt(env.plannerTemplate, query),
                                  InsightPrompt(env.insightTemplate, env.dumpSummary(prepared.value.summary).value, query)]
  {
    var sent1 := sent0 + [PlannerPrompt(env.plannerTemplate, query)];
    assert PlanFromReply(env.parseJson, respond(sent1)) == FallbackPlan();
    var df := LastNDays(env.files[DatasetPath(env.config.data)], WindowDays, env.now, env.parseDate);
    var ctx := Context(env, respond, df, query);
    assert StepsOf(FallbackPlan()) == Ok(FallbackPlan().fields[0].1.items);
    FallbackSteps(ctx, sent1);
  }

  /** The program as written: `json.dumps` refuses the trend's Timestamps. When
      the planner's reply does not parse and the window holds any row, the
      fallback run raises TypeError at its insight step, having sent only the
      planner prompt. */
  lemma OfflineRunAsWritten(env: Env, respond: seq<string> -> string, render: Summary -> string,
                            sent0: seq<string>, query: string)
    requires env.parseJson(respond(sent0 + [PlannerPrompt(env.plannerTemplate, query)])).None?
    requires forall s :: env.dumpSummary(s) == DumpAsWritten(render, s)
    requires DatasetPath(env.config.data) in env.files
    requires LastNDays(env.files[DatasetPath(env.config.data)], WindowDays, env.now, env.parseDate) != []
    ensures Pipeline(env, respond, sent0, query)
            == Outcome(Err(TypeError), sent0 + [PlannerPrompt(env.plannerTemplate, query)])
  {
    var sent1 := sent0 + [PlannerPrompt(env.plannerTemplate, query)];
    assert PlanFromReply(env.parseJson, respond(sent1)) == FallbackPlan();
    var rows := env.files[DatasetPath(env.config.data)];
    var df := LastNDays(rows, WindowDays, env.now, env.parseDate);
    var ctx := Context(env, respond, df, query);
    assert StepsOf(FallbackPlan()) == Ok(FallbackPlan().fields[0].1.items);
    var prepared := LoadAndPrepare(env.config, env.files, env.parseDate, env.now, WindowDays).value;
    DumpRefusesRecentData(render, rows, WindowDays, env.now, env.parseDate, env.config.data.minImpressions);
    assert env.dumpSummary(prepared.summary) == Err(TypeError);
    FallbackStepsDumpFails(ctx, sent1);
  }

  // ---------------------------------------------------------------------
  // The orchestrator object
  // ---------------------------------------------------------------------

  class Orchestrator {
    const env: Env
    const llm: Llm

    constructor (env: Env, llm: Llm)
      ensures this.env == env && this.llm == llm
    {
      this.env := env;
      this.llm := llm;
    }

    /** `run(user_query)`: its result and the prompts it sends are those of `Pipeline`. */
    method Run(query: string) returns (r: Result<Bundle, Exception>)
      modifies llm
      ensures Outcome(r, llm.sent) == Pipeline(env, llm.respond, old(llm.sent), query)
    {
      var plan := Plan(llm, env.plannerTemplate, env.parseJson, query, None);
      var loaded := ReadDataset(env.config, env.files);
      if loaded.Err? {
        return Err(loaded.error);
      }
      var frame := new Frame(loaded.value);
      var df := FilterLastNDays(frame, WindowDays, env.now, env.parseDate);
      var listed := StepsOf(plan);
      if listed.Err? {
        return Err(listed.error);
      }
      var steps := listed.value;
      // The dataset was found above and the files do not change during the
      // run, so every `load_and_prepare` below reads it successfully.
      ghost var ctx := Context(env, llm.respond, df.rows, query);
      ghost var goal := ExecSteps(ctx, State(EmptyBundle, llm.sent), steps);

      var dataSummary: Option<Prepared> := None;
      var insights: Option<Json> := None;
      var evaluated: Option<seq<Evaluation>> := None;
      var creatives: Option<seq<Creative>> := None;

      for i := 0 to |steps|
        invariant df.rows == ctx.df
        invariant ExecSteps(ctx, State(Bundle(dataSummary, insights, evaluated, creatives), llm.sent), steps[i..]) == goal
      {
        assert steps[i..][0] == steps[i] && steps[i..][1..] == steps[i + 1..];
        var next := RunEntry(steps[i], Bundle(dataSummary, insights, evaluated, creatives), df.rows, query);
        if next.Err? {
          return Err(next.error);
        }
        dataSummary, insights, evaluated, creatives :=
          next.value.summary, next.value.hypotheses, next.value.evaluated, next.value.creatives;
      }
      return Ok(Bundle(dataSummary, insights, evaluated, creatives));
    }

    /** One pass of the loop body: plan entry `step` run on the four local
        slots `b`, as `RunStep` describes it. A step that raises leaves the
        prompt log as it found it. */
    method RunEntry(step: Json, b: Bundle, df: seq<Row>, query: string) returns (r: Result<Bundle, Exception>)
      requires DatasetPath(env.config.data) in env.files
      modifies llm
      ensures var o := RunStep(Context(env, llm.respond, df, query), State(b, old(llm.sent)), step);
              && (o.Ok? ==> r == Ok(o.value.bundle) && llm.sent == o.value.sent)
              && (o.Err? ==> r == Err(o.error) && llm.sent == old(llm.sent))
    {
      var dataSummary, insights, evaluated, creatives := b.summary, b.hypotheses, b.evaluated, b.creatives;
      if step.JStr? {
        var tag := step.s;
        if tag == "load_data" {
          var p := LoadAndPrepare(env.config, env.files, env.parseDate, env.now, WindowDays);
          dataSummary := Some(p.value);
        } else if tag == "analyze_metrics" {
          if dataSummary.None? {
            var p := LoadAndPrepare(env.config, env.files, env.parseDate, env.now, WindowDays);
            dataSummary := Some(p.value);
          }
        } else if tag == "generate_insights" {
          if dataSummary.None? {
            return Err(AttributeError);
          }
          var h := GenerateHypotheses(llm, env.insightTemplate, env.parseJson, env.dumpSummary,
                                      dataSummary.value.summary, query);
          if h.Err? {
            return Err(h.error);
          }
          insights := Some(h.value);
        } else if tag == "evaluate_insights" {
          var e := Evaluate(df, insights);
          if e.Err? {
            return Err(e.error);
          }
          evaluated := Some(e.value);
        } else if tag == "produce_creatives" {
          creatives := Some(Generate(Some(df)));
        }
      } else {
        if !step.JObj? {
          return Err(AttributeError);
        }
        var agent := GetOr(step.fields, "agent", JStr(""));
        var action := GetOr(step.fields, "action", JStr(""));
        if agent == JStr("data_agent") {
          var p := LoadAndPrepare(env.config, env.files, env.parseDate, env.now, WindowDays);
          dataSummary := Some(p.value);
        } else if agent == JStr("insight_agent") {
          if dataSummary.None? {
            return Err(TypeError);
          }
          var h := GenerateHypotheses(llm, env.insightTemplate, env.parseJson, env.dumpSummary,
                                      dataSummary.value.summary, query);
          if h.Err? {
            return Err(h.error);
          }
          insights := Some(h.value);
        } else if agent == JStr("evaluator") {
          var e := Evaluate(df, insights);
          if e.Err? {
            return Err(e.error);
          }
          evaluated := Some(e.value);
        } else if agent == JStr("creative_generator") {
          creatives := Some(Generate(Some(df)));
        }
      }
      return Ok(Bundle(dataSummary, insights, evaluated, creatives));
    }
  }
}
