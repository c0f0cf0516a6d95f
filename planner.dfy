/** The planner agent (src/agents/planner.py): one model call on the template
    followed by the query, and the parsed reply or a fixed four-step plan. */
module Planner {
  import opened Wrappers
  import opened Json
  import opened LlmClient

  const QuerySeparator: string := "\n\nUSER_QUERY:\n"

  /** The prompt: the template, the separator, then the query. */
  function PlannerPrompt(template: string, query: string): (p: string)
    ensures |p| == |template| + |QuerySeparator| + |query|
    ensures p[..|template|] == template
    ensures p[|template|..|template| + |QuerySeparator|] == QuerySeparator
    ensures p[|template| + |QuerySeparator|..] == query
  {
    template + QuerySeparator + query
  }

  /** The query a planner prompt was built from. */
  function QueryOf(template: string, prompt: string): string
    requires |template| + |QuerySeparator| <= |prompt|
  {
    prompt[|template| + |QuerySeparator|..]
  }

  /** The prompt determines the query it was built from. */
  lemma QueryOfPlannerPrompt(template: string, query: string)
    ensures QueryOf(template, PlannerPrompt(template, query)) == query
  {
  }

  function AgentStep(agent: string): Json {
    JObj([("agent", JStr(agent))])
  }

  /** The fallback plan: four dict steps, none with an `action`. */
  function FallbackPlan(): Json {
    JObj([("steps", JArr([AgentStep("data_agent"), AgentStep("insight_agent"),
                          AgentStep("evaluator"), AgentStep("creative_generator")]))])
  }

  /** A reply that parses is the plan, unvalidated; any other reply gives the fallback plan. */
  function PlanFromReply(parse: string -> Option<Json>, reply: string): (plan: Json)
    ensures parse(reply).Some? ==> plan == parse(reply).value
    ensures parse(reply).None? ==> plan == FallbackPlan()
  {
    match parse(reply)
    case Some(j) => j
    case None => FallbackPlan()
  }

  /** `plan(user_query, context)`: exactly one model call, on the planner
      prompt; `context` is never read. */
  method Plan(llm: Llm, template: string, parse: string -> Option<Json>, query: string,
              context: Option<Json>)
    returns (plan: Json)
    modifies llm
    ensures llm.sent == old(llm.sent) + [PlannerPrompt(template, query)]
    ensures plan == PlanFromReply(parse, llm.respond(llm.sent))
  {
    var prompt := PlannerPrompt(template, query);
    var response := llm.Generate(prompt);
    plan := PlanFromReply(parse, response);
  }
}
