/** The insight agent (src/agents/insight_agent.py): one model call on the
    template, the serialised summary and the query, and the parsed reply or two
    fixed hypotheses. */
module InsightAgent {
  import opened Wrappers
  import opened Json
  import opened LlmClient
  import opened DataLoader
  import opened DataAgent

  const SummaryHeader: string := "\n\nDATA SUMMARY:\n"
  const QueryHeader: string := "\n\nUSER QUERY:\n"

  /** The prompt: template, summary header, serialised summary, query header, query — in that order. */
  function InsightPrompt(template: string, dumped: string, query: string): (p: string)
    ensures var a := |template|;
            var b := a + |SummaryHeader|;
            var c := b + |dumped|;
            var d := c + |QueryHeader|;
            && |p| == d + |query|
            && p[..a] == template
            && p[a..b] == SummaryHeader
            && p[b..c] == dumped
            && p[c..d] == QueryHeader
            && p[d..] == query
  {
    template + SummaryHeader + dumped + QueryHeader + query
  }

  function Hypothesis(issue: string, reason: string): Json {
    JObj([("issue", JStr(issue)), ("reason", JStr(reason))])
  }

  /** The two hypotheses returned when the reply does not parse. */
  function FallbackHypotheses(): Json {
    JArr([Hypothesis("Low CTR", "Creative fatigue"), Hypothesis("ROAS Drop", "Weak targeting")])
  }

  /** A reply that parses is returned unchanged; any other gives the fallback list. */
  function HypothesesFromReply(parse: string -> Option<Json>, reply: string): (h: Json)
    ensures parse(reply).Some? ==> h == parse(reply).value
    ensures parse(reply).None? ==> h == FallbackHypotheses()
  {
    match parse(reply)
    case Some(j) => j
    case None => FallbackHypotheses()
  }

  /** Whether Python's default JSON encoder accepts a trend date: only text
      does; a pandas Timestamp or NaT makes `json.dumps` raise TypeError. */
  predicate Encodable(d: DateCell) {
    d.Text?
  }

  /** `json.dumps(data_summary, indent=2)` as the agent calls it, with no
      handler for dates: `render` is the text written when every value is
      encodable. */
  function DumpAsWritten(render: Summary -> string, s: Summary): (r: Result<string, Exception>)
    ensures r.Ok? <==> forall p :: p in s.roasTrend ==> Encodable(p.date)
    ensures r.Err? ==> r.error == TypeError
  {
    if forall p :: p in s.roasTrend ==> Encodable(p.date) then Ok(render(s)) else Err(TypeError)
  }

  /** As written, serialising the summary of any non-empty window fails: each
      kept row has a parsed date, so the trend holds a Timestamp. The insight
      step therefore raises before calling the model whenever recent data exists. */
  lemma DumpRefusesRecentData(render: Summary -> string, rows: seq<Row>, days: int, now: int,
                              parse: string -> Option<int>, minImpressions: int)
    requires LastNDays(rows, days, now, parse) != []
    ensures DumpAsWritten(render, Summarize(LastNDays(rows, days, now, parse), minImpressions)) == Err(TypeError)
  {
    var window := LastNDays(rows, days, now, parse);
    LastNDaysSpec(rows, days, now, parse);
    assert window[0] in window;
    assert window[0].date.Stamp?;
    RoasTrendSpec(window);
    var p :| p in RoasTrend(window) && p.date == window[0].date;
    assert !Encodable(p.date);
  }

  /** `generate_hypotheses(data_summary, user_query)`. The summary is
      serialised first; if `json.dumps` raises, the exception escapes and the
      model is not called. Otherwise exactly one model call is made, on the
      prompt built from the serialised summary and the query. */
  method GenerateHypotheses(llm: Llm, template: string, parse: string -> Option<Json>,
                            dump: Summary -> Result<string, Exception>, summary: Summary, query: string)
    returns (hypotheses: Result<Json, Exception>)
    modifies llm
    ensures dump(summary).Err? ==> hypotheses == Err(dump(summary).error) && llm.sent == old(llm.sent)
    ensures dump(summary).Ok? ==>
              && llm.sent == old(llm.sent) + [InsightPrompt(template, dump(summary).value, query)]
              && hypotheses == Ok(HypothesesFromReply(parse, llm.respond(llm.sent)))
  {
    var dumped := dump(summary);
    if dumped.Err? {
      return Err(dumped.error);
    }
    var prompt := InsightPrompt(template, dumped.value, query);
    var response := llm.Generate(prompt);
    hypotheses := Ok(HypothesesFromReply(parse, response));
  }
}
