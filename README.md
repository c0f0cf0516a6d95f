# Advertising-analysis agent pipeline, modelled in Dafny

The system turns an advertising performance dataset into a plan, a numeric summary, hypotheses, verdicts and creative ideas. An `Orchestrator` asks the planner agent for a plan with one language-model call, loads the dataset and keeps the last seven days, then runs the plan's steps in order.

Steps come in two shapes:
- a bare tag such as `"load_data"`;
- a dict such as `{"agent": "data_agent"}`.

Each step fills one of four slots (summary, hypotheses, evaluated, creatives), and the slots are returned together. The agents are:
- the **data agent**: a per-date ROAS trend, a per-campaign rollup with a minimum-impressions filter, the top and bottom five campaigns by ROAS, and the spend share of each campaign;
- the **insight agent**: one model call, returning the parsed reply or two fixed hypotheses;
- the **evaluator**: marks every hypothesis "valid" with confidence 0.78;
- the **creative generator**: returns three fixed ideas.

One module per source file:
- `Wrappers`: Option, Result and the Python exceptions that can escape.
- `Sequences`: duplicate removal (group keys) and the subsequence relation.
- `Json`: JSON values with Python's `d.get`, `d[key]` and `for x in v`.
- `DataLoader`, `DataAgent`, `LlmClient`, `Planner`, `InsightAgent`, `Evaluator`, `CreativeGenerator`, `Runner`. Each models the source file of the same name.

How the model is shaped:
- **The language model** is a class `Llm`. Its reply is a fixed function of the whole history of prompts, and it keeps that history in `sent`. "Exactly one call" is a statement about how `sent` grows.
- **The orchestrator's loop** is the method `Orchestrator.Run`. It has a `for` loop over the plan entries and reassigns four local slot variables, as the source does. It is proved equal to the function `Pipeline`.
- **Dispatch properties**: the lemmas about the dispatcher are stated over the specification functions `ExecStep`, `ExecSteps` and `Pipeline`:
  - shape equivalence and idempotence;
  - last write wins;
  - composition of plans;
  - prompt counts;
  - error paths.
- **The date filter**: `filter_last_n_days` is a method that overwrites its input frame's date column and returns a new frame (`FilterLastNDays`).
- **Library calls** are parameters of the model. These are `pd.to_datetime` on one cell, `json.loads` and `json.dumps`, the calls into code that is not modelled.
- **The clock** reading is also a parameter.
- **Files on disk** are a map from existing paths to the rows read from them.

Facts about the code that shape the model:
- The planner and the insight agent make one model call each and never retry.
- An insight step with no summary raises AttributeError for the tag and TypeError for the dict.
- An evaluator step with no hypotheses raises TypeError in both forms.
- The evaluator and the creative generator never call the model.
- No temperature is passed, so every call uses the client's default.

## Model

| member | source | states |
|---|---|---|
| Sequences.Distinct | src/agents/data_agent.py:84-93 | the group keys: each distinct value of the input exactly once, nothing else |
| Sequences.DistinctInFirstOccurrenceOrder | src/orchestrator/runner.py:46 | the distinct values come in the order in which each first occurs, the order in which a dict built by `json.loads` yields its keys |
| Json.Get | src/orchestrator/runner.py:81-82 | `d.get(key)` finds a value exactly when the key occurs, and it is the value of the last member with that key |
| Json.Subscript | src/orchestrator/runner.py:46 | `plan["steps"]`: TypeError for a non-dict, KeyError("steps") exactly when the key is absent, otherwise the looked-up value |
| Json.Iterate | src/orchestrator/runner.py:46 | `for x in v`: a list's items; a dict's keys, each once, in order of first occurrence; a string's characters; TypeError for everything else |
| DataLoader.SafeDiv | src/utils/data_loader.py:54-58 | a non-zero number gives the true quotient (r * b == a); 0, None and NaN give 0 |
| DataLoader.DatasetPath | src/utils/data_loader.py:30-33 | `sample_path` when `use_sample_data` is true, else `full_path` |
| DataLoader.ReadDataset | src/utils/data_loader.py:30-38 | succeeds exactly when the chosen path exists and yields that file's rows; otherwise FileNotFoundError naming the path |
| DataLoader.CoerceDates | src/utils/data_loader.py:49 | no text date is left; each text date becomes its parse or NaT; every other column and every already-typed cell is unchanged |
| DataLoader.Since | src/utils/data_loader.py:50-51 | a row is kept exactly when it was in the input and its date is a timestamp at or after the cutoff |
| DataLoader.SinceCounts | src/utils/data_loader.py:51 | `Since` keeps every copy of a matching row and no copy of any other row |
| DataLoader.SinceIsSubsequence | src/utils/data_loader.py:51 | the kept rows are an order-preserving subsequence of the input |
| DataLoader.LastNDaysSpec | src/utils/data_loader.py:41-51 | `LastNDays` holds exactly the coerced rows dated on or after now − days, each as many times as in the input; a row whose date fails to parse is never kept; order is preserved |
| DataLoader.FilterLastNDays | src/utils/data_loader.py:41-51 | the caller's frame ends with its dates coerced in place; the result is a new frame holding the window |
| DataAgent.OfCampaignCounts | src/agents/data_agent.py:84-93 | a campaign's group (`OfCampaign`) holds every copy of each of its rows and nothing else, so duplicate rows count twice in its sums |
| DataAgent.OnDateCounts | src/agents/data_agent.py:68-75 | a date's group (`OnDate`) holds every copy of each of its rows and nothing else, so duplicate rows count twice in its sums |
| DataAgent.RoasTrendSpec | src/agents/data_agent.py:62-77 | `RoasTrend` has one record per distinct non-missing date, each with that date's summed spend and revenue and ROAS = safe_div(revenue, spend) |
| DataAgent.KeepLarge | src/agents/data_agent.py:99 | a record is kept exactly when its summed impressions reach the minimum |
| DataAgent.KeepLargeUnique | src/agents/data_agent.py:99 | filtering keeps records unique by campaign |
| DataAgent.CampaignPerformanceSpec | src/agents/data_agent.py:79-101 | `CampaignPerformance` has at most one record per campaign; each holds its campaign's sums with CTR and ROAS from those sums; all campaigns reaching the minimum are present and only those |
| DataAgent.SortByRoas | src/agents/data_agent.py:109 | `sorted` by ROAS returns a permutation of its input in ROAS order, either direction |
| DataAgent.ExtremesSpec | src/agents/data_agent.py:108-119 | the first min(5, n) records in ROAS order, drawn from the input; no record left out ranks above any record kept |
| DataAgent.TopCampaignsSpec | src/agents/data_agent.py:103-110 | `TopCampaigns` is min(5, n) records from the campaign performance, ROAS non-increasing, none of the others with a higher ROAS |
| DataAgent.BottomCampaignsSpec | src/agents/data_agent.py:112-119 | `BottomCampaigns` is min(5, n) records from the campaign performance, ROAS non-decreasing, none of the others with a lower ROAS |
| DataAgent.SpendDistributionEntries | src/agents/data_agent.py:127-139 | `SpendDistribution` has one entry per distinct campaign of all rows (no impressions filter), each holding that campaign's summed spend |
| DataAgent.SpendDistributionTotal | src/agents/data_agent.py:127-130 | the total the shares are taken of is the total spend of all rows, which is also the sum of the entries' spends |
| DataAgent.SpendDistributionShares | src/agents/data_agent.py:136 | each share is spend / total × 100 when the total is positive, else 0 |
| DataAgent.SpendSharesSumTo100 | src/agents/data_agent.py:132-139 | over exact reals, a positive total spend gives shares that sum to 100 |
| DataAgent.LoadAndPrepare | src/agents/data_agent.py:24-56 | succeeds exactly when the dataset exists (FileNotFoundError otherwise); the summary is that of the trailing window of the configured dataset |
| DataAgent.SummarizeWellFormed | src/agents/data_agent.py:45-51 | every summary `Summarize` builds holds: unique campaigns, ranked lists of the right length drawn from the performance and ordered by ROAS, unique trend dates, unique distribution campaigns |
| LlmClient.Llm.Generate | src/llm_client.py:13-24 | one call: the prompt is appended to the history and the reply is the oracle's answer to that history |
| Planner.PlannerPrompt | src/agents/planner.py:18 | the prompt is the template, then "\n\nUSER_QUERY:\n", then the query |
| Planner.QueryOfPlannerPrompt | src/agents/planner.py:18 | the query can be recovered from the prompt |
| Planner.PlanFromReply | src/agents/planner.py:26-44 | a reply that parses is returned unchanged and unvalidated; otherwise `FallbackPlan`, the fixed four dict steps data_agent, insight_agent, evaluator, creative_generator with no action, which does not depend on the query |
| Planner.Plan | src/agents/planner.py:16-44 | exactly one model call, on the planner prompt; the result is the parsed reply or the fallback plan; `context` plays no part |
| InsightAgent.InsightPrompt | src/agents/insight_agent.py:11-15 | the prompt's five parts in order: template, summary header, serialised summary, query header, query |
| InsightAgent.HypothesesFromReply | src/agents/insight_agent.py:20-29 | a reply that parses is returned unchanged; otherwise `FallbackHypotheses`, the two fixed records {Low CTR, Creative fatigue} and {ROAS Drop, Weak targeting}, which depend on neither the summary nor the query |
| InsightAgent.GenerateHypotheses | src/agents/insight_agent.py:10-29 | a serialisation that raises escapes with no model call; otherwise exactly one model call, on the prompt built from the serialised summary and the query, and the result is the parsed reply or the fallback |
| InsightAgent.DumpAsWritten | src/agents/insight_agent.py:14 | `json.dumps` with no date handler succeeds exactly when every trend date is text, and otherwise raises TypeError |
| InsightAgent.DumpRefusesRecentData | src/agents/insight_agent.py:14 | as written, serialising the summary of any non-empty window raises TypeError |
| Evaluator.Verdicts | src/agents/evaluator.py:15-20 | the same length as the input; the i-th record carries the i-th hypothesis with validity "valid" and confidence 0.78 |
| Evaluator.EvaluatorOutput | src/agents/evaluator.py:11-23 | None or a non-iterable value raises TypeError; otherwise one verdict per element iterated (an empty list gives an empty list) |
| Evaluator.Evaluate | src/agents/evaluator.py:11-23 | the loop appending verdicts returns `EvaluatorOutput(hypotheses)`, whatever the frame |
| CreativeGenerator.Generate | src/agents/creative_generator.py:11-20 | exactly three creatives: the discount headline, bright backgrounds, social-proof testimonials, in that order |
| CreativeGenerator.GenerateIgnoresFrame | src/agents/creative_generator.py:11-20 | the result is the same for any frame and for none, so repeated calls return equal lists |
| Runner.StepsOf | src/orchestrator/runner.py:46 | a non-dict plan raises TypeError; a plan without "steps" raises KeyError("steps"); otherwise the entries are those `for` visits in `plan["steps"]` |
| Runner.DecodeStep | src/orchestrator/runner.py:51-82 | a string is a tag; a dict gives its `agent` and `action` (default ""); any other entry raises AttributeError |
| Runner.LoadData | src/orchestrator/runner.py:54 | succeeds exactly when the dataset exists (FileNotFoundError otherwise); puts `load_and_prepare`'s result in the summary slot and changes nothing else; sends no prompt |
| Runner.Insights | src/orchestrator/runner.py:64-67 | raises the serialiser's exception, sending nothing, when the summary does not serialise; otherwise puts the parsed reply or the fallback in the hypotheses slot, changes nothing else, and sends exactly the insight prompt |
| Runner.EvaluateStep | src/orchestrator/runner.py:70 | succeeds exactly when the evaluator does (TypeError otherwise); puts the evaluator's verdicts in the evaluated slot and changes nothing else |
| Runner.CreativesStep | src/orchestrator/runner.py:73 | fills the creatives slot with the three fixed creatives and nothing else |
| Runner.RunStep | src/orchestrator/runner.py:51-96 | an entry that is neither a string nor a dict raises AttributeError; an entry changes at most the slot it names |
| Runner.ExecStep | src/orchestrator/runner.py:51-96 | a step changes at most the slot it names; only an insight step sends a prompt, at most one |
| Runner.ExecSteps | src/orchestrator/runner.py:46-96 | the prompt log only grows; an error needs at least one entry |
| Runner.Pipeline | src/orchestrator/runner.py:29-103 | the planner prompt is always sent first; a missing dataset raises FileNotFoundError after that call alone |
| Runner.TagsMatchAgents | src/orchestrator/runner.py:53-96 | each tag behaves exactly as its dict counterpart; an insight step without a summary raises AttributeError for the tag and TypeError for the dict |
| Runner.ActionIgnored | src/orchestrator/runner.py:81-96 | a dict step's `action` never changes what it does |
| Runner.AnalyzeMetricsIdempotent | src/orchestrator/runner.py:56-61 | keeps a summary already there, otherwise loads as `load_data` does; running it twice equals running it once |
| Runner.UnknownStepIsNoOp | src/orchestrator/runner.py:51-96 | a step naming no slot (unknown tag, unknown or missing agent) leaves everything as it was |
| Runner.LastWriteWins | src/orchestrator/runner.py:51-96 | a writing step's outcome does not depend on its slot's old value (except `analyze_metrics`), so the last write wins |
| Runner.MissingDependencyRaises | src/orchestrator/runner.py:63-93 | insights before any summary end the run (AttributeError for the tag, TypeError for the dict); evaluating before any hypotheses raises TypeError; no prompt is sent |
| Runner.ExecStepsAppend | src/orchestrator/runner.py:46 | running a plan is running its first part, then the rest from where the first part ended |
| Runner.UnnamedSlotUnchanged | src/orchestrator/runner.py:40-103 | a slot no entry names ends as it began (None from the initial bundle) |
| Runner.PromptsPerInsightEntry | src/orchestrator/runner.py:63-90 | a run sends at most one prompt per insight entry, and exactly one per insight entry when it completes |
| Runner.PlanWithoutSteps | src/orchestrator/runner.py:34-46 | a plan without "steps" raises KeyError("steps"), and a non-dict plan raises TypeError, before any step runs and after the planner call alone |
| Runner.InsightsFallback | src/agents/insight_agent.py:10-29 | an insight step whose summary serialises and whose reply does not parse stores the two fallback hypotheses after one prompt |
| Runner.FallbackSteps | src/agents/planner.py:34-41 | the fallback plan's four entries in order fill all four slots, sending one insight prompt, when the model's replies do not parse and the summary serialises |
| Runner.FallbackStepsDumpFails | src/agents/planner.py:34-41 | when the summary does not serialise, the fallback plan stops at its insight entry with that exception, sending nothing |
| Runner.OfflineRun | src/orchestrator/runner.py:29-103 | when the model's replies do not parse, the summary serialises and the dataset exists, the run returns the window's summary, the two fallback hypotheses, their verdicts and the three creatives, after exactly the planner and insight prompts |
| Runner.OfflineRunAsWritten | src/orchestrator/runner.py:29-103 | with `json.dumps` as written, a planner reply that does not parse and a non-empty window, the run raises TypeError after sending only the planner prompt |
| Runner.Orchestrator.constructor | src/orchestrator/runner.py:19-27 | the orchestrator keeps its configuration, collaborators and client |
| Runner.Orchestrator.RunEntry | src/orchestrator/runner.py:47-96 | one pass of the loop body returns and sends exactly what `RunStep` gives for that plan entry; a step that raises sends nothing |
| Runner.Orchestrator.Run | src/orchestrator/runner.py:29-103 | the loop over the plan's entries returns exactly what `Pipeline` returns and sends exactly its prompts |

## Left out

- The language-model backend (`openai.chat.completions.create` in src/llm_client.py) is an oracle function of the prompt history. Network errors, the model name and the `temperature` argument are not modelled.
- `json.loads`, `json.dumps` of a summary, and `pd.to_datetime` of one date cell are function parameters of the model. Their own behaviour is library code and is not modelled, except that the serialiser may raise. `InsightAgent.DumpAsWritten` is the serialiser as the agent calls it; a serialiser that never raises is the corrected one described under Findings.
- `write_json_log` (src/utils/logging_utils.py) only appends to a log file. It does not affect any result, so it is not modelled.
- Reading prompt files (src/utils/prompts_loader.py) and `load_config` are not modelled. The templates and the configuration are inputs.
- A missing configuration key is assumed present. The KeyError it would raise is not modelled.
- Reading the CSV file is not modelled. The files on disk are a map from existing paths to their rows, and the rows are assumed well-typed.
- `datetime.now()` is read once per run as `Env.now`. The source reads the clock separately in the orchestrator and in each `load_and_prepare`; within a run those readings are taken to be equal.
- Floating-point arithmetic is modelled as exact `real` arithmetic. NaN appears only as a missing denominator of `safe_div`. NaN or missing values in row cells are not modelled.
- The group keys are in order of first occurrence; pandas sorts them. The contracts pin no order, but what the model computes does depend on it. The order of the trend, performance and distribution lists differs from the program's. So does which tied campaigns make the top and bottom five: the program keeps the alphabetically first of the campaigns tied at the fifth place, the model the first to occur.
- DataAgent.SortByRoas: does not state the stability of Python's `sorted` for records with equal ROAS. The definition inserts stably, but no contract says so.
- The row-level `ctr` and `roas` columns that `load_and_prepare` adds (src/agents/data_agent.py:39-40) are not modelled, because no later computation reads them.
- The `df.copy()` in `load_and_prepare` is not modelled: the data agent's helpers are functions on rows.
- The orchestrator's `__init__` builds its agents from the configuration.
  - It is modelled only as the keeping of `Env` and the client.
  - Agent objects without state of their own are functions or methods that take the templates as arguments.
- The result dict is the datatype `Bundle`, whose four fields are its four keys. A summary is the datatype `Summary`, whose five fields are the five keys of the summary dict.

## Findings

| source | as written | input that shows it | evidently intended | confidence | as-written member | corrected member |
|---|---|---|---|---|---|---|
| src/agents/insight_agent.py:14 | `json.dumps(data_summary, indent=2)` is called with no date handler. The summary's `roas_trend` records carry the pandas Timestamps built by `groupby("date")` (src/agents/data_agent.py:68-77), and the default encoder refuses Timestamps with TypeError. | Any dataset with at least one row dated within the last seven days, run with the fallback plan. The `insight_agent` step raises before the model is called. | Serialise the summary with its dates rendered as text (for example `default=str`), so the insight step returns hypotheses. | not executed; high, because the Python encoder rejects `datetime` objects | InsightAgent.DumpAsWritten, InsightAgent.DumpRefusesRecentData, Runner.OfflineRunAsWritten | Runner.OfflineRun |
