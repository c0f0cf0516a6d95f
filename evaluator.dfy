/** The evaluator agent (src/agents/evaluator.py): one fixed verdict record per
    hypothesis, in order. */
module Evaluator {
  import opened Wrappers
  import opened Json
  import opened DataLoader

  const Validity: string := "valid"
  const Confidence: real := 0.78

  /** `{"hypothesis": ..., "validity": ..., "confidence": ...}`. */
  datatype Evaluation = Evaluation(hypothesis: Json, validity: string, confidence: real)

  function Verdict(h: Json): Evaluation {
    Evaluation(h, Validity, Confidence)
  }

  /** The verdicts of a list of hypotheses: same length, same order, fixed validity and confidence. */
  function Verdicts(hs: seq<Json>): (r: seq<Evaluation>)
    ensures |r| == |hs|
    ensures forall i :: 0 <= i < |hs| ==>
              r[i].hypothesis == hs[i] && r[i].validity == "valid" && r[i].confidence == 0.78
  {
    if hs == [] then [] else [Verdict(hs[0])] + Verdicts(hs[1..])
  }

  /** What `evaluate` returns for the value of the hypotheses slot: an unset
      slot (Python None) or a value that cannot be iterated raises TypeError. */
  function EvaluatorOutput(hypotheses: Option<Json>): (r: Result<seq<Evaluation>, Exception>)
    ensures hypotheses.None? ==> r == Err(TypeError)
    ensures hypotheses.Some? ==> (r.Ok? <==> Iterate(hypotheses.value).Ok?)
    ensures r.Err? ==> r.error == TypeError
    ensures r.Ok? ==> r.value == Verdicts(Iterate(hypotheses.value).value)
  {
    match hypotheses
    case None => Err(TypeError)
    case Some(j) =>
      var hs :- Iterate(j);
      Ok(Verdicts(hs))
  }

  /** `evaluate(df, hypotheses)`: appends one verdict per hypothesis; neither
      the frame nor the configuration is read. */
  method Evaluate(df: seq<Row>, hypotheses: Option<Json>) returns (r: Result<seq<Evaluation>, Exception>)
    ensures r == EvaluatorOutput(hypotheses)
  {
    if hypotheses.None? {
      return Err(TypeError);
    }
    var items := Iterate(hypotheses.value);
    if items.Err? {
      return Err(items.error);
    }
    var hs := items.value;
    var result: seq<Evaluation> := [];
    for i := 0 to |hs|
      invariant |result| == i
      invariant forall k :: 0 <= k < i ==> result[k] == Verdict(hs[k])
    {
      result := result + [Verdict(hs[i])];
    }
    assert result == Verdicts(hs);
    return Ok(result);
  }
}
