/** The creative generator (src/agents/creative_generator.py): a constant list of three ideas. */
module CreativeGenerator {
  import opened Wrappers
  import opened DataLoader

  /** `{"idea": ...}`. */
  datatype Creative = Creative(idea: string)

  /** `generate(df)`: the three static creatives, whatever the frame (or its absence). */
  function Generate(df: Option<seq<Row>>): (r: seq<Creative>)
    ensures |r| == 3
    ensures r[0].idea == "Use a bold headline highlighting discount"
    ensures r[1].idea == "Try bright background colors"
    ensures r[2].idea == "Add social proof testimonials"
  {
    [Creative("Use a bold headline highlighting discount"),
     Creative("Try bright background colors"),
     Creative("Add social proof testimonials")]
  }

  /** The frame never influences the result, so repeated calls return equal lists. */
  lemma GenerateIgnoresFrame(a: Option<seq<Row>>, b: Option<seq<Row>>)
    ensures Generate(a) == Generate(b)
  {
  }
}
