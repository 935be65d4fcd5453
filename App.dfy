/** The data flow of `main`: read the input lines, classify them, write the
    invalid and the valid lists as text, and build the report of the valid ones. */
module App {
  import opened Validator
  import opened Fields
  import opened Batch
  import opened Lines

  /** The two written texts are the two partitions of the input lines, each
      line followed by '\n', and read back as those partitions; the report has
      one row per valid line, in order, whose fields reassemble it. */
  method ProcessInput(input: string)
    returns (invalidText: string, validText: string, rows: seq<ReportRow>)
    ensures invalidText == Join(Select(ReadLines(input), false))
    ensures validText == Join(Select(ReadLines(input), true))
    ensures ReadLines(invalidText) == Select(ReadLines(input), false)
    ensures ReadLines(validText) == Select(ReadLines(input), true)
    ensures |rows| == |Select(ReadLines(input), true)|
    ensures forall k :: 0 <= k < |rows| ==> rows[k] == Row(Select(ReadLines(input), true)[k])
    ensures forall k :: 0 <= k < |rows| ==>
              Assemble(ShabaFields(rows[k].bankCode, rows[k].bban)) == Select(ReadLines(input), true)[k]
  {
    var lines := ReadLines(input);
    var validShabas, invalidShabas := Classify(lines);
    invalidText := WriteContent(invalidShabas);
    validText := WriteContent(validShabas);
    rows := BuildReport(validShabas);
  }
}
