/**
 * SampleStepBuilder: a demonstration step that reads the numbers 1 to 10,
 * doubles each and hands the results to a writer that only logs them.
 */
module SampleStepBuilder {
  import opened Wrappers
  import opened JavaText
  import opened AbstractStepBuilder

  const StepName: string := "SAMPLE_STEP"

  /** countTotalItems(): a fixed 10. */
  const TotalItems: int := 10

  /** The afterStep hook's INFO row, given the processed counter. */
  function AfterStepLog(processed: int): Option<InfoLog> {
    Some(InfoLog("Sample step completed", "Processed " + IntToString(processed) + " items"))
  }

  const Definition: StepDefinition := StepDefinition(
    StepName,
    Some("Starting sample step - processing numbers from 1 to 10"),
    FixedTotal(TotalItems),
    Some(InfoLog("Sample step started", "Will process 10 numbers")),
    AfterStepLog)

  /** reader(): the list the ListItemReader hands out, built by a counted loop. */
  method Reader() returns (numbers: seq<int>)
    ensures |numbers| == TotalItems == CountTotalItems(Definition.total, 0)
    ensures forall i :: 0 <= i < |numbers| ==> numbers[i] == i + 1
  {
    numbers := [];
    var i := 1;
    while i <= 10
      invariant 1 <= i <= 11
      invariant |numbers| == i - 1
      invariant forall j :: 0 <= j < |numbers| ==> numbers[j] == j + 1
    {
      numbers := numbers + [i];
      i := i + 1;
    }
  }

  /** processor(): `item * 2` in 32-bit int arithmetic. */
  function Process(item: int): (r: int)
    requires IsInt32(item)
    ensures IsInt32(r)
    ensures IsInt32(2 * item) ==> r == 2 * item
    ensures (r - 2 * item) % TwoTo32 == 0
  {
    Wrap32(item * 2)
  }
}
