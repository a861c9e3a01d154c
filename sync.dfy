/**
 * The per-date sync loop: for each date, read the day, locate the stored
 * page, decide, and issue at most one write.
 */
module Sync {
  import opened Wrappers
  import opened NotionSchema
  import opened SourceReader
  import opened RecordLocator
  import opened Reconciler
  import opened Writer

  /**
   * What the outside world answers for one date: the provider's day, `None`
   * when it has no data or when reading the day or its water raised; the
   * water reading, `None` when the provider returned none; and the store's
   * answer to the date query, `None` when the query raised or came back empty.
   */
  datatype DateInput = DateInput(
    date: string,
    day: Option<Day>,
    water: Option<int>,
    response: Option<seq<Page>>)

  /** The decision for one date; the store is consulted only when there is a snapshot. */
  function DecisionFor(input: DateInput): Decision {
    match SnapshotOf(input.date, input.day, input.water)
    case None => Skip
    case Some(s) => Decide(Some(s), FirstResult(input.response))
  }

  /** The write for one date, if any. */
  function WriteFor(databaseId: string, input: DateInput): Option<Request> {
    match SnapshotOf(input.date, input.day, input.water)
    case None => None
    case Some(s) => RequestFor(databaseId, DecisionFor(input), s)
  }

  /** The writes issued over a list of dates, in order. */
  function Writes(databaseId: string, inputs: seq<DateInput>): seq<Request> {
    if inputs == [] then []
    else
      var w := WriteFor(databaseId, inputs[|inputs| - 1]);
      Writes(databaseId, inputs[..|inputs| - 1]) + (if w.Some? then [w.value] else [])
  }

  /** An update always targets the first page the date query returned. */
  lemma UpdateTargetsFirstResult(input: DateInput)
    requires DecisionFor(input).Update?
    ensures input.day.Some?
    ensures input.response.Some? && |input.response.value| > 0
    ensures DecisionFor(input).pageId == input.response.value[0].id
  {
  }

  /** The number of dates among `inputs` whose decision writes: Create or Update. */
  function WritingDates(inputs: seq<DateInput>): nat {
    if inputs == [] then 0
    else
      var d := DecisionFor(inputs[|inputs| - 1]);
      WritingDates(inputs[..|inputs| - 1]) + (if d.Create? || d.Update? then 1 else 0)
  }

  /** A further date adds at most one write, and exactly one when it is decided Create or Update. */
  lemma WritesAtMostOnePerDate(databaseId: string, inputs: seq<DateInput>, x: DateInput)
    ensures |Writes(databaseId, inputs + [x])| <= |Writes(databaseId, inputs)| + 1
    ensures |Writes(databaseId, inputs + [x])| == |Writes(databaseId, inputs)| + 1 <==>
      DecisionFor(x).Create? || DecisionFor(x).Update?
  {
    assert (inputs + [x])[..|inputs + [x]| - 1] == inputs;
  }

  /** A date without provider data, wherever it falls among the dates, adds no write. */
  lemma NoDataNoWrites(databaseId: string, inputs: seq<DateInput>, x: DateInput)
    requires x.day.None?
    ensures Writes(databaseId, inputs + [x]) == Writes(databaseId, inputs)
  {
    assert (inputs + [x])[..|inputs + [x]| - 1] == inputs;
  }

  /** Over a whole run, the writes are exactly one per date decided Create or Update, so never more than the dates. */
  lemma {:induction false} WritesCountWritingDates(databaseId: string, inputs: seq<DateInput>)
    ensures |Writes(databaseId, inputs)| == WritingDates(inputs)
    ensures |Writes(databaseId, inputs)| <= |inputs|
    decreases |inputs|
  {
    if inputs != [] {
      WritesCountWritingDates(databaseId, inputs[..|inputs| - 1]);
    }
  }

  /**
   * The main loop over the dates to sync: returns the decision taken for each
   * date and the writes issued, in order.
   */
  method SyncDates(databaseId: string, inputs: seq<DateInput>)
    returns (decisions: seq<Decision>, writes: seq<Request>)
    ensures |decisions| == |inputs|
    ensures forall i :: 0 <= i < |inputs| ==> decisions[i] == DecisionFor(inputs[i])
    ensures writes == Writes(databaseId, inputs)
  {
    decisions, writes := [], [];
    for i := 0 to |inputs|
      invariant |decisions| == i
      invariant forall k :: 0 <= k < i ==> decisions[k] == DecisionFor(inputs[k])
      invariant writes == Writes(databaseId, inputs[..i])
    {
      var input := inputs[i];
      assert inputs[..i + 1][..i] == inputs[..i];
      var snapshot := ReadSnapshot(input.date, input.day, input.water);
      if snapshot.None? {
        decisions := decisions + [Skip];
      } else {
        var existing := FirstResult(input.response);
        var decision := Decide(snapshot, existing);
        decisions := decisions + [decision];
        var request := RequestFor(databaseId, decision, snapshot.value);
        if request.Some? {
          writes := writes + [request.value];
        }
      }
    }
    assert inputs[..|inputs|] == inputs;
  }
}
