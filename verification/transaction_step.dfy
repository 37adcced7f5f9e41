/**
 * TransactionStepBuilder: the concrete step over the transaction table. Its
 * processor asks the external API about each claimed transaction and marks
 * failures ERROR; its writer marks a written chunk COMPLETED, or ERROR when
 * that write fails.
 *
 * The external API's answer is a boolean parameter (the service catches every
 * failure itself and answers false). Each store write that may fail gets a
 * parameter: the exception it throws, or None when it succeeds; a failed
 * write leaves the table as it was.
 */
module TransactionStepBuilder {
  import opened Wrappers
  import opened Domain
  import opened JavaText
  import Enumeration
  import opened TransactionRepository
  import opened AbstractStepBuilder

  const StepName: string := "TRANSACTION_PROCESSING_STEP"

  /** The afterStep hook's INFO row, given the processed counter. */
  function AfterStepLog(processed: int): Option<InfoLog> {
    Some(InfoLog("Transaction processing step completed", "Processed " + IntToString(processed) + " transactions"))
  }

  /** getStepName, getLogMessageAtStart, countTotalItems (the page source's count, cast to int) and the two hooks. */
  const Definition: StepDefinition := StepDefinition(
    StepName,
    Some("Starting transaction processing step - processing transactions from database"),
    PackageCount,
    Some(InfoLog("Transaction processing step started",
      "Will process transactions from Oracle Package in batches of 10 (limit set in package)")),
    AfterStepLog)

  const ErrorValue: Option<string> := Enumeration.GetValue(Enumeration.ERROR)
  const CompletedValue: Option<string> := Enumeration.GetValue(Enumeration.COMPLETED)

  /** A Long id in string concatenation: its digits, or "null". */
  function IdText(id: Option<int>): string {
    if id.None? then "null" else IntToString(id.value)
  }

  const ApiFailurePrefix: string := "External API call failed for transaction id="

  /** The RuntimeException the processor throws when the API answers false: one the step skips. */
  function ApiFailure(id: Option<int>): (e: Throwable)
    ensures Skippable(e)
    ensures e.message.Some? && ApiFailurePrefix < e.message.value
  {
    var message := ApiFailurePrefix + IdText(id);
    Throwable(OtherExceptionKind, Some(message), "java.lang.RuntimeException: " + message)
  }

  /** updateTransactionStatus(id, ERROR) as it lands on the table. */
  function MarkedError(rows: seq<Transaction>, id: Option<int>): seq<Transaction> {
    if id.None? then rows else WithStatus(rows, {id.value}, ErrorValue)
  }

  /** The chunk's ids, in chunk order, nulls included. */
  function ChunkIds(items: seq<Transaction>): (ids: seq<Option<int>>)
    ensures |ids| == |items|
    ensures forall i :: 0 <= i < |items| ==> ids[i] == items[i].id
  {
    if items == [] then [] else [items[0].id] + ChunkIds(items[1..])
  }

  /** The loop that fills processedIds (and errorIds) from the chunk. */
  method CollectIds(items: seq<Transaction>) returns (ids: seq<Option<int>>)
    ensures ids == ChunkIds(items)
  {
    ids := [];
    for i := 0 to |items|
      invariant |ids| == i
      invariant forall j :: 0 <= j < i ==> ids[j] == items[j].id
    {
      ids := ids + [items[i].id];
    }
  }

  /**
   * The processor. On success the item comes back unchanged and the table is
   * not written. On an API failure the item is marked ERROR and an exception
   * is thrown: the failure of the first ERROR write if it failed, otherwise
   * the API failure; the catch block writes ERROR once more and swallows a
   * failure of that second write.
   */
  method Process(store: TransactionStore, transaction: Transaction, apiSuccess: bool,
                 firstWrite: Option<Throwable>, secondWrite: Option<Throwable>)
    returns (r: Result<Transaction, Throwable>)
    requires store.Valid()
    requires transaction.id.None? ==> firstWrite.None? && secondWrite.None?   // no statement, no failure
    modifies store
    ensures store.Valid() && store.nextId == old(store.nextId)
    ensures apiSuccess ==> r == Ok(transaction) && store.rows == old(store.rows)
    ensures !apiSuccess ==> r.Err? && r.error == (if firstWrite.Some? then firstWrite.value else ApiFailure(transaction.id))
    ensures !apiSuccess ==> store.rows == if firstWrite.None? || secondWrite.None?
                                          then MarkedError(old(store.rows), transaction.id)
                                          else old(store.rows)
  {
    if apiSuccess {
      return Ok(transaction);
    }
    var thrown: Throwable;
    if firstWrite.Some? {
      thrown := firstWrite.value;
    } else {
      store.UpdateTransactionStatus(transaction.id, ErrorValue);
      thrown := ApiFailure(transaction.id);
    }
    // the catch block
    if secondWrite.None? {
      store.UpdateTransactionStatus(transaction.id, ErrorValue);
      if transaction.id.Some? && firstWrite.None? {
        WithStatusIdempotent(old(store.rows), {transaction.id.value}, ErrorValue);
      }
    }
    return Err(thrown);
  }

  /**
   * The writer. An empty chunk writes nothing. Otherwise one bulk write marks
   * every id of the chunk COMPLETED; if that write throws, one bulk write
   * marks them all ERROR (its own failure swallowed) and the first exception
   * is rethrown.
   */
  method Write(store: TransactionStore, items: seq<Transaction>,
               bulkWrite: Option<Throwable>, errorWrite: Option<Throwable>)
    returns (thrown: Option<Throwable>)
    requires store.Valid()
    modifies store
    ensures store.Valid() && store.nextId == old(store.nextId)
    ensures items == [] ==> thrown.None? && store.rows == old(store.rows)
    ensures items != [] && bulkWrite.None? ==>
      thrown.None? && store.rows == WithStatus(old(store.rows), ListedIds(ChunkIds(items)), CompletedValue)
    ensures items != [] && bulkWrite.Some? ==>
      thrown == bulkWrite &&
      store.rows == if errorWrite.None? then WithStatus(old(store.rows), ListedIds(ChunkIds(items)), ErrorValue)
                    else old(store.rows)
  {
    var processedIds := CollectIds(items);
    if |processedIds| > 0 {
      if bulkWrite.None? {
        store.UpdateTransactionsStatus(Some(processedIds), CompletedValue);
        return None;
      }
      // the catch block
      var errorIds := CollectIds(items);
      if |errorIds| > 0 && errorWrite.None? {
        store.UpdateTransactionsStatus(Some(errorIds), ErrorValue);
      }
      return bulkWrite;
    }
    return None;
  }
}
