/**
 * TransactionDataInitializer: seeds an empty transaction table with 25
 * unclaimed sample transactions, one hour apart, the newest created now.
 *
 * The clock is read once per item; the readings are a parameter.
 */
module TransactionDataInitializer {
  import opened Wrappers
  import opened Domain
  import opened JavaText
  import opened TransactionRepository

  const Branches: seq<string> := ["HN001", "HN002", "HN003", "HCM001", "HCM002", "DN001"]
  const SampleCount: int := 25
  const NanosPerHour: int := 3600 * 1_000_000_000

  /** Item i (counting from 1) when the clock reads now; its amount 1000*i + i*0.5 is exact. */
  function SampleTransaction(i: nat, now: Instant): Transaction {
    Transaction(
      None,
      Some(Branches[i % |Branches|]),
      Some("Transaction " + IntToString(i)),
      Some((1000 * i) as real + (i as real) * 0.5),
      Some(now - NanosPerHour * (SampleCount - i)),
      None)
  }

  /** The list createSampleTransactions builds, given the clock reading taken for each item. */
  function Samples(clock: seq<Instant>): seq<Transaction>
    requires |clock| == SampleCount
  {
    seq(SampleCount, k requires 0 <= k < SampleCount => SampleTransaction(k + 1, clock[k]))
  }

  /** A wall clock that does not run backwards while the list is built. */
  predicate Monotone(clock: seq<Instant>) {
    forall i, j :: 0 <= i <= j < |clock| ==> clock[i] <= clock[j]
  }

  /** createSampleTransactions(): the counted loop over i = 1..25. */
  method CreateSampleTransactions(clock: seq<Instant>) returns (items: seq<Transaction>)
    requires |clock| == SampleCount
    ensures items == Samples(clock)
    ensures forall k :: 0 <= k < |items| ==> items[k].id.None? && items[k].status.None?
  {
    items := [];
    var i := 1;
    while i <= 25
      invariant 1 <= i <= SampleCount + 1
      invariant |items| == i - 1
      invariant forall k :: 0 <= k < |items| ==> items[k] == SampleTransaction(k + 1, clock[k])
    {
      var transaction := EmptyTransaction;
      transaction := transaction.(branch := Some(Branches[i % |Branches|]));
      transaction := transaction.(name := Some("Transaction " + IntToString(i)));
      transaction := transaction.(amount := Some((1000 * i) as real + (i as real) * 0.5));
      transaction := transaction.(createDate := Some(clock[i - 1] - NanosPerHour * (SampleCount - i)));
      items := items + [transaction];
      i := i + 1;
    }
  }

  /** Item k of the list: no id, no status, created 24 - k hours before its clock reading. */
  lemma SampleAt(clock: seq<Instant>, k: int)
    requires |clock| == SampleCount && 0 <= k < SampleCount
    ensures Samples(clock)[k].id.None? && Samples(clock)[k].status.None?
    ensures Samples(clock)[k].createDate == Some(clock[k] - NanosPerHour * (SampleCount - 1 - k))
    ensures Samples(clock)[k].name == Some("Transaction " + IntToString(k + 1))
  {
    assert Samples(clock)[k] == SampleTransaction(k + 1, clock[k]);
  }

  /** Later items are created strictly later, as long as the clock does not run backwards. */
  lemma CreatedLater(clock: seq<Instant>, i: int, j: int)
    requires |clock| == SampleCount && Monotone(clock) && 0 <= i < j < SampleCount
    ensures clock[i] - NanosPerHour * (SampleCount - 1 - i) < clock[j] - NanosPerHour * (SampleCount - 1 - j)
  {
    assert clock[i] <= clock[j];
    assert NanosPerHour * (SampleCount - 1 - i) == NanosPerHour * (SampleCount - 1 - j) + NanosPerHour * (j - i);
  }

  /** Seeded rows are numbered, unclaimed, and strictly increasing in (createDate, id) order. */
  lemma SeededRowsSorted(clock: seq<Instant>, first: int)
    requires |clock| == SampleCount && Monotone(clock)
    ensures var rows := Numbered(Samples(clock), first);
            && WellKeyed(rows) && Sorted(rows)
            && forall k :: 0 <= k < |rows| ==> IsUnset(rows[k])
  {
    var items := Samples(clock);
    var rows := Numbered(items, first);
    forall k | 0 <= k < |rows| ensures IsUnset(rows[k]) {
      SampleAt(clock, k);
    }
    forall i, j | 0 <= i < j < |rows| ensures Before(rows[i], rows[j]) {
      SampleAt(clock, i);
      SampleAt(clock, j);
      CreatedLater(clock, i, j);
    }
  }

  /** In a freshly seeded table the claim queue is the insertion order. */
  lemma SeededQueueIsInsertionOrder(clock: seq<Instant>, first: int)
    requires |clock| == SampleCount && Monotone(clock)
    ensures SortedUnset(Numbered(Samples(clock), first)) == Numbered(Samples(clock), first)
  {
    var rows := Numbered(Samples(clock), first);
    SeededRowsSorted(clock, first);
    SortedWhereSpec(rows, IsUnset);
    SortedUnique(SortedUnset(rows), rows);
  }

  /** init(): nothing when the table has rows; otherwise the 25 samples are saved. */
  method Init(store: TransactionStore, clock: seq<Instant>)
    requires store.Valid() && |clock| == SampleCount
    modifies store
    ensures store.Valid()
    ensures old(store.Count()) > 0 ==> store.rows == old(store.rows) && store.nextId == old(store.nextId)
    ensures old(store.Count()) == 0 ==>
      store.rows == Numbered(Samples(clock), old(store.nextId)) && |store.rows| == SampleCount
  {
    if store.Count() > 0 {
      return;
    }
    var transactions := CreateSampleTransactions(clock);
    store.SaveAllNew(transactions);
  }

  /** A claim seen from the queue alone: what it returns and what it leaves queued. */
  method ClaimNext(store: TransactionStore, limit: int, ghost queue: seq<Transaction>) returns (claimed: seq<Transaction>)
    requires store.Valid() && SortedUnset(store.rows) == queue
    modifies store
    ensures store.Valid()
    ensures claimed == Marked(queue[..ClaimCount(limit, |queue|)], Some(ClaimMark))
    ensures SortedUnset(store.rows) == queue[ClaimCount(limit, |queue|)..]
  {
    claimed := store.FetchAndMarkTransactions(limit);
  }

  /** The first claim holds items 1..10 and the third items 21..25, by name. */
  lemma ClaimedNames(clock: seq<Instant>, first: seq<Transaction>, third: seq<Transaction>)
    requires |clock| == SampleCount
    requires first == Marked(Numbered(Samples(clock), 1)[..10], Some(ClaimMark))
    requires third == Marked(Numbered(Samples(clock), 1)[20..][..5], Some(ClaimMark))
    ensures forall k :: 0 <= k < 10 ==> first[k].name == Some("Transaction " + IntToString(k + 1))
    ensures forall k :: 0 <= k < 5 ==> third[k].name == Some("Transaction " + IntToString(k + 21))
  {
    var queue := Numbered(Samples(clock), 1);
    forall k | 0 <= k < 10 ensures first[k].name == Some("Transaction " + IntToString(k + 1)) {
      assert first[k] == queue[k].(status := Some(ClaimMark));
      SampleAt(clock, k);
    }
    forall k | 0 <= k < 5 ensures third[k].name == Some("Transaction " + IntToString(k + 21)) {
      assert third[k] == queue[k + 20].(status := Some(ClaimMark));
      SampleAt(clock, k + 20);
    }
  }

  /**
   * Seeding an empty table and claiming with the package's limit of 10:
   * the claims return 10, 10 and 5 rows, the oldest first, and the fourth
   * returns none.
   */
  method SeedAndClaim(clock: seq<Instant>) returns (first: seq<Transaction>, second: seq<Transaction>,
                                                    third: seq<Transaction>, fourth: seq<Transaction>)
    requires |clock| == SampleCount && Monotone(clock)
    ensures |first| == 10 && |second| == 10 && |third| == 5 && fourth == []
    ensures forall k :: 0 <= k < 10 ==> first[k].name == Some("Transaction " + IntToString(k + 1))
    ensures forall k :: 0 <= k < 5 ==> third[k].name == Some("Transaction " + IntToString(k + 21))
  {
    var store := new TransactionStore();
    Init(store, clock);
    ghost var queue := Numbered(Samples(clock), 1);
    SeededQueueIsInsertionOrder(clock, 1);
    assert SortedUnset(store.rows) == queue && |queue| == 25;
    first := ClaimNext(store, 10, queue);
    second := ClaimNext(store, 10, queue[10..]);
    assert queue[10..][10..] == queue[20..];
    third := ClaimNext(store, 10, queue[20..]);
    fourth := ClaimNext(store, 10, queue[20..][5..]);
    ClaimedNames(clock, first, third);
  }
}
