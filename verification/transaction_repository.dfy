/**
 * TransactionRepositoryImpl: the transaction table, the claim that selects and
 * marks the oldest unclaimed rows, and the point and bulk status writes.
 *
 * The SQL statements are modelled by what they select and write. The order of
 * a claim is ORDER BY create_date ASC, id ASC with Oracle's default of NULLs
 * last; the claim is modelled one call at a time.
 */
module TransactionRepository {
  import opened Wrappers
  import opened Domain
  import Enumeration

  /**
   * The status text the claim writes. The source names TransactionStatus.PENDING,
   * a constant the enum does not declare; the text "PENDING" is what the
   * repository interface documents.
   */
  const ClaimMark: string := "PENDING"

  /** Read back through TransactionStatus.fromValue, a claimed row looks unprocessed. */
  lemma ClaimMarkDecodesToNull()
    ensures Enumeration.FromValue(Some(ClaimMark)) == Enumeration.NULL
  {
    assert Enumeration.Values == [Enumeration.NULL, Enumeration.JOB_PROCESSING, Enumeration.COMPLETED, Enumeration.ERROR];
  }

  // ---------------------------------------------------------------- key order

  /** Ascending order with NULL sorted after every value. */
  predicate NullsLastBefore(a: Option<int>, b: Option<int>) {
    a.Some? && (b.None? || a.value < b.value)
  }

  /** a comes strictly before b under ORDER BY create_date ASC, id ASC. */
  predicate Before(a: Transaction, b: Transaction) {
    || NullsLastBefore(a.createDate, b.createDate)
    || (a.createDate == b.createDate && NullsLastBefore(a.id, b.id))
  }

  lemma BeforeIrreflexive(a: Transaction)
    ensures !Before(a, a)
  {
  }

  lemma BeforeTransitive(a: Transaction, b: Transaction, c: Transaction)
    requires Before(a, b) && Before(b, c)
    ensures Before(a, c)
  {
  }

  /** Rows with distinct ids are always ordered one way or the other. */
  lemma BeforeTotal(a: Transaction, b: Transaction)
    requires a.id.Some? && b.id.Some? && a.id != b.id
    ensures Before(a, b) || Before(b, a)
  {
  }

  /** Strictly ascending by key. */
  predicate Sorted(s: seq<Transaction>) {
    forall i, j :: 0 <= i < j < |s| ==> Before(s[i], s[j])
  }

  /** Rows as the table holds them: every id present (the primary key), no id twice. */
  predicate WellKeyed(rows: seq<Transaction>) {
    && (forall i :: 0 <= i < |rows| ==> rows[i].id.Some?)
    && (forall i, j :: 0 <= i < j < |rows| ==> rows[i].id != rows[j].id)
  }

  // ---------------------------------------------------------------- selections

  /** Places x into a key-sorted sequence. */
  function Insert(s: seq<Transaction>, x: Transaction): seq<Transaction>
    decreases |s|
  {
    if s == [] then [x]
    else if Before(x, s[0]) then [x] + s
    else [s[0]] + Insert(s[1..], x)
  }

  /** SELECT t FROM transaction t WHERE p(t) ORDER BY t.create_date, t.id. */
  function SortedWhere(rows: seq<Transaction>, p: Transaction -> bool): seq<Transaction>
    decreases |rows|
  {
    if rows == [] then []
    else
      var last := rows[|rows| - 1];
      var prefix := SortedWhere(rows[..|rows| - 1], p);
      if p(last) then Insert(prefix, last) else prefix
  }

  /** The number of rows satisfying p. */
  function CountWhere(rows: seq<Transaction>, p: Transaction -> bool): nat
    decreases |rows|
  {
    if rows == [] then 0
    else CountWhere(rows[..|rows| - 1], p) + (if p(rows[|rows| - 1]) then 1 else 0)
  }

  /** status IS NULL. */
  predicate IsUnset(t: Transaction) {
    t.status.None?
  }

  /** The claim queue: every unclaimed row, oldest first. */
  function SortedUnset(rows: seq<Transaction>): seq<Transaction> {
    SortedWhere(rows, IsUnset)
  }

  /** How many rows a claim with this limit selects: ROWNUM <= limit over the available rows. */
  function ClaimCount(limit: int, available: nat): nat {
    if limit <= 0 then 0 else if limit < available then limit else available
  }

  /** The ids a list of rows carries. */
  function IdsOf(s: seq<Transaction>): set<int> {
    set t | t in s && t.id.Some? :: t.id.value
  }

  /** WHERE t.id IN ids. */
  predicate Targeted(t: Transaction, ids: set<int>) {
    t.id.Some? && t.id.value in ids
  }

  /** UPDATE transaction SET status = :status WHERE id IN :ids. */
  function WithStatus(rows: seq<Transaction>, ids: set<int>, status: Option<string>): (r: seq<Transaction>)
    ensures |r| == |rows|
    ensures forall i :: 0 <= i < |rows| ==>
      r[i] == if Targeted(rows[i], ids) then rows[i].(status := status) else rows[i]
  {
    if rows == [] then []
    else [if Targeted(rows[0], ids) then rows[0].(status := status) else rows[0]]
         + WithStatus(rows[1..], ids, status)
  }

  /** The rows of s with their status replaced. */
  function Marked(s: seq<Transaction>, status: Option<string>): (r: seq<Transaction>)
    ensures |r| == |s| && forall i :: 0 <= i < |s| ==> r[i] == s[i].(status := status)
  {
    seq(|s|, i requires 0 <= i < |s| => s[i].(status := status))
  }

  // ---------------------------------------------------------------- lemmas

  /** Prepending a row that comes before every element keeps a sequence sorted. */
  lemma SortedCons(a: Transaction, r: seq<Transaction>)
    requires Sorted(r) && forall y :: y in r ==> Before(a, y)
    ensures Sorted([a] + r)
  {
    forall i, j | 0 <= i < j < |[a] + r| ensures Before(([a] + r)[i], ([a] + r)[j]) {
      assert ([a] + r)[j] == r[j - 1];
      if i > 0 {
        assert ([a] + r)[i] == r[i - 1];
      }
    }
  }

  lemma {:induction false} InsertSpec(s: seq<Transaction>, x: Transaction)
    requires Sorted(s) && x.id.Some?
    requires forall y :: y in s ==> y.id.Some? && y.id != x.id
    ensures Sorted(Insert(s, x)) && |Insert(s, x)| == |s| + 1
    ensures forall y :: y in Insert(s, x) <==> y == x || y in s
    decreases |s|
  {
    if s == [] {
    } else if Before(x, s[0]) {
      forall y | y in s ensures Before(x, y) {
        var j :| 0 <= j < |s| && s[j] == y;
        if j > 0 {
          BeforeTransitive(x, s[0], s[j]);
        }
      }
      SortedCons(x, s);
    } else {
      var rest := s[1..];
      BeforeTotal(x, s[0]);
      assert Sorted(rest) by {
        forall i, j | 0 <= i < j < |rest| ensures Before(rest[i], rest[j]) {
          assert rest[i] == s[i + 1] && rest[j] == s[j + 1];
        }
      }
      InsertSpec(rest, x);
      var r := Insert(rest, x);
      forall y | y in r ensures Before(s[0], y) {
        if y != x {
          var j :| 0 <= j < |rest| && rest[j] == y;
          assert s[j + 1] == y;
        }
      }
      SortedCons(s[0], r);
      assert s == [s[0]] + rest;
    }
  }

  /** Two distinct rows of a well-keyed table have different ids. */
  lemma SameIdSameRow(rows: seq<Transaction>, a: Transaction, b: Transaction)
    requires WellKeyed(rows) && a in rows && b in rows && a.id == b.id
    ensures a == b
  {
    var i :| 0 <= i < |rows| && rows[i] == a;
    var j :| 0 <= j < |rows| && rows[j] == b;
    assert rows[i].id == rows[j].id;
  }

  /** A selection is in key order and holds exactly the rows satisfying its condition. */
  lemma {:induction false} SortedWhereSpec(rows: seq<Transaction>, p: Transaction -> bool)
    requires WellKeyed(rows)
    ensures Sorted(SortedWhere(rows, p))
    ensures forall y :: y in SortedWhere(rows, p) <==> y in rows && p(y)
    ensures |SortedWhere(rows, p)| == CountWhere(rows, p)
    decreases |rows|
  {
    if rows != [] {
      var n := |rows|;
      var pre := rows[..n - 1];
      var last := rows[n - 1];
      assert rows == pre + [last];
      SortedWhereSpec(pre, p);
      var prefix := SortedWhere(pre, p);
      if p(last) {
        forall y | y in prefix ensures y.id.Some? && y.id != last.id {
          var i :| 0 <= i < |pre| && pre[i] == y;
          assert rows[i] == y;
        }
        InsertSpec(prefix, last);
      }
    }
  }

  /** Sorted sequences with the same members are equal: a selection is determined by its rows. */
  lemma {:induction false} SortedUnique(a: seq<Transaction>, b: seq<Transaction>)
    requires Sorted(a) && Sorted(b)
    requires forall y :: y in a <==> y in b
    ensures a == b
    decreases |a|
  {
    if a == [] {
      forall y ensures multiset(b)[y] == 0 {
        assert y !in b;
      }
      assert multiset(b) == multiset{};
      assert |b| == |multiset(b)|;
    } else {
      assert a[0] in a;
      assert b != [];
      assert b[0] in b;
      if a[0] != b[0] {
        var i :| 0 <= i < |a| && a[i] == b[0];
        var j :| 0 <= j < |b| && b[j] == a[0];
        assert Before(a[0], b[0]);
        assert Before(b[0], a[0]);
        BeforeTransitive(a[0], b[0], a[0]);
        BeforeIrreflexive(a[0]);
      }
      TailMembers(a);
      TailMembers(b);
      SortedUnique(a[1..], b[1..]);
      assert a == [a[0]] + a[1..] && b == [b[0]] + b[1..];
    }
  }

  /** A strictly sorted sequence holds no row twice. */
  lemma SortedInjective(s: seq<Transaction>)
    requires Sorted(s)
    ensures forall i, j :: 0 <= i < j < |s| ==> s[i] != s[j]
  {
    forall i, j | 0 <= i < j < |s| ensures s[i] != s[j] {
      BeforeIrreflexive(s[i]);
    }
  }

  lemma TailMembers(s: seq<Transaction>)
    requires Sorted(s) && s != []
    ensures forall y :: y in s[1..] <==> y in s && y != s[0]
  {
    SortedInjective(s);
    assert s == [s[0]] + s[1..];
    forall y | y in s[1..] ensures y != s[0] {
      var j :| 0 <= j < |s[1..]| && s[1..][j] == y;
      assert s[j + 1] == y;
    }
  }

  /** A prefix and the rest of a sorted sequence do not share a row. */
  lemma SplitMembers(s: seq<Transaction>, k: nat)
    requires Sorted(s) && k <= |s|
    ensures forall y :: y in s[k..] <==> y in s && y !in s[..k]
  {
    SortedInjective(s);
    assert s == s[..k] + s[k..];
    forall y | y in s[k..] ensures y !in s[..k] {
      var b :| 0 <= b < |s[k..]| && s[k..][b] == y;
      assert s[k + b] == y;
      forall a | 0 <= a < k ensures s[..k][a] != y {
        assert s[..k][a] == s[a];
      }
    }
  }

  /** Within the queue, a row carries a claimed id exactly when it is one of the first k. */
  lemma ClaimedIdsAreThePrefix(rows: seq<Transaction>, k: nat, y: Transaction)
    requires WellKeyed(rows) && k <= |SortedUnset(rows)|
    requires y in SortedUnset(rows)
    ensures Targeted(y, IdsOf(SortedUnset(rows)[..k])) <==> y in SortedUnset(rows)[..k]
  {
    var sel := SortedUnset(rows);
    SortedWhereSpec(rows, IsUnset);
    if Targeted(y, IdsOf(sel[..k])) {
      var t :| t in sel[..k] && t.id.Some? && t.id.value == y.id.value;
      assert t in sel;
      SameIdSameRow(rows, t, y);
    }
    if y in sel[..k] {
      assert y in rows;
    }
  }

  lemma {:induction false} MarkedSorted(s: seq<Transaction>, status: Option<string>)
    requires Sorted(s)
    ensures Sorted(Marked(s, status))
  {
    var m := Marked(s, status);
    forall i, j | 0 <= i < j < |m| ensures Before(m[i], m[j]) {
      assert Before(s[i], s[j]);
    }
  }

  /**
   * A row given a non-null status leaves the claim queue for good, and no
   * other row's place in it changes: the queue after the write is the old
   * queue without the written rows.
   */
  lemma WrittenRowsLeaveQueue(rows: seq<Transaction>, ids: set<int>, status: Option<string>)
    requires WellKeyed(rows) && status.Some?
    ensures forall y :: y in SortedUnset(WithStatus(rows, ids, status)) <==>
      y in SortedUnset(rows) && !Targeted(y, ids)
  {
    var after := WithStatus(rows, ids, status);
    WithStatusKeepsKeys(rows, ids, status);
    SortedWhereSpec(rows, IsUnset);
    SortedWhereSpec(after, IsUnset);
    forall y ensures y in after && IsUnset(y) <==> y in rows && IsUnset(y) && !Targeted(y, ids) {
      if y in after && IsUnset(y) {
        var i :| 0 <= i < |after| && after[i] == y;
        assert y == rows[i];
      }
      if y in rows && IsUnset(y) && !Targeted(y, ids) {
        var i :| 0 <= i < |rows| && rows[i] == y;
        assert after[i] == y;
      }
    }
  }

  lemma WithStatusKeepsKeys(rows: seq<Transaction>, ids: set<int>, status: Option<string>)
    requires WellKeyed(rows)
    ensures WellKeyed(WithStatus(rows, ids, status))
  {
    var r := WithStatus(rows, ids, status);
    assert forall i :: 0 <= i < |rows| ==> r[i].id == rows[i].id;
  }

  /**
   * A claim of k rows takes the head of the queue: what stays unclaimed is the
   * queue without its first k rows, still in order.
   */
  lemma ClaimAdvancesQueue(rows: seq<Transaction>, k: nat)
    requires WellKeyed(rows) && k <= |SortedUnset(rows)|
    ensures var sel := SortedUnset(rows);
      SortedUnset(WithStatus(rows, IdsOf(sel[..k]), Some(ClaimMark))) == sel[k..]
  {
    var sel := SortedUnset(rows);
    var ids := IdsOf(sel[..k]);
    var after := WithStatus(rows, ids, Some(ClaimMark));
    SortedWhereSpec(rows, IsUnset);
    WithStatusKeepsKeys(rows, ids, Some(ClaimMark));
    SortedWhereSpec(after, IsUnset);
    SplitMembers(sel, k);
    forall y ensures y in SortedUnset(after) <==> y in sel[k..] {
      if y in after && IsUnset(y) {
        var i :| 0 <= i < |after| && after[i] == y;
        assert !Targeted(rows[i], ids) && rows[i] == y;
        assert y in sel;
        ClaimedIdsAreThePrefix(rows, k, y);
      }
      if y in sel[k..] {
        assert y in sel;
        ClaimedIdsAreThePrefix(rows, k, y);
        var i :| 0 <= i < |rows| && rows[i] == y;
        assert after[i] == y;
      }
    }
    assert Sorted(sel[k..]);
    SortedUnique(SortedUnset(after), sel[k..]);
  }

  /**
   * Reading the claimed ids back (WHERE id IN ids ORDER BY create_date, id)
   * returns the first k rows of the queue, in queue order, carrying the claim mark.
   */
  lemma ClaimReadBack(rows: seq<Transaction>, k: nat, claimedIds: Transaction -> bool)
    requires WellKeyed(rows) && k <= |SortedUnset(rows)|
    requires forall t :: claimedIds(t) == Targeted(t, IdsOf(SortedUnset(rows)[..k]))
    ensures var sel := SortedUnset(rows);
      SortedWhere(WithStatus(rows, IdsOf(sel[..k]), Some(ClaimMark)), claimedIds)
      == Marked(sel[..k], Some(ClaimMark))
  {
    var sel := SortedUnset(rows);
    var ids := IdsOf(sel[..k]);
    var after := WithStatus(rows, ids, Some(ClaimMark));
    var expected := Marked(sel[..k], Some(ClaimMark));
    WithStatusKeepsKeys(rows, ids, Some(ClaimMark));
    SortedWhereSpec(after, claimedIds);
    SortedWhereSpec(rows, IsUnset);
    MarkedSorted(sel[..k], Some(ClaimMark));
    forall y ensures y in SortedWhere(after, claimedIds) <==> y in expected {
      if y in after && claimedIds(y) {
        ReadBackSound(rows, k, y);
      }
      if y in expected {
        ReadBackComplete(rows, k, y);
      }
    }
    SortedUnique(SortedWhere(after, claimedIds), expected);
  }

  /** Every row the read-back finds is one of the first k queue rows, marked. */
  lemma ReadBackSound(rows: seq<Transaction>, k: nat, y: Transaction)
    requires WellKeyed(rows) && k <= |SortedUnset(rows)|
    requires var ids := IdsOf(SortedUnset(rows)[..k]);
      y in WithStatus(rows, ids, Some(ClaimMark)) && Targeted(y, ids)
    ensures y in Marked(SortedUnset(rows)[..k], Some(ClaimMark))
  {
    var sel := SortedUnset(rows);
    var ids := IdsOf(sel[..k]);
    var after := WithStatus(rows, ids, Some(ClaimMark));
    SortedWhereSpec(rows, IsUnset);
    var i :| 0 <= i < |after| && after[i] == y;
    assert Targeted(rows[i], ids);
    var t :| t in sel[..k] && t.id.Some? && t.id.value == rows[i].id.value;
    assert t in sel && t in rows;
    SameIdSameRow(rows, t, rows[i]);
    var m :| 0 <= m < k && sel[..k][m] == t;
    assert Marked(sel[..k], Some(ClaimMark))[m] == y;
  }

  /** Every one of the first k queue rows, marked, is found by the read-back. */
  lemma ReadBackComplete(rows: seq<Transaction>, k: nat, y: Transaction)
    requires WellKeyed(rows) && k <= |SortedUnset(rows)|
    requires y in Marked(SortedUnset(rows)[..k], Some(ClaimMark))
    ensures var ids := IdsOf(SortedUnset(rows)[..k]);
      y in WithStatus(rows, ids, Some(ClaimMark)) && Targeted(y, ids)
  {
    var sel := SortedUnset(rows);
    var ids := IdsOf(sel[..k]);
    var after := WithStatus(rows, ids, Some(ClaimMark));
    SortedWhereSpec(rows, IsUnset);
    var m :| 0 <= m < k && Marked(sel[..k], Some(ClaimMark))[m] == y;
    var t := sel[..k][m];
    assert t in sel;
    var i :| 0 <= i < |rows| && rows[i] == t;
    assert Targeted(rows[i], ids);
    assert after[i] == y;
  }

  /** The rows a claim takes come before every unclaimed row it leaves behind. */
  lemma {:induction false} ClaimTakesOldest(rows: seq<Transaction>, k: nat, t: Transaction, u: Transaction)
    requires WellKeyed(rows) && k <= |SortedUnset(rows)|
    requires t in SortedUnset(rows)[..k]
    requires u in rows && IsUnset(u) && u !in SortedUnset(rows)[..k]
    ensures Before(t, u)
  {
    var sel := SortedUnset(rows);
    SortedWhereSpec(rows, IsUnset);
    SplitMembers(sel, k);
    var a :| 0 <= a < k && sel[..k][a] == t;
    var b :| 0 <= b < |sel[k..]| && sel[k..][b] == u;
    assert sel[a] == t && sel[k + b] == u;
  }

  /** A WHERE id IN :ids update applied twice with the same arguments changes nothing further. */
  lemma {:induction false} WithStatusIdempotent(rows: seq<Transaction>, ids: set<int>, status: Option<string>)
    ensures WithStatus(WithStatus(rows, ids, status), ids, status) == WithStatus(rows, ids, status)
  {
    var once := WithStatus(rows, ids, status);
    var twice := WithStatus(once, ids, status);
    forall i | 0 <= i < |rows| ensures twice[i] == once[i] {
      assert once[i].id == rows[i].id;
    }
  }

  /** An update naming no id leaves the table as it was. */
  lemma WithNoIds(rows: seq<Transaction>, status: Option<string>)
    ensures WithStatus(rows, {}, status) == rows
  {
  }

  // ---------------------------------------------------------------- the table

  /** The transaction table, with the id sequence that numbers new rows. */
  class TransactionStore {
    var rows: seq<Transaction>
    var nextId: int

    ghost predicate Valid()
      reads this
    {
      && WellKeyed(rows)
      && forall i :: 0 <= i < |rows| ==> rows[i].id.value < nextId
    }

    constructor ()
      ensures Valid() && rows == [] && nextId == 1
    {
      rows := [];
      nextId := 1;
    }

    /** JpaRepository.count(). */
    function Count(): nat
      reads this
    {
      |rows|
    }

    /** The number of unclaimed rows. */
    function CountUnclaimed(): (n: nat)
      reads this
      requires Valid()
      ensures n == |SortedUnset(rows)|
    {
      SortedWhereSpec(rows, IsUnset);
      CountWhere(rows, IsUnset)
    }

    /**
     * fetchAndMarkTransactions(limit): selects the ids of the first limit
     * unclaimed rows in key order, marks those rows with the claim mark,
     * and reads them back in key order.
     */
    method FetchAndMarkTransactions(limit: int) returns (claimed: seq<Transaction>)
      requires Valid()
      modifies this
      ensures Valid() && nextId == old(nextId)
      ensures var queue := SortedUnset(old(rows));
              claimed == Marked(queue[..ClaimCount(limit, |queue|)], Some(ClaimMark))
      ensures var queue := SortedUnset(old(rows));
              rows == WithStatus(old(rows), IdsOf(queue[..ClaimCount(limit, |queue|)]), Some(ClaimMark))
      ensures var queue := SortedUnset(old(rows));
              SortedUnset(rows) == queue[ClaimCount(limit, |queue|)..]
    {
      SortedWhereSpec(rows, IsUnset);
      var queue := SortedUnset(rows);
      var k := ClaimCount(limit, |queue|);
      if k == 0 {
        assert IdsOf(queue[..k]) == {};
        WithNoIds(rows, Some(ClaimMark));
        return [];
      }
      var ids := IdsOf(queue[..k]);
      var after := WithStatus(rows, ids, Some(ClaimMark));
      ClaimAdvancesQueue(rows, k);
      WithStatusKeepsKeys(rows, ids, Some(ClaimMark));
      var claimedIds := (t: Transaction) => Targeted(t, ids);
      ClaimReadBack(rows, k, claimedIds);
      claimed := SortedWhere(after, claimedIds);
      rows := after;
    }

    /** updateTransactionStatus(id, status): a null id does nothing; otherwise that one row takes the status. */
    method UpdateTransactionStatus(id: Option<int>, status: Option<string>)
      requires Valid()
      modifies this
      ensures Valid() && nextId == old(nextId)
      ensures rows == if id.None? then old(rows) else WithStatus(old(rows), {id.value}, status)
    {
      if id.None? {
        return;
      }
      WithStatusKeepsKeys(rows, {id.value}, status);
      var old_rows := rows;
      rows := WithStatus(rows, {id.value}, status);
      assert forall i :: 0 <= i < |rows| ==> rows[i].id == old_rows[i].id;
    }

    /** updateTransactionsStatus(ids, status): null or empty ids do nothing; otherwise every listed row takes the status. */
    method UpdateTransactionsStatus(ids: Option<seq<Option<int>>>, status: Option<string>)
      requires Valid()
      modifies this
      ensures Valid() && nextId == old(nextId)
      ensures rows == if ids.None? || |ids.value| == 0 then old(rows)
                      else WithStatus(old(rows), ListedIds(ids.value), status)
    {
      if ids.None? || |ids.value| == 0 {
        return;
      }
      WithStatusKeepsKeys(rows, ListedIds(ids.value), status);
      var old_rows := rows;
      rows := WithStatus(rows, ListedIds(ids.value), status);
      assert forall i :: 0 <= i < |rows| ==> rows[i].id == old_rows[i].id;
    }

    /**
     * saveAll of new entities: each row is inserted with the next id of the
     * sequence, in list order.
     */
    method SaveAllNew(items: seq<Transaction>)
      requires Valid()
      requires forall i :: 0 <= i < |items| ==> items[i].id.None?
      modifies this
      ensures Valid()
      ensures nextId == old(nextId) + |items|
      ensures rows == old(rows) + Numbered(items, old(nextId))
    {
      var added := Numbered(items, nextId);
      assert forall i, j :: 0 <= i < |rows| && 0 <= j < |added| ==> rows[i].id != added[j].id;
      rows := rows + added;
      nextId := nextId + |items|;
    }
  }

  /** A null in the id list matches no row (id IN (NULL) is never true). */
  function ListedIds(ids: seq<Option<int>>): set<int> {
    set o | o in ids && o.Some? :: o.value
  }

  /** items with ids first, first + 1, ... assigned in order. */
  function Numbered(items: seq<Transaction>, first: int): (r: seq<Transaction>)
    ensures |r| == |items|
    ensures forall i :: 0 <= i < |items| ==> r[i] == items[i].(id := Some(first + i))
  {
    seq(|items|, i requires 0 <= i < |items| => items[i].(id := Some(first + i)))
  }
}
