/** The sequencer's query: which pending rows a pass labels, and with which seq. */
module Sequencing {
  import opened Prelude

  /** A message row: its transaction's start timestamp and its auto-increment id. */
  datatype Row = Row(ts: nat, id: nat)

  /** A row as the messages table holds it; a committed row waits with seq NULL. */
  datatype Cell = Cell(mark: Option<nat>, row: Row)

  predicate Before(a: Row, b: Row) {
    a.ts < b.ts || (a.ts == b.ts && a.id < b.id)
  }

  /** ORDER BY seq, tx_start_ts, id, where NULL sorts first. */
  predicate CellBefore(a: Cell, b: Cell) {
    match (a.mark, b.mark)
    case (None, Some(_)) => true
    case (Some(_), None) => false
    case (None, None) => Before(a.row, b.row)
    case (Some(x), Some(y)) => x < y || (x == y && Before(a.row, b.row))
  }

  // ----- enumerating a set of rows in assignment order

  lemma LeastExists(rows: set<Row>)
    requires rows != {}
    ensures exists r :: r in rows && forall x :: x in rows && x != r ==> Before(r, x)
  {
    var r :| r in rows;
    if rows != {r} {
      LeastExists(rows - {r});
      var m :| m in rows - {r} && forall x :: x in rows - {r} && x != m ==> Before(m, x);
      var least := if Before(r, m) then r else m;
      forall x | x in rows && x != least
        ensures Before(least, x)
      {
        assert x == r || x == m || x in rows - {r};
      }
    }
  }

  function Least(rows: set<Row>): (r: Row)
    requires rows != {}
    ensures r in rows && forall x :: x in rows && x != r ==> Before(r, x)
  {
    LeastExists(rows);
    var r :| r in rows && forall x :: x in rows && x != r ==> Before(r, x);
    r
  }

  /** The rows in (tx_start_ts, id) order. */
  function Sorted(rows: set<Row>): (q: seq<Row>)
    ensures |q| == |rows|
    ensures forall r :: r in q <==> r in rows
    ensures forall i, j :: 0 <= i < j < |q| ==> Before(q[i], q[j])
    decreases |rows|
  {
    if rows == {} then []
    else
      var m := Least(rows);
      assert |rows - {m}| == |rows| - 1;
      [m] + Sorted(rows - {m})
  }

  /** The rows one pass of at most `limit` rows labels, in the order it labels them. */
  function Taken(pending: set<Row>, limit: nat): (q: seq<Row>)
    ensures |q| == Min(limit, |pending|)
    ensures forall r :: r in q ==> r in pending
    ensures forall i, j :: 0 <= i < j < |q| ==> Before(q[i], q[j])
  {
    Sorted(pending)[..Min(limit, |pending|)]
  }

  /** A row left over comes behind every row taken: its transaction is younger, or the same and its id larger. */
  lemma TakenComeFirst(pending: set<Row>, limit: nat, a: Row, b: Row)
    requires a in Taken(pending, limit) && b in pending && b !in Taken(pending, limit)
    ensures a.ts < b.ts || (a.ts == b.ts && a.id < b.id)
  {
    var q, all := Taken(pending, limit), Sorted(pending);
    var i :| 0 <= i < |q| && q[i] == a;
    var j :| 0 <= j < |all| && all[j] == b;
    if j < |q| {
      assert false;
    }
    assert Before(all[i], all[j]);
  }

  // ----- the two forms of the query

  function Earlier(rows: set<Row>, r: Row): set<Row> {
    set x | x in rows && Before(x, r)
  }

  /** ROW_NUMBER() OVER (ORDER BY tx_start_ts, id) */
  function RowNumber(rows: set<Row>, r: Row): nat {
    |Earlier(rows, r)| + 1
  }

  function PendingOf(table: set<Cell>): set<Row> {
    set c | c in table && c.mark == None :: c.row
  }

  /**
    What the inner derived table may return: the first `limit` cells with seq NULL
    under ORDER BY seq, tx_start_ts, id.
   */
  predicate IsPage(table: set<Cell>, limit: nat, page: set<Row>) {
    && page <= PendingOf(table)
    && |page| == Min(limit, |PendingOf(table)|)
    && forall a, b :: a in page && b in PendingOf(table) && b !in page ==> CellBefore(Cell(None, a), Cell(None, b))
  }

  /** The statement as written: number only the rows of the page. */
  function NumberPage(page: set<Row>, next: nat): map<Row, int> {
    map r | r in page :: next + RowNumber(page, r) - 1
  }

  /** The form it replaces: number the whole backlog, keep the first `limit`. */
  function NumberAll(pending: set<Row>, limit: nat, next: nat): map<Row, int> {
    map r | r in pending && RowNumber(pending, r) <= limit :: next + RowNumber(pending, r) - 1
  }

  lemma PageHoldsTheEarlier(table: set<Cell>, limit: nat, page: set<Row>, r: Row)
    requires IsPage(table, limit, page)
    requires r in page
    ensures Earlier(page, r) == Earlier(PendingOf(table), r)
    ensures RowNumber(page, r) <= limit
  {
    forall x | x in Earlier(PendingOf(table), r)
      ensures x in page
    {
    }
    assert Earlier(page, r) <= page - {r};
    SubsetSize(Earlier(page, r), page - {r});
  }

  lemma OutsideThePageIsLate(table: set<Cell>, limit: nat, page: set<Row>, r: Row)
    requires IsPage(table, limit, page)
    requires r in PendingOf(table) - page
    ensures RowNumber(PendingOf(table), r) > limit
  {
    forall x | x in page
      ensures x in Earlier(PendingOf(table), r)
    {
      assert CellBefore(Cell(None, x), Cell(None, r));
    }
    SubsetSize(page, Earlier(PendingOf(table), r));
    if |page| != limit {
      SubsetSize(page, PendingOf(table));
    }
  }

  ghost predicate SameNumber(table: set<Cell>, limit: nat, page: set<Row>, r: Row) {
    && (r in page <==> RowNumber(PendingOf(table), r) <= limit)
    && (r in page ==> RowNumber(page, r) == RowNumber(PendingOf(table), r))
  }

  lemma NumbersAgree(table: set<Cell>, limit: nat, next: nat, page: set<Row>)
    requires page <= PendingOf(table)
    requires forall r :: r in PendingOf(table) ==> SameNumber(table, limit, page, r)
    ensures NumberPage(page, next) == NumberAll(PendingOf(table), limit, next)
  {
    var whole := NumberAll(PendingOf(table), limit, next);
    forall r
      ensures r in page <==> r in whole
      ensures r in page ==> NumberPage(page, next)[r] == whole[r]
    {
      assert r in PendingOf(table) ==> SameNumber(table, limit, page, r);
    }
  }

  /** Pushing the LIMIT below the window function changes no row's seq. */
  lemma RewriteKeepsEverySeq(table: set<Cell>, limit: nat, next: nat, page: set<Row>)
    requires IsPage(table, limit, page)
    ensures NumberPage(page, next) == NumberAll(PendingOf(table), limit, next)
  {
    forall r | r in PendingOf(table)
      ensures SameNumber(table, limit, page, r)
    {
      if r in page {
        PageHoldsTheEarlier(table, limit, page, r);
      } else {
        OutsideThePageIsLate(table, limit, page, r);
      }
    }
    NumbersAgree(table, limit, next, page);
  }

  // ----- the enumeration is what both forms number by

  lemma {:induction false} SortedAt(rows: set<Row>, k: nat)
    requires k < |rows|
    ensures RowNumber(rows, Sorted(rows)[k]) == k + 1
  {
    var q := Sorted(rows);
    forall i | 0 <= i < |q|
      ensures Before(q[i], q[k]) <==> i < k
    {
      InOrder(q, i, k);
    }
    assert Earlier(rows, q[k]) == set i | 0 <= i < k :: q[i] by {
      assert forall x :: x in Earlier(rows, q[k]) ==> x in q;
    }
    PrefixSize(q, k);
  }

  lemma InOrder(q: seq<Row>, i: nat, k: nat)
    requires i < |q| && k < |q|
    requires forall i, j :: 0 <= i < j < |q| ==> Before(q[i], q[j])
    ensures Before(q[i], q[k]) <==> i < k
  {
    assert i < k ==> Before(q[i], q[k]);
    assert k < i ==> Before(q[k], q[i]);
  }

  lemma {:induction false} PrefixSize(q: seq<Row>, k: nat)
    requires k <= |q|
    requires forall i, j :: 0 <= i < j < |q| ==> Before(q[i], q[j])
    ensures |set i | 0 <= i < k :: q[i]| == k
  {
    if k > 0 {
      PrefixSize(q, k - 1);
      var less := set i | 0 <= i < k - 1 :: q[i];
      assert (set i | 0 <= i < k :: q[i]) == less + {q[k - 1]};
      assert forall i :: 0 <= i < k - 1 ==> Before(q[i], q[k - 1]);
      assert q[k - 1] !in less;
    }
  }

  /** The seqs a pass hands out are next, next + 1, ... along Taken. */
  lemma PassNumbersTaken(pending: set<Row>, limit: nat, next: nat)
    ensures var q := Taken(pending, limit);
            NumberAll(pending, limit, next) == map r | r in pending && r in q :: next + RowNumber(pending, r) - 1
    ensures forall k :: 0 <= k < |Taken(pending, limit)| ==>
              var r := Taken(pending, limit)[k];
              r in NumberAll(pending, limit, next) && NumberAll(pending, limit, next)[r] == next + k
  {
    var q := Taken(pending, limit);
    var all := Sorted(pending);
    forall r | r in pending
      ensures r in q <==> RowNumber(pending, r) <= limit
    {
      var i :| 0 <= i < |all| && all[i] == r;
      SortedAt(pending, i);
      OnceInOrder(all, |q|, i);
    }
    forall k | 0 <= k < |q|
      ensures RowNumber(pending, q[k]) == k + 1
    {
      SortedAt(pending, k);
    }
  }

  // ----- splitting the backlog into passes

  function RowsOf(q: seq<Row>): set<Row> { set r | r in q }

  lemma {:induction false} SortedIsUnique(rows: set<Row>, q: seq<Row>)
    requires RowsOf(q) == rows
    requires forall i, j :: 0 <= i < j < |q| ==> Before(q[i], q[j])
    ensures Sorted(rows) == q
    decreases |q|
  {
    if q != [] {
      assert q[0] in rows;
      assert Least(rows) == q[0] by {
        var i :| 0 <= i < |q| && q[i] == Least(rows);
        if i > 0 {
          assert Before(q[0], q[i]);
        }
      }
      forall r | r in rows - {q[0]}
        ensures r in RowsOf(q[1..])
      {
        var i :| 0 <= i < |q| && q[i] == r;
        assert q[1..][i - 1] == r;
      }
      assert q[0] !in q[1..];
      assert RowsOf(q[1..]) == rows - {q[0]};
      SortedIsUnique(rows - {q[0]}, q[1..]);
    }
  }

  /** Rows labelled by passes of the given sizes, run one after another with no commit between. */
  function TakenByPasses(pending: set<Row>, limits: seq<nat>): seq<Row> {
    if limits == [] then []
    else
      var first := Taken(pending, limits[0]);
      first + TakenByPasses(pending - RowsOf(first), limits[1..])
  }

  function Total(limits: seq<nat>): nat {
    if limits == [] then 0 else limits[0] + Total(limits[1..])
  }

  /** In an ordered sequence a row is among the first `k` exactly when its position is below `k`. */
  lemma OnceInOrder(q: seq<Row>, k: nat, i: nat)
    requires i < |q| && k <= |q|
    requires forall a, b :: 0 <= a < b < |q| ==> Before(q[a], q[b])
    ensures q[i] in q[..k] <==> i < k
    ensures q[i] in q[k..] <==> i >= k
  {
    if i < k {
      assert q[..k][i] == q[i];
      assert forall j :: 0 <= j < |q[k..]| ==> q[k..][j] == q[k + j] && Before(q[i], q[k + j]);
    } else {
      assert q[k..][i - k] == q[i];
      assert forall j :: 0 <= j < k ==> q[..k][j] == q[j] && Before(q[j], q[i]);
    }
  }

  ghost predicate Ordered(q: seq<Row>) {
    forall i, j :: 0 <= i < j < |q| ==> Before(q[i], q[j])
  }

  lemma FirstAndRest(q: seq<Row>, k: nat)
    requires Ordered(q) && k <= |q|
    ensures RowsOf(q[k..]) == RowsOf(q) - RowsOf(q[..k])
  {
    forall r | r in RowsOf(q)
      ensures r in q[k..] <==> r !in q[..k]
    {
      var i :| 0 <= i < |q| && q[i] == r;
      OnceInOrder(q, k, i);
    }
    assert forall r :: r in q[k..] ==> r in q;
  }

  lemma SortedSplits(pending: set<Row>, k: nat)
    requires k <= |pending|
    ensures Sorted(pending - RowsOf(Sorted(pending)[..k])) == Sorted(pending)[k..]
    ensures |pending - RowsOf(Sorted(pending)[..k])| == |pending| - k
  {
    var q := Sorted(pending);
    FirstAndRest(q, k);
    assert RowsOf(q) == pending;
    SortedIsUnique(pending - RowsOf(q[..k]), q[k..]);
  }

  lemma TakenThenRest(pending: set<Row>, n: nat, m: nat)
    ensures Taken(pending, n) + Taken(pending - RowsOf(Taken(pending, n)), m) == Taken(pending, n + m)
  {
    SortedSplits(pending, Min(n, |pending|));
    JoinSlices(Sorted(pending), n, m);
  }

  lemma JoinSlices(q: seq<Row>, n: nat, m: nat)
    ensures var k := Min(n, |q|);
            q[..k] + q[k..][..Min(m, |q| - k)] == q[..Min(n + m, |q|)]
  {
  }

  /** However a backlog is split into passes, every row gets the seq one large pass gives it. */
  lemma {:induction false} AnySplitIsOnePass(pending: set<Row>, limits: seq<nat>)
    ensures TakenByPasses(pending, limits) == Taken(pending, Total(limits))
    decreases |limits|
  {
    if limits != [] {
      var rest := pending - RowsOf(Taken(pending, limits[0]));
      AnySplitIsOnePass(rest, limits[1..]);
      TakenThenRest(pending, limits[0], Total(limits[1..]));
    }
  }

  /** A page that comes up short took everything that was pending. */
  lemma ShortPassEmpties(pending: set<Row>, limit: nat)
    ensures |pending| < limit ==> pending - RowsOf(Taken(pending, limit)) == {}
  {
    if |pending| < limit {
      assert Taken(pending, limit) == Sorted(pending);
    }
  }
}
