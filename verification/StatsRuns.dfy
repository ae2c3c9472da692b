/**
 * Statistics over runs of CreateSnapshot, with tables that change from call to call: which rows are counted, and what
 * the snapshots add up to (internal/stats/service.go, internal/database/postgresql/stats.go).
 */
module StatsRuns {
  import opened Prelude
  import opened Totals
  import opened Cashu
  import opened Exact
  import opened Stats

  /** The stored snapshots before the first call and after each one. */
  ghost predicate IsRun(states: seq<seq<Snapshot>>, calls: seq<Call>)
  {
    && |states| == |calls| + 1 && states[0] == []
    && forall k | 0 <= k < |calls| :: Makes(states[k], calls[k], states[k + 1])
  }

  datatype Column = MintColumn | MeltColumn | SigColumn | ProofColumn

  /** A column of the tables at a call, as its summary takes the rows. */
  function Table(c: Call, x: Column): seq<Row>
  {
    match x
    case MintColumn => Mapped(DecodedRow(c.decode), c.t.mint)
    case MeltColumn => c.t.melt
    case SigColumn => Mapped(KeysetRow(c.t.seeds), c.t.sigs)
    case ProofColumn => Mapped(KeysetRow(c.t.seeds), c.t.proofs)
  }

  function Items(s: Snapshot, x: Column): seq<SummaryItem>
  {
    match x
    case MintColumn => s.mint
    case MeltColumn => s.melt
    case SigColumn => s.sigs
    case ProofColumn => s.proofs
  }

  predicate Inserts(before: seq<Snapshot>, c: Call)
  {
    OutcomeOfCall(before, c) == Inserted
  }

  /** The call inserts the window over the moment. */
  predicate Takes(before: seq<Snapshot>, c: Call, moment: int)
  {
    Inserts(before, c) && NextStart(before) <= moment <= c.now - 10
  }

  /** The rows of a column that a call adds up. */
  function RowsTaken(before: seq<Snapshot>, c: Call, x: Column): seq<Row>
  {
    if Inserts(before, c) then InWindow(RowStamp(), NextStart(before), c.now - 10, Table(c, x)) else []
  }

  /** All rows that the calls of a run added up, in turn. */
  function RowsCounted(states: seq<seq<Snapshot>>, calls: seq<Call>, x: Column): seq<Row>
    requires |states| == |calls| + 1
  {
    if calls == [] then []
    else
      var n := |calls| - 1;
      RowsCounted(states[..n + 1], calls[..n], x) + RowsTaken(states[n], calls[n], x)
  }

  // ----- one call -----

  lemma {:induction false} WindowOfMapped<T>(f: T -> Row, stamp: T -> Option<int>, start: int, end: int, rows: seq<T>)
    requires forall r :: RowStamp()(f(r)) == stamp(r)
    ensures InWindow(RowStamp(), start, end, Mapped(f, rows)) == Mapped(f, InWindow(stamp, start, end, rows))
  {
    if rows != [] {
      var n := |rows| - 1;
      WindowOfMapped(f, stamp, start, end, rows[..n]);
      assert Mapped(f, rows)[..n] == Mapped(f, rows[..n]) && Mapped(f, rows)[n] == f(rows[n]);
    }
  }

  /** An inserted snapshot sums up exactly the rows that its call took, column by column. */
  lemma ColumnSummed(before: seq<Snapshot>, c: Call, after: seq<Snapshot>, x: Column)
    requires Makes(before, c, after) && Inserts(before, c)
    ensures |after| == |before| + 1 && IsSummary(Items(after[|before|], x), RowsTaken(before, c, x))
  {
    hide IsSummary, Within;
    var start, end := NextStart(before), c.now - 10;
    match x
    case MintColumn => WindowOfMapped(DecodedRow(c.decode), MintStamp(), start, end, c.t.mint);
    case MeltColumn =>
    case SigColumn => WindowOfMapped(KeysetRow(c.t.seeds), KeyedStamp(), start, end, c.t.sigs);
    case ProofColumn => WindowOfMapped(KeysetRow(c.t.seeds), KeyedStamp(), start, end, c.t.proofs);
  }

  /** A call moves the start to just after its window, or not at all. */
  lemma StartMoves(before: seq<Snapshot>, c: Call, after: seq<Snapshot>)
    requires Makes(before, c, after)
    ensures NextStart(after) == if Inserts(before, c) then c.now - 9 else NextStart(before)
    ensures NextStart(before) <= NextStart(after)
    ensures Inserts(before, c) ==> NextStart(before) < NextStart(after)
  {
    hide Sums, WindowOf, Readable;
  }

  // ----- the windows of a run -----

  lemma Earlier(states: seq<seq<Snapshot>>, calls: seq<Call>)
    requires IsRun(states, calls) && calls != []
    ensures IsRun(states[..|calls|], calls[..|calls| - 1])
  {
    hide Makes;
  }

  lemma {:induction false} StartsAscend(states: seq<seq<Snapshot>>, calls: seq<Call>, j: nat, k: nat)
    requires IsRun(states, calls) && j <= k <= |calls|
    ensures NextStart(states[j]) <= NextStart(states[k])
    decreases k
  {
    hide Makes, NextStart;
    if j < k {
      StartsAscend(states, calls, j, k - 1);
      StartMoves(states[k - 1], calls[k - 1], states[k]);
    }
  }

  /** No moment lies in the windows of two calls. */
  lemma TakenByOne(states: seq<seq<Snapshot>>, calls: seq<Call>, moment: int, j: nat, k: nat)
    requires IsRun(states, calls) && j < |calls| && k < |calls|
    requires Takes(states[j], calls[j], moment) && Takes(states[k], calls[k], moment)
    ensures j == k
  {
    hide Makes, NextStart, OutcomeOfCall;
    if j < k {
      StartMoves(states[j], calls[j], states[j + 1]);
      StartsAscend(states, calls, j + 1, k);
    } else if k < j {
      StartMoves(states[k], calls[k], states[k + 1]);
      StartsAscend(states, calls, k + 1, j);
    }
  }

  /** A moment lies in some call's window exactly when it is not before 0 and some window has ended at or after it. */
  lemma {:induction false} TakenIff(states: seq<seq<Snapshot>>, calls: seq<Call>, moment: int)
    requires IsRun(states, calls)
    ensures 0 <= moment < NextStart(states[|calls|])
       <==> exists k :: 0 <= k < |calls| && Takes(states[k], calls[k], moment)
  {
    hide Makes, OutcomeOfCall;
    if calls != [] {
      var n := |calls| - 1;
      Earlier(states, calls);
      TakenIff(states[..n + 1], calls[..n], moment);
      assert states[..n + 1][n] == states[n];
      StartsAscend(states, calls, 0, n);
      StartMoves(states[n], calls[n], states[n + 1]);
      SomeEarlier(states, calls, moment);
    }
  }

  lemma SomeEarlier(states: seq<seq<Snapshot>>, calls: seq<Call>, moment: int)
    requires |states| == |calls| + 1 && calls != []
    ensures (exists k :: 0 <= k < |calls| && Takes(states[k], calls[k], moment))
       <==> || Takes(states[|calls| - 1], calls[|calls| - 1], moment)
            || exists k :: 0 <= k < |calls| - 1 && Takes(states[..|calls|][k], calls[..|calls| - 1][k], moment)
  {
    hide Takes;
    var n := |calls| - 1;
    forall k | 0 <= k < n
      ensures Takes(states[k], calls[k], moment) == Takes(states[..n + 1][k], calls[..n][k], moment)
    {
    }
    if k :| 0 <= k < n && Takes(states[..n + 1][k], calls[..n][k], moment) {
      assert Takes(states[k], calls[k], moment);
    }
    if k :| 0 <= k < |calls| && Takes(states[k], calls[k], moment) {
      assert k < n ==> Takes(states[..n + 1][k], calls[..n][k], moment);
    }
  }

  // ----- which rows are counted -----

  /** A row is known by its id and the moment it was first seen; an id saved again later is another row. */
  datatype Key = Key(id: string, seenAt: int)

  function KeyOf(): Row -> Key
  {
    (r: Row) => Key(r.id, r.seenAt)
  }

  function Occurrences(rows: seq<Row>, key: Key): nat
  {
    GroupSum(KeyOf(), One(), key, rows)
  }

  /** How often the run counted the row. */
  function TimesCounted(states: seq<seq<Snapshot>>, calls: seq<Call>, x: Column, key: Key): nat
    requires |states| == |calls| + 1
  {
    Occurrences(RowsCounted(states, calls, x), key)
  }

  ghost predicate DistinctIds(rows: seq<Row>)
  {
    forall i, j | 0 <= i < j < |rows| :: rows[i].id != rows[j].id
  }

  /** Ids are keys of the tables. */
  ghost predicate IdsAreKeys(calls: seq<Call>, x: Column)
  {
    forall k | 0 <= k < |calls| :: DistinctIds(Table(calls[k], x))
  }

  /** The row is in the tables at the call, in a state that counts. */
  ghost predicate Selectable(c: Call, x: Column, key: Key)
  {
    exists r :: r in Table(c, x) && Counts(r.state) && KeyOf()(r) == key
  }

  /** The call takes the window over the row, and the row is selectable then. */
  ghost predicate Counted(before: seq<Snapshot>, c: Call, x: Column, key: Key)
  {
    Takes(before, c, key.seenAt) && Selectable(c, x, key)
  }

  ghost predicate CountedAtSome(states: seq<seq<Snapshot>>, calls: seq<Call>, x: Column, key: Key)
    requires |states| == |calls| + 1
  {
    exists k :: 0 <= k < |calls| && Counted(states[k], calls[k], x, key)
  }

  lemma {:induction false} GroupSumAppend<T, K>(key: T -> K, w: T -> nat, k: K, s: seq<T>, t: seq<T>)
    ensures GroupSum(key, w, k, s + t) == GroupSum(key, w, k, s) + GroupSum(key, w, k, t)
  {
    if t == [] {
      assert s + t == s;
    } else {
      var n := |t| - 1;
      GroupSumAppend(key, w, k, s, t[..n]);
      assert (s + t)[..|s + t| - 1] == s + t[..n];
    }
  }

  ghost predicate InSome(rows: seq<Row>, start: int, end: int, key: Key)
  {
    exists r :: r in rows && Within(RowStamp()(r), start, end) && KeyOf()(r) == key
  }

  lemma WindowSnoc(start: int, end: int, rest: seq<Row>, last: Row)
    ensures InWindow(RowStamp(), start, end, rest + [last])
         == InWindow(RowStamp(), start, end, rest) + if Within(RowStamp()(last), start, end) then [last] else []
  {
    assert (rest + [last])[..|rest|] == rest;
  }

  lemma OccursOnceMore(rows: seq<Row>, last: Row, key: Key)
    ensures Occurrences(rows + [last], key) == Occurrences(rows, key) + if KeyOf()(last) == key then 1 else 0
    ensures Occurrences(rows + [], key) == Occurrences(rows, key)
  {
    assert rows + [] == rows && (rows + [last])[..|rows|] == rows;
  }

  lemma LastIsNew(rest: seq<Row>, last: Row, start: int, end: int, key: Key)
    requires DistinctIds(rest + [last]) && InSome(rest, start, end, key)
    ensures KeyOf()(last) != key
  {
    var r :| r in rest && Within(RowStamp()(r), start, end) && KeyOf()(r) == key;
    var i :| 0 <= i < |rest| && rest[i] == r;
    assert (rest + [last])[i].id != (rest + [last])[|rest|].id;
  }

  lemma {:induction false} WindowOccurs(start: int, end: int, rows: seq<Row>, key: Key)
    requires DistinctIds(rows)
    ensures Occurrences(InWindow(RowStamp(), start, end, rows), key) == if InSome(rows, start, end, key) then 1 else 0
  {
    hide InSome, Occurrences, Within, KeyOf, RowStamp;
    if rows != [] {
      var rest, last := rows[..|rows| - 1], rows[|rows| - 1];
      assert rows == rest + [last];
      WindowOccurs(start, end, rest, key);
      hide InWindow, DistinctIds;
      WindowSnoc(start, end, rest, last);
      OccursOnceMore(InWindow(RowStamp(), start, end, rest), last, key);
      InSomeSnoc(rest, last, start, end, key);
      if InSome(rest, start, end, key) {
        LastIsNew(rest, last, start, end, key);
      }
    } else {
      NoRowsOccur(start, end, key);
    }
  }

  lemma NoRowsOccur(start: int, end: int, key: Key)
    ensures Occurrences(InWindow(RowStamp(), start, end, []), key) == 0 && !InSome([], start, end, key)
  {
  }

  lemma InSomeSnoc(rows: seq<Row>, last: Row, start: int, end: int, key: Key)
    ensures InSome(rows + [last], start, end, key)
       <==> InSome(rows, start, end, key) || (Within(RowStamp()(last), start, end) && KeyOf()(last) == key)
  {
    var more := rows + [last];
    if r :| r in rows && Within(RowStamp()(r), start, end) && KeyOf()(r) == key {
      assert r in more;
    }
    assert last in more;
    hide Within, Counts;
  }

  lemma TakenOccurs(before: seq<Snapshot>, c: Call, x: Column, key: Key)
    requires DistinctIds(Table(c, x))
    ensures Occurrences(RowsTaken(before, c, x), key) == if Counted(before, c, x, key) then 1 else 0
  {
    hide NextStart, OutcomeOfCall, Table, Counts;
    if Inserts(before, c) {
      var start, end := NextStart(before), c.now - 10;
      WindowOccurs(start, end, Table(c, x), key);
      if InSome(Table(c, x), start, end, key) {
        var r :| r in Table(c, x) && Within(RowStamp()(r), start, end) && KeyOf()(r) == key;
        assert Selectable(c, x, key);
      }
      if Counted(before, c, x, key) {
        var r :| r in Table(c, x) && Counts(r.state) && KeyOf()(r) == key;
        assert Within(RowStamp()(r), start, end);
      }
    }
    hide InWindow;
  }

  /**
   * Over every run, with tables that change between the calls: a row is counted, and then once, exactly when it was
   * in a state that counts at the one call that inserted the window over the moment it was first seen.
   */
  lemma {:induction false} RowCountedIff(states: seq<seq<Snapshot>>, calls: seq<Call>, x: Column, key: Key)
    requires IsRun(states, calls) && IdsAreKeys(calls, x)
    ensures TimesCounted(states, calls, x, key) == if CountedAtSome(states, calls, x, key) then 1 else 0
    ensures forall j, k | 0 <= j < |calls| && 0 <= k < |calls|
      && Takes(states[j], calls[j], key.seenAt) && Takes(states[k], calls[k], key.seenAt) :: j == k
    ensures 0 <= key.seenAt < NextStart(states[|calls|])
       <==> exists k :: 0 <= k < |calls| && Takes(states[k], calls[k], key.seenAt)
  {
    hide Makes, Takes, Table, RowsTaken, Counted, DistinctIds;
    TakenIff(states, calls, key.seenAt);
    forall j, k | 0 <= j < |calls| && 0 <= k < |calls|
      && Takes(states[j], calls[j], key.seenAt) && Takes(states[k], calls[k], key.seenAt)
      ensures j == k
    {
      TakenByOne(states, calls, key.seenAt, j, k);
    }
    if calls != [] {
      var n := |calls| - 1;
      Earlier(states, calls);
      RowCountedIff(states[..n + 1], calls[..n], x, key);
      TakenOccurs(states[n], calls[n], x, key);
      GroupSumAppend(KeyOf(), One(), key, RowsCounted(states[..n + 1], calls[..n], x),
        RowsTaken(states[n], calls[n], x));
      hide IsRun, GroupSum;
      LastOrEarlier(states, calls, x, key);
      NotTwice(states, calls, x, key);
    }
  }

  lemma LastOrEarlier(states: seq<seq<Snapshot>>, calls: seq<Call>, x: Column, key: Key)
    requires |states| == |calls| + 1 && calls != []
    ensures var n := |calls| - 1;
      CountedAtSome(states, calls, x, key) <==>
        Counted(states[n], calls[n], x, key) || CountedAtSome(states[..n + 1], calls[..n], x, key)
  {
    hide Counted;
    var n := |calls| - 1;
    if k :| 0 <= k < n && Counted(states[..n + 1][k], calls[..n][k], x, key) {
      assert Counted(states[k], calls[k], x, key);
    }
    if k :| 0 <= k < |calls| && Counted(states[k], calls[k], x, key) {
      assert k < n ==> Counted(states[..n + 1][k], calls[..n][k], x, key);
    }
  }

  lemma NotTwice(states: seq<seq<Snapshot>>, calls: seq<Call>, x: Column, key: Key)
    requires |states| == |calls| + 1 && calls != []
    requires forall j, k | 0 <= j < |calls| && 0 <= k < |calls|
      && Takes(states[j], calls[j], key.seenAt) && Takes(states[k], calls[k], key.seenAt) :: j == k
    ensures var n := |calls| - 1;
      !(Counted(states[n], calls[n], x, key) && CountedAtSome(states[..n + 1], calls[..n], x, key))
  {
    hide Takes, Selectable;
    var n := |calls| - 1;
    forall k | 0 <= k < n && Counted(states[..n + 1][k], calls[..n][k], x, key)
      ensures !Counted(states[n], calls[n], x, key)
    {
      assert Takes(states[k], calls[k], key.seenAt);
    }
  }

  /** The rows counted are exactly those, each with the contents it had at that call. */
  lemma {:induction false} RowsCountedAre(states: seq<seq<Snapshot>>, calls: seq<Call>, x: Column, r: Row)
    requires IsRun(states, calls)
    ensures r in RowsCounted(states, calls, x)
       <==> exists k :: 0 <= k < |calls| && TakesRow(states[k], calls[k], x, r)
  {
    hide Makes, TakesRow, RowsTaken;
    if calls != [] {
      var n := |calls| - 1;
      Earlier(states, calls);
      RowsCountedAre(states[..n + 1], calls[..n], x, r);
      RowTaken(states[n], calls[n], x, r);
      hide IsRun;
      if k :| 0 <= k < n && TakesRow(states[..n + 1][k], calls[..n][k], x, r) {
        assert TakesRow(states[k], calls[k], x, r);
      }
      if k :| 0 <= k < |calls| && TakesRow(states[k], calls[k], x, r) {
        assert k < n ==> TakesRow(states[..n + 1][k], calls[..n][k], x, r);
      }
    }
  }

  ghost predicate TakesRow(before: seq<Snapshot>, c: Call, x: Column, r: Row)
  {
    Takes(before, c, r.seenAt) && r in Table(c, x) && Counts(r.state)
  }

  lemma RowTaken(before: seq<Snapshot>, c: Call, x: Column, r: Row)
    ensures r in RowsTaken(before, c, x) <==> TakesRow(before, c, x, r)
  {
    hide Table, NextStart, OutcomeOfCall, Counts;
    WindowRows(RowStamp(), NextStart(before), c.now - 10, Table(c, x));
    hide InWindow;
  }

  // ----- what the snapshots add up to -----

  function UnitOfItem(): SummaryItem -> string
  {
    (x: SummaryItem) => x.unit
  }

  function QuantityIn(items: seq<SummaryItem>, unit: string): nat
  {
    GroupSum(UnitOfItem(), ItemQuantity(), unit, items)
  }

  function AmountIn(items: seq<SummaryItem>, unit: string): nat
  {
    GroupSum(UnitOfItem(), ItemAmount(), unit, items)
  }

  lemma {:induction false} OneItem(w: SummaryItem -> nat, items: seq<SummaryItem>, unit: string)
    requires forall i, j | 0 <= i < j < |items| :: items[i].unit != items[j].unit
    ensures forall i | 0 <= i < |items| && items[i].unit == unit ::
      GroupSum(UnitOfItem(), w, unit, items) == w(items[i])
    ensures (forall i | 0 <= i < |items| :: items[i].unit != unit) ==> GroupSum(UnitOfItem(), w, unit, items) == 0
  {
    if items != [] {
      OneItem(w, items[..|items| - 1], unit);
    }
  }

  lemma UnitsDiffer(items: seq<SummaryItem>)
    requires SortedByUnit(items)
    ensures forall i, j | 0 <= i < j < |items| :: items[i].unit != items[j].unit
  {
    hide Before;
    forall i, j | 0 <= i < j < |items| ensures items[i].unit != items[j].unit {
      BeforeIsTotal(items[i].unit, items[j].unit);
    }
  }

  lemma SummaryHolds(items: seq<SummaryItem>, rows: seq<Row>, unit: string)
    requires IsSummary(items, rows)
    ensures QuantityIn(items, unit) == CountOf(unit, rows) && AmountIn(items, unit) == Wrap(ValueOf(unit, rows))
  {
    UnitsDiffer(items);
    OneItem(ItemQuantity(), items, unit);
    OneItem(ItemAmount(), items, unit);
    hide CountOf, ValueOf, GroupSum, Wrap, SortedByUnit;
    if CountOf(unit, rows) > 0 {
      var x :| x in items && x.unit == unit;
      var i :| 0 <= i < |items| && items[i] == x;
    } else {
      forall i | 0 <= i < |items| ensures items[i].unit != unit {
        assert items[i] in items;
      }
      NoneCounted(rows, unit);
      WrapOfZero();
    }
  }

  function QuantitySum(snapshots: seq<Snapshot>, x: Column, unit: string): nat
  {
    if snapshots == [] then 0
    else QuantitySum(snapshots[..|snapshots| - 1], x, unit) + QuantityIn(Items(snapshots[|snapshots| - 1], x), unit)
  }

  function AmountSum(snapshots: seq<Snapshot>, x: Column, unit: string): nat
  {
    if snapshots == [] then 0
    else AmountSum(snapshots[..|snapshots| - 1], x, unit) + AmountIn(Items(snapshots[|snapshots| - 1], x), unit)
  }

  /**
   * Over every run, unit by unit: the quantities of all snapshots add up to the number of the rows counted, and the
   * amounts to their sum, exactly while it fits a uint64 and modulo 2^64 always.
   */
  lemma {:induction false} RunSums(states: seq<seq<Snapshot>>, calls: seq<Call>, x: Column, unit: string)
    requires IsRun(states, calls)
    ensures var rows, stored := RowsCounted(states, calls, x), states[|calls|];
      && QuantitySum(stored, x, unit) == CountOf(unit, rows)
      && Wrap(AmountSum(stored, x, unit)) == Wrap(ValueOf(unit, rows))
      && AmountSum(stored, x, unit) <= ValueOf(unit, rows)
      && (ValueOf(unit, rows) < TWO_64 ==> AmountSum(stored, x, unit) == ValueOf(unit, rows))
  {
    if calls != [] {
      var n := |calls| - 1;
      Earlier(states, calls);
      RunSums(states[..n + 1], calls[..n], x, unit);
      OneMoreCall(states[n], calls[n], states[n + 1], RowsCounted(states[..n + 1], calls[..n], x), x, unit);
    }
    FitsThenSame(AmountSum(states[|calls|], x, unit), ValueOf(unit, RowsCounted(states, calls, x)));
    hide Makes, RowsTaken, CountOf, ValueOf, Wrap, QuantitySum, AmountSum;
  }

  lemma FitsThenSame(a: nat, b: nat)
    ensures Wrap(a) == Wrap(b) && a <= b && b < TWO_64 ==> a == b
  {
  }

  lemma OneMoreCall(before: seq<Snapshot>, c: Call, after: seq<Snapshot>, rows: seq<Row>, x: Column, unit: string)
    requires Makes(before, c, after) && QuantitySum(before, x, unit) == CountOf(unit, rows)
    requires Wrap(AmountSum(before, x, unit)) == Wrap(ValueOf(unit, rows))
    requires AmountSum(before, x, unit) <= ValueOf(unit, rows)
    ensures var more := rows + RowsTaken(before, c, x);
      && QuantitySum(after, x, unit) == CountOf(unit, more)
      && Wrap(AmountSum(after, x, unit)) == Wrap(ValueOf(unit, more))
        && AmountSum(after, x, unit) <= ValueOf(unit, more)
  {
    hide OutcomeOfCall, RowsTaken, CountOf, ValueOf, Wrap, IsSummary, Items, QuantityIn, AmountIn, Sums, Selected,
      NextStart;
    var taken := RowsTaken(before, c, x);
    if Inserts(before, c) {
      ColumnSummed(before, c, after, x);
      SummaryHolds(Items(after[|before|], x), taken, unit);
      CountsAppend(unit, rows, taken);
      assert after[..|after| - 1] == before;
      SameSum(ValueOf(unit, taken), ValueOf(unit, rows), AmountSum(before, x, unit));
    } else {
      NoneTaken(before, c, x);
      assert rows + [] == rows;
    }
  }

  lemma NoneTaken(before: seq<Snapshot>, c: Call, x: Column)
    requires !Inserts(before, c)
    ensures RowsTaken(before, c, x) == []
  {
  }

  lemma CountsAppend(unit: string, rows: seq<Row>, more: seq<Row>)
    ensures CountOf(unit, rows + more) == CountOf(unit, rows) + CountOf(unit, more)
    ensures ValueOf(unit, rows + more) == ValueOf(unit, rows) + ValueOf(unit, more)
  {
    GroupSumAppend(UnitOfRow(), One(), unit, rows, more);
    GroupSumAppend(UnitOfRow(), AmountOfRow(), unit, rows, more);
  }

  // ----- a row whose state comes late -----

  function QuoteRow(id: string, state: ActionState, seenAt: int): MintRow
  {
    MintRow(id, "sat", Some(8), "", OfQuote(state), seenAt)
  }

  function MintCall(now: int, mint: seq<MintRow>): Call
  {
    Call(now, StatsTables(mint, [], [], [], map[]), (request: string) => None, false, false, false)
  }

  /** At 20 one quote is PAID and the other, first seen at 6, still UNPAID. */
  function FirstCall(): Call
  {
    MintCall(20, [QuoteRow("a", PAID, 5), QuoteRow("b", UNPAID, 6)])
  }

  /** At 40 both are PAID, and a third one first seen at 15. */
  function SecondCall(): Call
  {
    MintCall(40, [QuoteRow("a", PAID, 5), QuoteRow("b", PAID, 6), QuoteRow("c", PAID, 15)])
  }

  lemma MintCallInserts(before: seq<Snapshot>, now: int, mint: seq<MintRow>, i: nat)
    requires i < |mint| && mint[i].amount.Some? && Counts(mint[i].state)
    requires NextStart(before) <= mint[i].seenAt <= now - 10
    requires forall j | 0 <= j < |mint| :: mint[j].amount.Some?
    ensures Inserts(before, MintCall(now, mint))
  {
    var c := MintCall(now, mint);
    hide NextStart, Counts;
    WindowRows(MintStamp(), NextStart(before), now - 10, mint);
    var w := Selected(before, c);
    assert mint[i] in mint && mint[i] in w.mint;
    forall k | 0 <= k < |w.mint| ensures AmountOfMint(c.decode, w.mint[k]).Some? {
      assert w.mint[k] in w.mint;
    }
    assert w.proofs == [] && w.sigs == [];
    hide InWindow;
  }

  lemma MintCallFits(now: int, mint: seq<MintRow>)
    requires forall j | 0 <= j < |mint| :: mint[j].amount == Some(8)
    ensures AmountsFit(MintCall(now, mint).decode, MintCall(now, mint).t)
  {
  }

  lemma NamesDiffer()
    ensures DistinctIds(Table(FirstCall(), MintColumn)) && DistinctIds(Table(SecondCall(), MintColumn))
  {
    assert "a" != "b" && "b" != "c" && "a" != "c";
  }

  lemma UnpaidAtFirst()
    ensures !Selectable(FirstCall(), MintColumn, Key("b", 6))
  {
    assert "a" != "b";
  }

  lemma PaidAtSecond()
    ensures Selectable(SecondCall(), MintColumn, Key("b", 6))
  {
    var r := Row("b", "sat", 8, OfQuote(PAID), 6);
    assert Table(SecondCall(), MintColumn)[1] == r;
    assert r in Table(SecondCall(), MintColumn);
  }

  /**
   * A quote whose state comes after its window was inserted is in no snapshot: the first call inserts the window over
   * its moment without it, and the second, when it is PAID, starts after it.
   */
  method LateRowIsLost() returns (states: seq<seq<Snapshot>>, calls: seq<Call>)
    ensures IsRun(states, calls) && IdsAreKeys(calls, MintColumn) && calls == [FirstCall(), SecondCall()]
    ensures Takes(states[0], calls[0], 6) && Takes(states[1], calls[1], 15) && |states[2]| == 2
    ensures Selectable(calls[1], MintColumn, Key("b", 6)) && TimesCounted(states, calls, MintColumn, Key("b", 6)) == 0
  {
    hide Makes, TimesCounted, Table, DistinctIds, Selectable, OutcomeOfCall, AmountsFit;
    var service := new Service();
    var first, second := FirstCall(), SecondCall();
    MintCallFits(20, first.t.mint);
    MintCallFits(40, second.t.mint);
    var none := service.snapshots;
    MintCallInserts(none, 20, first.t.mint, 0);
    var _ := service.CreateSnapshot(first);
    var one := service.snapshots;
    StartMoves(none, first, one);
    MintCallInserts(one, 40, second.t.mint, 2);
    var _ := service.CreateSnapshot(second);
    states, calls := [none, one, service.snapshots], [first, second];
    LateRun(states, calls);
  }

  lemma LateRun(states: seq<seq<Snapshot>>, calls: seq<Call>)
    requires |states| == 3 && states[0] == [] && calls == [FirstCall(), SecondCall()]
    requires Makes(states[0], calls[0], states[1]) && Makes(states[1], calls[1], states[2])
    requires Inserts(states[0], calls[0]) && Inserts(states[1], calls[1]) && NextStart(states[1]) == 11
    ensures IsRun(states, calls) && IdsAreKeys(calls, MintColumn)
    ensures Takes(states[0], calls[0], 6) && Takes(states[1], calls[1], 15) && |states[2]| == 2
    ensures Selectable(calls[1], MintColumn, Key("b", 6)) && TimesCounted(states, calls, MintColumn, Key("b", 6)) == 0
  {
    NamesDiffer();
    UnpaidAtFirst();
    PaidAtSecond();
    hide Table, DistinctIds, Selectable, OutcomeOfCall, Sums, TimesCounted;
    RowCountedIff(states, calls, MintColumn, Key("b", 6));
  }
}
