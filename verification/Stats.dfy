/**
 * Statistics snapshots and the charts made from them (internal/stats/service.go, internal/database/postgresql/stats.go,
 * internal/routes/admin/pages.go). Amounts are uint64s; times are int64s, taken not to overflow.
 */
module Stats {
  import opened Prelude
  import opened Totals
  import opened Cashu
  import opened Exact
  import opened Fees
  import opened Modular

  /** What a row is in: a quote's or a proof's state; a signature has none. */
  datatype RowState = OfQuote(quote: ActionState) | OfProof(proof: ProofState) | OfSignature

  /** The states that the queries select. */
  predicate Counts(state: RowState)
  {
    match state
    case OfQuote(quote) => quote == PAID || quote == ISSUED
    case OfProof(proof) => proof == ProofSpent
    case OfSignature => true
  }

  /** A row the statistics read, known by its quote id, Y or B_, with the moment it was first seen. */
  datatype Row = Row(id: string, unit: string, amount: nat, state: RowState, seenAt: int)

  datatype SummaryItem = SummaryItem(unit: string, quantity: nat, amount: nat)

  /** A mint quote's row: its amount may be missing, and its invoice then has to be decoded. */
  datatype MintRow = MintRow(
    id: string, unit: string, amount: Option<nat>, request: string, state: RowState, seenAt: int)

  /** A proof's or a signature's row: its unit is its keyset's. */
  datatype KeyedRow = KeyedRow(id: string, keyset: KeysetId, amount: nat, state: RowState, seenAt: int)

  datatype SeedRow = SeedRow(unit: string, ppk: nat)

  type SeedTable = map<KeysetId, SeedRow>

  datatype StatsTables = StatsTables(
    mint: seq<MintRow>, melt: seq<Row>, sigs: seq<KeyedRow>, proofs: seq<KeyedRow>, seeds: SeedTable)

  datatype Snapshot = Snapshot(
    start: int, end: int, mint: seq<SummaryItem>, melt: seq<SummaryItem>, sigs: seq<SummaryItem>,
    proofs: seq<SummaryItem>,
    fees: nat)

  function UnitOfRow(): Row -> string
  {
    (r: Row) => r.unit
  }

  function AmountOfRow(): Row -> nat
  {
    (r: Row) => r.amount
  }

  function One(): Row -> nat
  {
    (r: Row) => 1
  }

  function CountOf(unit: string, rows: seq<Row>): nat
  {
    GroupSum(UnitOfRow(), One(), unit, rows)
  }

  function ValueOf(unit: string, rows: seq<Row>): nat
  {
    GroupSum(UnitOfRow(), AmountOfRow(), unit, rows)
  }

  lemma OneMoreRow(rows: seq<Row>, row: Row)
    ensures forall u :: CountOf(u, rows + [row]) == CountOf(u, rows) + if u == row.unit then 1 else 0
    ensures forall u :: ValueOf(u, rows + [row]) == ValueOf(u, rows) + if u == row.unit then row.amount else 0
  {
  }

  // ----- one summary -----

  /** An item that the map refers to and that is incremented in place. */
  class Item {
    const unit: string
    var quantity: nat
    var amount: nat

    constructor (u: string, q: nat, a: nat)
      ensures unit == u && quantity == q && amount == a
    {
      unit, quantity, amount := u, q, a;
    }
  }

  ghost predicate Separate(items: map<string, Item>)
  {
    && (forall u | u in items :: items[u].unit == u)
    && (forall u, v | u in items && v in items && u != v :: items[u] != items[v])
  }

  /** Each unit's item holds the number and the (wrapping) sum of the rows of that unit. */
  ghost predicate Summarizes(items: map<string, Item>, rows: seq<Row>)
    reads items.Values
  {
    && (forall u | u in items ::
          && items[u].quantity == CountOf(u, rows) > 0
          && items[u].amount == Wrap(ValueOf(u, rows)))
    && (forall u | u !in items :: CountOf(u, rows) == 0)
  }

  /** addSummaryItem: increments in place, or makes a new item. */
  method AddSummaryItem(items: map<string, Item>, row: Row, ghost rows: seq<Row>) returns (updated: map<string, Item>)
    requires Separate(items) && Summarizes(items, rows) && row.amount < TWO_64
    modifies items.Values
    ensures Separate(updated) && Summarizes(updated, rows + [row])
    ensures forall u | u in updated :: (u in items && updated[u] == items[u]) || fresh(updated[u])
  {
    hide CountOf, ValueOf, Wrap;
    OneMoreRow(rows, row);
    if row.unit in items {
      var item := items[row.unit];
      WrapOfSum(row.amount, ValueOf(row.unit, rows));
      item.quantity := item.quantity + 1;
      item.amount := Wrap(row.amount + item.amount);
      updated := items;
    } else {
      NoneCounted(rows, row.unit);
      var item := new Item(row.unit, 1, row.amount);
      updated := items[row.unit := item];
    }
  }

  lemma {:induction false} NoneCounted(rows: seq<Row>, u: string)
    requires CountOf(u, rows) == 0
    ensures ValueOf(u, rows) == 0
  {
    if rows != [] {
      NoneCounted(rows[..|rows| - 1], u);
    }
  }

  method Summarize(rows: seq<Row>) returns (items: map<string, Item>)
    requires forall i | 0 <= i < |rows| :: rows[i].amount < TWO_64
    ensures Separate(items) && Summarizes(items, rows)
  {
    items := map[];
    for i := 0 to |rows|
      invariant Separate(items) && Summarizes(items, rows[..i])
      invariant forall u | u in items :: fresh(items[u])
    {
      items := AddSummaryItem(items, rows[i], rows[..i]);
      assert rows[..i + 1] == rows[..i] + [rows[i]];
    }
    assert rows[..|rows|] == rows;
  }

  // ----- sorting by unit -----

  /** Go's order on strings. */
  predicate Before(s: string, t: string)
  {
    if t == [] then false
    else if s == [] then true
    else s[0] < t[0] || (s[0] == t[0] && Before(s[1..], t[1..]))
  }

  lemma {:induction false} BeforeIsTotal(s: string, t: string)
    ensures s == t || Before(s, t) || Before(t, s)
    ensures !(Before(s, t) && Before(t, s)) && !Before(s, s)
  {
    if s != [] && t != [] {
      BeforeIsTotal(s[1..], t[1..]);
      BeforeIsTotal(s[1..], s[1..]);
      if s[0] == t[0] && s[1..] == t[1..] {
        assert s == [s[0]] + s[1..] && t == [t[0]] + t[1..];
      }
    } else if s != [] {
      BeforeIsTotal(s[1..], s[1..]);
    }
  }

  lemma {:induction false} BeforeIsTransitive(s: string, t: string, u: string)
    requires Before(s, t) && Before(t, u)
    ensures Before(s, u)
  {
    if s != [] && s[0] == t[0] == u[0] {
      BeforeIsTransitive(s[1..], t[1..], u[1..]);
    }
  }

  /** The order of texts: at the first difference the smaller character, or the end, comes first. */
  lemma {:induction false} BeforeIff(s: string, t: string)
    ensures Before(s, t) <==> exists k :: 0 <= k <= |s| && DiffersAt(s, t, k)
  {
    if s != [] && t != [] && s[0] == t[0] {
      BeforeIff(s[1..], t[1..]);
      if k :| 0 <= k <= |s[1..]| && DiffersAt(s[1..], t[1..], k) {
        assert s[..k + 1] == [s[0]] + s[1..][..k] && t[..k + 1] == [t[0]] + t[1..][..k];
        assert DiffersAt(s, t, k + 1);
      }
      if k :| 0 <= k <= |s| && DiffersAt(s, t, k) {
        assert k > 0;
        assert s[1..][..k - 1] == s[..k][1..] && t[1..][..k - 1] == t[..k][1..];
        assert DiffersAt(s[1..], t[1..], k - 1);
      }
    } else if t != [] {
      if Before(s, t) {
        assert s[..0] == t[..0];
        assert DiffersAt(s, t, 0);
      }
      if k :| 0 <= k <= |s| && DiffersAt(s, t, k) {
        if k > 0 {
          assert s[..k][0] == t[..k][0];
        }
      }
    }
  }

  predicate DiffersAt(s: string, t: string, k: nat)
  {
    k <= |s| && k < |t| && s[..k] == t[..k] && (k == |s| || s[k] < t[k])
  }

  ghost predicate SortedByUnit(items: seq<SummaryItem>)
  {
    forall i, j | 0 <= i < j < |items| :: Before(items[i].unit, items[j].unit)
  }

  method PlaceByUnit(items: seq<SummaryItem>, e: SummaryItem) returns (sorted: seq<SummaryItem>)
    requires SortedByUnit(items) && forall i | 0 <= i < |items| :: items[i].unit != e.unit
    ensures SortedByUnit(sorted)
    ensures forall x :: x in sorted <==> x in items || x == e
  {
    var i := |items|;
    while i > 0 && Before(e.unit, items[i - 1].unit)
      invariant 0 <= i <= |items| && forall k | i <= k < |items| :: Before(e.unit, items[k].unit)
    {
      i := i - 1;
    }
    assert forall k | 0 <= k < i :: Before(items[k].unit, e.unit) by {
      if i > 0 {
        BeforeIsTotal(e.unit, items[i - 1].unit);
        forall k | 0 <= k < i - 1 ensures Before(items[k].unit, e.unit) {
          BeforeIsTransitive(items[k].unit, items[i - 1].unit, e.unit);
        }
      }
    }
    hide Before;
    sorted := items[..i] + [e] + items[i..];
    assert items == items[..i] + items[i..];
  }

  /** The sorted summary of some rows: one item for each unit that occurs, with its count and its sum. */
  ghost predicate IsSummary(items: seq<SummaryItem>, rows: seq<Row>)
  {
    && SortedByUnit(items)
    && (forall x | x in items ::
          x.quantity == CountOf(x.unit, rows) > 0 && x.amount == Wrap(ValueOf(x.unit, rows)))
    && (forall u | CountOf(u, rows) > 0 :: exists x :: x in items && x.unit == u)
  }

  /** aggregateSummary: copies the items out of the map in whatever order, then sorts. */
  method AggregateSummary(items: map<string, Item>, ghost rows: seq<Row>) returns (sorted: seq<SummaryItem>)
    requires Separate(items) && Summarizes(items, rows)
    ensures IsSummary(sorted, rows)
  {
    hide CountOf, ValueOf, Wrap;
    sorted := [];
    var ahead := items.Keys;
    while ahead != {}
      invariant ahead <= items.Keys && SortedByUnit(sorted)
      invariant forall x | x in sorted :: x.unit in items.Keys - ahead
      invariant forall x | x in sorted :: x.quantity == items[x.unit].quantity && x.amount == items[x.unit].amount
      invariant forall u | u in items.Keys - ahead :: SummaryItem(u, items[u].quantity, items[u].amount) in sorted
      decreases ahead
    {
      var u :| u in ahead;
      ahead := ahead - {u};
      assert forall i | 0 <= i < |sorted| :: sorted[i] in sorted;
      sorted := PlaceByUnit(sorted, SummaryItem(items[u].unit, items[u].quantity, items[u].amount));
    }
    forall u | CountOf(u, rows) > 0 ensures exists x :: x in sorted && x.unit == u {
      assert SummaryItem(u, items[u].quantity, items[u].amount) in sorted;
    }
  }

  method SummaryOf(rows: seq<Row>) returns (items: seq<SummaryItem>)
    requires forall i | 0 <= i < |rows| :: rows[i].amount < TWO_64
    ensures IsSummary(items, rows)
  {
    var m := Summarize(rows);
    items := AggregateSummary(m, rows);
  }

  // ----- reading the tables -----

  // The moment a row counts at, if its state counts.

  function RowStamp(): Row -> Option<int>
  {
    (r: Row) => if Counts(r.state) then Some(r.seenAt) else None
  }

  function MintStamp(): MintRow -> Option<int>
  {
    (r: MintRow) => if Counts(r.state) then Some(r.seenAt) else None
  }

  function KeyedStamp(): KeyedRow -> Option<int>
  {
    (r: KeyedRow) => if Counts(r.state) then Some(r.seenAt) else None
  }

  predicate Within(stamp: Option<int>, start: int, end: int)
  {
    stamp.Some? && start <= stamp.value <= end
  }

  function InWindow<T>(stamp: T -> Option<int>, start: int, end: int, rows: seq<T>): seq<T>
  {
    if rows == [] then []
    else
      var rest := InWindow(stamp, start, end, rows[..|rows| - 1]);
      if Within(stamp(rows[|rows| - 1]), start, end) then rest + [rows[|rows| - 1]] else rest
  }

  /** SELECT ... WHERE seen_at between the ends of the window AND state. */
  method SelectWindow<T>(stamp: T -> Option<int>, start: int, end: int, rows: seq<T>) returns (inside: seq<T>)
    ensures inside == InWindow(stamp, start, end, rows)
  {
    inside := [];
    for i := 0 to |rows|
      invariant inside == InWindow(stamp, start, end, rows[..i])
    {
      assert rows[..i + 1][..i] == rows[..i];
      if Within(stamp(rows[i]), start, end) {
        inside := inside + [rows[i]];
      }
    }
    assert rows[..|rows|] == rows;
  }

  lemma {:induction false} WindowRows<T>(stamp: T -> Option<int>, start: int, end: int, rows: seq<T>)
    ensures forall r | r in InWindow(stamp, start, end, rows) :: r in rows && Within(stamp(r), start, end)
    ensures forall r | r in rows && Within(stamp(r), start, end) :: r in InWindow(stamp, start, end, rows)
  {
    if rows != [] {
      WindowRows(stamp, start, end, rows[..|rows| - 1]);
      assert rows == rows[..|rows| - 1] + [rows[|rows| - 1]];
    }
  }

  function WindowOf(t: StatsTables, start: int, end: int): StatsTables
  {
    StatsTables(
      InWindow(MintStamp(), start, end, t.mint), InWindow(RowStamp(), start, end, t.melt),
      InWindow(KeyedStamp(), start, end, t.sigs), InWindow(KeyedStamp(), start, end, t.proofs), t.seeds)
  }

  type Decoder = string -> Option<nat>

  /** A missing amount is decoded from the invoice, for satoshis only. */
  function AmountOfMint(decode: Decoder, r: MintRow): Option<nat>
  {
    if r.amount.Some? then r.amount else if r.unit != "sat" then None else decode(r.request)
  }

  /** A mint quote as the summary takes it; 0 stands for an amount that cannot be had. */
  function DecodedRow(decode: Decoder): MintRow -> Row
  {
    (r: MintRow) =>
      Row(r.id, r.unit, if AmountOfMint(decode, r).Some? then AmountOfMint(decode, r).value else 0, r.state, r.seenAt)
  }

  /** COALESCE(seeds.unit, ''): the empty string for a keyset that is not known. */
  function KeysetRow(seeds: SeedTable): KeyedRow -> Row
  {
    (r: KeyedRow) => Row(r.id, if r.keyset in seeds then seeds[r.keyset].unit else "", r.amount, r.state, r.seenAt)
  }

  function Mapped<T>(f: T -> Row, rows: seq<T>): seq<Row>
  {
    seq(|rows|, i requires 0 <= i < |rows| => f(rows[i]))
  }

  predicate Decodable(decode: Decoder, rows: seq<MintRow>)
  {
    forall i | 0 <= i < |rows| :: AmountOfMint(decode, rows[i]).Some?
  }

  method DecodeMintRows(decode: Decoder, rows: seq<MintRow>) returns (decoded: Option<seq<Row>>)
    ensures decoded == if Decodable(decode, rows) then Some(Mapped(DecodedRow(decode), rows)) else None
  {
    var done: seq<Row> := [];
    for i := 0 to |rows|
      invariant Decodable(decode, rows[..i]) && done == Mapped(DecodedRow(decode), rows[..i])
    {
      if AmountOfMint(decode, rows[i]).None? {
        return None;
      }
      done := done + [DecodedRow(decode)(rows[i])];
    }
    assert rows[..|rows|] == rows;
    return Some(done);
  }

  predicate HaveUnits(seeds: SeedTable, rows: seq<KeyedRow>)
  {
    forall i | 0 <= i < |rows| :: KeysetRow(seeds)(rows[i]).unit != ""
  }

  /** Every row can be read: amounts decode, and signatures and proofs name a keyset that is known. */
  predicate Readable(decode: Decoder, t: StatsTables)
  {
    Decodable(decode, t.mint) && HaveUnits(t.seeds, t.proofs) && HaveUnits(t.seeds, t.sigs)
  }

  ghost predicate Fit(rows: seq<Row>)
  {
    forall i | 0 <= i < |rows| :: rows[i].amount < TWO_64
  }

  /** Amounts are uint64s, in the tables and out of the decoder. */
  ghost predicate AmountsFit(decode: Decoder, t: StatsTables)
  {
    && Fit(Mapped(DecodedRow(decode), t.mint)) && Fit(t.melt)
    && Fit(Mapped(KeysetRow(t.seeds), t.sigs)) && Fit(Mapped(KeysetRow(t.seeds), t.proofs))
  }

  lemma WindowFits<T>(f: T -> Row, stamp: T -> Option<int>, rows: seq<T>, start: int, end: int)
    requires Fit(Mapped(f, rows))
    ensures Fit(Mapped(f, InWindow(stamp, start, end, rows)))
  {
    WindowRows(stamp, start, end, rows);
    var inside := InWindow(stamp, start, end, rows);
    forall i | 0 <= i < |inside| ensures f(inside[i]).amount < TWO_64 {
      assert inside[i] in inside;
      assert inside[i] in rows;
      var j :| 0 <= j < |rows| && rows[j] == inside[i];
      assert Mapped(f, rows)[j] == f(rows[j]);
    }
  }

  function Itself(): Row -> Row
  {
    (r: Row) => r
  }

  lemma MappedItself(rows: seq<Row>)
    ensures Mapped(Itself(), rows) == rows
  {
  }

  // ----- fees -----

  /** Spent proofs of one keyset in a window, with the keyset's fee. */
  datatype FeeRow = FeeRow(id: KeysetId, unit: string, quantity: nat, ppk: nat)

  function FeeOfRow(): FeeRow -> nat
  {
    (r: FeeRow) => if r.unit == "auth" then 0 else r.quantity * r.ppk
  }

  function KeysetOf(): KeyedRow -> KeysetId
  {
    (r: KeyedRow) => r.keyset
  }

  function OneEach(): KeyedRow -> nat
  {
    (r: KeyedRow) => 1
  }

  /** What one spent proof adds to the fee, in thousandths; an AUTH proof adds nothing. */
  function FeePpk(seeds: SeedTable): KeyedRow -> nat
  {
    (r: KeyedRow) => if r.keyset in seeds && seeds[r.keyset].unit != "auth" then seeds[r.keyset].ppk else 0
  }

  function QuantityOf(proofs: seq<KeyedRow>, id: KeysetId): nat
  {
    GroupSum(KeysetOf(), OneEach(), id, proofs)
  }

  /** GROUP BY keyset: one row for each known keyset that occurs, with its number of proofs and its fee. */
  ghost predicate GroupedByKeyset(seeds: SeedTable, proofs: seq<KeyedRow>, rows: seq<FeeRow>)
  {
    && (forall i, j | 0 <= i < j < |rows| :: rows[i].id != rows[j].id)
    && (forall i | 0 <= i < |rows| ::
          && rows[i].id in seeds && rows[i].unit == seeds[rows[i].id].unit && rows[i].ppk == seeds[rows[i].id].ppk
          && rows[i].quantity == QuantityOf(proofs, rows[i].id))
    && (forall p | p in proofs && p.keyset in seeds :: Listed(rows, p.keyset))
  }

  ghost predicate Listed(rows: seq<FeeRow>, id: KeysetId)
  {
    exists i :: 0 <= i < |rows| && rows[i].id == id
  }

  lemma OneMoreProof(proofs: seq<KeyedRow>, p: KeyedRow)
    ensures forall id :: QuantityOf(proofs + [p], id) == QuantityOf(proofs, id) + if id == p.keyset then 1 else 0
  {
  }

  lemma {:induction false} NoneOfKeyset(proofs: seq<KeyedRow>, id: KeysetId)
    requires forall p | p in proofs :: p.keyset != id
    ensures QuantityOf(proofs, id) == 0
  {
    if proofs != [] {
      NoneOfKeyset(proofs[..|proofs| - 1], id);
      assert proofs[|proofs| - 1] in proofs;
    }
  }

  /** GetStatsFeeRows: the spent proofs of the window, joined with their seeds and grouped. */
  method SelectFeeRows(seeds: SeedTable, proofs: seq<KeyedRow>) returns (rows: seq<FeeRow>)
    ensures GroupedByKeyset(seeds, proofs, rows)
  {
    hide QuantityOf;
    rows := [];
    for n := 0 to |proofs|
      invariant GroupedByKeyset(seeds, proofs[..n], rows)
    {
      assert proofs[..n + 1] == proofs[..n] + [proofs[n]];
      if proofs[n].keyset in seeds {
        rows := CountProof(seeds, proofs[..n], proofs[n], rows);
      } else {
        OneMoreProof(proofs[..n], proofs[n]);
      }
    }
    assert proofs[..|proofs|] == proofs;
  }

  method CountProof(
      seeds: SeedTable, ghost before: seq<KeyedRow>, p: KeyedRow, rows: seq<FeeRow>)
    returns (more: seq<FeeRow>)
    requires p.keyset in seeds && GroupedByKeyset(seeds, before, rows)
    ensures GroupedByKeyset(seeds, before + [p], more)
  {
    hide QuantityOf;
    OneMoreProof(before, p);
    var i := 0;
    while i < |rows| && rows[i].id != p.keyset
      invariant i <= |rows| && forall k | 0 <= k < i :: rows[k].id != p.keyset
    {
      i := i + 1;
    }
    if i < |rows| {
      more := rows[i := rows[i].(quantity := rows[i].quantity + 1)];
      assert forall k | 0 <= k < |rows| :: more[k].id == rows[k].id;
    } else {
      forall q | q in before ensures q.keyset != p.keyset {
        assert q.keyset in seeds ==> Listed(rows, q.keyset);
      }
      NoneOfKeyset(before, p.keyset);
      more := rows + [FeeRow(p.keyset, seeds[p.keyset].unit, 1, seeds[p.keyset].ppk)];
      assert more[i].id == p.keyset;
      assert forall k | 0 <= k < |rows| :: more[k] == rows[k];
    }
    forall q | q in before + [p] && q.keyset in seeds ensures Listed(more, q.keyset) {
      if q.keyset != p.keyset {
        assert Listed(rows, q.keyset);
        var k :| 0 <= k < |rows| && rows[k].id == q.keyset;
        assert more[k].id == q.keyset;
      } else {
        assert more[i].id == q.keyset;
      }
    }
  }

  lemma {:induction false} GroupedPpk(seeds: SeedTable, proofs: seq<KeyedRow>, id: KeysetId)
    requires id in seeds
    ensures GroupSum(KeysetOf(), FeePpk(seeds), id, proofs)
         == if seeds[id].unit == "auth" then 0 else QuantityOf(proofs, id) * seeds[id].ppk
  {
    if proofs != [] {
      var n := |proofs| - 1;
      GroupedPpk(seeds, proofs[..n], id);
      assert (QuantityOf(proofs[..n], id) + 1) * seeds[id].ppk
        == QuantityOf(proofs[..n], id) * seeds[id].ppk + seeds[id].ppk;
    }
  }

  /** Only known keysets carry a fee. */
  lemma {:induction false} KnownCarry(seeds: SeedTable, proofs: seq<KeyedRow>, ids: set<KeysetId>)
    requires forall p | p in proofs && p.keyset in seeds :: p.keyset in ids
    ensures Total(Groups(KeysetOf(), FeePpk(seeds), proofs, ids)) == SumOf(FeePpk(seeds), proofs)
  {
    if proofs == [] {
      AllZero(Groups(KeysetOf(), FeePpk(seeds), proofs, ids));
    } else {
      var n := |proofs| - 1;
      var p := proofs[n];
      KnownCarry(seeds, proofs[..n], ids);
      var before,
        now := Groups(KeysetOf(), FeePpk(seeds), proofs[..n], ids), Groups(KeysetOf(), FeePpk(seeds), proofs, ids);
      if p.keyset in ids {
        assert now == before[p.keyset := before[p.keyset] + FeePpk(seeds)(p)];
        TotalUpdate(before, p.keyset, before[p.keyset] + FeePpk(seeds)(p));
      } else {
        assert p in proofs;
        assert now == before;
      }
    }
  }

  /** Multiplying out the groups gives the same thousandths as looking up every proof. */
  lemma GroupedFee(seeds: SeedTable, proofs: seq<KeyedRow>, rows: seq<FeeRow>)
    requires GroupedByKeyset(seeds, proofs, rows)
    ensures SumOf(FeeOfRow(), rows) == SumOf(FeePpk(seeds), proofs)
  {
    var ids := set i | 0 <= i < |rows| :: rows[i].id;
    forall p | p in proofs && p.keyset in seeds ensures p.keyset in ids {
      assert Listed(rows, p.keyset);
    }
    KnownCarry(seeds, proofs, ids);
    var groups := Groups(KeysetOf(), FeePpk(seeds), proofs, ids);
    forall i | 0 <= i < |rows| ensures rows[i].id in groups && groups[rows[i].id] == FeeOfRow()(rows[i]) {
      GroupedPpk(seeds, proofs, rows[i].id);
    }
    SumOfListing((r: FeeRow) => r.id, FeeOfRow(), rows, groups);
  }

  /** The fee of a snapshot as a uint64 comes by it: the sum wraps, and so does what is added for rounding up. */
  function RoundUp64(ppk: nat): nat
  {
    Wrap(ppk + 999) / 1000
  }

  method CalculateSnapshotFees(rows: seq<FeeRow>) returns (fees: nat)
    ensures fees == RoundUp64(SumOf(FeeOfRow(), rows))
  {
    var total := 0;
    for i := 0 to |rows|
      invariant total == Wrap(SumOf(FeeOfRow(), rows[..i]))
    {
      assert rows[..i + 1] == rows[..i] + [rows[i]];
      SumOfSnoc(FeeOfRow(), rows[..i], rows[i]);
      if rows[i].unit != "auth" {
        WrapOfSum(rows[i].quantity * rows[i].ppk, SumOf(FeeOfRow(), rows[..i]));
        total := Wrap(rows[i].quantity * rows[i].ppk + total);
      }
    }
    assert rows[..|rows|] == rows;
    WrapOfSum(999, SumOf(FeeOfRow(), rows));
    return Wrap(999 + total) / 1000;
  }

  /** What the fee field of a snapshot of some spent proofs holds. */
  function FeesOf(seeds: SeedTable, proofs: seq<KeyedRow>): nat
  {
    RoundUp64(SumOf(FeePpk(seeds), proofs))
  }

  /** It is the rounded-up fee exactly when the sum and the rounding fit a uint64. */
  lemma SnapshotFeesExactIff(seeds: SeedTable, proofs: seq<KeyedRow>)
    ensures FeesOf(seeds, proofs) == RoundUp(SumOf(FeePpk(seeds), proofs))
      <==> SumOf(FeePpk(seeds), proofs) + 999 < TWO_64
  {
    hide SumOf;
  }

  function Flatten(txs: seq<seq<KeyedRow>>): seq<KeyedRow>
  {
    if txs == [] then [] else Flatten(txs[..|txs| - 1]) + txs[|txs| - 1]
  }

  function PpkTotals(seeds: SeedTable, txs: seq<seq<KeyedRow>>): seq<nat>
  {
    seq(|txs|, i requires 0 <= i < |txs| => SumOf(FeePpk(seeds), txs[i]))
  }

  lemma {:induction false} FlattenSum(seeds: SeedTable, txs: seq<seq<KeyedRow>>)
    ensures SumOf(FeePpk(seeds), Flatten(txs)) == Sum(PpkTotals(seeds, txs))
  {
    if txs != [] {
      var n := |txs| - 1;
      FlattenSum(seeds, txs[..n]);
      SumOfAppend(FeePpk(seeds), Flatten(txs[..n]), txs[n]);
      assert PpkTotals(seeds, txs)[..n] == PpkTotals(seeds, txs[..n]);
    }
  }

  /** What the transactions that spent the proofs were charged. */
  function Charged(seeds: SeedTable, txs: seq<seq<KeyedRow>>): nat
  {
    Sum(RoundedEach(PpkTotals(seeds, txs)))
  }

  function AsProof(r: KeyedRow): Proof
  {
    Proof(r.amount, r.keyset, "", Point(0), Point(0), None, ProofSpent, r.seenAt)
  }

  function AsProofs(tx: seq<KeyedRow>): seq<Proof>
  {
    seq(|tx|, i requires 0 <= i < |tx| => AsProof(tx[i]))
  }

  /** One transaction's part is the input fee that swaps and melts charge. */
  lemma {:induction false} ChargedIsFee(seeds: SeedTable, ks: Keysets, tx: seq<KeyedRow>)
    requires forall r | r in tx ::
      && r.keyset in seeds && seeds[r.keyset].unit != "auth"
      && r.keyset in ks && ks[r.keyset].feePpk == seeds[r.keyset].ppk
    ensures FeeOf(ks, AsProofs(tx)) == Some(RoundUp(SumOf(FeePpk(seeds), tx)))
  {
    if tx != [] {
      var n := |tx| - 1;
      assert forall r | r in tx[..n] :: r in tx;
      ChargedIsFee(seeds, ks, tx[..n]);
      assert AsProofs(tx)[..n] == AsProofs(tx[..n]);
      assert tx[n] in tx;
      forall i | 0 <= i < |tx| ensures AsProofs(tx)[i].id in ks {
        assert tx[i] in tx;
      }
      SameTotal(seeds, ks, tx);
    }
  }

  lemma {:induction false} SameTotal(seeds: SeedTable, ks: Keysets, tx: seq<KeyedRow>)
    requires forall r | r in tx ::
      && r.keyset in seeds && seeds[r.keyset].unit != "auth"
      && r.keyset in ks && ks[r.keyset].feePpk == seeds[r.keyset].ppk
    ensures SumOf(Ppk(ks), AsProofs(tx)) == SumOf(FeePpk(seeds), tx)
  {
    if tx != [] {
      var n := |tx| - 1;
      assert forall r | r in tx[..n] :: r in tx;
      SameTotal(seeds, ks, tx[..n]);
      assert AsProofs(tx)[..n] == AsProofs(tx[..n]) && tx[n] in tx;
    }
  }

  // ----- snapshots -----

  /** The first window starts at 0 and each other one just after the one before; none is empty. */
  ghost predicate Contiguous(snapshots: seq<Snapshot>)
  {
    && (forall i | 0 <= i < |snapshots| :: snapshots[i].start <= snapshots[i].end)
    && (snapshots != [] ==> snapshots[0].start == 0)
    && (forall i | 0 < i < |snapshots| :: snapshots[i].start == snapshots[i - 1].end + 1)
  }

  datatype Outcome = Inserted | Skipped | Failed

  predicate Nothing(w: StatsTables)
  {
    w.mint == [] && w.melt == [] && w.sigs == [] && w.proofs == []
  }

  /** What becomes of a snapshot of a window: tests in the source's order. */
  function OutcomeOf(w: StatsTables, start: int, end: int, decode: Decoder, readFails: bool, insertFails: bool): Outcome
  {
    if end < start then Skipped
    else if readFails || !Readable(decode, w) then Failed
    else if Nothing(w) then Skipped
    else if insertFails then Failed
    else Inserted
  }

  /** The snapshot of a window sums up exactly the rows in it. */
  ghost predicate Sums(s: Snapshot, w: StatsTables, decode: Decoder)
  {
    && IsSummary(s.mint, Mapped(DecodedRow(decode), w.mint)) && IsSummary(s.melt, w.melt)
    && IsSummary(s.sigs, Mapped(KeysetRow(w.seeds), w.sigs))
      && IsSummary(s.proofs, Mapped(KeysetRow(w.seeds), w.proofs))
    && s.fees == FeesOf(w.seeds, w.proofs)
  }

  /**
   * The fee field of an inserted snapshot is at most what the transactions that spent its proofs were charged,
   * however they were split, and less than one unit a transaction below it.
   */
  lemma SnapshotFeeIsClose(s: Snapshot, w: StatsTables, decode: Decoder, txs: seq<seq<KeyedRow>>)
    requires Sums(s, w, decode) && txs != [] && multiset(Flatten(txs)) == multiset(w.proofs)
    requires SumOf(FeePpk(w.seeds), w.proofs) + 999 < TWO_64
    ensures s.fees <= Charged(w.seeds, txs) < s.fees + |txs|
  {
    hide SumOf, Sum, Flatten, IsSummary;
    SumOfIgnoresOrder(FeePpk(w.seeds), Flatten(txs), w.proofs);
    FlattenSum(w.seeds, txs);
    SnapshotFeesExactIff(w.seeds, w.proofs);
    hide FeesOf;
    RoundingEachPart(PpkTotals(w.seeds, txs));
  }

  function NextStart(snapshots: seq<Snapshot>): int
  {
    if snapshots == [] then 0 else snapshots[|snapshots| - 1].end + 1
  }

  /** One call: the clock, the tables as they are then, the decoder, and what fails. */
  datatype Call = Call(
    now: int, t: StatsTables, decode: Decoder, latestFails: bool, readFails: bool, insertFails: bool)

  /** The rows that the call selects. */
  function Selected(before: seq<Snapshot>, c: Call): StatsTables
  {
    WindowOf(c.t, NextStart(before), c.now - 10)
  }

  function OutcomeOfCall(before: seq<Snapshot>, c: Call): Outcome
  {
    if c.latestFails then Failed
    else OutcomeOf(Selected(before, c), NextStart(before), c.now - 10, c.decode, c.readFails, c.insertFails)
  }

  /** A quote has its amount in the row, or, one in satoshis from before amounts were stored, in its invoice. */
  predicate HasAmount(decode: Decoder, r: MintRow)
  {
    r.amount.Some? || (r.unit == "sat" && decode(r.request).Some?)
  }

  predicate HasUnit(seeds: SeedTable, r: KeyedRow)
  {
    r.keyset in seeds && seeds[r.keyset].unit != ""
  }

  /**
   * A snapshot is inserted exactly when nothing fails, and there is something to count that can all be counted; a quote
   * then adds the amount of its row, or else of its invoice.
   */
  lemma InsertedIff(before: seq<Snapshot>, c: Call)
    ensures var w := Selected(before, c);
      OutcomeOfCall(before, c) == Inserted <==>
        && !c.latestFails && !c.readFails && !c.insertFails && NextStart(before) <= c.now - 10
        && |w.mint| + |w.melt| + |w.sigs| + |w.proofs| > 0
        && (forall r | r in w.mint :: HasAmount(c.decode, r))
        && (forall r | r in w.proofs + w.sigs :: HasUnit(w.seeds, r))
    ensures forall r | HasAmount(c.decode, r) ::
      var row := DecodedRow(c.decode)(r);
      && row.unit == r.unit && (r.amount.Some? ==> row.amount == r.amount.value)
      && (r.amount.None? ==> c.decode(r.request) == Some(row.amount))
  {
    forall r | HasAmount(c.decode, r)
      ensures var row := DecodedRow(c.decode)(r);
        && row.unit == r.unit && (r.amount.Some? ==> row.amount == r.amount.value)
        && (r.amount.None? ==> c.decode(r.request) == Some(row.amount))
    {
    }
    hide Selected;
    var w := Selected(before, c);
    DecodableIff(c.decode, w.mint);
    HaveUnitsIff(w.seeds, w.proofs);
    HaveUnitsIff(w.seeds, w.sigs);
    hide Decodable, HaveUnits, HasAmount, HasUnit;
  }

  lemma DecodableIff(decode: Decoder, rows: seq<MintRow>)
    ensures Decodable(decode, rows) <==> forall r | r in rows :: HasAmount(decode, r)
  {
    forall r: MintRow ensures AmountOfMint(decode, r).Some? <==> HasAmount(decode, r) {
    }
    hide HasAmount, AmountOfMint;
    if Decodable(decode, rows) {
      forall r | r in rows ensures HasAmount(decode, r) {
        var i :| 0 <= i < |rows| && rows[i] == r;
      }
    }
  }

  lemma HaveUnitsIff(seeds: SeedTable, rows: seq<KeyedRow>)
    ensures HaveUnits(seeds, rows) <==> forall r | r in rows :: HasUnit(seeds, r)
  {
    if HaveUnits(seeds, rows) {
      forall r | r in rows ensures HasUnit(seeds, r) {
        var i :| 0 <= i < |rows| && rows[i] == r;
        assert KeysetRow(seeds)(rows[i]).unit != "";
      }
    }
    if forall r | r in rows :: HasUnit(seeds, r) {
      forall i | 0 <= i < |rows| ensures KeysetRow(seeds)(rows[i]).unit != "" {
        assert rows[i] in rows;
      }
    }
  }

  /** What a call does to the stored snapshots. */
  ghost predicate Makes(before: seq<Snapshot>, c: Call, after: seq<Snapshot>)
  {
    if OutcomeOfCall(before, c) != Inserted then after == before
    else
      && |after| == |before| + 1 && before <= after
      && var s := after[|before|];
         s.start == NextStart(before) && s.end == c.now - 10 && Sums(s, Selected(before, c), c.decode)
  }

  class Service {
    var snapshots: seq<Snapshot>

    constructor ()
      ensures snapshots == []
    {
      snapshots := [];
    }

    /** The snapshot with the latest end, the last inserted one among equals. */
    method GetLatestStatsSnapshot() returns (latest: Option<Snapshot>)
      requires Contiguous(snapshots)
      ensures latest == if snapshots == [] then None else Some(snapshots[|snapshots| - 1])
    {
      latest := None;
      for i := 0 to |snapshots|
        invariant latest == if i == 0 then None else Some(snapshots[i - 1])
      {
        if latest.None? || snapshots[i].end >= latest.value.end {
          latest := Some(snapshots[i]);
        }
      }
    }

    /** One snapshot over the tables as they are now, with whatever the clock says; a query or the insert may fail. */
    method CreateSnapshot(c: Call) returns (o: Outcome)
      requires Contiguous(snapshots) && AmountsFit(c.decode, c.t)
      modifies this
      ensures Contiguous(snapshots)
      ensures o == OutcomeOfCall(old(snapshots), c) && Makes(old(snapshots), c, snapshots)
    {
      if c.latestFails {
        return Failed;
      }
      var latest := GetLatestStatsSnapshot();
      var start := if latest.None? then 0 else latest.value.end + 1;
      var end := c.now - 10;
      if end < start {
        return Skipped;
      }
      if c.readFails {
        return Failed;
      }
      ghost var w := WindowOf(c.t, start, end);
      hide WindowOf, Sums, AmountsFit;
      var made := Summarized(start, end, c.t, c.decode);
      if made.None? {
        return Failed;
      }
      var s := made.value;
      if s.mint == [] && s.melt == [] && s.sigs == [] && s.proofs == [] {
        NothingSummed(s, w, c.decode);
        return Skipped;
      }
      SomethingSummed(s, w, c.decode);
      if c.insertFails {
        return Failed;
      }
      snapshots := snapshots + [s];
      return Inserted;
    }
  }

  /** The four summaries and the fees of a window; nothing when a row cannot be read. */
  method Summarized(start: int, end: int, t: StatsTables, decode: Decoder) returns (s: Option<Snapshot>)
    requires AmountsFit(decode, t)
    ensures s.Some? <==> Readable(decode, WindowOf(t, start, end))
    ensures s.Some? ==> s.value.start == start && s.value.end == end && Sums(s.value, WindowOf(t, start, end), decode)
  {
    var mintRows := SelectWindow(MintStamp(), start, end, t.mint);
    var meltRows := SelectWindow(RowStamp(), start, end, t.melt);
    var proofRows := SelectWindow(KeyedStamp(), start, end, t.proofs);
    var sigRows := SelectWindow(KeyedStamp(), start, end, t.sigs);
    WindowsFit(decode, t, start, end);
    var decoded := DecodeMintRows(decode, mintRows);
    if decoded.None? || !HaveUnits(t.seeds, proofRows) || !HaveUnits(t.seeds, sigRows) {
      return None;
    }
    hide IsSummary, InWindow, AmountsFit, Mapped, FeesOf, RoundUp64;
    var mint := SummaryOf(decoded.value);
    var melt := SummaryOf(meltRows);
    var sigs := SummaryOf(Mapped(KeysetRow(t.seeds), sigRows));
    var proofs := SummaryOf(Mapped(KeysetRow(t.seeds), proofRows));
    var feeRows := SelectFeeRows(t.seeds, proofRows);
    var fees := CalculateSnapshotFees(feeRows);
    FeesOfRows(t.seeds, proofRows, feeRows);
    return Some(Snapshot(start, end, mint, melt, sigs, proofs, fees));
  }

  lemma FeesOfRows(seeds: SeedTable, proofs: seq<KeyedRow>, rows: seq<FeeRow>)
    requires GroupedByKeyset(seeds, proofs, rows)
    ensures RoundUp64(SumOf(FeeOfRow(), rows)) == FeesOf(seeds, proofs)
  {
    GroupedFee(seeds, proofs, rows);
  }

  lemma WindowsFit(decode: Decoder, t: StatsTables, start: int, end: int)
    requires AmountsFit(decode, t)
    ensures var w := WindowOf(t, start, end);
      && Fit(Mapped(DecodedRow(decode), w.mint)) && Fit(w.melt)
      && Fit(Mapped(KeysetRow(t.seeds), w.sigs)) && Fit(Mapped(KeysetRow(t.seeds), w.proofs))
  {
    hide Fit;
    WindowFits(DecodedRow(decode), MintStamp(), t.mint, start, end);
    WindowFits(KeysetRow(t.seeds), KeyedStamp(), t.sigs, start, end);
    WindowFits(KeysetRow(t.seeds), KeyedStamp(), t.proofs, start, end);
    MappedItself(t.melt);
    WindowFits(Itself(), RowStamp(), t.melt, start, end);
    MappedItself(InWindow(RowStamp(), start, end, t.melt));
  }

  lemma NothingSummed(s: Snapshot, w: StatsTables, decode: Decoder)
    requires Sums(s, w, decode) && s.mint == [] && s.melt == [] && s.sigs == [] && s.proofs == []
    ensures Nothing(w)
  {
    EmptySummary(s.mint, Mapped(DecodedRow(decode), w.mint));
    EmptySummary(s.melt, w.melt);
    EmptySummary(s.sigs, Mapped(KeysetRow(w.seeds), w.sigs));
    EmptySummary(s.proofs, Mapped(KeysetRow(w.seeds), w.proofs));
    hide IsSummary;
  }

  lemma SomethingSummed(s: Snapshot, w: StatsTables, decode: Decoder)
    requires Sums(s, w, decode) && (s.mint != [] || s.melt != [] || s.sigs != [] || s.proofs != [])
    ensures !Nothing(w)
  {
    hide IsSummary;
    if s.mint != [] {
      ItemsHaveRows(s.mint, Mapped(DecodedRow(decode), w.mint));
    } else if s.melt != [] {
      ItemsHaveRows(s.melt, w.melt);
    } else if s.sigs != [] {
      ItemsHaveRows(s.sigs, Mapped(KeysetRow(w.seeds), w.sigs));
    } else {
      ItemsHaveRows(s.proofs, Mapped(KeysetRow(w.seeds), w.proofs));
    }
  }

  lemma ItemsHaveRows(items: seq<SummaryItem>, rows: seq<Row>)
    requires IsSummary(items, rows) && items != []
    ensures rows != []
  {
    assert items[0] in items && CountOf(items[0].unit, rows) > 0;
  }

  lemma EmptySummary(items: seq<SummaryItem>, rows: seq<Row>)
    requires IsSummary(items, rows) && items == []
    ensures rows == []
  {
    if rows != [] {
      LastIsCounted(rows);
    }
  }

  lemma LastIsCounted(rows: seq<Row>)
    requires rows != []
    ensures CountOf(rows[|rows| - 1].unit, rows) > 0
  {
  }

  lemma {:induction false} WindowsAscend(snapshots: seq<Snapshot>, i: nat, j: nat)
    requires Contiguous(snapshots) && i < j < |snapshots|
    ensures snapshots[i].end < snapshots[j].start
    decreases j
  {
    if i < j - 1 {
      WindowsAscend(snapshots, i, j - 1);
    }
  }

  /** A moment belongs to at most one window; see NoMomentMissed for when it belongs to one. */
  lemma CountedOnce(snapshots: seq<Snapshot>, seenAt: int, i: nat, j: nat)
    requires Contiguous(snapshots) && i < |snapshots| && j < |snapshots|
    requires snapshots[i].start <= seenAt <= snapshots[i].end && snapshots[j].start <= seenAt <= snapshots[j].end
    ensures i == j
  {
    if i < j {
      WindowsAscend(snapshots, i, j);
    } else if j < i {
      WindowsAscend(snapshots, j, i);
    }
  }

  lemma {:induction false} NoMomentMissed(snapshots: seq<Snapshot>, seenAt: int)
    requires Contiguous(snapshots) && snapshots != []
    ensures 0 <= seenAt <= snapshots[|snapshots| - 1].end
       <==> exists i :: 0 <= i < |snapshots| && snapshots[i].start <= seenAt <= snapshots[i].end
    decreases |snapshots|
  {
    var n := |snapshots| - 1;
    if n == 0 {
      assert snapshots[0].start == 0;
    } else {
      var before := snapshots[..n];
      NoMomentMissed(before, seenAt);
      if exists i :: 0 <= i < n && before[i].start <= seenAt <= before[i].end {
        var i :| 0 <= i < n && before[i].start <= seenAt <= before[i].end;
        assert snapshots[i].start <= seenAt <= snapshots[i].end;
      }
      if i :| 0 <= i < n && snapshots[i].start <= seenAt <= snapshots[i].end {
        assert before[i].start <= seenAt <= before[i].end;
      }
      assert snapshots[n].start == before[n - 1].end + 1;
      WindowsAscend(snapshots, 0, n);
    }
  }

  // ----- charts -----

  /** What a chart shows of a snapshot: when its window ended, and one of its summaries added up. */
  datatype Bar = Bar(end: nat, amount: nat, count: nat)

  function ItemAmount(): SummaryItem -> nat
  {
    (x: SummaryItem) => x.amount
  }

  function ItemQuantity(): SummaryItem -> nat
  {
    (x: SummaryItem) => x.quantity
  }

  type Selector = Snapshot -> seq<SummaryItem>

  /** What a stored snapshot is: its window ends after 0, and its amounts are uint64s. */
  ghost predicate ChartRow(select: Selector, s: Snapshot)
  {
    s.end >= 0 && forall i | 0 <= i < |select(s)| :: select(s)[i].amount < TWO_64
  }

  ghost predicate ChartRows(select: Selector, rows: seq<Snapshot>)
  {
    forall i | 0 <= i < |rows| :: ChartRow(select, rows[i])
  }

  ghost function BarOf(select: Selector, s: Snapshot): Bar
    requires ChartRow(select, s)
  {
    Bar(s.end, SumOf(ItemAmount(), select(s)), SumOf(ItemQuantity(), select(s)))
  }

  ghost function BarsOf(select: Selector, rows: seq<Snapshot>): seq<Bar>
    requires ChartRows(select, rows)
  {
    seq(|rows|, i requires 0 <= i < |rows| => BarOf(select, rows[i]))
  }

  /** An int64 sum: it wraps to a signed number. */
  function Signed64(x: int): int
  {
    ToInt64(Wrap(x))
  }

  lemma SignedSum(a: nat, b: int)
    ensures Signed64(ToInt64(Wrap(a)) + Signed64(b)) == Signed64(a + b)
    ensures Wrap(Signed64(b)) == Wrap(b)
  {
    SameRemainder(a);
    SameRemainder(b);
    WrapOfSum(a, b);
    WrapOfSum(Wrap(b), a);
    WrapOfSum(Signed64(a), Signed64(b));
    WrapOfSum(Wrap(b), Signed64(a));
    hide Wrap;
  }

  lemma SameRemainder(x: int)
    ensures Wrap(Signed64(x)) == Wrap(x)
  {
    assert Signed64(x) == Wrap(x) || Signed64(x) == Wrap(x) - TWO_64;
  }

  /** sumStatsSummary: the amounts on an int64, the counts on a uint64. */
  method SumStatsSummary(items: seq<SummaryItem>) returns (amount: int, count: nat)
    requires forall i | 0 <= i < |items| :: items[i].amount < TWO_64
    ensures amount == Signed64(SumOf(ItemAmount(), items)) && count == Wrap(SumOf(ItemQuantity(), items))
  {
    amount, count := 0, 0;
    for i := 0 to |items|
      invariant amount == Signed64(SumOf(ItemAmount(), items[..i])) && count == Wrap(SumOf(ItemQuantity(), items[..i]))
    {
      assert items[..i + 1] == items[..i] + [items[i]];
      SumOfSnoc(ItemAmount(), items[..i], items[i]);
      SumOfSnoc(ItemQuantity(), items[..i], items[i]);
      SignedSum(items[i].amount, SumOf(ItemAmount(), items[..i]));
      WrapOfSum(items[i].quantity, SumOf(ItemQuantity(), items[..i]));
      amount := Signed64(ToInt64(items[i].amount) + amount);
      count := Wrap(items[i].quantity + count);
    }
    assert items[..|items|] == items;
  }

  /** Go's division truncates toward zero. */
  function TruncatedQuotient(a: int, b: int): (q: int)
    requires b > 0
    ensures a >= 0 ==> q >= 0
  {
    if a >= 0 then a / b else -((-a) / b)
  }

  function Times(q: int, b: int): (p: int)
    requires b > 0
    ensures q >= 0 ==> p >= 0
  {
    q * b
  }

  function BucketTimestamp(end: int, bucketMinutes: int): (t: int)
    ensures end >= 0 ==> t >= 0
  {
    var bucketSeconds := bucketMinutes * 60;
    if bucketSeconds <= 0 then end else Times(TruncatedQuotient(end, bucketSeconds), bucketSeconds)
  }

  /** A bucket starts at a multiple of its width, within one width of the ends it holds, on the side of 0. */
  lemma BucketHoldsItsEnds(end: int, bucketMinutes: int)
    ensures bucketMinutes <= 0 ==> BucketTimestamp(end, bucketMinutes) == end
    ensures var width, t := bucketMinutes * 60, BucketTimestamp(end, bucketMinutes);
      bucketMinutes > 0 ==>
        t % width == 0 && (end >= 0 ==> t <= end < t + width) && (end < 0 ==> t - width < end <= t)
  {
    var b := bucketMinutes * 60;
    if bucketMinutes > 0 {
      if end >= 0 {
        QuotientBounds(end, b);
        Shift(0, end / b, b);
        assert BucketTimestamp(end, bucketMinutes) == end / b * b;
      } else {
        var k := (-end) / b;
        QuotientBounds(-end, b);
        Shift(0, -k, b);
        assert BucketTimestamp(end, bucketMinutes) == -k * b == -(k * b);
      }
      hide BucketTimestamp;
    }
  }

  /** No window of a snapshot ends before 0, so neither does its bar. */
  function Stamp(bucketMinutes: int): Bar -> nat
  {
    (b: Bar) => BucketTimestamp(b.end, bucketMinutes)
  }

  function AmountOfBar(): Bar -> nat
  {
    (b: Bar) => b.amount
  }

  function CountOfBar(): Bar -> nat
  {
    (b: Bar) => b.count
  }

  class TimeSeriesPoint {
    const timestamp: nat
    var totalAmount: nat
    var count: nat

    constructor (t: nat)
      ensures timestamp == t && totalAmount == 0 && count == 0
    {
      timestamp, totalAmount, count := t, 0, 0;
    }
  }

  datatype ChartPoint = ChartPoint(timestamp: nat, totalAmount: nat, count: nat)

  function AmountAt(bars: seq<Bar>, bucketMinutes: int, t: nat): nat
  {
    GroupSum(Stamp(bucketMinutes), AmountOfBar(), t, bars)
  }

  function CountAt(bars: seq<Bar>, bucketMinutes: int, t: nat): nat
  {
    GroupSum(Stamp(bucketMinutes), CountOfBar(), t, bars)
  }

  ghost predicate Distinguished(points: map<nat, TimeSeriesPoint>)
  {
    && (forall t | t in points :: points[t].timestamp == t)
    && (forall t, u | t in points && u in points && t != u :: points[t] != points[u])
  }

  /** One point for each bucket that occurs, with the (wrapping) sums of its bars. */
  ghost predicate Buckets(points: map<nat, TimeSeriesPoint>, bars: seq<Bar>, bucketMinutes: int)
    reads points.Values
  {
    && (forall t | t in points ::
          && points[t].totalAmount == Wrap(AmountAt(bars, bucketMinutes, t))
          && points[t].count == Wrap(CountAt(bars, bucketMinutes, t)))
    && (forall t | t !in points :: AmountAt(bars, bucketMinutes, t) == 0 && CountAt(bars, bucketMinutes, t) == 0)
    && (forall b | b in bars :: Stamp(bucketMinutes)(b) in points)
  }

  lemma OneMoreBar(bars: seq<Bar>, bar: Bar, bucketMinutes: int)
    ensures forall t :: AmountAt(bars + [bar], bucketMinutes, t)
                     == AmountAt(bars, bucketMinutes, t) + if t == Stamp(bucketMinutes)(bar) then bar.amount else 0
    ensures forall t :: CountAt(bars + [bar], bucketMinutes, t)
                     == CountAt(bars, bucketMinutes, t) + if t == Stamp(bucketMinutes)(bar) then bar.count else 0
  {
  }

  /** One row of the loop: the bucket's point is made if need be, and added to in place. */
  method AddRow(
      points: map<nat, TimeSeriesPoint>, select: Selector, row: Snapshot, bucketMinutes: int, ghost bars: seq<Bar>)
    returns (updated: map<nat, TimeSeriesPoint>)
    requires Distinguished(points) && Buckets(points, bars, bucketMinutes) && ChartRow(select, row)
    modifies points.Values
    ensures Distinguished(updated) && Buckets(updated, bars + [BarOf(select, row)], bucketMinutes)
    ensures forall t | t in updated :: (t in points && updated[t] == points[t]) || fresh(updated[t])
  {
    hide AmountAt, CountAt, Wrap, BucketTimestamp, ToInt64, SumOf;
    ghost var bar := BarOf(select, row);
    OneMoreBar(bars, bar, bucketMinutes);
    var bucketTs := BucketTimestamp(row.end, bucketMinutes);
    updated := points;
    if bucketTs !in points {
      var made := new TimeSeriesPoint(bucketTs);
      updated := points[bucketTs := made];
      WrapOfZero();
    }
    var amount, count := SumStatsSummary(select(row));
    AddToPoint(updated[bucketTs], amount, count, bar.amount, AmountAt(bars, bucketMinutes, bucketTs), bar.count,
               CountAt(bars, bucketMinutes, bucketTs));
  }

  method AddToPoint(
      point: TimeSeriesPoint, amount: int, count: nat, ghost a: nat, ghost before: nat, ghost c: nat,
      ghost counted: nat)
    requires amount == Signed64(a) && count == Wrap(c)
    requires point.totalAmount == Wrap(before) && point.count == Wrap(counted)
    modifies point
    ensures point.totalAmount == Wrap(before + a) && point.count == Wrap(counted + c)
  {
    SignedSum(0, a);
    AddedTwice(a, before);
    AddedTwice(c, counted);
    hide Wrap;
    point.totalAmount := Wrap(Wrap(amount) + point.totalAmount);
    point.count := Wrap(count + point.count);
  }

  lemma WrapOfZero()
    ensures Wrap(0) == 0
  {
  }

  lemma AddedTwice(a: nat, b: nat)
    ensures Wrap(Wrap(a) + Wrap(b)) == Wrap(a + b)
  {
    WrapOfSum(Wrap(a), b);
    WrapOfSum(b, a);
    hide Wrap;
  }

  method PlaceByTime(points: seq<ChartPoint>, e: ChartPoint) returns (sorted: seq<ChartPoint>)
    requires InTime(points) && forall i | 0 <= i < |points| :: points[i].timestamp != e.timestamp
    ensures InTime(sorted)
    ensures forall x :: x in sorted <==> x in points || x == e
  {
    var i := |points|;
    while i > 0 && e.timestamp < points[i - 1].timestamp
      invariant 0 <= i <= |points| && forall k | i <= k < |points| :: e.timestamp < points[k].timestamp
    {
      i := i - 1;
    }
    assert forall k | 0 <= k < i :: points[k].timestamp < e.timestamp by {
      assert forall k | 0 <= k < i - 1 :: points[k].timestamp < points[i - 1].timestamp;
    }
    sorted := points[..i] + [e] + points[i..];
    PlacedInTime(points, i, e);
    InsertedMembers(points, i, e);
  }

  lemma PlacedInTime(points: seq<ChartPoint>, i: nat, e: ChartPoint)
    requires InTime(points) && i <= |points| && forall k | 0 <= k < i :: points[k].timestamp < e.timestamp
    requires forall k | i <= k < |points| :: e.timestamp < points[k].timestamp
    ensures InTime(points[..i] + [e] + points[i..])
  {
  }

  ghost predicate InTime(points: seq<ChartPoint>)
  {
    forall i, j | 0 <= i < j < |points| :: points[i].timestamp < points[j].timestamp
  }

  /** The chart of some bars: strictly increasing timestamps, one point for each bucket, holding its bars' sums. */
  ghost predicate IsChart(points: seq<ChartPoint>, bars: seq<Bar>, bucketMinutes: int)
  {
    && InTime(points)
    && (forall p | p in points ::
          && p.totalAmount == Wrap(AmountAt(bars, bucketMinutes, p.timestamp))
          && p.count == Wrap(CountAt(bars, bucketMinutes, p.timestamp)))
    && (forall b | b in bars :: exists p :: p in points && p.timestamp == Stamp(bucketMinutes)(b))
  }

  /** buildProofTimeSeriesFromStats. */
  method BuildTimeSeries(rows: seq<Snapshot>, select: Selector, bucketMinutes: int) returns (result: seq<ChartPoint>)
    requires ChartRows(select, rows)
    ensures IsChart(result, BarsOf(select, rows), bucketMinutes)
  {
    hide IsChart, Buckets, ChartRow;
    ghost var bars := BarsOf(select, rows);
    var points: map<nat, TimeSeriesPoint> := map[];
    NoBuckets(points, bucketMinutes);
    assert bars[..0] == [];
    for i := 0 to |rows|
      invariant Distinguished(points) && Buckets(points, bars[..i], bucketMinutes)
      invariant forall t | t in points :: fresh(points[t])
    {
      points := AddRow(points, select, rows[i], bucketMinutes, bars[..i]);
      assert bars[..i + 1] == bars[..i] + [BarOf(select, rows[i])];
    }
    assert bars[..|bars|] == bars;
    result := CollectPoints(points, bars, bucketMinutes);
  }

  lemma NoBuckets(points: map<nat, TimeSeriesPoint>, bucketMinutes: int)
    requires points == map[]
    ensures Buckets(points, [], bucketMinutes)
  {
  }

  method CollectPoints(
      points: map<nat, TimeSeriesPoint>, ghost bars: seq<Bar>, bucketMinutes: int)
    returns (result: seq<ChartPoint>)
    requires Distinguished(points) && Buckets(points, bars, bucketMinutes)
    ensures IsChart(result, bars, bucketMinutes)
  {
    hide AmountAt, CountAt, Wrap, BucketTimestamp;
    result := [];
    var ahead := points.Keys;
    while ahead != {}
      invariant ahead <= points.Keys && InTime(result)
      invariant forall p | p in result :: p.timestamp in points.Keys - ahead
      invariant forall p | p in result ::
        p.totalAmount == points[p.timestamp].totalAmount && p.count == points[p.timestamp].count
      invariant forall t | t in points.Keys - ahead :: ChartPoint(t, points[t].totalAmount, points[t].count) in result
      decreases ahead
    {
      var t :| t in ahead;
      ahead := ahead - {t};
      assert forall i | 0 <= i < |result| :: result[i] in result;
      result := PlaceByTime(result, ChartPoint(t, points[t].totalAmount, points[t].count));
    }
    forall b | b in bars ensures exists p :: p in result && p.timestamp == Stamp(bucketMinutes)(b) {
      var t := Stamp(bucketMinutes)(b);
      assert ChartPoint(t, points[t].totalAmount, points[t].count) in result;
    }
  }

  function TotalOfPoint(): ChartPoint -> nat
  {
    (p: ChartPoint) => p.totalAmount
  }

  function CountOfPoint(): ChartPoint -> nat
  {
    (p: ChartPoint) => p.count
  }

  /** calculateChartSummary, on uint64s. */
  method CalculateChartSummary(points: seq<ChartPoint>) returns (totalSats: nat, totalCount: nat)
    ensures totalSats == Wrap(SumOf(TotalOfPoint(), points)) && totalCount == Wrap(SumOf(CountOfPoint(), points))
  {
    totalSats, totalCount := 0, 0;
    for i := 0 to |points|
      invariant totalSats == Wrap(SumOf(TotalOfPoint(), points[..i]))
      invariant totalCount == Wrap(SumOf(CountOfPoint(), points[..i]))
    {
      assert points[..i + 1] == points[..i] + [points[i]];
      SumOfSnoc(TotalOfPoint(), points[..i], points[i]);
      SumOfSnoc(CountOfPoint(), points[..i], points[i]);
      WrapOfSum(points[i].totalAmount, SumOf(TotalOfPoint(), points[..i]));
      WrapOfSum(points[i].count, SumOf(CountOfPoint(), points[..i]));
      totalSats := Wrap(points[i].totalAmount + totalSats);
      totalCount := Wrap(points[i].count + totalCount);
    }
    assert points[..|points|] == points;
  }

  /** Adding up wrapped numbers and wrapping is adding up the numbers and wrapping. */
  ghost function Wrapped(m: map<nat, nat>): map<nat, nat>
  {
    map k | k in m :: Wrap(m[k])
  }

  lemma WrappedRest(m: map<nat, nat>, k: nat)
    requires k in m
    ensures k in Wrapped(m) && Wrapped(m)[k] == Wrap(m[k]) && Wrapped(m) - {k} == Wrapped(m - {k})
  {
    hide Wrap;
  }

  lemma {:induction false} TotalOfWrapped(m: map<nat, nat>)
    ensures Wrap(Total(Wrapped(m))) == Wrap(Total(m)) && Total(Wrapped(m)) <= Total(m)
    decreases |m|
  {
    hide Total, Wrap;
    if m == map[] {
      assert Wrapped(m) == map[];
    } else {
      hide Wrapped;
      var k :| k in m;
      WrappedRest(m, k);
      TotalRemove(m, k);
      TotalRemove(Wrapped(m), k);
      TotalOfWrapped(m - {k});
      SameSum(m[k], Total(m - {k}), Total(Wrapped(m - {k})));
    }
  }

  lemma SameSum(a: nat, b: nat, c: nat)
    requires Wrap(b) == Wrap(c)
    ensures Wrap(Wrap(a) + c) == Wrap(a + b) && Wrap(a) <= a
  {
    WrapOfSum(c, a);
    AddedTwice(a, b);
    AddedTwice(a, c);
    assert Wrap(a) <= a;
    hide Wrap;
  }

  lemma PointsListGroups(points: seq<ChartPoint>, w: ChartPoint -> nat, amounts: map<nat, nat>)
    requires InTime(points) && amounts.Keys == set i | 0 <= i < |points| :: points[i].timestamp
    requires forall i | 0 <= i < |points| :: amounts[points[i].timestamp] == w(points[i])
    ensures SumOf(w, points) == Total(amounts)
  {
    forall k | k in amounts ensures exists i :: 0 <= i < |points| && points[i].timestamp == k {
    }
    SumOfListing((p: ChartPoint) => p.timestamp, w, points, amounts);
  }

  /** One weight of the bars, summed over the points that carry it. */
  lemma BucketsKeepTheSum(
      points: seq<ChartPoint>, bars: seq<Bar>, bucketMinutes: int, w: Bar -> nat, of: ChartPoint -> nat)
    requires IsChart(points, bars, bucketMinutes)
    requires forall p | p in points :: of(p) == Wrap(GroupSum(Stamp(bucketMinutes), w, p.timestamp, bars))
    ensures Wrap(SumOf(of, points)) == Wrap(SumOf(w, bars))
    ensures SumOf(of, points) <= SumOf(w, bars)
  {
    var stamps := set i | 0 <= i < |points| :: points[i].timestamp;
    var groups := Groups(Stamp(bucketMinutes), w, bars, stamps);
    forall i | 0 <= i < |bars| ensures Stamp(bucketMinutes)(bars[i]) in stamps {
      assert bars[i] in bars;
      var p :| p in points && p.timestamp == Stamp(bucketMinutes)(bars[i]);
    }
    GroupsMakeTheSum(Stamp(bucketMinutes), w, bars, stamps);
    var wrapped := Wrapped(groups);
    forall i | 0 <= i < |points| ensures wrapped[points[i].timestamp] == of(points[i]) {
      assert points[i] in points;
    }
    PointsListGroups(points, of, wrapped);
    TotalOfWrapped(groups);
  }

  /** Bucketing loses no amount and no count: exactly while they fit a uint64, and modulo 2^64 always. */
  lemma ChartKeepsTheTotals(points: seq<ChartPoint>, bars: seq<Bar>, bucketMinutes: int)
    requires IsChart(points, bars, bucketMinutes)
    ensures Wrap(SumOf(TotalOfPoint(), points)) == Wrap(SumOf(AmountOfBar(), bars))
    ensures Wrap(SumOf(CountOfPoint(), points)) == Wrap(SumOf(CountOfBar(), bars))
    ensures SumOf(AmountOfBar(), bars) < TWO_64 ==> SumOf(TotalOfPoint(), points) == SumOf(AmountOfBar(), bars)
    ensures SumOf(CountOfBar(), bars) < TWO_64 ==> SumOf(CountOfPoint(), points) == SumOf(CountOfBar(), bars)
  {
    hide SumOf;
    BucketsKeepTheSum(points, bars, bucketMinutes, AmountOfBar(), TotalOfPoint());
    BucketsKeepTheSum(points, bars, bucketMinutes, CountOfBar(), CountOfPoint());
  }

  /** So the summary over a chart is the sum over the summaries behind it, whatever the buckets. */
  method ChartAndSummary(rows: seq<Snapshot>, select: Selector, bucketMinutes: int)
    returns (points: seq<ChartPoint>, totalSats: nat, totalCount: nat)
    requires ChartRows(select, rows)
    ensures IsChart(points, BarsOf(select, rows), bucketMinutes)
    ensures totalSats == Wrap(SumOf(AmountOfBar(), BarsOf(select, rows)))
    ensures totalCount == Wrap(SumOf(CountOfBar(), BarsOf(select, rows)))
  {
    hide IsChart, SumOf, Wrap;
    points := BuildTimeSeries(rows, select, bucketMinutes);
    ChartKeepsTheTotals(points, BarsOf(select, rows), bucketMinutes);
    totalSats, totalCount := CalculateChartSummary(points);
  }
}
