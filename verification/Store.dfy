/** The mint's tables and what the SQL statements do to them (internal/database/postgresql). */
module Store {
  import opened Prelude
  import opened Totals
  import opened Cashu

  type ProofTable = map<Point, Proof>
  type SigTable = map<Point, RecoverSig>

  datatype Tables = Tables(
    proofs: ProofTable,
    melts: map<QuoteId, MeltQuote>,
    mints: map<QuoteId, MintQuote>,
    sigs: SigTable,
    change: map<QuoteId, seq<BlindedMessage>>)

  ghost predicate DistinctYs(ps: seq<Proof>)
  {
    forall i, j | 0 <= i < j < |ps| :: ps[i].y != ps[j].y
  }

  ghost function Ys(ps: seq<Proof>): set<Point>
  {
    set i | 0 <= i < |ps| :: ps[i].y
  }

  /** The rows that a list of proofs makes, one for each Y. */
  ghost function RowMap(ps: seq<Proof>): (m: ProofTable)
    requires DistinctYs(ps)
    ensures m.Keys == Ys(ps)
    ensures forall i | 0 <= i < |ps| :: m[ps[i].y] == ps[i]
  {
    map i | 0 <= i < |ps| :: ps[i].y := ps[i]
  }

  /** INSERT INTO proofs: Y is a unique key, so a known or repeated Y fails the statement. */
  ghost predicate CanInsert(m: ProofTable, ps: seq<Proof>)
  {
    DistinctYs(ps) && forall i | 0 <= i < |ps| :: ps[i].y !in m
  }

  /** UPDATE proofs SET state WHERE y. */
  ghost function SetState(m: ProofTable, ys: set<Point>, state: ProofState): ProofTable
  {
    map y | y in m :: if y in ys then m[y].(state := state) else m[y]
  }

  /** SELECT ... FROM proofs WHERE quote. */
  ghost function RowsOf(m: ProofTable, q: QuoteId): ProofTable
  {
    map y | y in m && m[y].quote == Some(q) :: m[y]
  }

  /** The rows that do not refer to the quote. */
  ghost function RowsOutside(m: ProofTable, q: QuoteId): ProofTable
  {
    map y | y in m && m[y].quote != Some(q) :: m[y]
  }

  ghost predicate DistinctBs(sigs: seq<RecoverSig>)
  {
    forall i, j | 0 <= i < j < |sigs| :: sigs[i].b != sigs[j].b
  }

  ghost function SigMap(sigs: seq<RecoverSig>): (m: SigTable)
    requires DistinctBs(sigs)
    ensures m.Keys == set i | 0 <= i < |sigs| :: sigs[i].b
    ensures forall i | 0 <= i < |sigs| :: m[sigs[i].b] == sigs[i]
  {
    map i | 0 <= i < |sigs| :: sigs[i].b := sigs[i]
  }

  /** INSERT INTO recovery_signature: B_ is a unique key. */
  ghost predicate CanInsertSigs(m: SigTable, sigs: seq<RecoverSig>)
  {
    DistinctBs(sigs) && forall i | 0 <= i < |sigs| :: sigs[i].b !in m
  }

  ghost function ChangeOf(change: map<QuoteId, seq<BlindedMessage>>, q: QuoteId): seq<BlindedMessage>
  {
    if q in change then change[q] else []
  }

  /** INSERT INTO melt_change_message; no message makes no row. */
  ghost function AddChange(change: map<QuoteId, seq<BlindedMessage>>, q: QuoteId, msgs: seq<BlindedMessage>)
    : map<QuoteId, seq<BlindedMessage>>
  {
    if msgs == [] then change else change[q := ChangeOf(change, q) + msgs]
  }

  /** The mint quote whose invoice is the given one, if there is one. */
  ghost function MintByRequest(mints: map<QuoteId, MintQuote>, request: Invoice): (m: Option<QuoteId>)
    ensures m.Some? ==> m.value in mints && mints[m.value].request == request
    ensures m.None? ==> forall k | k in mints :: mints[k].request != request
  {
    if exists k :: k in mints && mints[k].request == request then
      var k :| k in mints && mints[k].request == request;
      Some(k)
    else None
  }

  /** What a set of rows adds up to under a weight. */
  ghost function Held(w: Proof -> nat, rows: ProofTable): nat
  {
    Total(map y | y in rows :: w(rows[y]))
  }

  function AmountOf(): Proof -> nat
  {
    (p: Proof) => p.amount
  }

  lemma RowsOfInsert(m: ProofTable, ps: seq<Proof>, q: QuoteId)
    requires CanInsert(m, ps) && forall i | 0 <= i < |ps| :: ps[i].quote == Some(q)
    ensures RowsOf(m + RowMap(ps), q) == RowsOf(m, q) + RowMap(ps)
    ensures RowsOutside(m + RowMap(ps), q) == RowsOutside(m, q)
  {
  }

  lemma RowsOfInsertElsewhere(m: ProofTable, ps: seq<Proof>, q: QuoteId)
    requires CanInsert(m, ps) && forall i | 0 <= i < |ps| :: ps[i].quote != Some(q)
    ensures RowsOf(m + RowMap(ps), q) == RowsOf(m, q)
  {
  }

  lemma RowsOfSetState(m: ProofTable, q: QuoteId, state: ProofState)
    ensures RowsOf(SetState(m, RowsOf(m, q).Keys, state), q) == SetState(RowsOf(m, q), RowsOf(m, q).Keys, state)
    ensures RowsOutside(SetState(m, RowsOf(m, q).Keys, state), q) == RowsOutside(m, q)
  {
  }

  /** Tables that agree outside one quote's rows hold the same rows for every other quote. */
  lemma RowsOfOther(m: ProofTable, n: ProofTable, q: QuoteId, other: QuoteId)
    requires RowsOutside(m, q) == RowsOutside(n, q) && q != other
    ensures RowsOf(m, other) == RowsOf(n, other)
  {
    forall y ensures y in RowsOf(m, other) <==> y in RowsOf(n, other) {
      assert y in RowsOf(m, other) ==> y in RowsOutside(m, q);
      assert y in RowsOf(n, other) ==> y in RowsOutside(n, q);
    }
    forall y | y in RowsOf(m, other) ensures RowsOf(m, other)[y] == RowsOf(n, other)[y] {
      assert y in RowsOutside(m, q);
    }
  }

  /** A list of rows adds up to what its row map holds, for any weight. */
  lemma SumOfRows(w: Proof -> nat, ps: seq<Proof>)
    requires DistinctYs(ps)
    ensures SumOf(w, ps) == Held(w, RowMap(ps))
  {
    var m := map y | y in RowMap(ps) :: w(RowMap(ps)[y]);
    forall k | k in m ensures exists i :: 0 <= i < |ps| && ps[i].y == k {
      assert k in Ys(ps);
    }
    SumOfListing((p: Proof) => p.y, w, ps, m);
  }

  lemma SumOfSigs(w: RecoverSig -> nat, sigs: seq<RecoverSig>)
    requires DistinctBs(sigs)
    ensures SumOf(w, sigs) == Total(map b | b in SigMap(sigs) :: w(SigMap(sigs)[b]))
  {
    var m := map b | b in SigMap(sigs) :: w(SigMap(sigs)[b]);
    forall k | k in m ensures exists i :: 0 <= i < |sigs| && sigs[i].b == k {
      assert k in SigMap(sigs).Keys;
    }
    SumOfListing((s: RecoverSig) => s.b, w, sigs, m);
  }
}
