/** What holds of the mint in every reachable state, one melt quote, swap, mint quote and log entry at a time. */
module Invariant {
  import opened Prelude
  import opened Totals
  import opened Cashu
  import opened Store
  import opened Fees
  import opened Transactions
  import opened World

  ghost function Lookup<K, V>(m: map<K, V>, k: K): Option<V>
  {
    if k in m then Some(m[k]) else None
  }

  /** Everything the system holds about one melt quote. */
  datatype MeltView = MeltView(
    quote: MeltQuote, rows: ProofTable, change: seq<BlindedMessage>, attempt: Option<Attempt>, phase: Option<MeltPhase>)

  ghost function View(w: World, q: QuoteId): MeltView
    requires q in w.t.melts
  {
    MeltView(w.t.melts[q], RowsOf(w.t.proofs, q), ChangeOf(w.t.change, q), Lookup(w.ln, q), Lookup(w.melting, q))
  }

  ghost predicate AllIn(rows: ProofTable, state: ProofState)
  {
    forall y | y in rows :: rows[y].state == state
  }

  ghost function HeldFee(ks: Keysets, rows: ProofTable): nat
  {
    RoundUp(Held(Ppk(ks), rows))
  }

  ghost predicate RowOk(ks: Keysets, y: Point, row: Proof)
  {
    row.y == y && row.id in ks && row.state != ProofUnspent
  }

  ghost predicate RowsOk(ks: Keysets, v: MeltView)
  {
    && Held(AmountOf(), v.rows) < QUOTE_LIMIT
    && forall y | y in v.rows :: RowOk(ks, y, v.rows[y]) && ks[v.rows[y].id].unit == v.quote.unit
  }

  /** The reserved inputs cover the amount, the lightning fee reserve and the input fee. */
  ghost predicate Funded(ks: Keysets, v: MeltView)
  {
    Held(AmountOf(), v.rows) >= v.quote.amount + v.quote.feeReserve + HeldFee(ks, v.rows)
  }

  /** The request's inputs and outputs are the ones on record for the quote. */
  ghost predicate Matches(
      rows: ProofTable, change: seq<BlindedMessage>, inputs: seq<Proof>, outputs: seq<BlindedMessage>)
  {
    ListsRows(inputs, rows) && change == Unvalued(outputs)
  }

  /** An attempt that has moved money or still may. */
  ghost predicate Live(attempt: Option<Attempt>)
  {
    attempt.Some? && attempt.value != Dead
  }

  ghost predicate PhaseOk(v: MeltView)
  {
    match v.phase
    case None => true
    case Some(Reserved(i, o)) => Matches(v.rows, v.change, i, o) && !Live(v.attempt)
    case Some(Sent(i, o)) => Matches(v.rows, v.change, i, o) && v.attempt.Some?
    case Some(Doubtful(i, o)) => Matches(v.rows, v.change, i, o) && v.attempt.Some?
    case Some(Confirmed(i, o, fee, preimage)) => Matches(v.rows, v.change, i, o)
      && v.attempt == Some(Settled(fee, preimage))
    case Some(Refreshing(rows)) => ListsRows(rows, v.rows)
  }

  ghost predicate PendingOk(ks: Keysets, v: MeltView)
  {
    && v.rows != map[] && AllIn(v.rows, ProofPending) && Funded(ks, v) && PhaseOk(v)
    && (v.attempt.Some? && v.attempt.value.Settled? ==> v.attempt.value.fee <= v.quote.feeReserve)
  }

  /** Settled between two quotes of this mint, inputs not yet marked spent. */
  ghost predicate InternalOpen(ks: Keysets, v: MeltView)
  {
    && AllIn(v.rows, ProofPending) && v.attempt.None? && Funded(ks, v) && v.quote.feePaid == 0
    && (v.phase.Some? ==> v.phase.value.Confirmed? && v.phase.value.fee == 0
                          && Matches(v.rows, v.change, v.phase.value.inputs, v.phase.value.outputs))
  }

  ghost predicate PaidOk(ks: Keysets, v: MeltView)
  {
    && v.rows != map[]
    && (|| InternalOpen(ks, v)
        || (AllIn(v.rows, ProofSpent) && v.phase.None?
            && (v.attempt.None? || (v.attempt.value.Settled? && v.attempt.value.fee == v.quote.feePaid))))
  }

  ghost predicate MeltOk(ks: Keysets, v: MeltView)
  {
    && (v.quote.melted <==> v.quote.state == PAID)
    && v.quote.amount + v.quote.feeReserve < QUOTE_LIMIT
    && RowsOk(ks, v) && MessagesAreOf(ks, v.change, v.quote.unit)
    && match v.quote.state
       case UNPAID => v.rows == map[] && v.change == [] && v.phase.None? && !Live(v.attempt)
       case PENDING => PendingOk(ks, v)
       case PAID => PaidOk(ks, v)
       case ISSUED => false
  }

  ghost predicate MeltsOk(w: World)
  {
    && w.ln.Keys <= w.t.melts.Keys && w.melting.Keys <= w.t.melts.Keys && w.t.change.Keys <= w.t.melts.Keys
    && forall q | q in w.t.melts :: MeltOk(w.ks, View(w, q))
  }

  // ----- swaps -----

  ghost predicate SwapFits(ks: Keysets, inputs: seq<Proof>, outputs: seq<BlindedMessage>)
  {
    && inputs != [] && |inputs| < REQUEST_LIMIT && |outputs| < REQUEST_LIMIT
    && ProofsAreOf(ks, inputs, UnitOf(ks, inputs[0].id)) && MessagesAreOf(ks, outputs, UnitOf(ks, inputs[0].id))
    && (forall i | 0 <= i < |inputs| :: inputs[i].amount <= MAX_KEYSET_AMOUNT)
    && FeeOf(ks, inputs).Some? && BalanceIsZero(Amount64(inputs), FeeOf(ks, inputs).value, Outputs64(outputs))
  }

  ghost predicate SwapOk(ks: Keysets, t: Tables, p: SwapPhase)
  {
    && DistinctYs(p.inputs) && NamesNoMeltQuote(t, p.inputs)
    && (forall i | 0 <= i < |p.inputs| ::
          p.inputs[i].y in t.proofs && t.proofs[p.inputs[i].y] == p.inputs[i] && p.inputs[i].state == ProofPending)
    && (p.SwapReserved? ==> SwapFits(ks, p.inputs, p.outputs))
  }

  ghost predicate SwapsOk(w: World)
  {
    && (forall s | s in w.swapping :: SwapOk(w.ks, w.t, w.swapping[s]))
    && (forall s, r | s in w.swapping && r in w.swapping && s != r ::
          Ys(w.swapping[s].inputs) !! Ys(w.swapping[r].inputs))
  }

  // ----- mint quotes -----

  ghost function Value(mint: MintQuote): nat
  {
    InUnit(mint.unit, mint.request.msat)
  }

  /** What a request in flight read: the row as it is, or as it was before a melt paid it. */
  predicate ReadBefore(held: MintQuote, mint: MintQuote)
  {
    held == mint || (held.state == UNPAID && mint == held.(state := PAID))
  }

  ghost predicate MintOk(w: World, m: QuoteId)
    requires m in w.t.mints
  {
    var mint := w.t.mints[m];
    && (mint.minted <==> mint.state == ISSUED) && mint.state != PENDING
    && (mint.unit == Sat || mint.unit == Msat)
    && (m in w.minting ==>
          && ReadBefore(w.minting[m].quote, mint) && mint.state != ISSUED
          && (w.minting[m].outputs.Some? ==>
            IssuanceFits(w.ks, mint.unit, mint.request.msat, w.minting[m].outputs.value)))
  }

  /** The outputs passed the amount test against the invoice, on uint64s. */
  ghost predicate IssuanceFits(ks: Keysets, unit: Unit, msat: nat, outputs: seq<BlindedMessage>)
  {
    && |outputs| < REQUEST_LIMIT && MessagesAreOf(ks, outputs, unit)
    && msat == ToMsat64(unit, Outputs64(outputs))
  }

  /** A melt quote for an invoice of this mint never went to lightning and asks for the invoice's amount. */
  ghost predicate InternalPair(w: World, m: QuoteId, q: QuoteId)
    requires m in w.t.mints && q in w.t.melts
  {
    w.t.mints[m].request == w.t.melts[q].request ==>
      && q !in w.ln && w.t.melts[q].state != PENDING
      && (w.t.mints[m].unit == w.t.melts[q].unit ==> w.t.melts[q].amount == Value(w.t.mints[m]))
  }

  ghost predicate MintsOk(w: World)
  {
    && w.minting.Keys <= w.t.mints.Keys && w.received <= w.t.mints.Keys
    && (forall m | m in w.t.mints :: MintOk(w, m))
    && (forall m, k | m in w.t.mints && k in w.t.mints && m != k :: w.t.mints[m].request != w.t.mints[k].request)
    && (forall m, q | m in w.t.mints && q in w.t.melts :: InternalPair(w, m, q))
  }

  // ----- the log -----

  ghost function EntryYs(e: Entry): set<Point>
  {
    if e.Issued? then {} else e.ys
  }

  ghost function SpentYs(log: seq<Entry>): set<Point>
  {
    if log == [] then {} else SpentYs(log[..|log| - 1]) + EntryYs(log[|log| - 1])
  }

  ghost function EntryMints(e: Entry): set<QuoteId>
  {
    if e.Issued? then {e.mint} else {}
  }

  ghost function IssuedMints(log: seq<Entry>): set<QuoteId>
  {
    if log == [] then {} else IssuedMints(log[..|log| - 1]) + EntryMints(log[|log| - 1])
  }

  /** No entry spends a Y or issues a mint quote that an earlier entry already did. */
  ghost predicate NothingTwice(log: seq<Entry>)
  {
    log == []
    || (&& NothingTwice(log[..|log| - 1])
        && EntryYs(log[|log| - 1]) !! SpentYs(log[..|log| - 1])
        && EntryMints(log[|log| - 1]) !! IssuedMints(log[..|log| - 1]))
  }

  ghost function SpentRows(m: ProofTable): set<Point>
  {
    set y | y in m && m[y].state == ProofSpent
  }

  ghost function IssuedQuotes(mints: map<QuoteId, MintQuote>): set<QuoteId>
  {
    set m | m in mints && mints[m].state == ISSUED
  }

  /** Over the integers, the issued outputs are worth the invoice. */
  ghost predicate EntryOk(w: World, e: Entry)
  {
    e.Issued? ==>
      && e.mint in w.t.mints
      && MsatOf(w.t.mints[e.mint].unit, SumOf(OutputAmount(), e.outputs)) == w.t.mints[e.mint].request.msat
  }

  ghost predicate LogOk(w: World)
  {
    && NothingTwice(w.log) && SpentYs(w.log) == SpentRows(w.t.proofs) && IssuedMints(w.log) == IssuedQuotes(w.t.mints)
    && forall i | 0 <= i < |w.log| :: EntryOk(w, w.log[i])
  }

  // ----- conservation -----

  ghost predicate Settles(v: MeltView)
  {
    v.quote.state == PAID || (v.attempt.Some? && v.attempt.value.Settled?)
  }

  ghost function LightningFee(v: MeltView): nat
  {
    if v.attempt.Some? && v.attempt.value.Settled? then v.attempt.value.fee else 0
  }

  /** What left over lightning for the quote. */
  ghost function Outflow(v: MeltView): nat
  {
    if v.attempt.Some? && v.attempt.value.Settled? then v.quote.amount + v.attempt.value.fee else 0
  }

  /** What is still owed to nobody but the change of a settled quote. */
  ghost function Surplus(v: MeltView): nat
  {
    var cost := v.quote.amount + LightningFee(v);
    if Settles(v) && AllIn(v.rows, ProofPending) && Held(AmountOf(), v.rows) >= cost
    then Held(AmountOf(), v.rows) - cost else 0
  }

  ghost function ConsumedBy(v: MeltView): nat
  {
    if Settles(v) then Held(AmountOf(), v.rows) else 0
  }

  ghost predicate HasUnit(ks: Keysets, id: KeysetId, u: Unit)
  {
    id in ks && ks[id].unit == u
  }

  /** A row counts as consumed once it is SPENT, or held for a melt quote that is paid or has settled. */
  ghost predicate Counted(w: World, row: Proof)
  {
    || row.state == ProofSpent
    || (row.quote.Some? && row.quote.value in w.t.melts && Settles(View(w, row.quote.value)))
  }

  /** An amount where it belongs to the unit, nothing elsewhere. */
  function If(belongs: bool, amount: nat): nat
  {
    if belongs then amount else 0
  }

  ghost function Consumed(w: World, u: Unit): map<Point, nat>
  {
    map y | y in w.t.proofs ::
      If(HasUnit(w.ks, w.t.proofs[y].id, u) && Counted(w, w.t.proofs[y]), w.t.proofs[y].amount)
  }

  ghost function Signed(w: World, u: Unit): map<Point, nat>
  {
    map b | b in w.t.sigs :: If(HasUnit(w.ks, w.t.sigs[b].id, u), w.t.sigs[b].amount)
  }

  ghost function PaidOut(w: World, u: Unit): map<QuoteId, nat>
  {
    map q | q in w.t.melts :: If(w.t.melts[q].unit == u, Outflow(View(w, q)))
  }

  ghost function Surpluses(w: World, u: Unit): map<QuoteId, nat>
  {
    map q | q in w.t.melts :: If(w.t.melts[q].unit == u, Surplus(View(w, q)))
  }

  ghost function OwedFor(mint: MintQuote): nat
  {
    If(mint.state == PAID, Value(mint))
  }

  ghost function Owed(w: World, u: Unit): map<QuoteId, nat>
  {
    map m | m in w.t.mints :: If(w.t.mints[m].unit == u, OwedFor(w.t.mints[m]))
  }

  /** An invoice that was paid over lightning before the mint noticed. */
  ghost function UnclaimedFor(w: World, m: QuoteId): nat
    requires m in w.t.mints
  {
    If(m in w.received && w.t.mints[m].state == UNPAID, Value(w.t.mints[m]))
  }

  ghost function Unclaimed(w: World, u: Unit): map<QuoteId, nat>
  {
    map m | m in w.t.mints :: If(w.t.mints[m].unit == u, UnclaimedFor(w, m))
  }

  ghost function Received(w: World, u: Unit): map<QuoteId, nat>
  {
    map m | m in w.t.mints :: If(w.t.mints[m].unit == u && m in w.received, Value(w.t.mints[m]))
  }

  ghost predicate Conserved(w: World, u: Unit)
  {
    Total(Signed(w, u)) + Total(PaidOut(w, u)) + Total(Owed(w, u)) + Total(Unclaimed(w, u)) + Total(Surpluses(w, u))
      <= Total(Received(w, u)) + Total(Consumed(w, u))
  }

  // ----- everything -----

  ghost predicate TablesOk(w: World)
  {
    && (forall id | id in w.ks :: w.ks[id].feePpk < FEE_LIMIT)
    && (forall y | y in w.t.proofs :: RowOk(w.ks, y, w.t.proofs[y]))
    && (forall b | b in w.t.sigs :: w.t.sigs[b].b == b && w.t.sigs[b].id in w.ks)
  }

  ghost predicate Inv(w: World)
  {
    && TablesOk(w) && MeltsOk(w) && SwapsOk(w) && MintsOk(w) && LogOk(w)
    && forall u :: Conserved(w, u)
  }
}
