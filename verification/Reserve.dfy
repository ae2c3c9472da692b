/**
 * Reserving the inputs of a melt, and settling it at once when the invoice is one of this mint's own
 * (reserveMeltInputsAndMarkPending, settleIfInternalMelt).
 */
module Reserve {
  import opened Prelude
  import opened Totals
  import opened Cashu
  import opened Store
  import opened Fees
  import opened Transactions
  import opened Exact
  import opened World
  import opened Invariant
  import opened Frames
  import opened Steps
  import opened MeltSteps
  import opened MintSums
  import opened MintSteps

  // ----- what validation established about the inputs -----

  /** The reserved rows cover amount, fee reserve and input fee over the integers. */
  lemma ReservedFunds(
      ks: Keysets, quote: MeltQuote, inputs: seq<Proof>, outputs: seq<BlindedMessage>, verified: bool, q: QuoteId)
    requires ValidateMelt(ks, quote, inputs, outputs, verified).None? && FeesFit(ks) && |inputs| < REQUEST_LIMIT
    requires quote.amount + quote.feeReserve < QUOTE_LIMIT && DistinctYs(AsPendingFor(inputs, q))
    ensures var rows := RowMap(AsPendingFor(inputs, q));
      quote.amount + quote.feeReserve + HeldFee(ks, rows) <= Held(AmountOf(), rows) < QUOTE_LIMIT
  {
    var ps := AsPendingFor(inputs, q);
    InputsFit(inputs);
    FeeFitsUint(ks, inputs);
    PendingForSums(AmountOf(), inputs, q);
    PendingForSums(Ppk(ks), inputs, q);
    SumOfRows(AmountOf(), ps);
    SumOfRows(Ppk(ks), ps);
    assert Known(ks, inputs);
    hide SumOf, Held, RowMap, AsPendingFor, IsKeysetAmount;
  }

  /** The rows a reservation adds are pending, of the quote's unit, and there is at least one. */
  lemma ReservedRows(
      ks: Keysets, quote: MeltQuote, inputs: seq<Proof>, outputs: seq<BlindedMessage>, verified: bool, q: QuoteId)
    requires ValidateMelt(ks, quote, inputs, outputs, verified).None? && DistinctYs(AsPendingFor(inputs, q))
    ensures var rows := RowMap(AsPendingFor(inputs, q));
      && rows != map[] && AllIn(rows, ProofPending) && SpentRows(rows) == {}
      && (forall y | y in rows :: RowOk(ks, y, rows[y]) && ks[rows[y].id].unit == quote.unit)
    ensures MessagesAreOf(ks, Unvalued(outputs), quote.unit)
  {
    var rows := RowMap(AsPendingFor(inputs, q));
    assert AsPendingFor(inputs, q)[0].y in rows;
    hide FeeOf, Amount64, IsKeysetAmount;
  }

  ghost function ReservedView(
      v: MeltView, quote: MeltQuote, inputs: seq<Proof>, outputs: seq<BlindedMessage>, q: QuoteId,
      phase: Option<MeltPhase>): MeltView
    requires DistinctYs(AsPendingFor(inputs, q))
  {
    MeltView(quote, RowMap(AsPendingFor(inputs, q)), Unvalued(outputs), v.attempt, phase)
  }

  lemma ListsOwnRows(ps: seq<Proof>)
    requires DistinctYs(ps)
    ensures ListsRows(ps, RowMap(ps))
  {
  }

  lemma ExternalOk(
      ks: Keysets, v: MeltView, inputs: seq<Proof>, outputs: seq<BlindedMessage>, verified: bool, q: QuoteId)
    requires MeltOk(ks, v) && v.quote.state == UNPAID && FeesFit(ks) && |inputs| < REQUEST_LIMIT
    requires ValidateMelt(ks, v.quote, inputs, outputs, verified).None? && DistinctYs(AsPendingFor(inputs, q))
    ensures var quote := v.quote.(state := PENDING);
      && MeltOk(ks, ReservedView(v, quote, inputs, outputs, q, Some(Reserved(AsPendingFor(inputs, q), outputs))))
      && MeltOk(ks, ReservedView(v, quote, inputs, outputs, q, None))
  {
    hide FeesFit, SpentRows, ListsRows, ValidateMelt, Held, HeldFee, RowMap, AsPendingFor, Unvalued, DistinctYs,
      MessagesAreOf;
    ReservedFunds(ks, v.quote, inputs, outputs, verified, q);
    ReservedRows(ks, v.quote, inputs, outputs, verified, q);
    ListsOwnRows(AsPendingFor(inputs, q));
  }

  lemma InternalOk(
      ks: Keysets, v: MeltView, inputs: seq<Proof>, outputs: seq<BlindedMessage>, verified: bool, q: QuoteId)
    requires MeltOk(ks, v) && v.quote.state == UNPAID && FeesFit(ks) && |inputs| < REQUEST_LIMIT && v.attempt.None?
    requires ValidateMelt(ks, v.quote, inputs, outputs, verified).None? && DistinctYs(AsPendingFor(inputs, q))
    ensures var quote := v.quote.(state := PAID, melted := true, feePaid := 0);
      && MeltOk(ks, ReservedView(v, quote, inputs, outputs, q,
                                 Some(Confirmed(AsPendingFor(inputs, q), outputs, 0, quote.preimage))))
      && MeltOk(ks, ReservedView(v, quote, inputs, outputs, q, None))
  {
    hide FeesFit, SpentRows, ListsRows, ValidateMelt, Held, HeldFee, RowMap, AsPendingFor, Unvalued, DistinctYs,
      MessagesAreOf;
    ReservedFunds(ks, v.quote, inputs, outputs, verified, q);
    ReservedRows(ks, v.quote, inputs, outputs, verified, q);
    ListsOwnRows(AsPendingFor(inputs, q));
  }

  // ----- the tables after the block -----

  ghost function Base(t: Tables, q: QuoteId, inputs: seq<Proof>, outputs: seq<BlindedMessage>): Tables
    requires q in t.melts && DistinctYs(AsPendingFor(inputs, q))
  {
    SetMelt(t.(proofs := t.proofs + RowMap(AsPendingFor(inputs, q)),
      change := AddChange(t.change, q, Unvalued(outputs))),
            q, t.melts[q].(state := PENDING))
  }

  ghost function InternalTables(t: Tables, q: QuoteId, m: QuoteId): Tables
    requires q in t.melts && m in t.mints
  {
    SetMelt(t.(mints := t.mints[m := t.mints[m].(state := PAID)]), q,
      t.melts[q].(state := PAID, melted := true, feePaid := 0))
  }

  lemma ReservedTables(t: Tables, q: QuoteId, inputs: seq<Proof>, outputs: seq<BlindedMessage>)
    requires ReserveMelt(t, q, inputs, outputs).Ok?
    ensures q in t.melts && t.melts[q].state != PENDING && !t.melts[q].melted
    ensures CanInsert(t.proofs, AsPendingFor(inputs, q))
    ensures var m := MintByRequest(t.mints, t.melts[q].request);
      var base := Base(t, q, inputs, outputs);
      && (m.None? ==> ReserveMelt(t, q, inputs, outputs).value == base)
      && (m.Some? ==> t.mints[m.value].state == UNPAID && t.mints[m.value].unit == t.melts[q].unit
                      && ReserveMelt(t, q, inputs, outputs).value == InternalTables(base, q, m.value))
  {
  }

  lemma ReservedShape(
      w: World, w': World, q: QuoteId, inputs: seq<Proof>, outputs: seq<BlindedMessage>, quote: MeltQuote)
    requires q in w.t.melts && CanInsert(w.t.proofs, AsPendingFor(inputs, q))
    requires View(w, q).rows == map[] && View(w, q).change == []
    requires quote == w.t.melts[q].(state := quote.state, melted := quote.melted, feePaid := quote.feePaid)
    requires w'.t == Base(w.t, q, inputs, outputs).(mints := w'.t.mints, melts := w.t.melts[q := quote])
    requires w' == w.(t := w'.t, melting := w'.melting)
    requires w'.melting - {q} == w.melting - {q}
    ensures OnlyQuote(w, w', q)
    ensures View(w', q) == ReservedView(View(w, q), quote, inputs, outputs, q, Lookup(w'.melting, q))
    ensures w'.t.sigs == w.t.sigs && w'.log == w.log
  {
    hide RowsOf, RowsOutside, CanInsert, DistinctYs, RowMap, AsPendingFor, Unvalued, AddChange, ChangeOf;
    QuotedRows(w.t.proofs, inputs, q);
    ChangeAdded(w.t.change, q, Unvalued(outputs));
  }

  lemma QuotedRows(m: ProofTable, inputs: seq<Proof>, q: QuoteId)
    requires CanInsert(m, AsPendingFor(inputs, q)) && RowsOf(m, q) == map[]
    ensures DistinctYs(AsPendingFor(inputs, q))
    ensures RowsOf(m + RowMap(AsPendingFor(inputs, q)), q) == RowMap(AsPendingFor(inputs, q))
    ensures RowsOutside(m + RowMap(AsPendingFor(inputs, q)), q) == RowsOutside(m, q)
  {
    RowsOfInsert(m, AsPendingFor(inputs, q), q);
  }

  lemma ChangeAdded(change: map<QuoteId, seq<BlindedMessage>>, q: QuoteId, msgs: seq<BlindedMessage>)
    requires ChangeOf(change, q) == []
    ensures ChangeOf(AddChange(change, q, msgs), q) == msgs && AddChange(change, q, msgs) - {q} == change - {q}
  {
  }

  // ----- the event -----

  lemma UnpaidQuote(w: World, q: QuoteId)
    requires Inv(w) && q in w.t.melts && w.t.melts[q].state != PENDING && !w.t.melts[q].melted
    ensures w.t.melts[q].state == UNPAID && MeltOk(w.ks, View(w, q)) && FeesFit(w.ks) && MintsOk(w)
    ensures View(w, q).rows == map[] && View(w, q).change == [] && !Live(View(w, q).attempt)
    ensures View(w, q).attempt == Lookup(w.ln, q) && View(w, q).quote == w.t.melts[q]
  {
  }

  lemma IdleBalanced(v: MeltView, v': MeltView)
    requires v.quote.state == UNPAID && !Live(v.attempt) && v'.attempt == v.attempt && v'.quote.state == PENDING
    ensures Claims(v') + ConsumedBy(v) <= Claims(v) + ConsumedBy(v')
  {
  }

  lemma ReserveExternally(
      w: World, w': World, q: QuoteId, inputs: seq<Proof>, outputs: seq<BlindedMessage>, verified: bool)
    requires Inv(w) && q in w.t.melts && w.t.melts[q].state != PENDING && !w.t.melts[q].melted
    requires ValidateMelt(w.ks, w.t.melts[q], inputs, outputs, verified).None? && |inputs| < REQUEST_LIMIT
    requires CanInsert(w.t.proofs, AsPendingFor(inputs, q)) && MintByRequest(w.t.mints, w.t.melts[q].request).None?
    requires w'.melting == w.melting[q := Reserved(AsPendingFor(inputs, q), outputs)] || w'.melting == w.melting - {q}
    requires w' == w.(t := Base(w.t, q, inputs, outputs), melting := w'.melting)
    ensures Inv(w')
  {
    hide Inv, MeltOk, View, ValidateMelt, CanInsert, DistinctYs, AsPendingFor, RowMap, Live, OnlyQuote, SpentRows,
      Claims, ConsumedBy, MintsOk, MintByRequest;
    UnpaidQuote(w, q);
    Insertable(w.t.proofs, AsPendingFor(inputs, q));
    ReservedShape(w, w', q, inputs, outputs, w.t.melts[q].(state := PENDING));
    ExternalOk(w.ks, View(w, q), inputs, outputs, verified, q);
    ReservedRows(w.ks, w.t.melts[q], inputs, outputs, verified, q);
    NothingSpent();
    IdleBalanced(View(w, q), View(w', q));
    QuietMeltStep(w, w', q);
  }

  lemma Insertable(m: ProofTable, ps: seq<Proof>)
    requires CanInsert(m, ps)
    ensures DistinctYs(ps)
  {
  }

  lemma NothingSpent()
    ensures SpentRows(map[]) == {}
  {
  }

  lemma InternalBalanced(v: MeltView, v': MeltView, value: nat)
    requires v.quote.state == UNPAID && v.attempt.None? && v'.attempt.None? && v'.quote.state == PAID
    requires AllIn(v'.rows, ProofPending) && v'.quote.amount == value <= Held(AmountOf(), v'.rows)
    ensures Claims(v') + value + ConsumedBy(v) <= Claims(v) + ConsumedBy(v')
  {
  }

  /** The two quotes move together: the melt is paid, and the mint owes the invoice. */
  ghost predicate PaidInternally(w: World, w': World, q: QuoteId, m: QuoteId)
  {
    && OnlyMint(w, w', m) && q in w.t.melts
    && w.t.mints[m].request == w.t.melts[q].request && w.t.mints[m].unit == w.t.melts[q].unit
    && w.t.mints[m].state == UNPAID && w'.t.mints[m] == w.t.mints[m].(state := PAID)
    && w'.received == w.received && w'.minting == w.minting
    && w.t.melts[q].amount == Value(w.t.mints[m]) && q !in w.ln && q !in w'.ln
  }

  lemma InternalMintsOk(w: World, w': World, q: QuoteId, m: QuoteId)
    requires MintsOk(w) && OnlyQuote(w, w', q) && PaidInternally(w, w', q, m) && w'.t.melts[q].state == PAID
    ensures MintsOk(w')
  {
    hide IssuanceFits;
    forall k | k in w'.t.mints ensures MintOk(w', k) {
      assert MintOk(w, k);
    }
    forall k, r | k in w'.t.mints && r in w'.t.melts ensures InternalPair(w', k, r) {
      assert InternalPair(w, k, r);
      if r != q {
        SameElsewhere(w.t.melts, w'.t.melts, q, r);
        SameElsewhere(w.ln, w'.ln, q, r);
      }
    }
  }

  lemma InternalLog(w: World, w': World, q: QuoteId, m: QuoteId)
    requires LogOk(w) && OnlyQuote(w, w', q) && PaidInternally(w, w', q, m) && w'.log == w.log
    requires SpentRows(View(w', q).rows) == SpentRows(View(w, q).rows)
    ensures LogOk(w')
  {
    hide LogOk, Value;
    SpentRowsSplit(w.t.proofs, q);
    SpentRowsSplit(w'.t.proofs, q);
    LogKept(w, w');
  }

  lemma InternalMintSums(w: World, w': World, q: QuoteId, m: QuoteId, u: Unit)
    requires PaidInternally(w, w', q, m)
    ensures Total(Owed(w', u)) + Total(Unclaimed(w', u))
         <= Total(Owed(w, u)) + Total(Unclaimed(w, u)) + OfUnit(w, q, u, w.t.melts[q].amount)
  {
    OwedMoves(w, w', m, u);
    UnclaimedMoves(w, w', m, u);
    assert UnclaimedFor(w', m) == 0 && OwedFor(w.t.mints[m]) == 0;
    hide Total, Owed, Unclaimed;
  }

  lemma InternalReceived(w: World, w': World, q: QuoteId, m: QuoteId, u: Unit)
    requires PaidInternally(w, w', q, m)
    ensures Received(w', u) == Received(w, u)
  {
  }

  lemma InternalConserved(w: World, w': World, q: QuoteId, m: QuoteId, u: Unit)
    requires Conserved(w, u) && OnlyQuote(w, w', q) && PaidInternally(w, w', q, m) && w'.t.sigs == w.t.sigs
    requires MeltOk(w.ks, View(w, q)) && MeltOk(w.ks, View(w', q))
    requires Claims(View(w', q)) + w.t.melts[q].amount + ConsumedBy(View(w, q))
      <= Claims(View(w, q)) + ConsumedBy(View(w', q))
    ensures Conserved(w', u)
  {
    MeltOkCountsTogether(w, q);
    MeltOkCountsTogether(w', q);
    InternalMintSums(w, w', q, m, u);
    InternalReceived(w, w', q, m, u);
    SameSigs(w, w', u);
    hide Conserved, OnlyQuote, CountedTogether, PaidInternally, Total, View, Signed, Owed, Unclaimed, Received,
      MeltOk, Claims, ConsumedBy;
    MeltConserves(w, w', q, u, 0, w.t.melts[q].amount);
  }

  lemma InternalQuote(w: World, q: QuoteId, m: QuoteId)
    requires MintsOk(w) && q in w.t.melts && m in w.t.mints && w.t.mints[m].request == w.t.melts[q].request
    ensures q !in w.ln && (w.t.mints[m].unit == w.t.melts[q].unit ==> w.t.melts[q].amount == Value(w.t.mints[m]))
  {
  }

  lemma InternalOverBase(t: Tables, q: QuoteId, m: QuoteId, inputs: seq<Proof>, outputs: seq<BlindedMessage>)
    requires q in t.melts && m in t.mints && DistinctYs(AsPendingFor(inputs, q))
    ensures Base(t, q, inputs, outputs).mints == t.mints && q in Base(t, q, inputs, outputs).melts
    ensures InternalTables(Base(t, q, inputs, outputs), q, m) == Base(t, q, inputs, outputs).(
      mints := t.mints[m := t.mints[m].(state := PAID)],
      melts := t.melts[q := t.melts[q].(state := PAID, melted := true, feePaid := 0)])
  {
  }

  lemma ReserveInternally(
      w: World, w': World, q: QuoteId, m: QuoteId, inputs: seq<Proof>, outputs: seq<BlindedMessage>, verified: bool)
    requires Inv(w) && q in w.t.melts && w.t.melts[q].state != PENDING && !w.t.melts[q].melted
    requires ValidateMelt(w.ks, w.t.melts[q], inputs, outputs, verified).None? && |inputs| < REQUEST_LIMIT
    requires CanInsert(w.t.proofs, AsPendingFor(inputs, q)) && m in w.t.mints
    requires w.t.mints[m].request == w.t.melts[q].request
    requires w.t.mints[m].unit == w.t.melts[q].unit && w.t.mints[m].state == UNPAID
    requires
      || w'.melting == w.melting[q := Confirmed(AsPendingFor(inputs, q), outputs, 0, w.t.melts[q].preimage)]
      || w'.melting == w.melting - {q}
    requires w' == w.(t := InternalTables(Base(w.t, q, inputs, outputs), q, m), melting := w'.melting)
    ensures Inv(w')
  {
    hide TablesOk, MeltsOk, SwapsOk, MintsOk, LogOk, Conserved, View, MeltOk, OnlyQuote, ValidateMelt, CanInsert,
      DistinctYs, AsPendingFor, RowMap, Live, SpentRows, Claims, ConsumedBy, Held, HeldFee, AllIn, FeesFit, Value,
      Base, InternalTables;
    UnpaidQuote(w, q);
    Insertable(w.t.proofs, AsPendingFor(inputs, q));
    InternalOverBase(w.t, q, m, inputs, outputs);
    InternalQuote(w, q, m);
    var quote := w.t.melts[q].(state := PAID, melted := true, feePaid := 0);
    ReservedShape(w, w', q, inputs, outputs, quote);
    InternalOk(w.ks, View(w, q), inputs, outputs, verified, q);
    ReservedRows(w.ks, w.t.melts[q], inputs, outputs, verified, q);
    ReservedFunds(w.ks, w.t.melts[q], inputs, outputs, verified, q);
    NothingSpent();
    InternalBalanced(View(w, q), View(w', q), Value(w.t.mints[m]));
    InternalKeeps(w, w', q, m);
  }

  lemma InternalKeeps(w: World, w': World, q: QuoteId, m: QuoteId)
    requires Inv(w) && OnlyQuote(w, w', q) && PaidInternally(w, w', q, m) && w'.t.sigs == w.t.sigs && w'.log == w.log
    requires MeltOk(w.ks, View(w, q)) && MeltOk(w.ks, View(w', q)) && View(w', q).quote.state == PAID
    requires SpentRows(View(w', q).rows) == SpentRows(View(w, q).rows)
    requires Claims(View(w', q)) + w.t.melts[q].amount + ConsumedBy(View(w, q))
      <= Claims(View(w, q)) + ConsumedBy(View(w', q))
    ensures Inv(w')
  {
    hide TablesOk, MeltsOk, SwapsOk, MintsOk, LogOk, Conserved, OnlyQuote, PaidInternally, MeltOk, SpentRows, Claims,
      ConsumedBy;
    QuietTablesKept(w, w', q);
    MeltsKept(w, w', q);
    SwapsKept(w, w', q);
    InternalMintsOk(w, w', q, m);
    InternalLog(w, w', q, m);
    forall u ensures Conserved(w', u) {
      InternalConserved(w, w', q, m, u);
    }
  }

  lemma AfterReserveKeeps(
      w: World, q: QuoteId, inputs: seq<Proof>, outputs: seq<BlindedMessage>, verified: bool, c: Commit, t: Tables)
    requires Inv(w) && q !in w.melting && |inputs| < REQUEST_LIMIT && q in w.t.melts
    requires ValidateMelt(w.ks, w.t.melts[q], inputs, outputs, verified).None?
    requires ReserveMelt(w.t, q, inputs, outputs) == Ok(t)
    ensures q in t.melts && Inv(AfterReserve(w, q, t, AsPendingFor(inputs, q), outputs, c))
  {
    hide Inv, ValidateMelt, ReserveMelt, MintByRequest, CanInsert, AsPendingFor, Base, InternalTables, DistinctYs;
    ReservedTables(w.t, q, inputs, outputs);
    Insertable(w.t.proofs, AsPendingFor(inputs, q));
    assert w.melting - {q} == w.melting;
    if MintByRequest(w.t.mints, w.t.melts[q].request).None? {
      BaseQuote(w.t, q, inputs, outputs);
      ReserveExternally(w, AfterReserve(w, q, t, AsPendingFor(inputs, q), outputs, c), q, inputs, outputs, verified);
    } else {
      var m := MintByRequest(w.t.mints, w.t.melts[q].request).value;
      InternalOverBase(w.t, q, m, inputs, outputs);
      ReserveInternally(w, AfterReserve(w, q, t, AsPendingFor(inputs, q), outputs, c), q, m, inputs, outputs, verified);
    }
  }

  lemma MeltReserveKeeps(
      w: World, q: QuoteId, inputs: seq<Proof>, outputs: seq<BlindedMessage>, verified: bool, c: Commit)
    requires Inv(w) && q !in w.melting && |inputs| < REQUEST_LIMIT
    ensures Inv(StepMeltReserve(w, q, inputs, outputs, verified, c))
  {
    hide Inv, ValidateMelt, ReserveMelt, AfterReserve;
    if q in w.t.melts && ValidateMelt(w.ks, w.t.melts[q], inputs, outputs, verified).None?
       && ReserveMelt(w.t, q, inputs, outputs).Ok? && c != NotApplied {
      AfterReserveKeeps(w, q, inputs, outputs, verified, c, ReserveMelt(w.t, q, inputs, outputs).value);
    }
  }

  lemma BaseQuote(t: Tables, q: QuoteId, inputs: seq<Proof>, outputs: seq<BlindedMessage>)
    requires q in t.melts && DistinctYs(AsPendingFor(inputs, q))
    ensures q in Base(t, q, inputs, outputs).melts
    ensures Base(t, q, inputs, outputs).melts[q] == t.melts[q].(state := PENDING)
  {
  }
}
