/**
 * Finishing a paid melt: directly (finalizePaidBolt11Melt) or after a crash (the SETTLED branch of
 * RefreshMeltQuoteState). Both leave the same tables, and both keep the invariant.
 */
module Settlement {
  import opened Prelude
  import opened Totals
  import opened Cashu
  import opened Store
  import opened Amounts
  import opened Fees
  import opened Transactions
  import opened Exact
  import opened World
  import opened Invariant
  import opened Frames
  import opened Steps
  import opened MeltSteps

  /** The inputs paid for the amount, the lightning fee and the input fee, without reaching 2^64. */
  ghost predicate Covers(ks: Keysets, ps: seq<Proof>, amount: nat, fee: nat)
  {
    && FeeOf(ks, ps).Some? && SumOf(AmountOf(), ps) < TWO_64
    && amount + fee + FeeOf(ks, ps).value <= SumOf(AmountOf(), ps)
  }

  ghost function Overpaid(ks: Keysets, ps: seq<Proof>, amount: nat, fee: nat): nat
    requires Covers(ks, ps, amount, fee)
  {
    SumOf(AmountOf(), ps) - (amount + fee + FeeOf(ks, ps).value)
  }

  lemma SplitOfPositive(n: nat)
    ensures Split(n) == [] <==> n == 0
  {
    SplitIsBinary(n);
  }

  lemma ChangeIgnoresValues(overpaid: nat, outputs: seq<BlindedMessage>, msgs: seq<BlindedMessage>)
    requires Unvalued(msgs) == Unvalued(outputs)
    ensures ChangeMessages(overpaid, Unvalued(msgs)) == ChangeMessages(overpaid, outputs)
    ensures ChangeMessages(overpaid, outputs) == [] <==> overpaid == 0 || outputs == []
    ensures msgs == [] <==> outputs == []
  {
    assert |msgs| == |Unvalued(msgs)| == |outputs|;
    forall i | 0 <= i < |outputs| ensures msgs[i].(amount := 0) == outputs[i].(amount := 0) {
      assert Unvalued(msgs)[i] == Unvalued(outputs)[i];
    }
    SplitOfPositive(overpaid);
    hide Split;
  }

  lemma SameRowsSameSums(ks: Keysets, ps: seq<Proof>, qs: seq<Proof>)
    requires DistinctYs(ps) && DistinctYs(qs) && RowMap(ps) == RowMap(qs)
    ensures SumOf(AmountOf(), ps) == SumOf(AmountOf(), qs) && FeeOf(ks, ps) == FeeOf(ks, qs) && Ys(ps) == Ys(qs)
  {
    SumOfRows(AmountOf(), ps);
    SumOfRows(AmountOf(), qs);
    if Known(ks, ps) {
      SameRowsKnown(ks, ps, qs);
    } else if Known(ks, qs) {
      SameRowsKnown(ks, qs, ps);
    }
    SumOfRows(Ppk(ks), ps);
    SumOfRows(Ppk(ks), qs);
    hide Known, RowMap, SumOf, Held;
  }

  lemma SameRowsKnown(ks: Keysets, ps: seq<Proof>, qs: seq<Proof>)
    requires DistinctYs(ps) && DistinctYs(qs) && RowMap(ps) == RowMap(qs) && Known(ks, ps)
    ensures Known(ks, qs)
  {
  }

  /** Without the check made at validation the recovery's subtraction wraps; with it both take the same change. */
  lemma NoWrapIff(paid: nat, spent: nat)
    requires paid < TWO_64 && spent < TWO_64
    ensures Wrap(paid - spent) == paid - spent <==> spent <= paid
  {
  }

  lemma SameNumbers(ks: Keysets, inputs: seq<Proof>, rows: seq<Proof>, amount: nat, fee: nat)
    requires Covers(ks, inputs, amount, fee)
    requires DistinctYs(inputs) && DistinctYs(rows) && RowMap(inputs) == RowMap(rows)
    ensures FeeOf(ks, rows) == FeeOf(ks, inputs) && Ys(rows) == Ys(inputs) && Amount64(rows) == Amount64(inputs)
    ensures var spent := Wrap(amount + fee + FeeOf(ks, inputs).value);
      spent <= Amount64(inputs) && Wrap(Amount64(inputs) - spent) == Amount64(inputs) - spent
  {
    SameRowsSameSums(ks, inputs, rows);
    hide FeeOf, SumOf, Ys, RowMap, DistinctYs;
  }

  /**
   * Crash recovery leaves exactly the tables of the direct path: the rows may come back in any order, the saved
   * messages in the order they were sent.
   */
  lemma RecoveryAgrees(
      ks: Keysets, t: Tables, q: QuoteId, inputs: seq<Proof>, outputs: seq<BlindedMessage>,
      rows: seq<Proof>, msgs: seq<BlindedMessage>, fee: nat, preimage: string)
    requires q in t.melts && Covers(ks, inputs, t.melts[q].amount, fee)
    requires DistinctYs(inputs) && DistinctYs(rows) && RowMap(inputs) == RowMap(rows)
    requires Unvalued(msgs) == Unvalued(outputs)
    ensures RecoverMelt(ks, t, q, rows, msgs, fee, preimage) == FinalizeMelt(ks, t, q, inputs, outputs, fee, preimage)
  {
    hide Covers, FeeOf, Amount64, ChangeMessages, Unvalued, Ys, SetState, CanSign, CanInsertSigs, SigsFor, RowMap,
      DistinctYs, Wrap, MarkPaid, SigMap;
    SameNumbers(ks, inputs, rows, t.melts[q].amount, fee);
    if FeeOf(ks, inputs).Some? {
      var spent := Wrap(t.melts[q].amount + fee + FeeOf(ks, inputs).value);
      ChangeIgnoresValues(Amount64(inputs) - spent, outputs, msgs);
    }
  }

  /** What the inputs cover, uint64 arithmetic computes: the difference is true and never negative. */
  lemma CoveredNeverWraps(ks: Keysets, ps: seq<Proof>, amount: nat, fee: nat)
    requires Covers(ks, ps, amount, fee)
    ensures var spent := amount + fee + FeeOf(ks, ps).value;
      spent <= SumOf(AmountOf(), ps) && Wrap(Amount64(ps) - Wrap(spent)) == SumOf(AmountOf(), ps) - spent
  {
  }

  ghost function ChangeFor(
      ks: Keysets, t: Tables, q: QuoteId, ps: seq<Proof>, outputs: seq<BlindedMessage>, fee: nat): seq<BlindedMessage>
    requires q in t.melts && Covers(ks, ps, t.melts[q].amount, fee)
  {
    ChangeMessages(Overpaid(ks, ps, t.melts[q].amount, fee), outputs)
  }

  /** What the direct path leaves behind, free of machine arithmetic. */
  lemma FinalizedTables(
      ks: Keysets, t: Tables, q: QuoteId, inputs: seq<Proof>, outputs: seq<BlindedMessage>, fee: nat, preimage: string)
    requires q in t.melts && Covers(ks, inputs, t.melts[q].amount, fee)
    requires FinalizeMelt(ks, t, q, inputs, outputs, fee, preimage).Ok?
    ensures var sigs := SigsFor(ChangeFor(ks, t, q, inputs, outputs, fee));
      var t' := FinalizeMelt(ks, t, q, inputs, outputs, fee, preimage).value;
      && CanInsertSigs(t.sigs, sigs)
      && t' == t.(sigs := t.sigs + SigMap(sigs), change := if sigs == [] then t.change else t.change - {q},
                  proofs := SetState(t.proofs, Ys(inputs), ProofSpent),
                    melts := t.melts[q := PaidQuote(t.melts[q], fee, preimage)])
  {
    ChangeIgnoresValues(Overpaid(ks, inputs, t.melts[q].amount, fee), outputs, outputs);
    NoSigs(t.sigs);
    hide FeeOf, SumOf, ChangeMessages, Ys, SetState, CanSign, CanInsertSigs, SigMap, Unvalued;
  }

  lemma NoSigs(sigs: SigTable)
    ensures CanInsertSigs(sigs, []) && sigs + SigMap([]) == sigs
  {
  }

  lemma ChangeSigsSum(overpaid: nat, outputs: seq<BlindedMessage>)
    ensures SumOf(SigAmount(), SigsFor(ChangeMessages(overpaid, outputs))) <= overpaid
  {
    ChangeIsAtMostOverpaid(overpaid, outputs);
    SigsSum(ChangeMessages(overpaid, outputs));
  }

  lemma {:induction false} SigsSum(ms: seq<BlindedMessage>)
    ensures SumOf(SigAmount(), SigsFor(ms)) == Sum(OutputAmounts(ms)) == SumOf(OutputAmount(), ms)
  {
    if ms != [] {
      var n := |ms| - 1;
      assert SigsFor(ms)[..n] == SigsFor(ms[..n]) && OutputAmounts(ms)[..n] == OutputAmounts(ms[..n]);
      SigsSum(ms[..n]);
    }
  }

  // ----- the invariant -----

  /** A quote whose payment is final and whose inputs are still to be spent. */
  ghost predicate ReadyToSettle(v: MeltView, fee: nat, preimage: string)
  {
    || (v.quote.state == PENDING && v.attempt == Some(Settled(fee, preimage)))
    || (v.quote.state == PAID && AllIn(v.rows, ProofPending) && fee == 0)
  }

  lemma ReadyCovers(ks: Keysets, v: MeltView, ps: seq<Proof>, fee: nat, preimage: string)
    requires MeltOk(ks, v) && ReadyToSettle(v, fee, preimage) && ListsRows(ps, v.rows)
    ensures Covers(ks, ps, v.quote.amount, fee)
    ensures SumOf(AmountOf(), ps) == Held(AmountOf(), v.rows)
  {
    assert Funded(ks, v) && fee <= v.quote.feeReserve;
    ListedKnown(ks, v, ps);
    SumOfRows(AmountOf(), ps);
    FeeOfRows(ks, ps);
    hide FeeOf, SumOf, Held, RowMap, ListsRows;
  }

  lemma ListedKnown(ks: Keysets, v: MeltView, ps: seq<Proof>)
    requires RowsOk(ks, v) && ListsRows(ps, v.rows)
    ensures Known(ks, ps)
  {
  }

  ghost function SettledView(v: MeltView, change: seq<BlindedMessage>, fee: nat, preimage: string): MeltView
  {
    MeltView(PaidQuote(v.quote, fee, preimage), SetState(v.rows, v.rows.Keys, ProofSpent), change, v.attempt, None)
  }

  lemma HeldSpent(w: Proof -> nat, rows: ProofTable)
    requires forall p: Proof :: w(p.(state := ProofSpent)) == w(p)
    ensures Held(w, SetState(rows, rows.Keys, ProofSpent)) == Held(w, rows)
  {
    var rows' := SetState(rows, rows.Keys, ProofSpent);
    assert (map y | y in rows' :: w(rows'[y])) == (map y | y in rows :: w(rows[y]));
  }

  lemma SettledOk(ks: Keysets, v: MeltView, change: seq<BlindedMessage>, fee: nat, preimage: string)
    requires MeltOk(ks, v) && ReadyToSettle(v, fee, preimage) && (change == v.change || change == [])
    ensures var v' := SettledView(v, change, fee, preimage);
      MeltOk(ks, v') && SpentRows(v.rows) == {} && SpentRows(v'.rows) == v.rows.Keys
    ensures v.rows != map[] && AllIn(v.rows, ProofPending) && (v.quote.state == PAID ==> v.attempt.None?)
  {
    HeldSpent(AmountOf(), v.rows);
    SettledRows(v.rows);
    assert AllIn(v.rows, ProofPending) && RowsOk(ks, SettledView(v, change, fee, preimage));
    hide Held, HeldFee, SetState, AllIn, SpentRows, RowsOk, Funded, Matches, ListsRows, MessagesAreOf;
  }

  lemma SettledRows(rows: ProofTable)
    ensures var rows' := SetState(rows, rows.Keys, ProofSpent);
      AllIn(rows', ProofSpent) && SpentRows(rows') == rows.Keys && (rows != map[] ==> rows' != map[])
    ensures AllIn(rows, ProofPending) ==> SpentRows(rows) == {}
  {
  }

  lemma SettledBalance(v: MeltView, change: seq<BlindedMessage>, fee: nat, preimage: string, signed: nat)
    requires ReadyToSettle(v, fee, preimage) && v.rows != map[] && AllIn(v.rows, ProofPending)
    requires v.quote.state == PAID ==> v.attempt.None?
    requires v.quote.amount + fee + signed <= Held(AmountOf(), v.rows)
    ensures var v' := SettledView(v, change, fee, preimage);
      Claims(v') + signed + ConsumedBy(v) <= Claims(v) + ConsumedBy(v')
  {
    HeldSpent(AmountOf(), v.rows);
    var y :| y in v.rows;
    assert SettledView(v, change, fee, preimage).rows[y].state == ProofSpent;
    hide Held, SetState;
  }

  lemma SettledWorld(w: World, w': World, q: QuoteId, ps: seq<Proof>, change: map<QuoteId, seq<BlindedMessage>>,
      fee: nat, preimage: string)
    requires q in w.t.melts && ListsRows(ps, RowsOf(w.t.proofs, q))
      && (change == w.t.change || change == w.t.change - {q})
    requires w' == w.(
      t := w.t.(sigs := w'.t.sigs, change := change, proofs := SetState(w.t.proofs, Ys(ps), ProofSpent),
                melts := w.t.melts[q := PaidQuote(w.t.melts[q], fee, preimage)]),
      melting := w.melting - {q}, log := w'.log)
    ensures OnlyQuote(w, w', q) && View(w', q) == SettledView(View(w, q), ChangeOf(change, q), fee, preimage)
    ensures Ys(ps) == View(w, q).rows.Keys
  {
    RowsOfSetState(w.t.proofs, q, ProofSpent);
    hide SetState, RowsOf, RowsOutside;
    assert Ys(ps) == RowMap(ps).Keys;
  }

  lemma SettledLog(w: World, w': World, q: QuoteId)
    requires LogOk(w) && OnlyQuote(w, w', q) && w'.t.mints == w.t.mints
    requires w'.log == w.log + [SpentByMelt(q, View(w, q).rows.Keys)]
    requires SpentRows(View(w, q).rows) == {} && SpentRows(View(w', q).rows) == View(w, q).rows.Keys
    ensures LogOk(w')
  {
    hide LogOk;
    SpentRowsSplit(w.t.proofs, q);
    SpentRowsSplit(w'.t.proofs, q);
    LogGrows(w, w', SpentByMelt(q, View(w, q).rows.Keys));
  }

  lemma ChangeHasUnit(ks: Keysets, overpaid: nat, outputs: seq<BlindedMessage>, unit: Unit)
    requires MessagesAreOf(ks, outputs, unit)
    ensures forall i | 0 <= i < |SigsFor(ChangeMessages(overpaid, outputs))| ::
      HasUnit(ks, SigsFor(ChangeMessages(overpaid, outputs))[i].id, unit)
  {
  }

  lemma SigsStored(w: World, w': World, sigs: seq<RecoverSig>, unit: Unit)
    requires TablesOk(w) && CanInsertSigs(w.t.sigs, sigs) && w'.t.sigs == w.t.sigs + SigMap(sigs)
    requires forall i | 0 <= i < |sigs| :: HasUnit(w.ks, sigs[i].id, unit)
    ensures forall b | b in w'.t.sigs :: w'.t.sigs[b].b == b && w'.t.sigs[b].id in w.ks
  {
  }

  lemma PaidConserved(w: World, w': World, q: QuoteId, sigs: seq<RecoverSig>, signed: nat, u: Unit)
    requires Conserved(w, u) && OnlyQuote(w, w', q) && w'.t.mints == w.t.mints
    requires MeltOk(w.ks, View(w, q)) && MeltOk(w.ks, View(w', q))
    requires CanInsertSigs(w.t.sigs, sigs) && w'.t.sigs == w.t.sigs + SigMap(sigs)
    requires forall i | 0 <= i < |sigs| :: HasUnit(w.ks, sigs[i].id, w.t.melts[q].unit)
    requires SumOf(SigAmount(), sigs) <= signed && Balanced(w, w', q, signed)
    ensures Conserved(w', u)
  {
    MeltOkCountsTogether(w, q);
    MeltOkCountsTogether(w', q);
    SignedAdds(w, w', sigs, u, w.t.melts[q].unit);
    MintsSameSums(w, w', u);
    hide Conserved, OnlyQuote, CountedTogether, Total, View, Signed, Owed, Unclaimed, Received, MeltOk, Claims,
      ConsumedBy, CanInsertSigs, SigMap, SumOf, HasUnit;
    MeltConserves(w, w', q, u, signed, 0);
  }

  ghost predicate SettleStep(
      w: World, w': World, q: QuoteId, ps: seq<Proof>, outputs: seq<BlindedMessage>, fee: nat, preimage: string)
    requires q in w.t.melts
  {
    var r := FinalizeMelt(w.ks, w.t, q, ps, outputs, fee, preimage);
    r.Ok? && w' == w.(t := r.value, melting := w.melting - {q}, log := w.log + [SpentByMelt(q, Ys(ps))])
  }

  /** The shape of the world after the settling block, and the signatures it stored. */
  lemma SettledShape(
      w: World, w': World, q: QuoteId, ps: seq<Proof>, outputs: seq<BlindedMessage>, fee: nat, preimage: string)
    requires q in w.t.melts && MeltOk(w.ks, View(w, q)) && ReadyToSettle(View(w, q), fee, preimage)
    requires ListsRows(ps, View(w, q).rows) && MessagesAreOf(w.ks, outputs, w.t.melts[q].unit)
    requires SettleStep(w, w', q, ps, outputs, fee, preimage)
    ensures Covers(w.ks, ps, w.t.melts[q].amount, fee) && q in w'.t.melts
    ensures var v, sigs := View(w, q), SigsFor(ChangeFor(w.ks, w.t, q, ps, outputs, fee));
      && OnlyQuote(w, w', q) && w'.t.mints == w.t.mints && w'.log == w.log + [SpentByMelt(q, v.rows.Keys)]
      && View(w', q) == SettledView(v, View(w', q).change, fee, preimage)
      && (View(w', q).change == v.change || View(w', q).change == [])
      && CanInsertSigs(w.t.sigs, sigs) && w'.t.sigs == w.t.sigs + SigMap(sigs)
      && (forall i | 0 <= i < |sigs| :: HasUnit(w.ks, sigs[i].id, w.t.melts[q].unit))
      && w.t.melts[q].amount + fee + SumOf(SigAmount(), sigs) <= Held(AmountOf(), v.rows)
  {
    var v := View(w, q);
    ReadyCovers(w.ks, v, ps, fee, preimage);
    FinalizedTables(w.ks, w.t, q, ps, outputs, fee, preimage);
    var overpaid := Overpaid(w.ks, ps, w.t.melts[q].amount, fee);
    ChangeSigsSum(overpaid, outputs);
    ChangeHasUnit(w.ks, overpaid, outputs, w.t.melts[q].unit);
    hide FinalizeMelt, MeltOk, ReadyToSettle, FeeOf, SumOf, Held, HasUnit, ChangeMessages, SigsFor, CanInsertSigs,
      SigMap, MessagesAreOf;
    SettledWorld(w, w', q, ps, w'.t.change, fee, preimage);
  }

  lemma SettleKeeps(
      w: World, w': World, q: QuoteId, ps: seq<Proof>, outputs: seq<BlindedMessage>, fee: nat, preimage: string)
    requires Inv(w) && q in w.t.melts && ReadyToSettle(View(w, q), fee, preimage)
    requires ListsRows(ps, View(w, q).rows) && MessagesAreOf(w.ks, outputs, w.t.melts[q].unit)
    requires SettleStep(w, w', q, ps, outputs, fee, preimage)
    ensures Inv(w')
  {
    hide TablesOk, MeltsOk, SwapsOk, MintsOk, LogOk, Conserved, View, MeltOk, SettleStep, ReadyToSettle, SpentRows,
      Held, SumOf, CanInsertSigs, SigMap, HasUnit, OnlyQuote, ListsRows, MessagesAreOf, Claims, ConsumedBy, Covers;
    MeltOkIn(w, q);
    SettledShape(w, w', q, ps, outputs, fee, preimage);
    var v, sigs := View(w, q), SigsFor(ChangeFor(w.ks, w.t, q, ps, outputs, fee));
    SettledOk(w.ks, v, View(w', q).change, fee, preimage);
    var signed := SumOf(SigAmount(), sigs);
    SettledBalance(v, View(w', q).change, fee, preimage, signed);
    SettledRest(w, w', q, sigs);
    SettledStaysInternal(w, w', q);
    MeltsKept(w, w', q);
    SwapsKept(w, w', q);
    MintsKept(w, w', q);
    SettledLog(w, w', q);
    forall u ensures Conserved(w', u) {
      PaidConserved(w, w', q, sigs, signed, u);
    }
  }

  lemma MeltOkIn(w: World, q: QuoteId)
    requires MeltsOk(w) && q in w.t.melts
    ensures MeltOk(w.ks, View(w, q)) && View(w, q).quote == w.t.melts[q]
  {
  }

  lemma SettledRest(w: World, w': World, q: QuoteId, sigs: seq<RecoverSig>)
    requires TablesOk(w) && OnlyQuote(w, w', q) && MeltOk(w.ks, View(w', q))
    requires CanInsertSigs(w.t.sigs, sigs) && w'.t.sigs == w.t.sigs + SigMap(sigs)
    requires forall i | 0 <= i < |sigs| :: HasUnit(w.ks, sigs[i].id, w.t.melts[q].unit)
    ensures TablesOk(w')
  {
    SigsStored(w, w', sigs, w.t.melts[q].unit);
    TablesKept(w, w', q);
  }

  lemma SettledStaysInternal(w: World, w': World, q: QuoteId)
    requires MintsOk(w) && OnlyQuote(w, w', q)
    requires View(w', q).attempt == View(w, q).attempt && View(w', q).quote.state == PAID
    ensures StaysInternal(w, w', q)
  {
  }

  // ----- the two events -----

  lemma LastBlockDropped(w: World, q: QuoteId, r: Result<Tables, MintError>, ys: set<Point>, c: Commit)
    requires Inv(w) && (r.Err? || c == NotApplied)
    ensures Inv(LastMeltBlock(w, q, r, ys, c))
  {
    hide Inv;
    DropPhase(w, q);
  }

  lemma FinalizeKeeps(w: World, q: QuoteId, c: Commit)
    requires Inv(w)
    ensures Inv(StepFinalize(w, q, c))
  {
    hide Inv, MeltOk, View, FinalizeMelt, ListsRows, Ys;
    if q in w.melting && w.melting[q].Confirmed? {
      var p := w.melting[q];
      PhaseKnown(w, q);
      var r := FinalizeMelt(w.ks, w.t, q, p.inputs, p.outputs, p.fee, p.preimage);
      if r.Err? || c == NotApplied {
        LastBlockDropped(w, q, r, Ys(p.inputs), c);
      } else {
        ConfirmedIsReady(w.ks, View(w, q));
        SettleKeeps(w, StepFinalize(w, q, c), q, p.inputs, p.outputs, p.fee, p.preimage);
      }
    }
  }

  lemma ConfirmedIsReady(ks: Keysets, v: MeltView)
    requires MeltOk(ks, v) && v.phase.Some? && v.phase.value.Confirmed?
    ensures ReadyToSettle(v, v.phase.value.fee, v.phase.value.preimage) && ListsRows(v.phase.value.inputs, v.rows)
    ensures MessagesAreOf(ks, v.phase.value.outputs, v.quote.unit)
  {
    hide Held, HeldFee, ListsRows;
    var outputs := v.phase.value.outputs;
    assert v.change == Unvalued(outputs);
    forall i | 0 <= i < |outputs| ensures outputs[i].id in ks && ks[outputs[i].id].unit == v.quote.unit {
      assert v.change[i].id == outputs[i].id;
    }
  }

  lemma RefreshSettledKeeps(w: World, q: QuoteId, fee: nat, preimage: string, msgs: seq<BlindedMessage>, c: Commit)
    requires Inv(w) && q in w.ln && w.ln[q] == Settled(fee, preimage)
    requires multiset(msgs) == multiset(ChangeOf(w.t.change, q))
    ensures Inv(StepRefreshSettled(w, q, fee, preimage, msgs, c))
  {
    hide Inv, MeltOk, View, FinalizeMelt, RecoverMelt, ListsRows, Ys, ReadyToSettle, Covers;
    if q in w.melting && w.melting[q].Refreshing? {
      var rows := w.melting[q].rows;
      PhaseKnown(w, q);
      var r := RecoverMelt(w.ks, w.t, q, rows, msgs, fee, preimage);
      if r.Err? || c == NotApplied {
        LastBlockDropped(w, q, r, Ys(rows), c);
      } else {
        RefreshIsReady(w, q, rows, fee, preimage, msgs);
        ReadyCovers(w.ks, View(w, q), rows, fee, preimage);
        RowsDistinct(rows, View(w, q).rows);
        RecoveryAgrees(w.ks, w.t, q, rows, msgs, rows, msgs, fee, preimage);
        SettleKeeps(w, StepRefreshSettled(w, q, fee, preimage, msgs, c), q, rows, msgs, fee, preimage);
      }
    }
  }

  lemma RowsDistinct(rows: seq<Proof>, m: ProofTable)
    requires ListsRows(rows, m)
    ensures DistinctYs(rows)
  {
  }

  lemma RefreshIsReady(w: World, q: QuoteId, rows: seq<Proof>, fee: nat, preimage: string, msgs: seq<BlindedMessage>)
    requires q in w.t.melts && MeltOk(w.ks, View(w, q)) && View(w, q).phase == Some(Refreshing(rows))
    requires View(w, q).attempt == Some(Settled(fee, preimage)) && multiset(msgs) == multiset(ChangeOf(w.t.change, q))
    ensures ReadyToSettle(View(w, q), fee, preimage) && ListsRows(rows, View(w, q).rows)
    ensures MessagesAreOf(w.ks, msgs, w.t.melts[q].unit)
  {
    hide Held, HeldFee, ListsRows;
    var saved := View(w, q).change;
    forall i | 0 <= i < |msgs| ensures msgs[i] in saved {
      assert msgs[i] in multiset(msgs);
    }
  }
}
