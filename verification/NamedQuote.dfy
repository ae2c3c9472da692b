/**
 * The quote field of a swap's inputs. A client sends it, ExecuteSwap saves it unchecked, and the refresh of a melt
 * quote selects its rows by it (internal/mint/swapping.go, internal/database/postgresql/main.go): when that is
 * harmless, and what breaks when it is not.
 */
module NamedQuote {
  import opened Prelude
  import opened Totals
  import opened Cashu
  import opened Store
  import opened Fees
  import opened Transactions
  import opened Exact
  import opened World
  import opened Invariant
  import opened MeltSteps
  import opened Ledger
  import opened Theorems

  /** What the theorems about value, spending and melt quotes say of one state. */
  ghost predicate LedgerHolds(w: World)
  {
    && (forall u :: ValueKept(w, u))
    && (forall y :: SpentMeansConsumed(w, y))
    && (forall i, j | 0 <= i < j < |w.log| :: EntryYs(w.log[i]) !! EntryYs(w.log[j]))
    && forall q | q in w.t.melts :: Lifecycle(w, q)
  }

  lemma HoldsOf(w: World)
    requires Inv(w)
    ensures LedgerHolds(w)
  {
    hide Inv, ValueKept, SpentMeansConsumed, EntryYs, Lifecycle;
    forall u ensures ValueKept(w, u) {
      ValueKeptOf(w, u);
    }
    forall y ensures SpentMeansConsumed(w, y) {
      SpentMeansConsumedOf(w, y);
    }
    forall i, j | 0 <= i < j < |w.log| ensures EntryYs(w.log[i]) !! EntryYs(w.log[j]) {
      LoggedOnceOf(w, i, j);
    }
    forall q | q in w.t.melts ensures Lifecycle(w, q) {
      LifecycleOf(w, q);
    }
  }

  // ----- the tables of such a swap -----

  ghost function Saved(w: World, s: nat, inputs: seq<Proof>, outputs: seq<BlindedMessage>): World
    requires ReserveSwap(w.t, inputs, outputs).Ok?
  {
    w.(t := ReserveSwap(w.t, inputs, outputs).value,
      swapping := w.swapping[s := SwapReserved(AsPending(inputs), outputs)])
  }

  lemma SavedStep(w: World, s: nat, inputs: seq<Proof>, outputs: seq<BlindedMessage>, verified: bool)
    requires SavesInputs(w, inputs, outputs, verified, Committed)
    ensures Step(w, SwapReserve(s, inputs, outputs, verified, Committed)) == Saved(w, s, inputs, outputs)
  {
    hide ReserveSwap, ValidateSwap;
  }

  /** The new row counts as one of the quote's, and the quote's own rows are still there. */
  lemma NamedRow(t: Tables, inputs: seq<Proof>, outputs: seq<BlindedMessage>, i: nat, q: QuoteId)
    requires ReserveSwap(t, inputs, outputs).Ok? && i < |inputs| && inputs[i].quote == Some(q)
    ensures var t', y := ReserveSwap(t, inputs, outputs).value, inputs[i].y;
      && t'.melts == t.melts && y in RowsOf(t'.proofs, q) && RowsOf(t'.proofs, q)[y].state == ProofPending
      && forall z | z in RowsOf(t.proofs, q) ::
           z in RowsOf(t'.proofs, q) && RowsOf(t'.proofs, q)[z] == RowsOf(t.proofs, q)[z] && z !in Ys(AsPending(inputs))
    ensures inputs[i].y in Ys(AsPending(inputs))
  {
    var ps := AsPending(inputs);
    var m' := ReserveSwap(t, inputs, outputs).value.proofs;
    hide CheckUnspent, CheckOutputs;
    assert CanInsert(t.proofs, ps) && m' == t.proofs + RowMap(ps);
    assert ps[i].y == inputs[i].y && m'[ps[i].y] == ps[i] && ps[i].y in RowsOf(m', q);
  }

  /** Reserving a swap leaves a melt quote's rows alone exactly when no input names that quote. */
  lemma SwapLeavesQuoteAloneIff(t: Tables, inputs: seq<Proof>, outputs: seq<BlindedMessage>, q: QuoteId)
    requires ReserveSwap(t, inputs, outputs).Ok?
    ensures RowsOf(ReserveSwap(t, inputs, outputs).value.proofs, q) == RowsOf(t.proofs, q)
       <==> forall i | 0 <= i < |inputs| :: inputs[i].quote != Some(q)
  {
    var ps := AsPending(inputs);
    var m' := ReserveSwap(t, inputs, outputs).value.proofs;
    hide CheckUnspent, CheckOutputs;
    assert CanInsert(t.proofs, ps) && m' == t.proofs + RowMap(ps);
    if forall i | 0 <= i < |inputs| :: inputs[i].quote != Some(q) {
      RowsOfInsertElsewhere(t.proofs, ps, q);
    } else {
      var i :| 0 <= i < |inputs| && inputs[i].quote == Some(q);
      assert m'[ps[i].y] == ps[i];
      assert ps[i].y in RowsOf(m', q) && ps[i].y !in RowsOf(t.proofs, q);
    }
  }

  const LANDS := SwapOutcome(false, false, false, Committed, false, false)

  ghost function Landed(w: World, s: nat, inputs: seq<Proof>, outputs: seq<BlindedMessage>): Tables
    requires ReserveSwap(w.t, inputs, outputs).Ok? && CanInsertSigs(w.t.sigs, SigsFor(outputs))
  {
    var t := ReserveSwap(w.t, inputs, outputs).value;
    t.(proofs := SetState(t.proofs, Ys(AsPending(inputs)), ProofSpent), sigs := t.sigs + SigMap(SigsFor(outputs)))
  }

  lemma FreshOutputs(t: Tables, inputs: seq<Proof>, outputs: seq<BlindedMessage>)
    requires ReserveSwap(t, inputs, outputs).Ok?
    ensures CanInsertSigs(t.sigs, SigsFor(outputs)) && ReserveSwap(t, inputs, outputs).value.sigs == t.sigs
  {
  }

  lemma LandedStep(w: World, s: nat, inputs: seq<Proof>, outputs: seq<BlindedMessage>)
    requires ReserveSwap(w.t, inputs, outputs).Ok? && CanSign(w.ks, outputs)
    requires CanInsertSigs(w.t.sigs, SigsFor(outputs))
    requires ReserveSwap(w.t, inputs, outputs).value.sigs == w.t.sigs
    ensures var w', more := Saved(w, s, inputs, outputs), [SwapSettle(s, LANDS)];
      AssumedRun(w', more) && SwapsNameNoQuote(w', more) && Run(w', more).t == Landed(w, s, inputs, outputs)
  {
    hide ReserveSwap, CanSign, CanInsertSigs, SigMap, SigsFor, Ys, AsPending;
    var w', more := Saved(w, s, inputs, outputs), [SwapSettle(s, LANDS)];
    assert more[..0] == [] && Run(w', []) == w';
    assert Step(w', more[0]) == StepSwapSettle(w', s, LANDS);
  }

  lemma LandedRow(t: Tables, ys: set<Point>, q: QuoteId, y: Point)
    requires y in RowsOf(t.proofs, q)
    ensures y in RowsOf(SetState(t.proofs, ys, ProofSpent), q)
    ensures RowsOf(SetState(t.proofs, ys, ProofSpent), q)[y].state == if y in ys then ProofSpent
      else RowsOf(t.proofs, q)[y].state
  {
  }

  ghost predicate Mixed(rows: ProofTable, y: Point, z: Point)
  {
    y in rows && z in rows && {rows[y].state, rows[z].state} == {ProofPending, ProofSpent}
  }

  /** A row of an UNPAID quote, a SPENT one of a PENDING quote, or a mixture, is no state of a melt quote. */
  lemma BrokenBy(w: World, q: QuoteId, y: Point, z: Option<Point>)
    requires q in w.t.melts && y in RowsOf(w.t.proofs, q)
    requires
      || w.t.melts[q].state == UNPAID
      || (w.t.melts[q].state == PENDING && RowsOf(w.t.proofs, q)[y].state == ProofSpent)
      || (z.Some? && Mixed(RowsOf(w.t.proofs, q), y, z.value))
    ensures !Lifecycle(w, q)
  {
    hide RowsOf;
  }

  // ----- exactly when the ledger survives -----

  /** Naming a quote that nobody has paid, or one whose inputs are spent, breaks its state at once. */
  lemma BreaksAtOnce(w: World, s: nat, inputs: seq<Proof>, outputs: seq<BlindedMessage>, i: nat, q: QuoteId)
    requires Inv(w) && ReserveSwap(w.t, inputs, outputs).Ok? && i < |inputs| && inputs[i].quote == Some(q)
    requires q in w.t.melts
    requires w.t.melts[q].state == UNPAID || (w.t.melts[q].state == PAID && AllIn(RowsOf(w.t.proofs, q), ProofSpent))
    ensures q in Saved(w, s, inputs, outputs).t.melts && !Lifecycle(Saved(w, s, inputs, outputs), q)
  {
    hide Inv, ReserveSwap, RowsOf, AsPending, Lifecycle;
    LifecycleOf(w, q);
    NamedRow(w.t, inputs, outputs, i, q);
    var w' := Saved(w, s, inputs, outputs);
    if w.t.melts[q].state == UNPAID {
      BrokenBy(w', q, inputs[i].y, None);
    } else {
      var z := SomeRow(w, q);
      BrokenBy(w', q, inputs[i].y, Some(z));
    }
  }

  lemma SomeRow(w: World, q: QuoteId) returns (z: Point)
    requires q in w.t.melts && Lifecycle(w, q) && w.t.melts[q].state != UNPAID
    ensures z in RowsOf(w.t.proofs, q)
  {
    hide RowsOf, AllIn;
    z :| z in RowsOf(w.t.proofs, q);
  }

  /** Naming one whose inputs are PENDING breaks it as soon as the swap lands. */
  lemma BreaksOnLanding(w: World, s: nat, inputs: seq<Proof>, outputs: seq<BlindedMessage>, i: nat, q: QuoteId)
    requires Inv(w) && ReserveSwap(w.t, inputs, outputs).Ok? && i < |inputs| && inputs[i].quote == Some(q)
    requires q in w.t.melts
    requires w.t.melts[q].state != UNPAID && AllIn(RowsOf(w.t.proofs, q), ProofPending) && CanSign(w.ks, outputs)
    ensures var w', more := Saved(w, s, inputs, outputs), [SwapSettle(s, LANDS)];
      AssumedRun(w', more) && SwapsNameNoQuote(w', more) && q in Run(w', more).t.melts && !Lifecycle(Run(w', more), q)
  {
    hide Inv, ReserveSwap, RowsOf, AsPending, CanSign, CanInsertSigs, SigMap, SigsFor, SetState, Ys, AssumedRun, Run,
      SwapsNameNoQuote;
    LifecycleOf(w, q);
    NamedRow(w.t, inputs, outputs, i, q);
    FreshOutputs(w.t, inputs, outputs);
    LandedStep(w, s, inputs, outputs);
    var z := SomeRow(w, q);
    var y, ys := inputs[i].y, Ys(AsPending(inputs));
    var t' := ReserveSwap(w.t, inputs, outputs).value;
    LandedRow(t', ys, q, y);
    LandedRow(t', ys, q, z);
    assert RowsOf(w.t.proofs, q)[z].state == ProofPending;
    hide Lifecycle;
    BrokenBy(Run(Saved(w, s, inputs, outputs), [SwapSettle(s, LANDS)]), q, y, Some(z));
  }

  lemma NamingBreaks(w: World, s: nat, inputs: seq<Proof>, outputs: seq<BlindedMessage>)
    returns (more: seq<Event>)
    requires Inv(w) && ReserveSwap(w.t, inputs, outputs).Ok? && CanSign(w.ks, outputs) && !NamesNoMeltQuote(w.t, inputs)
    ensures var w' := Saved(w, s, inputs, outputs);
      AssumedRun(w', more) && SwapsNameNoQuote(w', more) && !LedgerHolds(Run(w', more))
  {
    hide Inv, ReserveSwap, CanSign, Lifecycle, Run, AssumedRun, SwapsNameNoQuote, ValueKept, SpentMeansConsumed,
      EntryYs, RowsOf, AllIn, Saved;
    var i :| 0 <= i < |inputs| && inputs[i].quote.Some? && inputs[i].quote.value in w.t.melts;
    var q := inputs[i].quote.value;
    LifecycleStates(w, q);
    if w.t.melts[q].state == UNPAID || (w.t.melts[q].state == PAID && AllIn(RowsOf(w.t.proofs, q), ProofSpent)) {
      BreaksAtOnce(w, s, inputs, outputs, i, q);
      more := [];
      NoEvents(Saved(w, s, inputs, outputs));
    } else {
      BreaksOnLanding(w, s, inputs, outputs, i, q);
      more := [SwapSettle(s, LANDS)];
    }
  }

  lemma NoEvents(w: World)
    ensures Run(w, []) == w && AssumedRun(w, []) && SwapsNameNoQuote(w, [])
  {
  }

  lemma LifecycleStates(w: World, q: QuoteId)
    requires Inv(w) && q in w.t.melts
    ensures || w.t.melts[q].state == UNPAID
            || (w.t.melts[q].state == PAID && AllIn(RowsOf(w.t.proofs, q), ProofSpent))
            || (w.t.melts[q].state != UNPAID && AllIn(RowsOf(w.t.proofs, q), ProofPending))
  {
    hide Inv, RowsOf, AllIn;
    LifecycleOf(w, q);
  }

  /**
   * The ledger survives an accepted swap, whatever happens next, exactly when none of the swap's inputs names a melt
   * quote: value is kept, SPENT means consumed, nothing is spent twice, and every melt quote's proofs are in its state.
   */
  lemma LedgerSurvivesIff(
      w: World, ks: Keysets, es: seq<Event>, s: nat, inputs: seq<Proof>, outputs: seq<BlindedMessage>, verified: bool)
    requires Reached(w, ks, es) && SwapsNameNoQuote(Start(ks), es)
    requires s !in w.swapping && |inputs| < REQUEST_LIMIT && |outputs| < REQUEST_LIMIT
    requires SavesInputs(w, inputs, outputs, verified, Committed) && CanSign(w.ks, outputs)
    ensures var w' := Step(w, SwapReserve(s, inputs, outputs, verified, Committed));
      (forall more | AssumedRun(w', more) && SwapsNameNoQuote(w', more) :: LedgerHolds(Run(w', more)))
      <==> NamesNoMeltQuote(w.t, inputs)
  {
    hide Inv, Reached, ReserveSwap, ValidateSwap, CanSign, Run, AssumedRun, SwapsNameNoQuote, LedgerHolds,
      NamesNoMeltQuote, Step;
    ReachedInv(w, ks, es);
    SavedStep(w, s, inputs, outputs, verified);
    var w' := Saved(w, s, inputs, outputs);
    hide Saved;
    if NamesNoMeltQuote(w.t, inputs) {
      StepKeepsInv(w, SwapReserve(s, inputs, outputs, verified, Committed));
      forall more | AssumedRun(w', more) && SwapsNameNoQuote(w', more) ensures LedgerHolds(Run(w', more)) {
        RunKeepsInv(w', more);
        HoldsOf(Run(w', more));
      }
    } else {
      var _ := NamingBreaks(w, s, inputs, outputs);
    }
  }
}
