/** Every step of a melt request or of the lightning network keeps the invariant (internal/mint/melting.go). */
module MeltSteps {
  import opened Prelude
  import opened Totals
  import opened Cashu
  import opened Store
  import opened Fees
  import opened Transactions
  import opened World
  import opened Invariant
  import opened Frames
  import opened Steps

  // ----- steps that leave the tables alone -----

  lemma SameTables(w: World, w': World, q: QuoteId)
    requires q in w.t.melts && w' == w.(ln := w'.ln, melting := w'.melting)
    requires w'.ln - {q} == w.ln - {q} && w'.melting - {q} == w.melting - {q}
    ensures OnlyQuote(w, w', q)
    ensures View(w', q) == View(w, q).(attempt := Lookup(w'.ln, q), phase := Lookup(w'.melting, q))
  {
  }

  /** The world moved the quote's phase, and its attempt only while the quote is pending. */
  lemma PhaseStep(w: World, w': World, q: QuoteId)
    requires Inv(w) && q in w.t.melts && w' == w.(ln := w'.ln, melting := w'.melting)
    requires w'.ln - {q} == w.ln - {q} && w'.melting - {q} == w.melting - {q}
    requires w.t.melts[q].state == PENDING || Lookup(w'.ln, q) == Lookup(w.ln, q)
    requires MeltOk(w.ks, View(w', q)) && Balanced(w, w', q, 0)
    ensures Inv(w')
  {
    SameTables(w, w', q);
    NotInternal(w, q);
    assert StaysInternal(w, w', q);
    hide Inv, OnlyQuote, MeltOk, Balanced, StaysInternal;
    QuietMeltStep(w, w', q);
  }

  lemma NotInternal(w: World, q: QuoteId)
    requires MintsOk(w) && q in w.t.melts
    ensures w.t.melts[q].state == PENDING || q in w.ln ==>
      forall m | m in w.t.mints :: w.t.mints[m].request != w.t.melts[q].request
  {
  }

  lemma AttemptBalanced(ks: Keysets, v: MeltView, attempt: Option<Attempt>, phase: Option<MeltPhase>)
    requires MeltOk(ks, v) && v.quote.state == PENDING
    requires (v.attempt.Some? && v.attempt.value.Settled?) ==> attempt == v.attempt
    requires attempt.Some? && attempt.value.Settled? ==> attempt.value.fee <= v.quote.feeReserve
    ensures var v' := v.(attempt := attempt, phase := phase);
      Claims(v') + ConsumedBy(v) <= Claims(v) + ConsumedBy(v')
  {
  }

  lemma MeltOkOf(w: World, q: QuoteId)
    requires Inv(w) && q in w.t.melts
    ensures MeltOk(w.ks, View(w, q)) && MintsOk(w)
    ensures View(w, q).quote == w.t.melts[q] && View(w, q).rows == RowsOf(w.t.proofs, q)
    ensures View(w, q).attempt == Lookup(w.ln, q) && View(w, q).phase == Lookup(w.melting, q)
  {
  }

  /** A step of the request itself: the attempt stays or starts, the phase moves on. */
  lemma PendingPhaseStep(w: World, w': World, q: QuoteId)
    requires Inv(w) && q in w.t.melts && w' == w.(ln := w'.ln, melting := w'.melting)
    requires w'.ln - {q} == w.ln - {q} && w'.melting - {q} == w.melting - {q}
    requires w.t.melts[q].state == PENDING
    requires MeltOk(w.ks, View(w', q))
    requires View(w, q).attempt.Some? && View(w, q).attempt.value.Settled? ==> Lookup(w'.ln, q) == Lookup(w.ln, q)
    ensures Inv(w')
  {
    SameTables(w, w', q);
    MeltOkOf(w, q);
    assert View(w', q).quote == View(w, q).quote;
    assert PendingOk(w.ks, View(w', q));
    hide Inv, OnlyQuote, MeltOk, Matches;
    AttemptBalanced(w.ks, View(w, q), Lookup(w'.ln, q), Lookup(w'.melting, q));
    PhaseStep(w, w', q);
  }

  lemma DropPhaseOk(ks: Keysets, v: MeltView)
    requires MeltOk(ks, v)
    ensures var v' := v.(phase := None);
      MeltOk(ks, v') && Claims(v') == Claims(v) && ConsumedBy(v') == ConsumedBy(v)
  {
  }

  lemma DropPhase(w: World, q: QuoteId)
    requires Inv(w)
    ensures Inv(w.(melting := w.melting - {q}))
  {
    hide Inv, MeltOk, View, Claims, ConsumedBy;
    if q in w.melting {
      var w' := w.(melting := w.melting - {q});
      PhaseKnown(w, q);
      SameTables(w, w', q);
      DropPhaseOk(w.ks, View(w, q));
      PhaseStep(w, w', q);
    } else {
      assert w.melting - {q} == w.melting;
    }
  }

  lemma PayInvoiceKeeps(w: World, q: QuoteId, attempt: Attempt)
    requires Inv(w) && FeeFits(w, q, attempt)
    ensures Inv(StepPayInvoice(w, q, attempt))
  {
    hide Inv, MeltOk, View, Balanced, Claims, ConsumedBy, ListsRows;
    if q in w.melting && w.melting[q].Reserved? {
      var w' := StepPayInvoice(w, q, attempt);
      PhaseKnown(w, q);
      SameTables(w, w', q);
      PayInvoiceOk(w.ks, View(w, q), attempt);
      PendingPhaseStep(w, w', q);
    }
  }

  lemma PhaseKnown(w: World, q: QuoteId)
    requires Inv(w) && q in w.melting
    ensures q in w.t.melts && MeltOk(w.ks, View(w, q)) && View(w, q).phase == Some(w.melting[q])
    ensures View(w, q).quote == w.t.melts[q] && View(w, q).attempt == Lookup(w.ln, q)
  {
  }

  lemma PayInvoiceOk(ks: Keysets, v: MeltView, attempt: Attempt)
    requires MeltOk(ks, v) && v.phase.Some? && v.phase.value.Reserved?
    requires attempt.Settled? ==> attempt.fee <= v.quote.feeReserve
    ensures v.quote.state == PENDING && !Live(v.attempt)
    ensures MeltOk(ks, v.(attempt := Some(attempt), phase := Some(Sent(v.phase.value.inputs, v.phase.value.outputs))))
  {
  }

  lemma PayConfirmedKeeps(w: World, q: QuoteId, fee: nat, preimage: string)
    requires Inv(w) && q in w.ln && w.ln[q] == Settled(fee, preimage)
    ensures Inv(StepPayConfirmed(w, q, fee, preimage))
  {
    hide Inv, MeltOk, View, Balanced, Claims, ConsumedBy, ListsRows;
    if q in w.melting && w.melting[q].Sent? {
      var w' := StepPayConfirmed(w, q, fee, preimage);
      PhaseKnown(w, q);
      SameTables(w, w', q);
      SentOk(w.ks, View(w, q), Confirmed(w.melting[q].inputs, w.melting[q].outputs, fee, preimage));
      PendingPhaseStep(w, w', q);
    }
  }

  lemma SentOk(ks: Keysets, v: MeltView, phase: MeltPhase)
    requires MeltOk(ks, v) && v.phase.Some? && v.phase.value.Sent?
    requires phase == Doubtful(v.phase.value.inputs, v.phase.value.outputs)
      || (phase.Confirmed? && phase.inputs == v.phase.value.inputs && phase.outputs == v.phase.value.outputs
          && v.attempt == Some(Settled(phase.fee, phase.preimage)))
    ensures v.quote.state == PENDING && MeltOk(ks, v.(phase := Some(phase)))
  {
  }

  lemma LightningProgressKeeps(w: World, q: QuoteId, attempt: Attempt)
    requires Inv(w) && FeeFits(w, q, attempt) && q in w.ln && w.ln[q] == InFlight
    ensures Inv(w.(ln := w.ln[q := attempt]))
  {
    hide Inv, MeltOk, View, Balanced, Claims, ConsumedBy, ListsRows;
    var w' := w.(ln := w.ln[q := attempt]);
    AttemptKnown(w, q);
    SameTables(w, w', q);
    ProgressOk(w.ks, View(w, q), attempt);
    PendingPhaseStep(w, w', q);
  }

  lemma AttemptKnown(w: World, q: QuoteId)
    requires Inv(w) && q in w.ln
    ensures q in w.t.melts && MeltOk(w.ks, View(w, q)) && View(w, q).attempt == Some(w.ln[q])
    ensures View(w, q).quote == w.t.melts[q] && View(w, q).phase == Lookup(w.melting, q)
  {
  }

  lemma ProgressOk(ks: Keysets, v: MeltView, attempt: Attempt)
    requires MeltOk(ks, v) && v.attempt == Some(InFlight)
    requires attempt.Settled? ==> attempt.fee <= v.quote.feeReserve
    ensures v.quote.state == PENDING && MeltOk(ks, v.(attempt := Some(attempt)))
  {
  }

  lemma RefreshReadKeeps(w: World, q: QuoteId, rows: seq<Proof>)
    requires Inv(w) && ListsRows(rows, RowsOf(w.t.proofs, q))
    ensures Inv(StepRefreshRead(w, q, rows))
  {
    hide Inv, MeltOk, View, Balanced, Claims, ConsumedBy, ListsRows;
    if q in w.t.melts && w.t.melts[q].state == PENDING {
      var w' := StepRefreshRead(w, q, rows);
      MeltOkOf(w, q);
      SameTables(w, w', q);
      RefreshOk(w.ks, View(w, q), rows);
      PendingPhaseStep(w, w', q);
    }
  }

  lemma RefreshOk(ks: Keysets, v: MeltView, rows: seq<Proof>)
    requires MeltOk(ks, v) && v.quote.state == PENDING && ListsRows(rows, v.rows)
    ensures MeltOk(ks, v.(phase := Some(Refreshing(rows))))
  {
  }

  lemma CrashKeeps(w: World)
    requires Inv(w)
    ensures Inv(w.(melting := map[], swapping := map[], minting := map[]))
  {
    var w' := w.(melting := map[], swapping := map[], minting := map[]);
    forall q | q in w'.t.melts ensures MeltOk(w'.ks, View(w', q)) && View(w', q) == View(w, q).(phase := None) {
      DropPhaseOk(w.ks, View(w, q));
    }
    CrashMints(w, w');
    hide MeltOk;
    LogKept(w, w');
    CrashConserves(w, w');
  }

  lemma CrashMints(w: World, w': World)
    requires MintsOk(w) && w' == w.(melting := map[], swapping := map[], minting := map[])
    ensures MintsOk(w')
  {
  }

  lemma CrashConserves(w: World, w': World)
    requires forall u :: Conserved(w, u)
    requires w' == w.(melting := map[], swapping := map[], minting := map[])
    ensures forall u :: Conserved(w', u)
  {
    forall u ensures Conserved(w', u) {
      CrashSums(w, w', u);
      hide Total, Consumed, PaidOut, Surpluses, Signed, Owed, Unclaimed, Received;
      assert Conserved(w, u);
    }
  }

  lemma CrashSums(w: World, w': World, u: Unit)
    requires w' == w.(melting := map[], swapping := map[], minting := map[])
    ensures Consumed(w', u) == Consumed(w, u) && PaidOut(w', u) == PaidOut(w, u) && Surpluses(w', u) == Surpluses(w, u)
    ensures Signed(w', u) == Signed(w, u) && Owed(w', u) == Owed(w, u)
    ensures Unclaimed(w', u) == Unclaimed(w, u) && Received(w', u) == Received(w, u)
  {
    hide If, Signed, Owed, Unclaimed, Received, Consumed, PaidOut, Surpluses, View, Settles, Outflow, Surplus;
    forall q | q in w.t.melts ensures SameClaims(w, w', q) {
      CrashClaims(w, w', q);
    }
    SameMintSums(w, w', u);
    ClaimSumsSame(w, w', u);
    ConsumedSame(w, w', u);
  }

  lemma CrashClaims(w: World, w': World, q: QuoteId)
    requires w' == w.(melting := map[], swapping := map[], minting := map[]) && q in w.t.melts
    ensures SameClaims(w, w', q)
  {
  }

  // ----- steps that write the quote's row -----

  lemma QuoteWritten(w: World, w': World, q: QuoteId, quote: MeltQuote)
    requires q in w.t.melts && w' == w.(t := SetMelt(w.t, q, quote), melting := w'.melting)
    requires w'.melting - {q} == w.melting - {q}
    requires quote.unit == w.t.melts[q].unit && quote.request == w.t.melts[q].request
    requires quote.amount == w.t.melts[q].amount
    ensures OnlyQuote(w, w', q)
    ensures View(w', q) == View(w, q).(quote := quote, phase := Lookup(w'.melting, q))
  {
  }

  /** A pending quote stays pending; the step touches neither its money nor its rows. */
  lemma PendingWrite(w: World, w': World, q: QuoteId, quote: MeltQuote)
    requires Inv(w) && q in w.t.melts && w' == w.(t := SetMelt(w.t, q, quote), melting := w'.melting)
    requires w'.melting - {q} == w.melting - {q}
    requires w.t.melts[q].state == PENDING
    requires quote == w.t.melts[q].(checkingId := quote.checkingId, feePaid := quote.feePaid)
    requires MeltOk(w.ks, View(w, q).(phase := Lookup(w'.melting, q)))
    ensures Inv(w')
  {
    hide Inv, MeltOk, View, OnlyQuote;
    QuoteWritten(w, w', q, quote);
    MeltOkOf(w, q);
    NotInternal(w, q);
    WriteOk(w.ks, View(w, q).(phase := Lookup(w'.melting, q)), quote);
    WriteOk(w.ks, View(w, q), quote);
    hide Claims, ConsumedBy, MintsOk;
    QuietMeltStep(w, w', q);
  }

  lemma WriteOk(ks: Keysets, v: MeltView, quote: MeltQuote)
    requires MeltOk(ks, v) && v.quote.state == PENDING
    requires quote == v.quote.(checkingId := quote.checkingId, feePaid := quote.feePaid)
    ensures MeltOk(ks, v.(quote := quote))
    ensures forall phase :: Claims(v.(quote := quote, phase := phase)) == Claims(v)
    ensures forall phase :: ConsumedBy(v.(quote := quote, phase := phase)) == ConsumedBy(v)
  {
    hide Held, HeldFee, Matches;
  }

  lemma PayDoubtedKeeps(w: World, q: QuoteId, checkingId: string, c: Commit)
    requires Inv(w)
    ensures Inv(StepPayDoubted(w, q, checkingId, c))
  {
    hide Inv, MeltOk, View;
    if q in w.melting && w.melting[q].Sent? {
      PhaseKnown(w, q);
      SentOk(w.ks, View(w, q), Doubtful(w.melting[q].inputs, w.melting[q].outputs));
      DropPhaseOk(w.ks, View(w, q));
      if c == NotApplied {
        DropPhase(w, q);
      } else {
        PendingWrite(w, StepPayDoubted(w, q, checkingId, c), q, w.t.melts[q].(checkingId := checkingId));
      }
    }
  }

  lemma Released(w: World, w': World, q: QuoteId, fee: nat)
    requires q in w.t.melts
    requires w' == w.(t := ReleaseMelt(w.t, q, RowsOf(w.t.proofs, q).Keys, fee), melting := w.melting - {q})
    ensures OnlyQuote(w, w', q)
    ensures View(w', q) == MeltView(w.t.melts[q].(state := UNPAID, feePaid := fee), map[], [], Lookup(w.ln, q), None)
  {
  }

  /** Releasing an attempt that can never settle. */
  lemma ReleaseKeeps(w: World, q: QuoteId, fee: nat)
    requires Inv(w) && q in w.t.melts && w.t.melts[q].state == PENDING && !Live(Lookup(w.ln, q))
    ensures Inv(w.(t := ReleaseMelt(w.t, q, RowsOf(w.t.proofs, q).Keys, fee), melting := w.melting - {q}))
  {
    hide Inv, MeltOk, View, OnlyQuote, ReleaseMelt;
    var w' := w.(t := ReleaseMelt(w.t, q, RowsOf(w.t.proofs, q).Keys, fee), melting := w.melting - {q});
    Released(w, w', q, fee);
    MeltOkOf(w, q);
    NotInternal(w, q);
    ReleaseOk(w.ks, View(w, q), View(w', q));
    ReleaseElsewhere(w, q, fee);
    hide Claims, ConsumedBy, MintsOk, SpentRows;
    QuietMeltStep(w, w', q);
  }

  lemma ReleaseElsewhere(w: World, q: QuoteId, fee: nat)
    requires q in w.t.melts
    ensures var t := ReleaseMelt(w.t, q, RowsOf(w.t.proofs, q).Keys, fee); t.mints == w.t.mints && t.sigs == w.t.sigs
  {
  }

  lemma ReleaseOk(ks: Keysets, v: MeltView, v': MeltView)
    requires MeltOk(ks, v) && v.quote.state == PENDING && !Live(v.attempt)
    requires v' == MeltView(v.quote.(state := UNPAID, feePaid := v'.quote.feePaid), map[], [], v.attempt, None)
    ensures MeltOk(ks, v') && SpentRows(v'.rows) == SpentRows(v.rows)
    ensures Claims(v') + ConsumedBy(v) <= Claims(v) + ConsumedBy(v')
  {
  }

  lemma PhaseRows(w: World, q: QuoteId)
    requires Inv(w) && q in w.melting && !w.melting[q].Confirmed?
    ensures q in w.t.melts && w.t.melts[q].state == PENDING
    ensures var ps := if w.melting[q].Refreshing? then w.melting[q].rows else w.melting[q].inputs;
      DistinctYs(ps) && RowMap(ps) == RowsOf(w.t.proofs, q) && Ys(ps) == RowsOf(w.t.proofs, q).Keys
  {
    hide Inv, RowsOk, Funded, AllIn, View;
    PhaseKnown(w, q);
    MeltOkOf(w, q);
  }

  lemma RecheckKeeps(w: World, q: QuoteId, status: PaymentStatus, fee: nat, c: Commit)
    requires Inv(w) && (status == FAILED || status == UNKNOWN ==> q in w.ln && w.ln[q] == Dead)
    ensures Inv(StepRecheck(w, q, status, fee, c))
  {
    hide Inv, MeltOk, View, Ys, RowsOf, ReleaseMelt;
    if q in w.melting && w.melting[q].Doubtful? {
      PhaseKnown(w, q);
      PhaseRows(w, q);
      DropPhaseOk(w.ks, View(w, q));
      if c == NotApplied {
        DropPhase(w, q);
      } else if status == SETTLED || status == WAITING {
        PendingWrite(w, StepRecheck(w, q, status, fee, c), q, w.t.melts[q].(feePaid := fee));
      } else {
        ReleaseKeeps(w, q, fee);
      }
    }
  }

  lemma RefreshFailedKeeps(w: World, q: QuoteId, c: Commit)
    requires Inv(w) && (q in w.ln ==> w.ln[q] == Dead)
    ensures Inv(StepRefreshFailed(w, q, c))
  {
    hide Inv, MeltOk, View, Ys, RowsOf, ReleaseMelt;
    if q in w.melting && w.melting[q].Refreshing? {
      PhaseRows(w, q);
      if c == NotApplied {
        DropPhase(w, q);
      } else {
        ReleaseKeeps(w, q, w.t.melts[q].feePaid);
      }
    }
  }
}
