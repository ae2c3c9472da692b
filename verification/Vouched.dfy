/**
 * Nothing is spent that did not verify: over every run, each Y that a committed swap or melt consumed was an input of a
 * request that passed its tests, with proofs that verified (internal/mint/swapping.go, internal/mint/melting.go).
 */
module Vouched {
  import opened Prelude
  import opened Totals
  import opened Cashu
  import opened Store
  import opened Transactions
  import opened Exact
  import opened World
  import opened Invariant
  import opened Acceptance
  import opened Reserve
  import opened Finality
  import opened Billing
  import opened Theorems

  /** What a Y is held for. */
  datatype Use = ForSwap(s: nat) | ForMelt(q: QuoteId)

  ghost predicate Sends(inputs: seq<Proof>, y: Point)
  {
    exists p :: p in inputs && p.y == y
  }

  ghost predicate SendsNaming(inputs: seq<Proof>, y: Point, q: QuoteId)
  {
    exists p :: p in inputs && p.y == y && p.quote == Some(q)
  }

  ghost predicate SwapPasses(w: World, e: Event)
  {
    e.SwapReserve? && SoundSwap(w.ks, e.inputs, e.outputs, e.verified)
  }

  ghost predicate MeltPasses(w: World, e: Event, q: QuoteId)
  {
    && e.MeltReserve? && e.q == q && q in w.t.melts
    && PaidMelt(w.ks, w.t.melts[q], e.inputs, e.outputs, e.verified)
  }

  /**
   * The request passes its tests, its proofs verified, and the Y is one of its inputs; for a melt, a swap may name it.
   */
  ghost predicate Presents(w: World, e: Event, y: Point, use: Use)
  {
    match use
    case ForSwap(s) => SwapPasses(w, e) && e.s == s && Sends(e.inputs, y)
    case ForMelt(q) =>
      || (MeltPasses(w, e, q) && Sends(e.inputs, y))
      || (SwapPasses(w, e) && SendsNaming(e.inputs, y, q))
  }

  /** Some event of the run presented the Y for that use. */
  ghost predicate Presented(w: World, es: seq<Event>, y: Point, use: Use)
  {
    exists j :: 0 <= j < |es| && Presents(Run(w, es[..j]), es[j], y, use)
  }

  function PhaseProofs(p: MeltPhase): seq<Proof>
  {
    if p.Refreshing? then p.rows else p.inputs
  }

  ghost predicate RowHeld(w: World, y: Point, use: Use)
  {
    use.ForMelt? && y in w.t.proofs && w.t.proofs[y].quote == Some(use.q)
  }

  ghost predicate PhaseHeld(w: World, y: Point, use: Use)
  {
    match use
    case ForSwap(s) => s in w.swapping && y in Ys(w.swapping[s].inputs)
    case ForMelt(q) => q in w.melting && y in Ys(PhaseProofs(w.melting[q]))
  }

  ghost predicate EntryHeld(e: Entry, y: Point, use: Use)
  {
    match use
    case ForSwap(s) => e.SpentBySwap? && e.swap == s && y in e.ys
    case ForMelt(q) => e.SpentByMelt? && e.quote == q && y in e.ys
  }

  // ----- what one step adds -----

  /** Whatever is held after the step was held before it, or is presented by it. */
  ghost predicate Descends(w: World, e: Event, w': World)
  {
    && (forall y, use | RowHeld(w', y, use) :: RowHeld(w, y, use) || Presents(w, e, y, use))
    && (forall y, use | PhaseHeld(w', y, use) ::
          PhaseHeld(w, y, use) || RowHeld(w, y, use) || Presents(w, e, y, use))
    && w.log <= w'.log && (e.RotateKeyset? || w'.ks == w.ks)
    && (forall i, y, use | |w.log| <= i < |w'.log| && EntryHeld(w'.log[i], y, use) :: PhaseHeld(w, y, use))
  }

  /** Rows are dropped or change state, but keep their quote. */
  ghost predicate RowsBack(t: Tables, t': Tables)
  {
    forall y | y in t'.proofs :: y in t.proofs && t'.proofs[y].quote == t.proofs[y].quote
  }

  ghost predicate FewerPhases(w: World, w': World)
  {
    && (forall s | s in w'.swapping :: s in w.swapping && Ys(w'.swapping[s].inputs) == Ys(w.swapping[s].inputs))
    && (forall q | q in w'.melting ::
          q in w.melting && Ys(PhaseProofs(w'.melting[q])) == Ys(PhaseProofs(w.melting[q])))
  }

  lemma QuietDescends(w: World, e: Event, w': World)
    requires RowsBack(w.t, w'.t) && FewerPhases(w, w') && w'.log == w.log && (e.RotateKeyset? || w'.ks == w.ks)
    ensures Descends(w, e, w')
  {
    hide Presents, Ys;
  }

  lemma LoggedDescends(w: World, e: Event, w': World, entry: Entry)
    requires RowsBack(w.t, w'.t) && FewerPhases(w, w') && w'.ks == w.ks
    requires w'.log == w.log + [entry] && forall y, use | EntryHeld(entry, y, use) :: PhaseHeld(w, y, use)
    ensures Descends(w, e, w')
  {
    hide Presents, Ys, PhaseProofs;
  }

  lemma SameWhole(w: World)
    ensures FewerPhases(w, w) && RowsBack(w.t, w.t)
  {
  }

  // ----- swaps -----

  lemma SwapSavesRows(t: Tables, inputs: seq<Proof>, outputs: seq<BlindedMessage>)
    requires ReserveSwap(t, inputs, outputs).Ok?
    ensures var t' := ReserveSwap(t, inputs, outputs).value;
      forall y | y in t'.proofs ::
        || (y in t.proofs && t'.proofs[y] == t.proofs[y])
        || exists p :: p in inputs && p.y == y && p.quote == t'.proofs[y].quote
  {
    hide CheckUnspent, CheckOutputs;
    var ps := AsPending(inputs);
    var t' := ReserveSwap(t, inputs, outputs).value;
    forall y | y in t'.proofs && y !in t.proofs
      ensures exists p :: p in inputs && p.y == y && p.quote == t'.proofs[y].quote
    {
      var i :| 0 <= i < |ps| && ps[i].y == y;
      assert inputs[i] in inputs && RowMap(ps)[ps[i].y] == ps[i];
    }
    forall y | y in t'.proofs && y in t.proofs ensures t'.proofs[y] == t.proofs[y] {
      assert y !in RowMap(ps);
    }
  }

  lemma PendingYs(inputs: seq<Proof>, y: Point)
    requires y in Ys(AsPending(inputs))
    ensures Sends(inputs, y)
  {
    var i :| 0 <= i < |inputs| && AsPending(inputs)[i].y == y;
    assert inputs[i] in inputs;
  }

  lemma SwapReserveDescends(w: World, e: Event)
    requires e.SwapReserve?
    ensures Descends(w, e, StepSwapReserve(w, e.s, e.inputs, e.outputs, e.verified, e.c))
  {
    hide ReserveSwap, ValidateSwap, SoundSwap, AsPending, Ys, Descends;
    var w' := StepSwapReserve(w, e.s, e.inputs, e.outputs, e.verified, e.c);
    SameWhole(w);
    QuietDescends(w, e, w);
    SwapAcceptedIff(w.ks, e.inputs, e.outputs, e.verified);
    if ValidateSwap(w.ks, e.inputs, e.outputs, e.verified).None? && ReserveSwap(w.t, e.inputs, e.outputs).Ok? {
      SwapSavesRows(w.t, e.inputs, e.outputs);
      SavedSwapDescends(w, e, w', ReserveSwap(w.t, e.inputs, e.outputs).value);
    }
  }

  lemma SavedSwapDescends(w: World, e: Event, w': World, t: Tables)
    requires e.SwapReserve? && SwapPasses(w, e)
    requires w' == w || w' == w.(t := t)
      || w' == w.(t := t, swapping := w.swapping[e.s := SwapReserved(AsPending(e.inputs), e.outputs)])
    requires forall y | y in t.proofs ::
      || (y in w.t.proofs && t.proofs[y] == w.t.proofs[y])
      || exists p :: p in e.inputs && p.y == y && p.quote == t.proofs[y].quote
    ensures Descends(w, e, w')
  {
    hide SwapPasses, MeltPasses, Sends, Ys, AsPending;
    forall y, use | PhaseHeld(w', y, use) ensures PhaseHeld(w, y, use) || RowHeld(w, y, use) || Presents(w, e, y, use) {
      if use.ForSwap? && use.s == e.s && w'.swapping != w.swapping {
        PendingYs(e.inputs, y);
      }
    }
  }

  lemma SettledSwapBack(ks: Keysets, t: Tables, inputs: seq<Proof>, outputs: seq<BlindedMessage>, o: SwapOutcome)
    ensures RowsBack(t, SettleSwapBlock(ks, t, inputs, outputs, o).t)
  {
    hide CanSign, CanInsertSigs, SigMap, SigsFor, Ys;
  }

  lemma SwapSettleDescends(w: World, e: Event)
    requires e.SwapSettle?
    ensures Descends(w, e, StepSwapSettle(w, e.s, e.o))
  {
    hide SettleSwapBlock, Ys, Descends;
    SameWhole(w);
    QuietDescends(w, e, w);
    if e.s in w.swapping && w.swapping[e.s].SwapReserved? {
      var w' := StepSwapSettle(w, e.s, e.o);
      SettledSwapBack(w.ks, w.t, w.swapping[e.s].inputs, w.swapping[e.s].outputs, e.o);
      if w'.log == w.log {
        QuietDescends(w, e, w');
      } else {
        LoggedDescends(w, e, w', SpentBySwap(e.s, Ys(w.swapping[e.s].inputs)));
      }
    }
  }

  lemma SwapCleanDescends(w: World, e: Event)
    requires e.SwapClean? || e.SwapAbort?
    ensures Descends(w, e, Step(w, e))
  {
    hide Ys, Descends, PhaseProofs;
    QuietDescends(w, e, Step(w, e));
  }

  // ----- melts -----

  lemma MeltSavesRows(t: Tables, q: QuoteId, inputs: seq<Proof>, outputs: seq<BlindedMessage>)
    requires ReserveMelt(t, q, inputs, outputs).Ok?
    ensures var t' := ReserveMelt(t, q, inputs, outputs).value;
      forall y | y in t'.proofs ::
        || (y in t.proofs && t'.proofs[y] == t.proofs[y])
        || (t'.proofs[y].quote == Some(q) && Sends(inputs, y))
  {
    hide ReserveMelt, MintByRequest, DistinctYs;
    var ps := AsPendingFor(inputs, q);
    ReservedTables(t, q, inputs, outputs);
    Insertable(t.proofs, ps);
    assert ReserveMelt(t, q, inputs, outputs).value.proofs == t.proofs + RowMap(ps);
    forall y | y in RowMap(ps) ensures RowMap(ps)[y].quote == Some(q) && Sends(inputs, y) {
      var i :| 0 <= i < |ps| && ps[i].y == y;
      assert inputs[i] in inputs && RowMap(ps)[ps[i].y] == ps[i];
    }
  }

  lemma PendingForYs(inputs: seq<Proof>, q: QuoteId, y: Point)
    requires y in Ys(AsPendingFor(inputs, q))
    ensures Sends(inputs, y)
  {
    var i :| 0 <= i < |inputs| && AsPendingFor(inputs, q)[i].y == y;
    assert inputs[i] in inputs;
  }

  /** Fees and quotes are small enough for the tests of a melt to be exact. */
  ghost predicate Limits(w: World)
  {
    FeesFit(w.ks) && forall q | q in w.t.melts :: w.t.melts[q].amount + w.t.melts[q].feeReserve < QUOTE_LIMIT
  }

  lemma MeltReserveShape(w: World, e: Event)
    requires e.MeltReserve?
    ensures var w' := StepMeltReserve(w, e.q, e.inputs, e.outputs, e.verified, e.c);
      w' == w || (
        && e.q in w.t.melts && ReserveMelt(w.t, e.q, e.inputs, e.outputs).Ok?
        && ValidateMelt(w.ks, w.t.melts[e.q], e.inputs, e.outputs, e.verified).None?
        && w'.t == ReserveMelt(w.t, e.q, e.inputs, e.outputs).value && w' == w.(t := w'.t, melting := w'.melting)
        && (w'.melting == w.melting || (e.q in w'.melting && w'.melting == w.melting[e.q := w'.melting[e.q]]
              && PhaseProofs(w'.melting[e.q]) == AsPendingFor(e.inputs, e.q))))
  {
    hide ReserveMelt, ValidateMelt, AsPendingFor;
  }

  lemma MeltReserveDescends(w: World, e: Event)
    requires e.MeltReserve? && Limits(w) && |e.inputs| < REQUEST_LIMIT
    ensures Descends(w, e, StepMeltReserve(w, e.q, e.inputs, e.outputs, e.verified, e.c))
  {
    hide StepMeltReserve, ReserveMelt, ValidateMelt, PaidMelt, AsPendingFor, Ys, Descends, FeesFit, PhaseProofs;
    var w' := StepMeltReserve(w, e.q, e.inputs, e.outputs, e.verified, e.c);
    MeltReserveShape(w, e);
    if w' == w {
      SameWhole(w);
      QuietDescends(w, e, w);
    } else {
      MeltAcceptedIff(w.ks, w.t.melts[e.q], e.inputs, e.outputs, e.verified);
      MeltSavesRows(w.t, e.q, e.inputs, e.outputs);
      SavedMeltDescends(w, e, w', w'.t);
    }
  }

  lemma SavedMeltDescends(w: World, e: Event, w': World, t: Tables)
    requires e.MeltReserve? && MeltPasses(w, e, e.q)
    requires w' == w || (w'.t == t && w' == w.(t := t, melting := w'.melting))
    requires w'.melting == w.melting || (e.q in w'.melting && w'.melting == w.melting[e.q := w'.melting[e.q]]
      && PhaseProofs(w'.melting[e.q]) == AsPendingFor(e.inputs, e.q))
    requires forall y | y in t.proofs ::
      (y in w.t.proofs && t.proofs[y] == w.t.proofs[y]) || (t.proofs[y].quote == Some(e.q) && Sends(e.inputs, y))
    ensures Descends(w, e, w')
  {
    hide SwapPasses, MeltPasses, SendsNaming, Sends, Ys, AsPendingFor;
    forall y, use | PhaseHeld(w', y, use) ensures PhaseHeld(w, y, use) || RowHeld(w, y, use) || Presents(w, e, y, use) {
      if use.ForMelt? && use.q == e.q && w'.melting != w.melting {
        PendingForYs(e.inputs, e.q, y);
      }
    }
  }

  lemma PhasesDescend(w: World, e: Event)
    requires e.PayInvoice? || e.PayConfirmed? || e.MeltAbort?
    ensures Descends(w, e, Step(w, e))
  {
    hide Ys, Descends, StepSwapReserve, StepSwapSettle, StepSwapClean, StepMeltReserve, StepPayDoubted, StepRecheck,
      StepFinalize, StepRefreshRead, StepRefreshSettled, StepRefreshFailed, StepMintReconcile, StepMintIssue;
    QuietDescends(w, e, Step(w, e));
  }

  lemma OutsideDescends(w: World, e: Event)
    requires e.LightningProgress? || e.Crash?
    ensures Descends(w, e, Step(w, e))
  {
    hide Ys, Descends, StepSwapReserve, StepSwapSettle, StepSwapClean, StepMeltReserve, StepPayDoubted, StepRecheck,
      StepFinalize, StepRefreshRead, StepRefreshSettled, StepRefreshFailed, StepMintReconcile, StepMintIssue;
    QuietDescends(w, e, Step(w, e));
  }

  lemma DoubtDescends(w: World, e: Event)
    requires e.PayDoubted?
    ensures Descends(w, e, StepPayDoubted(w, e.q, e.checkingId, e.c))
  {
    hide Ys, Descends;
    QuietDescends(w, e, StepPayDoubted(w, e.q, e.checkingId, e.c));
  }

  lemma RecheckDescends(w: World, e: Event)
    requires e.Recheck?
    ensures Descends(w, e, StepRecheck(w, e.q, e.status, e.fee, e.c))
  {
    hide Ys, Descends;
    QuietDescends(w, e, StepRecheck(w, e.q, e.status, e.fee, e.c));
  }

  lemma ReleaseDescends(w: World, e: Event)
    requires e.RefreshFailed?
    ensures Descends(w, e, StepRefreshFailed(w, e.q, e.c))
  {
    hide Ys, Descends;
    QuietDescends(w, e, StepRefreshFailed(w, e.q, e.c));
  }

  lemma ListedRow(rows: seq<Proof>, m: ProofTable, y: Point)
    requires ListsRows(rows, m) && y in Ys(rows)
    ensures y in m
  {
  }

  lemma ReadDescends(w: World, e: Event)
    requires e.RefreshRead? && ListsRows(e.rows, RowsOf(w.t.proofs, e.q))
    ensures Descends(w, e, StepRefreshRead(w, e.q, e.rows))
  {
    hide Ys, Presents, ListsRows;
    var w' := StepRefreshRead(w, e.q, e.rows);
    forall y, use | PhaseHeld(w', y, use) ensures PhaseHeld(w, y, use) || RowHeld(w, y, use) {
      if use.ForMelt? && use.q == e.q && w' != w {
        ListedRow(e.rows, RowsOf(w.t.proofs, e.q), y);
      }
    }
  }

  lemma PaidBack(t: Tables, q: QuoteId, ys: set<Point>, fee: nat, preimage: string)
    requires q in t.melts
    ensures RowsBack(t, MarkPaid(t, q, ys, fee, preimage))
  {
  }

  lemma FinalizeDescends(w: World, e: Event)
    requires e.Finalize?
    ensures Descends(w, e, StepFinalize(w, e.q, e.c))
  {
    hide FinalizeMelt, MarkPaid, Ys, Descends;
    SameWhole(w);
    QuietDescends(w, e, w);
    var w' := StepFinalize(w, e.q, e.c);
    if e.q in w.melting && w.melting[e.q].Confirmed? && e.q in w.t.melts {
      var p := w.melting[e.q];
      FinalizeMarks(w.ks, w.t, e.q, p.inputs, p.outputs, p.fee, p.preimage);
      PaidBack(w.t, e.q, Ys(p.inputs), p.fee, p.preimage);
      if w'.log == w.log {
        QuietDescends(w, e, w');
      } else {
        LoggedDescends(w, e, w', SpentByMelt(e.q, Ys(p.inputs)));
      }
    }
  }

  lemma RecoverDescends(w: World, e: Event)
    requires e.RefreshSettled?
    ensures Descends(w, e, StepRefreshSettled(w, e.q, e.fee, e.preimage, e.msgs, e.c))
  {
    hide RecoverMelt, MarkPaid, Ys, Descends;
    SameWhole(w);
    QuietDescends(w, e, w);
    var w' := StepRefreshSettled(w, e.q, e.fee, e.preimage, e.msgs, e.c);
    if e.q in w.melting && w.melting[e.q].Refreshing? && e.q in w.t.melts {
      var rows := w.melting[e.q].rows;
      RecoverMarks(w.ks, w.t, e.q, rows, e.msgs, e.fee, e.preimage);
      PaidBack(w.t, e.q, Ys(rows), e.fee, e.preimage);
      if w'.log == w.log {
        QuietDescends(w, e, w');
      } else {
        LoggedDescends(w, e, w', SpentByMelt(e.q, Ys(rows)));
      }
    }
  }

  // ----- everything else -----

  lemma LoadDescends(w: World, e: Event)
    requires e.MintLoad? || e.MintAbort?
    ensures Descends(w, e, Step(w, e))
  {
    hide Ys, Descends, ValidateIssuance, PhaseProofs, StepSwapReserve, StepSwapSettle, StepSwapClean, StepMeltReserve,
      StepPayDoubted, StepRecheck, StepFinalize, StepRefreshRead, StepRefreshSettled, StepRefreshFailed,
      StepMintReconcile, StepMintIssue;
    QuietDescends(w, e, Step(w, e));
  }

  lemma NewQuotesDescend(w: World, e: Event)
    requires e.CreateMintQuote? || e.CreateMeltQuote? || e.RotateKeyset? || e.InvoicePaid?
    ensures Descends(w, e, Step(w, e))
  {
    hide Ys, Descends, Rotate, SaveMeltQuote, SaveMintQuote, PhaseProofs, StepSwapReserve, StepSwapSettle,
      StepSwapClean, StepMeltReserve, StepPayDoubted, StepRecheck, StepFinalize, StepRefreshRead, StepRefreshSettled,
      StepRefreshFailed, StepMintReconcile, StepMintIssue;
    SavedRows(w, e);
    QuietDescends(w, e, Step(w, e));
  }

  lemma SavedRows(w: World, e: Event)
    ensures e.CreateMintQuote? ==>
      var r := SaveMintQuote(w.t, e.m, e.request, e.unit); r.Ok? ==> r.value.proofs == w.t.proofs
    ensures e.CreateMeltQuote? ==>
      var r := SaveMeltQuote(
        w.t, e.q, e.request, e.unit, e.mppAmount, e.backendAmount, e.backendFee, e.checkingId);
      r.Ok? ==> r.value.proofs == w.t.proofs
  {
    hide MintByRequest;
  }

  lemma ReconcileDescends(w: World, e: Event)
    requires e.MintReconcile?
    ensures Descends(w, e, StepMintReconcile(w, e.m, e.status, e.c))
  {
    hide Ys, Descends, PhaseProofs;
    QuietDescends(w, e, StepMintReconcile(w, e.m, e.status, e.c));
  }

  lemma IssueDescends(w: World, e: Event)
    requires e.MintIssue?
    ensures Descends(w, e, StepMintIssue(w, e.m, e.c))
  {
    hide Ys, Descends, PhaseProofs, CanSign, CanInsertSigs, SigMap, SigsFor;
    var w' := StepMintIssue(w, e.m, e.c);
    if w'.log == w.log {
      QuietDescends(w, e, w');
    } else {
      LoggedDescends(w, e, w', Issued(e.m, w.minting[e.m].outputs.value));
    }
  }

  lemma StepDescends(w: World, e: Event)
    requires Limits(w) && Assumed(w, e)
    ensures Descends(w, e, Step(w, e))
  {
    hide Descends, Limits, StepSwapReserve, StepSwapSettle, StepMeltReserve, StepPayDoubted, StepRecheck, StepFinalize,
      StepRefreshRead, StepRefreshSettled, StepRefreshFailed, StepMintReconcile, StepMintIssue, ListsRows, RowsOf;
    match e
    case SwapReserve(_, _, _, _, _) => SwapReserveDescends(w, e);
    case SwapSettle(_, _) => SwapSettleDescends(w, e);
    case SwapClean(_, _) => SwapCleanDescends(w, e);
    case SwapAbort(_) => SwapCleanDescends(w, e);
    case MeltReserve(_, _, _, _, _) => MeltReserveDescends(w, e);
    case PayDoubted(_, _, _) => DoubtDescends(w, e);
    case Recheck(_, _, _, _) => RecheckDescends(w, e);
    case RefreshFailed(_, _) => ReleaseDescends(w, e);
    case RefreshRead(_, _) => ReadDescends(w, e);
    case Finalize(_, _) => FinalizeDescends(w, e);
    case RefreshSettled(_, _, _, _, _) => RecoverDescends(w, e);
    case MintReconcile(_, _, _) => ReconcileDescends(w, e);
    case MintIssue(_, _) => IssueDescends(w, e);
    case PayInvoice(_, _) => PhasesDescend(w, e);
    case PayConfirmed(_, _, _) => PhasesDescend(w, e);
    case MeltAbort(_) => PhasesDescend(w, e);
    case LightningProgress(_, _) => OutsideDescends(w, e);
    case Crash => OutsideDescends(w, e);
    case MintLoad(_, _) => LoadDescends(w, e);
    case MintAbort(_) => LoadDescends(w, e);
    case _ => NewQuotesDescend(w, e);
  }

  // ----- over every run -----

  lemma StepKeepsLimits(w: World, e: Event)
    requires Limits(w) && Assumed(w, e)
    ensures Limits(Step(w, e))
  {
    hide Step;
    StepKeepsTerms(w, e);
    FeesStayFit(w, e);
    hide SameMintTerms, FeesFit;
    var w' := Step(w, e);
    forall q | q in w'.t.melts ensures w'.t.melts[q].amount + w'.t.melts[q].feeReserve < QUOTE_LIMIT {
      if q !in w.t.melts {
        NewQuoteFits(w, e);
      }
    }
  }

  lemma FeesStayFit(w: World, e: Event)
    requires Limits(w) && Assumed(w, e)
    ensures FeesFit(Step(w, e).ks)
  {
    hide Limits;
    assert FeesFit(w.ks) by { LimitedFees(w); }
    if e.RotateKeyset? {
      RotatedFees(w.ks, e.newId, e.unit, e.feePpk);
      hide Rotate;
    } else {
      hide Step, Assumed;
      StepDescends(w, e);
    }
  }

  lemma LimitedFees(w: World)
    requires Limits(w)
    ensures FeesFit(w.ks)
  {
  }

  lemma RotatedFees(ks: Keysets, newId: KeysetId, unit: Unit, feePpk: nat)
    requires FeesFit(ks) && feePpk < FEE_LIMIT
    ensures FeesFit(Rotate(ks, newId, unit, feePpk))
  {
  }

  lemma NewQuoteFits(w: World, e: Event)
    requires e.CreateMeltQuote? && Assumed(w, e) && e.q !in w.t.melts && e.q in Step(w, e).t.melts
    ensures var quote := Step(w, e).t.melts[e.q]; quote.amount + quote.feeReserve < QUOTE_LIMIT
  {
    hide SaveMeltQuote, OwnInvoice;
    MeltQuoteSavedIff(w.t, e.q, e.request, e.unit, e.mppAmount, e.backendAmount, e.backendFee, e.checkingId);
  }

  /** Every Y in a row of a melt quote, in a request in flight and in the log was presented for it. */
  ghost predicate AllPresented(w: World, es: seq<Event>)
  {
    && (forall y, use | RowHeld(Run(w, es), y, use) :: Presented(w, es, y, use))
    && (forall y, use | PhaseHeld(Run(w, es), y, use) :: Presented(w, es, y, use))
    && (forall i, y, use | 0 <= i < |Run(w, es).log| && EntryHeld(Run(w, es).log[i], y, use) ::
          Presented(w, es, y, use))
  }

  lemma PresentedBefore(w: World, es: seq<Event>, y: Point, use: Use)
    requires es != [] && Presented(w, es[..|es| - 1], y, use)
    ensures Presented(w, es, y, use)
  {
    hide Presents, Run;
    var n := |es| - 1;
    var j :| 0 <= j < n && Presents(Run(w, es[..n][..j]), es[..n][j], y, use);
    assert es[..n][..j] == es[..j];
    assert Presents(Run(w, es[..j]), es[j], y, use);
  }

  lemma PresentedLast(w: World, es: seq<Event>, y: Point, use: Use)
    requires es != [] && Presents(Run(w, es[..|es| - 1]), es[|es| - 1], y, use)
    ensures Presented(w, es, y, use)
  {
    hide Presents, Run;
  }

  lemma OneMorePresented(w: World, es: seq<Event>)
    requires es != [] && AllPresented(w, es[..|es| - 1])
    requires Descends(Run(w, es[..|es| - 1]), es[|es| - 1], Run(w, es))
    ensures AllPresented(w, es)
  {
    hide Presents, Run, Presented, RowHeld, PhaseHeld, EntryHeld;
    var n := |es| - 1;
    var before, after, e := Run(w, es[..n]), Run(w, es), es[n];
    forall y, use | RowHeld(after, y, use) ensures Presented(w, es, y, use) {
      if RowHeld(before, y, use) {
        PresentedBefore(w, es, y, use);
      } else {
        PresentedLast(w, es, y, use);
      }
    }
    forall y, use | PhaseHeld(after, y, use) ensures Presented(w, es, y, use) {
      if PhaseHeld(before, y, use) || RowHeld(before, y, use) {
        PresentedBefore(w, es, y, use);
      } else {
        PresentedLast(w, es, y, use);
      }
    }
    forall i, y, use | 0 <= i < |after.log| && EntryHeld(after.log[i], y, use) ensures Presented(w, es, y, use) {
      if i < |before.log| {
        assert after.log[i] == before.log[i];
      }
      PresentedBefore(w, es, y, use);
    }
  }

  lemma {:induction false} RunIsPresented(w: World, es: seq<Event>)
    requires Limits(w) && AssumedRun(w, es) && w.t.proofs == map[] && w.swapping == map[] && w.melting == map[]
    requires w.log == []
    ensures AllPresented(w, es) && Limits(Run(w, es))
  {
    hide Limits, Step, Assumed, Descends, Presented, Ys;
    if es != [] {
      var before, e := Run(w, es[..|es| - 1]), es[|es| - 1];
      RunIsPresented(w, es[..|es| - 1]);
      StepDescends(before, e);
      StepKeepsLimits(before, e);
      hide AllPresented;
      OneMorePresented(w, es);
    }
  }

  /** The melt of the quote itself, or, where a swap named the quote, that swap. */
  ghost predicate PassesForMelt(ks: Keysets, es: seq<Event>, j: nat, y: Point, q: QuoteId)
    requires j < |es|
  {
    var before := Run(Start(ks), es[..j]);
    || (&& es[j].MeltReserve? && es[j].q == q && Sends(es[j].inputs, y) && q in before.t.melts
        && PaidMelt(before.ks, before.t.melts[q], es[j].inputs, es[j].outputs, es[j].verified))
    || (&& es[j].SwapReserve? && SendsNaming(es[j].inputs, y, q)
        && SoundSwap(before.ks, es[j].inputs, es[j].outputs, es[j].verified))
  }

  /** The request of that swap. */
  ghost predicate PassesForSwap(ks: Keysets, es: seq<Event>, j: nat, y: Point, s: nat)
    requires j < |es|
  {
    && es[j].SwapReserve? && es[j].s == s && es[j].verified && Sends(es[j].inputs, y)
    && SoundSwap(Run(Start(ks), es[..j]).ks, es[j].inputs, es[j].outputs, es[j].verified)
  }

  lemma PresentedForSwap(ks: Keysets, es: seq<Event>, y: Point, s: nat)
    requires Presented(Start(ks), es, y, ForSwap(s))
    ensures exists j :: 0 <= j < |es| && PassesForSwap(ks, es, j, y, s)
  {
    hide Run, Sends, Start;
    var j :| 0 <= j < |es| && Presents(Run(Start(ks), es[..j]), es[j], y, ForSwap(s));
    assert PassesForSwap(ks, es, j, y, s);
  }

  lemma PresentedForMelt(ks: Keysets, es: seq<Event>, y: Point, q: QuoteId)
    requires Presented(Start(ks), es, y, ForMelt(q))
    ensures exists j :: 0 <= j < |es| && PassesForMelt(ks, es, j, y, q)
  {
    hide Run, Sends, SendsNaming, Start, SoundSwap, PaidMelt;
    var j :| 0 <= j < |es| && Presents(Run(Start(ks), es[..j]), es[j], y, ForMelt(q));
    assert PassesForMelt(ks, es, j, y, q);
  }

  /** A Y that a committed block consumed was an input of a swap or melt that passed, with proofs that verified. */
  lemma ConsumedWasVerified(w: World, ks: Keysets, es: seq<Event>, i: nat, y: Point)
    requires Reached(w, ks, es) && i < |w.log| && y in EntryYs(w.log[i])
    ensures w.log[i].SpentBySwap? ==> exists j :: 0 <= j < |es| && PassesForSwap(ks, es, j, y, w.log[i].swap)
    ensures w.log[i].SpentByMelt? ==> exists j :: 0 <= j < |es| && PassesForMelt(ks, es, j, y, w.log[i].quote)
  {
    hide AssumedRun, Run, Start, PassesForSwap, PassesForMelt, Presented, Limits, FeesFit;
    StartHasLimits(ks);
    StartIsEmpty(ks);
    RunIsPresented(Start(ks), es);
    if w.log[i].SpentBySwap? {
      assert EntryHeld(w.log[i], y, ForSwap(w.log[i].swap));
      PresentedForSwap(ks, es, y, w.log[i].swap);
    } else {
      assert EntryHeld(w.log[i], y, ForMelt(w.log[i].quote));
      PresentedForMelt(ks, es, y, w.log[i].quote);
    }
  }

  lemma StartIsEmpty(ks: Keysets)
    ensures var w := Start(ks); w.t.proofs == map[] && w.swapping == map[] && w.melting == map[] && w.log == []
  {
  }

  lemma StartHasLimits(ks: Keysets)
    requires FeesFit(ks)
    ensures Limits(Start(ks))
  {
  }
}
