/**
 * Which requests are in flight. A request starts exactly when its first block is acknowledged, and it is over with its
 * last block, with a COMMIT that is not acknowledged, or with a crash; in between it keeps what it was given.
 */
module Requests {
  import opened Prelude
  import opened Totals
  import opened Cashu
  import opened Store
  import opened Fees
  import opened Transactions
  import opened World
  import opened Invariant
  import opened Acceptance

  lemma StepOfSwap(w: World, e: Event)
    ensures e.SwapReserve? ==> Step(w, e) == StepSwapReserve(w, e.s, e.inputs, e.outputs, e.verified, e.c)
    ensures e.SwapSettle? ==> Step(w, e) == StepSwapSettle(w, e.s, e.o)
    ensures e.SwapClean? ==> Step(w, e) == StepSwapClean(w, e.s, e.c)
    ensures e.SwapAbort? ==> Step(w, e) == w.(swapping := w.swapping - {e.s})
    ensures e.Crash? ==> Step(w, e) == w.(melting := map[], swapping := map[], minting := map[])
  {
    hide StepSwapReserve, StepSwapSettle, StepSwapClean;
  }

  lemma StepOfMelt(w: World, e: Event)
    ensures e.MeltReserve? ==> Step(w, e) == StepMeltReserve(w, e.q, e.inputs, e.outputs, e.verified, e.c)
    ensures e.PayInvoice? ==> Step(w, e) == StepPayInvoice(w, e.q, e.attempt)
    ensures e.PayConfirmed? ==> Step(w, e) == StepPayConfirmed(w, e.q, e.fee, e.preimage)
    ensures e.PayDoubted? ==> Step(w, e) == StepPayDoubted(w, e.q, e.checkingId, e.c)
    ensures e.Recheck? ==> Step(w, e) == StepRecheck(w, e.q, e.status, e.fee, e.c)
    ensures e.Finalize? ==> Step(w, e) == StepFinalize(w, e.q, e.c)
    ensures e.MeltAbort? ==> Step(w, e) == w.(melting := w.melting - {e.q})
  {
    hide StepMeltReserve, StepPayInvoice, StepPayConfirmed, StepPayDoubted, StepRecheck, StepFinalize;
  }

  lemma StepOfRefresh(w: World, e: Event)
    ensures e.RefreshRead? ==> Step(w, e) == StepRefreshRead(w, e.q, e.rows)
    ensures e.RefreshSettled? ==> Step(w, e) == StepRefreshSettled(w, e.q, e.fee, e.preimage, e.msgs, e.c)
    ensures e.RefreshFailed? ==> Step(w, e) == StepRefreshFailed(w, e.q, e.c)
    ensures e.MintLoad? ==> Step(w, e) == StepMintLoad(w, e.m, e.toIssue)
    ensures e.MintReconcile? ==> Step(w, e) == StepMintReconcile(w, e.m, e.status, e.c)
    ensures e.MintIssue? ==> Step(w, e) == StepMintIssue(w, e.m, e.c)
    ensures e.MintAbort? ==> Step(w, e) == w.(minting := w.minting - {e.m})
  {
    hide StepRefreshRead, StepRefreshSettled, StepRefreshFailed, StepMintLoad, StepMintReconcile, StepMintIssue;
  }

  // ----- swaps -----

  ghost predicate StartsSwap(w: World, e: Event, s: nat)
  {
    && e.SwapReserve? && e.s == s && e.c == Committed
    && SoundSwap(w.ks, e.inputs, e.outputs, e.verified) && NewInputs(w.t, e.inputs) && NewOutputs(w.t, e.outputs)
  }

  /** The inputs of a failed swap are removed unless it may have landed: nobody may have been told so. */
  ghost predicate AsksForCleanUp(w: World, p: SwapPhase, o: SwapOutcome)
    requires p.SwapReserved?
  {
    if o.signFails || o.beginFails || !Signable(w.ks, p.outputs) then true
    else if o.writeFails || !NewOutputs(w.t, p.outputs) then o.deferredRollbackNil
    else o.commit != Committed && (o.firstRollbackNil || o.deferredRollbackNil)
  }

  ghost predicate EndsSwap(w: World, e: Event, s: nat)
    requires s in w.swapping
  {
    || e.Crash?
    || (e.SwapAbort? && e.s == s)
    || (e.SwapClean? && e.s == s && w.swapping[s].SwapFailed?)
    || (e.SwapSettle? && e.s == s && w.swapping[s].SwapReserved? && !AsksForCleanUp(w, w.swapping[s], e.o))
  }

  /** What a swap holds after a step, if it is in flight: what it held, or, once it failed, the inputs to remove. */
  ghost function SwapAfter(w: World, e: Event, s: nat): Option<SwapPhase>
  {
    if StartsSwap(w, e, s) then Some(SwapReserved(AsPending(e.inputs), e.outputs))
    else if s !in w.swapping || EndsSwap(w, e, s) then None
    else if e.SwapSettle? && e.s == s && w.swapping[s].SwapReserved? then Some(SwapFailed(w.swapping[s].inputs))
    else Some(w.swapping[s])
  }

  lemma StoredIff(t: Tables, outputs: seq<BlindedMessage>)
    ensures CanInsertSigs(t.sigs, SigsFor(outputs)) <==> NewOutputs(t, outputs)
  {
    var sigs := SigsFor(outputs);
    assert |sigs| == |outputs| && forall i | 0 <= i < |sigs| :: sigs[i].b == outputs[i].b;
    if CanInsertSigs(t.sigs, sigs) {
      forall i, j | 0 <= i < j < |outputs| ensures outputs[i].b != outputs[j].b {
        assert sigs[i].b != sigs[j].b;
      }
      forall m | m in outputs ensures m.b !in t.sigs {
        var i :| 0 <= i < |outputs| && outputs[i] == m;
        assert sigs[i].b == m.b;
      }
    }
    if NewOutputs(t, outputs) {
      NewCanBeStored(t, outputs);
    }
  }

  lemma CleanUpIff(w: World, p: SwapPhase, o: SwapOutcome)
    requires p.SwapReserved?
    ensures var end := SettleSwapBlock(w.ks, w.t, p.inputs, p.outputs, o);
      end.failed && end.removePending <==> AsksForCleanUp(w, p, o)
  {
    SignableIs(w.ks, p.outputs);
    StoredIff(w.t, p.outputs);
    hide CanSign, Signable, CanInsertSigs, NewOutputs, SigsFor, SetState, SigMap, Ys;
  }

  lemma SettleFlight(w: World, e: Event, s: nat)
    requires e.SwapSettle?
    ensures Lookup(StepSwapSettle(w, e.s, e.o).swapping, s) == SwapAfter(w, e, s)
  {
    hide SettleSwapBlock, AsksForCleanUp, Ys;
    if e.s in w.swapping && w.swapping[e.s].SwapReserved? {
      CleanUpIff(w, w.swapping[e.s], e.o);
    }
  }

  lemma ReserveFlight(w: World, e: Event, s: nat)
    requires e.SwapReserve?
    ensures Lookup(StepSwapReserve(w, e.s, e.inputs, e.outputs, e.verified, e.c).swapping, s) == SwapAfter(w, e, s)
  {
    hide ValidateSwap, ReserveSwap, SoundSwap, NewInputs, NewOutputs, AsPending, AsksForCleanUp;
    SwapAcceptedIff(w.ks, e.inputs, e.outputs, e.verified);
    ReservedIff(w.t, e.inputs, e.outputs);
  }

  lemma CleanFlight(w: World, e: Event, s: nat)
    requires e.SwapClean?
    ensures Lookup(StepSwapClean(w, e.s, e.c).swapping, s) == SwapAfter(w, e, s)
  {
    hide DeleteProofs, AsksForCleanUp;
  }

  lemma SwapLost(w: World, e: Event, s: nat)
    ensures e.SwapAbort? ==> Lookup(w.swapping - {e.s}, s) == SwapAfter(w, e, s)
    ensures e.Crash? ==> Lookup(map[], s) == SwapAfter(w, e, s)
  {
    hide AsksForCleanUp;
  }

  lemma SameSwap(w: World, e: Event, s: nat)
    requires !e.SwapReserve? && !e.SwapSettle? && !e.SwapClean? && !e.SwapAbort? && !e.Crash?
    ensures SwapAfter(w, e, s) == Lookup(w.swapping, s)
  {
    hide AsksForCleanUp;
  }

  /** A swap is in flight exactly from its acknowledged reservation to its last block, an error or a crash. */
  lemma SwapInFlight(w: World, e: Event, s: nat)
    ensures Lookup(Step(w, e).swapping, s) == SwapAfter(w, e, s)
  {
    hide Lookup, SwapAfter, Step, StepSwapReserve, StepSwapSettle, StepSwapClean;
    StepOfSwap(w, e);
    match e
    case SwapReserve(r, inputs, outputs, verified, c) => ReserveFlight(w, e, s);
    case SwapSettle(r, o) => SettleFlight(w, e, s);
    case SwapClean(r, c) => CleanFlight(w, e, s);
    case SwapAbort(r) => SwapLost(w, e, s);
    case Crash => SwapLost(w, e, s);
    case _ => SwapsLeftAlone(w, e);
              SameSwap(w, e, s);
  }

  lemma SwapsLeftAlone(w: World, e: Event)
    requires !e.SwapReserve? && !e.SwapSettle? && !e.SwapClean? && !e.SwapAbort? && !e.Crash?
    ensures Step(w, e).swapping == w.swapping
  {
    hide StepMeltReserve, StepRecheck, StepFinalize, StepRefreshSettled, StepRefreshFailed, StepMintReconcile,
      StepMintIssue, StepMintLoad, StepPayDoubted, SaveMintQuote, SaveMeltQuote, Rotate;
    MeltsLeaveSwaps(w, e);
    MintsLeaveSwaps(w, e);
  }

  lemma MeltsLeaveSwaps(w: World, e: Event)
    ensures e.MeltReserve? ==> StepMeltReserve(w, e.q, e.inputs, e.outputs, e.verified, e.c).swapping == w.swapping
    ensures e.PayDoubted? ==> StepPayDoubted(w, e.q, e.checkingId, e.c).swapping == w.swapping
    ensures e.Recheck? ==> StepRecheck(w, e.q, e.status, e.fee, e.c).swapping == w.swapping
    ensures e.Finalize? ==> StepFinalize(w, e.q, e.c).swapping == w.swapping
    ensures e.RefreshSettled? ==> StepRefreshSettled(w, e.q, e.fee, e.preimage, e.msgs, e.c).swapping == w.swapping
    ensures e.RefreshFailed? ==> StepRefreshFailed(w, e.q, e.c).swapping == w.swapping
  {
    hide ValidateMelt, ReserveMelt, AsPendingFor, SetMelt, ReleaseMelt, FinalizeMelt, RecoverMelt, Ys;
  }

  lemma MintsLeaveSwaps(w: World, e: Event)
    ensures e.MintLoad? ==> StepMintLoad(w, e.m, e.toIssue).swapping == w.swapping
    ensures e.MintReconcile? ==> StepMintReconcile(w, e.m, e.status, e.c).swapping == w.swapping
    ensures e.MintIssue? ==> StepMintIssue(w, e.m, e.c).swapping == w.swapping
  {
    hide ValidateIssuance, ReconcileMint, IssueMint;
  }

  // ----- melts -----

  /** What the reserving block of a melt asks of the tables; a quote for an invoice of this mint pays its mint quote. */
  ghost predicate Reservable(t: Tables, q: QuoteId, inputs: seq<Proof>, outputs: seq<BlindedMessage>)
  {
    && q in t.melts && t.melts[q].state != PENDING && !t.melts[q].melted
    && NewInputs(t, inputs) && NewOutputs(t, outputs)
    && var own := MintByRequest(t.mints, t.melts[q].request);
       own.Some? ==> t.mints[own.value].unit == t.melts[q].unit && t.mints[own.value].state == UNPAID
  }

  lemma NewForMelt(t: Tables, inputs: seq<Proof>, q: QuoteId)
    ensures CheckUnspent(t, inputs) == None && CanInsert(t.proofs, AsPendingFor(inputs, q)) <==> NewInputs(t, inputs)
  {
    var rows := AsPendingFor(inputs, q);
    assert |rows| == |inputs| && forall i | 0 <= i < |rows| :: rows[i].y == inputs[i].y;
    hide AsPendingFor;
    if CheckUnspent(t, inputs) == None && CanInsert(t.proofs, rows) {
      forall i, j | 0 <= i < j < |inputs| ensures inputs[i].y != inputs[j].y {
        assert rows[i].y != rows[j].y;
      }
    }
  }

  lemma MeltReservedIff(t: Tables, q: QuoteId, inputs: seq<Proof>, outputs: seq<BlindedMessage>)
    ensures ReserveMelt(t, q, inputs, outputs).Ok? <==> Reservable(t, q, inputs, outputs)
  {
    NewForMelt(t, inputs, q);
    NewOutputsAre(t, outputs);
    hide CheckUnspent, CheckOutputs, CanInsert, NewInputs, NewOutputs, AsPendingFor, RowMap, AddChange, Unvalued;
  }

  ghost predicate StartsMelt(w: World, e: Event, q: QuoteId)
  {
    || (e.MeltReserve? && e.q == q && e.c == Committed && Reservable(w.t, q, e.inputs, e.outputs)
        && ValidateMelt(w.ks, w.t.melts[q], e.inputs, e.outputs, e.verified).None?)
    || (e.RefreshRead? && e.q == q && q in w.t.melts && w.t.melts[q].state == PENDING)
  }

  ghost predicate EndsMelt(w: World, e: Event, q: QuoteId)
    requires q in w.melting
  {
    || e.Crash?
    || (e.MeltAbort? && e.q == q)
    || (q in w.t.melts && (
          || (e.PayDoubted? && e.q == q && w.melting[q].Sent? && e.c != Committed)
          || (e.Recheck? && e.q == q && w.melting[q].Doubtful?)
          || (e.Finalize? && e.q == q && w.melting[q].Confirmed?)
          || (e.RefreshSettled? && e.q == q && w.melting[q].Refreshing?)
          || (e.RefreshFailed? && e.q == q && w.melting[q].Refreshing?)))
  }

  /** What a request in flight goes on with: what it held, one stage further with each answer. */
  ghost function NextStage(w: World, e: Event, q: QuoteId): MeltPhase
    requires q in w.melting
  {
    var p := w.melting[q];
    if e.PayInvoice? && e.q == q && p.Reserved? then Sent(p.inputs, p.outputs)
    else if e.PayConfirmed? && e.q == q && p.Sent? then Confirmed(p.inputs, p.outputs, e.fee, e.preimage)
    else if e.PayDoubted? && e.q == q && p.Sent? && q in w.t.melts then Doubtful(p.inputs, p.outputs)
    else p
  }

  /**
   * What a request starts with: its inputs as they were saved, on its way to lightning, or settled already if the
   * invoice is one of this mint; or the quote's rows as they were read.
   */
  ghost function FirstStage(w: World, e: Event, q: QuoteId): MeltPhase
    requires StartsMelt(w, e, q)
  {
    if e.RefreshRead? then Refreshing(e.rows)
    else if MintByRequest(w.t.mints, w.t.melts[q].request).Some?
    then Confirmed(AsPendingFor(e.inputs, q), e.outputs, 0, w.t.melts[q].preimage)
    else Reserved(AsPendingFor(e.inputs, q), e.outputs)
  }

  ghost function MeltAfter(w: World, e: Event, q: QuoteId): Option<MeltPhase>
  {
    if StartsMelt(w, e, q) then Some(FirstStage(w, e, q))
    else if q !in w.melting || EndsMelt(w, e, q) then None
    else Some(NextStage(w, e, q))
  }

  lemma ReservedState(t: Tables, q: QuoteId, inputs: seq<Proof>, outputs: seq<BlindedMessage>)
    requires ReserveMelt(t, q, inputs, outputs).Ok?
    ensures q in t.melts
    ensures var quote := ReserveMelt(t, q, inputs, outputs).value.melts[q];
      && (quote.state == PAID <==> MintByRequest(t.mints, t.melts[q].request).Some?)
      && quote.preimage == t.melts[q].preimage
  {
    hide CheckUnspent, CheckOutputs, CanInsert, AsPendingFor, RowMap, AddChange, Unvalued;
  }

  lemma NotStarted(w: World, e: Event, q: QuoteId)
    requires e.MeltReserve? && !StartsMelt(w, e, q)
    ensures MeltAfter(w, e, q) == Lookup(w.melting, q)
  {
    hide Reservable, ValidateMelt, FirstStage;
  }

  lemma Started(w: World, e: Event, q: QuoteId)
    requires StartsMelt(w, e, q)
    ensures MeltAfter(w, e, q) == Some(FirstStage(w, e, q))
  {
  }

  lemma ReservingFlight(w: World, e: Event, q: QuoteId)
    requires e.MeltReserve?
    ensures Lookup(StepMeltReserve(w, e.q, e.inputs, e.outputs, e.verified, e.c).melting, q) == MeltAfter(w, e, q)
  {
    hide ValidateMelt, ReserveMelt, Reservable, AsPendingFor, MintByRequest, MeltAfter;
    MeltReservedIff(w.t, e.q, e.inputs, e.outputs);
    RevealedQuote(w.t, e.q, e.inputs, e.outputs);
    if StartsMelt(w, e, q) {
      ReservedState(w.t, e.q, e.inputs, e.outputs);
      Started(w, e, q);
    } else {
      NotStarted(w, e, q);
    }
  }

  lemma RevealedQuote(t: Tables, q: QuoteId, inputs: seq<Proof>, outputs: seq<BlindedMessage>)
    ensures Reservable(t, q, inputs, outputs) ==> q in t.melts
  {
  }

  lemma PayingFlight(w: World, e: Event, q: QuoteId)
    ensures e.PayInvoice? ==> Lookup(StepPayInvoice(w, e.q, e.attempt).melting, q) == MeltAfter(w, e, q)
    ensures e.PayConfirmed? ==> Lookup(StepPayConfirmed(w, e.q, e.fee, e.preimage).melting, q) == MeltAfter(w, e, q)
  {
    hide Reservable, ValidateMelt, FirstStage;
  }

  lemma DoubtFlight(w: World, e: Event, q: QuoteId)
    requires e.PayDoubted?
    ensures Lookup(StepPayDoubted(w, e.q, e.checkingId, e.c).melting, q) == MeltAfter(w, e, q)
  {
    hide Reservable, ValidateMelt, FirstStage, SetMelt;
  }

  lemma RecheckFlight(w: World, e: Event, q: QuoteId)
    requires e.Recheck?
    ensures Lookup(StepRecheck(w, e.q, e.status, e.fee, e.c).melting, q) == MeltAfter(w, e, q)
  {
    hide Reservable, ValidateMelt, FirstStage, SetMelt, ReleaseMelt, Ys;
  }

  lemma FinalizeFlight(w: World, e: Event, q: QuoteId)
    requires e.Finalize?
    ensures Lookup(StepFinalize(w, e.q, e.c).melting, q) == MeltAfter(w, e, q)
  {
    hide Reservable, ValidateMelt, FirstStage, FinalizeMelt, Ys;
  }

  lemma RecoverFlight(w: World, e: Event, q: QuoteId)
    requires e.RefreshSettled?
    ensures Lookup(StepRefreshSettled(w, e.q, e.fee, e.preimage, e.msgs, e.c).melting, q) == MeltAfter(w, e, q)
  {
    hide Reservable, ValidateMelt, FirstStage, RecoverMelt, Ys;
  }

  lemma FailedFlight(w: World, e: Event, q: QuoteId)
    requires e.RefreshFailed?
    ensures Lookup(StepRefreshFailed(w, e.q, e.c).melting, q) == MeltAfter(w, e, q)
  {
    hide Reservable, ValidateMelt, FirstStage, ReleaseMelt, Ys;
  }

  lemma ReadFlight(w: World, e: Event, q: QuoteId)
    requires e.RefreshRead?
    ensures Lookup(StepRefreshRead(w, e.q, e.rows).melting, q) == MeltAfter(w, e, q)
  {
    hide Reservable, ValidateMelt;
  }

  lemma MeltLost(w: World, e: Event, q: QuoteId)
    ensures e.MeltAbort? ==> Lookup(w.melting - {e.q}, q) == MeltAfter(w, e, q)
    ensures e.Crash? ==> Lookup(map[], q) == MeltAfter(w, e, q)
  {
    hide Reservable, ValidateMelt, FirstStage;
  }

  predicate OnMelts(e: Event)
  {
    || e.MeltReserve? || e.PayInvoice? || e.PayConfirmed? || e.PayDoubted? || e.Recheck? || e.Finalize? || e.MeltAbort?
    || e.RefreshRead? || e.RefreshSettled? || e.RefreshFailed? || e.Crash?
  }

  lemma MeltsLeftAlone(w: World, e: Event)
    requires !OnMelts(e)
    ensures Step(w, e).melting == w.melting
  {
    hide StepSwapReserve, StepSwapSettle, StepSwapClean, StepMintReconcile, StepMintIssue, StepMintLoad,
      SaveMintQuote, SaveMeltQuote, Rotate;
    OthersLeaveMelts(w, e);
  }

  lemma OthersLeaveMelts(w: World, e: Event)
    ensures e.SwapReserve? ==> StepSwapReserve(w, e.s, e.inputs, e.outputs, e.verified, e.c).melting == w.melting
    ensures e.SwapSettle? ==> StepSwapSettle(w, e.s, e.o).melting == w.melting
    ensures e.SwapClean? ==> StepSwapClean(w, e.s, e.c).melting == w.melting
    ensures e.MintLoad? ==> StepMintLoad(w, e.m, e.toIssue).melting == w.melting
    ensures e.MintReconcile? ==> StepMintReconcile(w, e.m, e.status, e.c).melting == w.melting
    ensures e.MintIssue? ==> StepMintIssue(w, e.m, e.c).melting == w.melting
  {
    hide ValidateSwap, ReserveSwap, AsPending, SettleSwapBlock, DeleteProofs, Ys, ValidateIssuance, ReconcileMint,
      IssueMint;
  }

  lemma SameMelt(w: World, e: Event, q: QuoteId)
    requires !OnMelts(e)
    ensures MeltAfter(w, e, q) == Lookup(w.melting, q)
  {
    hide Reservable, ValidateMelt, FirstStage;
  }

  /** A melt, or a refresh of one, likewise. */
  lemma MeltInFlight(w: World, e: Event, q: QuoteId)
    ensures Lookup(Step(w, e).melting, q) == MeltAfter(w, e, q)
  {
    hide Lookup, MeltAfter, Step, StepMeltReserve, StepPayInvoice, StepPayConfirmed, StepPayDoubted, StepRecheck,
      StepFinalize, StepRefreshRead, StepRefreshSettled, StepRefreshFailed;
    StepOfSwap(w, e);
    StepOfMelt(w, e);
    StepOfRefresh(w, e);
    match e
    case MeltReserve(r, inputs, outputs, verified, c) => ReservingFlight(w, e, q);
    case PayInvoice(r, attempt) => PayingFlight(w, e, q);
    case PayConfirmed(r, fee, preimage) => PayingFlight(w, e, q);
    case PayDoubted(r, checkingId, c) => DoubtFlight(w, e, q);
    case Recheck(r, status, fee, c) => RecheckFlight(w, e, q);
    case Finalize(r, c) => FinalizeFlight(w, e, q);
    case RefreshSettled(r, fee, preimage, msgs, c) => RecoverFlight(w, e, q);
    case RefreshFailed(r, c) => FailedFlight(w, e, q);
    case RefreshRead(r, rows) => ReadFlight(w, e, q);
    case MeltAbort(r) => MeltLost(w, e, q);
    case Crash => MeltLost(w, e, q);
    case _ => MeltsLeftAlone(w, e);
              SameMelt(w, e, q);
  }

  // ----- mint quotes -----

  /** A refresh starts for an UNPAID quote, a request to issue for outputs that pass its tests. */
  ghost predicate StartsMint(w: World, e: Event, m: QuoteId)
  {
    && e.MintLoad? && e.m == m && m in w.t.mints
    && match e.toIssue
       case None => w.t.mints[m].state == UNPAID
       case Some(outputs) => Issuable(w.ks, w.t, m, outputs) && WorthOf(w.t.mints[m], outputs)
  }

  ghost predicate WorthOf(mint: MintQuote, outputs: seq<BlindedMessage>)
  {
    mint.request.msat ==
      (if mint.unit == Sat then 1000 * SumOf(OutputAmount(), outputs) else SumOf(OutputAmount(), outputs))
      % 0x1_0000_0000_0000_0000
  }

  /** A refresh is over with the write of the answer; a request to issue goes on if that was acknowledged. */
  ghost predicate EndsMint(w: World, e: Event, m: QuoteId)
    requires m in w.minting
  {
    || e.Crash?
    || (e.MintAbort? && e.m == m)
    || (m in w.t.mints && (
          || (e.MintReconcile? && e.m == m && w.minting[m].quote.state != PAID
              && (e.c != Committed || w.minting[m].outputs.None?))
          || (e.MintIssue? && e.m == m && w.minting[m].outputs.Some?)))
  }

  /** The row as it is after the backend's answer was written into it. */
  function Answer(row: MintQuote, status: PaymentStatus, minted: bool): MintQuote
  {
    match status
    case SETTLED => row.(state := PAID, minted := minted)
    case FAILED => row.(state := UNPAID, minted := minted)
    case WAITING => row
    case UNKNOWN => row
  }

  /** What a request holds after a step, if it is in flight: the row as it read it, or as it last wrote it. */
  ghost function MintAfter(w: World, e: Event, m: QuoteId): Option<MintPhase>
  {
    if StartsMint(w, e, m) then Some(MintPhase(w.t.mints[m], e.toIssue))
    else if m !in w.minting || EndsMint(w, e, m) then None
    else
      var p := w.minting[m];
      Some(if e.MintReconcile? && e.m == m && m in w.t.mints && p.quote.state != PAID
           then p.(quote := Answer(w.t.mints[m], e.status, p.quote.minted)) else p)
  }

  lemma AnswerIs(t: Tables, m: QuoteId, status: PaymentStatus, minted: bool)
    requires m in t.mints
    ensures var t' := ReconcileMint(t, m, status == SETTLED, status == FAILED, minted);
      m in t'.mints && t'.mints[m] == Answer(t.mints[m], status, minted)
  {
  }

  lemma LoadFlight(w: World, e: Event, m: QuoteId)
    requires e.MintLoad?
    ensures Lookup(StepMintLoad(w, e.m, e.toIssue).minting, m) == MintAfter(w, e, m)
  {
    if e.toIssue.Some? {
      IssuanceAcceptedIff(w.ks, w.t, e.m, e.toIssue.value);
    }
    hide ValidateIssuance, Issuable;
  }

  lemma ReconcileElsewhere(w: World, e: Event, m: QuoteId)
    requires e.MintReconcile? && e.m != m
    ensures Lookup(StepMintReconcile(w, e.m, e.status, e.c).minting, m) == Lookup(w.minting, m) == MintAfter(w, e, m)
  {
    if e.m in w.minting && e.m in w.t.mints {
      AnswerIs(w.t, e.m, e.status, w.minting[e.m].quote.minted);
    }
    hide ReconcileMint, Answer, Issuable, WorthOf;
  }

  lemma ReconcileFlight(w: World, e: Event, m: QuoteId)
    requires e.MintReconcile? && e.m == m
    ensures Lookup(StepMintReconcile(w, m, e.status, e.c).minting, m) == MintAfter(w, e, m)
  {
    if m in w.minting && m in w.t.mints {
      AnswerIs(w.t, m, e.status, w.minting[m].quote.minted);
    }
    hide ReconcileMint, Answer, Issuable, WorthOf;
  }

  lemma IssueFlight(w: World, e: Event, m: QuoteId)
    requires e.MintIssue?
    ensures Lookup(StepMintIssue(w, e.m, e.c).minting, m) == MintAfter(w, e, m)
  {
    hide IssueMint, Issuable, WorthOf, Answer;
  }

  lemma MintLost(w: World, e: Event, m: QuoteId)
    ensures e.MintAbort? ==> Lookup(w.minting - {e.m}, m) == MintAfter(w, e, m)
    ensures e.Crash? ==> Lookup(map[], m) == MintAfter(w, e, m)
  {
    hide Issuable, WorthOf, Answer;
  }

  predicate OnMints(e: Event)
  {
    e.MintLoad? || e.MintReconcile? || e.MintIssue? || e.MintAbort? || e.Crash?
  }

  lemma MintsLeftAlone(w: World, e: Event)
    requires !OnMints(e)
    ensures Step(w, e).minting == w.minting
  {
    hide StepSwapReserve, StepSwapSettle, StepSwapClean, StepMeltReserve, StepRecheck, StepFinalize, StepRefreshSettled,
      StepRefreshFailed, StepPayDoubted, SaveMintQuote, SaveMeltQuote, Rotate;
    SwapsLeaveMints(w, e);
    MeltsLeaveMints(w, e);
  }

  lemma SwapsLeaveMints(w: World, e: Event)
    ensures e.SwapReserve? ==> StepSwapReserve(w, e.s, e.inputs, e.outputs, e.verified, e.c).minting == w.minting
    ensures e.SwapSettle? ==> StepSwapSettle(w, e.s, e.o).minting == w.minting
    ensures e.SwapClean? ==> StepSwapClean(w, e.s, e.c).minting == w.minting
  {
    hide ValidateSwap, ReserveSwap, AsPending, SettleSwapBlock, DeleteProofs, Ys;
  }

  lemma MeltsLeaveMints(w: World, e: Event)
    ensures e.MeltReserve? ==> StepMeltReserve(w, e.q, e.inputs, e.outputs, e.verified, e.c).minting == w.minting
    ensures e.PayDoubted? ==> StepPayDoubted(w, e.q, e.checkingId, e.c).minting == w.minting
    ensures e.Recheck? ==> StepRecheck(w, e.q, e.status, e.fee, e.c).minting == w.minting
    ensures e.Finalize? ==> StepFinalize(w, e.q, e.c).minting == w.minting
    ensures e.RefreshSettled? ==> StepRefreshSettled(w, e.q, e.fee, e.preimage, e.msgs, e.c).minting == w.minting
    ensures e.RefreshFailed? ==> StepRefreshFailed(w, e.q, e.c).minting == w.minting
  {
    hide ValidateMelt, ReserveMelt, AsPendingFor, SetMelt, ReleaseMelt, FinalizeMelt, RecoverMelt, Ys;
  }

  lemma SameMint(w: World, e: Event, m: QuoteId)
    requires !OnMints(e)
    ensures MintAfter(w, e, m) == Lookup(w.minting, m)
  {
    hide Issuable, WorthOf, Answer;
  }

  /** A request on a mint quote likewise. */
  lemma MintInFlight(w: World, e: Event, m: QuoteId)
    ensures Lookup(Step(w, e).minting, m) == MintAfter(w, e, m)
  {
    hide Lookup, MintAfter, Step, StepMintLoad, StepMintReconcile, StepMintIssue;
    StepOfSwap(w, e);
    StepOfRefresh(w, e);
    match e
    case MintLoad(n, toIssue) => LoadFlight(w, e, m);
    case MintReconcile(n, status, c) =>
      if n == m {
        ReconcileFlight(w, e, m);
      } else {
        ReconcileElsewhere(w, e, m);
      }
    case MintIssue(n, c) => IssueFlight(w, e, m);
    case MintAbort(n) => MintLost(w, e, m);
    case Crash => MintLost(w, e, m);
    case _ => MintsLeftAlone(w, e);
              SameMint(w, e, m);
  }
}
