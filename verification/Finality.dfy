/**
 * What no later step takes back: spent proofs, paid melts with their inputs, and the order of a mint quote's states.
 */
module Finality {
  import opened Prelude
  import opened Totals
  import opened Cashu
  import opened Store
  import opened Fees
  import opened Transactions
  import opened World
  import opened Invariant
  import opened MeltSteps
  import opened Settlement
  import opened Reserve
  import opened MintSteps
  import opened SwapSteps

  ghost predicate IsPaid(t: Tables, q: QuoteId)
  {
    q in t.melts && t.melts[q].state == PAID && t.melts[q].melted
  }

  /** A paid melt quote stays paid, for the same amount. */
  ghost predicate PaidStays(t: Tables, t': Tables, q: QuoteId)
  {
    IsPaid(t, q) ==> IsPaid(t', q) && t'.melts[q].amount == t.melts[q].amount
  }

  function Rank(state: ActionState): nat
  {
    match state case UNPAID => 0 case PENDING => 1 case PAID => 2 case ISSUED => 3
  }

  ghost predicate RowStays(t: Tables, t': Tables, y: Point)
  {
    y in t.proofs && t.proofs[y].quote.Some? && IsPaid(t, t.proofs[y].quote.value) ==>
      y in t'.proofs && t'.proofs[y].quote == t.proofs[y].quote
  }

  ghost predicate MintAdvances(t: Tables, t': Tables, m: QuoteId)
  {
    m in t.mints ==>
      && m in t'.mints && t'.mints[m].request == t.mints[m].request && t'.mints[m].unit == t.mints[m].unit
      && Rank(t.mints[m].state) <= Rank(t'.mints[m].state)
  }

  /** Paid melts and signatures stay, inputs of paid melts too, mint quotes only move from UNPAID to PAID to ISSUED. */
  ghost predicate Forward(t: Tables, t': Tables)
  {
    && t.sigs.Keys <= t'.sigs.Keys && (forall q :: PaidStays(t, t', q))
    && (forall y :: RowStays(t, t', y))
    && (forall m :: MintAdvances(t, t', m))
  }

  /** The part of it that needs no condition: paid melts, their inputs and signatures stay. */
  ghost predicate Onward(t: Tables, t': Tables)
  {
    t.sigs.Keys <= t'.sigs.Keys && (forall q :: PaidStays(t, t', q)) && forall y :: RowStays(t, t', y)
  }

  lemma ForwardIsOnward(t: Tables, t': Tables)
    requires Forward(t, t')
    ensures Onward(t, t')
  {
  }

  lemma NoStep(t: Tables)
    ensures Forward(t, t)
  {
  }

  lemma ForwardFurther(t: Tables, t': Tables, t'': Tables)
    requires Forward(t, t') && Forward(t', t'')
    ensures Forward(t, t'')
  {
    forall q ensures PaidStays(t, t'', q) {
      assert PaidStays(t, t', q) && PaidStays(t', t'', q);
    }
    forall y ensures RowStays(t, t'', y) {
      assert RowStays(t, t', y) && RowStays(t', t'', y);
      if y in t.proofs && t.proofs[y].quote.Some? {
        assert PaidStays(t, t', t.proofs[y].quote.value);
      }
    }
    forall m ensures MintAdvances(t, t'', m) {
      assert MintAdvances(t, t', m) && MintAdvances(t', t'', m);
    }
  }

  lemma OnwardFurther(t: Tables, t': Tables, t'': Tables)
    requires Onward(t, t') && Onward(t', t'')
    ensures Onward(t, t'')
  {
    forall q ensures PaidStays(t, t'', q) {
      assert PaidStays(t, t', q) && PaidStays(t', t'', q);
    }
    forall y ensures RowStays(t, t'', y) {
      assert RowStays(t, t', y) && RowStays(t', t'', y);
      if y in t.proofs && t.proofs[y].quote.Some? {
        assert PaidStays(t, t', t.proofs[y].quote.value);
      }
    }
  }

  // ----- the kinds of writes -----

  lemma RowsAdded(t: Tables, t': Tables)
    requires t'.melts == t.melts && t'.mints == t.mints && t.sigs.Keys <= t'.sigs.Keys
    requires forall y | y in t.proofs :: y in t'.proofs && t'.proofs[y].quote == t.proofs[y].quote
    ensures Forward(t, t')
  {
  }

  lemma MintWritten(t: Tables, t': Tables, m: QuoteId, mint: MintQuote)
    requires t'.proofs == t.proofs && t'.melts == t.melts && t'.mints == t.mints[m := mint]
    requires t.sigs.Keys <= t'.sigs.Keys
    requires m in t.mints ==>
      mint.request == t.mints[m].request && mint.unit == t.mints[m].unit && Rank(t.mints[m].state) <= Rank(mint.state)
    ensures Forward(t, t')
  {
  }

  lemma MeltWritten(t: Tables, t': Tables, q: QuoteId, quote: MeltQuote)
    requires t'.melts == t.melts[q := quote] && t'.mints == t.mints && t.sigs.Keys <= t'.sigs.Keys
    requires IsPaid(t, q) ==> quote.state == PAID && quote.melted && quote.amount == t.melts[q].amount
    requires forall y | y in t.proofs :: y in t'.proofs && t'.proofs[y].quote == t.proofs[y].quote
    ensures Forward(t, t')
  {
  }

  lemma RowsReleased(t: Tables, t': Tables, q: QuoteId, quote: MeltQuote, ys: set<Point>)
    requires t'.melts == t.melts[q := quote] && t'.mints == t.mints && !IsPaid(t, q) && t.sigs.Keys <= t'.sigs.Keys
    requires t'.proofs == t.proofs - ys
    requires forall y | y in ys && y in t.proofs :: t.proofs[y].quote == Some(q)
    ensures Forward(t, t')
  {
  }

  // ----- the steps -----

  lemma SwapReserveForward(
      w: World, s: nat, inputs: seq<Proof>, outputs: seq<BlindedMessage>, verified: bool, c: Commit)
    ensures Forward(w.t, StepSwapReserve(w, s, inputs, outputs, verified, c).t)
  {
    hide Forward, ValidateSwap, ReserveSwap;
    NoStep(w.t);
    if ReserveSwap(w.t, inputs, outputs).Ok? {
      ReservedSwapRows(w.t, inputs, outputs);
      RowsAdded(w.t, ReserveSwap(w.t, inputs, outputs).value);
    }
  }

  lemma ReservedSwapRows(t: Tables, inputs: seq<Proof>, outputs: seq<BlindedMessage>)
    requires ReserveSwap(t, inputs, outputs).Ok?
    ensures var t' := ReserveSwap(t, inputs, outputs).value;
      t'.melts == t.melts && t'.mints == t.mints && t.sigs.Keys <= t'.sigs.Keys
      && forall y | y in t.proofs :: y in t'.proofs && t'.proofs[y].quote == t.proofs[y].quote
  {
  }

  lemma SettledSwapRows(ks: Keysets, t: Tables, inputs: seq<Proof>, outputs: seq<BlindedMessage>, o: SwapOutcome)
    ensures var t' := SettleSwapBlock(ks, t, inputs, outputs, o).t;
      t'.melts == t.melts && t'.mints == t.mints && t.sigs.Keys <= t'.sigs.Keys
      && forall y | y in t.proofs :: y in t'.proofs && t'.proofs[y].quote == t.proofs[y].quote
  {
  }

  lemma SwapSettleForward(w: World, s: nat, o: SwapOutcome)
    ensures Forward(w.t, StepSwapSettle(w, s, o).t)
  {
    hide Forward, SettleSwapBlock;
    NoStep(w.t);
    if s in w.swapping && w.swapping[s].SwapReserved? {
      var end := SettleSwapBlock(w.ks, w.t, w.swapping[s].inputs, w.swapping[s].outputs, o);
      SettledSwapRows(w.ks, w.t, w.swapping[s].inputs, w.swapping[s].outputs, o);
      RowsAdded(w.t, end.t);
    }
  }

  lemma SwapCleanForward(w: World, s: nat, c: Commit)
    requires Inv(w)
    ensures Forward(w.t, StepSwapClean(w, s, c).t)
  {
    NoStep(w.t);
    if s in w.swapping {
      SwapKnown(w, s);
      CleanedForward(w, w.swapping[s].inputs);
    }
    hide Inv, Forward, Pending, DistinctYs, Ys;
  }

  lemma CleanedForward(w: World, ps: seq<Proof>)
    requires SwapRows(w, Ys(ps))
    ensures Forward(w.t, DeleteProofs(w.t, ps))
  {
  }

  lemma MeltReserveForward(
      w: World, q: QuoteId, inputs: seq<Proof>, outputs: seq<BlindedMessage>, verified: bool, c: Commit)
    ensures Forward(w.t, StepMeltReserve(w, q, inputs, outputs, verified, c).t)
  {
    NoStep(w.t);
    if ReserveMelt(w.t, q, inputs, outputs).Ok? {
      ReservedTables(w.t, q, inputs, outputs);
      ReservedForward(w.t, q, inputs, outputs);
    }
    hide Forward, ValidateMelt, ReserveMelt, AsPendingFor, Base, InternalTables, MintByRequest, CanInsert;
  }

  lemma ReservedForward(t: Tables, q: QuoteId, inputs: seq<Proof>, outputs: seq<BlindedMessage>)
    requires q in t.melts && !t.melts[q].melted && CanInsert(t.proofs, AsPendingFor(inputs, q))
    ensures Forward(t, Base(t, q, inputs, outputs))
    ensures forall m | m in t.mints && t.mints[m].state == UNPAID ::
      Forward(t, InternalTables(Base(t, q, inputs, outputs), q, m))
  {
    BaseForward(t, q, inputs, outputs);
    forall m | m in t.mints && t.mints[m].state == UNPAID
      ensures Forward(t, InternalTables(Base(t, q, inputs, outputs), q, m))
    {
      var base := Base(t, q, inputs, outputs);
      var settled := base.(melts := base.melts[q := base.melts[q].(state := PAID, melted := true, feePaid := 0)]);
      MeltWritten(base, settled, q, settled.melts[q]);
      MintWritten(settled, InternalTables(base, q, m), m, t.mints[m].(state := PAID));
      hide Forward, Base;
      ForwardFurther(base, settled, InternalTables(base, q, m));
      ForwardFurther(t, base, InternalTables(base, q, m));
    }
  }

  lemma BaseForward(t: Tables, q: QuoteId, inputs: seq<Proof>, outputs: seq<BlindedMessage>)
    requires q in t.melts && !t.melts[q].melted && CanInsert(t.proofs, AsPendingFor(inputs, q))
    ensures Forward(t, Base(t, q, inputs, outputs))
  {
  }

  lemma PendingNotPaid(w: World, q: QuoteId)
    requires Inv(w) && q in w.melting && !w.melting[q].Confirmed?
    ensures !IsPaid(w.t, q) && q in w.t.melts
    ensures w.melting[q].Refreshing? ==> Ys(w.melting[q].rows) == RowsOf(w.t.proofs, q).Keys
    ensures !w.melting[q].Refreshing? ==> Ys(w.melting[q].inputs) == RowsOf(w.t.proofs, q).Keys
  {
    hide Inv;
    PhaseRows(w, q);
  }

  lemma PayDoubtedForward(w: World, q: QuoteId, checkingId: string, c: Commit)
    requires Inv(w)
    ensures Forward(w.t, StepPayDoubted(w, q, checkingId, c).t)
  {
    hide Inv, Forward, Ys, RowsOf;
    NoStep(w.t);
    if q in w.melting && w.melting[q].Sent? && c != NotApplied {
      PendingNotPaid(w, q);
      MeltWritten(w.t, StepPayDoubted(w, q, checkingId, c).t, q, w.t.melts[q].(checkingId := checkingId));
    }
  }

  lemma RecheckForward(w: World, q: QuoteId, status: PaymentStatus, fee: nat, c: Commit)
    requires Inv(w)
    ensures Forward(w.t, StepRecheck(w, q, status, fee, c).t)
  {
    hide Inv, Forward, Ys;
    NoStep(w.t);
    if q in w.melting && w.melting[q].Doubtful? && c != NotApplied {
      PendingNotPaid(w, q);
      var t' := StepRecheck(w, q, status, fee, c).t;
      if status == SETTLED || status == WAITING {
        MeltWritten(w.t, t', q, t'.melts[q]);
      } else {
        RowsReleased(w.t, t', q, t'.melts[q], Ys(w.melting[q].inputs));
      }
    }
  }

  lemma RefreshFailedForward(w: World, q: QuoteId, c: Commit)
    requires Inv(w)
    ensures Forward(w.t, StepRefreshFailed(w, q, c).t)
  {
    hide Inv, Forward, Ys;
    NoStep(w.t);
    if q in w.melting && w.melting[q].Refreshing? && c != NotApplied {
      PendingNotPaid(w, q);
      var t' := StepRefreshFailed(w, q, c).t;
      RowsReleased(w.t, t', q, t'.melts[q], Ys(w.melting[q].rows));
    }
  }

  lemma MarkedPaid(t: Tables, t': Tables, q: QuoteId, ys: set<Point>, fee: nat, preimage: string)
    requires q in t.melts && t'.mints == t.mints && t'.melts == t.melts[q := PaidQuote(t.melts[q], fee, preimage)]
    requires t'.proofs == SetState(t.proofs, ys, ProofSpent) && t.sigs.Keys <= t'.sigs.Keys
    ensures Forward(t, t')
  {
  }

  lemma FinalizeMarks(
      ks: Keysets, t: Tables, q: QuoteId, inputs: seq<Proof>, outputs: seq<BlindedMessage>, fee: nat, preimage: string)
    requires q in t.melts
    ensures var r := FinalizeMelt(ks, t, q, inputs, outputs, fee, preimage);
      r.Ok? ==> r.value == MarkPaid(t, q, Ys(inputs), fee, preimage).(sigs := r.value.sigs, change := r.value.change)
    ensures var r := FinalizeMelt(ks, t, q, inputs, outputs, fee, preimage); r.Ok? ==> t.sigs.Keys <= r.value.sigs.Keys
  {
  }

  lemma RecoverMarks(
      ks: Keysets, t: Tables, q: QuoteId, rows: seq<Proof>, msgs: seq<BlindedMessage>, fee: nat, preimage: string)
    requires q in t.melts
    ensures var r := RecoverMelt(ks, t, q, rows, msgs, fee, preimage);
      r.Ok? ==> r.value == MarkPaid(t, q, Ys(rows), fee, preimage).(sigs := r.value.sigs, change := r.value.change)
    ensures var r := RecoverMelt(ks, t, q, rows, msgs, fee, preimage); r.Ok? ==> t.sigs.Keys <= r.value.sigs.Keys
  {
  }

  lemma FinalizeForward(w: World, q: QuoteId, c: Commit)
    ensures Forward(w.t, StepFinalize(w, q, c).t)
  {
    hide Forward, FinalizeMelt, Ys, SetState, PaidQuote;
    NoStep(w.t);
    var t' := StepFinalize(w, q, c).t;
    if t' != w.t {
      FinalizeMarks(w.ks, w.t, q, w.melting[q].inputs, w.melting[q].outputs, w.melting[q].fee, w.melting[q].preimage);
      MarkedPaid(w.t, t', q, Ys(w.melting[q].inputs), w.melting[q].fee, w.melting[q].preimage);
    }
  }

  lemma RefreshSettledForward(w: World, q: QuoteId, fee: nat, preimage: string, msgs: seq<BlindedMessage>, c: Commit)
    ensures Forward(w.t, StepRefreshSettled(w, q, fee, preimage, msgs, c).t)
  {
    hide Forward, RecoverMelt, Ys, SetState, PaidQuote;
    NoStep(w.t);
    var t' := StepRefreshSettled(w, q, fee, preimage, msgs, c).t;
    if t' != w.t {
      RecoverMarks(w.ks, w.t, q, w.melting[q].rows, msgs, fee, preimage);
      MarkedPaid(w.t, t', q, Ys(w.melting[q].rows), fee, preimage);
    }
  }

  lemma MintRewritten(t: Tables, t': Tables, m: QuoteId, mint: MintQuote)
    requires t' == t.(mints := t.mints[m := mint])
    ensures Onward(t, t')
  {
  }

  lemma MintReconcileForward(w: World, m: QuoteId, status: PaymentStatus, c: Commit)
    requires Inv(w)
    ensures Onward(w.t, StepMintReconcile(w, m, status, c).t)
    ensures !Stale(w, m) ==> Forward(w.t, StepMintReconcile(w, m, status, c).t)
  {
    hide Inv, Forward, Onward, MintOk;
    NoStep(w.t);
    ForwardIsOnward(w.t, w.t);
    if m in w.minting && w.minting[m].quote.state != PAID && c != NotApplied {
      MintingIn(w, m);
      ReconcileWrites(w, m, status, c);
      var t' := StepMintReconcile(w, m, status, c).t;
      MintRewritten(w.t, t', m, t'.mints[m]);
      if !Stale(w, m) {
        MintWritten(w.t, t', m, t'.mints[m]);
      }
    }
  }

  lemma MintIssueForward(w: World, m: QuoteId, c: Commit)
    ensures Forward(w.t, StepMintIssue(w, m, c).t)
  {
    hide Forward, CanSign, CanInsertSigs, SigMap, SigsFor;
    NoStep(w.t);
    var t' := StepMintIssue(w, m, c).t;
    if t' != w.t {
      MintWritten(w.t, t', m, t'.mints[m]);
    }
  }

  lemma CreateForward(w: World, e: Event)
    requires e.CreateMintQuote? || e.CreateMeltQuote?
    ensures Forward(w.t, Step(w, e).t)
  {
    hide Forward;
    NoStep(w.t);
    var t' := Step(w, e).t;
    if t' != w.t {
      if e.CreateMintQuote? {
        MintWritten(w.t, t', e.m, t'.mints[e.m]);
      } else {
        MeltWritten(w.t, t', e.q, t'.melts[e.q]);
      }
    }
  }

  predicate WritesNoTable(e: Event)
  {
    || e.RotateKeyset? || e.SwapAbort? || e.PayInvoice? || e.PayConfirmed? || e.MeltAbort? || e.RefreshRead?
    || e.LightningProgress? || e.InvoicePaid? || e.MintLoad? || e.MintAbort? || e.Crash?
  }

  lemma NothingWritten(w: World, e: Event)
    requires WritesNoTable(e)
    ensures Step(w, e).t == w.t
  {
    hide Rotate, ValidateIssuance, StepSwapReserve, StepSwapSettle, StepSwapClean, StepMeltReserve, StepPayDoubted,
      StepRecheck, StepFinalize, StepRefreshSettled, StepRefreshFailed, StepMintReconcile, StepMintIssue,
      SaveMintQuote, SaveMeltQuote;
  }

  /** Every step keeps paid melts, their inputs and signatures; mint quotes too, unless a stale row is written back. */
  lemma StepForward(w: World, e: Event)
    requires Inv(w)
    ensures Onward(w.t, Step(w, e).t)
    ensures !(e.MintReconcile? && Stale(w, e.m)) ==> Forward(w.t, Step(w, e).t)
  {
    hide Inv, Forward, Onward, Stale, Rotate, StepSwapReserve, StepSwapSettle, StepSwapClean, StepMeltReserve,
      StepPayDoubted, StepRecheck, StepFinalize, StepRefreshSettled, StepRefreshFailed, StepMintReconcile,
      StepMintIssue, SaveMintQuote, SaveMeltQuote;
    if WritesNoTable(e) {
      NothingWritten(w, e);
      NoStep(w.t);
    }
    match e {
    case CreateMintQuote(_, _, _, _) => CreateForward(w, e);
    case CreateMeltQuote(_, _, _, _, _, _, _, _) => CreateForward(w, e);
    case SwapReserve(s, inputs, outputs, verified, c) => SwapReserveForward(w, s, inputs, outputs, verified, c);
    case SwapSettle(s, o) => SwapSettleForward(w, s, o);
    case SwapClean(s, c) => SwapCleanForward(w, s, c);
    case MeltReserve(q, inputs, outputs, verified, c) => MeltReserveForward(w, q, inputs, outputs, verified, c);
    case PayDoubted(q, checkingId, c) => PayDoubtedForward(w, q, checkingId, c);
    case Recheck(q, status, fee, c) => RecheckForward(w, q, status, fee, c);
    case Finalize(q, c) => FinalizeForward(w, q, c);
    case RefreshSettled(q, fee, preimage, msgs, c) => RefreshSettledForward(w, q, fee, preimage, msgs, c);
    case RefreshFailed(q, c) => RefreshFailedForward(w, q, c);
    case MintReconcile(m, status, c) => MintReconcileForward(w, m, status, c);
    case MintIssue(m, c) => MintIssueForward(w, m, c);
    case _ =>
    }
    if !e.MintReconcile? {
      hide Step;
      ForwardIsOnward(w.t, Step(w, e).t);
    }
  }
}
