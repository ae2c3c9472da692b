/** The invariant holds over every run, and with it everything it says about value. */
module Ledger {
  import opened Prelude
  import opened Totals
  import opened Cashu
  import opened Store
  import opened Fees
  import opened Transactions
  import opened Exact
  import opened World
  import opened Invariant
  import opened Frames
  import opened MeltSteps
  import opened Settlement
  import opened Reserve
  import opened MintSteps
  import opened QuoteSteps
  import opened SwapSteps
  import opened RotateSteps

  lemma StepKeepsInv(w: World, e: Event)
    requires Inv(w) && Assumed(w, e) && NamesNoQuote(w, e)
    ensures Inv(Step(w, e))
  {
    hide Inv, Rotate, StepSwapReserve, StepSwapSettle, StepSwapClean, StepMeltReserve, StepPayInvoice,
      StepPayConfirmed, StepPayDoubted, StepRecheck, StepFinalize, StepRefreshRead, StepRefreshSettled,
      StepRefreshFailed, StepMintLoad, StepMintReconcile, StepMintIssue, SaveMintQuote, SaveMeltQuote, SavesInputs,
      NamesNoMeltQuote, FeeFits, ListsRows, RollbackTells;
    match e
    case RotateKeyset(newId, unit, feePpk) => RotateKeeps(w, newId, unit, feePpk);
    case CreateMintQuote(m, request, unit, c) => CreateMintQuoteKeeps(w, m, request, unit, c);
    case CreateMeltQuote(q, request, unit, mpp, amount, fee, id, c) =>
      CreateMeltQuoteKeeps(w, q, request, unit, mpp, amount, fee, id, c);
    case SwapReserve(s, inputs, outputs, verified, c) => SwapReserveKeeps(w, s, inputs, outputs, verified, c);
    case SwapSettle(s, o) => SwapSettleKeeps(w, s, o);
    case SwapClean(s, c) => SwapCleanKeeps(w, s, c);
    case SwapAbort(s) => SwapAbortKeeps(w, s);
    case MeltReserve(q, inputs, outputs, verified, c) => MeltReserveKeeps(w, q, inputs, outputs, verified, c);
    case PayInvoice(q, attempt) => PayInvoiceKeeps(w, q, attempt);
    case PayConfirmed(q, fee, preimage) => PayConfirmedKeeps(w, q, fee, preimage);
    case PayDoubted(q, checkingId, c) => PayDoubtedKeeps(w, q, checkingId, c);
    case Recheck(q, status, fee, c) => RecheckKeeps(w, q, status, fee, c);
    case Finalize(q, c) => FinalizeKeeps(w, q, c);
    case MeltAbort(q) => DropPhase(w, q);
    case RefreshRead(q, rows) => RefreshReadKeeps(w, q, rows);
    case RefreshSettled(q, fee, preimage, msgs, c) => RefreshSettledKeeps(w, q, fee, preimage, msgs, c);
    case RefreshFailed(q, c) => RefreshFailedKeeps(w, q, c);
    case LightningProgress(q, attempt) =>
      if q in w.ln && w.ln[q] == InFlight { LightningProgressKeeps(w, q, attempt); }
    case InvoicePaid(m) => if m in w.t.mints { InvoicePaidKeeps(w, m); }
    case MintLoad(m, toIssue) => MintLoadKeeps(w, m, toIssue);
    case MintReconcile(m, status, c) => MintReconcileKeeps(w, m, status, c);
    case MintIssue(m, c) => MintIssueKeeps(w, m, c);
    case MintAbort(m) => DropMinting(w, m);
    case Crash => CrashKeeps(w);
  }

  lemma StartKeepsInv(ks: Keysets)
    requires FeesFit(ks)
    ensures Inv(Start(ks))
  {
    hide MeltOk, SwapOk, MintOk;
  }

  lemma {:induction false} RunKeepsInv(w: World, es: seq<Event>)
    requires Inv(w) && AssumedRun(w, es) && SwapsNameNoQuote(w, es)
    ensures Inv(Run(w, es))
  {
    hide Inv, Step, Assumed, NamesNoQuote;
    if es != [] {
      RunKeepsInv(w, es[..|es| - 1]);
      StepKeepsInv(Run(w, es[..|es| - 1]), es[|es| - 1]);
    }
  }
}
