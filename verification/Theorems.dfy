/** What holds over every run of the mint from its first start, whatever fails, crashes or interleaves. */
module Theorems {
  import opened Prelude
  import opened Totals
  import opened Cashu
  import opened Store
  import opened Amounts
  import opened Fees
  import opened Transactions
  import opened Exact
  import opened World
  import opened Invariant
  import opened MeltSteps
  import opened Settlement
  import opened MintSteps
  import opened SwapSteps
  import opened Finality
  import opened Billing
  import opened Ledger

  /** The world after a run that meets the assumptions, from the mint's first start with some keysets. */
  ghost predicate Reached(w: World, ks: Keysets, es: seq<Event>)
  {
    FeesFit(ks) && AssumedRun(Start(ks), es) && w == Run(Start(ks), es)
  }

  lemma ReachedInv(w: World, ks: Keysets, es: seq<Event>)
    requires Reached(w, ks, es) && SwapsNameNoQuote(Start(ks), es)
    ensures Inv(w)
  {
    hide Inv, FeesFit, AssumedRun, Run;
    StartKeepsInv(ks);
    RunKeepsInv(Start(ks), es);
  }

  // ----- conservation -----

  /** What the mint signed, what lightning took and what the mint owes is covered by what it received and consumed. */
  ghost predicate ValueKept(w: World, u: Unit)
  {
    Total(Signed(w, u)) + Total(PaidOut(w, u)) + Total(Owed(w, u)) <= Total(Received(w, u)) + Total(Consumed(w, u))
  }

  lemma ValueKeptOf(w: World, u: Unit)
    requires Inv(w)
    ensures ValueKept(w, u)
  {
    hide TablesOk, MeltsOk, SwapsOk, MintsOk, LogOk, Signed, Owed, Received, Consumed, Total, Surpluses, PaidOut;
    assert Conserved(w, u);
  }

  /**
   * In every unit, the value of all signatures handed out, of what lightning took for all payments that went through
   * and of all paid mint quotes still to be issued never exceeds what lightning brought in plus the value of the
   * consumed inputs. What lightning took is the backend's answer when the quote was made and the payment's fee, not
   * the quote's row.
   */
  lemma Conservation(w: World, ks: Keysets, es: seq<Event>, u: Unit)
    requires Reached(w, ks, es) && SwapsNameNoQuote(Start(ks), es)
    ensures var bills := Bills(Start(ks), es);
      Total(Signed(w, u)) + Total(Taken(w, bills, u)) + Total(Owed(w, u))
        <= Total(Received(w, u)) + Total(Consumed(w, u))
  {
    hide Inv, AssumedRun, Run, Bills, SwapsNameNoQuote, Signed, PaidOut, Taken, Owed, Received, Consumed, Total,
      FeesFit, QuotesBilled, OutgoingBilled;
    ReachedInv(w, ks, es);
    ValueKeptOf(w, u);
    RunIsBilled(Start(ks), es);
    TakenIsOutflow(w, Bills(Start(ks), es), u);
  }

  /** A PAID melt quote that lightning paid records what lightning took: bill and fee. */
  lemma RecordsWhatWasTaken(w: World, ks: Keysets, es: seq<Event>, q: QuoteId)
    requires Reached(w, ks, es) && SwapsNameNoQuote(Start(ks), es)
    requires q in w.t.melts && w.t.melts[q].state == PAID && q in w.ln
    ensures var bills := Bills(Start(ks), es);
      && w.ln[q].Settled? && q in bills
      && w.t.melts[q].amount == bills[q].amount && w.t.melts[q].feePaid == w.ln[q].fee
  {
    hide Inv, Run, AssumedRun, Bills, SwapsNameNoQuote, FeesFit, MeltOk, View;
    ReachedInv(w, ks, es);
    SentAsksForBill(ks, es, q);
    MeltOkOf(w, q);
    AttemptOf(w, q);
    PaidRecord(w.ks, View(w, q));
  }

  lemma AttemptOf(w: World, q: QuoteId)
    requires q in w.t.melts
    ensures View(w, q).attempt == Lookup(w.ln, q) && View(w, q).quote == w.t.melts[q]
  {
  }

  lemma PaidRecord(ks: Keysets, v: MeltView)
    requires MeltOk(ks, v) && v.quote.state == PAID && v.attempt.Some?
    ensures v.attempt.value.Settled? && v.attempt.value.fee == v.quote.feePaid
  {
  }

  // ----- no double spend -----

  lemma {:induction false} LoggedOnce(log: seq<Entry>, i: nat, j: nat)
    requires NothingTwice(log) && i < j < |log|
    ensures EntryYs(log[i]) !! EntryYs(log[j]) && EntryMints(log[i]) !! EntryMints(log[j])
  {
    var n := |log| - 1;
    if j < n {
      LoggedOnce(log[..n], i, j);
    } else {
      LoggedIn(log[..n], i);
    }
  }

  lemma {:induction false} LoggedIn(log: seq<Entry>, i: nat)
    requires i < |log|
    ensures EntryYs(log[i]) <= SpentYs(log) && EntryMints(log[i]) <= IssuedMints(log)
  {
    if i < |log| - 1 {
      LoggedIn(log[..|log| - 1], i);
    }
  }

  lemma {:induction false} LoggedSomewhere(log: seq<Entry>, y: Point)
    requires y in SpentYs(log)
    ensures exists i :: 0 <= i < |log| && y in EntryYs(log[i])
  {
    var n := |log| - 1;
    if y !in EntryYs(log[n]) {
      LoggedSomewhere(log[..n], y);
      var i :| 0 <= i < n && y in EntryYs(log[..n][i]);
      assert y in EntryYs(log[i]);
    }
  }

  lemma LoggedOnceOf(w: World, i: nat, j: nat)
    requires Inv(w) && i < j < |w.log|
    ensures EntryYs(w.log[i]) !! EntryYs(w.log[j]) && EntryMints(w.log[i]) !! EntryMints(w.log[j])
  {
    hide TablesOk, MeltsOk, SwapsOk, MintsOk, Conserved;
    LoggedOnce(w.log, i, j);
  }

  /** No two committed swaps or melts consume the same Y, and no mint quote is issued twice. */
  lemma NoDoubleSpend(w: World, ks: Keysets, es: seq<Event>, i: nat, j: nat)
    requires Reached(w, ks, es) && SwapsNameNoQuote(Start(ks), es) && i < j < |w.log|
    ensures EntryYs(w.log[i]) !! EntryYs(w.log[j])
    ensures w.log[i].Issued? && w.log[j].Issued? ==> w.log[i].mint != w.log[j].mint
  {
    hide Reached, SwapsNameNoQuote, Inv;
    ReachedInv(w, ks, es);
    LoggedOnceOf(w, i, j);
    assert w.log[i].Issued? ==> w.log[i].mint in EntryMints(w.log[i]);
  }

  ghost predicate SpentMeansConsumed(w: World, y: Point)
  {
    (y in w.t.proofs && w.t.proofs[y].state == ProofSpent) <==> exists i :: 0 <= i < |w.log| && y in EntryYs(w.log[i])
  }

  lemma SpentMeansConsumedOf(w: World, y: Point)
    requires Inv(w)
    ensures SpentMeansConsumed(w, y)
  {
    hide TablesOk, MeltsOk, SwapsOk, MintsOk, Conserved, EntryYs;
    assert y in SpentRows(w.t.proofs) <==> y in SpentYs(w.log);
    if y in SpentYs(w.log) {
      LoggedSomewhere(w.log, y);
    }
    if i :| 0 <= i < |w.log| && y in EntryYs(w.log[i]) {
      LoggedIn(w.log, i);
    }
  }

  /** A Y is SPENT exactly when some committed swap or melt consumed it. */
  lemma SpentIffConsumed(w: World, ks: Keysets, es: seq<Event>, y: Point)
    requires Reached(w, ks, es) && SwapsNameNoQuote(Start(ks), es)
    ensures y in w.t.proofs && w.t.proofs[y].state == ProofSpent
      <==> exists i :: 0 <= i < |w.log| && y in EntryYs(w.log[i])
  {
    hide Reached, SwapsNameNoQuote, Inv, EntryYs;
    ReachedInv(w, ks, es);
    SpentMeansConsumedOf(w, y);
  }

  // ----- what later steps cannot undo -----

  predicate WritesLog(e: Event)
  {
    e.SwapSettle? || e.Finalize? || e.RefreshSettled? || e.MintIssue?
  }

  lemma OnlyPhases(w: World, e: Event)
    requires WritesNoTable(e)
    ensures Step(w, e).log == w.log
  {
    hide Rotate, ValidateIssuance, StepSwapReserve, StepSwapSettle, StepSwapClean, StepMeltReserve, StepPayDoubted,
      StepRecheck, StepFinalize, StepRefreshSettled, StepRefreshFailed, StepMintReconcile, StepMintIssue,
      SaveMintQuote, SaveMeltQuote;
  }

  lemma NothingLogged(w: World, e: Event)
    requires !WritesLog(e) && !WritesNoTable(e)
    ensures Step(w, e).log == w.log
  {
    hide StepSwapReserve, StepMeltReserve, StepSwapClean, StepPayDoubted, StepRecheck, StepRefreshFailed,
      StepMintReconcile, SaveMintQuote, SaveMeltQuote;
    match e
    case SwapReserve(s, inputs, outputs, verified, c) => ReservingLogsNothing(w, e);
    case MeltReserve(q, inputs, outputs, verified, c) => ReservingLogsNothing(w, e);
    case _ => OthersLogNothing(w, e);
  }

  lemma ReservingLogsNothing(w: World, e: Event)
    requires e.SwapReserve? || e.MeltReserve?
    ensures e.SwapReserve? ==> StepSwapReserve(w, e.s, e.inputs, e.outputs, e.verified, e.c).log == w.log
    ensures e.MeltReserve? ==> StepMeltReserve(w, e.q, e.inputs, e.outputs, e.verified, e.c).log == w.log
  {
    hide ReserveSwap, ValidateSwap, ReserveMelt, ValidateMelt, AsPending, AsPendingFor;
  }

  lemma OthersLogNothing(w: World, e: Event)
    ensures e.SwapClean? ==> StepSwapClean(w, e.s, e.c).log == w.log
    ensures e.PayDoubted? ==> StepPayDoubted(w, e.q, e.checkingId, e.c).log == w.log
    ensures e.Recheck? ==> StepRecheck(w, e.q, e.status, e.fee, e.c).log == w.log
    ensures e.RefreshFailed? ==> StepRefreshFailed(w, e.q, e.c).log == w.log
    ensures e.MintReconcile? ==> StepMintReconcile(w, e.m, e.status, e.c).log == w.log
  {
    hide ReleaseMelt, ReconcileMint, DeleteProofs, Ys;
  }

  lemma StepKeepsLog(w: World, e: Event)
    ensures w.log <= Step(w, e).log
  {
    hide SettleSwapBlock, FinalizeMelt, RecoverMelt, IssueMint, Ys;
    if WritesNoTable(e) {
      OnlyPhases(w, e);
    } else if !WritesLog(e) {
      NothingLogged(w, e);
    }
  }

  /** From any state of the invariant on, tables only move forward and the log only grows. */
  lemma {:induction false} FutureForward(w: World, es: seq<Event>)
    requires Inv(w) && AssumedRun(w, es) && SwapsNameNoQuote(w, es)
    ensures Onward(w.t, Run(w, es).t) && w.log <= Run(w, es).log && Inv(Run(w, es))
  {
    hide Inv, Step, Assumed, NamesNoQuote, Forward, Onward;
    RunKeepsInv(w, es);
    NoStep(w.t);
    ForwardIsOnward(w.t, w.t);
    if es != [] {
      var before, e := Run(w, es[..|es| - 1]), es[|es| - 1];
      FutureForward(w, es[..|es| - 1]);
      StepForward(before, e);
      StepKeepsLog(before, e);
      OnwardFurther(w.t, before.t, Step(before, e).t);
    }
  }

  lemma {:induction false} SpentYsGrow(log: seq<Entry>, longer: seq<Entry>)
    requires log <= longer
    ensures SpentYs(log) <= SpentYs(longer)
  {
    if |log| < |longer| {
      SpentYsGrow(log, longer[..|longer| - 1]);
    } else {
      assert log == longer;
    }
  }

  /** SPENT is for ever. */
  lemma SpentIsFinal(w: World, ks: Keysets, es: seq<Event>, more: seq<Event>, y: Point)
    requires Reached(w, ks, es) && SwapsNameNoQuote(Start(ks), es)
    requires AssumedRun(w, more) && SwapsNameNoQuote(w, more)
    requires y in w.t.proofs && w.t.proofs[y].state == ProofSpent
    ensures var w' := Run(w, more); y in w'.t.proofs && w'.t.proofs[y].state == ProofSpent
  {
    hide Reached, SwapsNameNoQuote, TablesOk, MeltsOk, SwapsOk, MintsOk, Conserved, Onward, Run, AssumedRun;
    ReachedInv(w, ks, es);
    FutureForward(w, more);
    var w' := Run(w, more);
    SpentYsGrow(w.log, w'.log);
    assert y in SpentRows(w.t.proofs);
    assert y in SpentRows(w'.t.proofs);
  }

  // ----- melt quotes -----

  /** What a melt quote's state says about its proofs and its saved change messages. */
  ghost predicate Lifecycle(w: World, q: QuoteId)
    requires q in w.t.melts
  {
    var quote, rows := w.t.melts[q], RowsOf(w.t.proofs, q);
    && (quote.state == UNPAID ==> rows == map[] && ChangeOf(w.t.change, q) == [])
    && (quote.state == PENDING ==> rows != map[] && AllIn(rows, ProofPending))
    && (quote.state == PAID ==> rows != map[] && (AllIn(rows, ProofPending) || AllIn(rows, ProofSpent)))
    && (quote.melted <==> quote.state == PAID) && quote.state != ISSUED
  }

  lemma LifecycleOf(w: World, q: QuoteId)
    requires Inv(w) && q in w.t.melts
    ensures Lifecycle(w, q)
  {
    hide Inv, Held, HeldFee, RowsOk, Funded;
    MeltOkOf(w, q);
  }

  lemma MeltLifecycle(w: World, ks: Keysets, es: seq<Event>, q: QuoteId)
    requires Reached(w, ks, es) && SwapsNameNoQuote(Start(ks), es) && q in w.t.melts
    ensures Lifecycle(w, q)
  {
    hide Reached, SwapsNameNoQuote, Inv, Lifecycle;
    ReachedInv(w, ks, es);
    LifecycleOf(w, q);
  }

  /** A PAID melt quote stays PAID and melted, and none of its proofs is ever released. */
  lemma PaidIsFinal(w: World, ks: Keysets, es: seq<Event>, more: seq<Event>, q: QuoteId)
    requires Reached(w, ks, es) && SwapsNameNoQuote(Start(ks), es)
    requires AssumedRun(w, more) && SwapsNameNoQuote(w, more) && q in w.t.melts && w.t.melts[q].state == PAID
    ensures var w' := Run(w, more);
      && q in w'.t.melts && w'.t.melts[q].state == PAID && w'.t.melts[q].melted
      && RowsOf(w.t.proofs, q).Keys <= RowsOf(w'.t.proofs, q).Keys
  {
    hide Reached, SwapsNameNoQuote, Inv, Run, AssumedRun, AllIn;
    MeltLifecycle(w, ks, es, q);
    ReachedInv(w, ks, es);
    FutureForward(w, more);
    var w' := Run(w, more);
    assert PaidStays(w.t, w'.t, q);
    forall y | y in RowsOf(w.t.proofs, q) ensures y in RowsOf(w'.t.proofs, q) {
      assert RowStays(w.t, w'.t, y);
    }
  }

  // ----- crash recovery -----

  /**
   * A payment confirmed to a request that then crashed: recovery from the tables alone leaves the proofs, signatures,
   * change messages and quote that the request itself would have left.
   */
  lemma CrashRecoveryAgrees(w: World, ks: Keysets, es: seq<Event>, q: QuoteId, rows: seq<Proof>)
    requires Reached(w, ks, es) && SwapsNameNoQuote(Start(ks), es) && q in w.melting && w.melting[q].Confirmed?
    requires q in w.t.melts
    requires w.t.melts[q].state == PENDING
    requires ListsRows(rows, RowsOf(w.t.proofs, q))
    ensures var p := w.melting[q];
      RecoverMelt(w.ks, w.t, q, rows, ChangeOf(w.t.change, q), p.fee, p.preimage)
      == FinalizeMelt(w.ks, w.t, q, p.inputs, p.outputs, p.fee, p.preimage)
  {
    hide Reached, SwapsNameNoQuote, Inv, MeltOk, ReadyToSettle, Covers, RecoverMelt, FinalizeMelt, MessagesAreOf;
    ReachedInv(w, ks, es);
    PhaseKnown(w, q);
    var p, v := w.melting[q], View(w, q);
    ConfirmedIsReady(w.ks, v);
    ReadyCovers(w.ks, v, p.inputs, p.fee, p.preimage);
    assert Unvalued(ChangeOf(w.t.change, q)) == Unvalued(p.outputs) by {
      ConfirmedMatches(w.ks, v);
    }
    RecoveryAgrees(w.ks, w.t, q, p.inputs, p.outputs, rows, ChangeOf(w.t.change, q), p.fee, p.preimage);
  }

  lemma ConfirmedMatches(ks: Keysets, v: MeltView)
    requires MeltOk(ks, v) && v.phase.Some? && v.phase.value.Confirmed?
    ensures Unvalued(v.change) == Unvalued(v.phase.value.outputs)
  {
  }

  /** The recovery's unsigned subtraction computes the true, never negative, difference. */
  lemma RecoveryNeverWraps(
      w: World, ks: Keysets, es: seq<Event>, q: QuoteId, rows: seq<Proof>, fee: nat, preimage: string)
    requires Reached(w, ks, es) && SwapsNameNoQuote(Start(ks), es) && q in w.t.melts && w.t.melts[q].state == PENDING
    requires q in w.ln && w.ln[q] == Settled(fee, preimage) && ListsRows(rows, RowsOf(w.t.proofs, q))
    ensures FeeOf(w.ks, rows).Some?
    ensures var spent := w.t.melts[q].amount + fee + FeeOf(w.ks, rows).value;
      spent <= SumOf(AmountOf(), rows) && Wrap(Amount64(rows) - Wrap(spent)) == SumOf(AmountOf(), rows) - spent
  {
    hide Reached, SwapsNameNoQuote, Inv, MeltOk, FeeOf, SumOf, View, ListsRows, Wrap, Amount64;
    ReachedInv(w, ks, es);
    MeltOkOf(w, q);
    ReadyCovers(w.ks, View(w, q), rows, fee, preimage);
    CoveredNeverWraps(w.ks, rows, w.t.melts[q].amount, fee);
  }
}
