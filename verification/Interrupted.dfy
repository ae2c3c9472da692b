/**
 * A melt that was settled between two quotes of this mint and then interrupted: its quote is PAID, its inputs are still
 * PENDING, and only the request itself could finish it (internal/mint/melting.go).
 */
module Interrupted {
  import opened Prelude
  import opened Totals
  import opened Cashu
  import opened Store
  import opened Amounts
  import opened Fees
  import opened Transactions
  import opened Exact
  import opened World
  import opened Invariant
  import opened MeltSteps
  import opened Settlement
  import opened SwapSteps
  import opened RotateSteps
  import opened Finality
  import opened Ledger
  import opened Theorems

  ghost predicate PaidOpen(w: World, q: QuoteId)
  {
    q in w.t.melts && w.t.melts[q].state == PAID && AllIn(RowsOf(w.t.proofs, q), ProofPending)
  }

  /** The messages that the last block of a melt signs for what was overpaid. */
  ghost function ChangeDue(
      ks: Keysets, amount: nat, inputs: seq<Proof>, outputs: seq<BlindedMessage>, fee: nat): seq<BlindedMessage>
    requires FeeOf(ks, inputs).Some?
  {
    var spent := Wrap(amount + fee + FeeOf(ks, inputs).value);
    if Amount64(inputs) > spent && outputs != [] then ChangeMessages(Amount64(inputs) - spent, outputs) else []
  }

  /** The change that is due can be signed with the keysets in use, and none of it is signed already. */
  ghost predicate ChangeCanBeSigned(
      ks: Keysets, t: Tables, amount: nat, inputs: seq<Proof>, outputs: seq<BlindedMessage>, fee: nat)
  {
    && FeeOf(ks, inputs).Some?
    && var change := ChangeDue(ks, amount, inputs, outputs, fee);
       CanSign(ks, change) && (change == [] || CanInsertSigs(t.sigs, SigsFor(change)))
  }

  /** The request that settled it is still there, and its change can be signed. */
  ghost predicate CanFinish(w: World, q: QuoteId)
  {
    && q in w.melting && w.melting[q].Confirmed? && q in w.t.melts
    && var p := w.melting[q];
       ChangeCanBeSigned(w.ks, w.t, w.t.melts[q].amount, p.inputs, p.outputs, p.fee)
  }

  ghost predicate MeltEntry(e: Entry, q: QuoteId)
  {
    e.SpentByMelt? && e.quote == q
  }

  /** Still PAID, still all PENDING, no row gone, and no block in between that finished it. */
  ghost predicate StaysOpen(w: World, w': World, q: QuoteId)
  {
    && PaidOpen(w', q) && RowsOf(w.t.proofs, q).Keys <= RowsOf(w'.t.proofs, q).Keys && w.log <= w'.log
    && forall i | |w.log| <= i < |w'.log| :: !MeltEntry(w'.log[i], q)
  }

  // ----- once the last block fails, it always will -----

  /** Known keysets keep unit and fee, and none comes back into use. */
  ghost predicate Ages(ks: Keysets, ks': Keysets)
  {
    Grows(ks, ks') && forall id | id in ks && ks'[id].active :: ks[id].active
  }

  lemma RotateAges(ks: Keysets, newId: KeysetId, unit: Unit, feePpk: nat)
    requires FeesFit(ks) && feePpk < FEE_LIMIT
    ensures Ages(ks, Rotate(ks, newId, unit, feePpk))
  {
  }

  /** Keysets change only by rotation, and a request that is done with a paid quote can only be dropped. */
  ghost predicate Idle(w: World, e: Event, w': World, q: QuoteId)
  {
    && (!e.RotateKeyset? ==> w'.ks == w.ks)
    && (q in w'.melting ==> q in w.melting && w'.melting[q] == w.melting[q])
  }

  ghost predicate Done(w: World, q: QuoteId)
  {
    IsPaid(w.t, q) && (q in w.melting ==> w.melting[q].Confirmed?)
  }

  predicate TouchesPhase(e: Event)
  {
    || e.PayInvoice? || e.PayConfirmed? || e.MeltAbort? || e.RefreshRead? || e.Crash? || e.MeltReserve? || e.PayDoubted?
    || e.Recheck? || e.Finalize? || e.RefreshSettled? || e.RefreshFailed?
  }

  predicate IsSwapOrQuote(e: Event)
  {
    || e.CreateMintQuote? || e.CreateMeltQuote? || e.RotateKeyset? || e.SwapReserve? || e.SwapSettle? || e.SwapClean?
    || e.SwapAbort?
  }

  lemma ElsewhereIdle(w: World, e: Event, q: QuoteId)
    requires !TouchesPhase(e)
    ensures Idle(w, e, Step(w, e), q)
  {
    hide Idle;
    SamePhase(w, e, w, q);
    if IsSwapOrQuote(e) {
      TablesElsewhere(w, e, q);
    } else {
      MintsElsewhere(w, e, q);
    }
  }

  lemma TablesElsewhere(w: World, e: Event, q: QuoteId)
    requires IsSwapOrQuote(e)
    ensures Idle(w, e, Step(w, e), q)
  {
    hide Idle, Rotate, ReserveSwap, ValidateSwap, SettleSwapBlock, DeleteProofs, SaveMintQuote, SaveMeltQuote, Ys,
      AsPending, StepMeltReserve, StepPayInvoice, StepPayConfirmed, StepPayDoubted, StepRecheck, StepFinalize,
      StepRefreshRead, StepRefreshSettled, StepRefreshFailed, StepMintLoad, StepMintReconcile, StepMintIssue;
    SamePhase(w, e, Step(w, e), q);
  }

  lemma ReconcileIdle(w: World, e: Event, q: QuoteId, m: QuoteId, status: PaymentStatus, c: Commit)
    ensures Idle(w, e, StepMintReconcile(w, m, status, c), q)
  {
    hide Idle, ReconcileMint;
    SamePhase(w, e, StepMintReconcile(w, m, status, c), q);
  }

  lemma IssueIdle(w: World, e: Event, q: QuoteId, m: QuoteId, c: Commit)
    ensures Idle(w, e, StepMintIssue(w, m, c), q)
  {
    hide Idle, IssueMint;
    SamePhase(w, e, StepMintIssue(w, m, c), q);
  }

  lemma LoadIdle(w: World, e: Event, q: QuoteId, m: QuoteId, toIssue: Option<seq<BlindedMessage>>)
    ensures Idle(w, e, StepMintLoad(w, m, toIssue), q)
  {
    hide Idle, ValidateIssuance;
    SamePhase(w, e, StepMintLoad(w, m, toIssue), q);
  }

  lemma MintsElsewhere(w: World, e: Event, q: QuoteId)
    requires e.LightningProgress? || e.InvoicePaid? || e.MintLoad? || e.MintReconcile? || e.MintIssue? || e.MintAbort?
    ensures Idle(w, e, Step(w, e), q)
  {
    hide Idle, StepMintLoad, StepMintReconcile, StepMintIssue, SaveMintQuote, SaveMeltQuote, StepSwapReserve,
      StepSwapSettle, StepSwapClean, StepMeltReserve, StepPayInvoice, StepPayConfirmed, StepPayDoubted, StepRecheck,
      StepFinalize, StepRefreshRead, StepRefreshSettled, StepRefreshFailed;
    match e
    case MintLoad(m, toIssue) => LoadIdle(w, e, q, m, toIssue);
    case MintReconcile(m, status, c) => ReconcileIdle(w, e, q, m, status, c);
    case MintIssue(m, c) => IssueIdle(w, e, q, m, c);
    case MintAbort(m) => SamePhase(w, e, w.(minting := w.minting - {m}), q);
    case InvoicePaid(m) =>
      SamePhase(w, e, w, q);
      SamePhase(w, e, w.(received := w.received + {m}), q);
    case LightningProgress(r, attempt) =>
      SamePhase(w, e, w, q);
      SamePhase(w, e, w.(ln := w.ln[r := attempt]), q);
  }

  lemma SamePhase(w: World, e: Event, w': World, q: QuoteId)
    requires (!e.RotateKeyset? ==> w'.ks == w.ks) && w'.melting == w.melting
    ensures Idle(w, e, w', q)
  {
  }

  /** Dropping some request, or moving on with one that is not the quote's. */
  lemma OtherPhase(w: World, e: Event, w': World, q: QuoteId, r: QuoteId)
    requires w'.ks == w.ks && (w'.melting == w.melting - {r} || w'.melting == w.melting || w'.melting == map[]
                               || (r != q && r in w'.melting && w'.melting == w.melting[r := w'.melting[r]]))
    ensures Idle(w, e, w', q)
  {
  }

  lemma PayIdle(w: World, e: Event, q: QuoteId)
    requires Done(w, q) && (e.PayInvoice? || e.PayConfirmed?)
    ensures Idle(w, e, Step(w, e), q)
  {
    hide Idle;
    match e
    case PayInvoice(r, attempt) => OtherPhase(w, e, StepPayInvoice(w, r, attempt), q, r);
    case PayConfirmed(r, fee, preimage) => OtherPhase(w, e, StepPayConfirmed(w, r, fee, preimage), q, r);
  }

  lemma DoubtIdle(w: World, e: Event, q: QuoteId)
    requires Done(w, q) && (e.PayDoubted? || e.Recheck?)
    ensures Idle(w, e, Step(w, e), q)
  {
    hide Idle, ReleaseMelt, SetMelt, Ys;
    match e
    case PayDoubted(r, checkingId, c) => OtherPhase(w, e, StepPayDoubted(w, r, checkingId, c), q, r);
    case Recheck(r, status, fee, c) => OtherPhase(w, e, StepRecheck(w, r, status, fee, c), q, r);
  }

  lemma LastBlockIdle(
      w: World, e: Event, q: QuoteId, r: QuoteId, t: Result<Tables, MintError>, ys: set<Point>, c: Commit)
    ensures Idle(w, e, LastMeltBlock(w, r, t, ys, c), q)
  {
    hide Idle;
    OtherPhase(w, e, LastMeltBlock(w, r, t, ys, c), q, r);
  }

  lemma PaidIdle(w: World, e: Event, q: QuoteId)
    requires e.Finalize? || e.RefreshSettled?
    ensures Idle(w, e, Step(w, e), q)
  {
    hide Idle, FinalizeMelt, RecoverMelt, LastMeltBlock, Ys;
    SamePhase(w, e, w, q);
    if e.q in w.t.melts && e.q in w.melting {
      var p := w.melting[e.q];
      if e.Finalize? && p.Confirmed? {
        LastBlockIdle(w, e, q, e.q, FinalizeMelt(w.ks, w.t, e.q, p.inputs, p.outputs, p.fee, p.preimage),
          Ys(p.inputs), e.c);
      }
      if e.RefreshSettled? && p.Refreshing? {
        LastBlockIdle(w, e, q, e.q, RecoverMelt(w.ks, w.t, e.q, p.rows, e.msgs, e.fee, e.preimage), Ys(p.rows), e.c);
      }
    }
  }

  lemma FailedIdle(w: World, e: Event, q: QuoteId)
    requires e.RefreshFailed?
    ensures Idle(w, e, Step(w, e), q)
  {
    hide Idle, ReleaseMelt, Ys;
    OtherPhase(w, e, StepRefreshFailed(w, e.q, e.c), q, e.q);
  }

  lemma StartIdle(w: World, e: Event, q: QuoteId)
    requires Done(w, q) && (e.MeltAbort? || e.Crash? || e.RefreshRead?)
    ensures Idle(w, e, Step(w, e), q)
  {
    hide Idle, ListsRows;
    match e
    case MeltAbort(r) => OtherPhase(w, e, w.(melting := w.melting - {r}), q, r);
    case Crash => OtherPhase(w, e, w.(melting := map[], swapping := map[], minting := map[]), q, q);
    case RefreshRead(r, rows) => OtherPhase(w, e, StepRefreshRead(w, r, rows), q, r);
  }

  lemma ReserveIdle(
      w: World, e: Event, q: QuoteId, r: QuoteId, inputs: seq<Proof>, outputs: seq<BlindedMessage>, verified: bool,
      c: Commit)
    requires Done(w, q)
    ensures Idle(w, e, StepMeltReserve(w, r, inputs, outputs, verified, c), q)
  {
    hide Idle, ReserveMelt;
    if r == q {
      assert ReserveMelt(w.t, q, inputs, outputs).Err? by { MeltedRefused(w.t, q, inputs, outputs); }
    }
    OtherPhase(w, e, StepMeltReserve(w, r, inputs, outputs, verified, c), q, r);
  }

  lemma MeltedRefused(t: Tables, q: QuoteId, inputs: seq<Proof>, outputs: seq<BlindedMessage>)
    requires IsPaid(t, q)
    ensures ReserveMelt(t, q, inputs, outputs).Err?
  {
  }

  lemma StepIdle(w: World, e: Event, q: QuoteId)
    requires Done(w, q)
    ensures Idle(w, e, Step(w, e), q)
  {
    hide Done, Idle;
    if e.MeltReserve? {
      ReserveIdle(w, e, q, e.q, e.inputs, e.outputs, e.verified, e.c);
      hide StepMeltReserve;
    } else {
      hide Step;
      if !TouchesPhase(e) {
        ElsewhereIdle(w, e, q);
      } else if e.PayInvoice? || e.PayConfirmed? {
        PayIdle(w, e, q);
      } else if e.PayDoubted? || e.Recheck? {
        DoubtIdle(w, e, q);
      } else if e.MeltAbort? || e.Crash? || e.RefreshRead? {
        StartIdle(w, e, q);
      } else if e.RefreshFailed? {
        FailedIdle(w, e, q);
      } else {
        PaidIdle(w, e, q);
      }
    }
  }

  lemma StepAges(w: World, e: Event, q: QuoteId)
    requires TablesOk(w) && Assumed(w, e) && Idle(w, e, Step(w, e), q)
    ensures Ages(w.ks, Step(w, e).ks)
  {
    hide TablesOk, Grows, Ages;
    FeesOfTables(w);
    if e.RotateKeyset? {
      RotateAges(w.ks, e.newId, e.unit, e.feePpk);
    } else {
      hide Step;
      SameAges(w.ks);
    }
    hide Rotate;
  }

  lemma SameAges(ks: Keysets)
    requires FeesFit(ks)
    ensures Ages(ks, ks)
  {
  }

  lemma FinalizeOkIff(
      ks: Keysets, t: Tables, q: QuoteId, inputs: seq<Proof>, outputs: seq<BlindedMessage>, fee: nat, preimage: string)
    requires q in t.melts
    ensures FinalizeMelt(ks, t, q, inputs, outputs, fee, preimage).Ok?
       <==> ChangeCanBeSigned(ks, t, t.melts[q].amount, inputs, outputs, fee)
  {
    hide FeeOf, Amount64, ChangeMessages, CanSign, CanInsertSigs, SigsFor, SigMap, MarkPaid, Ys;
  }

  lemma SignableBefore(ks: Keysets, ks': Keysets, ms: seq<BlindedMessage>)
    requires Ages(ks, ks') && MessagesHaveKeysets(ks, ms) && CanSign(ks', ms)
    ensures CanSign(ks, ms)
  {
  }

  lemma InsertableBefore(m: SigTable, m': SigTable, sigs: seq<RecoverSig>)
    requires m.Keys <= m'.Keys && CanInsertSigs(m', sigs)
    ensures CanInsertSigs(m, sigs)
  {
  }

  lemma ChangeHasKeysets(ks: Keysets, amount: nat, inputs: seq<Proof>, outputs: seq<BlindedMessage>, fee: nat)
    requires FeeOf(ks, inputs).Some? && MessagesHaveKeysets(ks, outputs)
    ensures MessagesHaveKeysets(ks, ChangeDue(ks, amount, inputs, outputs, fee))
  {
    hide FeeOf, Amount64, Split, Wrap;
  }

  lemma FeeKept(ks: Keysets, ks': Keysets, inputs: seq<Proof>)
    requires Grows(ks, ks') && FeeOf(ks, inputs).Some?
    ensures FeeOf(ks', inputs) == FeeOf(ks, inputs)
  {
    PpkSumKept(ks, ks', inputs);
    hide SumOf;
  }

  lemma FailsForGood(
      ks: Keysets, ks': Keysets, t: Tables, t': Tables, amount: nat,
      inputs: seq<Proof>, outputs: seq<BlindedMessage>, fee: nat)
    requires Ages(ks, ks') && t.sigs.Keys <= t'.sigs.Keys && FeeOf(ks, inputs).Some? && MessagesHaveKeysets(ks, outputs)
    requires ChangeCanBeSigned(ks', t', amount, inputs, outputs, fee)
    ensures ChangeCanBeSigned(ks, t, amount, inputs, outputs, fee)
  {
    hide ChangeDue, CanSign, CanInsertSigs, SigsFor, MessagesHaveKeysets, Grows, FeeOf;
    FeeKept(ks, ks', inputs);
    SameChange(ks, ks', amount, inputs, outputs, fee);
    var change := ChangeDue(ks, amount, inputs, outputs, fee);
    ChangeHasKeysets(ks, amount, inputs, outputs, fee);
    SignableBefore(ks, ks', change);
    if change != [] {
      InsertableBefore(t.sigs, t'.sigs, SigsFor(change));
    }
  }

  lemma SameChange(ks: Keysets, ks': Keysets, amount: nat, inputs: seq<Proof>, outputs: seq<BlindedMessage>, fee: nat)
    requires FeeOf(ks, inputs).Some? && FeeOf(ks', inputs) == FeeOf(ks, inputs)
    ensures ChangeDue(ks', amount, inputs, outputs, fee) == ChangeDue(ks, amount, inputs, outputs, fee)
  {
    hide FeeOf;
  }

  // ----- no other request takes the quote up -----

  lemma PaidMelted(w: World, q: QuoteId)
    requires Inv(w) && PaidOpen(w, q)
    ensures IsPaid(w.t, q) && RowsOf(w.t.proofs, q) != map[]
    ensures q in w.melting ==> w.melting[q].Confirmed?
  {
    hide Inv, RowsOf;
    MeltOkOf(w, q);
  }


  // ----- no step finishes it -----

  lemma StillFails(w: World, w': World, q: QuoteId)
    requires Inv(w) && PaidOpen(w, q) && !CanFinish(w, q) && q in w'.t.melts
    requires Ages(w.ks, w'.ks) && w.t.sigs.Keys <= w'.t.sigs.Keys && w'.t.melts[q].amount == w.t.melts[q].amount
    requires q in w'.melting ==> q in w.melting && w'.melting[q] == w.melting[q]
    ensures !CanFinish(w', q)
  {
    hide Inv, AllIn, ChangeCanBeSigned, Ages, MessagesHaveKeysets, FeeOf, RowsOf, View, MeltOk;
    if q in w'.melting && w'.melting[q].Confirmed? {
      var p := w.melting[q];
      ConfirmedKnown(w, q);
      if CanFinish(w', q) {
        FailsForGood(w.ks, w'.ks, w.t, w'.t, w.t.melts[q].amount, p.inputs, p.outputs, p.fee);
      }
    }
  }

  lemma ConfirmedKnown(w: World, q: QuoteId)
    requires Inv(w) && q in w.melting && w.melting[q].Confirmed?
    ensures q in w.t.melts && FeeOf(w.ks, w.melting[q].inputs).Some?
    ensures MessagesHaveKeysets(w.ks, w.melting[q].outputs)
    ensures Ys(w.melting[q].inputs) == RowsOf(w.t.proofs, q).Keys
  {
    hide Inv, MeltOk, View, ReadyToSettle, Covers;
    PhaseKnown(w, q);
    MeltOkOf(w, q);
    ConfirmedIsReady(w.ks, View(w, q));
    ReadyCovers(w.ks, View(w, q), w.melting[q].inputs, w.melting[q].fee, w.melting[q].preimage);
    CoversKnown(w.ks, w.melting[q].inputs, w.t.melts[q].amount, w.melting[q].fee);
  }

  lemma CoversKnown(ks: Keysets, ps: seq<Proof>, amount: nat, fee: nat)
    requires Covers(ks, ps, amount, fee)
    ensures FeeOf(ks, ps).Some?
  {
  }

  /** What the step logs is neither the quote's own melt nor spends one of its rows. */
  ghost predicate Misses(log: seq<Entry>, log': seq<Entry>, m: ProofTable, q: QuoteId)
  {
    || log' == log
    || (&& |log'| == |log| + 1 && log <= log' && !MeltEntry(log'[|log|], q)
        && RowsOf(m, q).Keys !! EntryYs(log'[|log|]))
  }

  lemma SwapElsewhere(w: World, q: QuoteId, ys: set<Point>)
    requires SwapRows(w, ys) && q in w.t.melts
    ensures RowsOf(w.t.proofs, q).Keys !! ys
  {
  }

  lemma SwapMisses(w: World, q: QuoteId, s: nat, o: SwapOutcome)
    requires Inv(w) && q in w.t.melts
    ensures Misses(w.log, StepSwapSettle(w, s, o).log, w.t.proofs, q)
  {
    hide TablesOk, MeltsOk, SwapsOk, MintsOk, LogOk, Conserved, SettleSwapBlock, Ys, RowsOf, SwapRows, DistinctYs,
      RowsIn, Pending, SwapFits;
    if s in w.swapping && w.swapping[s].SwapReserved? {
      SwapKnown(w, s);
      SwapElsewhere(w, q, Ys(w.swapping[s].inputs));
    }
  }

  lemma FinalizeMisses(w: World, q: QuoteId, r: QuoteId, c: Commit)
    requires Inv(w) && !CanFinish(w, q) && q in w.t.melts
    ensures Misses(w.log, StepFinalize(w, r, c).log, w.t.proofs, q)
  {
    hide Inv, FinalizeMelt, ChangeCanBeSigned, Ys;
    if r in w.melting && w.melting[r].Confirmed? {
      var p := w.melting[r];
      ConfirmedKnown(w, r);
      FinalizeOkIff(w.ks, w.t, r, p.inputs, p.outputs, p.fee, p.preimage);
    }
  }

  lemma RecoverMisses(
      w: World, q: QuoteId, r: QuoteId, fee: nat, preimage: string, msgs: seq<BlindedMessage>, c: Commit)
    requires Inv(w) && PaidOpen(w, q)
    ensures Misses(w.log, StepRefreshSettled(w, r, fee, preimage, msgs, c).log, w.t.proofs, q)
  {
    hide Inv, RecoverMelt, Ys, AllIn;
    if r in w.melting && w.melting[r].Refreshing? {
      PhaseRows(w, r);
    }
  }

  lemma IssueMisses(w: World, q: QuoteId, m: QuoteId, c: Commit)
    ensures Misses(w.log, StepMintIssue(w, m, c).log, w.t.proofs, q)
  {
    hide IssueMint, RowsOf;
  }

  lemma StepMisses(w: World, e: Event, q: QuoteId)
    requires Inv(w) && PaidOpen(w, q) && !CanFinish(w, q)
    ensures Misses(w.log, Step(w, e).log, w.t.proofs, q)
  {
    hide Inv, CanFinish, Misses, StepSwapSettle, StepFinalize, StepRefreshSettled, StepMintIssue, AllIn, RowsOf;
    if WritesLog(e) {
      match e
      case SwapSettle(s, o) => SwapMisses(w, q, s, o);
      case Finalize(r, c) => FinalizeMisses(w, q, r, c);
      case RefreshSettled(r, fee, preimage, msgs, c) => RecoverMisses(w, q, r, fee, preimage, msgs, c);
      case MintIssue(m, c) => IssueMisses(w, q, m, c);
    } else {
      hide Step;
      QuietMisses(w, e, q);
    }
  }

  lemma QuietMisses(w: World, e: Event, q: QuoteId)
    requires !WritesLog(e)
    ensures Misses(w.log, Step(w, e).log, w.t.proofs, q)
  {
    hide Step, RowsOf;
    if WritesNoTable(e) {
      OnlyPhases(w, e);
    } else {
      NothingLogged(w, e);
    }
  }

  lemma {:induction false} SpentYsSnoc(log: seq<Entry>, log': seq<Entry>)
    requires |log'| == |log| + 1 && log <= log'
    ensures SpentYs(log') == SpentYs(log) + EntryYs(log'[|log|])
  {
    assert log'[..|log'| - 1] == log;
  }

  /** Rows that no logged block spent are not SPENT, and a paid quote's rows are all of one state. */
  lemma RowsStayPending(w: World, w': World, q: QuoteId)
    requires Inv(w) && Inv(w') && PaidOpen(w, q) && Onward(w.t, w'.t)
    requires Misses(w.log, w'.log, w.t.proofs, q)
    ensures PaidOpen(w', q) && RowsOf(w.t.proofs, q).Keys <= RowsOf(w'.t.proofs, q).Keys
  {
    hide TablesOk, MeltsOk, SwapsOk, MintsOk, Conserved, RowStays;
    PaidMelted(w, q);
    assert PaidStays(w.t, w'.t, q);
    RowsKept(w, w', q);
    PaidStates(w', q);
    var y :| y in RowsOf(w.t.proofs, q);
    assert y !in SpentRows(w.t.proofs);
    if w'.log != w.log {
      SpentYsSnoc(w.log, w'.log);
    }
    assert SpentYs(w'.log) == SpentRows(w'.t.proofs) && y !in SpentYs(w'.log);
    assert RowsOf(w'.t.proofs, q)[y].state != ProofSpent;
  }

  lemma PaidStates(w: World, q: QuoteId)
    requires Inv(w) && q in w.t.melts && w.t.melts[q].state == PAID
    ensures AllIn(RowsOf(w.t.proofs, q), ProofPending) || AllIn(RowsOf(w.t.proofs, q), ProofSpent)
  {
    hide Inv;
    MeltOkOf(w, q);
  }

  lemma RowsKept(w: World, w': World, q: QuoteId)
    requires Onward(w.t, w'.t) && IsPaid(w.t, q)
    ensures RowsOf(w.t.proofs, q).Keys <= RowsOf(w'.t.proofs, q).Keys
  {
    forall y | y in RowsOf(w.t.proofs, q) ensures y in RowsOf(w'.t.proofs, q) {
      assert RowStays(w.t, w'.t, y);
    }
  }

  lemma StepStaysOpen(w: World, e: Event, q: QuoteId)
    requires Inv(w) && PaidOpen(w, q) && !CanFinish(w, q) && Assumed(w, e) && NamesNoQuote(w, e)
    ensures var w' := Step(w, e);
      StaysOpen(w, w', q) && !CanFinish(w', q) && Inv(w')
  {
    hide TablesOk, MeltsOk, SwapsOk, MintsOk, LogOk, Conserved, Step, PaidOpen, CanFinish, Misses, Ages, RowStays,
      Forward, Stale, Assumed, NamesNoQuote, RowsOf;
    var w' := Step(w, e);
    StepKeepsInv(w, e);
    StepForward(w, e);
    PaidMelted(w, q);
    StepIdle(w, e, q);
    StepAges(w, e, q);
    StepMisses(w, e, q);
    RowsStayPending(w, w', q);
    assert PaidStays(w.t, w'.t, q);
    StillFails(w, w', q);
    MissesEntries(w.log, w'.log, w.t.proofs, q);
  }

  lemma MissesEntries(log: seq<Entry>, log': seq<Entry>, m: ProofTable, q: QuoteId)
    requires Misses(log, log', m, q)
    ensures log <= log' && forall i | |log| <= i < |log'| :: !MeltEntry(log'[i], q)
  {
  }

  lemma OpenFurther(w: World, w': World, w'': World, q: QuoteId)
    requires StaysOpen(w, w', q) && StaysOpen(w', w'', q)
    ensures StaysOpen(w, w'', q)
  {
    hide PaidOpen, RowsOf;
    forall i | |w.log| <= i < |w''.log| ensures !MeltEntry(w''.log[i], q) {
      if i < |w'.log| {
        assert w''.log[i] == w'.log[i];
      }
    }
  }

  lemma {:induction false} RunStaysOpen(w: World, more: seq<Event>, q: QuoteId)
    requires Inv(w) && PaidOpen(w, q) && !CanFinish(w, q) && AssumedRun(w, more) && SwapsNameNoQuote(w, more)
    ensures StaysOpen(w, Run(w, more), q) && !CanFinish(Run(w, more), q) && Inv(Run(w, more))
  {
    hide Inv, Step, Assumed, NamesNoQuote, PaidOpen, CanFinish;
    if more != [] {
      var fewer := more[..|more| - 1];
      RunStaysOpen(w, fewer, q);
      StepStaysOpen(Run(w, fewer), more[|more| - 1], q);
      OpenFurther(w, Run(w, fewer), Run(w, more), q);
    }
  }

  lemma FinishingRun(w: World, q: QuoteId)
    requires CanFinish(w, q)
    ensures var more := [Finalize(q, Committed)];
      AssumedRun(w, more) && SwapsNameNoQuote(w, more) && !StaysOpen(w, Run(w, more), q)
  {
    hide FinalizeMelt, ChangeCanBeSigned, PaidOpen, RowsOf, Ys;
    var p := w.melting[q];
    FinalizeOkIff(w.ks, w.t, q, p.inputs, p.outputs, p.fee, p.preimage);
    var more := [Finalize(q, Committed)];
    assert more[..0] == [] && Run(w, []) == w;
    var w' := StepFinalize(w, q, Committed);
    assert Run(w, more) == w';
    assert MeltEntry(w'.log[|w.log|], q);
  }

  /**
   * Once a melt was settled internally its inputs stay PENDING and its change stays unsigned, whatever the mint does
   * and however often the quote is refreshed, exactly when the request that settled it is gone or cannot finish.
   */
  lemma OpenForGoodIff(w: World, ks: Keysets, es: seq<Event>, q: QuoteId)
    requires Reached(w, ks, es) && SwapsNameNoQuote(Start(ks), es) && PaidOpen(w, q)
    ensures (forall more | AssumedRun(w, more) && SwapsNameNoQuote(w, more) :: StaysOpen(w, Run(w, more), q))
       <==> !CanFinish(w, q)
  {
    hide Inv, Reached, PaidOpen, CanFinish, StaysOpen, Run, AssumedRun, SwapsNameNoQuote;
    ReachedInv(w, ks, es);
    if CanFinish(w, q) {
      FinishingRun(w, q);
    } else {
      forall more | AssumedRun(w, more) && SwapsNameNoQuote(w, more) ensures StaysOpen(w, Run(w, more), q) {
        RunStaysOpen(w, more, q);
      }
    }
  }

  // ----- what recovery reaches -----

  /** Crash, read the quote's rows, ask lightning, settle: what a restarted mint does for one quote. */
  ghost function Recovery(
      q: QuoteId, rows: seq<Proof>, fee: nat, preimage: string, msgs: seq<BlindedMessage>): seq<Event>
  {
    [Crash, RefreshRead(q, rows), RefreshSettled(q, fee, preimage, msgs, Committed)]
  }

  ghost function Crashed(w: World): World
  {
    w.(melting := map[], swapping := map[], minting := map[])
  }

  lemma ThreeSteps(w: World, a: Event, b: Event, c: Event)
    ensures Run(w, [a, b, c]) == Step(Step(Step(w, a), b), c)
  {
    hide Step;
    assert [a, b, c][..2] == [a, b] && [a, b][..1] == [a] && [a][..0] == [];
    assert Run(w, [a]) == Step(w, a);
  }

  lemma RecoverySteps(w: World, q: QuoteId, rows: seq<Proof>, fee: nat, preimage: string, msgs: seq<BlindedMessage>)
    ensures Step(w, Crash) == Crashed(w)
    ensures Step(Crashed(w), RefreshRead(q, rows)) == StepRefreshRead(Crashed(w), q, rows)
    ensures forall w1 :: Step(w1, RefreshSettled(q, fee, preimage, msgs, Committed))
                      == StepRefreshSettled(w1, q, fee, preimage, msgs, Committed)
  {
    hide StepRefreshRead, StepRefreshSettled;
  }

  lemma RecoveredTables(w: World, q: QuoteId, rows: seq<Proof>, fee: nat, preimage: string, msgs: seq<BlindedMessage>)
    requires q in w.t.melts
    ensures StepRefreshSettled(StepRefreshRead(Crashed(w), q, rows), q, fee, preimage, msgs, Committed).t ==
      if w.t.melts[q].state == PENDING && RecoverMelt(w.ks, w.t, q, rows, msgs, fee, preimage).Ok?
      then RecoverMelt(w.ks, w.t, q, rows, msgs, fee, preimage).value else w.t
  {
    hide RecoverMelt, Ys;
  }

  lemma RecoveryRun(w: World, q: QuoteId, rows: seq<Proof>, fee: nat, preimage: string, msgs: seq<BlindedMessage>)
    requires q in w.t.melts
    ensures Run(w, Recovery(q, rows, fee, preimage, msgs)).t ==
      if w.t.melts[q].state == PENDING && RecoverMelt(w.ks, w.t, q, rows, msgs, fee, preimage).Ok?
      then RecoverMelt(w.ks, w.t, q, rows, msgs, fee, preimage).value else w.t
  {
    hide RecoverMelt, Run, Step, StepRefreshRead, StepRefreshSettled, Crashed;
    ThreeSteps(w, Crash, RefreshRead(q, rows), RefreshSettled(q, fee, preimage, msgs, Committed));
    RecoverySteps(w, q, rows, fee, preimage, msgs);
    RecoveredTables(w, q, rows, fee, preimage, msgs);
  }

  lemma FinalizeSpends(w: World, q: QuoteId)
    requires Inv(w) && PaidOpen(w, q) && CanFinish(w, q)
    ensures StepFinalize(w, q, Committed).t != w.t
  {
    hide Inv, FinalizeMelt, ChangeCanBeSigned, RowsOf, Ys;
    var p := w.melting[q];
    FinalizeOkIff(w.ks, w.t, q, p.inputs, p.outputs, p.fee, p.preimage);
    PaidMelted(w, q);
    ConfirmedKnown(w, q);
    FinalizeMarks(w.ks, w.t, q, p.inputs, p.outputs, p.fee, p.preimage);
    var y :| y in RowsOf(w.t.proofs, q);
    RowOfTable(w.t.proofs, q, y);
    assert RowsOf(w.t.proofs, q)[y].state == ProofPending;
    assert StepFinalize(w, q, Committed).t.proofs == SetState(w.t.proofs, Ys(p.inputs), ProofSpent);
    assert SetState(w.t.proofs, Ys(p.inputs), ProofSpent)[y].state == ProofSpent;
  }

  lemma RowOfTable(m: ProofTable, q: QuoteId, y: Point)
    requires y in RowsOf(m, q)
    ensures y in m && m[y] == RowsOf(m, q)[y]
  {
  }

  /**
   * A mint that crashed after a payment was confirmed ends with the tables the request would have left, exactly when
   * the quote is still PENDING, or the request could not have finished either.
   */
  lemma RecoveryReachesIff(w: World, ks: Keysets, es: seq<Event>, q: QuoteId, rows: seq<Proof>)
    requires Reached(w, ks, es) && SwapsNameNoQuote(Start(ks), es)
    requires q in w.melting && w.melting[q].Confirmed? && q in w.t.melts && ListsRows(rows, RowsOf(w.t.proofs, q))
    ensures var p := w.melting[q];
      Run(w, Recovery(q, rows, p.fee, p.preimage, ChangeOf(w.t.change, q))).t == Step(w, Finalize(q, Committed)).t
      <==> w.t.melts[q].state == PENDING || !CanFinish(w, q)
  {
    hide Inv, Reached, SwapsNameNoQuote, FinalizeMelt, ChangeCanBeSigned, RecoverMelt, RowsOf, ListsRows, AllIn, Run,
      Recovery, Ys, MeltOk;
    var p := w.melting[q];
    ReachedInv(w, ks, es);
    RecoveryRun(w, q, rows, p.fee, p.preimage, ChangeOf(w.t.change, q));
    if w.t.melts[q].state == PENDING {
      CrashRecoveryAgrees(w, ks, es, q, rows);
    } else {
      ConfirmedPaid(w, q);
      FinalizeOkIff(w.ks, w.t, q, p.inputs, p.outputs, p.fee, p.preimage);
      if CanFinish(w, q) {
        FinalizeSpends(w, q);
      }
    }
  }

  lemma ConfirmedPaid(w: World, q: QuoteId)
    requires Inv(w) && q in w.melting && w.melting[q].Confirmed? && q in w.t.melts && w.t.melts[q].state != PENDING
    ensures PaidOpen(w, q)
  {
    hide Inv;
    MeltOkOf(w, q);
  }
}
