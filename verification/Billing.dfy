/**
 * What lightning asks for: the backend's answer when a melt quote was made, kept beside the tables, and that the quote
 * asks its owner for exactly that (createAndStoreBolt11MeltQuote in internal/mint/melting.go).
 */
module Billing {
  import opened Prelude
  import opened Totals
  import opened Cashu
  import opened Store
  import opened Transactions
  import opened Exact
  import opened World
  import opened Invariant
  import opened Reserve
  import opened Finality

  /** Some mint quote of this mint asked for the invoice. */
  ghost predicate OwnInvoice(t: Tables, request: Invoice)
  {
    exists m :: m in t.mints && t.mints[m].request == request
  }

  // ----- making a melt quote -----

  /** A request for a melt quote that can be met. */
  ghost predicate CanQuote(t: Tables, q: QuoteId, request: Invoice, unit: Unit, mpp: nat)
  {
    && (unit == Sat || unit == Msat) && request.msat != 0 && q !in t.melts
    && (mpp != 0 ==> mpp <= (if unit == Sat then request.msat / 1000 else request.msat) && !OwnInvoice(t, request))
  }

  /**
   * A melt quote is saved for exactly these requests. It asks for what the backend answered and one more than the
   * backend's fee in reserve; or, for an invoice of this mint, for the invoice's amount and one in reserve.
   */
  lemma MeltQuoteSavedIff(
      t: Tables, q: QuoteId, request: Invoice, unit: Unit, mpp: nat, amount: nat, fee: nat, checkingId: string)
    ensures var r := SaveMeltQuote(t, q, request, unit, mpp, amount, fee, checkingId);
      && (r.Ok? <==> CanQuote(t, q, request, unit, mpp))
      && (r.Ok? ==> q in r.value.melts && r.value == t.(melts := t.melts[q := r.value.melts[q]]))
    ensures var r := SaveMeltQuote(t, q, request, unit, mpp, amount, fee, checkingId);
      r.Ok? ==> var quote := r.value.melts[q];
        && quote.request == request && quote.unit == unit && quote.state == UNPAID && !quote.melted
        && quote.feePaid == 0 && quote.preimage == "" && (quote.mpp <==> mpp != 0)
        && (OwnInvoice(t, request) ==>
              && quote.amount == (if unit == Sat then request.msat / 1000 else request.msat)
              && quote.feeReserve == 1 && quote.checkingId == q)
        && (!OwnInvoice(t, request) ==>
              quote.amount == amount && quote.feeReserve == fee + 1 && quote.checkingId == checkingId)
    ensures var r := SaveMeltQuote(t, q, request, unit, mpp, amount, fee, checkingId);
      var payable := (unit == Sat || unit == Msat) && request.msat != 0;
      var whole := mpp == 0 || CanQuote(t.(melts := map[]), q, request, unit, mpp);
      && (r == Err(UnitNotSupported) <==> unit != Sat && unit != Msat)
      && (r == Err(AmountlessInvoice) <==> (unit == Sat || unit == Msat) && request.msat == 0)
      && (r == Err(MppRefused) <==> payable && !whole)
      && (r == Err(DatabaseError) <==> payable && whole && q in t.melts)
  {
    var found := MintByRequest(t.mints, request);
    assert found.Some? ==> found.value in t.mints && t.mints[found.value].request == request;
  }

  /** A mint quote is saved UNPAID for its invoice, exactly for a new id and a unit that lightning has. */
  lemma MintQuoteSavedIff(t: Tables, m: QuoteId, request: Invoice, unit: Unit)
    ensures var r := SaveMintQuote(t, m, request, unit);
      && (r.Ok? <==> (unit == Sat || unit == Msat) && m !in t.mints)
      && (r.Ok? ==> r.value == t.(mints := t.mints[m := MintQuote(request, unit, UNPAID, false)]))
  {
  }

  // ----- quotes keep what they ask for -----

  ghost predicate SameMeltTerms(t: Tables, t': Tables)
  {
    forall q | q in t.melts ::
      && q in t'.melts && t'.melts[q].request == t.melts[q].request && t'.melts[q].unit == t.melts[q].unit
      && t'.melts[q].amount == t.melts[q].amount && t'.melts[q].feeReserve == t.melts[q].feeReserve
  }

  ghost predicate SameMintTerms(t: Tables, t': Tables)
  {
    forall m | m in t.mints :: m in t'.mints && t'.mints[m].request == t.mints[m].request
  }

  /** Only a quote that is made is new, and no quote changes its terms. */
  ghost predicate SameTerms(w: World, e: Event, w': World)
  {
    && SameMeltTerms(w.t, w'.t) && SameMintTerms(w.t, w'.t)
    && (forall q | q in w'.t.melts :: q in w.t.melts || (e.CreateMeltQuote? && q == e.q))
  }

  lemma CreateTerms(w: World, e: Event)
    requires e.CreateMeltQuote? || e.CreateMintQuote?
    ensures SameTerms(w, e, Step(w, e))
  {
    hide SaveMeltQuote, SaveMintQuote;
    if e.CreateMeltQuote? {
      MeltQuoteSavedIff(
        w.t, e.q, e.request, e.unit, e.mppAmount, e.backendAmount, e.backendFee, e.checkingId);
    } else {
      MintQuoteSavedIff(w.t, e.m, e.request, e.unit);
    }
  }

  /** The tables hold the same quotes, on the same terms. */
  ghost predicate KeepTerms(t: Tables, t': Tables)
  {
    SameMeltTerms(t, t') && SameMintTerms(t, t') && t'.melts.Keys == t.melts.Keys
  }

  /** No quote of theirs is known to lightning under another id. */
  ghost predicate KeepIds(t: Tables, t': Tables)
  {
    forall q | q in t.melts :: q in t'.melts && t'.melts[q].checkingId == t.melts[q].checkingId
  }

  lemma KeptBySteps(w: World, e: Event, w': World)
    requires KeepTerms(w.t, w'.t)
    ensures SameTerms(w, e, w')
  {
    hide SameMeltTerms, SameMintTerms;
  }

  lemma SameQuotes(t: Tables, t': Tables)
    requires t'.melts == t.melts && t'.mints == t.mints
    ensures KeepTerms(t, t')
    ensures KeepIds(t, t')
  {
  }

  lemma OneMeltTerms(t: Tables, t': Tables, q: QuoteId, quote: MeltQuote)
    requires q in t.melts && t'.melts == t.melts[q := quote] && t'.mints == t.mints
    requires quote.request == t.melts[q].request && quote.unit == t.melts[q].unit
    requires quote.amount == t.melts[q].amount && quote.feeReserve == t.melts[q].feeReserve
    ensures KeepTerms(t, t')
    ensures quote.checkingId == t.melts[q].checkingId ==> KeepIds(t, t')
  {
  }

  lemma OneMintTerms(t: Tables, t': Tables, m: QuoteId, mint: MintQuote)
    requires m in t.mints && t'.mints == t.mints[m := mint] && t'.melts == t.melts
    requires mint.request == t.mints[m].request
    ensures KeepTerms(t, t')
    ensures KeepIds(t, t')
  {
  }

  lemma SwapTerms(w: World, e: Event)
    requires e.SwapReserve? || e.SwapSettle? || e.SwapClean?
    ensures KeepTerms(w.t, Step(w, e).t)
    ensures KeepIds(w.t, Step(w, e).t)
  {
    hide ReserveSwap, ValidateSwap, SettleSwapBlock, AsPending, Ys, KeepTerms, KeepIds;
    if e.SwapReserve? && ReserveSwap(w.t, e.inputs, e.outputs).Ok? {
      ReservedSwapRows(w.t, e.inputs, e.outputs);
    }
    if e.SwapSettle? && e.s in w.swapping && w.swapping[e.s].SwapReserved? {
      SettledSwapRows(w.ks, w.t, w.swapping[e.s].inputs, w.swapping[e.s].outputs, e.o);
    }
    SameQuotes(w.t, Step(w, e).t);
  }

  lemma FinalizedTerms(
      ks: Keysets, t: Tables, q: QuoteId, inputs: seq<Proof>, outputs: seq<BlindedMessage>, fee: nat, preimage: string)
    requires q in t.melts && FinalizeMelt(ks, t, q, inputs, outputs, fee, preimage).Ok?
    ensures KeepTerms(t, FinalizeMelt(ks, t, q, inputs, outputs, fee, preimage).value)
    ensures KeepIds(t, FinalizeMelt(ks, t, q, inputs, outputs, fee, preimage).value)
  {
    hide FinalizeMelt, Ys, SetState, KeepTerms, KeepIds;
    FinalizeMarks(ks, t, q, inputs, outputs, fee, preimage);
    var settled := FinalizeMelt(ks, t, q, inputs, outputs, fee, preimage).value;
    OneMeltTerms(t, settled, q, PaidQuote(t.melts[q], fee, preimage));
  }

  lemma RecoveredTerms(
      ks: Keysets, t: Tables, q: QuoteId, rows: seq<Proof>, msgs: seq<BlindedMessage>, fee: nat, preimage: string)
    requires q in t.melts && RecoverMelt(ks, t, q, rows, msgs, fee, preimage).Ok?
    ensures KeepTerms(t, RecoverMelt(ks, t, q, rows, msgs, fee, preimage).value)
    ensures KeepIds(t, RecoverMelt(ks, t, q, rows, msgs, fee, preimage).value)
  {
    hide RecoverMelt, Ys, SetState, KeepTerms, KeepIds;
    RecoverMarks(ks, t, q, rows, msgs, fee, preimage);
    OneMeltTerms(t, RecoverMelt(ks, t, q, rows, msgs, fee, preimage).value, q, PaidQuote(t.melts[q], fee, preimage));
  }

  lemma FinalizeTerms(w: World, q: QuoteId, c: Commit)
    ensures KeepTerms(w.t, StepFinalize(w, q, c).t)
    ensures KeepIds(w.t, StepFinalize(w, q, c).t)
  {
    hide FinalizeMelt, Ys, KeepTerms, KeepIds;
    SameQuotes(w.t, w.t);
    if q in w.t.melts && q in w.melting && w.melting[q].Confirmed? {
      var p := w.melting[q];
      if FinalizeMelt(w.ks, w.t, q, p.inputs, p.outputs, p.fee, p.preimage).Ok? {
        FinalizedTerms(w.ks, w.t, q, p.inputs, p.outputs, p.fee, p.preimage);
      }
    }
  }

  lemma RecoverTerms(w: World, q: QuoteId, fee: nat, preimage: string, msgs: seq<BlindedMessage>, c: Commit)
    ensures KeepTerms(w.t, StepRefreshSettled(w, q, fee, preimage, msgs, c).t)
    ensures KeepIds(w.t, StepRefreshSettled(w, q, fee, preimage, msgs, c).t)
  {
    hide RecoverMelt, Ys, KeepTerms, KeepIds;
    SameQuotes(w.t, w.t);
    if q in w.t.melts && q in w.melting && w.melting[q].Refreshing? {
      if RecoverMelt(w.ks, w.t, q, w.melting[q].rows, msgs, fee, preimage).Ok? {
        RecoveredTerms(w.ks, w.t, q, w.melting[q].rows, msgs, fee, preimage);
      }
    }
  }

  lemma ReserveCommits(
    w: World, q: QuoteId, inputs: seq<Proof>, outputs: seq<BlindedMessage>, verified: bool, c: Commit)
    ensures var t' := StepMeltReserve(w, q, inputs, outputs, verified, c).t;
      t' == w.t || (ReserveMelt(w.t, q, inputs, outputs).Ok? && t' == ReserveMelt(w.t, q, inputs, outputs).value)
  {
    hide ReserveMelt, ValidateMelt;
  }

  /** What the reserving block leaves of the quotes. */
  lemma ReservedQuotes(t: Tables, q: QuoteId, inputs: seq<Proof>, outputs: seq<BlindedMessage>)
    requires q in t.melts && DistinctYs(AsPendingFor(inputs, q))
    ensures q in Base(t, q, inputs, outputs).melts && Base(t, q, inputs, outputs).mints == t.mints
    ensures Base(t, q, inputs, outputs).melts == t.melts[q := t.melts[q].(state := PENDING)]
    ensures forall m | m in t.mints ::
      && InternalTables(Base(t, q, inputs, outputs), q, m).mints == t.mints[m := t.mints[m].(state := PAID)]
      && InternalTables(Base(t, q, inputs, outputs), q, m).melts
         == t.melts[q := t.melts[q].(state := PAID, melted := true, feePaid := 0)]
  {
    hide AddChange, Unvalued, RowMap;
  }

  lemma BothTerms(t: Tables, t': Tables, q: QuoteId, quote: MeltQuote, m: QuoteId, mint: MintQuote)
    requires q in t.melts && t'.melts == t.melts[q := quote] && m in t.mints && t'.mints == t.mints[m := mint]
    requires quote.request == t.melts[q].request && quote.unit == t.melts[q].unit
    requires quote.amount == t.melts[q].amount && quote.feeReserve == t.melts[q].feeReserve
    requires mint.request == t.mints[m].request
    requires quote.checkingId == t.melts[q].checkingId
    ensures KeepTerms(t, t')
    ensures KeepIds(t, t')
  {
  }

  lemma ReservedTerms(t: Tables, q: QuoteId, inputs: seq<Proof>, outputs: seq<BlindedMessage>)
    requires ReserveMelt(t, q, inputs, outputs).Ok?
    ensures KeepTerms(t, ReserveMelt(t, q, inputs, outputs).value)
    ensures KeepIds(t, ReserveMelt(t, q, inputs, outputs).value)
  {
    hide ReserveMelt, Base, InternalTables, MintByRequest, AsPendingFor, CanInsert, DistinctYs, KeepTerms, KeepIds;
    var t' := ReserveMelt(t, q, inputs, outputs).value;
    ReservedTables(t, q, inputs, outputs);
    Insertable(t.proofs, AsPendingFor(inputs, q));
    ReservedQuotes(t, q, inputs, outputs);
    var m := MintByRequest(t.mints, t.melts[q].request);
    if m.None? {
      OneMeltTerms(t, t', q, t.melts[q].(state := PENDING));
    } else {
      BothTerms(t, t', q, t.melts[q].(state := PAID, melted := true, feePaid := 0),
                m.value, t.mints[m.value].(state := PAID));
    }
  }

  lemma ReserveTerms(w: World, e: Event)
    requires e.MeltReserve?
    ensures KeepTerms(w.t, StepMeltReserve(w, e.q, e.inputs, e.outputs, e.verified, e.c).t)
    ensures KeepIds(w.t, StepMeltReserve(w, e.q, e.inputs, e.outputs, e.verified, e.c).t)
  {
    hide StepMeltReserve, ReserveMelt, KeepTerms, KeepIds;
    ReserveCommits(w, e.q, e.inputs, e.outputs, e.verified, e.c);
    SameQuotes(w.t, w.t);
    if ReserveMelt(w.t, e.q, e.inputs, e.outputs).Ok? {
      ReservedTerms(w.t, e.q, e.inputs, e.outputs);
    }
  }

  lemma DoubtTerms(w: World, q: QuoteId, checkingId: string, c: Commit)
    ensures KeepTerms(w.t, StepPayDoubted(w, q, checkingId, c).t)
  {
    hide KeepTerms, KeepIds;
    SameQuotes(w.t, w.t);
    if q in w.t.melts && StepPayDoubted(w, q, checkingId, c).t != w.t {
      OneMeltTerms(w.t, StepPayDoubted(w, q, checkingId, c).t, q, w.t.melts[q].(checkingId := checkingId));
    }
  }

  lemma RecheckTerms(w: World, q: QuoteId, status: PaymentStatus, fee: nat, c: Commit)
    ensures KeepTerms(w.t, StepRecheck(w, q, status, fee, c).t)
    ensures KeepIds(w.t, StepRecheck(w, q, status, fee, c).t)
  {
    hide KeepTerms, KeepIds, Ys;
    SameQuotes(w.t, w.t);
    var t' := StepRecheck(w, q, status, fee, c).t;
    if q in w.t.melts && t' != w.t {
      OneMeltTerms(w.t, t', q, t'.melts[q]);
    }
  }

  lemma ReleaseTerms(w: World, q: QuoteId, c: Commit)
    ensures KeepTerms(w.t, StepRefreshFailed(w, q, c).t)
    ensures KeepIds(w.t, StepRefreshFailed(w, q, c).t)
  {
    hide KeepTerms, KeepIds, Ys;
    SameQuotes(w.t, w.t);
    var t' := StepRefreshFailed(w, q, c).t;
    if q in w.t.melts && t' != w.t {
      OneMeltTerms(w.t, t', q, t'.melts[q]);
    }
  }

  lemma ReconciledTerms(t: Tables, m: QuoteId, paid: bool, failed: bool, minted: bool)
    requires m in t.mints
    ensures KeepTerms(t, ReconcileMint(t, m, paid, failed, minted))
    ensures KeepIds(t, ReconcileMint(t, m, paid, failed, minted))
  {
  }

  lemma ReconcileTerms(w: World, m: QuoteId, status: PaymentStatus, c: Commit)
    ensures KeepTerms(w.t, StepMintReconcile(w, m, status, c).t)
    ensures KeepIds(w.t, StepMintReconcile(w, m, status, c).t)
  {
    hide KeepTerms, KeepIds, ReconcileMint;
    SameQuotes(w.t, w.t);
    if m in w.t.mints && m in w.minting {
      ReconciledTerms(w.t, m, status == SETTLED, status == FAILED, w.minting[m].quote.minted);
    }
  }

  lemma IssueTerms(w: World, m: QuoteId, c: Commit)
    ensures KeepTerms(w.t, StepMintIssue(w, m, c).t)
    ensures KeepIds(w.t, StepMintIssue(w, m, c).t)
  {
    hide KeepTerms, KeepIds, CanSign, CanInsertSigs, SigMap, SigsFor;
    SameQuotes(w.t, w.t);
    var t' := StepMintIssue(w, m, c).t;
    if m in w.t.mints && t' != w.t {
      OneMintTerms(w.t, t', m, t'.mints[m]);
    }
  }

  lemma WritingKeepsTerms(w: World, e: Event)
    requires !WritesNoTable(e) && !e.CreateMeltQuote? && !e.CreateMintQuote?
    ensures KeepTerms(w.t, Step(w, e).t)
    ensures !e.PayDoubted? ==> KeepIds(w.t, Step(w, e).t)
  {
    hide KeepTerms, KeepIds, StepSwapReserve, StepSwapSettle, StepSwapClean, StepMeltReserve, StepPayDoubted,
      StepRecheck, StepRefreshFailed, StepFinalize, StepRefreshSettled, StepMintReconcile, StepMintIssue;
    match e
    case SwapReserve(_, _, _, _, _) => SwapTerms(w, e);
    case SwapSettle(_, _) => SwapTerms(w, e);
    case SwapClean(_, _) => SwapTerms(w, e);
    case MeltReserve(_, _, _, _, _) => ReserveTerms(w, e);
    case PayDoubted(q, checkingId, c) => DoubtTerms(w, q, checkingId, c);
    case Recheck(q, status, fee, c) => RecheckTerms(w, q, status, fee, c);
    case RefreshFailed(q, c) => ReleaseTerms(w, q, c);
    case Finalize(q, c) => FinalizeTerms(w, q, c);
    case RefreshSettled(q, fee, preimage, msgs, c) => RecoverTerms(w, q, fee, preimage, msgs, c);
    case MintReconcile(m, status, c) => ReconcileTerms(w, m, status, c);
    case MintIssue(m, c) => IssueTerms(w, m, c);
  }

  lemma StepKeepsTerms(w: World, e: Event)
    ensures SameTerms(w, e, Step(w, e))
  {
    hide SameTerms, Step, KeepTerms, KeepIds;
    if e.CreateMeltQuote? || e.CreateMintQuote? {
      CreateTerms(w, e);
    } else {
      if WritesNoTable(e) {
        NothingWritten(w, e);
        SameQuotes(w.t, w.t);
      } else {
        WritingKeepsTerms(w, e);
      }
      KeptBySteps(w, e, Step(w, e));
    }
  }

  // ----- what lightning was asked to take -----

  /** The backend's answer for an invoice of another node: what it takes, and its fee. */
  datatype Bill = Bill(amount: nat, fee: nat)

  ghost function NextBills(w: World, e: Event, bills: map<QuoteId, Bill>): map<QuoteId, Bill>
  {
    if e.CreateMeltQuote? && e.q !in w.t.melts && e.q in Step(w, e).t.melts && !OwnInvoice(w.t, e.request)
    then bills[e.q := Bill(e.backendAmount, e.backendFee)]
    else bills
  }

  /** The answers over a run, for the melt quotes that were made with them. */
  ghost function Bills(w: World, es: seq<Event>): map<QuoteId, Bill>
  {
    if es == [] then map[]
    else NextBills(Run(w, es[..|es| - 1]), es[|es| - 1], Bills(w, es[..|es| - 1]))
  }

  /** A quote asks for its bill, with a reserve above the fee; one without a bill is for an invoice of this mint. */
  ghost predicate AsksForBill(t: Tables, bills: map<QuoteId, Bill>, q: QuoteId)
    requires q in t.melts
  {
    if q in bills then t.melts[q].amount == bills[q].amount && t.melts[q].feeReserve == bills[q].fee + 1
    else OwnInvoice(t, t.melts[q].request)
  }

  ghost predicate QuotesBilled(t: Tables, bills: map<QuoteId, Bill>)
  {
    bills.Keys <= t.melts.Keys && forall q | q in t.melts :: AsksForBill(t, bills, q)
  }

  /** A request that lightning has been asked to pay, or is about to be. */
  predicate Outgoing(p: MeltPhase)
  {
    p.Reserved? || p.Sent? || p.Doubtful?
  }

  /** Whatever went to lightning, or is about to, has a bill. */
  ghost predicate OutgoingBilled(w: World, bills: map<QuoteId, Bill>)
  {
    w.ln.Keys <= bills.Keys && forall q | q in w.melting && Outgoing(w.melting[q]) :: q in bills
  }

  lemma OwnStays(t: Tables, t': Tables, request: Invoice)
    requires SameMintTerms(t, t') && OwnInvoice(t, request)
    ensures OwnInvoice(t', request)
  {
    var m :| m in t.mints && t.mints[m].request == request;
    assert t'.mints[m].request == request;
  }

  lemma StillAsks(t: Tables, t': Tables, bills: map<QuoteId, Bill>, q: QuoteId)
    requires q in t.melts && AsksForBill(t, bills, q) && SameMeltTerms(t, t') && SameMintTerms(t, t')
    ensures q in t'.melts && AsksForBill(t', bills, q)
  {
    hide SameMintTerms, OwnInvoice;
    if q !in bills {
      OwnStays(t, t', t.melts[q].request);
    }
  }

  lemma MadeAsks(w: World, e: Event, bills: map<QuoteId, Bill>)
    requires e.CreateMeltQuote? && e.q !in w.t.melts && e.q in Step(w, e).t.melts && e.q !in bills
    ensures AsksForBill(Step(w, e).t, NextBills(w, e, bills), e.q)
  {
    hide SaveMeltQuote, OwnInvoice, SameMintTerms, SameMeltTerms;
    MeltQuoteSavedIff(w.t, e.q, e.request, e.unit, e.mppAmount, e.backendAmount, e.backendFee, e.checkingId);
    StepKeepsTerms(w, e);
    if OwnInvoice(w.t, e.request) {
      OwnStays(w.t, Step(w, e).t, e.request);
    }
  }

  lemma StepKeepsBills(w: World, e: Event, bills: map<QuoteId, Bill>)
    requires QuotesBilled(w.t, bills)
    ensures QuotesBilled(Step(w, e).t, NextBills(w, e, bills))
  {
    hide Step, SameMeltTerms, SameMintTerms, OwnInvoice, AsksForBill;
    var w' := Step(w, e);
    StepKeepsTerms(w, e);
    forall q | q in w'.t.melts ensures AsksForBill(w'.t, NextBills(w, e, bills), q) {
      if q in w.t.melts {
        StillAsks(w.t, w'.t, bills, q);
        SameBill(w'.t, bills, NextBills(w, e, bills), q);
      } else {
        MadeAsks(w, e, bills);
      }
    }
    KeysMelts(w.t, w'.t);
  }

  lemma SameBill(t: Tables, bills: map<QuoteId, Bill>, more: map<QuoteId, Bill>, q: QuoteId)
    requires q in t.melts && AsksForBill(t, bills, q)
    requires (q in more <==> q in bills) && (q in bills ==> more[q] == bills[q])
    ensures AsksForBill(t, more, q)
  {
  }

  lemma KeysMelts(t: Tables, t': Tables)
    requires SameMeltTerms(t, t')
    ensures t.melts.Keys <= t'.melts.Keys
  {
  }

  // ----- what goes to lightning -----

  /** Nothing goes out but what was on its way, or a quote that no mint quote of this mint answers. */
  ghost predicate GoesOut(w: World, w': World)
  {
    && (forall q | q in w'.ln :: q in w.ln || (q in w.melting && Outgoing(w.melting[q])))
    && (forall q | q in w'.melting && Outgoing(w'.melting[q]) ::
          || (q in w.melting && Outgoing(w.melting[q]))
          || (q in w.t.melts && !OwnInvoice(w.t, w.t.melts[q].request)))
  }

  predicate MovesPayments(e: Event)
  {
    || e.PayInvoice? || e.PayConfirmed? || e.PayDoubted? || e.Recheck? || e.Finalize? || e.MeltAbort? || e.RefreshRead?
    || e.RefreshSettled? || e.RefreshFailed? || e.LightningProgress? || e.Crash?
  }

  lemma SwapsStay(w: World, e: Event)
    requires e.SwapReserve? || e.SwapSettle? || e.SwapClean? || e.SwapAbort? || e.RotateKeyset?
    ensures Step(w, e).ln == w.ln && Step(w, e).melting == w.melting
  {
    hide Rotate, ReserveSwap, ValidateSwap, SettleSwapBlock, DeleteProofs, AsPending, Ys;
  }

  lemma QuotesStay(w: World, e: Event)
    requires e.CreateMintQuote? || e.CreateMeltQuote? || e.InvoicePaid?
    ensures Step(w, e).ln == w.ln && Step(w, e).melting == w.melting
  {
    hide SaveMintQuote, SaveMeltQuote;
  }

  lemma LoadStays(w: World, e: Event)
    requires e.MintLoad? || e.MintAbort?
    ensures Step(w, e).ln == w.ln && Step(w, e).melting == w.melting
  {
    hide ValidateIssuance;
  }

  lemma ReconcileStays(w: World, m: QuoteId, status: PaymentStatus, c: Commit)
    ensures var w' := StepMintReconcile(w, m, status, c); w'.ln == w.ln && w'.melting == w.melting
  {
    hide ReconcileMint;
  }

  lemma IssueStays(w: World, m: QuoteId, c: Commit)
    ensures var w' := StepMintIssue(w, m, c); w'.ln == w.ln && w'.melting == w.melting
  {
    hide IssueMint;
  }

  lemma MintsStay(w: World, e: Event)
    requires e.MintLoad? || e.MintReconcile? || e.MintIssue? || e.MintAbort?
    ensures Step(w, e).ln == w.ln && Step(w, e).melting == w.melting
  {
    hide StepMintLoad, StepMintReconcile, StepMintIssue;
    match e
    case MintReconcile(m, status, c) => ReconcileStays(w, m, status, c);
    case MintIssue(m, c) => IssueStays(w, m, c);
    case _ => LoadStays(w, e);
  }

  lemma OthersStay(w: World, e: Event)
    requires !MovesPayments(e) && !e.MeltReserve?
    ensures Step(w, e).ln == w.ln && Step(w, e).melting == w.melting
  {
    hide Step;
    if e.SwapReserve? || e.SwapSettle? || e.SwapClean? || e.SwapAbort? || e.RotateKeyset? {
      SwapsStay(w, e);
    } else if e.CreateMintQuote? || e.CreateMeltQuote? || e.InvoicePaid? {
      QuotesStay(w, e);
    } else {
      MintsStay(w, e);
    }
  }

  lemma PayingGoesOut(w: World, e: Event)
    requires e.PayInvoice? || e.PayConfirmed? || e.LightningProgress?
    ensures GoesOut(w, Step(w, e))
  {
    hide OwnInvoice;
  }

  lemma DoubtGoesOut(w: World, q: QuoteId, checkingId: string, c: Commit)
    ensures GoesOut(w, StepPayDoubted(w, q, checkingId, c))
  {
    hide SetMelt, OwnInvoice;
  }

  lemma RecheckGoesOut(w: World, q: QuoteId, status: PaymentStatus, fee: nat, c: Commit)
    ensures GoesOut(w, StepRecheck(w, q, status, fee, c))
  {
    hide SetMelt, ReleaseMelt, Ys, OwnInvoice;
  }

  lemma RefreshGoesOut(w: World, e: Event)
    requires e.RefreshRead? || e.RefreshFailed?
    ensures GoesOut(w, Step(w, e))
  {
    hide SetMelt, ReleaseMelt, Ys, OwnInvoice;
  }

  lemma SettlingGoesOut(w: World, e: Event)
    requires e.Finalize? || e.RefreshSettled? || e.MeltAbort? || e.Crash?
    ensures GoesOut(w, Step(w, e))
  {
    hide FinalizeMelt, RecoverMelt, Ys, OwnInvoice;
  }

  lemma PaymentsGoOut(w: World, e: Event)
    requires MovesPayments(e)
    ensures GoesOut(w, Step(w, e))
  {
    hide GoesOut, StepPayInvoice, StepPayConfirmed, StepPayDoubted, StepRecheck, StepFinalize, StepRefreshRead,
      StepRefreshSettled, StepRefreshFailed;
    match e
    case PayDoubted(q, checkingId, c) => DoubtGoesOut(w, q, checkingId, c);
    case Recheck(q, status, fee, c) => RecheckGoesOut(w, q, status, fee, c);
    case RefreshRead(_, _) => RefreshGoesOut(w, e);
    case RefreshFailed(_, _) => RefreshGoesOut(w, e);
    case PayInvoice(_, _) => PayingGoesOut(w, e);
    case PayConfirmed(_, _, _) => PayingGoesOut(w, e);
    case LightningProgress(_, _) => PayingGoesOut(w, e);
    case _ => SettlingGoesOut(w, e);
  }

  /** A quote for an invoice of this mint is settled in the reserving block. */
  lemma OwnIsSettled(t: Tables, q: QuoteId, inputs: seq<Proof>, outputs: seq<BlindedMessage>)
    requires ReserveMelt(t, q, inputs, outputs).Ok?
    ensures q in t.melts && q in ReserveMelt(t, q, inputs, outputs).value.melts
    ensures OwnInvoice(t, t.melts[q].request) ==> ReserveMelt(t, q, inputs, outputs).value.melts[q].state == PAID
  {
    hide ReserveMelt, Base, InternalTables, AsPendingFor, CanInsert, DistinctYs;
    ReservedTables(t, q, inputs, outputs);
    Insertable(t.proofs, AsPendingFor(inputs, q));
    ReservedQuotes(t, q, inputs, outputs);
  }

  lemma ReservePhases(w: World, q: QuoteId, inputs: seq<Proof>, outputs: seq<BlindedMessage>, verified: bool, c: Commit)
    ensures var w' := StepMeltReserve(w, q, inputs, outputs, verified, c);
      && w'.ln == w.ln
      && (w'.melting == w.melting
          || (ReserveMelt(w.t, q, inputs, outputs).Ok? && q in w'.melting && w'.melting == w.melting[q := w'.melting[q]]
              && (Outgoing(w'.melting[q]) ==> ReserveMelt(w.t, q, inputs, outputs).value.melts[q].state != PAID)))
  {
    hide ReserveMelt, ValidateMelt, AsPendingFor;
  }

  lemma ReservedGoesOut(w: World, e: Event)
    requires e.MeltReserve?
    ensures GoesOut(w, StepMeltReserve(w, e.q, e.inputs, e.outputs, e.verified, e.c))
  {
    hide StepMeltReserve, ReserveMelt, OwnInvoice, Outgoing;
    ReservePhases(w, e.q, e.inputs, e.outputs, e.verified, e.c);
    if ReserveMelt(w.t, e.q, e.inputs, e.outputs).Ok? {
      OwnIsSettled(w.t, e.q, e.inputs, e.outputs);
    }
  }

  lemma StepGoesOut(w: World, e: Event)
    ensures GoesOut(w, Step(w, e))
  {
    hide GoesOut, StepMeltReserve;
    if e.MeltReserve? {
      ReservedGoesOut(w, e);
    } else if MovesPayments(e) {
      PaymentsGoOut(w, e);
    } else {
      OthersStay(w, e);
      NothingGoesOut(w, Step(w, e));
    }
  }

  lemma NothingGoesOut(w: World, w': World)
    requires w'.ln == w.ln && w'.melting == w.melting
    ensures GoesOut(w, w')
  {
  }

  lemma StepBillsOutgoing(w: World, e: Event, bills: map<QuoteId, Bill>)
    requires QuotesBilled(w.t, bills) && OutgoingBilled(w, bills)
    ensures OutgoingBilled(Step(w, e), NextBills(w, e, bills))
  {
    hide Step, OwnInvoice, Outgoing;
    StepGoesOut(w, e);
    var w', more := Step(w, e), NextBills(w, e, bills);
    forall q | q in w'.melting && Outgoing(w'.melting[q]) ensures q in more {
      if !(q in w.melting && Outgoing(w.melting[q])) {
        assert AsksForBill(w.t, bills, q);
      }
    }
  }

  lemma {:induction false} RunIsBilled(w: World, es: seq<Event>)
    requires w.t.melts == map[] && w.ln == map[] && w.melting == map[]
    ensures QuotesBilled(Run(w, es).t, Bills(w, es)) && OutgoingBilled(Run(w, es), Bills(w, es))
  {
    hide Step, AsksForBill, NextBills;
    if es != [] {
      var fewer := es[..|es| - 1];
      RunIsBilled(w, fewer);
      StepKeepsBills(Run(w, fewer), es[|es| - 1], Bills(w, fewer));
      StepBillsOutgoing(Run(w, fewer), es[|es| - 1], Bills(w, fewer));
    }
  }

  /**
   * Over every run from a first start: a melt quote that was sent to lightning asks its owner for exactly what the
   * backend answered when it was made, with a reserve above the backend's fee.
   */
  lemma SentAsksForBill(ks: Keysets, es: seq<Event>, q: QuoteId)
    requires q in Run(Start(ks), es).ln
    ensures var w, bills := Run(Start(ks), es), Bills(Start(ks), es);
      && q in w.t.melts && q in bills
      && w.t.melts[q].amount == bills[q].amount && w.t.melts[q].feeReserve == bills[q].fee + 1
  {
    RunIsBilled(Start(ks), es);
    var w, bills := Run(Start(ks), es), Bills(Start(ks), es);
    hide Run, Bills, OwnInvoice;
    assert q in bills && AsksForBill(w.t, bills, q);
  }

  /** What lightning has taken for one unit's quotes: the bill and the fee of every payment that went through. */
  ghost function Taken(w: World, bills: map<QuoteId, Bill>, u: Unit): map<QuoteId, nat>
  {
    map q | q in w.t.melts :: If(w.t.melts[q].unit == u && q in w.ln && w.ln[q].Settled? && q in bills,
                                 BillOf(bills, q) + PaymentFee(w, q))
  }

  ghost function BillOf(bills: map<QuoteId, Bill>, q: QuoteId): nat
  {
    if q in bills then bills[q].amount else 0
  }

  ghost function PaymentFee(w: World, q: QuoteId): nat
  {
    if q in w.ln && w.ln[q].Settled? then w.ln[q].fee else 0
  }

  lemma TakenFor(w: World, bills: map<QuoteId, Bill>, q: QuoteId)
    requires q in w.t.melts && AsksForBill(w.t, bills, q) && (q in w.ln ==> q in bills)
    ensures Outflow(View(w, q)) == if q in w.ln && w.ln[q].Settled? then BillOf(bills, q) + PaymentFee(w, q) else 0
  {
    hide OwnInvoice, RowsOf, ChangeOf;
  }

  lemma TakenIsOutflow(w: World, bills: map<QuoteId, Bill>, u: Unit)
    requires QuotesBilled(w.t, bills) && OutgoingBilled(w, bills)
    ensures Taken(w, bills, u) == PaidOut(w, u)
  {
    hide View, Outflow, BillOf, PaymentFee, AsksForBill;
    forall q | q in w.t.melts ensures Taken(w, bills, u)[q] == PaidOut(w, u)[q] {
      TakenFor(w, bills, q);
    }
  }

  // ----- the id that lightning knows a payment by -----

  lemma NewQuoteKeepsIds(w: World, e: Event)
    requires e.CreateMeltQuote? || e.CreateMintQuote?
    ensures KeepIds(w.t, Step(w, e).t)
  {
    hide SaveMeltQuote, SaveMintQuote, OwnInvoice;
    if e.CreateMeltQuote? {
      MeltQuoteSavedIff(w.t, e.q, e.request, e.unit, e.mppAmount, e.backendAmount, e.backendFee, e.checkingId);
    } else {
      MintQuoteSavedIff(w.t, e.m, e.request, e.unit);
    }
  }

  lemma DoubtSavesId(w: World, r: QuoteId, checkingId: string, c: Commit, q: QuoteId)
    requires q in w.t.melts
    ensures var t' := StepPayDoubted(w, r, checkingId, c).t;
      && q in t'.melts
      && t'.melts[q].checkingId == if r == q && q in w.melting && w.melting[q].Sent? && c != NotApplied
                                   then checkingId else w.t.melts[q].checkingId
  {
  }

  /**
   * The id that a refresh asks lightning by is the one of the payment itself: a doubted payment's own id is saved
   * before it is asked about, and nothing else ever changes the id of a quote.
   */
  lemma CheckingIdIs(w: World, e: Event, q: QuoteId)
    requires q in w.t.melts
    ensures var t' := Step(w, e).t;
      && q in t'.melts
      && t'.melts[q].checkingId ==
           if e.PayDoubted? && e.q == q && q in w.melting && w.melting[q].Sent? && e.c != NotApplied
           then e.checkingId else w.t.melts[q].checkingId
  {
    hide KeepTerms, StepPayDoubted;
    if e.PayDoubted? {
      DoubtSavesId(w, e.q, e.checkingId, e.c, q);
    } else {
      hide Step;
      if e.CreateMeltQuote? || e.CreateMintQuote? {
        NewQuoteKeepsIds(w, e);
      } else if WritesNoTable(e) {
        NothingWritten(w, e);
      } else {
        WritingKeepsTerms(w, e);
      }
    }
  }
}
