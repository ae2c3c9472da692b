/**
 * The mint as a state machine. One event is one begin..commit block, one answer of the lightning backend, or a
 * crash; requests on different quotes and different swaps interleave freely. `Step` follows the code; `Assumed`
 * collects what the code relies on but does not check.
 */
module World {
  import opened Prelude
  import opened Totals
  import opened Cashu
  import opened Store
  import opened Fees
  import opened Transactions

  /** How COMMIT ended: applied and acknowledged, not applied, or applied with the acknowledgement lost. */
  datatype Commit = Committed | NotApplied | AckLost

  /** What the lightning network did with the last payment attempt for a melt quote. */
  datatype Attempt = InFlight | Settled(fee: nat, preimage: string) | Dead

  datatype PaymentStatus = SETTLED | FAILED | WAITING | UNKNOWN

  /** How far the one request working on a melt quote has come. */
  datatype MeltPhase =
    | Reserved(inputs: seq<Proof>, outputs: seq<BlindedMessage>)
    | Sent(inputs: seq<Proof>, outputs: seq<BlindedMessage>)
    | Doubtful(inputs: seq<Proof>, outputs: seq<BlindedMessage>)
    | Confirmed(inputs: seq<Proof>, outputs: seq<BlindedMessage>, fee: nat, preimage: string)
    | Refreshing(rows: seq<Proof>)

  datatype SwapPhase =
    | SwapReserved(inputs: seq<Proof>, outputs: seq<BlindedMessage>)
    | SwapFailed(inputs: seq<Proof>)

  /** A request on a mint quote holds the row it read, and outputs if it came to issue. */
  datatype MintPhase = MintPhase(quote: MintQuote, outputs: Option<seq<BlindedMessage>>)

  /** Which inputs a committed block spent, and which outputs a mint quote was issued for. */
  datatype Entry = SpentBySwap(swap: nat, ys: set<Point>) | SpentByMelt(quote: QuoteId, ys: set<Point>)
                 | Issued(mint: QuoteId, outputs: seq<BlindedMessage>)

  datatype World = World(
    t: Tables, ks: Keysets,
    ln: map<QuoteId, Attempt>, received: set<QuoteId>,
    melting: map<QuoteId, MeltPhase>, swapping: map<nat, SwapPhase>, minting: map<QuoteId, MintPhase>,
    log: seq<Entry>)

  /** The outcomes that decide how signSwapOutputsAndMarkInputsSpent ends. */
  datatype SwapOutcome = SwapOutcome(
    signFails: bool, beginFails: bool, writeFails: bool, commit: Commit, firstRollbackNil: bool,
    deferredRollbackNil: bool)

  datatype Event =
    | RotateKeyset(newId: KeysetId, unit: Unit, feePpk: nat)
    | CreateMintQuote(m: QuoteId, request: Invoice, unit: Unit, c: Commit)
    | CreateMeltQuote(q: QuoteId, request: Invoice, unit: Unit, mppAmount: nat,
                      backendAmount: nat, backendFee: nat, checkingId: string, c: Commit)
    | SwapReserve(s: nat, inputs: seq<Proof>, outputs: seq<BlindedMessage>, verified: bool, c: Commit)
    | SwapSettle(s: nat, o: SwapOutcome)
    | SwapClean(s: nat, c: Commit)
    | SwapAbort(s: nat)
    | MeltReserve(q: QuoteId, inputs: seq<Proof>, outputs: seq<BlindedMessage>, verified: bool, c: Commit)
    | PayInvoice(q: QuoteId, attempt: Attempt)
    | PayConfirmed(q: QuoteId, fee: nat, preimage: string)
    | PayDoubted(q: QuoteId, checkingId: string, c: Commit)
    | Recheck(q: QuoteId, status: PaymentStatus, fee: nat, c: Commit)
    | Finalize(q: QuoteId, c: Commit)
    | MeltAbort(q: QuoteId)
    | RefreshRead(q: QuoteId, rows: seq<Proof>)
    | RefreshSettled(q: QuoteId, fee: nat, preimage: string, msgs: seq<BlindedMessage>, c: Commit)
    | RefreshFailed(q: QuoteId, c: Commit)
    | LightningProgress(q: QuoteId, attempt: Attempt)
    | InvoicePaid(m: QuoteId)
    | MintLoad(m: QuoteId, toIssue: Option<seq<BlindedMessage>>)
    | MintReconcile(m: QuoteId, status: PaymentStatus, c: Commit)
    | MintIssue(m: QuoteId, c: Commit)
    | MintAbort(m: QuoteId)
    | Crash

  // ----- keysets -----

  ghost function Rotate(ks: Keysets, newId: KeysetId, unit: Unit, feePpk: nat): Keysets
  {
    if newId in ks then ks
    else
      var off := map id | id in ks :: if ks[id].unit == unit then ks[id].(active := false) else ks[id];
      off[newId := Keyset(unit, feePpk, true)]
  }

  // ----- swaps -----

  ghost function StepSwapReserve(
      w: World, s: nat, inputs: seq<Proof>, outputs: seq<BlindedMessage>, verified: bool, c: Commit): World
  {
    if ValidateSwap(w.ks, inputs, outputs, verified).Some? || ReserveSwap(w.t, inputs, outputs).Err?
      || c == NotApplied then w
    else
      var w1 := w.(t := ReserveSwap(w.t, inputs, outputs).value);
      if c == AckLost then w1 else w1.(swapping := w.swapping[s := SwapReserved(AsPending(inputs), outputs)])
  }

  datatype SwapEnd = SwapEnd(t: Tables, landed: bool, failed: bool, removePending: bool)

  /**
   * signSwapOutputsAndMarkInputsSpent with its named result: a deferred rollback that reports nil turns
   * `removePending` on after the return values are set.
   */
  ghost function SettleSwapBlock(
      ks: Keysets, t: Tables, inputs: seq<Proof>, outputs: seq<BlindedMessage>, o: SwapOutcome): SwapEnd
  {
    if o.signFails || !CanSign(ks, outputs) || o.beginFails then SwapEnd(t, false, true, true)
    else if o.writeFails || SettleSwap(t, inputs, SigsFor(outputs)).Err? then
      SwapEnd(t, false, true, o.deferredRollbackNil)
    else
      var after := SettleSwap(t, inputs, SigsFor(outputs)).value;
      match o.commit
      case Committed => SwapEnd(after, true, false, o.deferredRollbackNil)
      case NotApplied => SwapEnd(t, false, true, o.firstRollbackNil || o.deferredRollbackNil)
      case AckLost => SwapEnd(after, true, true, o.firstRollbackNil || o.deferredRollbackNil)
  }

  ghost function StepSwapSettle(w: World, s: nat, o: SwapOutcome): World
  {
    if s !in w.swapping || !w.swapping[s].SwapReserved? then w
    else
      var phase := w.swapping[s];
      var end := SettleSwapBlock(w.ks, w.t, phase.inputs, phase.outputs, o);
      w.(t := end.t,
         log := if end.landed then w.log + [SpentBySwap(s, Ys(phase.inputs))] else w.log,
         swapping := if end.failed && end.removePending then w.swapping[s := SwapFailed(phase.inputs)]
                     else w.swapping - {s})
  }

  ghost function StepSwapClean(w: World, s: nat, c: Commit): World
  {
    if s !in w.swapping || !w.swapping[s].SwapFailed? then w
    else w.(t := if c == NotApplied then w.t else DeleteProofs(w.t, w.swapping[s].inputs), swapping := w.swapping - {s})
  }

  // ----- melts -----

  /** The request goes on to lightning, or straight to the end if the quote was settled internally. */
  ghost function AfterReserve(
      w: World, q: QuoteId, t: Tables, rows: seq<Proof>, outputs: seq<BlindedMessage>, c: Commit): World
    requires q in t.melts
  {
    if c == AckLost then w.(t := t)
    else if t.melts[q].state == PAID
    then w.(t := t, melting := w.melting[q := Confirmed(rows, outputs, 0, t.melts[q].preimage)])
    else w.(t := t, melting := w.melting[q := Reserved(rows, outputs)])
  }

  ghost function StepMeltReserve(
      w: World, q: QuoteId, inputs: seq<Proof>, outputs: seq<BlindedMessage>, verified: bool, c: Commit): World
  {
    if q !in w.t.melts || ValidateMelt(w.ks, w.t.melts[q], inputs, outputs, verified).Some?
       || ReserveMelt(w.t, q, inputs, outputs).Err? || c == NotApplied then w
    else
      AfterReserve(w, q, ReserveMelt(w.t, q, inputs, outputs).value, AsPendingFor(inputs, q), outputs, c)
  }

  ghost function StepPayInvoice(w: World, q: QuoteId, attempt: Attempt): World
  {
    if q !in w.melting || !w.melting[q].Reserved? then w
    else w.(ln := w.ln[q := attempt], melting := w.melting[q := Sent(w.melting[q].inputs, w.melting[q].outputs)])
  }

  ghost function StepPayConfirmed(w: World, q: QuoteId, fee: nat, preimage: string): World
  {
    if q !in w.melting || !w.melting[q].Sent? then w
    else w.(melting := w.melting[q := Confirmed(w.melting[q].inputs, w.melting[q].outputs, fee, preimage)])
  }

  ghost function StepPayDoubted(w: World, q: QuoteId, checkingId: string, c: Commit): World
  {
    if q !in w.melting || !w.melting[q].Sent? || q !in w.t.melts then w
    else
      var t := if c == NotApplied then w.t else SetMelt(w.t, q, w.t.melts[q].(checkingId := checkingId));
      if c == Committed then w.(t := t, melting := w.melting[q := Doubtful(w.melting[q].inputs, w.melting[q].outputs)])
      else w.(t := t, melting := w.melting - {q})
  }

  ghost function StepRecheck(w: World, q: QuoteId, status: PaymentStatus, fee: nat, c: Commit): World
  {
    if q !in w.melting || !w.melting[q].Doubtful? || q !in w.t.melts then w
    else
      var t := match status
        case SETTLED => SetMelt(w.t, q, w.t.melts[q].(state := PENDING, feePaid := fee))
        case WAITING => SetMelt(w.t, q, w.t.melts[q].(state := PENDING, feePaid := fee))
        case FAILED => ReleaseMelt(w.t, q, Ys(w.melting[q].inputs), fee)
        case UNKNOWN => ReleaseMelt(w.t, q, Ys(w.melting[q].inputs), fee);
      w.(t := if c == NotApplied then w.t else t, melting := w.melting - {q})
  }

  /** The step of a request that commits one block as its last act on a melt quote. */
  ghost function LastMeltBlock(w: World, q: QuoteId, r: Result<Tables, MintError>, ys: set<Point>, c: Commit): World
  {
    if r.Err? || c == NotApplied then w.(melting := w.melting - {q})
    else w.(t := r.value, melting := w.melting - {q}, log := w.log + [SpentByMelt(q, ys)])
  }

  ghost function StepFinalize(w: World, q: QuoteId, c: Commit): World
  {
    if q !in w.melting || !w.melting[q].Confirmed? || q !in w.t.melts then w
    else
      var p := w.melting[q];
      LastMeltBlock(w, q, FinalizeMelt(w.ks, w.t, q, p.inputs, p.outputs, p.fee, p.preimage), Ys(p.inputs), c)
  }

  ghost predicate ListsRows(rows: seq<Proof>, m: ProofTable)
  {
    DistinctYs(rows) && RowMap(rows) == m
  }

  ghost function StepRefreshRead(w: World, q: QuoteId, rows: seq<Proof>): World
  {
    if q !in w.t.melts || w.t.melts[q].state != PENDING then w
    else w.(melting := w.melting[q := Refreshing(rows)])
  }

  ghost function StepRefreshSettled(
      w: World, q: QuoteId, fee: nat, preimage: string, msgs: seq<BlindedMessage>, c: Commit): World
  {
    if q !in w.melting || !w.melting[q].Refreshing? || q !in w.t.melts then w
    else
      var rows := w.melting[q].rows;
      LastMeltBlock(w, q, RecoverMelt(w.ks, w.t, q, rows, msgs, fee, preimage), Ys(rows), c)
  }

  ghost function StepRefreshFailed(w: World, q: QuoteId, c: Commit): World
  {
    if q !in w.melting || !w.melting[q].Refreshing? || q !in w.t.melts then w
    else
      var t := ReleaseMelt(w.t, q, Ys(w.melting[q].rows), w.t.melts[q].feePaid);
      w.(t := if c == NotApplied then w.t else t, melting := w.melting - {q})
  }

  // ----- mint quotes -----

  ghost function StepMintLoad(w: World, m: QuoteId, outputs: Option<seq<BlindedMessage>>): World
  {
    if m !in w.t.mints then w
    else if outputs.Some? && ValidateIssuance(w.ks, w.t, m, outputs.value).Some? then w
    else if outputs.None? && w.t.mints[m].state != UNPAID then w
    else w.(minting := w.minting[m := MintPhase(w.t.mints[m], outputs)])
  }

  /** reconcileBolt11MintQuoteState writes from the row read before, then reads the row again. */
  ghost function StepMintReconcile(w: World, m: QuoteId, status: PaymentStatus, c: Commit): World
  {
    if m !in w.minting || w.minting[m].quote.state == PAID || m !in w.t.mints then w
    else
      var p := w.minting[m];
      var t := ReconcileMint(w.t, m, status == SETTLED, status == FAILED, p.quote.minted);
      if c == Committed && p.outputs.Some? then w.(t := t, minting := w.minting[m := p.(quote := t.mints[m])])
      else w.(t := if c == NotApplied then w.t else t, minting := w.minting - {m})
  }

  ghost function StepMintIssue(w: World, m: QuoteId, c: Commit): World
  {
    if m !in w.minting || w.minting[m].outputs.None? || m !in w.t.mints then w
    else
      var p := w.minting[m];
      var w1 := w.(minting := w.minting - {m});
      if p.quote.state != PAID || IssueMint(w.ks, w.t, m, p.outputs.value).Err? || c == NotApplied then w1
      else w1.(t := IssueMint(w.ks, w.t, m, p.outputs.value).value, log := w.log + [Issued(m, p.outputs.value)])
  }

  // ----- one step -----

  ghost function Step(w: World, e: Event): World
  {
    match e
    case RotateKeyset(newId, unit, feePpk) => w.(ks := Rotate(w.ks, newId, unit, feePpk))
    case CreateMintQuote(m, request, unit, c) =>
      if c == NotApplied || SaveMintQuote(w.t, m, request, unit).Err? then w
      else w.(t := SaveMintQuote(w.t, m, request, unit).value)
    case CreateMeltQuote(q, request, unit, mpp, amount, fee, checkingId, c) =>
      if c == NotApplied || SaveMeltQuote(w.t, q, request, unit, mpp, amount, fee, checkingId).Err? then w
      else w.(t := SaveMeltQuote(w.t, q, request, unit, mpp, amount, fee, checkingId).value)
    case SwapReserve(s, inputs, outputs, verified, c) => StepSwapReserve(w, s, inputs, outputs, verified, c)
    case SwapSettle(s, o) => StepSwapSettle(w, s, o)
    case SwapClean(s, c) => StepSwapClean(w, s, c)
    case SwapAbort(s) => w.(swapping := w.swapping - {s})
    case MeltReserve(q, inputs, outputs, verified, c) => StepMeltReserve(w, q, inputs, outputs, verified, c)
    case PayInvoice(q, attempt) => StepPayInvoice(w, q, attempt)
    case PayConfirmed(q, fee, preimage) => StepPayConfirmed(w, q, fee, preimage)
    case PayDoubted(q, checkingId, c) => StepPayDoubted(w, q, checkingId, c)
    case Recheck(q, status, fee, c) => StepRecheck(w, q, status, fee, c)
    case Finalize(q, c) => StepFinalize(w, q, c)
    case MeltAbort(q) => w.(melting := w.melting - {q})
    case RefreshRead(q, rows) => StepRefreshRead(w, q, rows)
    case RefreshSettled(q, fee, preimage, msgs, c) => StepRefreshSettled(w, q, fee, preimage, msgs, c)
    case RefreshFailed(q, c) => StepRefreshFailed(w, q, c)
    case LightningProgress(q, attempt) => if q in w.ln && w.ln[q] == InFlight then w.(ln := w.ln[q := attempt]) else w
    case InvoicePaid(m) => if m in w.t.mints then w.(received := w.received + {m}) else w
    case MintLoad(m, toIssue) => StepMintLoad(w, m, toIssue)
    case MintReconcile(m, status, c) => StepMintReconcile(w, m, status, c)
    case MintIssue(m, c) => StepMintIssue(w, m, c)
    case MintAbort(m) => w.(minting := w.minting - {m})
    case Crash => w.(melting := map[], swapping := map[], minting := map[])
  }

  // ----- assumptions -----

  const REQUEST_LIMIT: nat := 0x10_0000
  const QUOTE_LIMIT: nat := 0x4000_0000_0000_0000
  const FEE_LIMIT: nat := 0x1_0000_0000

  /** Rollback reports nil only for a transaction that is still open, so never once COMMIT was applied. */
  ghost predicate RollbackTells(t: Tables, inputs: seq<Proof>, outputs: seq<BlindedMessage>, o: SwapOutcome)
  {
    !o.writeFails && SettleSwap(t, inputs, SigsFor(outputs)).Ok? && o.commit != NotApplied ==>
      !o.firstRollbackNil && !o.deferredRollbackNil
  }

  ghost predicate FeeFits(w: World, q: QuoteId, attempt: Attempt)
  {
    attempt.Settled? ==> q in w.t.melts && attempt.fee <= w.t.melts[q].feeReserve
  }

  /** What the code relies on: see README for each assumption in words. */
  ghost predicate Assumed(w: World, e: Event)
  {
    match e
    case RotateKeyset(newId, unit, feePpk) => feePpk < FEE_LIMIT
    case CreateMintQuote(m, request, unit, c) =>
      // a new invoice is nobody's yet
      && (forall q | q in w.t.melts :: w.t.melts[q].request != request)
      && (forall k | k in w.t.mints :: w.t.mints[k].request != request)
    case CreateMeltQuote(q, request, unit, mpp, amount, fee, checkingId, c) =>
      // quote ids are random; amounts are bounded
      && (forall y | y in w.t.proofs :: w.t.proofs[y].quote != Some(q))
      && request.msat + mpp + amount + fee + 1 < QUOTE_LIMIT
    case SwapReserve(s, inputs, outputs, verified, c) =>
      s !in w.swapping && |inputs| < REQUEST_LIMIT && |outputs| < REQUEST_LIMIT
    case SwapSettle(s, o) =>
      s in w.swapping && w.swapping[s].SwapReserved? ==>
        RollbackTells(w.t, w.swapping[s].inputs, w.swapping[s].outputs, o)
    case MeltReserve(q, inputs, outputs, verified, c) =>
      // requests on the same quote are serialised
      q !in w.melting && |inputs| < REQUEST_LIMIT
    case PayInvoice(q, attempt) => FeeFits(w, q, attempt)
    case PayConfirmed(q, fee, preimage) => q in w.ln && w.ln[q] == Settled(fee, preimage)
    case Recheck(q, status, fee, c) => status == FAILED || status == UNKNOWN ==> q in w.ln && w.ln[q] == Dead
    case RefreshRead(q, rows) => q !in w.melting && ListsRows(rows, RowsOf(w.t.proofs, q))
    case RefreshSettled(q, fee, preimage, msgs, c) =>
      q in w.ln && w.ln[q] == Settled(fee, preimage) && multiset(msgs) == multiset(ChangeOf(w.t.change, q))
    case RefreshFailed(q, c) => q in w.ln ==> w.ln[q] == Dead
    case LightningProgress(q, attempt) => FeeFits(w, q, attempt)
    case MintLoad(m, toIssue) => m !in w.minting && (toIssue.Some? ==> |toIssue.value| < REQUEST_LIMIT)
    case MintReconcile(m, status, c) => status == SETTLED ==> m in w.received
    case _ => true
  }

  ghost function Start(ks: Keysets): World
  {
    World(Tables(map[], map[], map[], map[], map[]), ks, map[], {}, map[], map[], map[], [])
  }

  /** The world after each event in turn. */
  ghost function Run(w: World, es: seq<Event>): World
  {
    if es == [] then w else Step(Run(w, es[..|es| - 1]), es[|es| - 1])
  }

  ghost predicate AssumedRun(w: World, es: seq<Event>)
  {
    es == [] || (AssumedRun(w, es[..|es| - 1]) && Assumed(Run(w, es[..|es| - 1]), es[|es| - 1]))
  }

  // ----- what a client may do to the ledger -----

  /** No input names a melt quote of this mint in the quote field it was sent with. */
  ghost predicate NamesNoMeltQuote(t: Tables, inputs: seq<Proof>)
  {
    forall i | 0 <= i < |inputs| :: inputs[i].quote.None? || inputs[i].quote.value !in t.melts
  }

  /** The swap passes every check, and its inputs are saved as they were sent. */
  ghost predicate SavesInputs(
      w: World, inputs: seq<Proof>, outputs: seq<BlindedMessage>, verified: bool, c: Commit)
  {
    ValidateSwap(w.ks, inputs, outputs, verified).None? && ReserveSwap(w.t, inputs, outputs).Ok? && c != NotApplied
  }

  /** A swap that the mint accepts names no melt quote; nothing in the code checks this. */
  ghost predicate NamesNoQuote(w: World, e: Event)
  {
    e.SwapReserve? && SavesInputs(w, e.inputs, e.outputs, e.verified, e.c) ==> NamesNoMeltQuote(w.t, e.inputs)
  }

  ghost predicate SwapsNameNoQuote(w: World, es: seq<Event>)
  {
    es == [] || (SwapsNameNoQuote(w, es[..|es| - 1]) && NamesNoQuote(Run(w, es[..|es| - 1]), es[|es| - 1]))
  }

  // ----- what an internal settlement may overtake -----

  /** The block commits, and pays this mint quote from the melt. */
  ghost predicate SettlesInternally(w: World, e: Event, m: QuoteId)
  {
    && e.MeltReserve? && e.c != NotApplied && e.q in w.t.melts
    && ValidateMelt(w.ks, w.t.melts[e.q], e.inputs, e.outputs, e.verified).None?
    && ReserveMelt(w.t, e.q, e.inputs, e.outputs).Ok?
    && MintByRequest(w.t.mints, w.t.melts[e.q].request) == Some(m)
  }

  /** No request on the mint quote that the block pays is in flight; nothing in the code checks this. */
  ghost predicate OvertakesNone(w: World, e: Event)
  {
    forall m | SettlesInternally(w, e, m) :: m !in w.minting
  }

  ghost predicate NothingOvertaken(w: World, es: seq<Event>)
  {
    es == [] || (NothingOvertaken(w, es[..|es| - 1]) && OvertakesNone(Run(w, es[..|es| - 1]), es[|es| - 1]))
  }

  /** A request in flight holds the mint quote's row as it was before a melt paid it. */
  ghost predicate Stale(w: World, m: QuoteId)
  {
    m in w.minting && m in w.t.mints && w.minting[m].quote.state == UNPAID && w.t.mints[m].state == PAID
  }
}
