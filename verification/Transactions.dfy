/**
 * What each begin..commit block of the mint does to the tables, as a function from the tables at begin to the
 * tables at commit (internal/mint/swapping.go, melting.go, minting.go). Amounts are Go uint64s: sums wrap.
 */
module Transactions {
  import opened Prelude
  import opened Totals
  import opened Cashu
  import opened Store
  import opened Amounts
  import opened Fees

  datatype MintError =
    | ProofIsPending | ProofIsSpent | RepeatedOutput | AlreadySigned | Unbalanced | NotEnoughProofs | NoInputs
    | KeysetNotKnown | InactiveKeyset | NotSameUnits | UnitNotSupported | InvalidProof | QuoteNotKnown
    | QuoteIsPending | MeltAlreadyPaid | MintAlreadyPaid | AlreadyIssued | NotPaid | AmountNotEqualToInvoice
    | AmountlessInvoice | MppRefused | DatabaseError

  const MAX_KEYSET_AMOUNT: nat := 0x8000_0000

  // ----- amounts -----

  function Amount64(ps: seq<Proof>): nat
  {
    Wrap(SumOf(AmountOf(), ps))
  }

  function OutputAmount(): BlindedMessage -> nat
  {
    (m: BlindedMessage) => m.amount
  }

  function Outputs64(outputs: seq<BlindedMessage>): nat
  {
    Wrap(SumOf(OutputAmount(), outputs))
  }

  /** An invoice amount in a quote's unit: satoshis drop the fraction. */
  function InUnit(unit: Unit, msat: nat): nat
  {
    if unit == Sat then msat / 1000 else msat
  }

  /** An amount of a unit in millisatoshi, as the uint64 the source computes. */
  function ToMsat64(unit: Unit, amount: nat): nat
  {
    if unit == Sat then Wrap(amount * 1000) else amount
  }

  /** The amount test of issuing, on uint64s. */
  predicate MatchesInvoice(msat: nat, unit: Unit, outs: nat)
  {
    msat == ToMsat64(unit, outs)
  }

  /** The same amount over the integers. */
  function MsatOf(unit: Unit, amount: nat): nat
  {
    if unit == Sat then amount * 1000 else amount
  }

  // ----- checks on a request -----

  /** A keyset of this mint has one key for each power of two up to 2^31. */
  predicate IsKeysetAmount(a: nat)
  {
    IsPow2(a) && a <= MAX_KEYSET_AMOUNT
  }

  /** Every proof names a key of a known keyset; without it no signature verifies. */
  predicate ProofsHaveKeys(ks: Keysets, ps: seq<Proof>)
  {
    forall i | 0 <= i < |ps| :: ps[i].id in ks && IsKeysetAmount(ps[i].amount)
  }

  predicate ProofsAreOf(ks: Keysets, ps: seq<Proof>, unit: Unit)
  {
    forall i | 0 <= i < |ps| :: ps[i].id in ks && ks[ps[i].id].unit == unit
  }

  predicate MessagesHaveKeysets(ks: Keysets, ms: seq<BlindedMessage>)
  {
    forall i | 0 <= i < |ms| :: ms[i].id in ks
  }

  predicate MessagesAreOf(ks: Keysets, ms: seq<BlindedMessage>, unit: Unit)
  {
    forall i | 0 <= i < |ms| :: ms[i].id in ks && ks[ms[i].id].unit == unit
  }

  /** The unit of the first input decides; validation then requires every other input and output to agree. */
  function UnitOf(ks: Keysets, id: KeysetId): Unit
  {
    if id in ks then ks[id].unit else Sat
  }

  /** The swap's balance test, on uint64s. */
  predicate BalanceIsZero(ins: nat, fee: nat, outs: nat)
  {
    Wrap(ins - Wrap(fee + outs)) == 0
  }

  /** The tests of a swap request, in the source's order, with the input fee it was given. */
  function CheckSwap(
      ks: Keysets, fee: Option<nat>, inputs: seq<Proof>, outputs: seq<BlindedMessage>,
      verified: bool): Option<MintError>
  {
    if inputs == [] || outputs == [] then Some(NoInputs)
    else if fee.None? then Some(KeysetNotKnown)
    else if !BalanceIsZero(Amount64(inputs), fee.value, Outputs64(outputs)) then Some(Unbalanced)
    else if inputs[0].id !in ks then Some(KeysetNotKnown)
    else if !ProofsAreOf(ks, inputs, UnitOf(ks, inputs[0].id)) then Some(NotSameUnits)
    else if !MessagesHaveKeysets(ks, outputs) then Some(KeysetNotKnown)
    else if !MessagesAreOf(ks, outputs, UnitOf(ks, inputs[0].id)) then Some(NotSameUnits)
    else if !ProofsHaveKeys(ks, inputs) || !verified then Some(InvalidProof)
    else None
  }

  function ValidateSwap(
      ks: Keysets, inputs: seq<Proof>, outputs: seq<BlindedMessage>, verified: bool): Option<MintError>
  {
    CheckSwap(ks, FeeOf(ks, inputs), inputs, outputs, verified)
  }

  function CheckMelt(
      ks: Keysets, fee: Option<nat>, quote: MeltQuote, inputs: seq<Proof>, outputs: seq<BlindedMessage>, verified: bool)
    : Option<MintError>
  {
    if inputs == [] then Some(NoInputs)
    else if quote.state == PENDING then Some(QuoteIsPending)
    else if quote.melted then Some(MeltAlreadyPaid)
    else if fee.None? then Some(KeysetNotKnown)
    else if Amount64(inputs) < Wrap(quote.amount + quote.feeReserve + fee.value) then Some(NotEnoughProofs)
    else if inputs[0].id !in ks then Some(KeysetNotKnown)
    else if !ProofsAreOf(ks, inputs, UnitOf(ks, inputs[0].id)) then Some(NotSameUnits)
    else if !MessagesHaveKeysets(ks, outputs) then Some(KeysetNotKnown)
    else if !MessagesAreOf(ks, outputs, UnitOf(ks, inputs[0].id)) then Some(NotSameUnits)
    else if !ProofsHaveKeys(ks, inputs) || !verified then Some(InvalidProof)
    else if UnitOf(ks, inputs[0].id) != quote.unit then Some(NotSameUnits)
    else None
  }

  function ValidateMelt(
      ks: Keysets, quote: MeltQuote, inputs: seq<Proof>, outputs: seq<BlindedMessage>,
      verified: bool): Option<MintError>
  {
    CheckMelt(ks, FeeOf(ks, inputs), quote, inputs, outputs, verified)
  }

  // ----- the signer -----

  function SigFor(m: BlindedMessage): RecoverSig
  {
    RecoverSig(m.b, m.id, m.amount)
  }

  function SigsFor(ms: seq<BlindedMessage>): seq<RecoverSig>
  {
    seq(|ms|, i requires 0 <= i < |ms| => SigFor(ms[i]))
  }

  /** Signing succeeds when every message names an active keyset and one of its amounts. */
  predicate CanSign(ks: Keysets, ms: seq<BlindedMessage>)
  {
    forall i | 0 <= i < |ms| :: ms[i].id in ks && ks[ms[i].id].active && IsKeysetAmount(ms[i].amount)
  }

  // ----- checks against the tables -----

  /** validateProofsUnspent. */
  ghost function CheckUnspent(t: Tables, inputs: seq<Proof>): Option<MintError>
  {
    if forall i | 0 <= i < |inputs| :: inputs[i].y !in t.proofs then None
    else if exists i :: 0 <= i < |inputs| && inputs[i].y in t.proofs && t.proofs[inputs[i].y].state == ProofPending
    then Some(ProofIsPending)
    else Some(ProofIsSpent)
  }

  /** ValidateOutputsNotSpent. */
  ghost function CheckOutputs(t: Tables, outputs: seq<BlindedMessage>): Option<MintError>
  {
    if exists i, j :: 0 <= i < j < |outputs| && outputs[i].b == outputs[j].b then Some(RepeatedOutput)
    else if exists i :: 0 <= i < |outputs| && outputs[i].b in t.sigs then Some(AlreadySigned)
    else None
  }

  function AsPending(inputs: seq<Proof>): seq<Proof>
  {
    seq(|inputs|, i requires 0 <= i < |inputs| => inputs[i].(state := ProofPending))
  }

  function AsPendingFor(inputs: seq<Proof>, q: QuoteId): seq<Proof>
  {
    seq(|inputs|, i requires 0 <= i < |inputs| => inputs[i].(state := ProofPending, quote := Some(q)))
  }

  // ----- swaps -----

  /** First block of ExecuteSwap: the inputs become PENDING rows, with the quote field they were sent with. */
  ghost function ReserveSwap(t: Tables, inputs: seq<Proof>, outputs: seq<BlindedMessage>): Result<Tables, MintError>
  {
    if CheckUnspent(t, inputs).Some? then Err(CheckUnspent(t, inputs).value)
    else if CheckOutputs(t, outputs).Some? then Err(CheckOutputs(t, outputs).value)
    else if !CanInsert(t.proofs, AsPending(inputs)) then Err(DatabaseError)
    else Ok(t.(proofs := t.proofs + RowMap(AsPending(inputs))))
  }

  /** Second block: inputs SPENT and all signatures stored. */
  ghost function SettleSwap(t: Tables, inputs: seq<Proof>, sigs: seq<RecoverSig>): Result<Tables, MintError>
  {
    if !CanInsertSigs(t.sigs, sigs) then Err(DatabaseError)
    else Ok(t.(proofs := SetState(t.proofs, Ys(inputs), ProofSpent), sigs := t.sigs + SigMap(sigs)))
  }

  /** removePendingSwapProofs. */
  ghost function DeleteProofs(t: Tables, inputs: seq<Proof>): Tables
  {
    t.(proofs := t.proofs - Ys(inputs))
  }

  // ----- melts -----

  ghost function SetMelt(t: Tables, q: QuoteId, quote: MeltQuote): Tables
  {
    t.(melts := t.melts[q := quote])
  }

  /** settleIfInternalMelt: a mint quote of this mint asked for the very invoice. */
  ghost function SettleIfInternal(t: Tables, q: QuoteId): Result<Tables, MintError>
    requires q in t.melts
  {
    match MintByRequest(t.mints, t.melts[q].request)
    case None => Ok(t)
    case Some(m) =>
      var quote, mint := t.melts[q], t.mints[m];
      if quote.state == PAID then Err(MeltAlreadyPaid)
      else if quote.unit != mint.unit then Err(UnitNotSupported)
      else if mint.state != UNPAID then Err(MintAlreadyPaid)
      else Ok(SetMelt(t.(mints := t.mints[m := mint.(state := PAID)]), q,
        quote.(state := PAID, melted := true, feePaid := 0)))
  }

  /** A saved change message carries no amount. */
  function Unvalued(msgs: seq<BlindedMessage>): seq<BlindedMessage>
  {
    seq(|msgs|, i requires 0 <= i < |msgs| => msgs[i].(amount := 0))
  }

  /** reserveMeltInputsAndMarkPending. */
  ghost function ReserveMelt(
      t: Tables, q: QuoteId, inputs: seq<Proof>, outputs: seq<BlindedMessage>): (r: Result<Tables, MintError>)
    ensures r.Ok? ==> q in t.melts && q in r.value.melts
  {
    if q !in t.melts then Err(QuoteNotKnown)
    else
      var quote := t.melts[q];
      if quote.state == PENDING then Err(QuoteIsPending)
      else if quote.melted then Err(MeltAlreadyPaid)
      else if CheckUnspent(t, inputs).Some? then Err(CheckUnspent(t, inputs).value)
      else if CheckOutputs(t, outputs).Some? then Err(CheckOutputs(t, outputs).value)
      else if !CanInsert(t.proofs, AsPendingFor(inputs, q)) then Err(DatabaseError)
      else
        var t1 := SetMelt(t.(proofs := t.proofs + RowMap(AsPendingFor(inputs, q))), q, quote.(state := PENDING));
        SettleIfInternal(t1.(change := AddChange(t1.change, q, Unvalued(outputs))), q)
  }

  /** The recheck found the payment failed or unknown: the quote goes back and everything reserved is released. */
  ghost function ReleaseMelt(t: Tables, q: QuoteId, ys: set<Point>, feePaid: nat): Tables
    requires q in t.melts
  {
    SetMelt(t.(proofs := t.proofs - ys, change := t.change - {q}), q, t.melts[q].(state := UNPAID, feePaid := feePaid))
  }

  function PaidQuote(quote: MeltQuote, fee: nat, preimage: string): MeltQuote
  {
    quote.(state := PAID, melted := true, feePaid := fee, preimage := preimage)
  }

  /** The last writes of a paid melt: inputs SPENT, quote PAID with its fee and preimage. */
  ghost function MarkPaid(t: Tables, q: QuoteId, ys: set<Point>, fee: nat, preimage: string): Tables
    requires q in t.melts
  {
    SetMelt(t.(proofs := SetState(t.proofs, ys, ProofSpent)), q, PaidQuote(t.melts[q], fee, preimage))
  }

  /** finalizePaidBolt11Melt: change for what was overpaid, then PAID quote and SPENT inputs in one block. */
  ghost function FinalizeMelt(
      ks: Keysets, t: Tables, q: QuoteId, inputs: seq<Proof>, outputs: seq<BlindedMessage>, fee: nat, preimage: string)
    : Result<Tables, MintError>
    requires q in t.melts
  {
    if FeeOf(ks, inputs).None? then Err(KeysetNotKnown)
    else
      var amountProofs := Amount64(inputs);
      var totalExpent := Wrap(t.melts[q].amount + fee + FeeOf(ks, inputs).value);
      var change := if amountProofs > totalExpent && outputs != []
                    then ChangeMessages(amountProofs - totalExpent, outputs) else [];
      if !CanSign(ks, change) then Err(KeysetNotKnown)
      else if change != [] && !CanInsertSigs(t.sigs, SigsFor(change)) then Err(DatabaseError)
      else
        var t1 := if change == [] then t
                  else t.(sigs := t.sigs + SigMap(SigsFor(change)), change := t.change - {q});
        Ok(MarkPaid(t1, q, Ys(inputs), fee, preimage))
  }

  /** The SETTLED branch of RefreshMeltQuoteState: `rows` are the quote's proofs as the database returned them. */
  ghost function RecoverMelt(
      ks: Keysets, t: Tables, q: QuoteId, rows: seq<Proof>, msgs: seq<BlindedMessage>, fee: nat, preimage: string)
    : Result<Tables, MintError>
    requires q in t.melts
  {
    if FeeOf(ks, rows).None? then Err(KeysetNotKnown)
    else
      var totalExpent := Wrap(t.melts[q].amount + fee + FeeOf(ks, rows).value);
      var overpaid := Wrap(Amount64(rows) - totalExpent);
      var change := if msgs != [] && overpaid > 0 then ChangeMessages(overpaid, Unvalued(msgs)) else [];
      if !CanSign(ks, change) then Err(KeysetNotKnown)
      else if msgs != [] && overpaid > 0 && !CanInsertSigs(t.sigs, SigsFor(change)) then Err(DatabaseError)
      else
        var t1 := if msgs != [] && overpaid > 0
                  then t.(sigs := t.sigs + SigMap(SigsFor(change)), change := t.change - {q}) else t;
        Ok(MarkPaid(t1, q, Ys(rows), fee, preimage))
  }

  // ----- quotes and minting -----

  ghost function SaveMeltQuote(
      t: Tables, q: QuoteId, request: Invoice, unit: Unit, mppAmount: nat,
      backendAmount: nat, backendFee: nat, checkingId: string): Result<Tables, MintError>
  {
    if unit != Sat && unit != Msat then Err(UnitNotSupported)
    else if request.msat == 0 then Err(AmountlessInvoice)
    else if mppAmount != 0 && mppAmount > InUnit(unit, request.msat) then Err(MppRefused)
    else
      var internal := MintByRequest(t.mints, request).Some?;
      if mppAmount != 0 && internal then Err(MppRefused)
      else if q in t.melts then Err(DatabaseError)
      else
        var requested := if mppAmount != 0 then mppAmount else InUnit(unit, request.msat);
        Ok(SetMelt(t, q, MeltQuote(
          request, unit, if internal then requested else backendAmount, (if internal then 0 else backendFee) + 1,
          UNPAID, false, 0, "", if internal then q else checkingId, mppAmount != 0)))
  }

  ghost function SaveMintQuote(t: Tables, m: QuoteId, request: Invoice, unit: Unit): Result<Tables, MintError>
  {
    if unit != Sat && unit != Msat then Err(UnitNotSupported)
    else if m in t.mints then Err(DatabaseError)
    else Ok(t.(mints := t.mints[m := MintQuote(request, unit, UNPAID, false)]))
  }

  /** loadAndValidateMintQuoteForIssuance and the amount test of bolt11Mint; both only read. */
  ghost function ValidateIssuance(ks: Keysets, t: Tables, m: QuoteId, outputs: seq<BlindedMessage>): Option<MintError>
  {
    if m !in t.mints then Some(QuoteNotKnown)
    else if t.mints[m].minted then Some(AlreadyIssued)
    else if outputs == [] then Some(NotSameUnits)
    else if !MessagesHaveKeysets(ks, outputs) then Some(KeysetNotKnown)
    else if !MessagesAreOf(ks, outputs, t.mints[m].unit) then Some(NotSameUnits)
    else if CheckOutputs(t, outputs).Some? then CheckOutputs(t, outputs)
    else if !MatchesInvoice(t.mints[m].request.msat, t.mints[m].unit, Outputs64(outputs)) then
      Some(AmountNotEqualToInvoice)
    else None
  }

  /** reconcileBolt11MintQuoteState writes the answer of the backend, and `minted` as it was when the quote was read. */
  ghost function ReconcileMint(t: Tables, m: QuoteId, paid: bool, failed: bool, minted: bool): Tables
    requires m in t.mints
  {
    if paid then t.(mints := t.mints[m := t.mints[m].(state := PAID, minted := minted)])
    else if failed then t.(mints := t.mints[m := t.mints[m].(state := UNPAID, minted := minted)])
    else t
  }

  /** signMintOutputsAndMarkIssued. */
  ghost function IssueMint(ks: Keysets, t: Tables, m: QuoteId, outputs: seq<BlindedMessage>): Result<Tables, MintError>
    requires m in t.mints
  {
    if !CanSign(ks, outputs) then Err(KeysetNotKnown)
    else if !CanInsertSigs(t.sigs, SigsFor(outputs)) then Err(DatabaseError)
    else Ok(t.(mints := t.mints[m := t.mints[m].(state := ISSUED, minted := true)],
      sigs := t.sigs + SigMap(SigsFor(outputs))))
  }
}
