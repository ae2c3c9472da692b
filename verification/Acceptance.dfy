/**
 * Which requests the mint accepts, in terms of the integers and of what the request names; and, for each test of a
 * request, that it accepts exactly those (internal/mint/swapping.go, melting.go, minting.go).
 */
module Acceptance {
  import opened Prelude
  import opened Totals
  import opened Cashu
  import opened Store
  import opened Amounts
  import opened Fees
  import opened Transactions
  import opened Exact
  import opened World

  /** The fee of some inputs: their thousandths, as a whole unit, rounded up. */
  ghost predicate IsFee(ks: Keysets, inputs: seq<Proof>, fee: nat)
  {
    SumOf(Ppk(ks), inputs) <= 1000 * fee < SumOf(Ppk(ks), inputs) + 1000
  }

  /** Every input and output names a known keyset of the unit. */
  ghost predicate OneUnit(ks: Keysets, inputs: seq<Proof>, outputs: seq<BlindedMessage>, unit: Unit)
  {
    && (forall p | p in inputs :: p.id in ks && ks[p.id].unit == unit)
    && (forall m | m in outputs :: m.id in ks && ks[m.id].unit == unit)
  }

  /** Every input verified, under the key of an amount that a keyset has. */
  ghost predicate Genuine(inputs: seq<Proof>, verified: bool)
  {
    verified && forall p | p in inputs :: IsPow2(p.amount) && p.amount <= 0x8000_0000
  }

  /** Inputs are worth the outputs and the fee: over the integers, and as far as a uint64 can tell. */
  ghost predicate Balanced(ks: Keysets, inputs: seq<Proof>, outputs: seq<BlindedMessage>)
  {
    forall fee: nat | IsFee(ks, inputs, fee) :: SumOf(AmountOf(), inputs) == SumOf(OutputAmount(), outputs) + fee
  }

  ghost predicate BalancedModulo(ks: Keysets, inputs: seq<Proof>, outputs: seq<BlindedMessage>)
  {
    forall fee: nat | IsFee(ks, inputs, fee) ::
      (SumOf(AmountOf(), inputs) - fee - SumOf(OutputAmount(), outputs)) % 0x1_0000_0000_0000_0000 == 0
  }

  lemma FeeIs(ks: Keysets, inputs: seq<Proof>, fee: nat)
    requires Known(ks, inputs)
    ensures IsFee(ks, inputs, fee) <==> FeeOf(ks, inputs) == Some(fee)
  {
    hide SumOf;
  }

  lemma FeeExists(ks: Keysets, inputs: seq<Proof>)
    ensures IsFee(ks, inputs, RoundUp(SumOf(Ppk(ks), inputs)))
    ensures forall fee: nat | IsFee(ks, inputs, fee) :: fee == RoundUp(SumOf(Ppk(ks), inputs))
  {
    hide SumOf;
  }

  /** Inputs and outputs few enough, and fees small enough, for no sum of keyset amounts to leave a uint64. */
  ghost predicate Small(ks: Keysets, inputs: seq<Proof>, outputs: seq<BlindedMessage>)
  {
    |inputs| < REQUEST_LIMIT && |outputs| < REQUEST_LIMIT && FeesFit(ks)
  }

  // ----- swaps -----

  /** A swap that may go ahead, as far as uint64s can tell. */
  ghost predicate SoundSwap(ks: Keysets, inputs: seq<Proof>, outputs: seq<BlindedMessage>, verified: bool)
  {
    && inputs != [] && outputs != [] && Genuine(inputs, verified)
    && (exists unit :: OneUnit(ks, inputs, outputs, unit)) && BalancedModulo(ks, inputs, outputs)
  }

  lemma UnitsOf(ks: Keysets, inputs: seq<Proof>, outputs: seq<BlindedMessage>, unit: Unit)
    ensures OneUnit(ks, inputs, outputs, unit) <==> ProofsAreOf(ks, inputs, unit) && MessagesAreOf(ks, outputs, unit)
  {
    if ProofsAreOf(ks, inputs, unit) && MessagesAreOf(ks, outputs, unit) {
      forall p | p in inputs ensures p.id in ks && ks[p.id].unit == unit {
        var i :| 0 <= i < |inputs| && inputs[i] == p;
      }
      forall m | m in outputs ensures m.id in ks && ks[m.id].unit == unit {
        var i :| 0 <= i < |outputs| && outputs[i] == m;
      }
    }
    if OneUnit(ks, inputs, outputs, unit) {
      forall i | 0 <= i < |inputs| ensures inputs[i].id in ks && ks[inputs[i].id].unit == unit {
        assert inputs[i] in inputs;
      }
      forall i | 0 <= i < |outputs| ensures outputs[i].id in ks && ks[outputs[i].id].unit == unit {
        assert outputs[i] in outputs;
      }
    }
  }

  lemma UnitIsFirst(ks: Keysets, inputs: seq<Proof>, outputs: seq<BlindedMessage>)
    requires inputs != []
    ensures (exists unit :: OneUnit(ks, inputs, outputs, unit))
       <==> inputs[0].id in ks && OneUnit(ks, inputs, outputs, UnitOf(ks, inputs[0].id))
  {
    assert inputs[0] in inputs;
  }

  lemma GenuineIs(ks: Keysets, inputs: seq<Proof>, verified: bool)
    requires Known(ks, inputs)
    ensures Genuine(inputs, verified) <==> verified && ProofsHaveKeys(ks, inputs)
  {
    hide IsPow2;
    if verified && ProofsHaveKeys(ks, inputs) {
      forall p | p in inputs ensures IsPow2(p.amount) && p.amount <= 0x8000_0000 {
        var i :| 0 <= i < |inputs| && inputs[i] == p;
      }
    }
    if Genuine(inputs, verified) {
      forall i | 0 <= i < |inputs| ensures IsKeysetAmount(inputs[i].amount) {
        assert inputs[i] in inputs;
      }
    }
  }

  /** There is one fee, so a balance is a balance with that one. */
  lemma BalanceAt(ks: Keysets, inputs: seq<Proof>, outputs: seq<BlindedMessage>)
    ensures var ins, outs := SumOf(AmountOf(), inputs), SumOf(OutputAmount(), outputs);
      var fee := RoundUp(SumOf(Ppk(ks), inputs));
      && (Balanced(ks, inputs, outputs) <==> ins == outs + fee)
      && (BalancedModulo(ks, inputs, outputs) <==> (ins - fee - outs) % TWO_64 == 0)
  {
    FeeExists(ks, inputs);
    hide IsFee, SumOf, RoundUp;
  }

  lemma FeeOfKnown(ks: Keysets, inputs: seq<Proof>)
    requires Known(ks, inputs)
    ensures FeeOf(ks, inputs) == Some(RoundUp(SumOf(Ppk(ks), inputs)))
  {
    hide SumOf;
  }

  lemma ModuloIs(ks: Keysets, inputs: seq<Proof>, outputs: seq<BlindedMessage>)
    requires Known(ks, inputs)
    ensures FeeOf(ks, inputs).Some?
    ensures BalancedModulo(ks, inputs, outputs)
       <==> BalanceIsZero(Amount64(inputs), FeeOf(ks, inputs).value, Outputs64(outputs))
  {
    hide SumOf, BalanceIsZero, IsFee, RoundUp, FeeOf, BalancedModulo, Balanced, Known, Wrap;
    FeeOfKnown(ks, inputs);
    BalanceAt(ks, inputs, outputs);
    BalanceIsModular(SumOf(AmountOf(), inputs), RoundUp(SumOf(Ppk(ks), inputs)), SumOf(OutputAmount(), outputs));
  }

  lemma UnitsKnown(ks: Keysets, inputs: seq<Proof>, outputs: seq<BlindedMessage>, unit: Unit)
    requires OneUnit(ks, inputs, outputs, unit)
    ensures Known(ks, inputs) && MessagesHaveKeysets(ks, outputs)
  {
    forall i | 0 <= i < |inputs| ensures inputs[i].id in ks {
      assert inputs[i] in inputs;
    }
    forall i | 0 <= i < |outputs| ensures outputs[i].id in ks {
      assert outputs[i] in outputs;
    }
  }

  /** The tests of a swap accept exactly these, whatever its size. */
  lemma SwapAcceptedIff(ks: Keysets, inputs: seq<Proof>, outputs: seq<BlindedMessage>, verified: bool)
    ensures ValidateSwap(ks, inputs, outputs, verified) == None <==> SoundSwap(ks, inputs, outputs, verified)
  {
    hide BalanceIsZero, BalancedModulo, Genuine, ProofsHaveKeys, OneUnit, ProofsAreOf, MessagesAreOf, FeeOf, Amount64,
      Outputs64, MessagesHaveKeysets;
    if inputs != [] {
      var unit := UnitOf(ks, inputs[0].id);
      UnitIsFirst(ks, inputs, outputs);
      UnitsOf(ks, inputs, outputs, unit);
      if inputs[0].id in ks && OneUnit(ks, inputs, outputs, unit) {
        UnitsKnown(ks, inputs, outputs, unit);
        GenuineIs(ks, inputs, verified);
        ModuloIs(ks, inputs, outputs);
      }
    }
  }

  /** A swap that pays for its outputs, over the integers, with inputs that verified. */
  ghost predicate PaidSwap(ks: Keysets, inputs: seq<Proof>, outputs: seq<BlindedMessage>, verified: bool)
  {
    && inputs != [] && outputs != [] && Genuine(inputs, verified)
    && (exists unit :: OneUnit(ks, inputs, outputs, unit)) && Balanced(ks, inputs, outputs)
  }

  /** With outputs that can be signed, and within the limits, the two agree. */
  lemma SoundIsPaid(ks: Keysets, inputs: seq<Proof>, outputs: seq<BlindedMessage>, verified: bool)
    requires Small(ks, inputs, outputs) && CanSign(ks, outputs)
    ensures SoundSwap(ks, inputs, outputs, verified) <==> PaidSwap(ks, inputs, outputs, verified)
  {
    hide OneUnit, BalancedModulo, Balanced, CanSign, FeesFit;
    if Genuine(inputs, verified) && exists unit :: OneUnit(ks, inputs, outputs, unit) {
      var unit :| OneUnit(ks, inputs, outputs, unit);
      UnitsKnown(ks, inputs, outputs, unit);
      hide Genuine;
      GenuineIs(ks, inputs, verified);
      BothBalances(ks, inputs, outputs);
    }
  }

  lemma BothBalances(ks: Keysets, inputs: seq<Proof>, outputs: seq<BlindedMessage>)
    requires Small(ks, inputs, outputs) && CanSign(ks, outputs) && ProofsHaveKeys(ks, inputs) && Known(ks, inputs)
    ensures BalancedModulo(ks, inputs, outputs) <==> Balanced(ks, inputs, outputs)
  {
    hide SumOf, BalanceIsZero, IsFee, RoundUp, FeeOf, BalancedModulo, Balanced, Known, FeesFit, IsPow2, Wrap;
    FeeOfKnown(ks, inputs);
    FeeFitsUint(ks, inputs);
    ModuloIs(ks, inputs, outputs);
    BalanceAt(ks, inputs, outputs);
    BalanceOfKeysetAmounts(inputs, RoundUp(SumOf(Ppk(ks), inputs)), outputs);
  }

  /** Outputs that the signer signs: an active keyset each, and an amount that a keyset has. */
  ghost predicate Signable(ks: Keysets, outputs: seq<BlindedMessage>)
  {
    forall m | m in outputs :: m.id in ks && ks[m.id].active && IsPow2(m.amount) && m.amount <= 0x8000_0000
  }

  lemma SignableIs(ks: Keysets, outputs: seq<BlindedMessage>)
    ensures CanSign(ks, outputs) <==> Signable(ks, outputs)
  {
    hide IsPow2;
    if CanSign(ks, outputs) {
      forall m | m in outputs
        ensures m.id in ks && ks[m.id].active && IsPow2(m.amount) && m.amount <= 0x8000_0000
      {
        var i :| 0 <= i < |outputs| && outputs[i] == m;
      }
    }
    if Signable(ks, outputs) {
      forall i | 0 <= i < |outputs|
        ensures outputs[i].id in ks && ks[outputs[i].id].active && IsKeysetAmount(outputs[i].amount)
      {
        assert outputs[i] in outputs;
      }
    }
  }

  /** No input is repeated, and none is known. */
  ghost predicate NewInputs(t: Tables, inputs: seq<Proof>)
  {
    && (forall i, j | 0 <= i < j < |inputs| :: inputs[i].y != inputs[j].y)
    && (forall p | p in inputs :: p.y !in t.proofs)
  }

  lemma NewInputsAre(t: Tables, inputs: seq<Proof>)
    ensures CheckUnspent(t, inputs) == None && CanInsert(t.proofs, AsPending(inputs)) <==> NewInputs(t, inputs)
  {
    if CheckUnspent(t, inputs) == None {
      forall p | p in inputs ensures p.y !in t.proofs {
        var i :| 0 <= i < |inputs| && inputs[i] == p;
      }
      if CanInsert(t.proofs, AsPending(inputs)) {
        forall i, j | 0 <= i < j < |inputs| ensures inputs[i].y != inputs[j].y {
          assert AsPending(inputs)[i].y != AsPending(inputs)[j].y;
        }
      }
    }
    if NewInputs(t, inputs) {
      forall i | 0 <= i < |inputs| ensures inputs[i].y !in t.proofs {
        assert inputs[i] in inputs;
      }
    }
  }

  /** Reserving goes through exactly for new inputs and outputs. */
  lemma ReservedIff(t: Tables, inputs: seq<Proof>, outputs: seq<BlindedMessage>)
    ensures ReserveSwap(t, inputs, outputs).Ok? <==> NewInputs(t, inputs) && NewOutputs(t, outputs)
  {
    hide CheckUnspent, CheckOutputs, CanInsert, NewInputs, NewOutputs;
    NewInputsAre(t, inputs);
    NewOutputsAre(t, outputs);
  }

  lemma NewCanBeStored(t: Tables, outputs: seq<BlindedMessage>)
    requires NewOutputs(t, outputs)
    ensures CanInsertSigs(t.sigs, SigsFor(outputs))
  {
    forall i | 0 <= i < |outputs| ensures outputs[i].b !in t.sigs {
      assert outputs[i] in outputs;
    }
  }

  /** After the two blocks: every input SPENT, and every output signed and stored as it was asked for. */
  ghost predicate SwapDone(t: Tables, inputs: seq<Proof>, outputs: seq<BlindedMessage>, sigs: seq<RecoverSig>)
  {
    && (forall p | p in inputs :: p.y in t.proofs && t.proofs[p.y].state == ProofSpent)
    && |sigs| == |outputs|
    && forall i | 0 <= i < |outputs| ::
         && sigs[i].b == outputs[i].b && sigs[i].id == outputs[i].id && sigs[i].amount == outputs[i].amount
         && outputs[i].b in t.sigs && t.sigs[outputs[i].b] == sigs[i]
  }

  lemma SettledIsDone(
      t: Tables, t': Tables, inputs: seq<Proof>, outputs: seq<BlindedMessage>)
    requires ReserveSwap(t, inputs, outputs).Ok?
    requires SettleSwap(ReserveSwap(t, inputs, outputs).value, AsPending(inputs), SigsFor(outputs)) == Ok(t')
    ensures SwapDone(t', inputs, outputs, SigsFor(outputs))
  {
    hide CheckUnspent, CheckOutputs;
    var ps, sigs := AsPending(inputs), SigsFor(outputs);
    assert t'.sigs == t.sigs + SigMap(sigs);
    forall i | 0 <= i < |outputs| ensures outputs[i].b in t'.sigs && t'.sigs[outputs[i].b] == sigs[i] {
      assert SigMap(sigs)[sigs[i].b] == sigs[i];
    }
    assert t'.proofs == SetState(t.proofs + RowMap(ps), Ys(ps), ProofSpent);
    forall p | p in inputs ensures p.y in t'.proofs && t'.proofs[p.y].state == ProofSpent {
      var i :| 0 <= i < |inputs| && inputs[i] == p;
      assert ps[i].y == p.y && ps[i].y in RowMap(ps) && ps[i].y in Ys(ps);
    }
  }

  // ----- melts -----

  /** A melt that may go ahead: its quote is open, and its inputs cover amount, reserve and fee over the integers. */
  ghost predicate PaidMelt(
      ks: Keysets, quote: MeltQuote, inputs: seq<Proof>, outputs: seq<BlindedMessage>, verified: bool)
  {
    && inputs != [] && quote.state != PENDING && !quote.melted && Genuine(inputs, verified)
    && OneUnit(ks, inputs, outputs, quote.unit)
    && forall fee: nat | IsFee(ks, inputs, fee) ::
         SumOf(AmountOf(), inputs) >= quote.amount + quote.feeReserve + fee
  }

  lemma CoverIs(ks: Keysets, quote: MeltQuote, inputs: seq<Proof>)
    requires |inputs| < REQUEST_LIMIT && FeesFit(ks) && quote.amount + quote.feeReserve < QUOTE_LIMIT
    requires Known(ks, inputs) && ProofsHaveKeys(ks, inputs)
    ensures FeeOf(ks, inputs).Some?
    ensures Amount64(inputs) < Wrap(quote.amount + quote.feeReserve + FeeOf(ks, inputs).value)
       <==> !forall fee: nat | IsFee(ks, inputs, fee) ::
               SumOf(AmountOf(), inputs) >= quote.amount + quote.feeReserve + fee
  {
    FeeExists(ks, inputs);
    var fee := RoundUp(SumOf(Ppk(ks), inputs));
    FeeIs(ks, inputs, fee);
    FeeFitsUint(ks, inputs);
    InputsFit(inputs);
    hide IsFee, FeeOf, SumOf, IsPow2, Known, RoundUp;
  }

  /** The tests of a melt accept exactly these. */
  lemma MeltAcceptedIff(
      ks: Keysets, quote: MeltQuote, inputs: seq<Proof>, outputs: seq<BlindedMessage>, verified: bool)
    requires |inputs| < REQUEST_LIMIT && FeesFit(ks) && quote.amount + quote.feeReserve < QUOTE_LIMIT
    ensures ValidateMelt(ks, quote, inputs, outputs, verified) == None
       <==> PaidMelt(ks, quote, inputs, outputs, verified)
  {
    hide Genuine, ProofsHaveKeys, OneUnit, ProofsAreOf, MessagesAreOf, FeeOf, Amount64, MessagesHaveKeysets, IsFee,
      FeesFit, Wrap, SumOf;
    if inputs != [] {
      UnitsOf(ks, inputs, outputs, UnitOf(ks, inputs[0].id));
      UnitsOf(ks, inputs, outputs, quote.unit);
      FirstUnit(ks, inputs, outputs, quote.unit);
      if inputs[0].id in ks && OneUnit(ks, inputs, outputs, quote.unit) {
        UnitsKnown(ks, inputs, outputs, quote.unit);
        GenuineIs(ks, inputs, verified);
        if ProofsHaveKeys(ks, inputs) {
          CoverIs(ks, quote, inputs);
        }
      }
    }
  }

  lemma FirstUnit(ks: Keysets, inputs: seq<Proof>, outputs: seq<BlindedMessage>, unit: Unit)
    requires inputs != []
    ensures OneUnit(ks, inputs, outputs, unit) ==> inputs[0].id in ks && UnitOf(ks, inputs[0].id) == unit
  {
    assert inputs[0] in inputs;
  }

  // ----- issuing -----

  /** No output is repeated, and none is signed already. */
  ghost predicate NewOutputs(t: Tables, outputs: seq<BlindedMessage>)
  {
    && (forall i, j | 0 <= i < j < |outputs| :: outputs[i].b != outputs[j].b)
    && (forall m | m in outputs :: m.b !in t.sigs)
  }

  lemma NewOutputsAre(t: Tables, outputs: seq<BlindedMessage>)
    ensures CheckOutputs(t, outputs) == None <==> NewOutputs(t, outputs)
  {
    if CheckOutputs(t, outputs) == None {
      forall m | m in outputs ensures m.b !in t.sigs {
        var i :| 0 <= i < |outputs| && outputs[i] == m;
      }
    }
    if NewOutputs(t, outputs) {
      forall i | 0 <= i < |outputs| ensures outputs[i].b !in t.sigs {
        assert outputs[i] in outputs;
      }
    }
  }

  /** Outputs that a mint quote may be issued for: known keysets of its unit, and new. */
  ghost predicate Issuable(ks: Keysets, t: Tables, m: QuoteId, outputs: seq<BlindedMessage>)
  {
    && m in t.mints && !t.mints[m].minted && outputs != []
    && OneUnit(ks, [], outputs, t.mints[m].unit) && NewOutputs(t, outputs)
  }

  /** The tests of issuing accept exactly such outputs whose worth in millisatoshi is the invoice's, on a uint64. */
  lemma IssuanceAcceptedIff(ks: Keysets, t: Tables, m: QuoteId, outputs: seq<BlindedMessage>)
    ensures ValidateIssuance(ks, t, m, outputs) == None <==>
      && Issuable(ks, t, m, outputs)
      && t.mints[m].request.msat
         == (if t.mints[m].unit == Sat then 1000 * SumOf(OutputAmount(), outputs) else SumOf(OutputAmount(), outputs))
            % 0x1_0000_0000_0000_0000
  {
    hide SumOf, OneUnit, MessagesAreOf, MessagesHaveKeysets, CheckOutputs, NewOutputs, ToMsat64, Outputs64;
    NewOutputsAre(t, outputs);
    if m in t.mints {
      OutputsInMsat(t.mints[m].unit, outputs);
      UnitsOf(ks, [], outputs, t.mints[m].unit);
      AllKnown(ks, outputs, t.mints[m].unit);
    }
  }

  lemma AllKnown(ks: Keysets, outputs: seq<BlindedMessage>, unit: Unit)
    ensures MessagesAreOf(ks, outputs, unit) ==> MessagesHaveKeysets(ks, outputs)
  {
  }

  /** With outputs that can be signed: exactly when they are worth the invoice over the integers. */
  lemma SignableIssuanceIff(ks: Keysets, t: Tables, m: QuoteId, outputs: seq<BlindedMessage>)
    requires |outputs| < REQUEST_LIMIT && CanSign(ks, outputs)
    ensures ValidateIssuance(ks, t, m, outputs) == None <==>
      && Issuable(ks, t, m, outputs)
      && t.mints[m].request.msat
         == if t.mints[m].unit == Sat then 1000 * SumOf(OutputAmount(), outputs) else SumOf(OutputAmount(), outputs)
  {
    hide SumOf, Issuable, ValidateIssuance, CanSign;
    IssuanceAcceptedIff(ks, t, m, outputs);
    AmountsFit(ks, outputs);
  }

  lemma AmountsFit(ks: Keysets, outputs: seq<BlindedMessage>)
    requires |outputs| < REQUEST_LIMIT && CanSign(ks, outputs)
    ensures 1000 * SumOf(OutputAmount(), outputs) < TWO_64
  {
    OutputsFit(outputs);
    hide SumOf;
  }

  // ----- why a request is refused -----

  /** Some output is asked for twice. */
  ghost predicate Repeated(outputs: seq<BlindedMessage>)
  {
    exists i, j :: 0 <= i < j < |outputs| && outputs[i].b == outputs[j].b
  }

  ghost predicate SignedAlready(t: Tables, outputs: seq<BlindedMessage>)
  {
    exists m :: m in outputs && m.b in t.sigs
  }

  lemma OutputsRefused(t: Tables, outputs: seq<BlindedMessage>)
    ensures CheckOutputs(t, outputs) ==
      if Repeated(outputs) then Some(RepeatedOutput)
      else if SignedAlready(t, outputs) then Some(AlreadySigned)
      else None
  {
    if SignedAlready(t, outputs) {
      var m :| m in outputs && m.b in t.sigs;
      var i :| 0 <= i < |outputs| && outputs[i] == m;
      assert outputs[i].b in t.sigs;
    }
    if i :| 0 <= i < |outputs| && outputs[i].b in t.sigs {
      assert outputs[i] in outputs;
    }
  }

  /** A refused issuing is told the first thing that is wrong with it. */
  lemma IssuanceRefusal(ks: Keysets, t: Tables, m: QuoteId, outputs: seq<BlindedMessage>)
    ensures var r := ValidateIssuance(ks, t, m, outputs);
      var open := m in t.mints && !t.mints[m].minted;
      var known := open && outputs != [] && OutputsKnown(ks, outputs);
      var alike := known && OneUnit(ks, [], outputs, t.mints[m].unit);
      && (r == Some(QuoteNotKnown) <==> m !in t.mints)
      && (r == Some(AlreadyIssued) <==> m in t.mints && t.mints[m].minted)
      && (r == Some(KeysetNotKnown) <==> open && outputs != [] && !known)
      && (r == Some(NotSameUnits) <==> (open && outputs == []) || (known && !alike))
      && (r == Some(RepeatedOutput) <==> alike && Repeated(outputs))
      && (r == Some(AlreadySigned) <==> alike && !Repeated(outputs) && SignedAlready(t, outputs))
      && (r == Some(AmountNotEqualToInvoice) ==> alike && !Repeated(outputs) && !SignedAlready(t, outputs))
  {
    KnownAre(ks, [], outputs);
    OutputsRefused(t, outputs);
    if m in t.mints {
      UnitsOf(ks, [], outputs, t.mints[m].unit);
    }
    hide CheckOutputs, Repeated, SignedAlready, OutputsKnown, OneUnit, MessagesAreOf, MessagesHaveKeysets, ProofsAreOf;
  }

  ghost predicate InputsKnown(ks: Keysets, inputs: seq<Proof>)
  {
    forall p | p in inputs :: p.id in ks
  }

  ghost predicate OutputsKnown(ks: Keysets, outputs: seq<BlindedMessage>)
  {
    forall m | m in outputs :: m.id in ks
  }

  ghost predicate SomeUnit(ks: Keysets, inputs: seq<Proof>, outputs: seq<BlindedMessage>)
  {
    exists unit :: OneUnit(ks, inputs, outputs, unit)
  }

  lemma KnownAre(ks: Keysets, inputs: seq<Proof>, outputs: seq<BlindedMessage>)
    ensures InputsKnown(ks, inputs) <==> Known(ks, inputs)
    ensures OutputsKnown(ks, outputs) <==> MessagesHaveKeysets(ks, outputs)
  {
    if Known(ks, inputs) {
      forall p | p in inputs ensures p.id in ks {
        var i :| 0 <= i < |inputs| && inputs[i] == p;
      }
    }
    if InputsKnown(ks, inputs) {
      forall i | 0 <= i < |inputs| ensures inputs[i].id in ks {
        assert inputs[i] in inputs;
      }
    }
    if MessagesHaveKeysets(ks, outputs) {
      forall m | m in outputs ensures m.id in ks {
        var i :| 0 <= i < |outputs| && outputs[i] == m;
      }
    }
    if OutputsKnown(ks, outputs) {
      forall i | 0 <= i < |outputs| ensures outputs[i].id in ks {
        assert outputs[i] in outputs;
      }
    }
  }

  lemma FeeKnownIff(ks: Keysets, inputs: seq<Proof>)
    ensures FeeOf(ks, inputs).Some? <==> Known(ks, inputs)
  {
    hide SumOf;
  }

  /** The first units decide: the inputs', and the inputs' and outputs' together. */
  lemma UnitsDecided(ks: Keysets, inputs: seq<Proof>, outputs: seq<BlindedMessage>)
    requires inputs != [] && inputs[0].id in ks
    ensures var unit := UnitOf(ks, inputs[0].id);
      && (ProofsAreOf(ks, inputs, unit) <==> SomeUnit(ks, inputs, []))
      && (ProofsAreOf(ks, inputs, unit) && MessagesAreOf(ks, outputs, unit) <==> SomeUnit(ks, inputs, outputs))
  {
    hide OneUnit, ProofsAreOf, MessagesAreOf;
    var unit := UnitOf(ks, inputs[0].id);
    UnitIsFirst(ks, inputs, []);
    UnitIsFirst(ks, inputs, outputs);
    UnitsOf(ks, inputs, [], unit);
    UnitsOf(ks, inputs, outputs, unit);
    NoMessages(ks, unit);
  }

  lemma NoMessages(ks: Keysets, unit: Unit)
    ensures MessagesAreOf(ks, [], unit)
  {
  }

  lemma FirstKnown(ks: Keysets, inputs: seq<Proof>)
    requires Known(ks, inputs) && inputs != []
    ensures inputs[0].id in ks
  {
  }

  /** A refused swap is told the first thing that is wrong with it. */
  lemma SwapRefusal(ks: Keysets, inputs: seq<Proof>, outputs: seq<BlindedMessage>, verified: bool)
    ensures var r := ValidateSwap(ks, inputs, outputs, verified);
      var balanced := InputsKnown(ks, inputs) && BalancedModulo(ks, inputs, outputs);
      var alike := balanced && SomeUnit(ks, inputs, []);
      && (r == Some(NoInputs) <==> inputs == [] || outputs == [])
      && (inputs != [] && outputs != [] ==>
            && (r == Some(KeysetNotKnown) <==> !InputsKnown(ks, inputs) || (alike && !OutputsKnown(ks, outputs)))
            && (r == Some(Unbalanced) <==> InputsKnown(ks, inputs) && !balanced)
            && (r == Some(NotSameUnits) <==>
                  (balanced && !alike) || (alike && OutputsKnown(ks, outputs) && !SomeUnit(ks, inputs, outputs)))
            && (r == Some(InvalidProof) <==>
                  alike && SomeUnit(ks, inputs, outputs) && !Genuine(inputs, verified)))
  {
    hide BalanceIsZero, BalancedModulo, Genuine, ProofsHaveKeys, ProofsAreOf, MessagesAreOf, FeeOf, Amount64, SomeUnit,
      Outputs64, MessagesHaveKeysets, InputsKnown, OutputsKnown, Known;
    KnownAre(ks, inputs, outputs);
    FeeKnownIff(ks, inputs);
    if inputs != [] && Known(ks, inputs) {
      FirstKnown(ks, inputs);
      UnitsDecided(ks, inputs, outputs);
      GenuineIs(ks, inputs, verified);
      ModuloIs(ks, inputs, outputs);
      AllKnown(ks, outputs, UnitOf(ks, inputs[0].id));
    }
  }

  /** The cover of a melt, as far as a uint64 can tell. */
  ghost predicate CoveredModulo(ks: Keysets, quote: MeltQuote, inputs: seq<Proof>)
  {
    forall fee: nat | IsFee(ks, inputs, fee) ::
      SumOf(AmountOf(), inputs) % TWO_64 >= (quote.amount + quote.feeReserve + fee) % TWO_64
  }

  lemma CoveredIs(ks: Keysets, quote: MeltQuote, inputs: seq<Proof>)
    requires Known(ks, inputs)
    ensures FeeOf(ks, inputs).Some?
    ensures Amount64(inputs) < Wrap(quote.amount + quote.feeReserve + FeeOf(ks, inputs).value)
       <==> !CoveredModulo(ks, quote, inputs)
  {
    FeeExists(ks, inputs);
    FeeOfKnown(ks, inputs);
    hide IsFee, FeeOf, SumOf, Known, RoundUp;
  }

  /** So is a refused melt, in the order of its tests. */
  lemma MeltRefusal(
      ks: Keysets, quote: MeltQuote, inputs: seq<Proof>, outputs: seq<BlindedMessage>, verified: bool)
    ensures var r := ValidateMelt(ks, quote, inputs, outputs, verified);
      var open := inputs != [] && quote.state != PENDING && !quote.melted;
      var covered := open && InputsKnown(ks, inputs) && CoveredModulo(ks, quote, inputs);
      var alike := covered && SomeUnit(ks, inputs, []);
      var together := alike && SomeUnit(ks, inputs, outputs);
      && (r == Some(NoInputs) <==> inputs == [])
      && (r == Some(QuoteIsPending) <==> inputs != [] && quote.state == PENDING)
      && (r == Some(MeltAlreadyPaid) <==> inputs != [] && quote.state != PENDING && quote.melted)
      && (r == Some(KeysetNotKnown) <==>
            (open && !InputsKnown(ks, inputs)) || (alike && !OutputsKnown(ks, outputs)))
      && (r == Some(NotEnoughProofs) <==> open && InputsKnown(ks, inputs) && !covered)
      && (r == Some(InvalidProof) <==> together && !Genuine(inputs, verified))
      && (r == Some(NotSameUnits) <==>
            || (covered && !alike) || (alike && OutputsKnown(ks, outputs) && !together)
            || (together && Genuine(inputs, verified) && !OneUnit(ks, inputs, outputs, quote.unit)))
  {
    hide Genuine, ProofsHaveKeys, ProofsAreOf, MessagesAreOf, FeeOf, Amount64, SomeUnit, Wrap, CoveredModulo,
      MessagesHaveKeysets, InputsKnown, OutputsKnown, Known, OneUnit;
    KnownAre(ks, inputs, outputs);
    FeeKnownIff(ks, inputs);
    if inputs != [] && Known(ks, inputs) {
      FirstKnown(ks, inputs);
      UnitsDecided(ks, inputs, outputs);
      GenuineIs(ks, inputs, verified);
      CoveredIs(ks, quote, inputs);
      AllKnown(ks, outputs, UnitOf(ks, inputs[0].id));
      UnitsOf(ks, inputs, outputs, UnitOf(ks, inputs[0].id));
      FirstUnit(ks, inputs, outputs, quote.unit);
    }
  }
}
