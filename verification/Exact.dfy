/** When the uint64 arithmetic of the mint computes what the integers would (internal/mint/swapping.go, melting.go). */
module Exact {
  import opened Prelude
  import opened Totals
  import opened Cashu
  import opened Store
  import opened Amounts
  import opened Fees
  import opened Transactions
  import opened World
  import opened Modular

  lemma WrapOfDifference(a: int, b: int)
    ensures Wrap(Wrap(a) - Wrap(b)) == Wrap(a - b)
  {
  }

  lemma WrapOfSum(a: int, b: int)
    ensures Wrap(a + Wrap(b)) == Wrap(a + b)
  {
  }

  /** The balance test passes exactly when the two sides differ by a multiple of 2^64. */
  lemma BalanceIsModular(ins: nat, fee: nat, outs: nat)
    ensures BalanceIsZero(Wrap(ins), fee, Wrap(outs)) <==> (ins - fee - outs) % TWO_64 == 0
  {
    WrapOfSum(fee, outs);
    WrapOfDifference(ins, fee + outs);
    assert Wrap(ins - (fee + outs)) == (ins - fee - outs) % TWO_64;
    hide Wrap;
  }

  /** So for given outputs it means equality over the integers, whatever is paid in, exactly when nothing wraps. */
  lemma BalanceIsExactIff(fee: nat, outputs: seq<BlindedMessage>)
    ensures (forall ins | 0 <= ins < TWO_64 ::
              BalanceIsZero(ins, fee, Outputs64(outputs)) ==> ins == fee + SumOf(OutputAmount(), outputs))
       <==> fee + SumOf(OutputAmount(), outputs) < TWO_64
  {
    var outs := SumOf(OutputAmount(), outputs);
    hide SumOf;
    assert BalanceIsZero(Wrap(fee + outs), fee, Outputs64(outputs)) by {
      BalanceIsModular(fee + outs, fee, outs);
    }
    forall ins | 0 <= ins < TWO_64 && BalanceIsZero(ins, fee, Outputs64(outputs)) && fee + outs < TWO_64
      ensures ins == fee + outs
    {
      BalanceIsModular(ins, fee, outs);
    }
  }

  const ONE_UNIT_FEE: Keysets := map["k" := Keyset(Sat, 1000, true)]
  const ONE_INPUT := [Proof(1, "k", "", Point(0), Point(0), None, ProofUnspent, 0)]
  const HUGE_OUTPUTS := [BlindedMessage(Point(1), "k", TWO_63), BlindedMessage(Point(2), "k", TWO_63)]

  lemma HugeSums()
    ensures SumOf(AmountOf(), ONE_INPUT) == 1 && SumOf(OutputAmount(), HUGE_OUTPUTS) == TWO_63 + TWO_63
    ensures FeeOf(ONE_UNIT_FEE, ONE_INPUT) == Some(1) && IsPow2(1)
  {
    SumOfSnoc(AmountOf(), [], ONE_INPUT[0]);
    SumOfSnoc(Ppk(ONE_UNIT_FEE), [], ONE_INPUT[0]);
    SumOfSnoc(OutputAmount(), [], HUGE_OUTPUTS[0]);
    SumOfSnoc(OutputAmount(), [HUGE_OUTPUTS[0]], HUGE_OUTPUTS[1]);
    assert ONE_INPUT == [] + [ONE_INPUT[0]];
    assert [] + [HUGE_OUTPUTS[0]] == [HUGE_OUTPUTS[0]];
    assert HUGE_OUTPUTS == [HUGE_OUTPUTS[0]] + [HUGE_OUTPUTS[1]];
    hide SumOf;
  }

  lemma HugeBalance()
    ensures BalanceIsZero(Wrap(1), 1, Wrap(TWO_63 + TWO_63))
  {
    BalanceIsModular(1, 1, TWO_63 + TWO_63);
  }

  /** Amounts that no keyset has: one input of 1 with a fee of 1 passes validation with two outputs of 2^63. */
  lemma HugeOutputsPassTheBalanceTest()
    ensures ValidateSwap(ONE_UNIT_FEE, ONE_INPUT, HUGE_OUTPUTS, true) == None
    ensures SumOf(AmountOf(), ONE_INPUT) == 1 && SumOf(OutputAmount(), HUGE_OUTPUTS) == TWO_64
  {
    HugeSums();
    HugeBalance();
    hide SumOf, FeeOf, BalanceIsZero, IsPow2, Wrap;
  }

  lemma WrapOfProduct(a: nat, k: nat)
    ensures Wrap(Wrap(a) * k) == Wrap(a * k)
  {
    var q, r := a / TWO_64, Wrap(a);
    Regroup(q, r, k, TWO_64);
    Shift(r * k, q * k, TWO_64);
  }

  lemma Regroup(q: nat, r: nat, k: nat, n: nat)
    ensures (q * n + r) * k == r * k + (q * k) * n
  {
  }

  lemma OutputsInMsat(unit: Unit, outputs: seq<BlindedMessage>)
    ensures ToMsat64(unit, Outputs64(outputs)) == Wrap(MsatOf(unit, SumOf(OutputAmount(), outputs)))
  {
    WrapOfProduct(SumOf(OutputAmount(), outputs), 1000);
    hide SumOf, Wrap;
  }

  /** Issuing tests millisatoshi on uint64s: exact, whatever the invoice, exactly when the outputs' worth fits. */
  lemma IssuanceIsExactIff(unit: Unit, outputs: seq<BlindedMessage>)
    ensures (forall msat | 0 <= msat < TWO_64 ::
              MatchesInvoice(msat, unit, Outputs64(outputs)) ==> msat == MsatOf(unit, SumOf(OutputAmount(), outputs)))
       <==> MsatOf(unit, SumOf(OutputAmount(), outputs)) < TWO_64
  {
    OutputsInMsat(unit, outputs);
    hide SumOf, ToMsat64, Outputs64, MsatOf;
    assert MatchesInvoice(ToMsat64(unit, Outputs64(outputs)), unit, Outputs64(outputs));
  }

  const HUGE_OUTPUT := [BlindedMessage(Point(1), "k", 0x2000_0000_0000_0001)]

  /** One output of 2^61 + 1 satoshis passes the checks of issuing for an invoice of one satoshi. */
  lemma HugeOutputsPassTheIssuanceTest(t: Tables)
    requires "m" in t.mints && t.mints["m"] == MintQuote(Invoice("h", 1000), Sat, PAID, false) && Point(1) !in t.sigs
    ensures ValidateIssuance(ONE_UNIT_FEE, t, "m", HUGE_OUTPUT) == None
  {
    assert HUGE_OUTPUT[..0] == [];
    assert SumOf(OutputAmount(), HUGE_OUTPUT) == 0x2000_0000_0000_0001;
    OutputsInMsat(Sat, HUGE_OUTPUT);
    assert HUGE_OUTPUT[0].b == Point(1);
  }

  const MANY: nat := 0x1_0000_0000

  /** Fewer than 2^32 inputs and outputs with amounts of a keyset, and a bounded fee: the test is exact. */
  lemma BalanceOfKeysetAmounts(inputs: seq<Proof>, fee: nat, outputs: seq<BlindedMessage>)
    requires |inputs| < MANY && |outputs| < MANY && fee < TWO_63
    requires forall i | 0 <= i < |inputs| :: inputs[i].amount <= MAX_KEYSET_AMOUNT
    requires forall i | 0 <= i < |outputs| :: outputs[i].amount <= MAX_KEYSET_AMOUNT
    ensures BalanceIsZero(Amount64(inputs), fee, Outputs64(outputs))
       <==> SumOf(AmountOf(), inputs) == SumOf(OutputAmount(), outputs) + fee
  {
    SumOfBound(AmountOf(), inputs, MAX_KEYSET_AMOUNT);
    SumOfBound(OutputAmount(), outputs, MAX_KEYSET_AMOUNT);
    BalanceIsModular(SumOf(AmountOf(), inputs), fee, SumOf(OutputAmount(), outputs));
  }

  ghost predicate FeesFit(ks: Keysets)
  {
    forall id | id in ks :: ks[id].feePpk < FEE_LIMIT
  }

  lemma FeeFitsUint(ks: Keysets, ps: seq<Proof>)
    requires FeesFit(ks) && |ps| < REQUEST_LIMIT && FeeOf(ks, ps).Some?
    ensures FeeOf(ks, ps).value < QUOTE_LIMIT
  {
    SumOfBound(Ppk(ks), ps, FEE_LIMIT);
  }

  lemma InputsFit(ps: seq<Proof>)
    requires |ps| < REQUEST_LIMIT && forall i | 0 <= i < |ps| :: ps[i].amount <= MAX_KEYSET_AMOUNT
    ensures Amount64(ps) == SumOf(AmountOf(), ps) < QUOTE_LIMIT
  {
    SumOfBound(AmountOf(), ps, MAX_KEYSET_AMOUNT);
  }

  lemma OutputsFit(ms: seq<BlindedMessage>)
    requires |ms| < REQUEST_LIMIT && forall i | 0 <= i < |ms| :: ms[i].amount <= MAX_KEYSET_AMOUNT
    ensures Outputs64(ms) == SumOf(OutputAmount(), ms) < 0x8_0000_0000_0000
  {
    SumOfBound(OutputAmount(), ms, MAX_KEYSET_AMOUNT);
  }

  /** A weight that ignores state and quote sums the same over the rows made from a request. */
  lemma {:induction false} PendingForSums(w: Proof -> nat, ps: seq<Proof>, q: QuoteId)
    requires forall p: Proof :: w(p.(state := ProofPending, quote := Some(q))) == w(p)
    ensures SumOf(w, AsPendingFor(ps, q)) == SumOf(w, ps)
  {
    if ps != [] {
      var n := |ps| - 1;
      assert AsPendingFor(ps, q)[..n] == AsPendingFor(ps[..n], q);
      PendingForSums(w, ps[..n], q);
    }
  }

  lemma {:induction false} PendingSums(w: Proof -> nat, ps: seq<Proof>)
    requires forall p: Proof :: w(p.(state := ProofPending)) == w(p)
    ensures SumOf(w, AsPending(ps)) == SumOf(w, ps)
  {
    if ps != [] {
      var n := |ps| - 1;
      assert AsPending(ps)[..n] == AsPending(ps[..n]);
      PendingSums(w, ps[..n]);
    }
  }

  /** A list of rows carries the fee that its row map holds. */
  lemma FeeOfRows(ks: Keysets, ps: seq<Proof>)
    requires DistinctYs(ps) && Known(ks, ps)
    ensures FeeOf(ks, ps) == Some(RoundUp(Held(Ppk(ks), RowMap(ps))))
  {
    SumOfRows(Ppk(ks), ps);
  }
}
