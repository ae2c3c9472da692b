/**
 * The source's fee loop does not look up leading proofs without a keyset id. The blocks are stated with every proof
 * looked up; here the two agree wherever a fee is used (api/cashu/util.go, internal/mint/swapping.go,
 * internal/mint/melting.go).
 */
module LoopFee {
  import opened Prelude
  import opened Totals
  import opened Cashu
  import opened Store
  import opened Fees
  import opened Transactions
  import opened World
  import opened Invariant
  import opened MeltSteps

  /** The fee as the loop gives it; see Fees.Fees. */
  function LoopFeeOf(ks: Keysets, proofs: seq<Proof>): Option<nat>
  {
    FeeOf(ks, FromFirstNamed(proofs))
  }

  lemma NamedFee(ks: Keysets, proofs: seq<Proof>)
    requires proofs != [] ==> proofs[0].id != ""
    ensures LoopFeeOf(ks, proofs) == FeeOf(ks, proofs)
  {
  }

  lemma KnownFee(ks: Keysets, proofs: seq<Proof>)
    requires "" !in ks && Known(ks, proofs)
    ensures LoopFeeOf(ks, proofs) == FeeOf(ks, proofs)
  {
    NamedFee(ks, proofs);
  }

  lemma UnnamedFee(ks: Keysets, proofs: seq<Proof>)
    requires "" !in ks && proofs != [] && proofs[0].id == ""
    ensures FeeOf(ks, proofs) == None
  {
  }

  /**
   * A swap is accepted with the loop's fee exactly when it is accepted with the per-proof fee, and the error is the
   * same but for a first input without a keyset, which may be refused as unbalanced before it is refused as unknown.
   */
  lemma SwapEitherFee(ks: Keysets, inputs: seq<Proof>, outputs: seq<BlindedMessage>, verified: bool)
    requires "" !in ks
    ensures var r := CheckSwap(ks, LoopFeeOf(ks, inputs), inputs, outputs, verified);
      && (r.None? <==> ValidateSwap(ks, inputs, outputs, verified).None?)
      && (r != ValidateSwap(ks, inputs, outputs, verified) ==>
            inputs != [] && inputs[0].id == "" && r == Some(Unbalanced))
  {
    hide FeeOf, LoopFeeOf, BalanceIsZero, Amount64, Outputs64, ProofsAreOf, ProofsHaveKeys, MessagesAreOf;
    if inputs != [] && inputs[0].id == "" {
      UnnamedFee(ks, inputs);
    } else {
      NamedFee(ks, inputs);
    }
  }

  lemma MeltEitherFee(
      ks: Keysets, quote: MeltQuote, inputs: seq<Proof>, outputs: seq<BlindedMessage>, verified: bool)
    requires "" !in ks
    ensures var r := CheckMelt(ks, LoopFeeOf(ks, inputs), quote, inputs, outputs, verified);
      && (r.None? <==> ValidateMelt(ks, quote, inputs, outputs, verified).None?)
      && (r != ValidateMelt(ks, quote, inputs, outputs, verified) ==>
            inputs != [] && inputs[0].id == "" && r == Some(NotEnoughProofs))
  {
    hide FeeOf, LoopFeeOf, Amount64, ProofsAreOf, ProofsHaveKeys, MessagesAreOf;
    if inputs != [] && inputs[0].id == "" {
      UnnamedFee(ks, inputs);
    } else {
      NamedFee(ks, inputs);
    }
  }

  /** The proofs that a request on a melt quote charges its fee for. */
  function ChargedProofs(p: MeltPhase): seq<Proof>
  {
    if p.Refreshing? then p.rows else p.inputs
  }

  lemma ListedAreKnown(ks: Keysets, rows: ProofTable, proofs: seq<Proof>)
    requires ListsRows(proofs, rows) && forall y | y in rows :: RowOk(ks, y, rows[y])
    ensures Known(ks, proofs)
  {
    forall i | 0 <= i < |proofs| ensures proofs[i].id in ks {
      assert rows[proofs[i].y] == proofs[i];
    }
  }

  lemma PhaseListsRows(ks: Keysets, v: MeltView)
    requires MeltOk(ks, v) && v.phase.Some?
    ensures ListsRows(ChargedProofs(v.phase.value), v.rows) && forall y | y in v.rows :: RowOk(ks, y, v.rows[y])
  {
    hide ListsRows, RowOk, Held, HeldFee;
  }

  /** Settling a melt, and recovering it, charges the same with either fee. */
  lemma SettlingEitherFee(w: World, q: QuoteId)
    requires Inv(w) && "" !in w.ks && q in w.melting
    ensures LoopFeeOf(w.ks, ChargedProofs(w.melting[q])) == FeeOf(w.ks, ChargedProofs(w.melting[q]))
  {
    hide Inv, MeltOk, ListsRows, RowOk, FeeOf, LoopFeeOf, Known;
    PhaseKnown(w, q);
    PhaseListsRows(w.ks, View(w, q));
    ListedAreKnown(w.ks, View(w, q).rows, ChargedProofs(w.melting[q]));
    KnownFee(w.ks, ChargedProofs(w.melting[q]));
  }
}
