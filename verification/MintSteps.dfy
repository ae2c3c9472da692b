/** Every step on a mint quote keeps the invariant (internal/mint/minting.go). */
module MintSteps {
  import opened Prelude
  import opened Totals
  import opened Cashu
  import opened Store
  import opened Fees
  import opened Transactions
  import opened Exact
  import opened World
  import opened Invariant
  import opened Frames
  import opened Steps
  import opened MintSums
  import opened Settlement

  /** Nothing moved outside the mint quote, the stored signatures and the log. */
  ghost predicate MintStep(w: World, w': World, m: QuoteId)
  {
    && OnlyMint(w, w', m) && w'.minting - {m} == w.minting - {m} && w'.received <= w'.t.mints.Keys
    && w'.t.proofs == w.t.proofs && w'.t.melts == w.t.melts && w'.t.change == w.t.change
    && w'.ks == w.ks && w'.ln == w.ln && w'.melting == w.melting && w'.swapping == w.swapping
  }

  lemma MeltsUntouched(w: World, w': World, m: QuoteId)
    requires MintStep(w, w', m)
    ensures MeltsOk(w) ==> MeltsOk(w')
    ensures SwapsOk(w) ==> SwapsOk(w')
    ensures w'.t.melts == w.t.melts && forall q | q in w.t.melts :: View(w', q) == View(w, q)
  {
  }

  lemma MintStepConserves(w: World, w': World, m: QuoteId, u: Unit, signed: nat)
    requires Conserved(w, u) && MintStep(w, w', m)
    requires Total(Signed(w', u)) <= Total(Signed(w, u)) + OfMint(w, m, u, signed)
    requires OwedFor(w'.t.mints[m]) + UnclaimedFor(w', m) + signed + ReceivedFor(w, m)
          <= OwedFor(w.t.mints[m]) + UnclaimedFor(w, m) + ReceivedFor(w', m)
    ensures Conserved(w', u)
  {
    hide Total, Owed, Unclaimed, Received, Signed, PaidOut, Surpluses, Consumed, View, Settles, Outflow, Surplus,
      OwedFor, ReceivedFor, UnclaimedFor;
    MeltsUntouched(w, w', m);
    OwedMoves(w, w', m, u);
    UnclaimedMoves(w, w', m, u);
    ReceivedMoves(w, w', m, u);
    ClaimSumsSame(w, w', u);
    ConsumedSame(w, w', u);
  }

  lemma MintsStillOk(w: World, w': World, m: QuoteId)
    requires MintsOk(w) && MintStep(w, w', m) && MintOk(w', m)
    ensures MintsOk(w')
  {
    hide IssuanceFits;
    forall k | k in w'.t.mints ensures MintOk(w', k) {
      assert MintOk(w, k);
      if k != m {
        SameElsewhere(w.minting, w'.minting, m, k);
      }
    }
    forall k, q | k in w'.t.mints && q in w'.t.melts ensures InternalPair(w', k, q) {
      assert InternalPair(w, k, q);
    }
    MintingKnown(w, w', m);
  }

  lemma MintingKnown(w: World, w': World, m: QuoteId)
    requires MintsOk(w) && MintStep(w, w', m)
    ensures w'.minting.Keys <= w'.t.mints.Keys
  {
    KeysKept(w.minting, w'.minting, m, w.t.mints.Keys);
  }

  /** A step on one mint quote that signs nothing and issues nothing. */
  lemma QuietMintStep(w: World, w': World, m: QuoteId)
    requires Inv(w) && MintStep(w, w', m) && MintOk(w', m) && w'.t.sigs == w.t.sigs && w'.log == w.log
    requires w.t.mints[m].state == ISSUED <==> w'.t.mints[m].state == ISSUED
    requires OwedFor(w'.t.mints[m]) + UnclaimedFor(w', m) + ReceivedFor(w, m)
          <= OwedFor(w.t.mints[m]) + UnclaimedFor(w, m) + ReceivedFor(w', m)
    ensures Inv(w')
  {
    hide TablesOk, MeltsOk, SwapsOk, MintsOk, LogOk, Conserved, MintOk, OwedFor, UnclaimedFor, ReceivedFor;
    MeltsUntouched(w, w', m);
    MintsStillOk(w, w', m);
    QuietMintLog(w, w', m);
    SameTablesOk(w, w');
    forall u ensures Conserved(w', u) {
      SameSigs(w, w', u);
      MintStepConserves(w, w', m, u, 0);
    }
  }

  lemma SameSigs(w: World, w': World, u: Unit)
    requires w'.ks == w.ks && w'.t.sigs == w.t.sigs
    ensures Signed(w', u) == Signed(w, u)
  {
  }

  lemma SameTablesOk(w: World, w': World)
    requires TablesOk(w) && w'.ks == w.ks && w'.t.proofs == w.t.proofs && w'.t.sigs == w.t.sigs
    ensures TablesOk(w')
  {
  }

  lemma QuietMintLog(w: World, w': World, m: QuoteId)
    requires LogOk(w) && MintStep(w, w', m) && w'.log == w.log
    requires w.t.mints[m].state == ISSUED <==> w'.t.mints[m].state == ISSUED
    ensures LogOk(w')
  {
  }

  // ----- the events -----

  lemma MintOkIn(w: World, m: QuoteId)
    requires Inv(w) && m in w.t.mints
    ensures MintOk(w, m) && w.received <= w.t.mints.Keys
  {
  }

  lemma MintingIn(w: World, m: QuoteId)
    requires Inv(w) && m in w.minting
    ensures m in w.t.mints && MintOk(w, m) && w.received <= w.t.mints.Keys
  {
  }

  lemma DropMinting(w: World, m: QuoteId)
    requires Inv(w)
    ensures Inv(w.(minting := w.minting - {m}))
  {
    hide Inv, MintOk, OwedFor, UnclaimedFor, ReceivedFor;
    if m in w.minting {
      MintingIn(w, m);
      DropMintingOk(w, m);
      QuietMintStep(w, w.(minting := w.minting - {m}), m);
    } else {
      assert w.minting - {m} == w.minting;
    }
  }

  lemma DropMintingOk(w: World, m: QuoteId)
    requires m in w.t.mints && MintOk(w, m) && w.received <= w.t.mints.Keys
    ensures var w' := w.(minting := w.minting - {m});
      MintOk(w', m) && MintStep(w, w', m) && UnclaimedFor(w', m) == UnclaimedFor(w, m)
        && ReceivedFor(w', m) == ReceivedFor(w, m)
  {
  }

  lemma InvoicePaidKeeps(w: World, m: QuoteId)
    requires Inv(w) && m in w.t.mints
    ensures Inv(w.(received := w.received + {m}))
  {
    hide Inv, MintOk;
    var w' := w.(received := w.received + {m});
    MintOkIn(w, m);
    assert MintOk(w', m) by { InvoicePaidOk(w, m); }
    QuietMintStep(w, w', m);
  }

  lemma InvoicePaidOk(w: World, m: QuoteId)
    requires m in w.t.mints && MintOk(w, m)
    ensures MintOk(w.(received := w.received + {m}), m)
  {
  }

  lemma MintLoadKeeps(w: World, m: QuoteId, outputs: Option<seq<BlindedMessage>>)
    requires Inv(w) && m !in w.minting && (outputs.Some? ==> |outputs.value| < REQUEST_LIMIT)
    ensures Inv(StepMintLoad(w, m, outputs))
  {
    hide Inv, MintOk, OwedFor, UnclaimedFor, ReceivedFor, ValidateIssuance;
    var w' := StepMintLoad(w, m, outputs);
    if w' != w {
      MintOkIn(w, m);
      MintLoadOk(w, m, outputs);
      QuietMintStep(w, w', m);
    }
  }

  lemma MintLoadOk(w: World, m: QuoteId, outputs: Option<seq<BlindedMessage>>)
    requires m in w.t.mints && MintOk(w, m) && w.received <= w.t.mints.Keys && m !in w.minting
    requires outputs.Some? ==> |outputs.value| < REQUEST_LIMIT && ValidateIssuance(w.ks, w.t, m, outputs.value).None?
    requires outputs.None? ==> w.t.mints[m].state == UNPAID
    ensures var w' := w.(minting := w.minting[m := MintPhase(w.t.mints[m], outputs)]);
      MintOk(w', m) && MintStep(w, w', m) && UnclaimedFor(w', m) == UnclaimedFor(w, m)
        && ReceivedFor(w', m) == ReceivedFor(w, m)
  {
  }

  lemma MintReconcileKeeps(w: World, m: QuoteId, status: PaymentStatus, c: Commit)
    requires Inv(w) && (status == SETTLED ==> m in w.received)
    ensures Inv(StepMintReconcile(w, m, status, c))
  {
    hide Inv, MintOk, OwedFor, UnclaimedFor, ReceivedFor;
    var w' := StepMintReconcile(w, m, status, c);
    if m in w.minting && w.minting[m].quote.state != PAID {
      MintingIn(w, m);
      if c == NotApplied {
        DropMinting(w, m);
      } else {
        ReconcileOk(w, m, status, c);
        ReconcileSums(w, w', m);
        QuietMintStep(w, w', m);
      }
    }
  }

  /** The state that the backend's answer leaves in the row. */
  function Answered(state: ActionState, status: PaymentStatus): ActionState
  {
    match status case SETTLED => PAID case FAILED => UNPAID case _ => state
  }

  lemma ReconcileOk(w: World, m: QuoteId, status: PaymentStatus, c: Commit)
    requires m in w.minting && m in w.t.mints && MintOk(w, m) && w.received <= w.t.mints.Keys
    requires w.minting[m].quote.state != PAID && c != NotApplied && (status == SETTLED ==> m in w.received)
    ensures var w' := StepMintReconcile(w, m, status, c);
      && MintStep(w, w', m) && MintOk(w', m) && w'.t.sigs == w.t.sigs && w'.log == w.log
      && w'.received == w.received && w'.t.mints[m] == w.t.mints[m].(state := Answered(w.t.mints[m].state, status))
      && (w.t.mints[m].state == UNPAID || w.t.mints[m].state == PAID)
  {
  }

  /**
   * The write moves the state to the backend's answer and nothing else, whatever a melt did to the row meanwhile. A
   * request that came to issue goes on with the row as written; every other ends here.
   */
  lemma ReconcileWrites(w: World, m: QuoteId, status: PaymentStatus, c: Commit)
    requires m in w.minting && m in w.t.mints && MintOk(w, m)
    requires w.minting[m].quote.state != PAID && c != NotApplied
    ensures w.t.mints[m].state == UNPAID || Stale(w, m)
    ensures var w' := StepMintReconcile(w, m, status, c);
      var mint := w.t.mints[m].(state := Answered(w.t.mints[m].state, status));
      && w' == w.(t := w.t.(mints := w.t.mints[m := mint]), minting := w'.minting)
      && w'.minting == if c == Committed && w.minting[m].outputs.Some?
                       then w.minting[m := w.minting[m].(quote := mint)] else w.minting - {m}
  {
  }

  /** A paid invoice moves from unclaimed to owed. */
  lemma ReconcileSums(w: World, w': World, m: QuoteId)
    requires OnlyMint(w, w', m) && w'.received == w.received
    requires w'.t.mints[m] == w.t.mints[m].(state := w'.t.mints[m].state)
    requires w.t.mints[m].state == UNPAID || w.t.mints[m].state == PAID
    requires w'.t.mints[m].state == UNPAID
      || (w'.t.mints[m].state == PAID && (m in w.received || w.t.mints[m].state == PAID))
    ensures OwedFor(w'.t.mints[m]) + UnclaimedFor(w', m) + ReceivedFor(w, m)
         <= OwedFor(w.t.mints[m]) + UnclaimedFor(w, m) + ReceivedFor(w', m)
  {
  }

  /** The issued outputs are worth exactly the invoice: no sum wrapped, because every amount has a key. */
  lemma IssuedExactly(ks: Keysets, mint: MintQuote, outputs: seq<BlindedMessage>)
    requires IssuanceFits(ks, mint.unit, mint.request.msat, outputs) && CanSign(ks, outputs)
      && (mint.unit == Sat || mint.unit == Msat)
    ensures MsatOf(mint.unit, SumOf(OutputAmount(), outputs)) == mint.request.msat
    ensures SumOf(OutputAmount(), outputs) == Value(mint)
  {
    OutputsFit(outputs);
    hide SumOf;
  }

  lemma MintIssueKeeps(w: World, m: QuoteId, c: Commit)
    requires Inv(w)
    ensures Inv(StepMintIssue(w, m, c))
  {
    hide Inv, MintOk, IssueMint;
    if m in w.minting && w.minting[m].outputs.Some? {
      MintingIn(w, m);
      var outputs := w.minting[m].outputs.value;
      if w.minting[m].quote.state != PAID || IssueMint(w.ks, w.t, m, outputs).Err? || c == NotApplied {
        DropMinting(w, m);
      } else {
        IssueKeeps(w, StepMintIssue(w, m, c), m, outputs);
      }
    }
  }

  ghost predicate IssueStep(w: World, w': World, m: QuoteId, outputs: seq<BlindedMessage>)
    requires m in w.t.mints
  {
    var r := IssueMint(w.ks, w.t, m, outputs);
    r.Ok? && w' == w.(t := r.value, minting := w.minting - {m}, log := w.log + [Issued(m, outputs)])
  }

  lemma IssueKeeps(w: World, w': World, m: QuoteId, outputs: seq<BlindedMessage>)
    requires Inv(w) && m in w.minting && w.minting[m].outputs == Some(outputs) && w.minting[m].quote.state == PAID
    requires m in w.t.mints && IssueStep(w, w', m, outputs)
    ensures Inv(w')
  {
    hide TablesOk, MeltsOk, SwapsOk, MintsOk, LogOk, Conserved, MintOk, IssueStep, OwedFor, UnclaimedFor, ReceivedFor,
      SumOf, HasUnit, CanInsertSigs, SigMap;
    MintingIn(w, m);
    IssueShape(w, w', m, outputs);
    MeltsUntouched(w, w', m);
    MintsStillOk(w, w', m);
    IssueLog(w, w', m, outputs);
    IssueTables(w, w', m, outputs);
    forall u ensures Conserved(w', u) {
      IssueSigned(w, w', m, outputs, u);
      MintStepConserves(w, w', m, u, Value(w.t.mints[m]));
    }
  }

  lemma IssueShape(w: World, w': World, m: QuoteId, outputs: seq<BlindedMessage>)
    requires m in w.minting && m in w.t.mints && MintOk(w, m) && w.received <= w.t.mints.Keys
    requires w.minting[m].outputs == Some(outputs) && w.minting[m].quote.state == PAID
    requires IssueStep(w, w', m, outputs)
    ensures MintStep(w, w', m) && MintOk(w', m) && w'.log == w.log + [Issued(m, outputs)]
    ensures w.t.mints[m].state == PAID && w'.t.mints[m].state == ISSUED
    ensures MsatOf(w.t.mints[m].unit, SumOf(OutputAmount(), outputs)) == w.t.mints[m].request.msat
    ensures SumOf(OutputAmount(), outputs) == Value(w.t.mints[m]) && MessagesAreOf(w.ks, outputs, w.t.mints[m].unit)
    ensures CanInsertSigs(w.t.sigs, SigsFor(outputs)) && w'.t.sigs == w.t.sigs + SigMap(SigsFor(outputs))
    ensures OwedFor(w'.t.mints[m]) + UnclaimedFor(w', m) + Value(w.t.mints[m]) + ReceivedFor(w, m)
         <= OwedFor(w.t.mints[m]) + UnclaimedFor(w, m) + ReceivedFor(w', m)
  {
    IssuedExactly(w.ks, w.t.mints[m], outputs);
    hide SumOf, SigMap, CanInsertSigs, SigsFor, CanSign, MessagesAreOf, ToMsat64;
  }

  lemma IssueLog(w: World, w': World, m: QuoteId, outputs: seq<BlindedMessage>)
    requires LogOk(w) && MintStep(w, w', m) && w'.log == w.log + [Issued(m, outputs)]
    requires w.t.mints[m].state == PAID && w'.t.mints[m].state == ISSUED
    requires MsatOf(w.t.mints[m].unit, SumOf(OutputAmount(), outputs)) == w.t.mints[m].request.msat
    ensures LogOk(w')
  {
  }

  lemma OutputsHaveUnit(ks: Keysets, outputs: seq<BlindedMessage>, unit: Unit)
    requires MessagesAreOf(ks, outputs, unit)
    ensures forall i | 0 <= i < |SigsFor(outputs)| :: HasUnit(ks, SigsFor(outputs)[i].id, unit)
  {
  }

  lemma IssueTables(w: World, w': World, m: QuoteId, outputs: seq<BlindedMessage>)
    requires TablesOk(w) && MintStep(w, w', m) && MessagesAreOf(w.ks, outputs, w.t.mints[m].unit)
    requires CanInsertSigs(w.t.sigs, SigsFor(outputs)) && w'.t.sigs == w.t.sigs + SigMap(SigsFor(outputs))
    ensures TablesOk(w')
  {
  }

  lemma IssueSigned(w: World, w': World, m: QuoteId, outputs: seq<BlindedMessage>, u: Unit)
    requires MintStep(w, w', m) && MessagesAreOf(w.ks, outputs, w.t.mints[m].unit)
    requires CanInsertSigs(w.t.sigs, SigsFor(outputs)) && w'.t.sigs == w.t.sigs + SigMap(SigsFor(outputs))
    requires SumOf(OutputAmount(), outputs) == Value(w.t.mints[m])
    ensures Total(Signed(w', u)) == Total(Signed(w, u)) + OfMint(w, m, u, Value(w.t.mints[m]))
  {
    OutputsHaveUnit(w.ks, outputs, w.t.mints[m].unit);
    SigsSum(outputs);
    SignedAdds(w, w', SigsFor(outputs), u, w.t.mints[m].unit);
    hide SigsFor, CanInsertSigs, SigMap, MessagesAreOf, SumOf, Total, Signed, Value;
  }
}
