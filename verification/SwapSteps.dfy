/** Every step of a swap keeps the invariant (internal/mint/swapping.go). */
module SwapSteps {
  import opened Prelude
  import opened Totals
  import opened Cashu
  import opened Store
  import opened Fees
  import opened Transactions
  import opened Exact
  import opened World
  import opened Invariant
  import opened Frames
  import opened Steps
  import opened MintSteps
  import opened Settlement

  /** Rows that belong to a swap: pending, and no melt quote's. */
  ghost predicate SwapRows(w: World, ys: set<Point>)
  {
    forall y | y in ys && y in w.t.proofs :: NoMeltRow(w, w.t.proofs[y])
  }

  ghost predicate NoMeltRow(w: World, row: Proof)
  {
    row.quote.None? || row.quote.value !in w.t.melts
  }

  ghost predicate Pending(w: World, ys: set<Point>)
  {
    forall y | y in ys && y in w.t.proofs :: w.t.proofs[y].state == ProofPending
  }

  /** Only the rows `ys`, the signatures, the swaps at work and the log may differ. */
  ghost predicate SwapStep(w: World, w': World, ys: set<Point>)
  {
    && w'.t.proofs - ys == w.t.proofs - ys && SwapRows(w, ys) && SwapRows(w', ys)
    && w'.t.melts == w.t.melts && w'.t.mints == w.t.mints && w'.t.change == w.t.change
    && w'.ks == w.ks && w'.ln == w.ln && w'.received == w.received && w'.melting == w.melting && w'.minting == w.minting
  }

  lemma RowsAside(m: ProofTable, n: ProofTable, ys: set<Point>, q: QuoteId)
    requires m - ys == n - ys
    requires forall y | y in ys :: (y in m ==> m[y].quote != Some(q)) && (y in n ==> n[y].quote != Some(q))
    ensures RowsOf(m, q) == RowsOf(n, q)
  {
    forall y ensures y in RowsOf(m, q) <==> y in RowsOf(n, q) {
      assert y in m - ys <==> y in n - ys;
      assert y in m - ys ==> (m - ys)[y] == (n - ys)[y];
    }
    forall y | y in RowsOf(m, q) ensures RowsOf(m, q)[y] == RowsOf(n, q)[y] {
      assert (m - ys)[y] == (n - ys)[y];
    }
  }

  lemma ViewsAside(w: World, w': World, ys: set<Point>)
    requires SwapStep(w, w', ys)
    ensures w'.t.melts == w.t.melts && forall q | q in w.t.melts :: View(w', q) == View(w, q)
  {
    forall q | q in w.t.melts ensures View(w', q) == View(w, q) {
      RowsAside(w.t.proofs, w'.t.proofs, ys, q);
    }
  }

  lemma MeltsAside(w: World, w': World, ys: set<Point>)
    requires SwapStep(w, w', ys) && MeltsOk(w) && MintsOk(w)
    ensures MeltsOk(w') && MintsOk(w')
  {
    ViewsAside(w, w', ys);
    hide MeltOk, View, Value, IssuanceFits;
    forall m | m in w'.t.mints ensures MintOk(w', m) {
      assert MintOk(w, m);
    }
    forall m, q | m in w'.t.mints && q in w'.t.melts ensures InternalPair(w', m, q) {
      assert InternalPair(w, m, q);
    }
  }

  lemma ConsumedAside(w: World, w': World, ys: set<Point>, u: Unit)
    requires SwapStep(w, w', ys)
    ensures Consumed(w', u) - ys == Consumed(w, u) - ys
  {
    ViewsAside(w, w', ys);
    hide View, Settles, HasUnit, If;
    var a, b := Consumed(w, u) - ys, Consumed(w', u) - ys;
    forall y ensures y in a <==> y in b {
      assert y in w'.t.proofs - ys <==> y in w.t.proofs - ys;
    }
    forall y | y in a ensures a[y] == b[y] {
      assert (w'.t.proofs - ys)[y] == (w.t.proofs - ys)[y];
      assert Counted(w', w'.t.proofs[y]) == Counted(w, w.t.proofs[y]);
    }
  }

  /** Pending rows of a swap count for nothing. */
  lemma PendingUncounted(w: World, ys: set<Point>, u: Unit)
    requires SwapRows(w, ys) && Pending(w, ys)
    ensures Total(Consumed(w, u)) == Total(Consumed(w, u) - ys)
  {
    TotalSplit(Consumed(w, u), ys);
    AllZero(map y | y in Consumed(w, u) && y in ys :: Consumed(w, u)[y]);
  }

  lemma SwapSumsSame(w: World, w': World, ys: set<Point>, u: Unit)
    requires SwapStep(w, w', ys)
    ensures PaidOut(w', u) == PaidOut(w, u) && Surpluses(w', u) == Surpluses(w, u)
    ensures Owed(w', u) == Owed(w, u) && Unclaimed(w', u) == Unclaimed(w, u) && Received(w', u) == Received(w, u)
  {
    ViewsAside(w, w', ys);
    hide View, Settles, Outflow, Surplus, PaidOut, Surpluses, Owed, Unclaimed, Received;
    ClaimSumsSame(w, w', u);
    MintsSameSums(w, w', u);
  }

  lemma SwapConserves(w: World, w': World, ys: set<Point>, u: Unit, signed: nat)
    requires Conserved(w, u) && SwapStep(w, w', ys) && Pending(w, ys)
    requires Total(Signed(w', u)) <= Total(Signed(w, u)) + signed
    requires Total(Consumed(w', u)) >= Total(Consumed(w', u) - ys) + signed
    ensures Conserved(w', u)
  {
    hide View, PaidOut, Surpluses, Owed, Unclaimed, Received, Consumed, Signed, Total, Pending, SwapStep;
    SwapSumsSame(w, w', ys, u);
    ConsumedAside(w, w', ys, u);
    SwapRowsOf(w, w', ys);
    PendingUncounted(w, ys, u);
  }

  lemma SwapRowsOf(w: World, w': World, ys: set<Point>)
    requires SwapStep(w, w', ys)
    ensures SwapRows(w, ys) && SwapRows(w', ys)
  {
  }

  /** A swap step that stores no signature and spends nothing. */
  lemma QuietSwapStep(w: World, w': World, ys: set<Point>)
    requires Inv(w) && SwapStep(w, w', ys) && Pending(w, ys) && Pending(w', ys)
    requires w'.t.sigs == w.t.sigs && w'.log == w.log && SwapsOk(w') && TablesOk(w')
    ensures Inv(w')
  {
    hide TablesOk, MeltsOk, SwapsOk, MintsOk, LogOk, Conserved, SwapStep, Pending;
    MeltsAside(w, w', ys);
    QuietSwapLog(w, w', ys);
    forall u ensures Conserved(w', u) {
      QuietSwapConserved(w, w', ys, u);
    }
  }

  lemma QuietSwapLog(w: World, w': World, ys: set<Point>)
    requires LogOk(w) && SwapStep(w, w', ys) && Pending(w, ys) && Pending(w', ys) && w'.log == w.log
    ensures LogOk(w')
  {
    hide LogOk;
    forall y ensures y in SpentRows(w'.t.proofs) <==> y in SpentRows(w.t.proofs) {
      assert y in w'.t.proofs - ys <==> y in w.t.proofs - ys;
      assert y in w'.t.proofs - ys ==> (w'.t.proofs - ys)[y] == (w.t.proofs - ys)[y];
    }
    LogKept(w, w');
  }

  lemma QuietSwapConserved(w: World, w': World, ys: set<Point>, u: Unit)
    requires Conserved(w, u) && SwapStep(w, w', ys) && Pending(w, ys) && Pending(w', ys) && w'.t.sigs == w.t.sigs
    ensures Conserved(w', u)
  {
    SameSigs(w, w', u);
    hide Conserved, Signed, Consumed, Total, Pending;
    PendingUncounted(w', ys, u);
    SwapConserves(w, w', ys, u, 0);
  }

  // ----- reserving -----

  lemma ReserveSwapFacts(ks: Keysets, t: Tables, inputs: seq<Proof>, outputs: seq<BlindedMessage>, verified: bool)
    requires ValidateSwap(ks, inputs, outputs, verified).None? && ReserveSwap(t, inputs, outputs).Ok?
    requires |inputs| < REQUEST_LIMIT && |outputs| < REQUEST_LIMIT
    ensures CanInsert(t.proofs, AsPending(inputs)) && SwapFits(ks, AsPending(inputs), outputs)
    ensures ReserveSwap(t, inputs, outputs).value == t.(proofs := t.proofs + RowMap(AsPending(inputs)))
  {
    PendingFits(ks, inputs, outputs);
    hide FeeOf, Amount64, BalanceIsZero, RowMap, CanInsert, CheckUnspent, CheckOutputs, AsPending, SwapFits;
    ValidatedSwapFits(ks, inputs, outputs, verified);
  }

  lemma ValidatedSwapFits(ks: Keysets, inputs: seq<Proof>, outputs: seq<BlindedMessage>, verified: bool)
    requires ValidateSwap(ks, inputs, outputs, verified).None? && |inputs| < REQUEST_LIMIT && |outputs| < REQUEST_LIMIT
    ensures SwapFits(ks, inputs, outputs)
  {
  }

  lemma PendingFits(ks: Keysets, inputs: seq<Proof>, outputs: seq<BlindedMessage>)
    ensures SwapFits(ks, inputs, outputs) ==> SwapFits(ks, AsPending(inputs), outputs)
  {
    PendingSums(AmountOf(), inputs);
    PendingSums(Ppk(ks), inputs);
    hide SumOf, BalanceIsZero;
  }

  lemma PendingNamesNone(t: Tables, inputs: seq<Proof>)
    requires NamesNoMeltQuote(t, inputs)
    ensures NamesNoMeltQuote(t, AsPending(inputs))
  {
  }

  lemma Inserted(w: World, w': World, ps: seq<Proof>)
    requires CanInsert(w.t.proofs, ps) && NamesNoMeltQuote(w.t, ps)
    requires forall i | 0 <= i < |ps| :: ps[i].state == ProofPending
    requires w' == w.(t := w.t.(proofs := w.t.proofs + RowMap(ps)), swapping := w'.swapping)
    ensures SwapStep(w, w', Ys(ps)) && Pending(w, Ys(ps)) && Pending(w', Ys(ps))
  {
  }

  lemma InsertedTables(w: World, w': World, ps: seq<Proof>)
    requires TablesOk(w) && CanInsert(w.t.proofs, ps)
    requires forall i | 0 <= i < |ps| :: ps[i].state == ProofPending && ps[i].id in w.ks
    requires w' == w.(t := w.t.(proofs := w.t.proofs + RowMap(ps)), swapping := w'.swapping)
    ensures TablesOk(w')
  {
  }

  lemma InsertedSwaps(w: World, w': World, s: nat, ps: seq<Proof>, outputs: seq<BlindedMessage>)
    requires SwapsOk(w) && CanInsert(w.t.proofs, ps) && s !in w.swapping
    requires NamesNoMeltQuote(w.t, ps) && forall i | 0 <= i < |ps| :: ps[i].state == ProofPending
    requires SwapFits(w.ks, ps, outputs)
    requires w' == w.(t := w.t.(proofs := w.t.proofs + RowMap(ps)), swapping := w'.swapping)
    requires w'.swapping == w.swapping || w'.swapping == w.swapping[s := SwapReserved(ps, outputs)]
    ensures SwapsOk(w')
  {
    hide SwapFits;
    forall r | r in w'.swapping ensures SwapOk(w'.ks, w'.t, w'.swapping[r]) {
      if r in w.swapping {
        assert SwapOk(w.ks, w.t, w.swapping[r]);
      }
    }
    forall r | r in w.swapping ensures Ys(w.swapping[r].inputs) !! Ys(ps) {
      assert SwapOk(w.ks, w.t, w.swapping[r]);
    }
  }

  lemma SwapReserveKeeps(w: World, s: nat, inputs: seq<Proof>, outputs: seq<BlindedMessage>, verified: bool, c: Commit)
    requires Inv(w) && s !in w.swapping && |inputs| < REQUEST_LIMIT && |outputs| < REQUEST_LIMIT
    requires SavesInputs(w, inputs, outputs, verified, c) ==> NamesNoMeltQuote(w.t, inputs)
    ensures Inv(StepSwapReserve(w, s, inputs, outputs, verified, c))
  {
    hide TablesOk, MeltsOk, SwapsOk, MintsOk, LogOk, Conserved, ValidateSwap, ReserveSwap, SwapStep, Pending,
      NamesNoMeltQuote, CanInsert, SwapFits, RowMap, DistinctYs, Ys;
    if ValidateSwap(w.ks, inputs, outputs, verified).None? && ReserveSwap(w.t, inputs, outputs).Ok? && c != NotApplied {
      var w' := StepSwapReserve(w, s, inputs, outputs, verified, c);
      var ps := AsPending(inputs);
      ReserveSwapFacts(w.ks, w.t, inputs, outputs, verified);
      PendingNamesNone(w.t, inputs);
      FittingIds(w.ks, ps, outputs);
      InsertableSwap(w.t.proofs, ps);
      Inserted(w, w', ps);
      InsertedTables(w, w', ps);
      InsertedSwaps(w, w', s, ps, outputs);
      QuietSwapStep(w, w', Ys(ps));
    }
  }

  lemma InsertableSwap(m: ProofTable, ps: seq<Proof>)
    requires CanInsert(m, ps)
    ensures DistinctYs(ps)
  {
  }

  lemma FittingIds(ks: Keysets, ps: seq<Proof>, outputs: seq<BlindedMessage>)
    requires SwapFits(ks, ps, outputs)
    ensures forall i | 0 <= i < |ps| :: ps[i].id in ks
  {
  }

  // ----- settling -----

  lemma SwapKnown(w: World, s: nat)
    requires SwapsOk(w) && s in w.swapping
    ensures var ps := w.swapping[s].inputs;
      && DistinctYs(ps) && RowsIn(w.t.proofs, ps) && Pending(w, Ys(ps)) && SwapRows(w, Ys(ps))
    ensures w.swapping[s].SwapReserved? ==> SwapFits(w.ks, w.swapping[s].inputs, w.swapping[s].outputs)
  {
  }

  /** The listed proofs are rows of the table. */
  ghost predicate RowsIn(m: ProofTable, ps: seq<Proof>)
  {
    forall i | 0 <= i < |ps| :: ps[i].y in m && m[ps[i].y] == ps[i]
  }

  /** A settled swap gives out no more than it took in. */
  lemma SwapGivesNoMore(ks: Keysets, inputs: seq<Proof>, outputs: seq<BlindedMessage>)
    requires SwapFits(ks, inputs, outputs) && CanSign(ks, outputs) && FeesFit(ks)
    ensures inputs != [] && SumOf(SigAmount(), SigsFor(outputs)) <= SumOf(AmountOf(), inputs)
    ensures forall i | 0 <= i < |SigsFor(outputs)| :: HasUnit(ks, SigsFor(outputs)[i].id, UnitOf(ks, inputs[0].id))
    ensures forall i | 0 <= i < |inputs| :: HasUnit(ks, inputs[i].id, UnitOf(ks, inputs[0].id))
  {
    SigsSum(outputs);
    FeeFitsUint(ks, inputs);
    hide SumOf, FeeOf, BalanceIsZero;
    BalanceOfKeysetAmounts(inputs, FeeOf(ks, inputs).value, outputs);
  }

  /** Once SPENT, all rows of a swap count. */
  lemma SpentCounted(w: World, ps: seq<Proof>, unit: Unit, u: Unit)
    requires DistinctYs(ps) && forall i | 0 <= i < |ps| :: HasUnit(w.ks, ps[i].id, unit)
    requires forall i | 0 <= i < |ps| :: ps[i].y in w.t.proofs && w.t.proofs[ps[i].y] == ps[i].(state := ProofSpent)
    ensures Total(Consumed(w, u)) == Total(Consumed(w, u) - Ys(ps)) + If(unit == u, SumOf(AmountOf(), ps))
  {
    var rows := RowMap(ps);
    TotalSplit(Consumed(w, u), Ys(ps));
    SpentCountedMap(w, ps, unit, u);
    HeldIf(rows, unit == u);
    SumOfRows(AmountOf(), ps);
    hide Total, Consumed, RowMap, SumOf, Held;
  }

  lemma SpentCountedMap(w: World, ps: seq<Proof>, unit: Unit, u: Unit)
    requires DistinctYs(ps) && forall i | 0 <= i < |ps| :: HasUnit(w.ks, ps[i].id, unit)
    requires forall i | 0 <= i < |ps| :: ps[i].y in w.t.proofs && w.t.proofs[ps[i].y] == ps[i].(state := ProofSpent)
    ensures (map y | y in Consumed(w, u) && y in Ys(ps) :: Consumed(w, u)[y])
         == map y | y in RowMap(ps) :: If(unit == u, RowMap(ps)[y].amount)
  {
    hide Total, If, Settles, View, HasUnit, Counted;
    forall i | 0 <= i < |ps|
      ensures ps[i].y in Consumed(w, u) && Consumed(w, u)[ps[i].y] == If(unit == u, ps[i].amount)
    {
      SpentCounts(w, ps[i], unit, u);
    }
    hide Consumed;
  }

  lemma SpentCounts(w: World, p: Proof, unit: Unit, u: Unit)
    requires HasUnit(w.ks, p.id, unit) && p.y in w.t.proofs && w.t.proofs[p.y] == p.(state := ProofSpent)
    ensures p.y in Consumed(w, u) && Consumed(w, u)[p.y] == If(unit == u, p.amount)
  {
    hide If, View, Settles;
  }

  /**
   * All or nothing, whatever fails: either the inputs are SPENT and every signature is stored, or the tables are
   * untouched; and the pending inputs are handed to the clean-up only when the block did not land.
   */
  lemma SwapIsAllOrNothing(ks: Keysets, t: Tables, inputs: seq<Proof>, outputs: seq<BlindedMessage>, o: SwapOutcome)
    requires RollbackTells(t, inputs, outputs, o)
    ensures var end := SettleSwapBlock(ks, t, inputs, outputs, o);
      && (end.landed ==>
            && CanSign(ks, outputs) && CanInsertSigs(t.sigs, SigsFor(outputs))
            && end.t == t.(proofs := SetState(t.proofs, Ys(inputs), ProofSpent),
              sigs := t.sigs + SigMap(SigsFor(outputs))))
      && (!end.landed ==> end.t == t && end.failed)
      && (end.failed && end.removePending ==> !end.landed)
  {
  }

  /**
   * Without that promise of Rollback a landed swap is cleaned up: its inputs, SPENT just before, are deleted and
   * could be spent again, while its signatures stay.
   */
  lemma RollbackPromiseNeeded(w: World, s: nat, outputs: seq<BlindedMessage>)
    requires SwapsOk(w) && s in w.swapping && w.swapping[s].SwapReserved? && w.swapping[s].outputs == outputs
    requires CanSign(w.ks, outputs) && CanInsertSigs(w.t.sigs, SigsFor(outputs))
    ensures var ps,
      settled := w.swapping[s].inputs, Step(w, SwapSettle(s, SwapOutcome(false, false, false, AckLost, true, false)));
      var cleaned := Step(settled, SwapClean(s, Committed));
      && (forall i | 0 <= i < |ps| :: ps[i].y in settled.t.proofs && settled.t.proofs[ps[i].y].state == ProofSpent)
      && (forall i | 0 <= i < |ps| :: ps[i].y !in cleaned.t.proofs)
      && settled.log == cleaned.log == w.log + [SpentBySwap(s, Ys(ps))]
      && cleaned.t.sigs == settled.t.sigs == w.t.sigs + SigMap(SigsFor(outputs))
  {
    hide SwapFits, SwapOk, CanSign, CanInsertSigs, SigMap, SigsFor, SetState, Ys;
    var o := SwapOutcome(false, false, false, AckLost, true, false);
    LostAnswer(w, s, o);
    var ps := w.swapping[s].inputs;
    SwapKnown(w, s);
    SpentThenDeleted(w.t.proofs, ps);
  }

  lemma LostAnswer(w: World, s: nat, o: SwapOutcome)
    requires s in w.swapping && w.swapping[s].SwapReserved?
    requires o == SwapOutcome(false, false, false, AckLost, true, false)
    requires CanSign(w.ks, w.swapping[s].outputs) && CanInsertSigs(w.t.sigs, SigsFor(w.swapping[s].outputs))
    ensures var p, settled := w.swapping[s], Step(w, SwapSettle(s, o));
      && settled.t
        == w.t.(proofs := SetState(w.t.proofs, Ys(p.inputs), ProofSpent), sigs := w.t.sigs + SigMap(SigsFor(p.outputs)))
      && settled.log == w.log + [SpentBySwap(s, Ys(p.inputs))]
      && s in settled.swapping && settled.swapping[s] == SwapFailed(p.inputs)
      && Step(settled, SwapClean(s, Committed)) ==
           settled.(t := settled.t.(proofs := settled.t.proofs - Ys(p.inputs)), swapping := settled.swapping - {s})
  {
    hide CanSign, CanInsertSigs, SigMap, SigsFor, SetState, Ys;
  }

  lemma SpentThenDeleted(m: ProofTable, ps: seq<Proof>)
    requires RowsIn(m, ps)
    ensures forall i | 0 <= i < |ps| ::
      ps[i].y in SetState(m, Ys(ps), ProofSpent) && SetState(m, Ys(ps), ProofSpent)[ps[i].y].state == ProofSpent
    ensures forall i | 0 <= i < |ps| :: ps[i].y !in SetState(m, Ys(ps), ProofSpent) - Ys(ps)
  {
  }

  lemma SettleFailed(w: World, w': World, s: nat)
    requires Inv(w) && s in w.swapping
    requires w' == w.(swapping := w.swapping[s := SwapFailed(w.swapping[s].inputs)])
      || w' == w.(swapping := w.swapping - {s})
    ensures Inv(w')
  {
    hide TablesOk, MeltsOk, SwapsOk, MintsOk, LogOk, Conserved;
    SwapKnown(w, s);
    FailedSwapsOk(w, w', s);
    NothingMoved(w, w', Ys(w.swapping[s].inputs));
    SameTablesOk(w, w');
    hide SwapStep, Pending;
    QuietSwapStep(w, w', Ys(w.swapping[s].inputs));
  }

  lemma NothingMoved(w: World, w': World, ys: set<Point>)
    requires SwapRows(w, ys) && Pending(w, ys) && w' == w.(swapping := w'.swapping)
    ensures SwapStep(w, w', ys) && Pending(w', ys)
  {
  }

  lemma FailedSwapsOk(w: World, w': World, s: nat)
    requires SwapsOk(w) && s in w.swapping
    requires w' == w.(swapping := w.swapping[s := SwapFailed(w.swapping[s].inputs)])
      || w' == w.(swapping := w.swapping - {s})
    ensures SwapsOk(w')
  {
    hide SwapFits;
    forall r | r in w'.swapping ensures SwapOk(w'.ks, w'.t, w'.swapping[r]) {
      assert SwapOk(w.ks, w.t, w.swapping[r]);
    }
  }

  // ----- a block that landed -----

  ghost predicate LandStep(w: World, w': World, s: nat)
  {
    && s in w.swapping && w.swapping[s].SwapReserved?
    && var p := w.swapping[s];
       && CanSign(w.ks, p.outputs) && CanInsertSigs(w.t.sigs, SigsFor(p.outputs))
       && w' == w.(
            t := w.t.(proofs := SetState(w.t.proofs, Ys(p.inputs), ProofSpent),
              sigs := w.t.sigs + SigMap(SigsFor(p.outputs))),
            log := w.log + [SpentBySwap(s, Ys(p.inputs))], swapping := w.swapping - {s})
  }

  lemma Landed(w: World, w': World, s: nat, ps: seq<Proof>)
    requires LandStep(w, w', s) && ps == w.swapping[s].inputs && DistinctYs(ps) && RowsIn(w.t.proofs, ps)
    requires SwapRows(w, Ys(ps))
    ensures SwapStep(w, w', Ys(ps))
    ensures forall i | 0 <= i < |ps| :: ps[i].y in w'.t.proofs && w'.t.proofs[ps[i].y] == ps[i].(state := ProofSpent)
  {
  }

  lemma LandedTables(w: World, w': World, s: nat, unit: Unit)
    requires LandStep(w, w', s) && TablesOk(w)
    requires forall i | 0 <= i < |SigsFor(w.swapping[s].outputs)| ::
      HasUnit(w.ks, SigsFor(w.swapping[s].outputs)[i].id, unit)
    ensures TablesOk(w')
  {
  }

  lemma LandedSwaps(w: World, w': World, s: nat)
    requires LandStep(w, w', s) && SwapsOk(w)
    ensures SwapsOk(w')
  {
    hide CanSign, CanInsertSigs, SigMap, SigsFor, SwapFits;
    forall r | r in w'.swapping ensures SwapOk(w'.ks, w'.t, w'.swapping[r]) {
      assert SwapOk(w.ks, w.t, w.swapping[r]);
      forall i | 0 <= i < |w.swapping[r].inputs| ensures w.swapping[r].inputs[i].y !in Ys(w.swapping[s].inputs) {
        assert w.swapping[r].inputs[i].y in Ys(w.swapping[r].inputs);
      }
    }
  }

  lemma LandedLog(w: World, w': World, s: nat, ps: seq<Proof>)
    requires LandStep(w, w', s) && LogOk(w) && ps == w.swapping[s].inputs && RowsIn(w.t.proofs, ps)
    requires Pending(w, Ys(ps))
    ensures LogOk(w')
  {
  }

  lemma LandedConserved(w: World, w': World, s: nat, ps: seq<Proof>, unit: Unit, u: Unit)
    requires LandStep(w, w', s) && Conserved(w, u) && ps == w.swapping[s].inputs && SwapStep(w, w', Ys(ps))
    requires Pending(w, Ys(ps))
    requires DistinctYs(ps)
    requires forall i | 0 <= i < |ps| :: ps[i].y in w'.t.proofs && w'.t.proofs[ps[i].y] == ps[i].(state := ProofSpent)
    requires forall i | 0 <= i < |ps| :: HasUnit(w.ks, ps[i].id, unit)
    requires forall i | 0 <= i < |SigsFor(w.swapping[s].outputs)| ::
      HasUnit(w.ks, SigsFor(w.swapping[s].outputs)[i].id, unit)
    requires SumOf(SigAmount(), SigsFor(w.swapping[s].outputs)) <= SumOf(AmountOf(), ps)
    ensures Conserved(w', u)
  {
    hide Total, Conserved, SwapStep, Pending, Consumed, Signed, CanSign, CanInsertSigs, SigMap, SigsFor, SumOf,
      HasUnit, DistinctYs, Ys, SetState;
    SpentCounted(w', ps, unit, u);
    SignedAdds(w, w', SigsFor(w.swapping[s].outputs), u, unit);
    SwapConserves(w, w', Ys(ps), u, If(unit == u, SumOf(AmountOf(), ps)));
  }

  lemma LandKeeps(w: World, w': World, s: nat)
    requires Inv(w) && LandStep(w, w', s)
    ensures Inv(w')
  {
    hide TablesOk, MeltsOk, SwapsOk, MintsOk, LogOk, Conserved, SwapStep, Pending, CanSign, CanInsertSigs, SigMap,
      SigsFor, SumOf, HasUnit, DistinctYs, Ys, SetState, RowsIn, SwapFits, FeesFit, SwapRows;
    SwapKnown(w, s);
    FeesOfTables(w);
    var p := w.swapping[s];
    SwapGivesNoMore(w.ks, p.inputs, p.outputs);
    var unit := UnitOf(w.ks, p.inputs[0].id);
    Landed(w, w', s, p.inputs);
    LandedTables(w, w', s, unit);
    LandedSwaps(w, w', s);
    LandedLog(w, w', s, p.inputs);
    MeltsAside(w, w', Ys(p.inputs));
    forall u ensures Conserved(w', u) {
      LandedConserved(w, w', s, p.inputs, unit, u);
    }
  }

  lemma FeesOfTables(w: World)
    requires TablesOk(w)
    ensures FeesFit(w.ks)
  {
  }

  lemma SwapSettleKeeps(w: World, s: nat, o: SwapOutcome)
    requires Inv(w)
    requires s in w.swapping && w.swapping[s].SwapReserved? ==>
      RollbackTells(w.t, w.swapping[s].inputs, w.swapping[s].outputs, o)
    ensures Inv(StepSwapSettle(w, s, o))
  {
    hide Inv, SettleSwapBlock, CanSign, CanInsertSigs, SigMap, SigsFor, SetState, Ys, RollbackTells;
    if s in w.swapping && w.swapping[s].SwapReserved? {
      var p := w.swapping[s];
      var w' := StepSwapSettle(w, s, o);
      SwapIsAllOrNothing(w.ks, w.t, p.inputs, p.outputs, o);
      if SettleSwapBlock(w.ks, w.t, p.inputs, p.outputs, o).landed {
        LandKeeps(w, w', s);
      } else {
        SettleFailed(w, w', s);
      }
    }
  }

  // ----- cleaning up -----

  lemma SwapAbortKeeps(w: World, s: nat)
    requires Inv(w)
    ensures Inv(w.(swapping := w.swapping - {s}))
  {
    hide Inv;
    if s in w.swapping {
      SettleFailed(w, w.(swapping := w.swapping - {s}), s);
    } else {
      assert w.swapping - {s} == w.swapping;
    }
  }

  ghost predicate CleanStep(w: World, w': World, s: nat)
  {
    s in w.swapping && w' == w.(t := DeleteProofs(w.t, w.swapping[s].inputs), swapping := w.swapping - {s})
  }

  lemma Cleaned(w: World, w': World, s: nat, ps: seq<Proof>)
    requires CleanStep(w, w', s) && ps == w.swapping[s].inputs && SwapRows(w, Ys(ps))
    ensures SwapStep(w, w', Ys(ps)) && Pending(w', Ys(ps)) && w'.t.sigs == w.t.sigs && w'.log == w.log
    ensures TablesOk(w) ==> TablesOk(w')
  {
  }

  lemma CleanedSwaps(w: World, w': World, s: nat)
    requires CleanStep(w, w', s) && SwapsOk(w)
    ensures SwapsOk(w')
  {
    hide SwapFits;
    forall r | r in w'.swapping ensures SwapOk(w'.ks, w'.t, w'.swapping[r]) {
      assert SwapOk(w.ks, w.t, w.swapping[r]);
      forall i | 0 <= i < |w.swapping[r].inputs| ensures w.swapping[r].inputs[i].y !in Ys(w.swapping[s].inputs) {
        assert w.swapping[r].inputs[i].y in Ys(w.swapping[r].inputs);
      }
    }
  }

  lemma SwapCleanKeeps(w: World, s: nat, c: Commit)
    requires Inv(w)
    ensures Inv(StepSwapClean(w, s, c))
  {
    hide TablesOk, MeltsOk, SwapsOk, MintsOk, LogOk, Conserved, SwapStep, Pending, DeleteProofs, Ys;
    if s in w.swapping && w.swapping[s].SwapFailed? {
      if c == NotApplied {
        SwapAbortKeeps(w, s);
      } else {
        var w' := StepSwapClean(w, s, c);
        SwapKnown(w, s);
        Cleaned(w, w', s, w.swapping[s].inputs);
        CleanedSwaps(w, w', s);
        QuietSwapStep(w, w', Ys(w.swapping[s].inputs));
      }
    }
  }
}
