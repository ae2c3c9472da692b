/** Rotating a keyset never moves what was reserved or counted under the older ones. */
module RotateSteps {
  import opened Prelude
  import opened Totals
  import opened Cashu
  import opened Store
  import opened Fees
  import opened Transactions
  import opened World
  import opened Invariant
  import opened Frames
  import opened Steps
  import opened Exact

  /** Known keysets keep their unit and fee. */
  ghost predicate Grows(ks: Keysets, ks': Keysets)
  {
    && FeesFit(ks')
    && forall id | id in ks :: id in ks' && ks'[id].unit == ks[id].unit && ks'[id].feePpk == ks[id].feePpk
  }

  lemma RotateGrows(ks: Keysets, newId: KeysetId, unit: Unit, feePpk: nat)
    requires FeesFit(ks) && feePpk < FEE_LIMIT
    ensures Grows(ks, Rotate(ks, newId, unit, feePpk))
  {
  }

  lemma HeldFeeKept(ks: Keysets, ks': Keysets, rows: ProofTable)
    requires Grows(ks, ks') && forall y | y in rows :: rows[y].id in ks
    ensures HeldFee(ks', rows) == HeldFee(ks, rows)
  {
    assert (map y | y in rows :: Ppk(ks')(rows[y])) == (map y | y in rows :: Ppk(ks)(rows[y]));
  }

  lemma MeltStillOk(ks: Keysets, ks': Keysets, v: MeltView)
    requires MeltOk(ks, v) && Grows(ks, ks')
    ensures MeltOk(ks', v)
  {
    HeldFeeKept(ks, ks', v.rows);
    RowsStillOk(ks, ks', v);
    assert RowsOk(ks', v) && MessagesAreOf(ks', v.change, v.quote.unit);
    hide Held, HeldFee, RowsOk, MessagesAreOf, ListsRows, Matches, PhaseOk;
  }

  lemma RowsStillOk(ks: Keysets, ks': Keysets, v: MeltView)
    requires RowsOk(ks, v) && MessagesAreOf(ks, v.change, v.quote.unit) && Grows(ks, ks')
    ensures RowsOk(ks', v) && MessagesAreOf(ks', v.change, v.quote.unit)
  {
  }

  lemma {:induction false} PpkSumKept(ks: Keysets, ks': Keysets, ps: seq<Proof>)
    requires Grows(ks, ks') && Known(ks, ps)
    ensures SumOf(Ppk(ks'), ps) == SumOf(Ppk(ks), ps) && Known(ks', ps)
  {
    if ps != [] {
      PpkSumKept(ks, ks', ps[..|ps| - 1]);
    }
  }

  lemma SwapStillFits(ks: Keysets, ks': Keysets, inputs: seq<Proof>, outputs: seq<BlindedMessage>)
    requires SwapFits(ks, inputs, outputs) && Grows(ks, ks')
    ensures SwapFits(ks', inputs, outputs)
  {
    PpkSumKept(ks, ks', inputs);
    hide SumOf, BalanceIsZero;
  }

  ghost predicate KeysetStep(w: World, w': World)
  {
    w' == w.(ks := w'.ks) && Grows(w.ks, w'.ks)
  }

  lemma KeysetTables(w: World, w': World)
    requires KeysetStep(w, w') && TablesOk(w) && SwapsOk(w) && MeltsOk(w)
    ensures TablesOk(w') && SwapsOk(w') && MeltsOk(w')
  {
    hide SwapFits, MeltOk, NamesNoMeltQuote, Ys;
    forall s | s in w'.swapping ensures SwapOk(w'.ks, w'.t, w'.swapping[s]) {
      var p := w.swapping[s];
      assert SwapOk(w.ks, w.t, p);
      if p.SwapReserved? {
        SwapStillFits(w.ks, w'.ks, p.inputs, p.outputs);
      }
    }
    forall q | q in w'.t.melts ensures MeltOk(w'.ks, View(w', q)) {
      assert View(w', q) == View(w, q);
      MeltStillOk(w.ks, w'.ks, View(w, q));
    }
  }

  lemma KeysetMints(w: World, w': World)
    requires KeysetStep(w, w') && MintsOk(w)
    ensures MintsOk(w')
  {
  }

  lemma KeysetConserved(w: World, w': World, u: Unit)
    requires KeysetStep(w, w') && TablesOk(w) && Conserved(w, u)
    ensures Conserved(w', u)
  {
    forall q | q in w.t.melts ensures SameClaims(w, w', q) {
      assert View(w', q) == View(w, q);
    }
    KeysetSigned(w, w', u);
    KeysetConsumed(w, w', u);
    MintsSameSums(w, w', u);
    ClaimSumsSame(w, w', u);
    hide Total, View, PaidOut, Surpluses, Owed, Unclaimed, Received, Consumed, Signed, TablesOk, KeysetStep,
      SameClaims;
  }

  lemma KeysetSigned(w: World, w': World, u: Unit)
    requires KeysetStep(w, w') && TablesOk(w)
    ensures Signed(w', u) == Signed(w, u)
  {
  }

  lemma KeysetConsumed(w: World, w': World, u: Unit)
    requires KeysetStep(w, w') && TablesOk(w)
    ensures Consumed(w', u) == Consumed(w, u)
  {
  }

  lemma RotateKeeps(w: World, newId: KeysetId, unit: Unit, feePpk: nat)
    requires Inv(w) && feePpk < FEE_LIMIT
    ensures Inv(w.(ks := Rotate(w.ks, newId, unit, feePpk)))
  {
    hide MeltsOk, SwapsOk, MintsOk, LogOk, Conserved;
    var w' := w.(ks := Rotate(w.ks, newId, unit, feePpk));
    RotateGrows(w.ks, newId, unit, feePpk);
    hide TablesOk, Grows;
    KeysetTables(w, w');
    KeysetMints(w, w');
    LogKept(w, w');
    forall u ensures Conserved(w', u) {
      KeysetConserved(w, w', u);
    }
  }
}
