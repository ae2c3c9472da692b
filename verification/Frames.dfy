/** What a change to one melt quote leaves alone, and how it moves the sums. */
module Frames {
  import opened Prelude
  import opened Totals
  import opened Cashu
  import opened Store
  import opened Fees
  import opened Transactions
  import opened World
  import opened Invariant

  /** The two worlds differ only in one melt quote and its rows, the stored signatures, the mint quotes and the log. */
  ghost predicate OnlyQuote(w: World, w': World, q: QuoteId)
  {
    && q in w.t.melts && w'.t.melts.Keys == w.t.melts.Keys
    && RowsOutside(w'.t.proofs, q) == RowsOutside(w.t.proofs, q)
    && w'.t.melts - {q} == w.t.melts - {q}
    && w'.t.change - {q} == w.t.change - {q}
    && w'.ln - {q} == w.ln - {q}
    && w'.melting - {q} == w.melting - {q}
    && w'.ks == w.ks && w'.swapping == w.swapping && w'.minting == w.minting && w'.received == w.received
    && w'.t.melts[q].unit == w.t.melts[q].unit && w'.t.melts[q].request == w.t.melts[q].request
    && w'.t.melts[q].amount == w.t.melts[q].amount
  }

  lemma SameElsewhere<K, V>(m: map<K, V>, n: map<K, V>, k: K, other: K)
    requires m - {k} == n - {k} && k != other
    ensures Lookup(m, other) == Lookup(n, other)
  {
    assert other in m <==> other in m - {k};
    assert other in n <==> other in n - {k};
    if other in m {
      assert m[other] == (m - {k})[other] == (n - {k})[other];
    }
  }

  lemma OtherView(w: World, w': World, q: QuoteId, other: QuoteId)
    requires OnlyQuote(w, w', q) && other in w.t.melts && other != q
    ensures View(w', other) == View(w, other)
  {
    RowsOfOther(w.t.proofs, w'.t.proofs, q, other);
    SameElsewhere(w.t.melts, w'.t.melts, q, other);
    SameElsewhere(w.t.change, w'.t.change, q, other);
    SameElsewhere(w.ln, w'.ln, q, other);
    SameElsewhere(w.melting, w'.melting, q, other);
    assert ChangeOf(w.t.change, other) == ChangeOf(w'.t.change, other);
  }

  lemma OtherViews(w: World, w': World, q: QuoteId)
    requires OnlyQuote(w, w', q)
    ensures w'.t.melts.Keys == w.t.melts.Keys && q in w.t.melts && w'.t.melts[q].unit == w.t.melts[q].unit
    ensures forall other | other in w.t.melts && other != q ::
      View(w', other) == View(w, other) && w'.t.melts[other] == w.t.melts[other]
  {
    forall other | other in w.t.melts && other != q
      ensures View(w', other) == View(w, other) && w'.t.melts[other] == w.t.melts[other]
    {
      OtherView(w, w', q, other);
    }
  }

  lemma MeltsKept(w: World, w': World, q: QuoteId)
    requires MeltsOk(w) && OnlyQuote(w, w', q)
    requires MeltOk(w.ks, View(w', q))
    ensures MeltsOk(w')
  {
    forall other | other in w'.t.melts ensures MeltOk(w'.ks, View(w', other)) {
      if other != q {
        OtherView(w, w', q, other);
      }
    }
    KeysKept(w.ln, w'.ln, q, w.t.melts.Keys);
    KeysKept(w.melting, w'.melting, q, w.t.melts.Keys);
    KeysKept(w.t.change, w'.t.change, q, w.t.melts.Keys);
  }

  lemma KeysKept<V>(m: map<QuoteId, V>, n: map<QuoteId, V>, q: QuoteId, keys: set<QuoteId>)
    requires m - {q} == n - {q} && m.Keys <= keys && q in keys
    ensures n.Keys <= keys
  {
    forall k | k in n ensures k in keys {
      if k != q {
        SameElsewhere(m, n, q, k);
      }
    }
  }

  lemma SwapsKept(w: World, w': World, q: QuoteId)
    requires SwapsOk(w) && OnlyQuote(w, w', q)
    ensures SwapsOk(w')
  {
    forall s | s in w'.swapping ensures SwapOk(w'.ks, w'.t, w'.swapping[s]) {
      var p := w.swapping[s];
      assert SwapOk(w.ks, w.t, p);
      forall i | 0 <= i < |p.inputs|
        ensures p.inputs[i].y in w'.t.proofs && w'.t.proofs[p.inputs[i].y] == p.inputs[i]
      {
        assert p.inputs[i].y in RowsOutside(w.t.proofs, q);
        assert p.inputs[i].y in RowsOutside(w'.t.proofs, q);
      }
    }
  }

  lemma TablesKept(w: World, w': World, q: QuoteId)
    requires TablesOk(w) && OnlyQuote(w, w', q) && RowsOk(w.ks, View(w', q))
    requires forall b | b in w'.t.sigs :: w'.t.sigs[b].b == b && w'.t.sigs[b].id in w.ks
    ensures TablesOk(w')
  {
    forall y | y in w'.t.proofs ensures RowOk(w'.ks, y, w'.t.proofs[y]) {
      if w'.t.proofs[y].quote == Some(q) {
        assert y in RowsOf(w'.t.proofs, q);
      } else {
        assert y in RowsOutside(w'.t.proofs, q);
        assert y in RowsOutside(w.t.proofs, q);
      }
    }
  }

  // ----- sums -----

  ghost function OfUnit(w: World, q: QuoteId, u: Unit, amount: nat): nat
    requires q in w.t.melts
  {
    If(w.t.melts[q].unit == u, amount)
  }

  lemma PaidOutMap(w: World, w': World, q: QuoteId, u: Unit)
    requires OnlyQuote(w, w', q)
    ensures q in w.t.melts && q in w'.t.melts
    ensures PaidOut(w', u) == PaidOut(w, u)[q := OfUnit(w, q, u, Outflow(View(w', q)))]
  {
    OtherViews(w, w', q);
    hide Total, OnlyQuote, View, Outflow, If;
  }

  lemma PaidOutMoves(w: World, w': World, q: QuoteId, u: Unit)
    requires OnlyQuote(w, w', q)
    ensures Total(PaidOut(w', u)) + OfUnit(w, q, u, Outflow(View(w, q)))
         == Total(PaidOut(w, u)) + OfUnit(w, q, u, Outflow(View(w', q)))
  {
    PaidOutMap(w, w', q, u);
    assert PaidOut(w, u)[q] == OfUnit(w, q, u, Outflow(View(w, q)));
    hide Total, OnlyQuote, View, Outflow, PaidOut, If;
    TotalUpdate(PaidOut(w, u), q, OfUnit(w, q, u, Outflow(View(w', q))));
  }

  lemma SurplusesMap(w: World, w': World, q: QuoteId, u: Unit)
    requires OnlyQuote(w, w', q)
    ensures q in w.t.melts && q in w'.t.melts
    ensures Surpluses(w', u) == Surpluses(w, u)[q := OfUnit(w, q, u, Surplus(View(w', q)))]
  {
    OtherViews(w, w', q);
    hide Total, OnlyQuote, View, Surplus, If;
  }

  lemma SurplusesMove(w: World, w': World, q: QuoteId, u: Unit)
    requires OnlyQuote(w, w', q)
    ensures Total(Surpluses(w', u)) + OfUnit(w, q, u, Surplus(View(w, q)))
         == Total(Surpluses(w, u)) + OfUnit(w, q, u, Surplus(View(w', q)))
  {
    SurplusesMap(w, w', q, u);
    assert Surpluses(w, u)[q] == OfUnit(w, q, u, Surplus(View(w, q)));
    hide Total, OnlyQuote, View, Surplus, Surpluses, If;
    TotalUpdate(Surpluses(w, u), q, OfUnit(w, q, u, Surplus(View(w', q))));
  }

  /** Rows of a quote count as consumed exactly when the quote settles. */
  ghost predicate CountedTogether(w: World, q: QuoteId)
    requires q in w.t.melts
  {
    RowsOk(w.ks, View(w, q)) && (AllIn(View(w, q).rows, ProofSpent) && View(w, q).rows != map[] ==> Settles(View(w, q)))
    && (AllIn(View(w, q).rows, ProofSpent) || AllIn(View(w, q).rows, ProofPending))
  }

  lemma MeltOkCountsTogether(w: World, q: QuoteId)
    requires q in w.t.melts && MeltOk(w.ks, View(w, q))
    ensures CountedTogether(w, q)
  {
  }

  lemma ConsumedRows(w: World, q: QuoteId, u: Unit)
    requires q in w.t.melts && CountedTogether(w, q)
    ensures (map y | y in Consumed(w, u) && y in RowsOf(w.t.proofs, q).Keys :: Consumed(w, u)[y])
         == map y | y in RowsOf(w.t.proofs, q) ::
           If(Settles(View(w, q)) && w.t.melts[q].unit == u, RowsOf(w.t.proofs, q)[y].amount)
  {
    hide Total, Settles, If;
    var rows := RowsOf(w.t.proofs, q);
    assert View(w, q).rows == rows;
    forall y | y in rows
      ensures w.t.proofs[y] == rows[y]
      ensures (HasUnit(w.ks, rows[y].id, u) && Counted(w, rows[y])) == (Settles(View(w, q)) && w.t.melts[q].unit == u)
    {
    }
    hide HasUnit, Counted, CountedTogether, View, RowsOf;
  }

  lemma HeldIf(rows: ProofTable, b: bool)
    ensures Total(map y | y in rows :: If(b, rows[y].amount)) == If(b, Held(AmountOf(), rows))
  {
    if b {
      assert (map y | y in rows :: If(b, rows[y].amount)) == (map y | y in rows :: AmountOf()(rows[y]));
    } else {
      AllZero(map y | y in rows :: If(b, rows[y].amount));
    }
  }

  lemma ConsumedInside(w: World, q: QuoteId, u: Unit)
    requires q in w.t.melts && CountedTogether(w, q)
    ensures Total(Consumed(w, u))
      == Total(Consumed(w, u) - RowsOf(w.t.proofs, q).Keys) + OfUnit(w, q, u, ConsumedBy(View(w, q)))
  {
    ConsumedRows(w, q, u);
    TotalSplit(Consumed(w, u), RowsOf(w.t.proofs, q).Keys);
    HeldIf(RowsOf(w.t.proofs, q), Settles(View(w, q)) && w.t.melts[q].unit == u);
    assert View(w, q).rows == RowsOf(w.t.proofs, q);
    hide Total, Consumed, CountedTogether, Settles;
  }

  lemma ConsumedOutside(w: World, w': World, q: QuoteId, u: Unit)
    requires OnlyQuote(w, w', q)
    ensures Consumed(w', u) - RowsOf(w'.t.proofs, q).Keys == Consumed(w, u) - RowsOf(w.t.proofs, q).Keys
  {
    var a, b := Consumed(w, u) - RowsOf(w.t.proofs, q).Keys, Consumed(w', u) - RowsOf(w'.t.proofs, q).Keys;
    forall y ensures y in a <==> y in b {
      CountedOutside(w, w', q, u, y);
    }
    forall y | y in a ensures a[y] == b[y] {
      CountedOutside(w, w', q, u, y);
    }
  }

  lemma CountedOutside(w: World, w': World, q: QuoteId, u: Unit, y: Point)
    requires OnlyQuote(w, w', q)
    ensures y in Consumed(w, u) - RowsOf(w.t.proofs, q).Keys <==> y in Consumed(w', u) - RowsOf(w'.t.proofs, q).Keys
    ensures y in Consumed(w, u) - RowsOf(w.t.proofs, q).Keys ==>
      y in w'.t.proofs && w'.t.proofs[y] == w.t.proofs[y] && Counted(w, w.t.proofs[y]) == Counted(w', w.t.proofs[y])
  {
    assert y in RowsOutside(w.t.proofs, q) <==> y in RowsOutside(w'.t.proofs, q);
    if y in RowsOutside(w.t.proofs, q) {
      var row := w.t.proofs[y];
      assert RowsOutside(w'.t.proofs, q)[y] == row;
      if row.quote.Some? && row.quote.value in w.t.melts {
        OtherView(w, w', q, row.quote.value);
      }
      assert Counted(w, row) == Counted(w', row);
    }
  }

  lemma ConsumedMoves(w: World, w': World, q: QuoteId, u: Unit)
    requires OnlyQuote(w, w', q) && CountedTogether(w, q) && CountedTogether(w', q)
    ensures Total(Consumed(w', u)) + OfUnit(w, q, u, ConsumedBy(View(w, q)))
         == Total(Consumed(w, u)) + OfUnit(w, q, u, ConsumedBy(View(w', q)))
  {
    ConsumedInside(w, q, u);
    ConsumedInside(w', q, u);
    ConsumedOutside(w, w', q, u);
  }

  /** What one melt quote contributes to the two sides of conservation. */
  ghost function Claims(v: MeltView): nat
  {
    Outflow(v) + Surplus(v)
  }

  /** A step on one melt quote conserves value if its new claims, signatures and debts fit what its rows add. */
  lemma MeltConserves(w: World, w': World, q: QuoteId, u: Unit, signed: nat, owed: nat)
    requires Conserved(w, u) && OnlyQuote(w, w', q)
    requires CountedTogether(w, q) && CountedTogether(w', q)
    requires Total(Signed(w', u)) <= Total(Signed(w, u)) + OfUnit(w, q, u, signed)
    requires Total(Owed(w', u)) + Total(Unclaimed(w', u))
      <= Total(Owed(w, u)) + Total(Unclaimed(w, u)) + OfUnit(w, q, u, owed)
    requires Received(w', u) == Received(w, u)
    requires Claims(View(w', q)) + signed + owed + ConsumedBy(View(w, q))
      <= Claims(View(w, q)) + ConsumedBy(View(w', q))
    ensures Conserved(w', u)
  {
    hide Total, View, OnlyQuote, CountedTogether, Outflow, Surplus, ConsumedBy, PaidOut, Surpluses, Consumed, Signed,
      Owed, Unclaimed, Received;
    PaidOutMoves(w, w', q, u);
    SurplusesMove(w, w', q, u);
    ConsumedMoves(w, w', q, u);
  }

  function SigAmount(): RecoverSig -> nat
  {
    (s: RecoverSig) => s.amount
  }

  ghost function SigAmounts(sigs: SigTable, b: bool): map<Point, nat>
  {
    map k | k in sigs :: If(b, sigs[k].amount)
  }

  lemma SignedMap(w: World, w': World, added: SigTable, u: Unit, unit: Unit)
    requires w'.ks == w.ks && added.Keys !! w.t.sigs.Keys && w'.t.sigs == w.t.sigs + added
    requires forall b | b in added :: HasUnit(w.ks, added[b].id, unit)
    ensures Signed(w', u) == Signed(w, u) + SigAmounts(added, unit == u)
  {
    hide If;
  }

  lemma SigsIf(sigs: seq<RecoverSig>, b: bool)
    requires DistinctBs(sigs)
    ensures Total(SigAmounts(SigMap(sigs), b)) == If(b, SumOf(SigAmount(), sigs))
  {
    if b {
      SumOfSigs(SigAmount(), sigs);
      assert SigAmounts(SigMap(sigs), b) == (map k | k in SigMap(sigs) :: SigAmount()(SigMap(sigs)[k]));
    } else {
      AllZero(SigAmounts(SigMap(sigs), b));
    }
  }

  lemma SignedAdds(w: World, w': World, sigs: seq<RecoverSig>, u: Unit, unit: Unit)
    requires w'.ks == w.ks && CanInsertSigs(w.t.sigs, sigs) && w'.t.sigs == w.t.sigs + SigMap(sigs)
    requires forall i | 0 <= i < |sigs| :: HasUnit(w.ks, sigs[i].id, unit)
    ensures Total(Signed(w', u)) == Total(Signed(w, u)) + If(unit == u, SumOf(SigAmount(), sigs))
  {
    var added := SigMap(sigs);
    assert added.Keys !! w.t.sigs.Keys;
    assert forall b | b in added :: HasUnit(w.ks, added[b].id, unit);
    SignedMap(w, w', added, u, unit);
    SignedKeys(w, u, added, unit == u);
    SigsIf(sigs, unit == u);
    hide Total, SumOf, Signed, HasUnit, If, SigAmounts;
    TotalUnion(Signed(w, u), SigAmounts(added, unit == u));
  }

  lemma SignedKeys(w: World, u: Unit, added: SigTable, b: bool)
    ensures Signed(w, u).Keys == w.t.sigs.Keys && SigAmounts(added, b).Keys == added.Keys
  {
  }

  // ----- steps that move no melt quote -----

  ghost predicate SameClaims(w: World, w': World, q: QuoteId)
  {
    && q in w.t.melts && q in w'.t.melts
    && Settles(View(w', q)) == Settles(View(w, q)) && Outflow(View(w', q)) == Outflow(View(w, q))
    && Surplus(View(w', q)) == Surplus(View(w, q))
  }

  lemma ClaimSumsSame(w: World, w': World, u: Unit)
    requires w'.t.melts == w.t.melts && forall q | q in w.t.melts :: SameClaims(w, w', q)
    ensures PaidOut(w', u) == PaidOut(w, u) && Surpluses(w', u) == Surpluses(w, u)
  {
  }

  lemma ConsumedSame(w: World, w': World, u: Unit)
    requires w'.t.melts == w.t.melts && forall q | q in w.t.melts :: SameClaims(w, w', q)
    requires w'.ks == w.ks && w'.t.proofs == w.t.proofs
    ensures Consumed(w', u) == Consumed(w, u)
  {
  }

  lemma SameMintSums(w: World, w': World, u: Unit)
    requires w'.t.mints == w.t.mints && w'.t.sigs == w.t.sigs && w'.ks == w.ks && w'.received == w.received
    ensures Signed(w', u) == Signed(w, u) && Owed(w', u) == Owed(w, u)
    ensures Unclaimed(w', u) == Unclaimed(w, u) && Received(w', u) == Received(w, u)
  {
    hide If, Value, OwedFor;
  }

  lemma MintsSameSums(w: World, w': World, u: Unit)
    requires w'.t.mints == w.t.mints && w'.received == w.received
    ensures Owed(w', u) == Owed(w, u) && Unclaimed(w', u) == Unclaimed(w, u) && Received(w', u) == Received(w, u)
  {
    hide If, Value, OwedFor;
  }
}
