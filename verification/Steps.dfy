/** Shared parts of the preservation proofs: the log, and steps that touch one melt quote. */
module Steps {
  import opened Prelude
  import opened Totals
  import opened Cashu
  import opened Store
  import opened Fees
  import opened Transactions
  import opened World
  import opened Invariant
  import opened Frames

  // ----- the log -----

  ghost predicate SameInvoices(mints: map<QuoteId, MintQuote>, mints': map<QuoteId, MintQuote>)
  {
    forall m | m in mints :: m in mints' && mints'[m].unit == mints[m].unit && mints'[m].request == mints[m].request
  }

  lemma LogKept(w: World, w': World)
    requires LogOk(w) && w'.log == w.log && SameInvoices(w.t.mints, w'.t.mints)
    requires SpentRows(w'.t.proofs) == SpentRows(w.t.proofs) && IssuedQuotes(w'.t.mints) == IssuedQuotes(w.t.mints)
    ensures LogOk(w')
  {
  }

  lemma LogGrows(w: World, w': World, e: Entry)
    requires LogOk(w) && w'.log == w.log + [e] && SameInvoices(w.t.mints, w'.t.mints) && EntryOk(w', e)
    requires EntryYs(e) !! SpentRows(w.t.proofs) && SpentRows(w'.t.proofs) == SpentRows(w.t.proofs) + EntryYs(e)
    requires EntryMints(e) !! IssuedQuotes(w.t.mints)
    requires IssuedQuotes(w'.t.mints) == IssuedQuotes(w.t.mints) + EntryMints(e)
    ensures LogOk(w')
  {
  }

  lemma SpentRowsSplit(m: ProofTable, q: QuoteId)
    ensures SpentRows(m) == SpentRows(RowsOutside(m, q)) + SpentRows(RowsOf(m, q))
  {
  }

  // ----- one melt quote -----

  /** A quote for an invoice of this mint stays away from lightning. */
  ghost predicate StaysInternal(w: World, w': World, q: QuoteId)
  {
    forall m | m in w.t.mints && q in w.t.melts && w.t.mints[m].request == w.t.melts[q].request ::
      q !in w'.ln && q in w'.t.melts && w'.t.melts[q].state != PENDING
  }

  lemma MintsKept(w: World, w': World, q: QuoteId)
    requires MintsOk(w) && OnlyQuote(w, w', q) && w'.t.mints == w.t.mints && StaysInternal(w, w', q)
    ensures MintsOk(w')
  {
    hide Value, IssuanceFits;
    forall m | m in w'.t.mints ensures MintOk(w', m) {
      assert MintOk(w, m);
    }
    forall m, r | m in w'.t.mints && r in w'.t.melts ensures InternalPair(w', m, r) {
      assert InternalPair(w, m, r);
      SameElsewhere(w.t.melts, w'.t.melts, q, if r == q then q + "x" else r);
      SameElsewhere(w.ln, w'.ln, q, if r == q then q + "x" else r);
    }
  }

  /** The step moved nothing that the quote's claims and consumed rows do not account for. */
  ghost predicate Balanced(w: World, w': World, q: QuoteId, gave: nat)
    requires q in w.t.melts && q in w'.t.melts
  {
    Claims(View(w', q)) + gave + ConsumedBy(View(w, q)) <= Claims(View(w, q)) + ConsumedBy(View(w', q))
  }

  /** A step on one melt quote that stores no signature and spends nothing. */
  lemma QuietMeltStep(w: World, w': World, q: QuoteId)
    requires Inv(w) && OnlyQuote(w, w', q) && MeltOk(w.ks, View(w', q))
    requires w'.t.mints == w.t.mints && w'.t.sigs == w.t.sigs && w'.log == w.log
    requires SpentRows(View(w', q).rows) == SpentRows(View(w, q).rows)
    requires StaysInternal(w, w', q) && Balanced(w, w', q, 0)
    ensures Inv(w')
  {
    hide TablesOk, MeltsOk, SwapsOk, MintsOk, LogOk, Conserved, View, MeltOk, StaysInternal, Balanced, SpentRows;
    MeltsKept(w, w', q);
    SwapsKept(w, w', q);
    MintsKept(w, w', q);
    QuietTablesKept(w, w', q);
    QuietLogKept(w, w', q);
    forall u ensures Conserved(w', u) {
      QuietConserved(w, w', q, u);
    }
  }

  lemma QuietTablesKept(w: World, w': World, q: QuoteId)
    requires TablesOk(w) && OnlyQuote(w, w', q) && MeltOk(w.ks, View(w', q)) && w'.t.sigs == w.t.sigs
    ensures TablesOk(w')
  {
    TablesKept(w, w', q);
  }

  lemma QuietLogKept(w: World, w': World, q: QuoteId)
    requires LogOk(w) && OnlyQuote(w, w', q) && w'.t.mints == w.t.mints && w'.log == w.log
    requires SpentRows(View(w', q).rows) == SpentRows(View(w, q).rows)
    ensures LogOk(w')
  {
    hide LogOk, SpentRows;
    SpentRowsSplit(w.t.proofs, q);
    SpentRowsSplit(w'.t.proofs, q);
    LogKept(w, w');
  }

  lemma QuietConserved(w: World, w': World, q: QuoteId, u: Unit)
    requires Conserved(w, u) && OnlyQuote(w, w', q) && MeltsOk(w) && MeltOk(w.ks, View(w', q))
    requires w'.t.mints == w.t.mints && w'.t.sigs == w.t.sigs && Balanced(w, w', q, 0)
    ensures Conserved(w', u)
  {
    MeltOkCountsTogether(w, q);
    MeltOkCountsTogether(w', q);
    SameMintSums(w, w', u);
    hide Conserved, OnlyQuote, CountedTogether, Total, View, Signed, Owed, Unclaimed, Received, MeltOk, MeltsOk,
      Claims, ConsumedBy;
    MeltConserves(w, w', q, u, 0, 0);
  }
}
