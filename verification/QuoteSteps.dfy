/** Creating mint and melt quotes keeps the invariant (internal/mint/minting.go, melting.go). */
module QuoteSteps {
  import opened Prelude
  import opened Totals
  import opened Cashu
  import opened Store
  import opened Fees
  import opened Transactions
  import opened World
  import opened Invariant
  import opened Frames
  import opened Steps
  import opened MintSteps

  ghost predicate NewMint(w: World, w': World, m: QuoteId, mint: MintQuote)
  {
    m !in w.t.mints && w' == w.(t := w.t.(mints := w.t.mints[m := mint])) && mint.state == UNPAID
  }

  lemma NewMintSums(w: World, w': World, m: QuoteId, mint: MintQuote, u: Unit)
    requires NewMint(w, w', m, mint) && m !in w.received
    ensures Total(Owed(w', u)) == Total(Owed(w, u)) && Total(Unclaimed(w', u)) == Total(Unclaimed(w, u))
    ensures Total(Received(w', u)) == Total(Received(w, u))
  {
    NewMintOwed(w, w', m, mint, u);
    NewMintUnclaimed(w, w', m, mint, u);
    NewMintReceived(w, w', m, mint, u);
    hide Total, Owed, Unclaimed, Received;
    TotalInsert(Owed(w, u), m, 0);
    TotalInsert(Unclaimed(w, u), m, 0);
    TotalInsert(Received(w, u), m, 0);
  }

  lemma NewMintOwed(w: World, w': World, m: QuoteId, mint: MintQuote, u: Unit)
    requires NewMint(w, w', m, mint)
    ensures Owed(w', u) == Owed(w, u)[m := 0] && m !in Owed(w, u)
  {
  }

  lemma NewMintUnclaimed(w: World, w': World, m: QuoteId, mint: MintQuote, u: Unit)
    requires NewMint(w, w', m, mint) && m !in w.received
    ensures Unclaimed(w', u) == Unclaimed(w, u)[m := 0] && m !in Unclaimed(w, u)
  {
  }

  lemma NewMintReceived(w: World, w': World, m: QuoteId, mint: MintQuote, u: Unit)
    requires NewMint(w, w', m, mint) && m !in w.received
    ensures Received(w', u) == Received(w, u)[m := 0] && m !in Received(w, u)
  {
  }

  lemma NewMintKeeps(w: World, w': World, m: QuoteId, mint: MintQuote)
    requires Inv(w) && NewMint(w, w', m, mint) && !mint.minted && (mint.unit == Sat || mint.unit == Msat)
    requires forall q | q in w.t.melts :: w.t.melts[q].request != mint.request
    requires forall k | k in w.t.mints :: w.t.mints[k].request != mint.request
    ensures Inv(w')
  {
    hide TablesOk, MeltsOk, SwapsOk, MintsOk, LogOk, Conserved;
    SameTablesOk(w, w');
    NewMintMelts(w, w', m, mint);
    NewMintMints(w, w', m, mint);
    NewMintLog(w, w', m, mint);
    forall u ensures Conserved(w', u) {
      NewMintConserved(w, w', m, mint, u);
    }
  }

  lemma NewMintMelts(w: World, w': World, m: QuoteId, mint: MintQuote)
    requires NewMint(w, w', m, mint) && MeltsOk(w) && SwapsOk(w)
    ensures MeltsOk(w') && SwapsOk(w')
  {
  }

  lemma NewMintMints(w: World, w': World, m: QuoteId, mint: MintQuote)
    requires NewMint(w, w', m, mint) && MintsOk(w) && !mint.minted && (mint.unit == Sat || mint.unit == Msat)
    requires forall q | q in w.t.melts :: w.t.melts[q].request != mint.request
    requires forall k | k in w.t.mints :: w.t.mints[k].request != mint.request
    ensures MintsOk(w')
  {
    hide IssuanceFits, Value;
    forall k | k in w'.t.mints ensures MintOk(w', k) {
      if k != m {
        assert MintOk(w, k);
      }
    }
    forall k, q | k in w'.t.mints && q in w'.t.melts ensures InternalPair(w', k, q) {
      if k != m {
        assert InternalPair(w, k, q);
      }
    }
  }

  lemma NewMintLog(w: World, w': World, m: QuoteId, mint: MintQuote)
    requires NewMint(w, w', m, mint) && LogOk(w)
    ensures LogOk(w')
  {
  }

  lemma NewMintConserved(w: World, w': World, m: QuoteId, mint: MintQuote, u: Unit)
    requires NewMint(w, w', m, mint) && MintsOk(w) && Conserved(w, u)
    ensures Conserved(w', u)
  {
    assert m !in w.received;
    NewMintSums(w, w', m, mint, u);
    forall q | q in w.t.melts ensures SameClaims(w, w', q) {
      assert View(w', q) == View(w, q);
    }
    ClaimSumsSame(w, w', u);
    ConsumedSame(w, w', u);
    SameSigs(w, w', u);
    hide MintsOk, SameClaims, Total, Owed, Unclaimed, Received, Signed, PaidOut, Surpluses, Consumed;
  }

  lemma CreateMintQuoteKeeps(w: World, m: QuoteId, request: Invoice, unit: Unit, c: Commit)
    requires Inv(w)
    requires forall q | q in w.t.melts :: w.t.melts[q].request != request
    requires forall k | k in w.t.mints :: w.t.mints[k].request != request
    ensures Inv(if c == NotApplied || SaveMintQuote(w.t, m, request, unit).Err? then w
                else w.(t := SaveMintQuote(w.t, m, request, unit).value))
  {
    hide Inv;
    if c != NotApplied && SaveMintQuote(w.t, m, request, unit).Ok? {
      NewMintKeeps(w, w.(t := SaveMintQuote(w.t, m, request, unit).value), m, MintQuote(request, unit, UNPAID, false));
    }
  }

  // ----- melt quotes -----

  ghost predicate NewMelt(w: World, w': World, q: QuoteId, quote: MeltQuote)
  {
    && q !in w.t.melts && w' == w.(t := w.t.(melts := w.t.melts[q := quote])) && quote.state == UNPAID && !quote.melted
    && quote.amount + quote.feeReserve < QUOTE_LIMIT
    && (forall y | y in w.t.proofs :: w.t.proofs[y].quote != Some(q))
    && forall m | m in w.t.mints && w.t.mints[m].request == quote.request && w.t.mints[m].unit == quote.unit ::
         quote.amount == Value(w.t.mints[m])
  }

  lemma NewMeltView(w: World, w': World, q: QuoteId, quote: MeltQuote)
    requires NewMelt(w, w', q, quote) && MeltsOk(w)
    ensures w'.t.melts.Keys == w.t.melts.Keys + {q}
    ensures View(w', q) == MeltView(quote, map[], [], None, None)
    ensures forall r | r in w.t.melts :: View(w', r) == View(w, r)
  {
  }

  lemma EmptyViewOk(ks: Keysets, quote: MeltQuote)
    requires quote.state == UNPAID && !quote.melted && quote.amount + quote.feeReserve < QUOTE_LIMIT
    ensures var v := MeltView(quote, map[], [], None, None);
      MeltOk(ks, v) && Outflow(v) == 0 && Surplus(v) == 0 && !Settles(v)
  {
  }

  lemma NewMeltMelts(w: World, w': World, q: QuoteId, quote: MeltQuote)
    requires NewMelt(w, w', q, quote) && MeltsOk(w) && SwapsOk(w)
    ensures MeltsOk(w') && SwapsOk(w')
  {
    NewMeltView(w, w', q, quote);
    EmptyViewOk(w.ks, quote);
    hide MeltOk, SwapFits, View;
    forall s | s in w'.swapping ensures SwapOk(w'.ks, w'.t, w'.swapping[s]) {
      assert SwapOk(w.ks, w.t, w.swapping[s]);
    }
  }

  lemma NewMeltMints(w: World, w': World, q: QuoteId, quote: MeltQuote)
    requires NewMelt(w, w', q, quote) && MintsOk(w) && MeltsOk(w)
    ensures MintsOk(w')
  {
    hide IssuanceFits, Value, MeltOk;
    forall k | k in w'.t.mints ensures MintOk(w', k) {
      assert MintOk(w, k);
    }
    forall k, r | k in w'.t.mints && r in w'.t.melts ensures InternalPair(w', k, r) {
      if r != q {
        assert InternalPair(w, k, r);
      }
    }
  }

  lemma NewMeltConserved(w: World, w': World, q: QuoteId, quote: MeltQuote, u: Unit)
    requires NewMelt(w, w', q, quote) && MeltsOk(w) && Conserved(w, u)
    ensures Conserved(w', u)
  {
    NewMeltView(w, w', q, quote);
    EmptyViewOk(w.ks, quote);
    NewMeltPaidOut(w, w', q, quote, u);
    NewMeltSurpluses(w, w', q, quote, u);
    NewMeltConsumed(w, w', q, quote, u);
    SameMintSums(w, w', u);
    hide NewMelt, MeltsOk, Total, Owed, Unclaimed, Received, Signed, PaidOut, Surpluses, Consumed, MeltOk, View;
    TotalInsert(PaidOut(w, u), q, 0);
    TotalInsert(Surpluses(w, u), q, 0);
  }

  lemma NewMeltPaidOut(w: World, w': World, q: QuoteId, quote: MeltQuote, u: Unit)
    requires NewMelt(w, w', q, quote) && w'.t.melts.Keys == w.t.melts.Keys + {q} && Outflow(View(w', q)) == 0
    requires forall r | r in w.t.melts :: View(w', r) == View(w, r)
    ensures PaidOut(w', u) == PaidOut(w, u)[q := 0] && q !in PaidOut(w, u)
  {
    hide View, Outflow, Value;
  }

  lemma NewMeltSurpluses(w: World, w': World, q: QuoteId, quote: MeltQuote, u: Unit)
    requires NewMelt(w, w', q, quote) && w'.t.melts.Keys == w.t.melts.Keys + {q} && Surplus(View(w', q)) == 0
    requires forall r | r in w.t.melts :: View(w', r) == View(w, r)
    ensures Surpluses(w', u) == Surpluses(w, u)[q := 0] && q !in Surpluses(w, u)
  {
    hide View, Surplus, Value;
  }

  lemma NewMeltConsumed(w: World, w': World, q: QuoteId, quote: MeltQuote, u: Unit)
    requires NewMelt(w, w', q, quote)
    requires forall r | r in w.t.melts :: View(w', r) == View(w, r)
    ensures Consumed(w', u) == Consumed(w, u)
  {
  }

  lemma NewMeltKeeps(w: World, w': World, q: QuoteId, quote: MeltQuote)
    requires Inv(w) && NewMelt(w, w', q, quote)
    ensures Inv(w')
  {
    hide TablesOk, MeltsOk, SwapsOk, MintsOk, LogOk, Conserved;
    NewMeltMelts(w, w', q, quote);
    NewMeltMints(w, w', q, quote);
    NewMeltRest(w, w', q, quote);
    forall u ensures Conserved(w', u) {
      NewMeltConserved(w, w', q, quote, u);
    }
  }

  lemma NewMeltRest(w: World, w': World, q: QuoteId, quote: MeltQuote)
    requires NewMelt(w, w', q, quote) && TablesOk(w) && LogOk(w)
    ensures TablesOk(w') && LogOk(w')
  {
  }

  lemma CreateMeltQuoteKeeps(
      w: World, q: QuoteId, request: Invoice, unit: Unit, mpp: nat, amount: nat, fee: nat, checkingId: string,
      c: Commit)
    requires Inv(w) && (forall y | y in w.t.proofs :: w.t.proofs[y].quote != Some(q))
    requires request.msat + mpp + amount + fee + 1 < QUOTE_LIMIT
    ensures Inv(if c == NotApplied || SaveMeltQuote(w.t, q, request, unit, mpp, amount, fee, checkingId).Err? then w
                else w.(t := SaveMeltQuote(w.t, q, request, unit, mpp, amount, fee, checkingId).value))
  {
    hide Inv;
    var r := SaveMeltQuote(w.t, q, request, unit, mpp, amount, fee, checkingId);
    if c != NotApplied && r.Ok? {
      InternalAmount(w, q, request, unit, mpp, amount, fee, checkingId);
      NewMeltKeeps(w, w.(t := r.value), q, r.value.melts[q]);
    }
  }

  /** A quote for an invoice of this mint is for the whole invoice. */
  lemma InternalAmount(
      w: World, q: QuoteId, request: Invoice, unit: Unit, mpp: nat, amount: nat, fee: nat, checkingId: string)
    requires SaveMeltQuote(w.t, q, request, unit, mpp, amount, fee, checkingId).Ok?
    requires forall y | y in w.t.proofs :: w.t.proofs[y].quote != Some(q)
    requires request.msat + mpp + amount + fee + 1 < QUOTE_LIMIT
    ensures var t := SaveMeltQuote(w.t, q, request, unit, mpp, amount, fee, checkingId).value;
      q in t.melts && NewMelt(w, w.(t := t), q, t.melts[q])
  {
  }
}
