/**
 * What the states of the ledger's rows mean to the statistics (internal/database/postgresql/stats.go): which rows count
 * at all, over every run of the mint, and that a row which counts never stops counting.
 */
module StatsLedger {
  import opened Prelude
  import opened Cashu
  import opened Store
  import opened World
  import opened Invariant
  import opened Finality
  import opened Theorems
  import opened Issuing
  import opened Stats

  /** A mint quote counts exactly when it is paid or was issued. */
  lemma MintCountsIff(w: World, ks: Keysets, es: seq<Event>, m: QuoteId)
    requires Reached(w, ks, es) && m in w.t.mints
    ensures Counts(OfQuote(w.t.mints[m].state)) <==>
      || w.t.mints[m].state == PAID
      || exists i :: 0 <= i < |w.log| && w.log[i].Issued? && w.log[i].mint == m
  {
    hide Reached;
    MintLifecycle(w, ks, es, m);
  }

  /** A melt quote counts exactly when it is melted. */
  lemma MeltCountsIff(w: World, ks: Keysets, es: seq<Event>, q: QuoteId)
    requires Reached(w, ks, es) && SwapsNameNoQuote(Start(ks), es) && q in w.t.melts
    ensures Counts(OfQuote(w.t.melts[q].state)) <==> w.t.melts[q].melted
  {
    hide Reached, SwapsNameNoQuote, RowsOf, AllIn;
    MeltLifecycle(w, ks, es, q);
  }

  /** A proof counts exactly when a committed swap or melt consumed it. */
  lemma ProofCountsIff(w: World, ks: Keysets, es: seq<Event>, y: Point)
    requires Reached(w, ks, es) && SwapsNameNoQuote(Start(ks), es) && y in w.t.proofs
    ensures Counts(OfProof(w.t.proofs[y].state)) <==> exists i :: 0 <= i < |w.log| && y in EntryYs(w.log[i])
  {
    hide Reached, SwapsNameNoQuote, EntryYs;
    SpentIffConsumed(w, ks, es, y);
  }

  /** A quote or proof that counts is still there and counts after every further run. */
  lemma CountsForGood(w: World, ks: Keysets, es: seq<Event>, more: seq<Event>)
    requires Reached(w, ks, es) && SwapsNameNoQuote(Start(ks), es)
    requires AssumedRun(w, more) && SwapsNameNoQuote(w, more)
    ensures var t, t' := w.t, Run(w, more).t;
      && (forall q | q in t.melts && Counts(OfQuote(t.melts[q].state)) ::
            q in t'.melts && Counts(OfQuote(t'.melts[q].state)))
      && (forall y | y in t.proofs && Counts(OfProof(t.proofs[y].state)) ::
            y in t'.proofs && Counts(OfProof(t'.proofs[y].state)))
  {
    hide Reached, SwapsNameNoQuote, AssumedRun, Run, RowsOf, AllIn;
    forall q | q in w.t.melts && Counts(OfQuote(w.t.melts[q].state))
      ensures q in Run(w, more).t.melts && Counts(OfQuote(Run(w, more).t.melts[q].state))
    {
      MeltLifecycle(w, ks, es, q);
      PaidIsFinal(w, ks, es, more, q);
    }
    forall y | y in w.t.proofs && Counts(OfProof(w.t.proofs[y].state))
      ensures y in Run(w, more).t.proofs && Counts(OfProof(Run(w, more).t.proofs[y].state))
    {
      SpentIsFinal(w, ks, es, more, y);
    }
  }

  /** So does a mint quote, as long as no melt overtakes a request on it. */
  lemma MintCountsForGood(w: World, ks: Keysets, es: seq<Event>, more: seq<Event>, m: QuoteId)
    requires Reached(w, ks, es) && NothingOvertaken(Start(ks), es) && m in w.t.mints
    requires AssumedRun(w, more) && NothingOvertaken(w, more)
    requires Counts(OfQuote(w.t.mints[m].state))
    ensures m in Run(w, more).t.mints && Counts(OfQuote(Run(w, more).t.mints[m].state))
  {
    hide Reached, NothingOvertaken, AssumedRun, Run;
    MintMovesForward(w, ks, es, more, m);
  }
}
