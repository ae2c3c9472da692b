/** How a change to one mint quote moves what the mint owes, has not claimed and has received. */
module MintSums {
  import opened Prelude
  import opened Totals
  import opened Cashu
  import opened Store
  import opened World
  import opened Invariant
  import opened Frames

  /** The mint quotes differ only in the state of one of them, and in whether its invoice was paid. */
  ghost predicate OnlyMint(w: World, w': World, m: QuoteId)
  {
    && m in w.t.mints && m in w'.t.mints && w'.t.mints == w.t.mints[m := w'.t.mints[m]]
    && w'.t.mints[m].unit == w.t.mints[m].unit && w'.t.mints[m].request == w.t.mints[m].request
    && w'.received - {m} == w.received - {m}
  }

  ghost function OfMint(w: World, m: QuoteId, u: Unit, amount: nat): nat
    requires m in w.t.mints
  {
    If(w.t.mints[m].unit == u, amount)
  }

  ghost function ReceivedFor(w: World, m: QuoteId): nat
    requires m in w.t.mints
  {
    If(m in w.received, Value(w.t.mints[m]))
  }

  lemma OwedMoves(w: World, w': World, m: QuoteId, u: Unit)
    requires OnlyMint(w, w', m)
    ensures Total(Owed(w', u)) + OfMint(w, m, u, OwedFor(w.t.mints[m]))
         == Total(Owed(w, u)) + OfMint(w, m, u, OwedFor(w'.t.mints[m]))
  {
    hide Total, OwedFor, If;
    assert Owed(w', u) == Owed(w, u)[m := OfMint(w, m, u, OwedFor(w'.t.mints[m]))];
    TotalUpdate(Owed(w, u), m, OfMint(w, m, u, OwedFor(w'.t.mints[m])));
  }

  lemma UnclaimedMoves(w: World, w': World, m: QuoteId, u: Unit)
    requires OnlyMint(w, w', m)
    ensures Total(Unclaimed(w', u)) + OfMint(w, m, u, UnclaimedFor(w, m))
         == Total(Unclaimed(w, u)) + OfMint(w, m, u, UnclaimedFor(w', m))
  {
    UnclaimedElsewhere(w, w', m);
    hide Total, UnclaimedFor, If;
    assert Unclaimed(w', u) == Unclaimed(w, u)[m := OfMint(w, m, u, UnclaimedFor(w', m))];
    TotalUpdate(Unclaimed(w, u), m, OfMint(w, m, u, UnclaimedFor(w', m)));
  }

  lemma UnclaimedElsewhere(w: World, w': World, m: QuoteId)
    requires OnlyMint(w, w', m)
    ensures forall k | k in w.t.mints && k != m :: UnclaimedFor(w', k) == UnclaimedFor(w, k)
    ensures forall k | k in w.t.mints && k != m :: k in w'.received <==> k in w.received
  {
    forall k | k != m ensures k in w'.received <==> k in w.received {
      assert k in w.received <==> k in w.received - {m};
    }
  }

  lemma ReceivedMoves(w: World, w': World, m: QuoteId, u: Unit)
    requires OnlyMint(w, w', m)
    ensures Total(Received(w', u)) + OfMint(w, m, u, ReceivedFor(w, m))
         == Total(Received(w, u)) + OfMint(w, m, u, ReceivedFor(w', m))
  {
    UnclaimedElsewhere(w, w', m);
    ReceivedMap(w, w', m, u);
    assert Received(w, u)[m] == OfMint(w, m, u, ReceivedFor(w, m));
    hide Total, Received, OnlyMint, OfMint, ReceivedFor;
    TotalUpdate(Received(w, u), m, OfMint(w, m, u, ReceivedFor(w', m)));
  }

  lemma ReceivedMap(w: World, w': World, m: QuoteId, u: Unit)
    requires OnlyMint(w, w', m)
    requires forall k | k in w.t.mints && k != m :: k in w'.received <==> k in w.received
    ensures m in w.t.mints && m in w'.t.mints
    ensures Received(w', u) == Received(w, u)[m := OfMint(w, m, u, ReceivedFor(w', m))]
  {
  }
}
