/**
 * A run that meets every assumption, and in which one input of a swap names a melt quote: a proof is spent twice, and
 * the mint signs more than it took in.
 */
module TwiceSpent {
  import opened Prelude
  import opened Totals
  import opened Cashu
  import opened Store
  import opened Amounts
  import opened Fees
  import opened Transactions
  import opened World
  import opened Invariant
  import opened Theorems
  import opened FirstTokens
  import opened Singles

  /** The melt's own input, and the proof that is spent twice: first naming the quote, then naming none. */
  const MELTED := Proof(1, "k", "a", Point(0), Point(11), None, ProofUnspent, 0)
  const NAMING := Proof(1, "k", "b", Point(0), Point(12), Some("q"), ProofUnspent, 0)
  const PLAIN := NAMING.(quote := None)

  const MELTED_ROW := MELTED.(state := ProofPending, quote := Some("q"))
  const NAMING_ROW := NAMING.(state := ProofPending)
  const PLAIN_ROW := PLAIN.(state := ProofPending)

  const OTHER_OUTPUT := BlindedMessage(Point(2), "k", 1)
  const UNPAID_MELT := MeltQuote(INVOICE, Sat, 0, 1, UNPAID, false, 0, "", "id", false)
  const ROWS := [MELTED_ROW, NAMING_ROW]

  ghost function Asked(): World
  {
    Start(KEYS).(t := Start(KEYS).t.(melts := map["q" := UNPAID_MELT]))
  }

  ghost function Paying(): World
  {
    Asked().(t := HeldFor(Asked().t, "q", MELTED, []), melting := map["q" := Reserved([MELTED_ROW], [])])
  }

  ghost function Left(): World
  {
    Paying().(melting := Paying().melting - {"q"})
  }

  ghost function Naming(): World
  {
    Left().(t := Left().t.(proofs := Left().t.proofs[Point(12) := NAMING_ROW]),
            swapping := Left().swapping[0 := SwapReserved([NAMING_ROW], [OUTPUT])])
  }

  ghost function Refreshed(): World
  {
    Naming().(melting := Naming().melting["q" := Refreshing(ROWS)])
  }

  ghost function Released(): World
  {
    Refreshed().(t := ReleaseMelt(Refreshed().t, "q", {Point(11), Point(12)}, 0),
      melting := Refreshed().melting - {"q"})
  }

  ghost function Spent(): World
  {
    Released().(t := Released().t.(proofs := SetState(Released().t.proofs, {Point(12)}, ProofSpent),
                                   sigs := Released().t.sigs[Point(1) := SigFor(OUTPUT)]),
                log := Released().log + [SpentBySwap(0, {Point(12)})], swapping := Released().swapping - {0})
  }

  ghost function Again(): World
  {
    Spent().(t := Spent().t.(proofs := Spent().t.proofs[Point(12) := PLAIN_ROW]),
             swapping := Spent().swapping[1 := SwapReserved([PLAIN_ROW], [OTHER_OUTPUT])])
  }

  ghost function SpentAgain(): World
  {
    Again().(t := Again().t.(proofs := SetState(Again().t.proofs, {Point(12)}, ProofSpent),
                             sigs := Again().t.sigs[Point(2) := SigFor(OTHER_OUTPUT)]),
             log := Again().log + [SpentBySwap(1, {Point(12)})], swapping := Again().swapping - {1})
  }

  // ----- the steps -----

  lemma OnesAreAmounts()
    ensures IsInput(MELTED) && IsInput(NAMING) && IsInput(PLAIN) && IsOutput(OUTPUT) && IsOutput(OTHER_OUTPUT)
  {
    assert IsPow2(1);
  }

  lemma AskStep()
    ensures var e := CreateMeltQuote("q", INVOICE, Sat, 0, 0, 0, "id", Committed);
      Assumed(Start(KEYS), e) && Step(Start(KEYS), e) == Asked()
  {
  }

  lemma HoldStep()
    ensures var e := MeltReserve("q", [MELTED], [], true, Committed);
      Assumed(Asked(), e) && Step(Asked(), e) == Paying()
  {
    OnesAreAmounts();
    MeltReserveStep(Asked(), "q", MELTED, []);
    hide Assumed, Step, HeldFor, IsInput, IsOutput;
  }

  lemma LeaveStep()
    ensures Assumed(Paying(), MeltAbort("q")) && Step(Paying(), MeltAbort("q")) == Left()
  {
    hide HeldFor;
  }

  lemma NameStep()
    ensures var e := SwapReserve(0, [NAMING], [OUTPUT], true, Committed);
      Assumed(Left(), e) && Step(Left(), e) == Naming()
  {
    OnesAreAmounts();
    SwapReserveStep(Left(), 0, NAMING, OUTPUT);
    hide Assumed, Step, IsInput, IsOutput;
  }

  lemma NamedRows()
    ensures ListsRows(ROWS, RowsOf(Naming().t.proofs, "q")) && Ys(ROWS) == {Point(11), Point(12)}
  {
    assert ROWS[0] == MELTED_ROW && ROWS[1] == NAMING_ROW && DistinctYs(ROWS);
    assert RowMap(ROWS).Keys == {Point(11), Point(12)};
    forall y ensures y in RowsOf(Naming().t.proofs, "q") <==> y in RowMap(ROWS) {
    }
  }

  lemma ReadStep()
    ensures Assumed(Naming(), RefreshRead("q", ROWS)) && Step(Naming(), RefreshRead("q", ROWS)) == Refreshed()
  {
    NamedRows();
    hide ListsRows, RowsOf, Ys;
  }

  lemma ReleaseStep()
    ensures Assumed(Refreshed(), RefreshFailed("q", Committed))
    ensures Step(Refreshed(), RefreshFailed("q", Committed)) == Released()
  {
    NamedRows();
    hide ListsRows, RowsOf, Ys, ReleaseMelt;
  }

  lemma SpendStep()
    ensures Assumed(Released(), SwapSettle(0, LANDS)) && Step(Released(), SwapSettle(0, LANDS)) == Spent()
  {
    OnesAreAmounts();
    SwapSettleStep(Released(), 0, NAMING_ROW, OUTPUT);
    hide Assumed, Step, IsInput, IsOutput, SetState;
  }

  lemma AgainStep()
    ensures var e := SwapReserve(1, [PLAIN], [OTHER_OUTPUT], true, Committed);
      Assumed(Spent(), e) && Step(Spent(), e) == Again()
  {
    OnesAreAmounts();
    SpentRow(Released().t.proofs, Point(12));
    SwapReserveStep(Spent(), 1, PLAIN, OTHER_OUTPUT);
    hide Assumed, Step, IsInput, IsOutput, SetState;
  }

  lemma SpendAgainStep()
    ensures Assumed(Again(), SwapSettle(1, LANDS)) && Step(Again(), SwapSettle(1, LANDS)) == SpentAgain()
  {
    OnesAreAmounts();
    SwapSettleStep(Again(), 1, PLAIN_ROW, OTHER_OUTPUT);
    hide Assumed, Step, IsInput, IsOutput, SetState;
  }

  // ----- what comes of it -----

  lemma AtLeastTwo<K>(m: map<K, nat>, a: K, b: K)
    requires a in m && b in m && a != b && m[a] == 1 && m[b] == 1
    ensures Total(m) >= 2
  {
    TotalRemove(m, a);
    TotalRemove(m - {a}, b);
  }

  lemma AtMostOne<K>(m: map<K, nat>, a: K)
    requires a in m && m.Keys == {a} && m[a] <= 1
    ensures Total(m) <= 1
  {
    TotalRemove(m, a);
    assert m - {a} == map[];
  }

  lemma NoneLeft()
    ensures Released().t.proofs.Keys == {}
  {
  }

  lemma LastRows()
    ensures SpentAgain().t.proofs.Keys == {Point(12)} && SpentAgain().t.proofs[Point(12)].amount == 1
  {
    NoneLeft();
    SpentRow(Released().t.proofs, Point(12));
    SpentRow(Again().t.proofs, Point(12));
    hide SetState, Released;
  }

  lemma LastSigs()
    ensures var t := SpentAgain().t;
      && t.mints == map[] && Point(1) in t.sigs && t.sigs[Point(1)] == SigFor(OUTPUT)
      && Point(2) in t.sigs && t.sigs[Point(2)] == SigFor(OTHER_OUTPUT)
  {
    hide SetState;
  }

  lemma MoreSignedThanConsumed()
    ensures !ValueKept(SpentAgain(), Sat)
  {
    LastRows();
    LastSigs();
    var w := SpentAgain();
    KeysStay();
    hide SpentAgain;
    SignedTwo(w);
    ConsumedOne(w);
    NothingReceived(w);
    hide Signed, Consumed, Received, Owed, Total;
  }

  lemma KeysStay()
    ensures SpentAgain().ks == KEYS
  {
  }

  lemma SignedTwo(w: World)
    requires w.ks == KEYS && Point(1) in w.t.sigs && w.t.sigs[Point(1)] == SigFor(OUTPUT)
    requires Point(2) in w.t.sigs && w.t.sigs[Point(2)] == SigFor(OTHER_OUTPUT)
    ensures Total(Signed(w, Sat)) >= 2
  {
    AtLeastTwo(Signed(w, Sat), Point(1), Point(2));
    hide Total;
  }

  lemma ConsumedOne(w: World)
    requires w.t.proofs.Keys == {Point(12)} && w.t.proofs[Point(12)].amount == 1
    ensures Total(Consumed(w, Sat)) <= 1
  {
    hide Counted, HasUnit;
    assert Consumed(w, Sat).Keys == w.t.proofs.Keys;
    AtMostOne(Consumed(w, Sat), Point(12));
    hide Total;
  }

  lemma NothingReceived(w: World)
    requires w.t.mints == map[]
    ensures Total(Received(w, Sat)) == 0
  {
    AllZero(Received(w, Sat));
  }

  lemma LastLog()
    ensures SpentAgain().log == [SpentBySwap(0, {Point(12)}), SpentBySwap(1, {Point(12)})]
  {
    hide SetState, HeldFor, ReleaseMelt;
  }

  /**
   * Without the condition on a swap's inputs the theorems fail: every assumption is met, two blocks consume the same Y,
   * and signatures worth 2 stand against one proof of 1.
   */
  lemma SameProofTwice() returns (es: seq<Event>, w: World)
    ensures Reached(w, KEYS, es)
    ensures |w.log| == 2 && EntryYs(w.log[0]) == EntryYs(w.log[1]) == {Point(12)}
    ensures !ValueKept(w, Sat)
  {
    AskStep();
    HoldStep();
    LeaveStep();
    NameStep();
    ReadStep();
    ReleaseStep();
    SpendStep();
    AgainStep();
    SpendAgainStep();
    LastLog();
    MoreSignedThanConsumed();
    NoEventsYet();
    hide Assumed, Step, NamesNoQuote, Clean, Start, Asked, Paying, Left, Naming, Refreshed, Released, Spent, Again,
      SpentAgain, ValueKept, Run, AssumedRun;
    es := Then([], Start(KEYS), CreateMeltQuote("q", INVOICE, Sat, 0, 0, 0, "id", Committed), Asked());
    es := Then(es, Asked(), MeltReserve("q", [MELTED], [], true, Committed), Paying());
    es := Then(es, Paying(), MeltAbort("q"), Left());
    es := Then(es, Left(), SwapReserve(0, [NAMING], [OUTPUT], true, Committed), Naming());
    es := Then(es, Naming(), RefreshRead("q", ROWS), Refreshed());
    es := Then(es, Refreshed(), RefreshFailed("q", Committed), Released());
    es := Then(es, Released(), SwapSettle(0, LANDS), Spent());
    es := Then(es, Spent(), SwapReserve(1, [PLAIN], [OTHER_OUTPUT], true, Committed), Again());
    es := Then(es, Again(), SwapSettle(1, LANDS), SpentAgain());
    w := SpentAgain();
  }
}
