/**
 * Two more runs from a first start: a swap and a melt whose payment is doubted, rechecked and settled by a refresh; and
 * a melt settled between two quotes of this mint, whose request is then lost.
 */
module FirstMelt {
  import opened Prelude
  import opened Totals
  import opened Cashu
  import opened Store
  import opened Amounts
  import opened Fees
  import opened Transactions
  import opened World
  import opened Invariant
  import opened MeltSteps
  import opened Theorems
  import opened Interrupted
  import opened FirstTokens
  import opened Singles

  const SWAPPED := Proof(1, "k", "a", Point(0), Point(11), None, ProofUnspent, 0)
  const MELTED := Proof(2, "k", "b", Point(0), Point(12), None, ProofUnspent, 0)
  const SWAPPED_ROW := SWAPPED.(state := ProofPending)
  const MELTED_ROW := MELTED.(state := ProofPending, quote := Some("q"))
  const CHANGE := BlindedMessage(Point(2), "k", 0)
  const ASKED := MeltQuote(INVOICE, Sat, 1, 1, UNPAID, false, 0, "", "id", false)

  lemma AmountsHaveKeys()
    ensures IsInput(SWAPPED) && IsInput(MELTED) && IsInput(MELTED_ROW) && IsOutput(OUTPUT)
  {
    assert IsPow2(1) && IsPow2(2);
  }

  // ----- a swap, and a melt that recovery finishes -----

  ghost function Reserved0(): World
  {
    Start(KEYS).(t := Start(KEYS).t.(proofs := Start(KEYS).t.proofs[Point(11) := SWAPPED_ROW]),
                 swapping := Start(KEYS).swapping[0 := SwapReserved([SWAPPED_ROW], [OUTPUT])])
  }

  ghost function Swapped(): World
  {
    Reserved0().(t := Reserved0().t.(proofs := SetState(Reserved0().t.proofs, {Point(11)}, ProofSpent),
                                     sigs := Reserved0().t.sigs[Point(1) := SigFor(OUTPUT)]),
                 log := Reserved0().log + [SpentBySwap(0, {Point(11)})], swapping := Reserved0().swapping - {0})
  }

  ghost function Quoted(): World
  {
    Swapped().(t := Swapped().t.(melts := Swapped().t.melts["q" := ASKED]))
  }

  ghost function Held(): World
  {
    Quoted().(t := HeldFor(Quoted().t, "q", MELTED, [CHANGE]),
      melting := Quoted().melting["q" := Reserved([MELTED_ROW], [CHANGE])])
  }

  ghost function Paying(): World
  {
    Held().(ln := Held().ln["q" := InFlight], melting := Held().melting["q" := Sent([MELTED_ROW], [CHANGE])])
  }

  ghost function Doubted(): World
  {
    Paying().(t := SetMelt(Paying().t, "q", Paying().t.melts["q"].(checkingId := "id")),
              melting := Paying().melting["q" := Doubtful([MELTED_ROW], [CHANGE])])
  }

  ghost function Waiting(): World
  {
    Doubted().(t := SetMelt(Doubted().t, "q", Doubted().t.melts["q"].(state := PENDING, feePaid := 0)),
               melting := Doubted().melting - {"q"})
  }

  ghost function Arrived(): World
  {
    Waiting().(ln := Waiting().ln["q" := Settled(0, "p")])
  }

  ghost function Refreshed(): World
  {
    Arrived().(melting := Arrived().melting["q" := Refreshing([MELTED_ROW])])
  }

  lemma SwapStep()
    ensures var e := SwapReserve(0, [SWAPPED], [OUTPUT], true, Committed);
      Assumed(Start(KEYS), e) && NamesNoQuote(Start(KEYS), e) && Step(Start(KEYS), e) == Reserved0()
  {
    AmountsHaveKeys();
    SwapReserveStep(Start(KEYS), 0, SWAPPED, OUTPUT);
    hide Assumed, NamesNoQuote, Step, IsInput, IsOutput;
  }

  lemma LandStep()
    ensures Assumed(Reserved0(), SwapSettle(0, LANDS)) && Step(Reserved0(), SwapSettle(0, LANDS)) == Swapped()
  {
    AmountsHaveKeys();
    SwapSettleStep(Reserved0(), 0, SWAPPED_ROW, OUTPUT);
    hide Assumed, Step, IsInput, IsOutput, SetState;
  }

  lemma SwappedRows()
    ensures Swapped().t.proofs == Start(KEYS).t.proofs[Point(11) := SWAPPED_ROW.(state := ProofSpent)]
  {
    SpentRow(Reserved0().t.proofs, Point(11));
    hide SetState;
  }

  lemma QuoteStep()
    ensures var e := CreateMeltQuote("q", INVOICE, Sat, 0, 1, 0, "id", Committed);
      Assumed(Swapped(), e) && Step(Swapped(), e) == Quoted()
  {
    SwappedRows();
    hide SetState;
  }

  lemma HoldStep()
    ensures var e := MeltReserve("q", [MELTED], [CHANGE], true, Committed);
      Assumed(Quoted(), e) && Step(Quoted(), e) == Held()
  {
    AmountsHaveKeys();
    SwappedRows();
    MeltReserveStep(Quoted(), "q", MELTED, [CHANGE]);
    hide Assumed, Step, IsInput, IsOutput, SetState, HeldFor;
  }

  lemma PayStep()
    ensures Assumed(Held(), PayInvoice("q", InFlight)) && Step(Held(), PayInvoice("q", InFlight)) == Paying()
  {
    hide SetState, HeldFor;
  }

  lemma DoubtStep()
    ensures var e := PayDoubted("q", "id", Committed); Assumed(Paying(), e) && Step(Paying(), e) == Doubted()
  {
    hide SetState, AddChange, Unvalued;
  }

  lemma RecheckStep()
    ensures var e := Recheck("q", WAITING, 0, Committed); Assumed(Doubted(), e) && Step(Doubted(), e) == Waiting()
  {
    hide SetState, AddChange, Unvalued;
  }

  lemma ArriveStep()
    ensures var e := LightningProgress("q", Settled(0, "p")); Assumed(Waiting(), e) && Step(Waiting(), e) == Arrived()
  {
    hide SetState, AddChange, Unvalued;
  }

  lemma ArrivedRows()
    ensures Arrived().t.proofs
      == Start(KEYS).t.proofs[Point(11) := SWAPPED_ROW.(state := ProofSpent)][Point(12) := MELTED_ROW]
  {
    SwappedRows();
    hide SetState, AddChange, Unvalued;
  }

  lemma RowsOfOne(m: ProofTable, y: Point, p: Proof, z: Point, row: Proof, q: QuoteId)
    requires m == map[] && y != z && p.quote.None? && row.quote == Some(q) && row.y == z
    ensures ListsRows([row], RowsOf(m[y := p][z := row], q))
  {
    InputRow(row);
    var t := m[y := p][z := row];
    forall k ensures k in RowsOf(t, q) <==> k == z {
    }
    hide RowMap;
  }

  lemma MeltedRows()
    ensures ListsRows([MELTED_ROW], RowsOf(Arrived().t.proofs, "q"))
  {
    ArrivedRows();
    RowsOfOne(Start(KEYS).t.proofs, Point(11), SWAPPED_ROW.(state := ProofSpent), Point(12), MELTED_ROW, "q");
    hide ListsRows, RowsOf, Arrived;
  }

  lemma ReadStep()
    ensures var e := RefreshRead("q", [MELTED_ROW]); Assumed(Arrived(), e) && Step(Arrived(), e) == Refreshed()
  {
    MeltedRows();
    hide ListsRows, RowsOf, SetState, AddChange, Unvalued;
  }

  lemma ArrivedTables()
    ensures var w := Refreshed();
      && "q" in w.t.melts && w.t.melts["q"].amount == 1 && ChangeOf(w.t.change, "q") == [CHANGE]
        && w.t.sigs.Keys == {Point(1)}
      && w.ks == KEYS && "q" in w.ln && w.ln["q"] == Settled(0, "p") && w.log == [SpentBySwap(0, {Point(11)})]
      && "q" in w.melting && w.melting["q"] == Refreshing([MELTED_ROW])
  {
    hide SetState;
    assert Unvalued([CHANGE]) == [CHANGE];
  }

  lemma SettleStep()
    ensures var e := RefreshSettled("q", 0, "p", [CHANGE], Committed);
      && Assumed(Refreshed(), e)
      && var w := Step(Refreshed(), e);
         && "q" in w.t.melts && w.t.melts["q"].state == PAID && w.t.sigs.Keys == {Point(1), Point(2)}
         && w.log == [SpentBySwap(0, {Point(11)}), SpentByMelt("q", {Point(12)})]
  {
    ArrivedTables();
    AmountsHaveKeys();
    var w := Refreshed();
    hide Refreshed, IsInput;
    RecoverStep(w, "q", MELTED_ROW, CHANGE, 0, "p");
    hide Step, SetState;
  }

  lemma UpToHeld() returns (es: seq<Event>)
    ensures Leads(es, Held()) && Clean(es)
  {
    SwapStep();
    LandStep();
    QuoteStep();
    HoldStep();
    NoEventsYet();
    hide Assumed, Step, NamesNoQuote, Leads, Clean, Start, Reserved0, Swapped, Quoted, Held;
    es := Then([], Start(KEYS), SwapReserve(0, [SWAPPED], [OUTPUT], true, Committed), Reserved0());
    es := Then(es, Reserved0(), SwapSettle(0, LANDS), Swapped());
    es := Then(es, Swapped(), CreateMeltQuote("q", INVOICE, Sat, 0, 1, 0, "id", Committed), Quoted());
    es := Then(es, Quoted(), MeltReserve("q", [MELTED], [CHANGE], true, Committed), Held());
  }

  lemma UpToRefreshed() returns (es: seq<Event>)
    ensures Leads(es, Refreshed()) && Clean(es)
  {
    PayStep();
    DoubtStep();
    RecheckStep();
    ArriveStep();
    ReadStep();
    hide Assumed, Step, NamesNoQuote, Leads, Clean, Held, Paying, Doubted, Waiting, Arrived, Refreshed;
    es := UpToHeld();
    es := Then(es, Held(), PayInvoice("q", InFlight), Paying());
    es := Then(es, Paying(), PayDoubted("q", "id", Committed), Doubted());
    es := Then(es, Doubted(), Recheck("q", WAITING, 0, Committed), Waiting());
    es := Then(es, Waiting(), LightningProgress("q", Settled(0, "p")), Arrived());
    es := Then(es, Arrived(), RefreshRead("q", [MELTED_ROW]), Refreshed());
  }

  /** A swap lands; a melt is doubted, rechecked without an answer, and settled by a refresh, which signs its change. */
  lemma MeltCanRecover() returns (es: seq<Event>, w: World)
    ensures Reached(w, KEYS, es) && SwapsNameNoQuote(Start(KEYS), es)
    ensures "q" in w.t.melts && w.t.melts["q"].state == PAID && w.t.sigs.Keys == {Point(1), Point(2)}
    ensures w.log == [SpentBySwap(0, {Point(11)}), SpentByMelt("q", {Point(12)})]
  {
    SettleStep();
    var e := RefreshSettled("q", 0, "p", [CHANGE], Committed);
    w := Step(Refreshed(), e);
    hide Assumed, Step, NamesNoQuote, SwapsNameNoQuote, Start, Refreshed, Run, AssumedRun;
    es := UpToRefreshed();
    es := Then(es, Refreshed(), e, w);
  }

  // ----- a melt settled internally, and interrupted -----

  const INTERNAL := MeltQuote(INVOICE, Sat, 1, 1, UNPAID, false, 0, "", "q", false)

  ghost function Invoiced(): World
  {
    Start(KEYS).(t := Start(KEYS).t.(mints := Start(KEYS).t.mints["m" := UNPAID_QUOTE]))
  }

  ghost function Asked(): World
  {
    Invoiced().(t := Invoiced().t.(melts := Invoiced().t.melts["q" := INTERNAL]))
  }

  ghost function PaidTables(): Tables
  {
    var t := HeldFor(Asked().t, "q", MELTED, []);
    t.(mints := t.mints["m" := PAID_QUOTE], melts := t.melts["q" := INTERNAL.(state := PAID, melted := true)])
  }

  ghost function PaidWithin(): World
  {
    Asked().(t := PaidTables(), melting := Asked().melting["q" := Confirmed([MELTED_ROW], [], 0, "")])
  }

  ghost function Lost(): World
  {
    PaidWithin().(melting := map[], swapping := map[], minting := map[])
  }

  lemma InvoiceStep()
    ensures var e := CreateMintQuote("m", INVOICE, Sat, Committed);
      Assumed(Start(KEYS), e) && Step(Start(KEYS), e) == Invoiced()
  {
  }

  lemma AskStep()
    ensures var e := CreateMeltQuote("q", INVOICE, Sat, 0, 7, 7, "id", Committed);
      Assumed(Invoiced(), e) && Step(Invoiced(), e) == Asked()
  {
    InvoiceFound(Invoiced().t);
    hide MintByRequest;
  }

  lemma InvoiceFound(t: Tables)
    requires "m" in t.mints && t.mints["m"].request == INVOICE && t.mints.Keys == {"m"}
    ensures MintByRequest(t.mints, INVOICE) == Some("m")
  {
  }

  lemma PaidTablesAre()
    ensures ReserveMelt(Asked().t, "q", [MELTED], []) == Ok(PaidTables()) && AsPendingFor([MELTED], "q") == [MELTED_ROW]
  {
    HeldTables(Asked().t, "q", MELTED, []);
    InvoiceFound(HeldFor(Asked().t, "q", MELTED, []));
    hide ReserveMelt, MintByRequest, AddChange, Unvalued;
  }

  lemma WithinAssumed()
    ensures Assumed(Asked(), MeltReserve("q", [MELTED], [], true, Committed))
  {
  }

  lemma WithinReserved()
    ensures Step(Asked(), MeltReserve("q", [MELTED], [], true, Committed))
         == AfterReserve(Asked(), "q", PaidTables(), [MELTED_ROW], [], Committed)
  {
    AmountsHaveKeys();
    PaidTablesAre();
    ValidMelt(INTERNAL, MELTED, []);
    ReserveBy(Asked(), "q", MELTED, [], PaidTables());
    hide Step, ReserveMelt, ValidateMelt, AsPendingFor, AfterReserve, AddChange, Unvalued, IsInput;
  }

  lemma WithinStep()
    ensures var e := MeltReserve("q", [MELTED], [], true, Committed);
      Assumed(Asked(), e) && Step(Asked(), e) == PaidWithin()
  {
    WithinAssumed();
    WithinReserved();
    hide Step, Assumed, AddChange, Unvalued;
  }

  lemma LoseStep()
    ensures Assumed(PaidWithin(), Crash) && Step(PaidWithin(), Crash) == Lost()
  {
    hide PaidWithin;
  }

  lemma LostRows()
    ensures PaidOpen(Lost(), "q") && Point(12) in RowsOf(Lost().t.proofs, "q") && "q" !in Lost().melting
  {
    hide AddChange, Unvalued;
    var rows := RowsOf(Lost().t.proofs, "q");
    forall y | y in rows ensures y == Point(12) && rows[y] == MELTED_ROW {
    }
    assert rows[Point(12)] == MELTED_ROW;
  }

  /**
   * Two quotes of this mint for one invoice: the melt pays the mint quote at once, and a crash leaves the melt PAID
   * with its input PENDING and no request to finish it. By Interrupted.OpenForGoodIff it stays so.
   */
  lemma MeltCanBeLost() returns (es: seq<Event>, w: World)
    ensures Reached(w, KEYS, es) && SwapsNameNoQuote(Start(KEYS), es)
    ensures PaidOpen(w, "q") && RowsOf(w.t.proofs, "q") != map[] && "q" !in w.melting && !CanFinish(w, "q")
  {
    InvoiceStep();
    AskStep();
    WithinStep();
    LoseStep();
    LostRows();
    NoEventsYet();
    w := Lost();
    hide Assumed, Step, NamesNoQuote, SwapsNameNoQuote, PaidOpen, RowsOf, ChangeCanBeSigned, Start, Invoiced, Asked,
      PaidWithin, Lost, Run, AssumedRun;
    es := Then([], Start(KEYS), CreateMintQuote("m", INVOICE, Sat, Committed), Invoiced());
    es := Then(es, Invoiced(), CreateMeltQuote("q", INVOICE, Sat, 0, 7, 7, "id", Committed), Asked());
    es := Then(es, Asked(), MeltReserve("q", [MELTED], [], true, Committed), PaidWithin());
    es := Then(es, PaidWithin(), Crash, Lost());
  }
}
