/**
 * A run from a first start in which a melt pays a mint quote under a request that has read it: the request writes the
 * old state back, and the paid quote is UNPAID again (internal/mint/minting.go, internal/mint/melting.go).
 */
module Overtaken {
  import opened Prelude
  import opened Cashu
  import opened Store
  import opened Transactions
  import opened World
  import opened Theorems
  import opened FirstTokens
  import opened Singles
  import opened FirstMelt

  ghost function Read(): World
  {
    Asked().(minting := Asked().minting["m" := MintPhase(UNPAID_QUOTE, None)])
  }

  ghost function PaidUnder(): World
  {
    Read().(t := PaidTables(), melting := Read().melting["q" := Confirmed([MELTED_ROW], [], 0, "")])
  }

  ghost function WrittenBack(): World
  {
    Step(PaidUnder(), MintReconcile("m", FAILED, Committed))
  }

  lemma ReadStep()
    ensures Assumed(Asked(), MintLoad("m", None)) && Step(Asked(), MintLoad("m", None)) == Read()
  {
  }

  lemma UnderReserved()
    ensures Step(Read(), MeltReserve("q", [MELTED], [], true, Committed))
         == AfterReserve(Read(), "q", PaidTables(), [MELTED_ROW], [], Committed)
  {
    AmountsHaveKeys();
    PaidTablesAre();
    ValidMelt(INTERNAL, MELTED, []);
    ReserveBy(Read(), "q", MELTED, [], PaidTables());
    hide Step, ReserveMelt, ValidateMelt, AsPendingFor, AfterReserve, AddChange, Unvalued, IsInput;
  }

  lemma UnderStep()
    ensures var e := MeltReserve("q", [MELTED], [], true, Committed);
      Assumed(Read(), e) && Step(Read(), e) == PaidUnder()
  {
    UnderReserved();
    assert "q" !in Read().melting;
    hide Step, AddChange, Unvalued;
  }

  lemma BackStep()
    ensures Assumed(PaidUnder(), MintReconcile("m", FAILED, Committed))
    ensures Step(PaidUnder(), MintReconcile("m", FAILED, Committed)) == WrittenBack()
    ensures "m" in WrittenBack().t.mints && WrittenBack().t.mints["m"].state == UNPAID
    ensures "q" in WrittenBack().t.melts && WrittenBack().t.melts["q"].state == PAID
  {
    hide AddChange, Unvalued;
  }

  lemma StaleThen()
    ensures Stale(PaidUnder(), "m")
  {
    hide AddChange, Unvalued;
  }

  /**
   * The mint quote is PAID after `before`, UNPAID after one more answer of the backend, and the melt that paid it
   * stays PAID.
   */
  lemma OrderCanBreak() returns (before: seq<Event>, w: World, after: seq<Event>, w': World)
    ensures Reached(w, KEYS, before) && SwapsNameNoQuote(Start(KEYS), before) && Stale(w, "m")
    ensures after == before + [MintReconcile("m", FAILED, Committed)]
    ensures Reached(w', KEYS, after) && SwapsNameNoQuote(Start(KEYS), after)
    ensures "m" in w.t.mints && w.t.mints["m"].state == PAID && "m" in w'.t.mints && w'.t.mints["m"].state == UNPAID
    ensures "q" in w'.t.melts && w'.t.melts["q"].state == PAID
  {
    InvoiceStep();
    AskStep();
    ReadStep();
    UnderStep();
    StaleThen();
    BackStep();
    NoEventsYet();
    w, w' := PaidUnder(), WrittenBack();
    hide Assumed, Step, NamesNoQuote, SwapsNameNoQuote, Start, Invoiced, Asked, Read, PaidUnder, WrittenBack, Run,
      AssumedRun;
    var es := Then([], Start(KEYS), CreateMintQuote("m", INVOICE, Sat, Committed), Invoiced());
    es := Then(es, Invoiced(), CreateMeltQuote("q", INVOICE, Sat, 0, 7, 7, "id", Committed), Asked());
    es := Then(es, Asked(), MintLoad("m", None), Read());
    before := Then(es, Read(), MeltReserve("q", [MELTED], [], true, Committed), PaidUnder());
    after := Then(before, PaidUnder(), MintReconcile("m", FAILED, Committed), w');
  }
}
