/** The stated assumptions leave room: a short run that meets them all and issues tokens. */
module FirstTokens {
  import opened Prelude
  import opened Totals
  import opened Cashu
  import opened Store
  import opened Amounts
  import opened Fees
  import opened Transactions
  import opened World

  const KEYS: Keysets := map["k" := Keyset(Sat, 0, true)]
  const OUTPUT := BlindedMessage(Point(1), "k", 1)
  const INVOICE := Invoice("h", 1000)
  const UNPAID_QUOTE := MintQuote(INVOICE, Sat, UNPAID, false)
  const PAID_QUOTE := MintQuote(INVOICE, Sat, PAID, false)

  ghost function Quoted(): World
  {
    Start(KEYS).(t := Start(KEYS).t.(mints := map["m" := UNPAID_QUOTE]))
  }

  ghost function Funded(): World
  {
    Quoted().(received := {"m"})
  }

  ghost function Loaded(): World
  {
    Funded().(minting := map["m" := MintPhase(UNPAID_QUOTE, Some([OUTPUT]))])
  }

  ghost function Reconciled(): World
  {
    Loaded().(t := Loaded().t.(mints := map["m" := PAID_QUOTE]),
      minting := map["m" := MintPhase(PAID_QUOTE, Some([OUTPUT]))])
  }

  lemma OneOutput()
    ensures Outputs64([OUTPUT]) == 1 && MessagesAreOf(KEYS, [OUTPUT], Sat) && CanSign(KEYS, [OUTPUT])
  {
    assert [OUTPUT] == [] + [OUTPUT];
    SumOfSnoc(OutputAmount(), [], OUTPUT);
    assert IsPow2(1);
  }

  lemma QuoteStep()
    ensures var e := CreateMintQuote("m", INVOICE, Sat, Committed);
      Assumed(Start(KEYS), e) && Step(Start(KEYS), e) == Quoted()
  {
  }

  lemma FundStep()
    ensures Assumed(Quoted(), InvoicePaid("m")) && Step(Quoted(), InvoicePaid("m")) == Funded()
  {
  }

  lemma LoadStep()
    ensures var e := MintLoad("m", Some([OUTPUT])); Assumed(Funded(), e) && Step(Funded(), e) == Loaded()
  {
    OneOutput();
    hide SumOf, IsKeysetAmount;
  }

  lemma ReconcileStep()
    ensures var e := MintReconcile("m", SETTLED, Committed); Assumed(Loaded(), e) && Step(Loaded(), e) == Reconciled()
  {
  }

  lemma IssueStep()
    ensures Assumed(Reconciled(), MintIssue("m", Committed))
    ensures var w := Step(Reconciled(), MintIssue("m", Committed));
      "m" in w.t.mints && w.t.mints["m"].state == ISSUED && w.t.mints["m"].minted && Point(1) in w.t.sigs
  {
    OneOutput();
    var sigs := SigsFor([OUTPUT]);
    assert sigs[0].b == Point(1) && SigMap(sigs)[sigs[0].b] == sigs[0];
    hide IsKeysetAmount, SigsFor, CanSign;
  }

  // ----- runs step by step -----

  /** The events lead from a first start with these keysets to the world, meeting every assumption. */
  ghost predicate Leads(es: seq<Event>, w: World)
  {
    AssumedRun(Start(KEYS), es) && Run(Start(KEYS), es) == w
  }

  ghost predicate Clean(es: seq<Event>)
  {
    SwapsNameNoQuote(Start(KEYS), es)
  }

  lemma NoEventsYet()
    ensures Leads([], Start(KEYS)) && Clean([])
  {
  }

  lemma Then(es: seq<Event>, w: World, e: Event, w': World) returns (longer: seq<Event>)
    requires Leads(es, w) && Assumed(w, e) && Step(w, e) == w'
    ensures longer == es + [e] && Leads(longer, w')
    ensures Clean(es) && (!e.SwapReserve? || NamesNoQuote(w, e)) ==> Clean(longer)
  {
    hide Assumed, Step, SavesInputs, NamesNoMeltQuote, Start;
    longer := es + [e];
  }

  /** A quote is made, its invoice paid over lightning, the mint finds out and signs. */
  lemma TokensCanBeIssued() returns (es: seq<Event>, w: World)
    ensures Leads(es, w) && Clean(es)
    ensures "m" in w.t.mints && w.t.mints["m"].state == ISSUED && w.t.mints["m"].minted && Point(1) in w.t.sigs
  {
    QuoteStep();
    FundStep();
    LoadStep();
    ReconcileStep();
    IssueStep();
    NoEventsYet();
    w := Step(Reconciled(), MintIssue("m", Committed));
    hide Assumed, Step, Leads, Clean, NamesNoQuote, Quoted, Funded, Loaded, Reconciled;
    es := Then([], Start(KEYS), CreateMintQuote("m", INVOICE, Sat, Committed), Quoted());
    es := Then(es, Quoted(), InvoicePaid("m"), Funded());
    es := Then(es, Funded(), MintLoad("m", Some([OUTPUT])), Loaded());
    es := Then(es, Loaded(), MintReconcile("m", SETTLED, Committed), Reconciled());
    es := Then(es, Reconciled(), MintIssue("m", Committed), w);
  }
}
