/** The steps of requests with one input and at most one output, for runs that are written out event by event. */
module Singles {
  import opened Prelude
  import opened Totals
  import opened Cashu
  import opened Store
  import opened Amounts
  import opened Fees
  import opened Transactions
  import opened World
  import opened Invariant
  import opened FirstTokens

  const LANDS := SwapOutcome(false, false, false, Committed, false, false)

  predicate IsInput(p: Proof)
  {
    p.id == "k" && IsKeysetAmount(p.amount)
  }

  predicate IsOutput(m: BlindedMessage)
  {
    m.id == "k" && IsKeysetAmount(m.amount)
  }

  lemma InputSum(p: Proof)
    requires IsInput(p)
    ensures Amount64([p]) == p.amount && FeeOf(KEYS, [p]) == Some(0)
  {
    assert [p] == [] + [p];
    SumOfSnoc(AmountOf(), [], p);
    SumOfSnoc(Ppk(KEYS), [], p);
    hide SumOf, IsPow2;
  }

  lemma InputRow(p: Proof)
    ensures DistinctYs([p]) && RowMap([p]) == map[p.y := p] && Ys([p]) == {p.y}
  {
    assert [p][0] == p;
  }

  lemma OutputSum(m: BlindedMessage)
    requires IsOutput(m)
    ensures Outputs64([m]) == m.amount && CanSign(KEYS, [m])
  {
    assert [m] == [] + [m];
    SumOfSnoc(OutputAmount(), [], m);
    hide SumOf, IsPow2;
  }

  lemma OutputSig(m: BlindedMessage)
    ensures SigsFor([m]) == [SigFor(m)] && DistinctBs([SigFor(m)]) && SigMap([SigFor(m)]) == map[m.b := SigFor(m)]
  {
    assert [SigFor(m)][0] == SigFor(m);
  }

  lemma UnionIsUpdate<K, V>(m: map<K, V>, k: K, v: V)
    ensures m + map[k := v] == m[k := v]
  {
  }

  // ----- swaps -----

  lemma EvenBalance(a: nat)
    requires a < TWO_64
    ensures BalanceIsZero(a, 0, a)
  {
  }

  lemma ValidSwap(p: Proof, m: BlindedMessage)
    requires IsInput(p) && IsOutput(m) && p.amount == m.amount
    ensures ValidateSwap(KEYS, [p], [m], true) == None
  {
    hide Amount64, Outputs64, FeeOf, IsPow2, BalanceIsZero;
    InputSum(p);
    OutputSum(m);
    EvenBalance(p.amount);
  }

  lemma ReservedTables(t: Tables, p: Proof, m: BlindedMessage)
    requires p.y !in t.proofs && m.b !in t.sigs
    ensures AsPending([p]) == [p.(state := ProofPending)]
    ensures ReserveSwap(t, [p], [m]) == Ok(t.(proofs := t.proofs[p.y := p.(state := ProofPending)]))
  {
    var row := p.(state := ProofPending);
    assert AsPending([p]) == [row];
    InputRow(row);
    assert [row][0] == row && [p][0] == p && [m][0] == m;
    UnionIsUpdate(t.proofs, p.y, row);
    hide RowMap;
  }

  lemma SwapReserveStep(w: World, s: nat, p: Proof, m: BlindedMessage)
    requires w.ks == KEYS && IsInput(p) && IsOutput(m) && p.amount == m.amount
    requires p.y !in w.t.proofs && m.b !in w.t.sigs && s !in w.swapping
    ensures var e, row := SwapReserve(s, [p], [m], true, Committed), p.(state := ProofPending);
      && Assumed(w, e) && (p.quote.None? ==> NamesNoQuote(w, e))
      && Step(w, e)
        == w.(t := w.t.(proofs := w.t.proofs[p.y := row]), swapping := w.swapping[s := SwapReserved([row], [m])])
  {
    ValidSwap(p, m);
    ReservedTables(w.t, p, m);
    hide ValidateSwap, ReserveSwap, IsInput, IsOutput;
  }

  lemma SettledTables(t: Tables, p: Proof, m: BlindedMessage)
    requires m.b !in t.sigs
    ensures SettleSwap(t, [p], SigsFor([m]))
         == Ok(t.(proofs := SetState(t.proofs, {p.y}, ProofSpent), sigs := t.sigs[m.b := SigFor(m)]))
  {
    InputRow(p);
    OutputSig(m);
    assert [SigFor(m)][0] == SigFor(m);
    UnionIsUpdate(t.sigs, m.b, SigFor(m));
    hide SetState, SigMap, SigsFor, Ys;
  }

  lemma SwapSettleStep(w: World, s: nat, p: Proof, m: BlindedMessage)
    requires w.ks == KEYS && IsOutput(m) && m.b !in w.t.sigs && s in w.swapping
    requires w.swapping[s] == SwapReserved([p], [m])
    ensures var e := SwapSettle(s, LANDS);
      && Assumed(w, e)
      && Step(w, e)
        == w.(t := w.t.(proofs := SetState(w.t.proofs, {p.y}, ProofSpent), sigs := w.t.sigs[m.b := SigFor(m)]),
                          log := w.log + [SpentBySwap(s, {p.y})], swapping := w.swapping - {s})
  {
    OutputSum(m);
    InputRow(p);
    SettledTables(w.t, p, m);
    hide CanSign, SettleSwap, SetState, SigsFor, Ys, IsOutput;
  }

  // ----- melts -----

  lemma ValidMelt(quote: MeltQuote, p: Proof, outputs: seq<BlindedMessage>)
    requires IsInput(p) && quote.unit == Sat && quote.state == UNPAID && !quote.melted
    requires quote.amount + quote.feeReserve <= p.amount && forall i | 0 <= i < |outputs| :: outputs[i].id == "k"
    ensures ValidateMelt(KEYS, quote, [p], outputs, true) == None
  {
    InputSum(p);
    hide Amount64, FeeOf, IsPow2;
  }

  ghost function HeldFor(t: Tables, q: QuoteId, p: Proof, outputs: seq<BlindedMessage>): Tables
    requires q in t.melts
  {
    t.(proofs := t.proofs[p.y := p.(state := ProofPending, quote := Some(q))],
       melts := t.melts[q := t.melts[q].(state := PENDING)], change := AddChange(t.change, q, Unvalued(outputs)))
  }

  lemma HeldTables(t: Tables, q: QuoteId, p: Proof, outputs: seq<BlindedMessage>)
    requires q in t.melts && t.melts[q].state == UNPAID && !t.melts[q].melted && p.y !in t.proofs
    requires |outputs| <= 1 && forall i | 0 <= i < |outputs| :: outputs[i].b !in t.sigs
    ensures AsPendingFor([p], q) == [p.(state := ProofPending, quote := Some(q))]
    ensures ReserveMelt(t, q, [p], outputs) == SettleIfInternal(HeldFor(t, q, p, outputs), q)
  {
    var row := p.(state := ProofPending, quote := Some(q));
    assert AsPendingFor([p], q) == [row];
    InputRow(row);
    assert [row][0] == row && [p][0] == p;
    UnionIsUpdate(t.proofs, p.y, row);
    hide RowMap, SettleIfInternal, AddChange, Unvalued;
  }

  lemma HeldAlone(t: Tables, q: QuoteId, p: Proof, outputs: seq<BlindedMessage>)
    requires q in t.melts && t.mints == map[]
    ensures SettleIfInternal(HeldFor(t, q, p, outputs), q) == Ok(HeldFor(t, q, p, outputs))
    ensures HeldFor(t, q, p, outputs).melts[q].state == PENDING
  {
    hide AddChange, Unvalued;
  }

  lemma ReserveBy(w: World, q: QuoteId, p: Proof, outputs: seq<BlindedMessage>, t: Tables)
    requires q in w.t.melts && ValidateMelt(w.ks, w.t.melts[q], [p], outputs, true).None?
    requires ReserveMelt(w.t, q, [p], outputs) == Ok(t) && q in t.melts
    ensures Step(w, MeltReserve(q, [p], outputs, true, Committed))
      == AfterReserve(w, q, t, AsPendingFor([p], q), outputs, Committed)
  {
    hide ValidateMelt, ReserveMelt, AfterReserve, AsPendingFor;
  }

  lemma MeltReserveStep(w: World, q: QuoteId, p: Proof, outputs: seq<BlindedMessage>)
    requires w.ks == KEYS && IsInput(p) && p.y !in w.t.proofs && q in w.t.melts && q !in w.melting && w.t.mints == map[]
    requires var quote := w.t.melts[q];
      quote.unit == Sat && quote.state == UNPAID && !quote.melted && quote.amount + quote.feeReserve <= p.amount
    requires |outputs| <= 1 && forall i | 0 <= i < |outputs| :: outputs[i].b !in w.t.sigs && outputs[i].id == "k"
    ensures var e, row := MeltReserve(q, [p], outputs, true, Committed), p.(state := ProofPending, quote := Some(q));
      && Assumed(w, e)
      && Step(w, e) == w.(t := HeldFor(w.t, q, p, outputs), melting := w.melting[q := Reserved([row], outputs)])
  {
    ValidMelt(w.t.melts[q], p, outputs);
    HeldTables(w.t, q, p, outputs);
    var t := HeldFor(w.t, q, p, outputs);
    HeldAlone(w.t, q, p, outputs);
    ReserveBy(w, q, p, outputs, t);
    hide Step, ValidateMelt, ReserveMelt, SettleIfInternal, IsInput, AddChange, Unvalued, AsPendingFor, HeldFor;
  }

  lemma SplitOne(m: BlindedMessage)
    ensures ChangeMessages(1, Unvalued([m])) == [m.(amount := 1)] && IsKeysetAmount(1)
  {
    assert SplitFrom(0, 1) == [] && SplitFrom(1, 0) == [Pow2(0)] + SplitFrom(0, 1);
    assert Split(1) == [1];
    assert IsPow2(1);
  }

  lemma OutputFresh(sigs: SigTable, m: BlindedMessage)
    requires m.b !in sigs
    ensures CanInsertSigs(sigs, SigsFor([m]))
  {
  }

  lemma OverpaidOne(paid: nat, spent: nat)
    requires paid == spent + 1 < TWO_64
    ensures Wrap(paid - Wrap(spent)) == 1
  {
  }

  /** One satoshi was overpaid, and there is one message for it. */
  lemma RecoveredOne(t: Tables, q: QuoteId, p: Proof, m: BlindedMessage, fee: nat, preimage: string)
    requires q in t.melts && IsInput(p) && p.amount == t.melts[q].amount + fee + 1 && m.id == "k" && m.b !in t.sigs
    ensures var sig := SigFor(m.(amount := 1));
      RecoverMelt(KEYS, t, q, [p], [m], fee, preimage)
      == Ok(MarkPaid(t.(sigs := t.sigs[m.b := sig], change := t.change - {q}), q, {p.y}, fee, preimage))
  {
    var valued := m.(amount := 1);
    InputSum(p);
    InputRow(p);
    SplitOne(m);
    OutputSum(valued);
    OutputSig(valued);
    OutputFresh(t.sigs, valued);
    UnionIsUpdate(t.sigs, m.b, SigFor(valued));
    OverpaidOne(p.amount, t.melts[q].amount + fee);
    hide Amount64, FeeOf, Ys, SigMap, SigsFor, ChangeMessages, Unvalued, MarkPaid, CanSign, IsKeysetAmount, Wrap,
      CanInsertSigs;
  }

  lemma RecoverStep(w: World, q: QuoteId, p: Proof, m: BlindedMessage, fee: nat, preimage: string)
    requires w.ks == KEYS && q in w.t.melts && IsInput(p) && p.amount == w.t.melts[q].amount + fee + 1
    requires m.id == "k" && m.b !in w.t.sigs && q in w.melting && w.melting[q] == Refreshing([p])
    ensures var e, sig := RefreshSettled(q, fee, preimage, [m], Committed), SigFor(m.(amount := 1));
      Step(w, e) == w.(
        t := MarkPaid(w.t.(sigs := w.t.sigs[m.b := sig], change := w.t.change - {q}), q, {p.y}, fee, preimage),
        melting := w.melting - {q}, log := w.log + [SpentByMelt(q, {p.y})])
  {
    hide RecoverMelt, MarkPaid, Ys, IsInput, Rotate, StepSwapReserve, StepSwapSettle, StepSwapClean, StepMeltReserve,
      StepPayDoubted, StepRecheck, StepFinalize, StepRefreshFailed, StepMintLoad, StepMintReconcile, StepMintIssue,
      SaveMintQuote, SaveMeltQuote;
    RecoveredOne(w.t, q, p, m, fee, preimage);
    InputRow(p);
  }

  // ----- rows -----

  lemma SpentRow(m: ProofTable, y: Point)
    ensures SetState(m, {y}, ProofSpent) == if y in m then m[y := m[y].(state := ProofSpent)] else m
  {
  }
}
