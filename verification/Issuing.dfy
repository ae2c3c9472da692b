/**
 * What holds of mint quotes over every run that meets the assumptions, whatever inputs name in their quote field
 * (internal/mint/minting.go).
 */
module Issuing {
  import opened Prelude
  import opened Totals
  import opened Cashu
  import opened Store
  import opened Transactions
  import opened World
  import opened Invariant
  import opened Reserve
  import opened MintSteps
  import opened Finality
  import opened Theorems

  /** No entry issues a mint quote that an earlier entry already did. */
  ghost predicate IssuedOnce(log: seq<Entry>)
  {
    log == []
    || (IssuedOnce(log[..|log| - 1]) && EntryMints(log[|log| - 1]) !! IssuedMints(log[..|log| - 1]))
  }

  ghost predicate MintLogOk(w: World)
  {
    && IssuedOnce(w.log) && IssuedMints(w.log) == IssuedQuotes(w.t.mints)
    && forall i | 0 <= i < |w.log| :: EntryOk(w, w.log[i])
  }

  ghost predicate MintInv(w: World)
  {
    && w.minting.Keys <= w.t.mints.Keys && (forall m | m in w.t.mints :: MintOk(w, m))
    && MintLogOk(w)
  }

  ghost predicate UnitsKept(ks: Keysets, ks': Keysets)
  {
    forall id | id in ks :: id in ks' && ks'[id].unit == ks[id].unit
  }

  /** Mint quotes stay; requests on them may be dropped; nothing is issued. */
  ghost predicate Aside(w: World, w': World)
  {
    && w'.t.mints == w.t.mints && UnitsKept(w.ks, w'.ks)
    && (forall m | m in w'.minting :: m in w.minting && w'.minting[m] == w.minting[m])
    && (w'.log == w.log || (|w'.log| == |w.log| + 1 && w'.log[..|w.log|] == w.log && !w'.log[|w.log|].Issued?))
  }

  lemma AsideKeeps(w: World, w': World)
    requires MintInv(w) && Aside(w, w')
    ensures MintInv(w')
  {
    AsideLog(w, w');
    forall m | m in w'.t.mints ensures MintOk(w', m) {
      assert MintOk(w, m);
      hide MintLogOk, ToMsat64, Outputs64;
    }
  }

  lemma AsideLog(w: World, w': World)
    requires MintLogOk(w) && Aside(w, w')
    ensures MintLogOk(w')
  {
    if w'.log != w.log {
      assert w'.log[..|w'.log| - 1] == w.log;
    }
  }

  // ----- the events -----

  predicate TouchesMints(e: Event)
  {
    e.CreateMintQuote? || e.MeltReserve? || e.MintLoad? || e.MintReconcile? || e.MintIssue?
  }

  lemma RotateKeepsUnits(ks: Keysets, newId: KeysetId, unit: Unit, feePpk: nat)
    ensures UnitsKept(ks, Rotate(ks, newId, unit, feePpk))
  {
  }

  lemma PhasesLeaveMints(w: World, e: Event)
    requires WritesNoTable(e) && !e.MintLoad?
    ensures Aside(w, Step(w, e))
  {
    hide Aside, Rotate, ListsRows, StepSwapReserve, StepSwapSettle, StepSwapClean, StepMeltReserve, StepPayDoubted,
      StepRecheck, StepFinalize, StepRefreshSettled, StepRefreshFailed, StepMintReconcile, StepMintIssue,
      SaveMintQuote, SaveMeltQuote;
    if e.RotateKeyset? {
      RotateKeepsUnits(w.ks, e.newId, e.unit, e.feePpk);
    }
    MintsDropped(w, Step(w, e));
  }

  lemma MintsDropped(w: World, w': World)
    requires w'.t == w.t && (w'.ks == w.ks || UnitsKept(w.ks, w'.ks)) && w'.log == w.log
    requires w'.minting == w.minting || (exists m :: w'.minting == w.minting - {m}) || w'.minting == map[]
    ensures Aside(w, w')
  {
  }

  lemma MintsAlone(w: World, w': World)
    requires w'.t.mints == w.t.mints && w'.ks == w.ks && w'.minting == w.minting && w'.log == w.log
    ensures Aside(w, w')
  {
  }

  lemma ReserveLeavesMints(
      w: World, s: nat, inputs: seq<Proof>, outputs: seq<BlindedMessage>, verified: bool, c: Commit)
    ensures Aside(w, StepSwapReserve(w, s, inputs, outputs, verified, c))
  {
    hide Aside, ReserveSwap, ValidateSwap, AsPending;
    SavedSwap(w.t, inputs, outputs);
    MintsAlone(w, StepSwapReserve(w, s, inputs, outputs, verified, c));
  }

  lemma CleanLeavesMints(w: World, s: nat, c: Commit)
    ensures Aside(w, StepSwapClean(w, s, c))
  {
    hide Aside, DeleteProofs;
    Deleted(w.t);
    MintsAlone(w, StepSwapClean(w, s, c));
  }

  lemma DoubtLeavesMints(w: World, q: QuoteId, checkingId: string, c: Commit)
    ensures Aside(w, StepPayDoubted(w, q, checkingId, c))
  {
    hide Aside;
    MintsAlone(w, StepPayDoubted(w, q, checkingId, c));
  }

  lemma RecheckLeavesMints(w: World, q: QuoteId, status: PaymentStatus, fee: nat, c: Commit)
    ensures Aside(w, StepRecheck(w, q, status, fee, c))
  {
    hide Aside, ReleaseMelt, Ys;
    ReleasedMelt(w.t, q, fee);
    MintsAlone(w, StepRecheck(w, q, status, fee, c));
  }

  lemma ReleaseLeavesMints(w: World, q: QuoteId, c: Commit)
    ensures Aside(w, StepRefreshFailed(w, q, c))
  {
    hide Aside, ReleaseMelt, Ys;
    if q in w.t.melts {
      ReleasedMelt(w.t, q, w.t.melts[q].feePaid);
    }
    MintsAlone(w, StepRefreshFailed(w, q, c));
  }

  lemma CreatedLeavesMints(w: World, e: Event)
    requires e.CreateMeltQuote?
    ensures Aside(w, Step(w, e))
  {
    hide Aside, SaveMeltQuote;
    SavedMelt(w.t, e.q, e.request, e.unit, e.mppAmount, e.backendAmount, e.backendFee, e.checkingId);
    MintsAlone(w, Step(w, e));
  }

  lemma LeavesMints(w: World, e: Event)
    requires !TouchesMints(e) && !WritesLog(e)
    ensures Aside(w, Step(w, e))
  {
    hide Aside, StepSwapReserve, StepSwapClean, StepPayDoubted, StepRecheck, StepRefreshFailed, SaveMeltQuote;
    match e
    case CreateMeltQuote(_, _, _, _, _, _, _, _) => CreatedLeavesMints(w, e);
    case SwapReserve(s, inputs, outputs, verified, c) => ReserveLeavesMints(w, s, inputs, outputs, verified, c);
    case SwapClean(s, c) => CleanLeavesMints(w, s, c);
    case PayDoubted(q, checkingId, c) => DoubtLeavesMints(w, q, checkingId, c);
    case Recheck(q, status, fee, c) => RecheckLeavesMints(w, q, status, fee, c);
    case RefreshFailed(q, c) => ReleaseLeavesMints(w, q, c);
    case _ => PhasesLeaveMints(w, e);
  }

  lemma SavedMelt(
      t: Tables, q: QuoteId, request: Invoice, unit: Unit, mpp: nat, amount: nat, fee: nat, id: string)
    ensures var r := SaveMeltQuote(t, q, request, unit, mpp, amount, fee, id); r.Ok? ==> r.value.mints == t.mints
  {
  }

  lemma SavedSwap(t: Tables, inputs: seq<Proof>, outputs: seq<BlindedMessage>)
    ensures var r := ReserveSwap(t, inputs, outputs); r.Ok? ==> r.value.mints == t.mints
  {
  }

  lemma ReleasedMelt(t: Tables, q: QuoteId, fee: nat)
    ensures q in t.melts ==> forall ys :: ReleaseMelt(t, q, ys, fee).mints == t.mints
  {
  }

  lemma Deleted(t: Tables)
    ensures forall ps :: DeleteProofs(t, ps).mints == t.mints
  {
  }

  lemma SettledLeavesMints(ks: Keysets, t: Tables, inputs: seq<Proof>, outputs: seq<BlindedMessage>, o: SwapOutcome)
    ensures SettleSwapBlock(ks, t, inputs, outputs, o).t.mints == t.mints
  {
  }

  lemma SettleLeavesMints(w: World, s: nat, o: SwapOutcome)
    ensures Aside(w, StepSwapSettle(w, s, o))
  {
    hide SettleSwapBlock, Ys;
    if s in w.swapping && w.swapping[s].SwapReserved? {
      SettledLeavesMints(w.ks, w.t, w.swapping[s].inputs, w.swapping[s].outputs, o);
    }
  }

  lemma FinalizeLeavesMints(w: World, q: QuoteId, c: Commit)
    ensures Aside(w, StepFinalize(w, q, c))
  {
    hide FinalizeMelt, MarkPaid, Ys;
    if q in w.melting && w.melting[q].Confirmed? && q in w.t.melts {
      var p := w.melting[q];
      FinalizeMarks(w.ks, w.t, q, p.inputs, p.outputs, p.fee, p.preimage);
      MarkedMints(w.t, q, Ys(p.inputs), p.fee, p.preimage);
    }
  }

  lemma RecoverLeavesMints(w: World, q: QuoteId, fee: nat, preimage: string, msgs: seq<BlindedMessage>, c: Commit)
    ensures Aside(w, StepRefreshSettled(w, q, fee, preimage, msgs, c))
  {
    hide RecoverMelt, MarkPaid, Ys;
    if q in w.melting && w.melting[q].Refreshing? && q in w.t.melts {
      RecoverMarks(w.ks, w.t, q, w.melting[q].rows, msgs, fee, preimage);
      MarkedMints(w.t, q, Ys(w.melting[q].rows), fee, preimage);
    }
  }

  lemma PaidLeavesMints(w: World, e: Event)
    requires e.SwapSettle? || e.Finalize? || e.RefreshSettled?
    ensures Aside(w, Step(w, e))
  {
    hide Aside, StepSwapSettle, StepFinalize, StepRefreshSettled;
    match e
    case SwapSettle(s, o) => SettleLeavesMints(w, s, o);
    case Finalize(q, c) => FinalizeLeavesMints(w, q, c);
    case RefreshSettled(q, fee, preimage, msgs, c) => RecoverLeavesMints(w, q, fee, preimage, msgs, c);
  }

  lemma MarkedMints(t: Tables, q: QuoteId, ys: set<Point>, fee: nat, preimage: string)
    requires q in t.melts
    ensures MarkPaid(t, q, ys, fee, preimage).mints == t.mints
  {
  }

  /** Only one mint quote's row changed, and it was not issued. */
  ghost predicate OneRow(w: World, w': World, m: QuoteId)
  {
    && m in w'.t.mints && w'.t.mints == w.t.mints[m := w'.t.mints[m]] && w'.t.mints[m].state != ISSUED
    && (m in w.t.mints ==> w.t.mints[m].state != ISSUED && w'.t.mints[m].unit == w.t.mints[m].unit
                           && w'.t.mints[m].request == w.t.mints[m].request)
    && w'.minting - {m} == w.minting - {m} && w'.ks == w.ks && w'.log == w.log
  }

  lemma OneRowKeeps(w: World, w': World, m: QuoteId)
    requires MintInv(w) && OneRow(w, w', m) && MintOk(w', m)
    ensures MintInv(w')
  {
    OneRowLog(w, w', m);
    forall k | k in w'.t.mints ensures MintOk(w', k) {
      if k != m {
        assert MintOk(w, k);
        assert k in w'.minting <==> k in w'.minting - {m};
        assert k in w.minting <==> k in w.minting - {m};
        assert k in w.minting ==> (w'.minting - {m})[k] == (w.minting - {m})[k];
      }
    }
    forall k | k in w'.minting ensures k in w'.t.mints {
      assert k != m ==> k in w'.minting - {m};
    }
    hide MintLogOk, IssuanceFits;
  }

  lemma OneRowLog(w: World, w': World, m: QuoteId)
    requires MintLogOk(w) && OneRow(w, w', m)
    ensures MintLogOk(w')
  {
    forall i | 0 <= i < |w'.log| ensures EntryOk(w', w'.log[i]) {
      assert EntryOk(w, w.log[i]);
    }
  }

  lemma MintOkOf(w: World, m: QuoteId)
    requires MintInv(w) && m in w.t.mints
    ensures MintOk(w, m)
  {
  }

  lemma CreateKeeps(w: World, m: QuoteId, request: Invoice, unit: Unit, c: Commit)
    requires MintInv(w)
    ensures MintInv(Step(w, CreateMintQuote(m, request, unit, c)))
  {
    var w' := Step(w, CreateMintQuote(m, request, unit, c));
    if w' != w {
      assert m !in w.minting;
      assert OneRow(w, w', m) && MintOk(w', m);
      hide MintInv, MintOk, OneRow;
      OneRowKeeps(w, w', m);
    }
  }

  lemma LoadKeeps(w: World, m: QuoteId, outputs: Option<seq<BlindedMessage>>)
    requires MintInv(w) && m !in w.minting && (outputs.Some? ==> |outputs.value| < REQUEST_LIMIT)
    ensures MintInv(StepMintLoad(w, m, outputs))
  {
    hide MintInv, MintOk, OneRow;
    var w' := StepMintLoad(w, m, outputs);
    if m in w.t.mints {
      MintOkOf(w, m);
      if w' != w {
        LoadedOk(w, m, outputs);
        OneRowKeeps(w, w', m);
      }
    }
  }

  lemma LoadedOk(w: World, m: QuoteId, outputs: Option<seq<BlindedMessage>>)
    requires m in w.t.mints && MintOk(w, m) && StepMintLoad(w, m, outputs) != w && m !in w.minting
    requires outputs.Some? ==> |outputs.value| < REQUEST_LIMIT
    ensures OneRow(w, StepMintLoad(w, m, outputs), m) && MintOk(StepMintLoad(w, m, outputs), m)
  {
    hide ToMsat64, CheckOutputs;
  }

  lemma ReconcileKeeps(w: World, m: QuoteId, status: PaymentStatus, c: Commit)
    requires MintInv(w)
    ensures MintInv(StepMintReconcile(w, m, status, c))
  {
    hide MintInv, MintOk, OneRow, Aside, StepMintReconcile;
    var w' := StepMintReconcile(w, m, status, c);
    ReconcileIdles(w, m, status, c);
    if m in w.minting && w.minting[m].quote.state != PAID && c != NotApplied {
      MintOkOf(w, m);
      ReconciledOk(w, m, status, c);
      OneRowKeeps(w, w', m);
    } else {
      AsideKeeps(w, w');
    }
  }

  lemma ReconcileIdles(w: World, m: QuoteId, status: PaymentStatus, c: Commit)
    ensures !(m in w.minting && w.minting[m].quote.state != PAID && c != NotApplied && m in w.t.mints) ==>
      Aside(w, StepMintReconcile(w, m, status, c))
    ensures MintInv(w) && m in w.minting ==> m in w.t.mints
  {
  }

  lemma ReconciledOk(w: World, m: QuoteId, status: PaymentStatus, c: Commit)
    requires m in w.minting && m in w.t.mints && MintOk(w, m)
    requires w.minting[m].quote.state != PAID && c != NotApplied
    ensures var w' := StepMintReconcile(w, m, status, c); OneRow(w, w', m) && MintOk(w', m)
  {
    hide StepMintReconcile, IssuanceFits;
    ReconcileWrites(w, m, status, c);
  }

  lemma IssueKeepsMints(w: World, m: QuoteId, c: Commit)
    requires MintInv(w)
    ensures MintInv(StepMintIssue(w, m, c))
  {
    var w' := StepMintIssue(w, m, c);
    if m in w.minting && w.minting[m].outputs.Some? {
      MintOkOf(w, m);
      if w'.t == w.t {
        assert Aside(w, w') by { hide IssueMint; }
        AsideKeeps(w, w');
      } else {
        Issues(w, m, c, w.minting[m].outputs.value);
      }
    }
    hide IssueMint, MintInv;
  }

  lemma Issues(w: World, m: QuoteId, c: Commit, outputs: seq<BlindedMessage>)
    requires MintInv(w) && m in w.minting && w.minting[m].outputs == Some(outputs) && StepMintIssue(w, m, c).t != w.t
    ensures MintInv(StepMintIssue(w, m, c))
  {
    hide MintLogOk, CanSign, CanInsertSigs, SigMap, SigsFor, SumOf, IssuanceFits;
    var w' := StepMintIssue(w, m, c);
    assert MintOk(w, m);
    IssuedExactly(w.ks, w.t.mints[m], outputs);
    IssuedLog(w, w', m, outputs);
    forall k | k in w'.t.mints ensures MintOk(w', k) {
      assert MintOk(w, k);
    }
  }

  lemma IssuedLog(w: World, w': World, m: QuoteId, outputs: seq<BlindedMessage>)
    requires MintLogOk(w) && w'.log == w.log + [Issued(m, outputs)]
    requires m in w.t.mints && w.t.mints[m].state != ISSUED
    requires w'.t.mints == w.t.mints[m := w.t.mints[m].(state := ISSUED, minted := true)]
    requires MsatOf(w.t.mints[m].unit, SumOf(OutputAmount(), outputs)) == w.t.mints[m].request.msat
    ensures MintLogOk(w')
  {
    hide SumOf;
    assert w'.log[..|w'.log| - 1] == w.log;
    forall i | 0 <= i < |w'.log| ensures EntryOk(w', w'.log[i]) {
      assert i < |w.log| ==> EntryOk(w, w.log[i]);
    }
  }

  lemma MeltKeeps(w: World, q: QuoteId, inputs: seq<Proof>, outputs: seq<BlindedMessage>, verified: bool, c: Commit)
    requires MintInv(w)
    ensures MintInv(StepMeltReserve(w, q, inputs, outputs, verified, c))
  {
    hide MintInv, MintOk, Aside, OneRow, StepMeltReserve, ReserveMelt;
    var w' := StepMeltReserve(w, q, inputs, outputs, verified, c);
    MeltReserveWrites(w, q, inputs, outputs, verified, c);
    if w'.t.mints == w.t.mints {
      MintsAlone(w, w');
      AsideKeeps(w, w');
    } else {
      ReservedMints(w.t, q, inputs, outputs);
      var m := MintByRequest(w.t.mints, w.t.melts[q].request).value;
      hide MintByRequest;
      MintOkOf(w, m);
      PaidRow(w, w', m);
      OneRowKeeps(w, w', m);
    }
  }

  lemma MeltReserveWrites(
      w: World, q: QuoteId, inputs: seq<Proof>, outputs: seq<BlindedMessage>, verified: bool, c: Commit)
    ensures var w' := StepMeltReserve(w, q, inputs, outputs, verified, c);
      && w' == w.(t := w'.t, melting := w'.melting)
      && (w'.t == w.t
        || (ReserveMelt(w.t, q, inputs, outputs).Ok? && w'.t == ReserveMelt(w.t, q, inputs, outputs).value))
  {
    hide ReserveMelt, ValidateMelt;
  }

  /** Settling internally marks the invoice's own quote PAID; otherwise no mint quote changes. */
  lemma ReservedMints(t: Tables, q: QuoteId, inputs: seq<Proof>, outputs: seq<BlindedMessage>)
    requires ReserveMelt(t, q, inputs, outputs).Ok?
    ensures q in t.melts
    ensures var m, t' := MintByRequest(t.mints, t.melts[q].request), ReserveMelt(t, q, inputs, outputs).value;
      && (m.None? ==> t'.mints == t.mints)
      && (m.Some? ==> m.value in t.mints && t.mints[m.value].request == t.melts[q].request
                      && t.mints[m.value].state == UNPAID
                      && t'.mints == t.mints[m.value := t.mints[m.value].(state := PAID)])
  {
    hide ReserveMelt, Base, InternalTables, MintByRequest, AsPendingFor, CanInsert, DistinctYs;
    ReservedTables(t, q, inputs, outputs);
    Insertable(t.proofs, AsPendingFor(inputs, q));
    BaseMints(t, q, inputs, outputs);
  }

  lemma BaseMints(t: Tables, q: QuoteId, inputs: seq<Proof>, outputs: seq<BlindedMessage>)
    requires q in t.melts && DistinctYs(AsPendingFor(inputs, q))
    ensures q in Base(t, q, inputs, outputs).melts && Base(t, q, inputs, outputs).mints == t.mints
    ensures forall m | m in t.mints ::
      InternalTables(Base(t, q, inputs, outputs), q, m).mints == t.mints[m := t.mints[m].(state := PAID)]
  {
  }

  lemma PaidRow(w: World, w': World, m: QuoteId)
    requires m in w.t.mints && MintOk(w, m) && w.t.mints[m].state == UNPAID
    requires w' == w.(t := w'.t, melting := w'.melting) && w'.t.mints == w.t.mints[m := w.t.mints[m].(state := PAID)]
    ensures OneRow(w, w', m) && MintOk(w', m)
  {
  }

  lemma StepKeepsMints(w: World, e: Event)
    requires MintInv(w) && Assumed(w, e)
    ensures MintInv(Step(w, e))
  {
    hide MintInv, StepMeltReserve, StepMintLoad, StepMintReconcile, StepMintIssue, SaveMintQuote;
    if TouchesMints(e) {
      match e
      case CreateMintQuote(m, request, unit, c) => CreateKeeps(w, m, request, unit, c);
      case MeltReserve(q, inputs, outputs, verified, c) => MeltKeeps(w, q, inputs, outputs, verified, c);
      case MintLoad(m, toIssue) => LoadKeeps(w, m, toIssue);
      case MintReconcile(m, status, c) => ReconcileKeeps(w, m, status, c);
      case MintIssue(m, c) => IssueKeepsMints(w, m, c);
    } else {
      hide Step, Assumed;
      OtherKeeps(w, e);
    }
  }

  lemma OtherKeeps(w: World, e: Event)
    requires MintInv(w) && !TouchesMints(e)
    ensures MintInv(Step(w, e))
  {
    hide MintInv, Aside, Step;
    if WritesLog(e) {
      PaidLeavesMints(w, e);
    } else {
      LeavesMints(w, e);
    }
    AsideKeeps(w, Step(w, e));
  }

  lemma {:induction false} RunKeepsMints(w: World, es: seq<Event>)
    requires MintInv(w) && AssumedRun(w, es)
    ensures MintInv(Run(w, es))
  {
    hide MintInv, Step, Assumed;
    if es != [] {
      RunKeepsMints(w, es[..|es| - 1]);
      StepKeepsMints(Run(w, es[..|es| - 1]), es[|es| - 1]);
    }
  }

  lemma ReachedMints(w: World, ks: Keysets, es: seq<Event>)
    requires Reached(w, ks, es)
    ensures MintInv(w)
  {
    assert MintInv(Start(ks));
    hide MintInv, Run, AssumedRun, Start;
    RunKeepsMints(Start(ks), es);
  }

  // ----- over every run -----

  lemma {:induction false} IssuedSomewhere(log: seq<Entry>, m: QuoteId)
    ensures m in IssuedMints(log) <==> exists i :: 0 <= i < |log| && log[i].Issued? && log[i].mint == m
  {
    if log != [] {
      var n := |log| - 1;
      IssuedSomewhere(log[..n], m);
      assert forall i | 0 <= i < n :: log[..n][i] == log[i];
      assert m in EntryMints(log[n]) <==> log[n].Issued? && log[n].mint == m;
    }
  }

  lemma {:induction false} EntriesDiffer(log: seq<Entry>, i: nat, j: nat)
    requires IssuedOnce(log) && i < j < |log| && log[i].Issued? && log[j].Issued?
    ensures log[i].mint != log[j].mint
  {
    var n := |log| - 1;
    if j < n {
      EntriesDiffer(log[..n], i, j);
    } else {
      IssuedSomewhere(log[..n], log[i].mint);
      assert log[..n][i] == log[i];
      assert log[i].mint in IssuedMints(log[..n]) && log[j].mint in EntryMints(log[n]);
    }
  }

  /** No mint quote is issued twice. */
  lemma NoDoubleIssue(w: World, ks: Keysets, es: seq<Event>, i: nat, j: nat)
    requires Reached(w, ks, es) && i < j < |w.log| && w.log[i].Issued? && w.log[j].Issued?
    ensures w.log[i].mint != w.log[j].mint
  {
    hide Reached, MintOk, IssuedOnce;
    ReachedMints(w, ks, es);
    EntriesDiffer(w.log, i, j);
  }

  /** Minted says ISSUED, and no mint quote is ever in another state than UNPAID, PAID or ISSUED. */
  lemma MintLifecycle(w: World, ks: Keysets, es: seq<Event>, m: QuoteId)
    requires Reached(w, ks, es) && m in w.t.mints
    ensures var mint := w.t.mints[m];
      && (mint.minted <==> mint.state == ISSUED) && mint.state != PENDING
      && (mint.state == ISSUED <==> exists i :: 0 <= i < |w.log| && w.log[i].Issued? && w.log[i].mint == m)
  {
    hide Reached, IssuedOnce, IssuanceFits, EntryOk;
    ReachedMints(w, ks, es);
    assert MintOk(w, m);
    assert m in IssuedQuotes(w.t.mints) <==> m in IssuedMints(w.log);
    IssuedSomewhere(w.log, m);
  }

  /** The outputs a mint quote was issued for are worth exactly its invoice. */
  lemma IssuedForTheInvoice(w: World, ks: Keysets, es: seq<Event>, i: nat)
    requires Reached(w, ks, es) && i < |w.log| && w.log[i].Issued?
    ensures w.log[i].mint in w.t.mints
    ensures var mint := w.t.mints[w.log[i].mint];
      MsatOf(mint.unit, SumOf(OutputAmount(), w.log[i].outputs)) == mint.request.msat
  {
    hide Reached, MintOk, IssuedOnce, SumOf;
    ReachedMints(w, ks, es);
    assert EntryOk(w, w.log[i]);
  }

  // ----- the order of a mint quote's states -----

  ghost predicate SameInvoice(t: Tables, t': Tables, m: QuoteId)
  {
    m in t.mints ==> m in t'.mints && t'.mints[m].request == t.mints[m].request && t'.mints[m].unit == t.mints[m].unit
  }

  lemma Advances(t: Tables, t': Tables, m: QuoteId)
    requires Forward(t, t') || t'.mints == t.mints
    ensures MintAdvances(t, t', m) && SameInvoice(t, t', m)
  {
  }

  /** Each step keeps the order for a mint quote, unless it writes back a row that a melt has paid meanwhile. */
  lemma StepAdvances(w: World, e: Event, m: QuoteId)
    requires MintInv(w)
    ensures SameInvoice(w.t, Step(w, e).t, m)
    ensures !(e.MintReconcile? && Stale(w, m)) ==> MintAdvances(w.t, Step(w, e).t, m)
  {
    hide MintInv, Forward, MintAdvances, SameInvoice, Stale, StepMeltReserve, StepMintLoad, StepMintReconcile,
      StepMintIssue, SaveMintQuote;
    if TouchesMints(e) {
      match e
      case CreateMintQuote(_, _, _, _) => CreateForward(w, e);
      case MeltReserve(q, inputs, outputs, verified, c) => MeltReserveForward(w, q, inputs, outputs, verified, c);
      case MintLoad(_, _) => LoadWrites(w, e);
      case MintReconcile(k, status, c) => ReconcileAdvances(w, k, status, c, m);
      case MintIssue(k, c) => MintIssueForward(w, k, c);
    } else {
      OtherMints(w, e);
    }
    if !e.MintReconcile? {
      hide Step;
      Advances(w.t, Step(w, e).t, m);
    }
  }

  lemma LoadWrites(w: World, e: Event)
    requires e.MintLoad?
    ensures Step(w, e).t == w.t
  {
  }

  lemma OtherMints(w: World, e: Event)
    requires !TouchesMints(e)
    ensures Aside(w, Step(w, e))
  {
    hide Step, Aside;
    if WritesLog(e) {
      PaidLeavesMints(w, e);
    } else {
      LeavesMints(w, e);
    }
  }

  lemma ReconcileAdvances(w: World, k: QuoteId, status: PaymentStatus, c: Commit, m: QuoteId)
    requires MintInv(w)
    ensures var t' := StepMintReconcile(w, k, status, c).t;
      SameInvoice(w.t, t', m) && (!Stale(w, m) ==> MintAdvances(w.t, t', m))
  {
    if k in w.minting && w.minting[k].quote.state != PAID && c != NotApplied {
      MintOkOf(w, k);
      ReconcileWrites(w, k, status, c);
    }
    hide MintInv;
  }

  lemma {:induction false} RunKeepsInvoice(w: World, more: seq<Event>, m: QuoteId)
    requires MintInv(w) && AssumedRun(w, more)
    ensures SameInvoice(w.t, Run(w, more).t, m)
  {
    hide MintInv, Stale, Step, Assumed;
    if more != [] {
      var fewer := more[..|more| - 1];
      RunKeepsInvoice(w, fewer, m);
      RunKeepsMints(w, fewer);
      StepAdvances(Run(w, fewer), more[|more| - 1], m);
    }
  }

  // ----- when a row goes stale -----

  lemma CreatedUnread(w: World, e: Event, m: QuoteId)
    requires w.minting.Keys <= w.t.mints.Keys && !Stale(w, m) && e.CreateMintQuote?
    ensures !Stale(Step(w, e), m)
  {
  }

  lemma LoadedAsItIs(w: World, k: QuoteId, outputs: Option<seq<BlindedMessage>>, m: QuoteId)
    requires !Stale(w, m)
    ensures !Stale(StepMintLoad(w, k, outputs), m)
  {
    hide ValidateIssuance;
  }

  lemma ReconciledRereads(w: World, k: QuoteId, status: PaymentStatus, c: Commit, m: QuoteId)
    requires !Stale(w, m)
    ensures !Stale(StepMintReconcile(w, k, status, c), m)
  {
  }

  lemma IssuedLets(w: World, k: QuoteId, c: Commit, m: QuoteId)
    requires !Stale(w, m)
    ensures !Stale(StepMintIssue(w, k, c), m)
  {
    hide CanSign, CanInsertSigs, SigMap, SigsFor;
  }

  lemma StaysRead(w: World, e: Event, m: QuoteId)
    requires MintInv(w) && !Stale(w, m) && TouchesMints(e) && !e.MeltReserve?
    ensures !Stale(Step(w, e), m)
  {
    hide MintOk, MintLogOk, StepMintLoad, StepMintReconcile, StepMintIssue, SaveMintQuote, Stale;
    match e
    case CreateMintQuote(_, _, _, _) => CreatedUnread(w, e, m);
    case MintLoad(k, outputs) => LoadedAsItIs(w, k, outputs, m);
    case MintReconcile(k, status, c) => ReconciledRereads(w, k, status, c, m);
    case MintIssue(k, c) => IssuedLets(w, k, c, m);
  }

  lemma StaysReadAside(w: World, w': World, m: QuoteId)
    requires !Stale(w, m) && Aside(w, w')
    ensures !Stale(w', m)
  {
  }

  lemma MeltCommits(w: World, e: Event)
    requires e.MeltReserve?
    ensures var w' := StepMeltReserve(w, e.q, e.inputs, e.outputs, e.verified, e.c);
      && (w'.t != w.t ==>
            && e.c != NotApplied && e.q in w.t.melts && ReserveMelt(w.t, e.q, e.inputs, e.outputs).Ok?
            && ValidateMelt(w.ks, w.t.melts[e.q], e.inputs, e.outputs, e.verified).None?)
      && (forall m | SettlesInternally(w, e, m) :: w'.t == ReserveMelt(w.t, e.q, e.inputs, e.outputs).value)
  {
    hide ReserveMelt, ValidateMelt, MintByRequest;
  }

  lemma MeltGoesStaleIff(w: World, e: Event, m: QuoteId)
    requires MintInv(w) && !Stale(w, m) && e.MeltReserve?
    ensures Stale(Step(w, e), m) <==> SettlesInternally(w, e, m) && m in w.minting
  {
    hide MintInv, MintOk, Aside, OneRow, StepMeltReserve, ReserveMelt, ValidateMelt, MintByRequest;
    var w' := StepMeltReserve(w, e.q, e.inputs, e.outputs, e.verified, e.c);
    MeltReserveWrites(w, e.q, e.inputs, e.outputs, e.verified, e.c);
    MeltCommits(w, e);
    if e.q in w.t.melts && ReserveMelt(w.t, e.q, e.inputs, e.outputs).Ok? {
      ReservedMints(w.t, e.q, e.inputs, e.outputs);
      if m in w.minting && m in w.t.mints {
        MintOkOf(w, m);
        ReadUnpaid(w, m);
      }
    }
  }

  lemma ReadUnpaid(w: World, m: QuoteId)
    requires m in w.t.mints && m in w.minting && MintOk(w, m)
    ensures w.t.mints[m].state == UNPAID ==> w.minting[m].quote.state == UNPAID
  {
  }

  /** A row goes stale exactly when a melt settles it internally while a request that has read it is in flight. */
  lemma GoesStaleIff(w: World, e: Event, m: QuoteId)
    requires MintInv(w) && !Stale(w, m)
    ensures Stale(Step(w, e), m) <==> SettlesInternally(w, e, m) && m in w.minting
  {
    hide MintInv, Stale, Step, Aside;
    if e.MeltReserve? {
      MeltGoesStaleIff(w, e, m);
    } else if TouchesMints(e) {
      StaysRead(w, e, m);
    } else {
      OtherMints(w, e);
      StaysReadAside(w, Step(w, e), m);
    }
  }

  /** What a melt pays internally was UNPAID. */
  lemma SettledWasUnpaid(w: World, e: Event, m: QuoteId)
    requires SettlesInternally(w, e, m)
    ensures m in w.t.mints && w.t.mints[m].state == UNPAID
  {
    hide ValidateMelt, ReserveMelt, MintByRequest;
    ReservedMints(w.t, e.q, e.inputs, e.outputs);
  }

  lemma {:induction false} PaidStaysPaid(w: World, more: seq<Event>, m: QuoteId)
    requires MintInv(w) && !Stale(w, m) && m in w.t.mints && Rank(w.t.mints[m].state) > 0 && AssumedRun(w, more)
    ensures MintInv(Run(w, more)) && !Stale(Run(w, more), m) && MintAdvances(w.t, Run(w, more).t, m)
  {
    hide MintInv, Stale, Step, Assumed, SettlesInternally;
    if more != [] {
      var fewer, e := more[..|more| - 1], more[|more| - 1];
      PaidStaysPaid(w, fewer, m);
      var before := Run(w, fewer);
      StepKeepsMints(before, e);
      StepAdvances(before, e, m);
      GoesStaleIff(before, e, m);
      if SettlesInternally(before, e, m) {
        SettledWasUnpaid(before, e, m);
      }
    }
  }

  lemma OneEvent(w: World, e: Event)
    ensures Run(w, [e]) == Step(w, e) && (AssumedRun(w, [e]) <==> Assumed(w, e))
  {
    hide Step, Assumed;
    assert [e][..0] == [] && Run(w, []) == w && AssumedRun(w, []);
  }

  lemma StaleIsWritten(w: World, m: QuoteId)
    requires Stale(w, m)
    ensures var t := StepMintReconcile(w, m, FAILED, Committed).t; m in t.mints && t.mints[m].state == UNPAID
  {
  }

  /** A backend that answers FAILED makes the quote UNPAID again. */
  lemma StaleIsLost(w: World, m: QuoteId)
    requires Stale(w, m)
    ensures var more := [MintReconcile(m, FAILED, Committed)];
      AssumedRun(w, more) && m in Run(w, more).t.mints && Run(w, more).t.mints[m].state == UNPAID
  {
    var e := MintReconcile(m, FAILED, Committed);
    OneEvent(w, e);
    StaleIsWritten(w, m);
    hide Run, AssumedRun, StepMintReconcile;
    assert Assumed(w, e) && Step(w, e) == StepMintReconcile(w, m, FAILED, Committed);
  }

  /**
   * In every reachable state, a mint quote moves only from UNPAID to PAID to ISSUED over every further run, for the
   * same invoice, exactly when no request in flight holds its row as it was before a melt paid it.
   */
  lemma OrderSurvivesIff(w: World, ks: Keysets, es: seq<Event>, m: QuoteId)
    requires Reached(w, ks, es) && m in w.t.mints
    ensures (forall more | AssumedRun(w, more) :: MintAdvances(w.t, Run(w, more).t, m)) <==> !Stale(w, m)
  {
    hide Reached, MintInv, AssumedRun, Run;
    ReachedMints(w, ks, es);
    if Stale(w, m) {
      StaleIsLost(w, m);
    } else {
      hide Stale;
      forall more | AssumedRun(w, more) ensures MintAdvances(w.t, Run(w, more).t, m) {
        if w.t.mints[m].state == UNPAID {
          RunKeepsInvoice(w, more, m);
        } else {
          PaidStaysPaid(w, more, m);
        }
      }
    }
  }

  ghost predicate NoneStale(w: World)
  {
    forall m :: !Stale(w, m)
  }

  lemma {:induction false} RunAdvances(w: World, es: seq<Event>, m: QuoteId)
    requires MintInv(w) && NoneStale(w) && AssumedRun(w, es) && NothingOvertaken(w, es)
    ensures MintInv(Run(w, es)) && NoneStale(Run(w, es)) && MintAdvances(w.t, Run(w, es).t, m)
  {
    hide MintInv, Stale, Step, Assumed, SettlesInternally;
    if es != [] {
      var before, e := Run(w, es[..|es| - 1]), es[|es| - 1];
      RunAdvances(w, es[..|es| - 1], m);
      StepKeepsMints(before, e);
      StepAdvances(before, e, m);
      forall k ensures !Stale(Step(before, e), k) {
        GoesStaleIff(before, e, k);
      }
    }
  }

  /** While no melt overtakes a request, states only move from UNPAID to PAID to ISSUED, for the same invoice. */
  lemma MintMovesForward(w: World, ks: Keysets, es: seq<Event>, more: seq<Event>, m: QuoteId)
    requires Reached(w, ks, es) && NothingOvertaken(Start(ks), es) && m in w.t.mints
    requires AssumedRun(w, more) && NothingOvertaken(w, more)
    ensures var w' := Run(w, more);
      && m in w'.t.mints && w'.t.mints[m].request == w.t.mints[m].request
      && Rank(w.t.mints[m].state) <= Rank(w'.t.mints[m].state)
  {
    assert MintInv(Start(ks)) && NoneStale(Start(ks));
    hide MintInv, NoneStale, NothingOvertaken, AssumedRun, Run, Start, Rank;
    RunAdvances(Start(ks), es, m);
    RunAdvances(w, more, m);
  }
}
