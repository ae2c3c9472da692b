/**
 * The mint's own code over the database object: each begin..commit block as a method on arrays and tables that it
 * changes in place, proved against the table functions of Transactions (internal/mint, internal/utils/proofs.go).
 */
module Mint {
  import opened Prelude
  import opened Totals
  import opened Cashu
  import opened Store
  import opened Amounts
  import opened Fees
  import opened Transactions
  import opened Exact
  import opened World
  import opened Acceptance
  import opened Database
  import opened Settlement
  import opened SwapSteps

  /** What goes wrong in one block: BEGIN, one of its statements, one statement inside a batch, or COMMIT. */
  datatype Faults = Faults(begin: bool, statement: Option<nat>, batch: Option<nat>, commit: Commit, leftOpen: bool) {
    predicate At(k: nat) {
      statement == Some(k)
    }

    /** No statement fails in a block of `n` statements, one of them a batch of `size`. */
    predicate Statements(n: nat, size: nat) {
      (statement.None? || statement.value >= n) && (batch.None? || batch.value >= size)
    }

    predicate Writes(n: nat, size: nat) {
      !begin && Statements(n, size)
    }
  }

  /** Nothing fails in a swap of `n` inputs. */
  predicate Faultless(signFails: bool, reserve: Faults, settle: Faults, n: nat)
  {
    && !signFails && reserve.Writes(1, 0) && reserve.commit == Committed
    && settle.Writes(2, n) && settle.commit == Committed
  }

  // ----- proofs in place -----

  function WithYs(ps: seq<Proof>, curve: string -> Point, now: int): seq<Proof>
  {
    seq(|ps|, i requires 0 <= i < |ps| => ps[i].(y := curve(ps[i].secret), seenAt := now))
  }

  function InState(ps: seq<Proof>, state: ProofState): seq<Proof>
  {
    seq(|ps|, i requires 0 <= i < |ps| => ps[i].(state := state))
  }

  /** GetAndCalculateProofsValues: the caller's own array receives the Ys and the time. */
  method CalculateProofsValues(ps: array<Proof>, curve: string -> Point, now: int) returns (ys: seq<Point>)
    modifies ps
    ensures ps[..] == WithYs(old(ps[..]), curve, now)
    ensures |ys| == ps.Length && forall i | 0 <= i < |ys| :: ys[i] == ps[i].y
  {
    ys := [];
    for i := 0 to ps.Length
      invariant |ys| == i && forall k | 0 <= k < i :: ys[k] == ps[k].y
      invariant forall k | 0 <= k < i :: ps[k] == old(ps[k]).(y := curve(old(ps[k]).secret), seenAt := now)
      invariant forall k | i <= k < ps.Length :: ps[k] == old(ps[k])
    {
      ps[i] := ps[i].(y := curve(ps[i].secret), seenAt := now);
      ys := ys + [ps[i].y];
    }
  }

  method SetProofsState(ps: array<Proof>, state: ProofState)
    modifies ps
    ensures ps[..] == InState(old(ps[..]), state)
  {
    for i := 0 to ps.Length
      invariant forall k | 0 <= k < i :: ps[k] == old(ps[k]).(state := state)
      invariant forall k | i <= k < ps.Length :: ps[k] == old(ps[k])
    {
      ps[i] := ps[i].(state := state);
    }
  }

  method SetPendingAndQuoteRef(ps: array<Proof>, q: QuoteId)
    modifies ps
    ensures ps[..] == AsPendingFor(old(ps[..]), q)
  {
    for i := 0 to ps.Length
      invariant forall k | 0 <= k < i :: ps[k] == old(ps[k]).(state := ProofPending, quote := Some(q))
      invariant forall k | i <= k < ps.Length :: ps[k] == old(ps[k])
    {
      ps[i] := ps[i].(state := ProofPending, quote := Some(q));
    }
  }

  /** Proofs.Amount: a uint64 accumulator. */
  method ProofsAmount(ps: array<Proof>) returns (amount: nat)
    ensures amount == Amount64(ps[..])
  {
    amount := 0;
    for i := 0 to ps.Length
      invariant amount == Amount64(ps[..i])
    {
      assert ps[..i + 1] == ps[..i] + [ps[i]];
      SumOfSnoc(AmountOf(), ps[..i], ps[i]);
      WrapOfSum(ps[i].amount, SumOf(AmountOf(), ps[..i]));
      amount := Wrap(ps[i].amount + amount);
    }
    assert ps[..ps.Length] == ps[..];
  }

  // ----- the signer -----

  /** Signing fails as a whole when one message names no active keyset or no amount of it. */
  method SignBlindMessages(ks: Keysets, ms: seq<BlindedMessage>) returns (sigs: Option<seq<RecoverSig>>)
    ensures sigs == if CanSign(ks, ms) then Some(SigsFor(ms)) else None
  {
    var done: seq<RecoverSig> := [];
    for i := 0 to |ms|
      invariant CanSign(ks, ms[..i]) && done == SigsFor(ms[..i])
    {
      if ms[i].id !in ks || !ks[ms[i].id].active || !IsKeysetAmount(ms[i].amount) {
        return None;
      }
      done := done + [SigFor(ms[i])];
    }
    assert ms[..|ms|] == ms;
    return Some(done);
  }

  /** What the second block met, in the terms of the model: a rollback reports nil only while the block is open. */
  ghost function Observed(f: Faults, size: nat, signFails: bool, stored: bool): SwapOutcome
  {
    var written := f.Statements(2, size) && stored;
    SwapOutcome(signFails, f.begin, !written, f.commit, written && f.commit == NotApplied && f.leftOpen, !written)
  }

  /** So the promise the swap relies on is kept by every transaction of the database object. */
  lemma ObservedTells(t: Tables, inputs: seq<Proof>, outputs: seq<BlindedMessage>, f: Faults, signFails: bool)
    ensures RollbackTells(t, inputs, outputs,
              Observed(f, |inputs|, signFails, SettleSwap(t, inputs, SigsFor(outputs)).Ok?))
  {
  }

  /**
   * How a block ends: it reports success only when it took effect; it takes effect, as a whole, when nothing failed and
   * COMMIT was applied; and otherwise it leaves the tables alone.
   */
  ghost predicate Ends(t: Tables, r: Result<Tables, MintError>, t': Tables, ok: bool, faultless: bool, f: Faults)
  {
    && (ok ==> r.Ok? && !f.begin && f.commit == Committed)
    && (r.Ok? && faultless && f.commit == Committed ==> ok)
    && (ok || (r.Ok? && faultless && f.commit == AckLost) ==> r.Ok? && t' == r.value)
    && (!ok && (r.Err? || f.begin || f.commit != AckLost) ==> t' == t)
    && (t' == t || (r.Ok? && t' == r.value))
  }

  ghost function PaidBlock(t: Tables, q: QuoteId, ys: set<Point>, sigs: seq<RecoverSig>, fee: nat, preimage: string)
    : Result<Tables, MintError>
    requires q in t.melts
  {
    if sigs != [] && !CanInsertSigs(t.sigs, sigs) then Err(DatabaseError)
    else
      var t1 := if sigs == [] then t else t.(sigs := t.sigs + SigMap(sigs), change := t.change - {q});
      Ok(MarkPaid(t1, q, ys, fee, preimage))
  }

  lemma FinalizedByBlock(
      ks: Keysets, t: Tables, q: QuoteId, inputs: seq<Proof>, outputs: seq<BlindedMessage>, fee: nat, preimage: string,
      change: seq<BlindedMessage>)
    requires q in t.melts && FeeOf(ks, inputs).Some?
    requires var spent := Wrap(t.melts[q].amount + fee + FeeOf(ks, inputs).value);
      change ==
        if Amount64(inputs) > spent && outputs != [] then ChangeMessages(Amount64(inputs) - spent, outputs) else []
    ensures FinalizeMelt(ks, t, q, inputs, outputs, fee, preimage) ==
      if CanSign(ks, change) then PaidBlock(t, q, Ys(inputs), SigsFor(change), fee, preimage) else Err(KeysetNotKnown)
  {
  }

  lemma ChangeIsNothing(overpaid: nat, msgs: seq<BlindedMessage>)
    ensures ChangeMessages(overpaid, Unvalued(msgs)) == [] <==> overpaid == 0 || msgs == []
  {
    ChangeIgnoresValues(overpaid, Unvalued(msgs), Unvalued(msgs));
  }

  lemma NoMessagesNoSigs(ms: seq<BlindedMessage>)
    ensures SigsFor(ms) == [] <==> ms == []
    ensures ms == [] ==> forall ks :: CanSign(ks, ms)
  {
  }

  lemma RecoveredByBlock(
      ks: Keysets, t: Tables, q: QuoteId, rows: seq<Proof>, msgs: seq<BlindedMessage>, fee: nat, preimage: string,
      change: seq<BlindedMessage>)
    requires q in t.melts && FeeOf(ks, rows).Some?
    requires var overpaid := Wrap(Amount64(rows) - Wrap(t.melts[q].amount + fee + FeeOf(ks, rows).value));
      change == if msgs != [] && overpaid > 0 then ChangeMessages(overpaid, Unvalued(msgs)) else []
    ensures RecoverMelt(ks, t, q, rows, msgs, fee, preimage) ==
      if CanSign(ks, change) then PaidBlock(t, q, Ys(rows), SigsFor(change), fee, preimage) else Err(KeysetNotKnown)
  {
    hide Unvalued, SigsFor, FeeOf, Wrap, Amount64, ChangeMessages, CanSign, CanInsertSigs, SigMap, MarkPaid, Ys;
    var overpaid := Wrap(Amount64(rows) - Wrap(t.melts[q].amount + fee + FeeOf(ks, rows).value));
    ChangeIsNothing(overpaid, msgs);
    NoMessagesNoSigs(change);
    NoMessagesNoSigs([]);
    if msgs == [] || overpaid == 0 {
      assert change == [];
    } else {
      assert change == ChangeMessages(overpaid, Unvalued(msgs)) != [];
    }
  }

  /** Deleting the reserved inputs gives back the tables from before the reservation. */
  lemma ReserveUndone(t: Tables, inputs: seq<Proof>, outputs: seq<BlindedMessage>)
    requires ReserveSwap(t, inputs, outputs).Ok?
    ensures DeleteProofs(ReserveSwap(t, inputs, outputs).value, AsPending(inputs)) == t
  {
  }

  lemma SoundHasInputs(ks: Keysets, inputs: seq<Proof>, outputs: seq<BlindedMessage>, verified: bool)
    requires SoundSwap(ks, inputs, outputs, verified)
    ensures |inputs| > 0
  {
  }

  /** New outputs can be stored in the second block. */
  lemma ReservedCanSettle(t: Tables, inputs: seq<Proof>, outputs: seq<BlindedMessage>)
    requires ReserveSwap(t, inputs, outputs).Ok?
    ensures SettleSwap(ReserveSwap(t, inputs, outputs).value, AsPending(inputs), SigsFor(outputs)).Ok?
  {
    hide CheckUnspent, CheckOutputs, NewOutputs, NewInputs, RowMap, SetState, SigMap, CanInsertSigs;
    ReservedIff(t, inputs, outputs);
    NewCanBeStored(t, outputs);
    assert ReserveSwap(t, inputs, outputs).value.sigs == t.sigs;
  }

  class Mint {
    const db: Database
    var keysets: Keysets

    constructor (database: Database, ks: Keysets)
      ensures db == database && keysets == ks
    {
      db, keysets := database, ks;
    }

    /** validateProofsUnspent: fills in the Ys, then looks them up. */
    method ValidateProofsUnspent(ps: array<Proof>, curve: string -> Point, now: int) returns (err: Option<MintError>)
      modifies ps
      ensures ps[..] == WithYs(old(ps[..]), curve, now) && err == CheckUnspent(db.Now(), ps[..])
    {
      var ys := CalculateProofsValues(ps, curve, now);
      var known: seq<Proof> := [];
      for i := 0 to |ys|
        invariant known == [] <==> forall k | 0 <= k < i :: ps[k].y !in db.proofs
        invariant forall j | 0 <= j < |known| :: exists k ::
          0 <= k < i && ps[k].y in db.proofs && db.proofs[ps[k].y] == known[j]
        invariant forall k | 0 <= k < i && ps[k].y in db.proofs :: db.proofs[ps[k].y] in known
      {
        if ys[i] in db.proofs {
          known := known + [db.proofs[ys[i]]];
        }
      }
      if known == [] {
        return None;
      }
      for j := 0 to |known|
        invariant forall k | 0 <= k < j :: known[k].state != ProofPending
      {
        if known[j].state == ProofPending {
          return Some(ProofIsPending);
        }
      }
      return Some(ProofIsSpent);
    }

    /** ValidateOutputsNotSpent: the first repeated output ends the search. */
    method ValidateOutputsNotSpent(outputs: seq<BlindedMessage>) returns (err: Option<MintError>)
      ensures err == CheckOutputs(db.Now(), outputs)
    {
      var seen: set<Point> := {};
      for i := 0 to |outputs|
        invariant seen == set k | 0 <= k < i :: outputs[k].b
        invariant forall j, k | 0 <= j < k < i :: outputs[j].b != outputs[k].b
      {
        if outputs[i].b in seen {
          return Some(RepeatedOutput);
        }
        seen := seen + {outputs[i].b};
      }
      for i := 0 to |outputs|
        invariant forall k | 0 <= k < i :: outputs[k].b !in db.sigs
      {
        if outputs[i].b in db.sigs {
          return Some(AlreadySigned);
        }
      }
      return None;
    }

    // ----- swaps -----

    /** First block of ExecuteSwap: the caller's inputs get their Ys, turn PENDING and are saved. */
    method ReserveSwapInputs(
        inputs: array<Proof>, outputs: seq<BlindedMessage>, curve: string -> Point, now: int, f: Faults)
      returns (err: Option<MintError>)
      requires db.status == Closed
      modifies db, inputs
      ensures db.status == Closed
      ensures var r := ReserveSwap(old(db.Now()), WithYs(old(inputs[..]), curve, now), outputs);
        && (err.None? <==> r.Ok? && f.Writes(1, 0) && f.commit == Committed)
        && (err.None? ==> inputs[..] == AsPending(WithYs(old(inputs[..]), curve, now)))
        && (r.Err? && !f.begin ==> err == Some(r.error))
        && db.Now() == if r.Ok? && f.Writes(1, 0) && f.commit != NotApplied then r.value else old(db.Now())
    {
      var ok := db.Begin(f.begin);
      if !ok {
        return Some(DatabaseError);
      }
      err := ValidateProofsUnspent(inputs, curve, now);
      if err.None? {
        err := ValidateOutputsNotSpent(outputs);
      }
      if err.None? {
        SetProofsState(inputs, ProofPending);
        assert inputs[..] == AsPending(WithYs(old(inputs[..]), curve, now));
        ok := db.SaveProof(inputs, f.At(0));
        if ok {
          ok := db.Commit(f.commit, f.leftOpen);
        }
        err := if ok then None else Some(DatabaseError);
      }
      if err.Some? {
        var _ := db.Rollback();
      }
    }

    /**
     * signSwapOutputsAndMarkInputsSpent. The deferred rollback runs last and, when it reports nil, overrides the
     * named result that the body had already returned.
     */
    method SignSwapOutputsAndMarkInputsSpent(
        inputs: array<Proof>, outputs: seq<BlindedMessage>, signFails: bool, f: Faults)
      returns (sigs: seq<RecoverSig>, removePending: bool, failed: bool)
      requires db.status == Closed && inputs.Length > 0
      modifies db
      ensures db.status == Closed
      ensures var stored := SettleSwap(old(db.Now()), inputs[..], SigsFor(outputs)).Ok?;
        var end := SettleSwapBlock(keysets, old(db.Now()), inputs[..], outputs,
          Observed(f, inputs.Length, signFails, stored));
        db.Now() == end.t && failed == end.failed && removePending == end.removePending
      ensures !failed ==> sigs == SigsFor(outputs)
    {
      sigs := [];
      var signed := SignBlindMessages(keysets, outputs);
      if signFails || signed.None? {
        return [], true, true;
      }
      var ok := db.Begin(f.begin);
      if !ok {
        return [], true, true;
      }
      removePending, failed := SpendInputsAndStore(inputs, signed.value, f);
      if !failed {
        sigs := signed.value;
      }
      // deferred
      var isNil := db.Rollback();
      if isNil {
        removePending := true;
      }
    }

    /** The statements between BEGIN and the deferred rollback. */
    method SpendInputsAndStore(
        inputs: array<Proof>, sigs: seq<RecoverSig>, f: Faults)
      returns (removePending: bool, failed: bool)
      requires db.status == Open && db.before == db.Now() && inputs.Length > 0
      modifies db
      ensures db.before == old(db.before)
      ensures var r := SettleSwap(old(db.Now()), inputs[..], sigs);
        if !f.Statements(2, inputs.Length) || r.Err?
        then failed && !removePending && db.status != Closed
        else
          && (failed <==> f.commit != Committed)
          && (removePending <==> f.commit == NotApplied && f.leftOpen)
          && db.status == Closed && db.Now() == if f.commit == NotApplied then old(db.Now()) else r.value
    {
      var ok := db.SetProofsState(inputs, ProofSpent, if f.At(0) then Some(0) else f.batch);
      if !ok {
        return false, true;
      }
      ok := db.SaveRestoreSigs(sigs, f.At(1));
      if !ok {
        return false, true;
      }
      ok := db.Commit(f.commit, f.leftOpen);
      if !ok {
        var isNil := db.Rollback();
        return isNil, true;
      }
      return false, false;
    }

    method RemovePendingSwapProofs(inputs: array<Proof>, f: Faults) returns (ok: bool)
      requires db.status == Closed && inputs.Length > 0
      modifies db
      ensures db.status == Closed
      ensures ok <==> f.Writes(0, inputs.Length) && f.commit == Committed
      ensures db.Now() == if f.Writes(0, inputs.Length) && f.commit != NotApplied
                          then DeleteProofs(old(db.Now()), inputs[..]) else old(db.Now())
    {
      ok := db.Begin(f.begin);
      if ok {
        ok := db.DeleteProofs(inputs, f.batch);
        if ok {
          ok := db.Commit(f.commit, f.leftOpen);
        }
        var _ := db.Rollback();
      }
    }

    /** The second block and, where it asks for it, the clean-up. */
    method SettleOrCleanUp(
        inputs: array<Proof>, outputs: seq<BlindedMessage>, signFails: bool, f: Faults, cleanUp: Faults)
      returns (sigs: seq<RecoverSig>, failed: bool)
      requires db.status == Closed && inputs.Length > 0
      modifies db
      ensures db.status == Closed
      ensures !failed ==> sigs == SigsFor(outputs) && SettleSwap(old(db.Now()), inputs[..], sigs) == Ok(db.Now())
      ensures failed && f.commit != AckLost ==>
        db.Now() == old(db.Now()) || db.Now() == DeleteProofs(old(db.Now()), inputs[..])
      ensures failed && f.commit == AckLost ==>
        || db.Now() == old(db.Now()) || db.Now() == DeleteProofs(old(db.Now()), inputs[..])
        || SettleSwap(old(db.Now()), inputs[..], SigsFor(outputs)) == Ok(db.Now())
      ensures failed && f.commit == Committed && cleanUp.Writes(0, inputs.Length) && cleanUp.commit != NotApplied ==>
        db.Now() == DeleteProofs(old(db.Now()), inputs[..])
      ensures !failed ==> CanSign(keysets, outputs)
      ensures CanSign(keysets, outputs) && !signFails && f.Writes(2, inputs.Length) && f.commit == Committed ==>
        SettleSwap(old(db.Now()), inputs[..], SigsFor(outputs)).Ok? ==> !failed
    {
      hide SettleSwap, DeleteProofs, CanSign, SigsFor;
      var removePending;
      sigs, removePending, failed := SignSwapOutputsAndMarkInputsSpent(inputs, outputs, signFails, f);
      if failed && removePending {
        var _ := RemovePendingSwapProofs(inputs, cleanUp);
      }
    }

    /**
     * One swap from start to end with no other request in between. It goes through only for inputs that verified, of
     * one unit with the outputs and worth them and the fee, and does for all such requests when nothing fails. A
     * refusal stores no signature; it leaves the tables as they were, or, when the clean-up failed too, the inputs
     * pending.
     */
    method ExecuteSwap(
        inputs: array<Proof>, outputs: seq<BlindedMessage>, curve: string -> Point, now: int, verified: bool,
        signFails: bool,
        reserve: Faults, settle: Faults, cleanUp: Faults) returns (sigs: seq<RecoverSig>, err: Option<MintError>)
      requires db.status == Closed
      modifies db, inputs
      ensures db.status == Closed
      ensures var ps := WithYs(old(inputs[..]), curve, now);
        var r := ReserveSwap(old(db.Now()), ps, outputs);
        && (err.None? ==> r.Ok? && sigs == SigsFor(outputs) && SettleSwap(r.value, AsPending(ps), sigs) == Ok(db.Now()))
        && (err.Some? && settle.commit != AckLost ==> db.Now() == old(db.Now()) || (r.Ok? && db.Now() == r.value))
        && (err.Some? && settle.commit == AckLost ==>
              || db.Now() == old(db.Now())
              || (r.Ok? && db.Now() == r.value)
              || (r.Ok? && SettleSwap(r.value, AsPending(ps), SigsFor(outputs)) == Ok(db.Now())))
      ensures err.Some? && reserve.commit != AckLost && settle.commit == Committed ==>
        cleanUp.Writes(0, inputs.Length) && cleanUp.commit != NotApplied ==> db.Now() == old(db.Now())
      ensures err.Some? ==> sigs == []
      ensures ValidateSwap(keysets, old(inputs[..]), outputs, verified).Some? ==>
        err == ValidateSwap(keysets, old(inputs[..]), outputs, verified) && inputs[..] == old(inputs[..])
      ensures var r := ReserveSwap(old(db.Now()), WithYs(old(inputs[..]), curve, now), outputs);
        ValidateSwap(keysets, old(inputs[..]), outputs, verified).None? && r.Err? && !reserve.begin ==>
          err == Some(r.error)
      ensures err.None? ==>
        && SoundSwap(keysets, old(inputs[..]), outputs, verified) && Signable(keysets, outputs)
        && NewInputs(old(db.Now()), WithYs(old(inputs[..]), curve, now)) && NewOutputs(old(db.Now()), outputs)
        && SwapDone(db.Now(), WithYs(old(inputs[..]), curve, now), outputs, sigs)
      ensures err.None? && Small(keysets, old(inputs[..]), outputs) ==>
        PaidSwap(keysets, old(inputs[..]), outputs, verified)
      ensures Small(keysets, old(inputs[..]), outputs) && Faultless(signFails, reserve, settle, inputs.Length) ==>
        PaidSwap(keysets, old(inputs[..]), outputs, verified) && Signable(keysets, outputs) ==>
        NewInputs(old(db.Now()), WithYs(old(inputs[..]), curve, now)) && NewOutputs(old(db.Now()), outputs) ==>
        err.None?
    {
      hide ReserveSwap, SettleSwap, DeleteProofs, SigsFor, AsPending, WithYs, FeeOf, Amount64, Outputs64,
        BalanceIsZero, ValidateSwap, CanSign, SoundSwap, PaidSwap, Small, Signable, NewInputs, NewOutputs, SwapDone;
      sigs := [];
      ghost var t, sent, ps := db.Now(), inputs[..], WithYs(inputs[..], curve, now);
      SwapAcceptedIff(keysets, sent, outputs, verified);
      SignableIs(keysets, outputs);
      if Small(keysets, sent, outputs) && CanSign(keysets, outputs) {
        SoundIsPaid(keysets, sent, outputs, verified);
      }
      ReservedIff(t, ps, outputs);
      err := ValidateSwap(keysets, inputs[..], outputs, verified);
      if err.Some? {
        return;
      }
      SoundHasInputs(keysets, sent, outputs, verified);
      err := ReserveSwapInputs(inputs, outputs, curve, now, reserve);
      if err.Some? {
        return;
      }
      ReserveUndone(t, ps, outputs);
      ReservedCanSettle(t, ps, outputs);
      var failed;
      sigs, failed := SettleOrCleanUp(inputs, outputs, signFails, settle, cleanUp);
      if failed {
        sigs, err := [], Some(DatabaseError);
      } else {
        SettledIsDone(t, db.Now(), ps, outputs);
      }
    }

    // ----- melts -----

    /** Runs inside the block that reserves the inputs; `q` is the quote's row as the block left it. */
    method SettleIfInternalMelt(q: QuoteId, atMint: bool, atMelt: bool) returns (err: Option<MintError>)
      requires db.status == Open && q in db.melts && UniqueInvoices(db.mints)
      modifies db
      ensures db.before == old(db.before) && db.status != Closed
      ensures var r := SettleIfInternal(old(db.Now()), q);
        var internal := MintByRequest(old(db.mints), old(db.melts)[q].request).Some?;
        && (r.Err? ==> err == Some(r.error))
        && (r.Ok? && !(internal && (atMint || atMelt)) ==> err.None? && db.status == Open && db.Now() == r.value)
        && (r.Ok? && internal && (atMint || atMelt) ==> err == Some(DatabaseError))
    {
      var quote := db.melts[q];
      var found := db.GetMintRequestByRequest(quote.request);
      if found.None? {
        return None;
      }
      var m := found.value;
      var mint := db.mints[m];
      OneInvoice(db.mints, quote.request, m);
      if quote.state == PAID {
        return Some(MeltAlreadyPaid);
      }
      if quote.unit != mint.unit {
        return Some(UnitNotSupported);
      }
      if mint.state != UNPAID {
        return Some(MintAlreadyPaid);
      }
      var ok := db.ChangeMintRequestState(m, PAID, mint.minted, atMint);
      if ok {
        ok := db.ChangeMeltRequestState(q, PAID, true, 0, atMelt);
      }
      err := if ok then None else Some(DatabaseError);
    }

    /** reserveMeltInputsAndMarkPending. */
    method ReserveMeltInputsAndMarkPending(
        q: QuoteId, inputs: array<Proof>, outputs: seq<BlindedMessage>, curve: string -> Point, now: int, f: Faults)
      returns (err: Option<MintError>)
      requires db.status == Closed && UniqueInvoices(db.mints)
      modifies db, inputs
      ensures db.status == Closed
      ensures var r := ReserveMelt(old(db.Now()), q, WithYs(old(inputs[..]), curve, now), outputs);
        && (err.None? ==>
          r.Ok? && f.commit == Committed && inputs[..] == AsPendingFor(WithYs(old(inputs[..]), curve, now), q))
        && (r.Ok? && f.Writes(5, 0) && f.commit == Committed ==> err.None?)
        && (r.Err? && f.Writes(5, 0) ==> err == Some(r.error))
        && (err.None? || (r.Ok? && f.Writes(5, 0) && f.commit == AckLost) ==> db.Now() == r.value)
        && (err.Some? && (r.Err? || f.begin || f.commit != AckLost) ==> db.Now() == old(db.Now()))
        && (db.Now() == old(db.Now()) || db.Now() == r.value)
    {
      var ok := db.Begin(f.begin);
      if !ok {
        return Some(DatabaseError);
      }
      err := ReserveInBlock(q, inputs, outputs, curve, now, f);
      if err.None? {
        ok := db.Commit(f.commit, f.leftOpen);
        err := if ok then None else Some(DatabaseError);
      }
      if err.Some? {
        var _ := db.Rollback();
      }
    }

    method ReserveInBlock(
        q: QuoteId, inputs: array<Proof>, outputs: seq<BlindedMessage>, curve: string -> Point, now: int, f: Faults)
      returns (err: Option<MintError>)
      requires db.status == Open && UniqueInvoices(db.mints)
      modifies db, inputs
      ensures db.before == old(db.before) && db.status != Closed
      ensures var r := ReserveMelt(old(db.Now()), q, WithYs(old(inputs[..]), curve, now), outputs);
        && (err.None? ==> r.Ok? && db.status == Open && db.Now() == r.value)
        && (err.None? ==> inputs[..] == AsPendingFor(WithYs(old(inputs[..]), curve, now), q))
        && (r.Ok? && f.Statements(5, 0) ==> err.None?)
        && (r.Err? && f.Statements(5, 0) ==> err == Some(r.error))
    {
      if q !in db.melts {
        return Some(QuoteNotKnown);
      }
      var quote := db.melts[q];
      if quote.state == PENDING {
        return Some(QuoteIsPending);
      }
      if quote.melted {
        return Some(MeltAlreadyPaid);
      }
      err := ValidateProofsUnspent(inputs, curve, now);
      if err.None? {
        err := ValidateOutputsNotSpent(outputs);
      }
      if err.Some? {
        return;
      }
      SetPendingAndQuoteRef(inputs, q);
      assert inputs[..] == AsPendingFor(WithYs(old(inputs[..]), curve, now), q);
      var ok := db.SaveProof(inputs, f.At(0));
      if ok {
        ok := db.ChangeMeltRequestState(q, PENDING, quote.melted, quote.feePaid, f.At(1));
      }
      if ok {
        ok := db.SaveMeltChange(q, Unvalued(outputs), f.At(2));
      }
      if !ok {
        return Some(DatabaseError);
      }
      err := SettleIfInternalMelt(q, f.At(3), f.At(4));
    }

    /**
     * The recheck, or a refresh, found the payment dead: quote, inputs and change messages are released in one block.
     */
    method ReleaseFailedMelt(q: QuoteId, inputs: array<Proof>, feePaid: nat, f: Faults) returns (ok: bool)
      requires db.status == Closed && q in db.melts && inputs.Length > 0
      modifies db
      ensures db.status == Closed
      ensures ok <==> f.Writes(3, inputs.Length) && f.commit == Committed
      ensures db.Now() == if f.Writes(3, inputs.Length) && f.commit != NotApplied
                          then ReleaseMelt(old(db.Now()), q, Ys(inputs[..]), feePaid) else old(db.Now())
    {
      ok := db.Begin(f.begin);
      if !ok {
        return;
      }
      ok := db.ChangeMeltRequestState(q, UNPAID, db.melts[q].melted, feePaid, f.At(0));
      if ok {
        ok := db.DeleteProofs(inputs, if f.At(1) then Some(0) else f.batch);
      }
      if ok {
        ok := db.DeleteChangeByQuote(q, f.At(2));
      }
      if ok {
        ok := db.Commit(f.commit, f.leftOpen);
      }
      var _ := db.Rollback();
    }

    /** finalizePaidBolt11Melt: writes the change amounts into the caller's outputs and SPENT into its inputs. */
    method FinalizePaidBolt11Melt(
        q: QuoteId, inputs: array<Proof>, outputs: array<BlindedMessage>,
        amountProofs: nat, inputFee: nat, fee: nat, preimage: string, f: Faults) returns (ok: bool)
      requires db.status == Closed && q in db.melts && inputs.Length > 0
      requires amountProofs == Amount64(inputs[..]) && FeeOf(keysets, inputs[..]) == Some(inputFee)
      modifies db, inputs, outputs
      ensures db.status == Closed
      ensures var r := FinalizeMelt(keysets, old(db.Now()), q, old(inputs[..]), old(outputs[..]), fee, preimage);
        && Ends(old(db.Now()), r, db.Now(), ok, f.Writes(5, inputs.Length), f)
        && (ok ==> inputs[..] == InState(old(inputs[..]), ProofSpent))
      ensures var spent := Wrap(old(db.melts)[q].amount + fee + inputFee);
        var change := if amountProofs > spent && outputs.Length > 0
                      then ChangeMessages(amountProofs - spent, old(outputs[..])) else [];
        outputs[..] == change + old(outputs[..])[|change|..]
    {
      hide FinalizeMelt, PaidBlock, FeeOf, CanSign, ChangeMessages, SigsFor, MarkPaid, Ys, SetMelt, SumOf;
      var totalExpent := Wrap(db.melts[q].amount + fee + inputFee);
      ghost var change := if amountProofs > totalExpent && outputs.Length > 0
                          then ChangeMessages(amountProofs - totalExpent, outputs[..]) else [];
      FinalizedByBlock(keysets, db.Now(), q, inputs[..], outputs[..], fee, preimage, change);
      var signed := PaidChange(outputs, amountProofs, totalExpent);
      if signed.None? {
        return false;
      }
      ghost var rows := inputs[..];
      if !f.begin {
        SetProofsState(inputs, ProofSpent);
        SameYs(rows, inputs[..], ProofSpent);
      }
      ok := CommitPaid(q, inputs, signed.value, fee, preimage, f);
    }

    /** Signs change for the caller's outputs, if there are any and anything was overpaid. */
    method PaidChange(outputs: array<BlindedMessage>, amountProofs: nat, totalExpent: nat)
      returns (sigs: Option<seq<RecoverSig>>)
      requires amountProofs < TWO_64
      modifies outputs
      ensures var change := if amountProofs > totalExpent && outputs.Length > 0
                            then ChangeMessages(amountProofs - totalExpent, old(outputs[..])) else [];
        && sigs == (if CanSign(keysets, change) then Some(SigsFor(change)) else None)
        && outputs[..] == change + old(outputs[..])[|change|..]
    {
      NoMessagesNoSigs([]);
      sigs := Some([]);
      if amountProofs > totalExpent && outputs.Length > 0 {
        sigs := GetChangeOutput(outputs, amountProofs - totalExpent);
      }
    }

    /** The SETTLED branch of RefreshMeltQuoteState: one block from reading the change messages to COMMIT. */
    method SettleRecoveredMelt(
        q: QuoteId, rows: array<Proof>, msgs: seq<BlindedMessage>, inputFee: nat, fee: nat, preimage: string, f: Faults)
      returns (ok: bool)
      requires db.status == Closed && q in db.melts && rows.Length > 0 && FeeOf(keysets, rows[..]) == Some(inputFee)
      modifies db
      ensures db.status == Closed
      ensures var r := RecoverMelt(keysets, old(db.Now()), q, rows[..], msgs, fee, preimage);
        Ends(old(db.Now()), r, db.Now(), ok, f.Writes(5, rows.Length), f)
    {
      ok := db.Begin(f.begin);
      if !ok {
        return;
      }
      var totalExpent := Wrap(db.melts[q].amount + fee + inputFee);
      var amount := ProofsAmount(rows);
      var overpaidFees := Wrap((amount as int) - totalExpent);
      ghost var change := if msgs != [] && overpaidFees > 0 then ChangeMessages(overpaidFees, Unvalued(msgs)) else [];
      RecoveredByBlock(keysets, db.Now(), q, rows[..], msgs, fee, preimage, change);
      hide RecoverMelt, PaidBlock, FeeOf, CanSign;
      var signed := RecoveredChange(msgs, overpaidFees);
      if signed.None? {
        var _ := db.Rollback();
        return false;
      }
      ok := CommitRecovered(q, rows, signed.value, fee, preimage, f);
    }

    method CommitRecovered(q: QuoteId, rows: array<Proof>, sigs: seq<RecoverSig>, fee: nat, preimage: string, f: Faults)
      returns (ok: bool)
      requires db.status == Open && db.before == db.Now() && q in db.melts && rows.Length > 0 && !f.begin
      modifies db
      ensures db.status == Closed
      ensures var r := PaidBlock(old(db.Now()), q, Ys(rows[..]), sigs, fee, preimage);
        Ends(old(db.Now()), r, db.Now(), ok, f.Writes(5, rows.Length), f)
    {
      ok := MarkRecoveredInBlock(q, rows, sigs, fee, preimage, f);
      if ok {
        ok := db.Commit(f.commit, f.leftOpen);
      }
      var _ := db.Rollback();
    }

    /** Signs change for the saved messages, if there are any and anything was overpaid. */
    method RecoveredChange(msgs: seq<BlindedMessage>, overpaidFees: nat) returns (sigs: Option<seq<RecoverSig>>)
      requires overpaidFees < TWO_64
      ensures var change := if msgs != [] && overpaidFees > 0 then ChangeMessages(overpaidFees, Unvalued(msgs)) else [];
        sigs == if CanSign(keysets, change) then Some(SigsFor(change)) else None
    {
      NoMessagesNoSigs([]);
      sigs := Some([]);
      if msgs != [] && overpaidFees > 0 {
        var blindMessages := new BlindedMessage[|msgs|](i requires 0 <= i < |msgs| => msgs[i].(amount := 0));
        assert blindMessages[..] == Unvalued(msgs);
        sigs := GetChangeOutput(blindMessages, overpaidFees);
      }
    }

    /** Amounts for the change are written into the given messages before they are signed. */
    method GetChangeOutput(messages: array<BlindedMessage>, overpaidFees: nat) returns (sigs: Option<seq<RecoverSig>>)
      requires overpaidFees < TWO_64
      modifies messages
      ensures var change := ChangeMessages(overpaidFees, old(messages[..]));
        && sigs == (if CanSign(keysets, change) then Some(SigsFor(change)) else None)
        && messages[..] == change + old(messages[..])[|change|..]
    {
      var n := GetMessagesForChange(overpaidFees, messages);
      sigs := SignBlindMessages(keysets, messages[..n]);
    }

    method CommitPaid(q: QuoteId, inputs: array<Proof>, sigs: seq<RecoverSig>, fee: nat, preimage: string, f: Faults)
      returns (ok: bool)
      requires db.status == Closed && q in db.melts && inputs.Length > 0
      modifies db
      ensures db.status == Closed
      ensures var r := PaidBlock(old(db.Now()), q, Ys(inputs[..]), sigs, fee, preimage);
        Ends(old(db.Now()), r, db.Now(), ok, f.Writes(5, inputs.Length), f)
    {
      ok := db.Begin(f.begin);
      if !ok {
        return;
      }
      ok := MarkPaidInBlock(q, inputs, sigs, fee, preimage, f);
      if ok {
        ok := db.Commit(f.commit, f.leftOpen);
      }
      var _ := db.Rollback();
    }

    /** The change both ways of finishing store first: signatures in, the messages they answer out. */
    method StoreChangeInBlock(q: QuoteId, sigs: seq<RecoverSig>, f: Faults) returns (ok: bool)
      requires db.status == Open
      modifies db
      ensures db.before == old(db.before) && db.status != Closed && (ok ==> db.status == Open)
      ensures (sigs == [] || CanInsertSigs(old(db.sigs), sigs)) && !f.At(0) && !f.At(1) ==> ok
      ensures ok ==> sigs == [] || CanInsertSigs(old(db.sigs), sigs)
      ensures ok && sigs == [] ==> db.Now() == old(db.Now())
      ensures ok && sigs != [] ==>
        db.Now() == old(db.Now()).(sigs := old(db.sigs) + SigMap(sigs), change := old(db.change) - {q})
    {
      ok := true;
      if sigs != [] {
        ok := db.SaveRestoreSigs(sigs, f.At(0));
        if ok {
          ok := db.DeleteChangeByQuote(q, f.At(1));
        }
      }
    }

    /** What a block that marks a melt paid leaves, in whichever order its statements come. */
    ghost predicate Marks(
        before: Tables, now: Tables, q: QuoteId, ys: set<Point>, sigs: seq<RecoverSig>, fee: nat, preimage: string)
      requires q in before.melts
    {
      && (sigs == [] || CanInsertSigs(before.sigs, sigs))
      && now == MarkPaid(
           if sigs == [] then before else before.(sigs := before.sigs + SigMap(sigs), change := before.change - {q}),
           q, ys, fee, preimage)
    }

    /** The request's own order: the quote and its preimage, then the inputs. */
    method MarkPaidInBlock(
        q: QuoteId, inputs: array<Proof>, sigs: seq<RecoverSig>, fee: nat, preimage: string, f: Faults)
      returns (ok: bool)
      requires db.status == Open && q in db.melts && inputs.Length > 0
      modifies db
      ensures db.before == old(db.before) && db.status != Closed
      ensures (sigs == [] || CanInsertSigs(old(db.sigs), sigs)) && f.Statements(5, inputs.Length) ==>
        ok && db.status == Open
      ensures ok && db.status == Open ==> Marks(old(db.Now()), db.Now(), q, Ys(inputs[..]), sigs, fee, preimage)
    {
      ok := StoreChangeInBlock(q, sigs, f);
      if ok {
        ok := db.ChangeMeltRequestState(q, PAID, true, fee, f.At(2));
      }
      if ok {
        ok := db.AddPreimageMeltRequest(q, preimage, f.At(3));
      }
      if ok {
        ok := db.SetProofsState(inputs, ProofSpent, if f.At(4) then Some(0) else f.batch);
      }
    }

    /** The recovery's order: the inputs, then the quote and its preimage. */
    method MarkRecoveredInBlock(
        q: QuoteId, rows: array<Proof>, sigs: seq<RecoverSig>, fee: nat, preimage: string, f: Faults)
      returns (ok: bool)
      requires db.status == Open && q in db.melts && rows.Length > 0
      modifies db
      ensures db.before == old(db.before) && db.status != Closed
      ensures (sigs == [] || CanInsertSigs(old(db.sigs), sigs)) && f.Statements(5, rows.Length) ==>
        ok && db.status == Open
      ensures ok && db.status == Open ==> Marks(old(db.Now()), db.Now(), q, Ys(rows[..]), sigs, fee, preimage)
    {
      ok := StoreChangeInBlock(q, sigs, f);
      if ok {
        ok := db.SetProofsState(rows, ProofSpent, if f.At(2) then Some(0) else f.batch);
      }
      if ok {
        ok := db.ChangeMeltRequestState(q, PAID, true, fee, f.At(3));
      }
      if ok {
        ok := db.AddPreimageMeltRequest(q, preimage, f.At(4));
      }
    }

    // ----- mint quotes -----

    /** reconcileBolt11MintQuoteState, from a row read before. */
    method ReconcileMintQuoteState(
        m: QuoteId, request: MintQuote, status: PaymentStatus, f: Faults)
      returns (quote: Option<MintQuote>)
      requires db.status == Closed && m in db.mints
      modifies db
      ensures db.status == Closed
      ensures var t := ReconcileMint(old(db.Now()), m, status == SETTLED, status == FAILED, request.minted);
        && (quote.Some? ==> quote.value == t.mints[m] && db.Now() == t && !f.begin && f.commit == Committed)
        && (f.Writes(1, 0) && f.commit == Committed ==> quote.Some?)
        && (f.Writes(1, 0) && f.commit == AckLost ==> db.Now() == t)
        && (quote.None? && (f.begin || f.commit != AckLost) ==> db.Now() == old(db.Now()))
    {
      quote := None;
      var ok := db.Begin(f.begin);
      if !ok {
        return;
      }
      match status {
        case SETTLED => ok := db.ChangeMintRequestState(m, PAID, request.minted, f.At(0));
        case FAILED => ok := db.ChangeMintRequestState(m, UNPAID, request.minted, f.At(0));
        case WAITING =>
        case UNKNOWN =>
      }
      if ok {
        var row := db.mints[m];
        ok := db.Commit(f.commit, f.leftOpen);
        if ok {
          quote := Some(row);
        }
      }
      var _ := db.Rollback();
    }

    /** signMintOutputsAndMarkIssued. */
    method SignMintOutputsAndMarkIssued(
        m: QuoteId, outputs: seq<BlindedMessage>, f: Faults)
      returns (sigs: Option<seq<RecoverSig>>)
      requires db.status == Closed && m in db.mints
      modifies db
      ensures db.status == Closed
      ensures var r := IssueMint(keysets, old(db.Now()), m, outputs);
        && (sigs.Some? <==> r.Ok? && f.Writes(2, 0) && f.commit == Committed)
        && (sigs.Some? ==> sigs.value == SigsFor(outputs))
        && db.Now() == if r.Ok? && f.Writes(2, 0) && f.commit != NotApplied then r.value else old(db.Now())
    {
      var signed := SignBlindMessages(keysets, outputs);
      if signed.None? {
        return None;
      }
      var ok := db.Begin(f.begin);
      if !ok {
        return None;
      }
      ok := db.ChangeMintRequestState(m, ISSUED, true, f.At(0));
      if ok {
        ok := db.SaveRestoreSigs(signed.value, f.At(1));
      }
      if ok {
        ok := db.Commit(f.commit, f.leftOpen);
      }
      var _ := db.Rollback();
      sigs := if ok then signed else None;
    }
  }

  lemma SameYs(ps: seq<Proof>, qs: seq<Proof>, state: ProofState)
    requires qs == InState(ps, state)
    ensures Ys(ps) == Ys(qs)
  {
    forall y ensures y in Ys(ps) <==> y in Ys(qs) {
      if y in Ys(ps) {
        var i :| 0 <= i < |ps| && ps[i].y == y;
        assert qs[i].y == y;
      }
      if y in Ys(qs) {
        var i :| 0 <= i < |qs| && qs[i].y == y;
        assert ps[i].y == y;
      }
    }
  }

  /** Every invoice belongs to one mint quote. */
  ghost predicate UniqueInvoices(mints: map<QuoteId, MintQuote>)
  {
    forall m, k | m in mints && k in mints && m != k :: mints[m].request != mints[k].request
  }

  lemma OneInvoice(mints: map<QuoteId, MintQuote>, request: Invoice, m: QuoteId)
    requires UniqueInvoices(mints) && m in mints && mints[m].request == request
    ensures MintByRequest(mints, request) == Some(m)
  {
  }
}
