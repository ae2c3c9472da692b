/**
 * The tables as an object that statements update in place, with one transaction open at a time
 * (internal/database/postgresql). A statement that fails aborts its transaction: every later statement of the
 * transaction fails too, and a commit then applies nothing.
 */
module Database {
  import opened Prelude
  import opened Cashu
  import opened Store
  import opened World

  datatype TxStatus = Closed | Open | Aborted

  class Database {
    var proofs: ProofTable
    var melts: map<QuoteId, MeltQuote>
    var mints: map<QuoteId, MintQuote>
    var sigs: SigTable
    var change: map<QuoteId, seq<BlindedMessage>>
    var status: TxStatus
    var before: Tables

    constructor ()
      ensures Now() == Tables(map[], map[], map[], map[], map[]) && status == Closed
    {
      proofs, melts, mints, sigs, change := map[], map[], map[], map[], map[];
      status := Closed;
      before := Tables(map[], map[], map[], map[], map[]);
    }

    function Now(): Tables
      reads this
    {
      Tables(proofs, melts, mints, sigs, change)
    }

    // ----- transactions -----

    method Begin(fault: bool) returns (ok: bool)
      requires status == Closed
      modifies this
      ensures ok == !fault && Now() == old(Now())
      ensures ok ==> status == Open && before == old(Now())
      ensures !ok ==> status == Closed
    {
      ok := !fault;
      if ok {
        status, before := Open, Now();
      }
    }

    /** An aborted transaction cannot be committed; a refused one may be left open. */
    method Commit(c: Commit, leftOpen: bool) returns (ok: bool)
      requires status != Closed
      modifies this
      ensures ok <==> old(status) == Open && c == Committed
      ensures before == old(before)
      ensures old(status) == Open && c != NotApplied ==> Now() == old(Now()) && status == Closed
      ensures old(status) == Aborted || c == NotApplied ==>
        if leftOpen then status == Aborted else status == Closed && Now() == before
    {
      ok := status == Open && c == Committed;
      if status == Open && c != NotApplied {
        status := Closed;
      } else if leftOpen {
        status := Aborted;
      } else {
        Restore();
      }
    }

    method Restore()
      modifies this
      ensures Now() == before == old(before) && status == Closed
    {
      proofs, melts, mints, sigs, change := before.proofs, before.melts, before.mints, before.sigs, before.change;
      status := Closed;
    }

    /** Rolling back reports no error exactly when the transaction was still open. */
    method Rollback() returns (isNil: bool)
      modifies this
      ensures isNil <==> old(status) != Closed
      ensures status == Closed && before == old(before)
      ensures Now() == if isNil then before else old(Now())
    {
      isNil := status != Closed;
      if isNil {
        Restore();
      }
    }

    // ----- the proofs table -----

    /** One COPY of all rows: a repeated or known Y fails the whole statement. */
    method SaveProof(ps: array<Proof>, fault: bool) returns (ok: bool)
      requires status != Closed
      modifies this
      ensures ok <==> old(status) == Open && !fault && CanInsert(old(proofs), ps[..])
      ensures status == if ok then Open else Aborted
      ensures ok ==> DistinctYs(ps[..]) && Now() == old(Now()).(proofs := old(proofs) + RowMap(ps[..]))
      ensures before == old(before)
    {
      var rows := proofs;
      ok := status == Open && !fault;
      var i := 0;
      while i < ps.Length && ok
        invariant 0 <= i <= ps.Length && Now() == old(Now()) && status == old(status) && before == old(before)
        invariant ok ==> status == Open && !fault && CanInsert(proofs, ps[..i]) && rows == proofs + RowMap(ps[..i])
        invariant !ok && status == Open && !fault ==> !CanInsert(proofs, ps[..])
      {
        if ps[i].y in rows {
          ok := false;
          NotInsertable(proofs, ps[..], i);
        } else {
          RowAdded(proofs, ps[..], i);
          rows := rows[ps[i].y := ps[i]];
        }
        i := i + 1;
      }
      if ok {
        assert ps[..i] == ps[..];
        proofs := rows;
      } else {
        status := Aborted;
      }
    }

    /**
     * A batch of one UPDATE for each proof. Only the result of its first statement is looked at: when a later one
     * fails the call still reports success, but the transaction is aborted.
     */
    method SetProofsState(ps: array<Proof>, state: ProofState, failAt: Option<nat>) returns (ok: bool)
      requires status != Closed
      modifies this
      ensures ok <==> ps.Length > 0 && old(status) == Open && failAt != Some(0)
      ensures status == BatchEnd(old(status), ps.Length, failAt) && before == old(before)
      ensures status == Open ==> Now() == old(Now()).(proofs := SetState(old(proofs), Ys(ps[..]), state))
    {
      ok := ps.Length > 0 && status == Open && failAt != Some(0);
      SetStateNothing(proofs, state);
      for i := 0 to ps.Length
        invariant status == BatchEnd(old(status), i, failAt) && before == old(before)
        invariant status == Open ==> Now() == old(Now()).(proofs := SetState(old(proofs), Ys(ps[..i]), state))
      {
        if status == Open {
          if failAt == Some(i) {
            status := Aborted;
          } else {
            SetStateSnoc(old(proofs), ps[..], i, state);
            if ps[i].y in proofs {
              proofs := proofs[ps[i].y := proofs[ps[i].y].(state := state)];
            }
          }
        }
      }
      assert ps[..ps.Length] == ps[..];
    }

    /** The same batch shape, with DELETE. */
    method DeleteProofs(ps: array<Proof>, failAt: Option<nat>) returns (ok: bool)
      requires status != Closed
      modifies this
      ensures ok <==> ps.Length > 0 && old(status) == Open && failAt != Some(0)
      ensures status == BatchEnd(old(status), ps.Length, failAt) && before == old(before)
      ensures status == Open ==> Now() == old(Now()).(proofs := old(proofs) - Ys(ps[..]))
    {
      ok := ps.Length > 0 && status == Open && failAt != Some(0);
      assert proofs - Ys(ps[..0]) == proofs;
      for i := 0 to ps.Length
        invariant status == BatchEnd(old(status), i, failAt) && before == old(before)
        invariant status == Open ==> Now() == old(Now()).(proofs := old(proofs) - Ys(ps[..i]))
      {
        if status == Open {
          if failAt == Some(i) {
            status := Aborted;
          } else {
            YsSnoc(ps[..], i);
            assert old(proofs) - Ys(ps[..i + 1]) == old(proofs) - Ys(ps[..i]) - {ps[i].y};
            proofs := proofs - {ps[i].y};
          }
        }
      }
      assert ps[..ps.Length] == ps[..];
    }

    // ----- signatures and change messages: COPY in a loop of three tries -----

    /** After a failed try the transaction is aborted, so the other two tries cannot succeed. */
    method SaveRestoreSigs(rows: seq<RecoverSig>, fault: bool) returns (ok: bool)
      requires status != Closed
      modifies this
      ensures ok <==> old(status) == Open && !fault && CanInsertSigs(old(sigs), rows)
      ensures status == if ok then Open else Aborted
      ensures ok ==> Now() == old(Now()).(sigs := old(sigs) + SigMap(rows))
      ensures before == old(before)
    {
      var tries := 0;
      while true
        invariant tries <= 2 && before == old(before)
        invariant tries == 0 ==> Now() == old(Now()) && status == old(status)
        invariant tries > 0 ==> status == Aborted && !(old(status) == Open && !fault && CanInsertSigs(old(sigs), rows))
        decreases 3 - tries
      {
        tries := tries + 1;
        ok := CopySigs(rows, fault);
        if ok || tries >= 3 {
          return;
        }
      }
    }

    method CopySigs(rows: seq<RecoverSig>, fault: bool) returns (ok: bool)
      requires status != Closed
      modifies this
      ensures ok <==> old(status) == Open && !fault && CanInsertSigs(old(sigs), rows)
      ensures status == if ok then Open else Aborted
      ensures ok ==> Now() == old(Now()).(sigs := old(sigs) + SigMap(rows))
      ensures before == old(before)
    {
      var added := sigs;
      ok := status == Open && !fault;
      var i := 0;
      while i < |rows| && ok
        invariant 0 <= i <= |rows| && Now() == old(Now()) && status == old(status) && before == old(before)
        invariant ok ==> status == Open && !fault && CanInsertSigs(sigs, rows[..i]) && added == sigs + SigMap(rows[..i])
        invariant !ok && status == Open && !fault ==> !CanInsertSigs(sigs, rows)
      {
        if rows[i].b in added {
          ok := false;
          NotSignable(sigs, rows, i);
        } else {
          SigAdded(sigs, rows, i);
          added := added[rows[i].b := rows[i]];
        }
        i := i + 1;
      }
      if ok {
        assert rows[..i] == rows;
        sigs := added;
      } else {
        status := Aborted;
      }
    }

    method SaveMeltChange(q: QuoteId, msgs: seq<BlindedMessage>, fault: bool) returns (ok: bool)
      requires status != Closed
      modifies this
      ensures ok <==> old(status) == Open && !fault
      ensures status == if ok then Open else Aborted
      ensures ok ==> Now() == old(Now()).(change := AddChange(old(change), q, msgs))
      ensures before == old(before)
    {
      var tries := 0;
      while true
        invariant tries <= 2 && before == old(before)
        invariant tries == 0 ==> Now() == old(Now()) && status == old(status)
        invariant tries > 0 ==> status == Aborted && !(old(status) == Open && !fault)
        decreases 3 - tries
      {
        tries := tries + 1;
        ok := status == Open && !fault;
        if ok {
          if msgs != [] {
            change := change[q := (if q in change then change[q] else []) + msgs];
          }
          return;
        }
        status := Aborted;
        if tries >= 3 {
          return;
        }
      }
    }

    method DeleteChangeByQuote(q: QuoteId, fault: bool) returns (ok: bool)
      requires status != Closed
      modifies this
      ensures ok <==> old(status) == Open && !fault
      ensures status == if ok then Open else Aborted
      ensures ok ==> Now() == old(Now()).(change := old(change) - {q})
      ensures before == old(before)
    {
      ok := Statement(fault);
      if ok {
        change := change - {q};
      }
    }

    // ----- quotes -----

    method Statement(fault: bool) returns (ok: bool)
      requires status != Closed
      modifies this`status
      ensures ok <==> old(status) == Open && !fault
      ensures status == if ok then Open else Aborted
    {
      ok := status == Open && !fault;
      status := if ok then Open else Aborted;
    }

    /** UPDATE melt_request: an unknown quote is no error, and changes nothing. */
    method ChangeMeltRequestState(
        q: QuoteId, state: ActionState, melted: bool, feePaid: nat, fault: bool)
      returns (ok: bool)
      requires status != Closed
      modifies this
      ensures ok <==> old(status) == Open && !fault
      ensures status == if ok then Open else Aborted
      ensures ok ==> Now() == old(Now()).(melts :=
        if q in old(melts) then old(melts)[q := old(melts)[q].(state := state, melted := melted, feePaid := feePaid)]
          else old(melts))
      ensures before == old(before)
    {
      ok := Statement(fault);
      if ok && q in melts {
        melts := melts[q := melts[q].(state := state, melted := melted, feePaid := feePaid)];
      }
    }

    method AddPreimageMeltRequest(q: QuoteId, preimage: string, fault: bool) returns (ok: bool)
      requires status != Closed
      modifies this
      ensures ok <==> old(status) == Open && !fault
      ensures status == if ok then Open else Aborted
      ensures ok ==> Now() == old(Now()).(melts :=
        if q in old(melts) then old(melts)[q := old(melts)[q].(preimage := preimage)] else old(melts))
      ensures before == old(before)
    {
      ok := Statement(fault);
      if ok && q in melts {
        melts := melts[q := melts[q].(preimage := preimage)];
      }
    }

    method ChangeMintRequestState(m: QuoteId, state: ActionState, minted: bool, fault: bool) returns (ok: bool)
      requires status != Closed
      modifies this
      ensures ok <==> old(status) == Open && !fault
      ensures status == if ok then Open else Aborted
      ensures ok ==> Now() == old(Now()).(mints :=
        if m in old(mints) then old(mints)[m := old(mints)[m].(state := state, minted := minted)] else old(mints))
      ensures before == old(before)
    {
      ok := Statement(fault);
      if ok && m in mints {
        mints := mints[m := mints[m].(state := state, minted := minted)];
      }
    }

    /** SELECT ... WHERE request: some quote for the invoice, if there is one. */
    method GetMintRequestByRequest(request: Invoice) returns (m: Option<QuoteId>)
      ensures m.Some? ==> m.value in mints && mints[m.value].request == request
      ensures m.None? ==> forall k | k in mints :: mints[k].request != request
    {
      var rest := mints.Keys;
      m := None;
      while rest != {}
        invariant rest <= mints.Keys
        invariant forall k | k in mints && k !in rest :: mints[k].request != request
        decreases |rest|
      {
        var k :| k in rest;
        if mints[k].request == request {
          return Some(k);
        }
        rest := rest - {k};
      }
    }
  }

  lemma NotInsertable(m: ProofTable, ps: seq<Proof>, i: nat)
    requires i < |ps| && CanInsert(m, ps[..i]) && ps[i].y in m + RowMap(ps[..i])
    ensures !CanInsert(m, ps)
  {
  }

  lemma RowAdded(m: ProofTable, ps: seq<Proof>, i: nat)
    requires i < |ps| && CanInsert(m, ps[..i]) && ps[i].y !in m + RowMap(ps[..i])
    ensures CanInsert(m, ps[..i + 1])
    ensures m + RowMap(ps[..i + 1]) == (m + RowMap(ps[..i]))[ps[i].y := ps[i]]
  {
    hide RowMap;
    assert ps[..i + 1] == ps[..i] + [ps[i]];
    NewRowInsertable(m, ps[..i], ps[i]);
    RowMapSnoc(ps[..i], ps[i]);
    UnionThenUpdate(m, RowMap(ps[..i]), ps[i].y, ps[i]);
  }

  lemma NewRowInsertable(m: ProofTable, ps: seq<Proof>, p: Proof)
    requires CanInsert(m, ps) && p.y !in m + RowMap(ps)
    ensures CanInsert(m, ps + [p]) && DistinctYs(ps + [p])
  {
  }

  lemma RowMapSnoc(ps: seq<Proof>, p: Proof)
    requires DistinctYs(ps) && DistinctYs(ps + [p])
    ensures RowMap(ps + [p]) == RowMap(ps)[p.y := p]
  {
    var longer := ps + [p];
    assert longer[..|ps|] == ps && longer[..|ps| + 1] == longer;
    YsSnoc(longer, |ps|);
    forall i | 0 <= i < |longer| ensures RowMap(ps)[p.y := p][longer[i].y] == longer[i] {
      assert i < |ps| ==> ps[i] == longer[i] && longer[i].y != longer[|ps|].y;
    }
    hide RowMap, Ys;
    RowMapIs(RowMap(ps)[p.y := p], longer);
  }

  lemma RowMapIs(m: ProofTable, ps: seq<Proof>)
    requires DistinctYs(ps) && m.Keys == Ys(ps) && forall i | 0 <= i < |ps| :: m[ps[i].y] == ps[i]
    ensures m == RowMap(ps)
  {
  }

  /** How a batch of statements leaves its transaction when the one at `failAt` fails. */
  function BatchEnd(status: TxStatus, n: nat, failAt: Option<nat>): TxStatus
  {
    if status == Open && failAt.Some? && failAt.value < n then Aborted else status
  }

  lemma YsSnoc(ps: seq<Proof>, i: nat)
    requires i < |ps|
    ensures Ys(ps[..i + 1]) == Ys(ps[..i]) + {ps[i].y}
  {
  }

  lemma SetStateNothing(m: ProofTable, state: ProofState)
    ensures SetState(m, Ys([]), state) == m
  {
  }

  lemma SetStateSnoc(m: ProofTable, ps: seq<Proof>, i: nat, state: ProofState)
    requires i < |ps|
    ensures var shorter := SetState(m, Ys(ps[..i]), state);
      SetState(m, Ys(ps[..i + 1]), state)
      == if ps[i].y in shorter then shorter[ps[i].y := shorter[ps[i].y].(state := state)] else shorter
  {
  }

  lemma NotSignable(m: SigTable, rows: seq<RecoverSig>, i: nat)
    requires i < |rows| && CanInsertSigs(m, rows[..i]) && rows[i].b in m + SigMap(rows[..i])
    ensures !CanInsertSigs(m, rows)
  {
  }

  lemma SigAdded(m: SigTable, rows: seq<RecoverSig>, i: nat)
    requires i < |rows| && CanInsertSigs(m, rows[..i]) && rows[i].b !in m + SigMap(rows[..i])
    ensures CanInsertSigs(m, rows[..i + 1])
    ensures m + SigMap(rows[..i + 1]) == (m + SigMap(rows[..i]))[rows[i].b := rows[i]]
  {
    hide SigMap;
    assert rows[..i + 1] == rows[..i] + [rows[i]];
    NewSigInsertable(m, rows[..i], rows[i]);
    SigMapSnoc(rows[..i], rows[i]);
    UnionThenUpdate(m, SigMap(rows[..i]), rows[i].b, rows[i]);
  }

  lemma NewSigInsertable(m: SigTable, rows: seq<RecoverSig>, r: RecoverSig)
    requires CanInsertSigs(m, rows) && r.b !in m + SigMap(rows)
    ensures CanInsertSigs(m, rows + [r]) && DistinctBs(rows + [r])
  {
  }

  lemma SigMapSnoc(rows: seq<RecoverSig>, r: RecoverSig)
    requires DistinctBs(rows) && DistinctBs(rows + [r])
    ensures SigMap(rows + [r]) == SigMap(rows)[r.b := r]
  {
    var longer := rows + [r];
    forall k ensures k in SigMap(longer) <==> k in SigMap(rows)[r.b := r] {
      SigKey(rows, k);
      SigKey(longer, k);
      assert longer[|rows|] == r;
      assert forall i | 0 <= i < |rows| :: longer[i] == rows[i];
    }
    forall i | 0 <= i < |longer| ensures SigMap(rows)[r.b := r][longer[i].b] == longer[i] {
      assert i < |rows| ==> rows[i] == longer[i] && longer[i].b != longer[|rows|].b;
    }
    hide SigMap;
    SigMapIs(SigMap(rows)[r.b := r], longer);
  }

  lemma SigKey(rows: seq<RecoverSig>, k: Point)
    requires DistinctBs(rows)
    ensures k in SigMap(rows) <==> exists i :: 0 <= i < |rows| && rows[i].b == k
  {
  }

  lemma SigMapIs(m: SigTable, rows: seq<RecoverSig>)
    requires DistinctBs(rows) && m.Keys == SigMap(rows).Keys
    requires forall i | 0 <= i < |rows| :: rows[i].b in m && m[rows[i].b] == rows[i]
    ensures m == SigMap(rows)
  {
  }
}
