/** Input fees (api/cashu/util.go). */
module Fees {
  import opened Prelude
  import opened Totals
  import opened Cashu

  function RoundUp(ppk: nat): nat
  {
    (ppk + 999) / 1000
  }

  predicate Known(ks: Keysets, proofs: seq<Proof>)
  {
    forall i | 0 <= i < |proofs| :: proofs[i].id in ks
  }

  /** What one proof adds to the fee, in thousandths. */
  function Ppk(ks: Keysets): Proof -> nat
  {
    (p: Proof) => if p.id in ks then ks[p.id].feePpk else 0
  }

  function FeeTotal(ks: Keysets, proofs: seq<Proof>): Option<nat>
  {
    if Known(ks, proofs) then Some(SumOf(Ppk(ks), proofs)) else None
  }

  /** The input fee: each proof looked up on its own, added up, rounded up to a whole unit. */
  function FeeOf(ks: Keysets, proofs: seq<Proof>): Option<nat>
  {
    match FeeTotal(ks, proofs)
    case Some(total) => Some(RoundUp(total))
    case None => None
  }

  datatype KeysetRow = KeysetRow(id: KeysetId, keyset: Keyset)

  /** The keyset list has a row for every keyset of the map, only such rows, and none with an empty id. */
  ghost predicate Lists(rows: seq<KeysetRow>, ks: Keysets)
  {
    && (forall i | 0 <= i < |rows| :: rows[i].id != "" && rows[i].id in ks && ks[rows[i].id] == rows[i].keyset)
    && (forall id | id in ks :: exists i :: 0 <= i < |rows| && rows[i].id == id)
  }

  /** The proofs from the first one on that names a keyset at all. */
  function FromFirstNamed(proofs: seq<Proof>): (rest: seq<Proof>)
    ensures |rest| <= |proofs| && rest == proofs[|proofs| - |rest|..]
    ensures forall i | 0 <= i < |proofs| - |rest| :: proofs[i].id == ""
    ensures rest != [] ==> rest[0].id != ""
  {
    if proofs != [] && proofs[0].id == "" then FromFirstNamed(proofs[1..]) else proofs
  }

  const NO_KEYSET := KeysetRow("", Keyset(Sat, 0, false))

  /** The inner search: the last row with the id wins, and no such row leaves the keyset found before. */
  method SearchKeyset(
      rows: seq<KeysetRow>, before: KeysetRow, id: KeysetId, ghost ks: Keysets)
    returns (found: KeysetRow)
    requires Lists(rows, ks)
    requires before.id != id
    ensures id in ks ==> found == KeysetRow(id, ks[id])
    ensures id !in ks ==> found == before
  {
    found := before;
    for j := 0 to |rows|
      invariant found == before || (id in ks && found == KeysetRow(id, ks[id]))
      invariant found == before ==> forall k | 0 <= k < j :: rows[k].id != id
    {
      if rows[j].id == id {
        found := rows[j];
      }
    }
  }

  /**
   * The source's loop keeps the keyset found last and searches the list only when the id changes.
   * It starts from an empty keyset, so leading proofs with an empty id are never looked up.
   */
  method Fees(proofs: seq<Proof>, rows: seq<KeysetRow>, ghost ks: Keysets) returns (fee: Option<nat>)
    requires Lists(rows, ks)
    ensures fee == FeeOf(ks, FromFirstNamed(proofs))
  {
    var total := 0;
    var keysetToUse := NO_KEYSET;
    ghost var skipped := |proofs| - |FromFirstNamed(proofs)|;
    ghost var counted: seq<Proof> := [];
    FeeOfNothing(ks);
    hide FromFirstNamed, FeeTotal, FeeOf, Lists;
    for n := 0 to |proofs|
      invariant n <= skipped ==> keysetToUse == NO_KEYSET
      invariant n > skipped ==> keysetToUse.id in ks && ks[keysetToUse.id] == keysetToUse.keyset
      invariant counted == if n <= skipped then [] else proofs[skipped..n]
      invariant FeeTotal(ks, counted) == Some(total)
    {
      var proof := proofs[n];
      if keysetToUse.id != proof.id {
        keysetToUse := SearchKeyset(rows, keysetToUse, proof.id, ks);
        if keysetToUse.id != proof.id {
          assert n >= skipped;
          UnknownFound(ks, proofs, n);
          return None;
        }
      }
      total := total + keysetToUse.keyset.feePpk;
      if n >= skipped {
        FeeOfSnoc(ks, counted, proof);
        counted := counted + [proof];
      }
    }
    assert counted == FromFirstNamed(proofs);
    FeeOfTotal(ks, counted);
    fee := Some((total + 999) / 1000);
  }

  lemma FeeOfNothing(ks: Keysets)
    ensures FeeTotal(ks, []) == Some(0)
  {
  }

  lemma FeeOfTotal(ks: Keysets, proofs: seq<Proof>)
    requires FeeTotal(ks, proofs).Some?
    ensures FeeOf(ks, proofs) == Some((FeeTotal(ks, proofs).value + 999) / 1000)
  {
  }

  lemma FeeOfSnoc(ks: Keysets, proofs: seq<Proof>, p: Proof)
    requires FeeTotal(ks, proofs).Some? && p.id in ks
    ensures FeeTotal(ks, proofs + [p]) == Some(FeeTotal(ks, proofs).value + ks[p.id].feePpk)
  {
  }

  lemma UnknownFound(ks: Keysets, proofs: seq<Proof>, n: nat)
    requires |proofs| - |FromFirstNamed(proofs)| <= n < |proofs| && proofs[n].id !in ks
    ensures FeeOf(ks, FromFirstNamed(proofs)) == None
  {
  }

  /** The loop gives the per-proof fee, unless it skipped unnamed proofs and found all the others. */
  lemma FeeLoopIsPerProofIff(ks: Keysets, proofs: seq<Proof>)
    requires "" !in ks
    ensures FeeOf(ks, FromFirstNamed(proofs)) == FeeOf(ks, proofs)
       <==> (proofs != [] && proofs[0].id == "" ==> !Known(ks, FromFirstNamed(proofs)))
  {
  }

  lemma KnownIgnoresOrder(ks: Keysets, ps: seq<Proof>, qs: seq<Proof>)
    requires multiset(ps) == multiset(qs) && Known(ks, ps)
    ensures Known(ks, qs)
  {
    forall i | 0 <= i < |qs| ensures qs[i].id in ks {
      assert qs[i] in multiset(ps);
    }
  }

  /** The order of the inputs does not matter, although the loop's cached lookup depends on it. */
  lemma FeeIgnoresOrder(ks: Keysets, ps: seq<Proof>, qs: seq<Proof>)
    requires multiset(ps) == multiset(qs)
    ensures FeeOf(ks, ps) == FeeOf(ks, qs)
  {
    if Known(ks, ps) {
      KnownIgnoresOrder(ks, ps, qs);
      SumOfIgnoresOrder(Ppk(ks), ps, qs);
    } else if Known(ks, qs) {
      KnownIgnoresOrder(ks, qs, ps);
    }
  }

  function RoundedEach(parts: seq<nat>): seq<nat>
  {
    seq(|parts|, i requires 0 <= i < |parts| => RoundUp(parts[i]))
  }

  /** Rounding once over everything charges no more than rounding each part, and less than one unit a part less. */
  lemma {:induction false} RoundingEachPart(parts: seq<nat>)
    requires parts != []
    ensures RoundUp(Sum(parts)) <= Sum(RoundedEach(parts)) < RoundUp(Sum(parts)) + |parts|
  {
    var n := |parts| - 1;
    assert RoundedEach(parts)[..n] == RoundedEach(parts[..n]);
    if n > 0 {
      RoundingEachPart(parts[..n]);
    } else {
      assert parts[..n] == [] && RoundedEach(parts)[..n] == [];
    }
  }
}
