/**
 * The signer's seeds and keysets: rotation, signing with active keysets, verifying with all of them
 * (internal/signer/local_signer/signer.go, derivation.go). Key derivation and the keyset id are fixed functions.
 */
module Signer {
  import opened Prelude
  import opened Cashu
  import opened Amounts
  import opened Transactions
  import opened World

  const TWO_32: nat := 0x1_0000_0000
  const MAX_KEYSET_AMOUNTS: nat := 32

  datatype Seed = Seed(id: KeysetId, unit: Unit, version: nat, active: bool, feePpk: nat, amounts: seq<nat>)

  datatype MintKey = MintKey(id: KeysetId, unit: Unit, amount: nat, active: bool, feePpk: nat, priv: int)

  type KeyMap = map<nat, MintKey>

  /** What the master key determines: private keys by unit, version and index, and the id of a new seed. */
  datatype Master = Master(key: (Unit, nat, nat) -> int, id: (Unit, nat, nat) -> KeysetId)

  type Seeds = map<KeysetId, Seed>

  // ----- keysets from seeds -----

  /** 1, 2, 4 and so on. */
  function GetAmountsForKeysets(n: nat): (s: seq<nat>)
    ensures |s| == n
  {
    seq(n, i requires 0 <= i < n => Pow2(i))
  }

  ghost predicate Distinct(amounts: seq<nat>)
  {
    forall i, j | 0 <= i < j < |amounts| :: amounts[i] != amounts[j]
  }

  lemma {:induction false} Pow2Strict(i: nat, j: nat)
    requires i < j
    ensures Pow2(i) < Pow2(j)
    decreases j
  {
    if i < j - 1 {
      Pow2Strict(i, j - 1);
    }
  }

  lemma KeysetAmountsDistinct(n: nat)
    ensures Distinct(GetAmountsForKeysets(n))
  {
    forall i, j | 0 <= i < j < n ensures GetAmountsForKeysets(n)[i] != GetAmountsForKeysets(n)[j] {
      Pow2Strict(i, j);
    }
  }

  function KeyAt(k: Master, s: Seed, i: nat): MintKey
    requires i < |s.amounts|
  {
    MintKey(s.id, s.unit, s.amounts[i], s.active, s.feePpk, k.key(s.unit, s.version, i))
  }

  /** The keys of a seed, filed by amount. */
  ghost predicate KeysOf(k: Master, s: Seed, m: KeyMap)
  {
    && (forall i | 0 <= i < |s.amounts| :: s.amounts[i] in m && m[s.amounts[i]] == KeyAt(k, s, i))
    && (forall a | a in m :: a in s.amounts)
  }

  /** GenerateKeysets and the loop that files its result by amount. */
  method DeriveKeyset(k: Master, s: Seed) returns (m: KeyMap)
    requires Distinct(s.amounts)
    ensures KeysOf(k, s, m)
  {
    m := map[];
    for i := 0 to |s.amounts|
      invariant forall j | 0 <= j < i :: s.amounts[j] in m && m[s.amounts[j]] == KeyAt(k, s, j)
      invariant forall a | a in m :: a in s.amounts
    {
      m := m[s.amounts[i] := MintKey(s.id, s.unit, s.amounts[i], s.active, s.feePpk, k.key(s.unit, s.version, i))];
    }
  }

  // ----- rotation on the seeds -----

  /** The source's tracking: a version at or past the tracked one moves it on, as a uint32. */
  function Track(highest: nat, version: nat): nat
  {
    if highest <= version then (version + 1) % TWO_32 else highest
  }

  function Tracked(rows: seq<Seed>): nat
  {
    if rows == [] then 0 else Track(Tracked(rows[..|rows| - 1]), rows[|rows| - 1].version)
  }

  /** The version after the highest one of the unit. */
  ghost predicate IsNext(seeds: Seeds, unit: Unit, version: nat)
  {
    && (forall id | id in seeds && seeds[id].unit == unit :: seeds[id].version < version)
    && (version == 0 || exists id :: id in seeds && seeds[id].unit == unit && seeds[id].version == version - 1)
  }

  /** Every seed of the unit is switched off, and the new one added, switched on. */
  ghost function Rotated(seeds: Seeds, made: Seed): Seeds
  {
    var off := map id | id in seeds :: if seeds[id].unit == made.unit then seeds[id].(active := false) else seeds[id];
    off[made.id := made]
  }

  ghost predicate Newest(seeds: Seeds, id: KeysetId)
    requires id in seeds
  {
    && seeds[id].active
    && forall other | other in seeds && other != id && seeds[other].unit == seeds[id].unit ::
         !seeds[other].active && seeds[other].version < seeds[id].version
  }

  ghost predicate HasActive(seeds: Seeds, unit: Unit)
  {
    exists a :: a in seeds && seeds[a].unit == unit && seeds[a].active
  }

  ghost predicate WellFormed(seeds: Seeds)
  {
    forall id | id in seeds :: seeds[id].id == id && Distinct(seeds[id].amounts)
  }

  /** Each unit that has seeds has exactly one active seed, and its version is the highest. */
  ghost predicate OneActive(seeds: Seeds)
  {
    && (forall id | id in seeds && seeds[id].active :: Newest(seeds, id))
    && (forall id | id in seeds :: HasActive(seeds, seeds[id].unit))
  }

  datatype Rotation = Rotation(unit: Unit, feePpk: nat)

  function NewSeed(k: Master, unit: Unit, version: nat, feePpk: nat): Seed
  {
    Seed(k.id(unit, version, feePpk), unit, version, true, feePpk, GetAmountsForKeysets(MAX_KEYSET_AMOUNTS))
  }

  /** The rows are all the seeds of the unit, in any order, and nothing else. */
  ghost predicate AreOfUnit(seeds: Seeds, unit: Unit, rows: seq<Seed>)
  {
    && (forall s | s in rows :: s.id in seeds && seeds[s.id] == s && s.unit == unit)
    && (forall id | id in seeds && seeds[id].unit == unit :: seeds[id] in rows)
  }

  /** A rotation that goes through: the tracked version, a new id, and every older seed of the unit switched off. */
  ghost predicate RotatesBy(k: Master, seeds: Seeds, seeds': Seeds, r: Rotation, rows: seq<Seed>)
  {
    var made := NewSeed(k, r.unit, Tracked(rows), r.feePpk);
    AreOfUnit(seeds, r.unit, rows) && made.id !in seeds && seeds' == Rotated(seeds, made)
  }

  ghost predicate Rotates(k: Master, seeds: Seeds, seeds': Seeds, r: Rotation)
  {
    exists rows :: RotatesBy(k, seeds, seeds', r, rows)
  }

  /**
   * How the read of the old seeds ends: with all rows; without rows, its error dropped; or with an error that aborts
   * the transaction, so that every later statement fails.
   */
  datatype SeedRead = AllRows | NoRows | Aborted

  /** How a rotation ends: its read, any other statement up to COMMIT, COMMIT, and the read after it. */
  datatype RotateOutcome = RotateOutcome(read: SeedRead, fails: bool, commit: Commit, rereadFails: bool)

  /** The new seed is inserted: its id is a key of the table. */
  predicate Inserts(seeds: Seeds, made: Seed, o: RotateOutcome)
  {
    !o.read.Aborted? && !o.fails && made.id !in seeds
  }

  /** The seeds after COMMIT: without rows nothing is switched off. */
  ghost function Stored(seeds: Seeds, made: Seed, o: RotateOutcome): Seeds
  {
    if !Inserts(seeds, made, o) || o.commit == NotApplied then seeds
    else if o.read.AllRows? then Rotated(seeds, made)
    else seeds[made.id := made]
  }

  /** A rotation whatever fails in it: what it stores, and whether it reports success. */
  ghost predicate AttemptsBy(
      k: Master, seeds: Seeds, seeds': Seeds, r: Rotation, o: RotateOutcome, ok: bool, rows: seq<Seed>)
  {
    var made := NewSeed(k, r.unit, Tracked(rows), r.feePpk);
    && (if o.read.AllRows? then AreOfUnit(seeds, r.unit, rows) else rows == [])
    && seeds' == Stored(seeds, made, o)
    && (ok <==> Inserts(seeds, made, o) && o.commit == Committed && !o.rereadFails)
  }

  ghost predicate Attempts(k: Master, seeds: Seeds, seeds': Seeds, r: Rotation, o: RotateOutcome, ok: bool)
  {
    exists rows :: AttemptsBy(k, seeds, seeds', r, o, ok, rows)
  }

  /** A rotation that read its rows and reports success is one that goes through. */
  lemma AttemptRotates(k: Master, seeds: Seeds, seeds': Seeds, r: Rotation, o: RotateOutcome, ok: bool)
    requires Attempts(k, seeds, seeds', r, o, ok) && ok && o.read.AllRows?
    ensures Rotates(k, seeds, seeds', r)
  {
    var rows :| AttemptsBy(k, seeds, seeds', r, o, ok, rows);
    assert RotatesBy(k, seeds, seeds', r, rows);
    hide Rotated, AreOfUnit, NewSeed, Tracked;
  }

  /**
   * When the read failed and its error was dropped, one active seed a unit remains exactly if the unit had none
   * before.
   */
  lemma DroppedReadKeepsOneActiveIff(
      k: Master, seeds: Seeds, seeds': Seeds, r: Rotation, o: RotateOutcome, ok: bool)
    requires OneActive(seeds) && Attempts(k, seeds, seeds', r, o, ok) && o.read.NoRows? && seeds' != seeds
    ensures OneActive(seeds') <==> forall id | id in seeds :: seeds[id].unit != r.unit
  {
    var rows :| AttemptsBy(k, seeds, seeds', r, o, ok, rows);
    AddedAloneIff(seeds, NewSeed(k, r.unit, 0, r.feePpk));
    hide OneActive, GetAmountsForKeysets;
  }

  lemma AttemptGains(k: Master, seeds: Seeds, seeds': Seeds, r: Rotation, o: RotateOutcome)
    requires Attempts(k, seeds, seeds', r, o, true) && o.read.NoRows?
    ensures exists id :: Gained(k, seeds, seeds', r.unit, r.feePpk, id) && seeds'[id].version == 0
    ensures forall other | other in seeds :: other in seeds' && seeds'[other] == seeds[other]
  {
    var rows :| AttemptsBy(k, seeds, seeds', r, o, true, rows);
    var made := NewSeed(k, r.unit, 0, r.feePpk);
    assert Tracked(rows) == 0 && seeds' == seeds[made.id := made];
    assert Gained(k, seeds, seeds', r.unit, r.feePpk, made.id) by { hide Pow2; }
    hide Pow2;
  }

  lemma AddedAloneIff(seeds: Seeds, made: Seed)
    requires OneActive(seeds) && made.active && made.id !in seeds
    ensures OneActive(seeds[made.id := made]) <==> forall id | id in seeds :: seeds[id].unit != made.unit
  {
    var seeds' := seeds[made.id := made];
    if id :| id in seeds && seeds[id].unit == made.unit {
      assert HasActive(seeds, made.unit);
      var a :| a in seeds && seeds[a].unit == made.unit && seeds[a].active;
      assert a in seeds' && seeds'[a].active && a != made.id;
      assert made.id in seeds';
      assert !Newest(seeds', made.id);
    } else {
      forall id | id in seeds' && seeds'[id].active ensures Newest(seeds', id) {
        assert id in seeds ==> Newest(seeds, id);
      }
      forall id | id in seeds' ensures HasActive(seeds', seeds'[id].unit) {
        if id in seeds {
          assert HasActive(seeds, seeds[id].unit);
          var a :| a in seeds && seeds[a].unit == seeds[id].unit && seeds[a].active;
          assert a in seeds' && seeds'[a].active;
        } else {
          assert id in seeds' && seeds'[id].active;
        }
      }
    }
  }

  /**
   * After a rotation whose acknowledgement was lost, memory and disk sign differently exactly for what was switched
   * off.
   */
  lemma StaleSignsIff(seeds: Seeds, made: Seed, id: KeysetId, amount: nat)
    requires made.id !in seeds && id in seeds
    ensures (MaySign(seeds, id, amount) <==> MaySign(Rotated(seeds, made), id, amount))
       <==> !(MaySign(seeds, id, amount) && seeds[id].unit == made.unit)
  {
  }

  /** The seeds gained this one: active, of the unit and the fee asked for, with an amount for each power up to 2^31. */
  ghost predicate Gained(k: Master, seeds: Seeds, seeds': Seeds, unit: Unit, fee: nat, id: KeysetId)
  {
    && id !in seeds && seeds'.Keys == seeds.Keys + {id}
    && var s := seeds'[id];
       && s.id == id == k.id(unit, s.version, fee) && s.unit == unit && s.feePpk == fee && s.active
       && |s.amounts| == 32 && forall i | 0 <= i < 32 :: s.amounts[i] == Pow2(i)
  }

  /** A rotation in full: the seed gained has the next version, and the others of its unit are switched off. */
  ghost predicate GainedBy(k: Master, seeds: Seeds, seeds': Seeds, unit: Unit, fee: nat, id: KeysetId)
  {
    && Gained(k, seeds, seeds', unit, fee, id)
    && ((forall other | other in seeds && seeds[other].unit == unit :: seeds[other].version < TWO_32 - 1) ==>
          IsNext(seeds, unit, seeds'[id].version))
    && forall other | other in seeds ::
         seeds'[other] == if seeds[other].unit == unit then seeds[other].(active := false) else seeds[other]
  }

  lemma RotationGains(k: Master, seeds: Seeds, seeds': Seeds, r: Rotation) returns (id: KeysetId)
    requires Rotates(k, seeds, seeds', r) && Versions32(seeds)
    ensures GainedBy(k, seeds, seeds', r.unit, r.feePpk, id)
  {
    hide Tracked, IsNext, AreOfUnit, Versions32;
    var rows :| RotatesBy(k, seeds, seeds', r, rows);
    id := NewSeed(k, r.unit, Tracked(rows), r.feePpk).id;
    TrackedIsNextIff(seeds, r.unit, rows);
    MadeIsAdded(seeds, NewSeed(k, r.unit, Tracked(rows), r.feePpk));
    hide Pow2;
  }

  lemma MadeIsAdded(seeds: Seeds, made: Seed)
    requires made.id !in seeds
    ensures Rotated(seeds, made).Keys == seeds.Keys + {made.id} && Rotated(seeds, made)[made.id] == made
    ensures forall other | other in seeds ::
      var kept := seeds[other];
      Rotated(seeds, made)[other] == if kept.unit == made.unit then kept.(active := false) else kept
  {
  }

  /** Old seeds keep everything but their flag, in the unit rotated and in all others. */
  ghost predicate Keeps(seeds: Seeds, later: Seeds)
  {
    forall id | id in seeds :: id in later && later[id] == seeds[id].(active := later[id].active)
  }

  lemma RotatedNewest(seeds: Seeds, made: Seed, id: KeysetId)
    requires OneActive(seeds) && made.active && made.id !in seeds && IsNext(seeds, made.unit, made.version)
    requires id in Rotated(seeds, made) && Rotated(seeds, made)[id].active
    ensures Newest(Rotated(seeds, made), id)
  {
  }

  lemma RotatedHasActive(seeds: Seeds, made: Seed, unit: Unit)
    requires made.active && (unit == made.unit || HasActive(seeds, unit)) && made.id !in seeds
    ensures HasActive(Rotated(seeds, made), unit)
  {
    if unit == made.unit {
      assert made.id in Rotated(seeds, made);
    } else {
      var a :| a in seeds && seeds[a].unit == unit && seeds[a].active;
      assert a in Rotated(seeds, made);
    }
  }

  /** With the next version the new seed is the one active seed of its unit. */
  lemma NextIsActive(seeds: Seeds, made: Seed)
    requires OneActive(seeds) && made.active && made.id !in seeds && IsNext(seeds, made.unit, made.version)
    ensures OneActive(Rotated(seeds, made))
  {
    var seeds' := Rotated(seeds, made);
    forall id | id in seeds' && seeds'[id].active ensures Newest(seeds', id) {
      RotatedNewest(seeds, made, id);
    }
    forall id | id in seeds' ensures HasActive(seeds', seeds'[id].unit) {
      RotatedHasActive(seeds, made, seeds'[id].unit);
    }
  }

  lemma RotatesKeeps(k: Master, seeds: Seeds, seeds': Seeds, r: Rotation)
    requires Rotates(k, seeds, seeds', r)
    ensures Keeps(seeds, seeds') && (Versions32(seeds) ==> Versions32(seeds'))
    ensures forall id | id in seeds && seeds[id].unit != r.unit :: id in seeds' && seeds'[id] == seeds[id]
    ensures forall id | id in seeds && seeds[id].unit == r.unit :: id in seeds' && !seeds'[id].active
  {
    var rows :| RotatesBy(k, seeds, seeds', r, rows);
    TrackedFits(rows);
  }

  // ----- the version -----

  ghost predicate Versions32(seeds: Seeds)
  {
    forall id | id in seeds :: seeds[id].version < TWO_32
  }

  lemma TrackedFits(rows: seq<Seed>)
    ensures Tracked(rows) < TWO_32
  {
  }

  /** Below the last uint32, the tracked version is one past the highest. */
  lemma {:induction false} TrackedIsPast(rows: seq<Seed>)
    requires forall i | 0 <= i < |rows| :: rows[i].version < TWO_32 - 1
    ensures forall i | 0 <= i < |rows| :: rows[i].version < Tracked(rows)
    ensures Tracked(rows) == 0 || exists i :: 0 <= i < |rows| && rows[i].version == Tracked(rows) - 1
  {
    if rows != [] {
      var n := |rows| - 1;
      TrackedIsPast(rows[..n]);
      assert forall i | 0 <= i < n :: rows[..n][i] == rows[i];
    }
  }

  /**
   * So it is the next version exactly when no seed of the unit sits at the last uint32, whatever the order of the
   * rows.
   */
  lemma TrackedIsNextIff(seeds: Seeds, unit: Unit, rows: seq<Seed>)
    requires AreOfUnit(seeds, unit, rows) && Versions32(seeds)
    ensures IsNext(seeds, unit, Tracked(rows))
       <==> forall id | id in seeds && seeds[id].unit == unit :: seeds[id].version < TWO_32 - 1
  {
    TrackedFits(rows);
    if forall id | id in seeds && seeds[id].unit == unit :: seeds[id].version < TWO_32 - 1 {
      forall i | 0 <= i < |rows| ensures rows[i].version < TWO_32 - 1 {
        assert rows[i] in rows;
      }
      TrackedIsPast(rows);
      forall id | id in seeds && seeds[id].unit == unit ensures seeds[id].version < Tracked(rows) {
        assert seeds[id] in rows;
        var i :| 0 <= i < |rows| && rows[i] == seeds[id];
      }
      if Tracked(rows) != 0 {
        var i :| 0 <= i < |rows| && rows[i].version == Tracked(rows) - 1;
        assert rows[i] in rows;
      }
    }
    hide Tracked;
  }

  lemma {:induction false} NextExists(seeds: Seeds, unit: Unit) returns (v: nat)
    ensures IsNext(seeds, unit, v)
    decreases |seeds|
  {
    if seeds == map[] {
      v := 0;
    } else {
      var id :| id in seeds;
      var rest := seeds - {id};
      v := NextExists(rest, unit);
      assert forall other | other in seeds && other != id :: other in rest && rest[other] == seeds[other];
      if seeds[id].unit == unit && seeds[id].version >= v {
        v := seeds[id].version + 1;
      } else if v != 0 {
        var other :| other in rest && rest[other].unit == unit && rest[other].version == v - 1;
        assert other in seeds && seeds[other].version == v - 1;
      }
    }
  }

  lemma NextIsOne(seeds: Seeds, unit: Unit, v: nat, v': nat)
    requires IsNext(seeds, unit, v) && IsNext(seeds, unit, v')
    ensures v == v'
  {
  }

  // ----- what may sign and what still verifies -----

  ghost predicate MaySign(seeds: Seeds, id: KeysetId, amount: nat)
  {
    id in seeds && seeds[id].active && amount in seeds[id].amounts
  }

  /** A proof verifies under the key of its amount in its keyset, active or not. */
  ghost predicate Verifies(k: Master, check: (string, int, Point) -> bool, seeds: Seeds, p: Proof)
  {
    && p.id in seeds
    && exists i :: 0 <= i < |seeds[p.id].amounts| && seeds[p.id].amounts[i] == p.amount
                   && check(p.secret, k.key(seeds[p.id].unit, seeds[p.id].version, i), p.c)
  }

  /** A run of rotations, each of which succeeded. */
  ghost predicate SuccessfulRun(k: Master, states: seq<Seeds>, rs: seq<Rotation>)
  {
    |states| == |rs| + 1 && forall i | 0 <= i < |rs| :: Rotates(k, states[i], states[i + 1], rs[i])
  }

  ghost predicate Spared(rs: seq<Rotation>, unit: Unit)
  {
    forall r | r in rs :: r.unit != unit
  }

  ghost predicate Untouched(seeds: Seeds, later: Seeds, rs: seq<Rotation>)
  {
    forall id | id in seeds && Spared(rs, seeds[id].unit) :: id in later && later[id] == seeds[id]
  }

  /** How often the run rotates the unit. */
  function Times(unit: Unit, rs: seq<Rotation>): nat
  {
    if rs == [] then 0 else Times(unit, rs[..|rs| - 1]) + if rs[|rs| - 1].unit == unit then 1 else 0
  }

  /** Every unit's next version and the number of its rotations fit a uint32 together. */
  ghost predicate Room(seeds: Seeds, rs: seq<Rotation>)
  {
    forall unit, v: nat | Times(unit, rs) > 0 && IsNext(seeds, unit, v) :: v + Times(unit, rs) <= TWO_32
  }

  /** An inactive seed at the last uint32: no later one can be the newest of its unit. */
  ghost predicate Stuck(seeds: Seeds)
  {
    exists id :: id in seeds && seeds[id].version == TWO_32 - 1 && !seeds[id].active
  }

  lemma OneActiveIsNotStuck(seeds: Seeds)
    requires OneActive(seeds) && Versions32(seeds)
    ensures !Stuck(seeds)
  {
    forall id | id in seeds && !seeds[id].active ensures seeds[id].version < TWO_32 - 1 {
      var a :| a in seeds && seeds[a].unit == seeds[id].unit && seeds[a].active;
      assert Newest(seeds, a);
    }
  }

  lemma StuckStays(k: Master, seeds: Seeds, seeds': Seeds, r: Rotation)
    requires Stuck(seeds) && Rotates(k, seeds, seeds', r)
    ensures Stuck(seeds')
  {
    RotatesKeeps(k, seeds, seeds', r);
    var id :| id in seeds && seeds[id].version == TWO_32 - 1 && !seeds[id].active;
    assert id in seeds' && seeds'[id].version == TWO_32 - 1 && !seeds'[id].active;
    hide Rotates;
  }

  /** The next version of every unit moves on by its rotations. */
  ghost predicate NextMoves(seeds: Seeds, later: Seeds, rs: seq<Rotation>)
  {
    forall unit, v: nat | IsNext(seeds, unit, v) :: IsNext(later, unit, v + Times(unit, rs))
  }

  /** One more rotation, with room for it or without. */
  lemma OneMoreRotation(k: Master, first: Seeds, seeds: Seeds, seeds': Seeds, rs: seq<Rotation>)
    requires rs != [] && Rotates(k, seeds, seeds', rs[|rs| - 1])
    requires Versions32(first) && Versions32(seeds) && OneActive(seeds) && Room(first, rs[..|rs| - 1])
    requires NextMoves(first, seeds, rs[..|rs| - 1])
    ensures Room(first, rs) ==> OneActive(seeds') && NextMoves(first, seeds', rs)
    ensures !Room(first, rs) ==> Stuck(seeds')
  {
    hide OneActive, Rotates;
    var n := |rs| - 1;
    var unit := rs[n].unit;
    var v := NextExists(first, unit);
    var now := v + Times(unit, rs[..n]);
    assert IsNext(seeds, unit, now);
    RoomIff(first, rs, v);
    if now < TWO_32 {
      RotatesOn(k, seeds, seeds', rs[n], now);
      NextMovesFurther(first, seeds, seeds', rs, now);
    } else {
      NextFits(first, unit, v);
      RotatesKeeps(k, seeds, seeds', rs[n]);
      var id :| id in seeds && seeds[id].unit == unit && seeds[id].version == now - 1;
      assert id in seeds' && seeds'[id].version == now - 1 && !seeds'[id].active;
      RoomNow(first, rs, v);
    }
  }

  lemma NextFits(seeds: Seeds, unit: Unit, v: nat)
    requires Versions32(seeds) && IsNext(seeds, unit, v)
    ensures v <= TWO_32
  {
  }

  lemma RoomNow(first: Seeds, rs: seq<Rotation>, v: nat)
    requires rs != [] && Room(first, rs[..|rs| - 1]) && IsNext(first, rs[|rs| - 1].unit, v) && v <= TWO_32
    ensures v + Times(rs[|rs| - 1].unit, rs[..|rs| - 1]) <= TWO_32
  {
  }

  lemma RoomIff(first: Seeds, rs: seq<Rotation>, v: nat)
    requires rs != [] && Room(first, rs[..|rs| - 1]) && IsNext(first, rs[|rs| - 1].unit, v)
    ensures Room(first, rs) <==> v + Times(rs[|rs| - 1].unit, rs[..|rs| - 1]) < TWO_32
  {
    var unit := rs[|rs| - 1].unit;
    assert Times(unit, rs) == Times(unit, rs[..|rs| - 1]) + 1;
    forall u, w: nat | Times(u, rs) > 0 && IsNext(first, u, w) && v + Times(unit, rs) <= TWO_32
      ensures w + Times(u, rs) <= TWO_32
    {
      if u == unit {
        NextIsOne(first, unit, v, w);
      } else {
        assert Times(u, rs) == Times(u, rs[..|rs| - 1]);
      }
    }
    hide IsNext;
  }

  ghost predicate OthersKeep(seeds: Seeds, seeds': Seeds, unit: Unit)
  {
    forall u, w: nat | u != unit && IsNext(seeds, u, w) :: IsNext(seeds', u, w)
  }

  lemma RotatesOn(k: Master, seeds: Seeds, seeds': Seeds, r: Rotation, now: nat)
    requires OneActive(seeds) && Versions32(seeds) && Rotates(k, seeds, seeds', r) && IsNext(seeds, r.unit, now)
    requires now < TWO_32
    ensures OneActive(seeds') && IsNext(seeds', r.unit, now + 1)
    ensures OthersKeep(seeds, seeds', r.unit)
  {
    hide OneActive, Tracked, GetAmountsForKeysets, Rotated, IsNext, Versions32, OthersKeep;
    var rows :| RotatesBy(k, seeds, seeds', r, rows);
    var made := NewSeed(k, r.unit, Tracked(rows), r.feePpk);
    BelowTheLast(seeds, r.unit, now);
    hide AreOfUnit;
    TrackedIsNextIff(seeds, r.unit, rows);
    NextIsOne(seeds, r.unit, now, Tracked(rows));
    NextIsActive(seeds, made);
    MadeIsNext(seeds, made);
  }

  lemma BelowTheLast(seeds: Seeds, unit: Unit, now: nat)
    requires IsNext(seeds, unit, now) && now < TWO_32
    ensures forall id | id in seeds && seeds[id].unit == unit :: seeds[id].version < TWO_32 - 1
  {
  }

  lemma MadeIsNext(seeds: Seeds, made: Seed)
    requires made.id !in seeds && IsNext(seeds, made.unit, made.version)
    ensures IsNext(Rotated(seeds, made), made.unit, made.version + 1)
    ensures OthersKeep(seeds, Rotated(seeds, made), made.unit)
  {
    var seeds' := Rotated(seeds, made);
    assert made.id in seeds' && seeds'[made.id] == made;
    forall u, w: nat | u != made.unit && IsNext(seeds, u, w) ensures IsNext(seeds', u, w) {
      OtherNext(seeds, made, u, w);
    }
  }

  lemma OtherNext(seeds: Seeds, made: Seed, u: Unit, w: nat)
    requires u != made.unit && made.id !in seeds && IsNext(seeds, u, w)
    ensures IsNext(Rotated(seeds, made), u, w)
  {
    if w != 0 {
      var id :| id in seeds && seeds[id].unit == u && seeds[id].version == w - 1;
      assert id in Rotated(seeds, made) && Rotated(seeds, made)[id].version == w - 1;
    }
  }

  lemma NextMovesFurther(first: Seeds, seeds: Seeds, seeds': Seeds, rs: seq<Rotation>, now: nat)
    requires rs != [] && NextMoves(first, seeds, rs[..|rs| - 1]) && OthersKeep(seeds, seeds', rs[|rs| - 1].unit)
    requires IsNext(seeds, rs[|rs| - 1].unit, now) && IsNext(seeds', rs[|rs| - 1].unit, now + 1)
    ensures NextMoves(first, seeds', rs)
  {
    hide IsNext, Times, OthersKeep;
    var before, unit := rs[..|rs| - 1], rs[|rs| - 1].unit;
    forall u, v: nat | IsNext(first, u, v) ensures IsNext(seeds', u, v + Times(u, rs)) {
      hide NextMoves;
      MovesAt(first, seeds, before, u, v);
      LastTime(u, rs);
      OneFurther(seeds, seeds', unit, now, u, v + Times(u, before));
    }
  }

  lemma MovesAt(first: Seeds, seeds: Seeds, rs: seq<Rotation>, u: Unit, v: nat)
    requires NextMoves(first, seeds, rs) && IsNext(first, u, v)
    ensures IsNext(seeds, u, v + Times(u, rs))
  {
    hide IsNext, Times;
  }

  lemma OneFurther(seeds: Seeds, seeds': Seeds, unit: Unit, now: nat, u: Unit, w: nat)
    requires IsNext(seeds, unit, now) && IsNext(seeds', unit, now + 1) && OthersKeep(seeds, seeds', unit)
    requires IsNext(seeds, u, w)
    ensures IsNext(seeds', u, w + if u == unit then 1 else 0)
  {
    hide IsNext;
    if u == unit {
      NextIsOne(seeds, unit, now, w);
    }
  }

  lemma LastTime(unit: Unit, rs: seq<Rotation>)
    requires rs != []
    ensures Times(unit, rs) == Times(unit, rs[..|rs| - 1]) + if rs[|rs| - 1].unit == unit then 1 else 0
  {
  }

  /**
   * Over every run of rotations: old seeds unchanged but for their flag, other units than the rotated ones untouched;
   * and one active seed for each unit, the newest, exactly when the next versions and the rotations fit a uint32.
   */
  lemma {:induction false} RunOfRotations(k: Master, states: seq<Seeds>, rs: seq<Rotation>)
    requires SuccessfulRun(k, states, rs) && OneActive(states[0]) && Versions32(states[0])
    ensures Keeps(states[0], states[|rs|]) && Untouched(states[0], states[|rs|], rs) && Versions32(states[|rs|])
    ensures OneActive(states[|rs|]) <==> Room(states[0], rs)
    ensures Room(states[0], rs) ==> NextMoves(states[0], states[|rs|], rs)
    ensures !Room(states[0], rs) ==> Stuck(states[|rs|])
  {
    if rs == [] {
      return;
    }
    var n := |rs| - 1;
    RunOfRotations(k, states[..n + 1], rs[..n]);
    assert Rotates(k, states[n], states[n + 1], rs[n]);
    hide OneActive, Rotates, Room, Stuck, NextMoves, Versions32;
    RotatesKeeps(k, states[n], states[n + 1], rs[n]);
    UntouchedFurther(states[0], states[n], states[n + 1], rs);
    if Room(states[0], rs[..n]) {
      OneMoreRotation(k, states[0], states[n], states[n + 1], rs);
    } else {
      StuckStays(k, states[n], states[n + 1], rs[n]);
      if Room(states[0], rs) {
        RoomBefore(states[0], rs);
      }
    }
    if OneActive(states[n + 1]) {
      OneActiveIsNotStuck(states[n + 1]);
    }
  }

  lemma RoomBefore(seeds: Seeds, rs: seq<Rotation>)
    requires rs != [] && Room(seeds, rs)
    ensures Room(seeds, rs[..|rs| - 1])
  {
    hide IsNext;
  }

  lemma UntouchedFurther(a: Seeds, b: Seeds, c: Seeds, rs: seq<Rotation>)
    requires rs != [] && Untouched(a, b, rs[..|rs| - 1])
    requires forall id | id in b && b[id].unit != rs[|rs| - 1].unit :: id in c && c[id] == b[id]
    ensures Untouched(a, c, rs)
  {
  }

  /** The ledger's rotations with these units and fees, one after the other. */
  ghost function RotateAll(ks: Keysets, rs: seq<Rotation>, ids: seq<KeysetId>): Keysets
    requires |ids| == |rs|
  {
    if rs == [] then ks
    else
      var n := |rs| - 1;
      Rotate(RotateAll(ks, rs[..n], ids[..n]), ids[n], rs[n].unit, rs[n].feePpk)
  }

  lemma GainedIsRotation(k: Master, seeds: Seeds, seeds': Seeds, r: Rotation, id: KeysetId)
    requires GainedBy(k, seeds, seeds', r.unit, r.feePpk, id)
    ensures AsKeysets(seeds') == Rotate(AsKeysets(seeds), id, r.unit, r.feePpk)
  {
    hide IsNext, Pow2;
  }

  /** Over every run, the keysets are what the ledger's rotations make of them, each with its own unit and fee. */
  lemma {:induction false} RunIsTheLedgers(k: Master, states: seq<Seeds>, rs: seq<Rotation>)
    returns (ids: seq<KeysetId>)
    requires SuccessfulRun(k, states, rs) && Versions32(states[0])
    ensures |ids| == |rs| && AsKeysets(states[|rs|]) == RotateAll(AsKeysets(states[0]), rs, ids)
    ensures forall i | 0 <= i < |rs| :: ids[i] !in states[i] && ids[i] in states[i + 1]
    ensures Versions32(states[|rs|])
  {
    hide Rotates, AsKeysets, Rotate, Versions32, GainedBy, Gained;
    ids := [];
    if rs != [] {
      var n := |rs| - 1;
      ids := RunIsTheLedgers(k, states[..n + 1], rs[..n]);
      assert Rotates(k, states[n], states[n + 1], rs[n]);
      assert states[..n + 1][n] == states[n];
      var id := RotationGains(k, states[n], states[n + 1], rs[n]);
      GainedIsRotation(k, states[n], states[n + 1], rs[n], id);
      GainedIsNew(k, states[n], states[n + 1], rs[n], id);
      RotatesKeeps(k, states[n], states[n + 1], rs[n]);
      ids := ids + [id];
    }
  }

  lemma GainedIsNew(k: Master, seeds: Seeds, seeds': Seeds, r: Rotation, id: KeysetId)
    requires GainedBy(k, seeds, seeds', r.unit, r.feePpk, id)
    ensures id !in seeds && id in seeds'
  {
  }

  /** So a proof that verified once verifies after every later rotation. */
  lemma StillVerifies(k: Master, check: (string, int, Point) -> bool, states: seq<Seeds>, rs: seq<Rotation>, p: Proof)
    requires SuccessfulRun(k, states, rs) && Verifies(k, check, states[0], p)
    ensures Verifies(k, check, states[|rs|], p)
  {
    RunKeeps(k, states, rs);
    hide SuccessfulRun;
  }

  lemma {:induction false} RunKeeps(k: Master, states: seq<Seeds>, rs: seq<Rotation>)
    requires SuccessfulRun(k, states, rs)
    ensures Keeps(states[0], states[|rs|])
  {
    if rs != [] {
      var n := |rs| - 1;
      RunKeeps(k, states[..n + 1], rs[..n]);
      assert Rotates(k, states[n], states[n + 1], rs[n]);
      hide Rotates;
      RotatesKeeps(k, states[n], states[n + 1], rs[n]);
    }
  }

  lemma FiledKey(k: Master, s: Seed, m: KeyMap, a: nat)
    requires KeysOf(k, s, m) && a in m
    ensures m[a].amount == a && m[a].active == s.active && m[a].id == s.id && a in s.amounts
  {
  }

  lemma FiledAmounts(k: Master, s: Seed, m: KeyMap, a: nat)
    requires KeysOf(k, s, m)
    ensures a in m <==> a in s.amounts
  {
  }

  lemma VerifiesWith(k: Master, check: (string, int, Point) -> bool, seeds: Seeds, p: Proof, m: KeyMap)
    requires p.id in seeds && Distinct(seeds[p.id].amounts) && KeysOf(k, seeds[p.id], m) && p.amount in m
    ensures Verifies(k, check, seeds, p) <==> check(p.secret, m[p.amount].priv, p.c)
  {
  }

  ghost function Ids(rows: seq<Seed>): set<KeysetId>
  {
    set i | 0 <= i < |rows| :: rows[i].id
  }

  /** The seeds with some of them switched off. */
  ghost function Without(seeds: Seeds, ids: set<KeysetId>): Seeds
  {
    map id | id in seeds :: if id in ids then seeds[id].(active := false) else seeds[id]
  }

  lemma WithoutNone(seeds: Seeds)
    ensures Without(seeds, Ids([])) == seeds
  {
  }

  lemma OneMoreOff(seeds: Seeds, rows: seq<Seed>, row: Seed)
    requires row.id in seeds && row == seeds[row.id].(active := false)
    ensures Without(seeds, Ids(rows + [row])) == Without(seeds, Ids(rows))[row.id := row]
  {
    assert Ids(rows + [row]) == Ids(rows) + {row.id} by {
      assert (rows + [row])[|rows|] == row;
      forall i | 0 <= i < |rows| ensures (rows + [row])[i].id == rows[i].id {
      }
    }
    hide Ids;
  }

  lemma UnitIds(seeds: Seeds, unit: Unit, was: seq<Seed>, rows: seq<Seed>)
    requires AreOfUnit(seeds, unit, was) && |rows| == |was|
    requires forall i | 0 <= i < |was| :: rows[i] == was[i].(active := false)
    ensures forall i | 0 <= i < |rows| :: rows[i].id in seeds && rows[i] == seeds[rows[i].id].(active := false)
    ensures WellFormed(seeds) ==> forall id | id in seeds :: id in Ids(rows) <==> seeds[id].unit == unit
  {
    assert forall i | 0 <= i < |was| :: was[i] in was;
    if WellFormed(seeds) {
      forall id | id in seeds ensures id in Ids(rows) <==> seeds[id].unit == unit {
        if seeds[id].unit == unit {
          var i :| 0 <= i < |was| && was[i] == seeds[id];
          assert rows[i].id == id;
        }
      }
    }
  }

  lemma IsStored(seeds: Seeds, made: Seed, was: seq<Seed>, rows: seq<Seed>, updated: Seeds, o: RotateOutcome)
    requires if o.read.AllRows? then AreOfUnit(seeds, made.unit, was) else was == []
    requires |rows| == |was| && forall i | 0 <= i < |was| :: rows[i] == was[i].(active := false)
    requires WellFormed(seeds) && Inserts(seeds, made, o)
    requires updated == Without(seeds, Ids(rows))[made.id := made]
    ensures Stored(seeds, made, o) == if o.commit == NotApplied then seeds else updated
  {
    if o.read.AllRows? {
      UnitIds(seeds, made.unit, was, rows);
      assert Without(seeds, Ids(rows))[made.id := made] == Rotated(seeds, made) by { hide Ids, AreOfUnit; }
    } else {
      assert rows == [];
      WithoutNone(seeds);
    }
    hide Without, Rotated, Ids, WellFormed, AreOfUnit;
  }

  lemma NothingStored(seeds: Seeds, made: Seed, o: RotateOutcome)
    requires !Inserts(seeds, made, o)
    ensures Stored(seeds, made, o) == seeds
  {
  }

  lemma StoredWellFormed(seeds: Seeds, made: Seed, o: RotateOutcome)
    requires WellFormed(seeds) && made.amounts == GetAmountsForKeysets(MAX_KEYSET_AMOUNTS)
    ensures WellFormed(Stored(seeds, made, o))
  {
    KeysetAmountsDistinct(MAX_KEYSET_AMOUNTS);
  }

  lemma AttemptedBy(
      k: Master, seeds: Seeds, seeds': Seeds, r: Rotation, o: RotateOutcome, ok: bool, rows: seq<Seed>)
    requires AttemptsBy(k, seeds, seeds', r, o, ok, rows)
    ensures Attempts(k, seeds, seeds', r, o, ok)
  {
  }

  lemma VerifiesHasKey(k: Master, check: (string, int, Point) -> bool, seeds: Seeds, p: Proof, m: KeyMap)
    requires p.id in seeds && KeysOf(k, seeds[p.id], m) && Verifies(k, check, seeds, p)
    ensures p.amount in m
  {
  }

  // ----- the keysets that the rest of the mint sees -----

  ghost function AsKeysets(seeds: Seeds): Keysets
  {
    map id | id in seeds :: Keyset(seeds[id].unit, seeds[id].feePpk, seeds[id].active)
  }

  /** Rotating the seeds is the keyset rotation of the ledger. */
  lemma RotationOfTheLedger(seeds: Seeds, made: Seed)
    requires made.active && made.id !in seeds
    ensures AsKeysets(Rotated(seeds, made)) == Rotate(AsKeysets(seeds), made.id, made.unit, made.feePpk)
  {
  }

  lemma {:induction false} Pow2Exponent(a: nat) returns (i: nat)
    requires IsPow2(a)
    ensures a == Pow2(i)
  {
    if a == 1 {
      i := 0;
    } else {
      var half := Pow2Exponent(a / 2);
      i := half + 1;
    }
  }

  lemma Pow2Of31()
    ensures Pow2(31) == MAX_KEYSET_AMOUNT
  {
    assert Pow2(4) == 16;
    Pow2Add(4, 4);
    Pow2Add(8, 8);
    Pow2Add(16, 8);
    Pow2Add(24, 4);
    assert Pow2(3) == 8;
    Pow2Add(28, 3);
  }

  /** The amounts of a keyset are the powers of two up to 2^31. */
  lemma KeysetAmounts(a: nat)
    ensures a in GetAmountsForKeysets(MAX_KEYSET_AMOUNTS) <==> IsKeysetAmount(a)
  {
    Pow2Of31();
    if IsKeysetAmount(a) {
      var i := Pow2Exponent(a);
      if i > 31 {
        Pow2Strict(31, i);
      }
      assert GetAmountsForKeysets(MAX_KEYSET_AMOUNTS)[i] == a;
    }
    if a in GetAmountsForKeysets(MAX_KEYSET_AMOUNTS) {
      var i :| 0 <= i < MAX_KEYSET_AMOUNTS && a == GetAmountsForKeysets(MAX_KEYSET_AMOUNTS)[i];
      Pow2IsPow2(i);
      Pow2Mono(i, 31);
    }
  }

  /** The signer signs exactly what the ledger takes it to sign. */
  lemma SignsWhatTheLedgerSigns(seeds: Seeds, ms: seq<BlindedMessage>)
    requires forall id | id in seeds :: seeds[id].amounts == GetAmountsForKeysets(MAX_KEYSET_AMOUNTS)
    ensures CanSign(AsKeysets(seeds), ms) <==> forall i | 0 <= i < |ms| :: MaySign(seeds, ms[i].id, ms[i].amount)
  {
    forall a ensures a in GetAmountsForKeysets(MAX_KEYSET_AMOUNTS) <==> IsKeysetAmount(a) {
      KeysetAmounts(a);
    }
    hide GetAmountsForKeysets, IsKeysetAmount;
  }

  // ----- the signer object -----

  datatype SignError = UnknownKeyset | UnknownAmount | Inactive

  /** The first message that is not signed: its keyset is not in use, or has no such amount. */
  ghost predicate FirstUnsigned(seeds: Seeds, ms: seq<BlindedMessage>, i: int, error: SignError)
  {
    && 0 <= i < |ms| && !MaySign(seeds, ms[i].id, ms[i].amount)
    && (forall k | 0 <= k < i :: MaySign(seeds, ms[k].id, ms[k].amount))
    && error == if ms[i].id in seeds && seeds[ms[i].id].active then UnknownAmount else UnknownKeyset
  }

  class LocalSigner {
    const master: Master
    var seeds: Seeds
    var keysets: map<KeysetId, KeyMap>
    var activeKeysets: map<KeysetId, KeyMap>

    constructor (k: Master)
      ensures master == k && seeds == map[] && Valid()
    {
      master, seeds, keysets, activeKeysets := k, map[], map[], map[];
    }

    /** The key maps in memory are the ones of these seeds. */
    ghost predicate Holds(loaded: Seeds)
      reads this
    {
      && WellFormed(loaded)
      && keysets.Keys == loaded.Keys && activeKeysets.Keys == (set id | id in loaded && loaded[id].active)
      && (forall id | id in loaded :: KeysOf(master, loaded[id], keysets[id]))
      && (forall id | id in activeKeysets :: activeKeysets[id] == keysets[id])
    }

    /** The key maps in memory are the ones of the seeds on disk. */
    ghost predicate Valid()
      reads this
    {
      Holds(seeds)
    }

    /** GetKeysetsFromSeeds, in whatever order the seeds come. */
    method LoadKeysets()
      requires WellFormed(seeds)
      modifies this`keysets, this`activeKeysets
      ensures Valid()
    {
      var all: map<KeysetId, KeyMap> := map[];
      var active: map<KeysetId, KeyMap> := map[];
      var ahead := seeds.Keys;
      while ahead != {}
        invariant ahead <= seeds.Keys && all.Keys == seeds.Keys - ahead
        invariant active.Keys == set id | id in all && seeds[id].active
        invariant forall id | id in all :: KeysOf(master, seeds[id], all[id])
        invariant forall id | id in active :: active[id] == all[id]
        decreases ahead
      {
        var id :| id in ahead;
        ahead := ahead - {id};
        var m := DeriveKeyset(master, seeds[id]);
        all := all[id := m];
        if seeds[id].active {
          active := active[id := m];
        }
      }
      keysets, activeKeysets := all, active;
    }

    /** The seeds of one unit, in whatever order the database gives them. */
    method GetSeedsByUnit(unit: Unit) returns (rows: array<Seed>)
      requires WellFormed(seeds)
      ensures fresh(rows)
      ensures forall s | s in rows[..] :: s.id in seeds && seeds[s.id] == s && s.unit == unit
      ensures forall id | id in seeds && seeds[id].unit == unit :: seeds[id] in rows[..]
    {
      var found: seq<Seed> := [];
      var ahead := seeds.Keys;
      while ahead != {}
        invariant ahead <= seeds.Keys
        invariant forall s | s in found :: s.id in seeds && seeds[s.id] == s && s.unit == unit
        invariant forall id | id in seeds.Keys - ahead && seeds[id].unit == unit :: seeds[id] in found
        decreases ahead
      {
        var id :| id in ahead;
        ahead := ahead - {id};
        if seeds[id].unit == unit {
          found := found + [seeds[id]];
        }
      }
      rows := new Seed[|found|](i requires 0 <= i < |found| => found[i]);
      assert rows[..] == found;
    }

    /** The loop that tracks the version to use and switches each row off, in place. */
    method SwitchOff(rows: array<Seed>) returns (highestSeedVersion: nat)
      modifies rows
      ensures highestSeedVersion == Tracked(old(rows[..])) < TWO_32
      ensures forall i | 0 <= i < rows.Length :: rows[i] == old(rows[i]).(active := false)
    {
      highestSeedVersion := 0;
      ghost var was := rows[..];
      for i := 0 to rows.Length
        invariant highestSeedVersion == Tracked(was[..i]) < TWO_32
        invariant forall k | 0 <= k < i :: rows[k] == was[k].(active := false)
        invariant forall k | i <= k < rows.Length :: rows[k] == was[k]
      {
        assert was[..i + 1][..i] == was[..i];
        if highestSeedVersion <= rows[i].version {
          highestSeedVersion := (rows[i].version + 1) % TWO_32;
        }
        rows[i] := rows[i].(active := false);
      }
      assert was[..rows.Length] == was;
    }

    /** The INSERT of the new seed and UPDATE seeds SET active, row by row. */
    method StoreSeeds(rows: array<Seed>, newSeed: Seed) returns (updated: Seeds)
      requires newSeed.id !in seeds
      requires forall i | 0 <= i < rows.Length :: rows[i].id in seeds && rows[i] == seeds[rows[i].id].(active := false)
      ensures updated == Without(seeds, Ids(rows[..]))[newSeed.id := newSeed]
    {
      updated := seeds[newSeed.id := newSeed];
      WithoutNone(seeds);
      assert rows[..0] == [];
      for i := 0 to rows.Length
        invariant updated == Without(seeds, Ids(rows[..i]))[newSeed.id := newSeed]
      {
        assert rows[..i + 1] == rows[..i] + [rows[i]];
        OneMoreOff(seeds, rows[..i], rows[i]);
        updated := updated[rows[i].id := rows[i]];
      }
      assert rows[..rows.Length] == rows[..];
      hide Without, Ids;
    }

    /**
     * Switches the old seeds of the unit off and saves a new one, with the tracked version, then derives all keysets
     * anew. When something fails on the way, the keysets in memory stay as they were, whatever became of the seeds on
     * disk.
     */
    method RotateKeyset(unit: Unit, fee: nat, o: RotateOutcome) returns (ok: bool)
      requires WellFormed(seeds)
      modifies this
      ensures WellFormed(seeds) && Attempts(master, old(seeds), seeds, Rotation(unit, fee), o, ok)
      ensures ok ==> Valid() && (o.read.AllRows? ==> Rotates(master, old(seeds), seeds, Rotation(unit, fee)))
      ensures ok && o.read.AllRows? && Versions32(old(seeds)) ==>
        exists id :: GainedBy(master, old(seeds), seeds, unit, fee, id)
      ensures ok && o.read.NoRows? ==>
        && (exists id :: Gained(master, old(seeds), seeds, unit, fee, id) && seeds[id].version == 0)
        && forall other | other in old(seeds) :: seeds[other] == old(seeds)[other]
      ensures !ok ==> keysets == old(keysets) && activeKeysets == old(activeKeysets)
    {
      hide KeysOf, Rotated, Distinct, WellFormed, Attempts, Rotates, Stored, AreOfUnit,
        Without, Ids, GainedBy, Gained, Versions32;
      var rows := ReadSeeds(unit, o.read);
      ghost var was := rows[..];
      var highestSeedVersion := SwitchOff(rows);
      var newSeed := NewSeed(master, unit, highestSeedVersion, fee);
      if o.read.Aborted? || o.fails || newSeed.id in seeds {
        NothingStored(seeds, newSeed, o);
        ok := false;
      } else {
        if o.read.AllRows? {
          UnitIds(seeds, unit, was, rows[..]);
        }
        var updated := StoreSeeds(rows, newSeed);
        IsStored(seeds, newSeed, was, rows[..], updated, o);
        StoredWellFormed(seeds, newSeed, o);
        if o.commit != NotApplied {
          seeds := updated;
        }
        ok := o.commit == Committed && !o.rereadFails;
        if ok {
          LoadKeysets();
        }
      }
      assert AttemptsBy(master, old(seeds), seeds, Rotation(unit, fee), o, ok, was);
      assert Attempts(master, old(seeds), seeds, Rotation(unit, fee), o, ok) by {
        AttemptedBy(master, old(seeds), seeds, Rotation(unit, fee), o, ok, was);
      }
      if ok && o.read.AllRows? {
        AttemptRotates(master, old(seeds), seeds, Rotation(unit, fee), o, ok);
        if Versions32(old(seeds)) {
          ghost var _ := RotationGains(master, old(seeds), seeds, Rotation(unit, fee));
        }
      }
      if ok && o.read.NoRows? {
        AttemptGains(master, old(seeds), seeds, Rotation(unit, fee), o);
      }
    }

    /** The old seeds of the unit; none when the read fails. */
    method ReadSeeds(unit: Unit, read: SeedRead) returns (rows: array<Seed>)
      requires WellFormed(seeds)
      ensures fresh(rows) && if read.AllRows? then AreOfUnit(seeds, unit, rows[..]) else rows[..] == []
    {
      if read.AllRows? {
        rows := GetSeedsByUnit(unit);
      } else {
        rows := new Seed[0];
      }
    }

    // ----- signing and verifying -----

    /** One signature for each message, or none at all; by the seeds as they were loaded. */
    method SignBlindMessages(
        sign: (int, Point) -> Point, ms: seq<BlindedMessage>, ghost loaded: Seeds)
      returns (r: Result<array<Point>, SignError>)
      requires Holds(loaded)
      ensures r.Ok? <==> forall i | 0 <= i < |ms| :: MaySign(loaded, ms[i].id, ms[i].amount)
      ensures r.Ok? ==> fresh(r.value) && r.value.Length == |ms| && forall i | 0 <= i < |ms| ::
        ms[i].id in keysets && ms[i].amount in keysets[ms[i].id]
          && r.value[i] == sign(keysets[ms[i].id][ms[i].amount].priv, ms[i].b)
      ensures r.Err? ==> exists i :: FirstUnsigned(loaded, ms, i, r.error)
    {
      hide KeysOf, WellFormed;
      var signatures := new Point[|ms|](_ => Point(0));
      for i := 0 to |ms|
        invariant forall k | 0 <= k < i :: MaySign(loaded, ms[k].id, ms[k].amount)
        invariant forall k | 0 <= k < i :: ms[k].id in keysets && ms[k].amount in keysets[ms[k].id]
                                           && signatures[k] == sign(keysets[ms[k].id][ms[k].amount].priv, ms[k].b)
      {
        if ms[i].id !in activeKeysets {
          assert FirstUnsigned(loaded, ms, i, UnknownKeyset);
          return Err(UnknownKeyset);
        }
        var keysetsByAmount := activeKeysets[ms[i].id];
        FiledAmounts(master, loaded[ms[i].id], keysetsByAmount, ms[i].amount);
        if ms[i].amount !in keysetsByAmount {
          assert FirstUnsigned(loaded, ms, i, UnknownAmount);
          return Err(UnknownAmount);
        }
        var correctKeyset := keysetsByAmount[ms[i].amount];
        FiledKey(master, loaded[ms[i].id], keysetsByAmount, ms[i].amount);
        if !correctKeyset.active {
          return Err(Inactive);
        }
        signatures[i] := sign(correctKeyset.priv, ms[i].b);
      }
      r := Ok(signatures);
    }

    /** The keys of the keyset are tried in any order until one has the proof's amount and id. */
    method ValidateProof(check: (string, int, Point) -> bool, p: Proof, ghost loaded: Seeds) returns (ok: bool)
      requires Holds(loaded)
      ensures ok <==> Verifies(master, check, loaded, p)
    {
      if p.id !in keysets {
        return false;
      }
      var keys := keysets[p.id];
      assert loaded[p.id].id == p.id;
      var ahead := keys.Keys;
      while ahead != {}
        invariant ahead <= keys.Keys && p.amount !in keys.Keys - ahead
        decreases ahead
      {
        var a :| a in ahead;
        ahead := ahead - {a};
        FiledKey(master, loaded[p.id], keys, a);
        assert keys[a].amount == a && keys[a].id == p.id;
        if keys[a].amount == p.amount && keys[a].id == p.id {
          VerifiesWith(master, check, loaded, p, keys);
          return check(p.secret, keys[a].priv, p.c);
        }
      }
      if Verifies(master, check, loaded, p) {
        VerifiesHasKey(master, check, loaded, p, keys);
      }
      return false;
    }
  }
}
