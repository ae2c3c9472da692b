/**
 * The preimage of a version-2 keyset id (NUT-02) in its two implementations, and the derivation path of a seed
 * (api/cashu/keys.go, internal/signer/local_signer/derivation.go, signatory.go). SHA-256 is a parameter.
 */
module KeysetId {
  import opened Prelude
  import opened Text

  datatype Entry = Entry(amount: nat, key: seq<byte>)

  type PubKeys = map<nat, seq<byte>>

  // ----- the order of the keys -----

  /** The comparison both implementations sort by: a difference of two uint64s as Go ints. */
  function Compare(a: nat, b: nat): int
  {
    ToInt64(Wrap(ToInt64(a) - ToInt64(b)))
  }

  lemma CompareIsOrder(a: nat, b: nat)
    requires a < TWO_63 && b < TWO_63
    ensures Compare(a, b) == a - b
  {
  }

  /** From 2^63 on it is no order at all: these three amounts go round in a circle. */
  lemma CompareCanCycle()
    ensures Compare(0, 1) < 0 && Compare(1, TWO_63) < 0 && Compare(TWO_63, 0) < 0
  {
  }

  ghost predicate Increasing(s: seq<Entry>)
  {
    forall i, j | 0 <= i < j < |s| :: s[i].amount < s[j].amount
  }

  /** The keys of a map by increasing amount. */
  ghost predicate Organized(s: seq<Entry>, keys: PubKeys)
  {
    && Increasing(s)
    && (forall i | 0 <= i < |s| :: s[i].amount in keys && keys[s[i].amount] == s[i].key)
    && (forall a | a in keys :: exists i :: 0 <= i < |s| && s[i].amount == a)
  }

  lemma {:induction false} OrganizedOnce(s: seq<Entry>, t: seq<Entry>, keys: PubKeys)
    requires Organized(s, keys) && Organized(t, keys)
    ensures s == t
    decreases |s|
  {
    hide Organized;
    if s == [] {
      if t != [] {
        OrganizedLast(t, s, keys);
      }
    } else {
      OrganizedLast(s, t, keys);
      var m, n := |s| - 1, |t| - 1;
      OrganizedInit(s, keys);
      OrganizedInit(t, keys);
      OrganizedOnce(s[..m], t[..n], keys - {s[m].amount});
      LastCompletes(s, t);
    }
  }

  lemma LastCompletes(s: seq<Entry>, t: seq<Entry>)
    requires s != [] && t != [] && s[..|s| - 1] == t[..|t| - 1] && s[|s| - 1] == t[|t| - 1]
    ensures s == t
  {
  }

  lemma OrganizedLast(s: seq<Entry>, t: seq<Entry>, keys: PubKeys)
    requires Organized(s, keys) && Organized(t, keys) && s != []
    ensures t != [] && s[|s| - 1] == t[|t| - 1]
  {
  }

  lemma OrganizedInit(s: seq<Entry>, keys: PubKeys)
    requires Organized(s, keys) && s != []
    ensures Organized(s[..|s| - 1], keys - {s[|s| - 1].amount})
  {
  }

  /** Where the comparison puts a new entry among the ones sorted so far. */
  method PlaceByCompare(s: seq<Entry>, e: Entry) returns (i: nat)
    requires Increasing(s) && e.amount < TWO_63
    requires forall k | 0 <= k < |s| :: s[k].amount < TWO_63 && s[k].amount != e.amount
    ensures i <= |s| && forall k | 0 <= k < i :: s[k].amount < e.amount
    ensures forall k | i <= k < |s| :: e.amount < s[k].amount
  {
    i := |s|;
    while i > 0 && Compare(e.amount, s[i - 1].amount) < 0
      invariant 0 <= i <= |s| && forall k | i <= k < |s| :: e.amount < s[k].amount
    {
      CompareIsOrder(e.amount, s[i - 1].amount);
      i := i - 1;
    }
    if i > 0 {
      CompareIsOrder(e.amount, s[i - 1].amount);
      hide Compare;
      assert forall k | 0 <= k < i - 1 :: s[k].amount < s[i - 1].amount;
    }
  }

  lemma Placed(s: seq<Entry>, e: Entry, i: nat)
    requires Increasing(s) && i <= |s|
    requires (forall k | 0 <= k < i :: s[k].amount < e.amount) && forall k | i <= k < |s| :: e.amount < s[k].amount
    ensures Increasing(s[..i] + [e] + s[i..])
    ensures forall x :: x in s[..i] + [e] + s[i..] <==> x in s || x == e
  {
  }

  /** Reads the map in whatever order it is ranged over, then sorts: the result depends on the map alone. */
  method SortPubkeyMapToOrganizedArray(keys: PubKeys) returns (s: seq<Entry>)
    requires forall a | a in keys :: a < TWO_63
    ensures Organized(s, keys)
  {
    s := [];
    var ahead := keys.Keys;
    while ahead != {}
      invariant ahead <= keys.Keys && Increasing(s)
      invariant forall e | e in s :: e.amount in keys.Keys - ahead && keys[e.amount] == e.key
      invariant forall a | a in keys.Keys - ahead :: Entry(a, keys[a]) in s
      decreases ahead
    {
      var a :| a in ahead;
      ahead := ahead - {a};
      assert forall k | 0 <= k < |s| :: s[k] in s;
      var i := PlaceByCompare(s, Entry(a, keys[a]));
      Placed(s, Entry(a, keys[a]), i);
      s := s[..i] + [Entry(a, keys[a])] + s[i..];
    }
    forall a | a in keys ensures exists i :: 0 <= i < |s| && s[i].amount == a {
      var i :| 0 <= i < |s| && s[i] == Entry(a, keys[a]);
    }
  }

  // ----- the preimage -----

  function EntryText(e: Entry): string
  {
    Decimal(e.amount) + ":" + Hex(e.key)
  }

  function EntryTexts(s: seq<Entry>): seq<string>
  {
    seq(|s|, i requires 0 <= i < |s| => EntryText(s[i]))
  }

  function SignedDecimal(n: int): string
  {
    if n < 0 then "-" + Decimal(-n) else Decimal(n)
  }

  function UnitField(unit: string): string
  {
    "unit:" + unit
  }

  function FeeField(fee: nat): string
  {
    "input_fee_ppk:" + Decimal(fee)
  }

  function ExpiryField(expiry: int): string
  {
    "final_expiry:" + SignedDecimal(expiry)
  }

  function Tail(fee: nat, expiry: Option<int>): seq<string>
  {
    (if fee > 0 then [FeeField(fee)] else []) + (if expiry.Some? then [ExpiryField(expiry.value)] else [])
  }

  /** The parts that '|' separates: keys, unit, and fee and expiry where there are any. */
  function Fields(s: seq<Entry>, unit: string, fee: nat, expiry: Option<int>): seq<string>
  {
    [Join(EntryTexts(s), ','), UnitField(unit)] + Tail(fee, expiry)
  }

  function Preimage(s: seq<Entry>, unit: string, fee: nat, expiry: Option<int>): string
  {
    Join(Fields(s, unit, fee, expiry), '|')
  }

  lemma {:induction false} JoinSnoc(parts: seq<string>, part: string, c: char)
    ensures Join(parts + [part], c) == if parts == [] then part else Join(parts, c) + [c] + part
  {
    if parts != [] {
      JoinSnoc(parts[1..], part, c);
      assert (parts + [part])[1..] == parts[1..] + [part];
      assert (parts + [part])[0] == parts[0];
    }
  }

  /** Everything after the keys, each field led by its separator. */
  function Ending(unit: string, fee: nat, expiry: Option<int>): string
  {
    "|" + UnitField(unit)
    + (if fee > 0 then "|" + FeeField(fee) else "")
    + (if expiry.Some? then "|" + ExpiryField(expiry.value) else "")
  }

  lemma PreimageShape(s: seq<Entry>, unit: string, fee: nat, expiry: Option<int>)
    ensures Preimage(s, unit, fee, expiry) == Join(EntryTexts(s), ',') + Ending(unit, fee, expiry)
  {
    var keys, u := Join(EntryTexts(s), ','), UnitField(unit);
    hide EntryTexts, Join, UnitField, FeeField, ExpiryField;
    if fee > 0 && expiry.Some? {
      var f, x := FeeField(fee), ExpiryField(expiry.value);
      JoinSnoc([keys, u, f], x, '|');
      assert [keys, u, f] + [x] == Fields(s, unit, fee, expiry);
      JoinThree(keys, u, f);
    } else if fee > 0 {
      JoinThree(keys, u, FeeField(fee));
      assert Fields(s, unit, fee, expiry) == [keys, u, FeeField(fee)];
    } else if expiry.Some? {
      JoinThree(keys, u, ExpiryField(expiry.value));
      assert Fields(s, unit, fee, expiry) == [keys, u, ExpiryField(expiry.value)];
    } else {
      JoinTwo(keys, u);
      assert Fields(s, unit, fee, expiry) == [keys, u];
    }
  }

  lemma JoinTwo(a: string, b: string)
    ensures Join([a, b], '|') == a + "|" + b
  {
  }

  lemma JoinThree(a: string, b: string, c: string)
    ensures Join([a, b, c], '|') == a + "|" + b + "|" + c
  {
    assert [a, b, c] == [a, b] + [c];
    JoinSnoc([a, b], c, '|');
    JoinTwo(a, b);
  }

  lemma KeysTextSnoc(s: seq<Entry>, e: Entry)
    ensures Join(EntryTexts(s + [e]), ',') == if s == [] then EntryText(e)
      else Join(EntryTexts(s), ',') + "," + EntryText(e)
    ensures Join(EntryTexts([]), ',') == ""
  {
    assert EntryTexts(s + [e]) == EntryTexts(s) + [EntryText(e)];
    JoinSnoc(EntryTexts(s), EntryText(e), ',');
    hide Join, EntryText;
  }

  lemma EntryIs(e: Entry)
    ensures EntryText(e) == Decimal(e.amount) + ":" + Hex(e.key)
  {
  }

  /** The source's loop: each entry, and a comma unless it is the last. */
  method KeysText(s: seq<Entry>) returns (preimage: string)
    ensures preimage == Join(EntryTexts(s), ',')
  {
    preimage := "";
    assert EntryTexts([]) == [];
    hide EntryText, EntryTexts;
    for i := 0 to |s|
      invariant preimage == Join(EntryTexts(s[..i]), ',') + (if 0 < i < |s| then "," else "")
    {
      assert s[..i + 1] == s[..i] + [s[i]];
      KeysTextSnoc(s[..i], s[i]);
      preimage := preimage + (Decimal(s[i].amount) + ":" + Hex(s[i].key));
      EntryIs(s[i]);
      if i != |s| - 1 {
        preimage := preimage + ",";
      }
    }
    assert s[..|s|] == s;
  }

  lemma EndingIs(keys: string, unit: string, fee: nat, expiry: Option<int>)
    ensures keys + Ending(unit, fee, expiry) ==
      keys + ("|" + UnitField(unit)) + (if fee > 0 then "|" + FeeField(fee) else "")
      + (if expiry.Some? then "|" + ExpiryField(expiry.value) else "")
  {
    hide UnitField, FeeField, ExpiryField;
    var a, b := "|" + UnitField(unit), if fee > 0 then "|" + FeeField(fee) else "";
    var c := if expiry.Some? then "|" + ExpiryField(expiry.value) else "";
    assert Ending(unit, fee, expiry) == a + b + c;
    assert keys + (a + b + c) == keys + a + b + c;
  }

  method GenerateKeysetV2Preimage(s: seq<Entry>, unit: string, fee: nat, expiry: Option<int>) returns (preimage: string)
    ensures preimage == Preimage(s, unit, fee, expiry)
  {
    hide Preimage, EntryTexts, Join, UnitField, FeeField, ExpiryField, Ending;
    PreimageShape(s, unit, fee, expiry);
    preimage := KeysText(s);
    EndingIs(preimage, unit, fee, expiry);
    var unitText := UnitText(unit);
    preimage := preimage + unitText;
    ghost var before := preimage;
    if fee > 0 {
      var feeText := FeeText(fee);
      preimage := preimage + feeText;
    }
    assert preimage == before + (if fee > 0 then "|" + FeeField(fee) else "");
    before := preimage;
    if expiry.Some? {
      var expiryText := ExpiryText(expiry.value);
      preimage := preimage + expiryText;
    }
    assert preimage == before + (if expiry.Some? then "|" + ExpiryField(expiry.value) else "");
  }

  // The source's formats.

  method UnitText(unit: string) returns (text: string)
    ensures text == "|" + UnitField(unit)
  {
    text := "|unit:" + unit;
  }

  method FeeText(fee: nat) returns (text: string)
    ensures text == "|" + FeeField(fee)
  {
    hide Decimal;
    text := "|input_fee_ppk:" + Decimal(fee);
  }

  method ExpiryText(unix: int) returns (text: string)
    ensures text == "|" + ExpiryField(unix)
  {
    hide Decimal;
    text := if unix < 0 then "-" + Decimal(-unix) else Decimal(unix);
    text := "|final_expiry:" + text;
  }

  // ----- nothing else has the same preimage -----

  lemma EntryTextInjective(a: Entry, b: Entry)
    ensures EntryText(a) == EntryText(b) <==> a == b
  {
    EntryIsJoin(a);
    EntryIsJoin(b);
    JoinInjective([Decimal(a.amount), Hex(a.key)], [Decimal(b.amount), Hex(b.key)], ':');
    DecimalInjective(a.amount, b.amount);
    HexInjective(a.key, b.key);
    hide Join, Hex, Decimal;
    if EntryText(a) == EntryText(b) {
      assert [Decimal(a.amount), Hex(a.key)][1] == [Decimal(b.amount), Hex(b.key)][1];
    }
  }

  lemma EntryIsJoin(e: Entry)
    ensures EntryText(e) == Join([Decimal(e.amount), Hex(e.key)], ':')
    ensures Lacks(Decimal(e.amount), ':') && Lacks(Hex(e.key), ':')
    ensures Lacks(EntryText(e), ',') && Lacks(EntryText(e), '|') && EntryText(e) != ""
  {
  }

  lemma EntriesInjective(s: seq<Entry>, t: seq<Entry>)
    requires Join(EntryTexts(s), ',') == Join(EntryTexts(t), ',')
    ensures s == t
  {
    forall e ensures Lacks(EntryText(e), ',') && EntryText(e) != "" {
      EntryIsJoin(e);
    }
    if s == [] || t == [] {
      JoinNotEmpty(EntryTexts(s));
      JoinNotEmpty(EntryTexts(t));
    } else {
      JoinInjective(EntryTexts(s), EntryTexts(t), ',');
      hide Join;
      forall i | 0 <= i < |s| ensures s[i] == t[i] {
        assert EntryTexts(s)[i] == EntryTexts(t)[i];
        EntryTextInjective(s[i], t[i]);
      }
    }
  }

  lemma JoinNotEmpty(parts: seq<string>)
    requires forall i | 0 <= i < |parts| :: parts[i] != ""
    ensures Join(parts, ',') == "" <==> parts == []
  {
  }

  lemma FieldsLack(s: seq<Entry>, unit: string, fee: nat, expiry: Option<int>)
    requires Lacks(unit, '|')
    ensures forall i | 0 <= i < |Fields(s, unit, fee, expiry)| :: Lacks(Fields(s, unit, fee, expiry)[i], '|')
  {
    forall e ensures Lacks(EntryText(e), '|') {
      EntryIsJoin(e);
    }
    JoinLacks(EntryTexts(s), ',', '|');
    TailLacks(fee, expiry);
    hide EntryText, EntryTexts, Join, Tail;
    assert Lacks(UnitField(unit), '|');
  }

  lemma TailLacks(fee: nat, expiry: Option<int>)
    ensures forall part | part in Tail(fee, expiry) :: Lacks(part, '|')
  {
  }

  /** Keys, unit, fee and expiry can all be read back, for every unit without '|'. */
  lemma PreimageInjective(
      s: seq<Entry>, unit: string, fee: nat, expiry: Option<int>, s': seq<Entry>, unit': string, fee': nat,
      expiry': Option<int>)
    requires Lacks(unit, '|') && Lacks(unit', '|')
    requires Preimage(s, unit, fee, expiry) == Preimage(s', unit', fee', expiry')
    ensures s == s' && unit == unit' && fee == fee' && expiry == expiry'
  {
    var f, f' := Fields(s, unit, fee, expiry), Fields(s', unit', fee', expiry');
    FieldsLack(s, unit, fee, expiry);
    FieldsLack(s', unit', fee', expiry');
    JoinInjective(f, f', '|');
    assert f[0] == f'[0] && f[1] == f'[1];
    EntriesInjective(s, s');
    assert f[1][5..] == unit && f'[1][5..] == unit';
    assert f[2..] == Tail(fee, expiry) && f'[2..] == Tail(fee', expiry');
    TailInjective(fee, expiry, fee', expiry');
  }

  lemma SignShows(n: int)
    ensures SignedDecimal(n) != [] && (SignedDecimal(n)[0] == '-' <==> n < 0)
    ensures n < 0 ==> SignedDecimal(n)[1..] == Decimal(-n)
  {
  }

  lemma SignedDecimalInjective(m: int, n: int)
    requires SignedDecimal(m) == SignedDecimal(n)
    ensures m == n
  {
    SignShows(m);
    SignShows(n);
    if m < 0 {
      DecimalInjective(-m, -n);
    } else {
      DecimalInjective(m, n);
    }
  }

  lemma TailKinds(fee: nat, expiry: Option<int>)
    ensures var t := Tail(fee, expiry);
      && (forall i | 0 <= i < |t| :: t[i] != "")
      && (fee > 0 <==> t != [] && t[0][0] == 'i')
      && |t| == (if fee > 0 then 1 else 0) + (if expiry.Some? then 1 else 0)
      && (fee > 0 ==> t[0][14..] == Decimal(fee))
      && (expiry.Some? ==> t[|t| - 1][13..] == SignedDecimal(expiry.value))
  {
  }

  lemma TailInjective(fee: nat, expiry: Option<int>, fee': nat, expiry': Option<int>)
    requires Tail(fee, expiry) == Tail(fee', expiry')
    ensures fee == fee' && expiry == expiry'
  {
    hide Tail, Decimal, SignedDecimal;
    TailKinds(fee, expiry);
    TailKinds(fee', expiry');
    if fee > 0 {
      DecimalInjective(fee, fee');
    }
    if expiry.Some? {
      SignedDecimalInjective(expiry.value, expiry'.value);
    }
  }

  /** The id depends on nothing but the key map, the unit, the fee and the expiry. */
  lemma PreimageIgnoresOrder(s: seq<Entry>, t: seq<Entry>, keys: PubKeys, unit: string, fee: nat, expiry: Option<int>)
    requires Organized(s, keys) && Organized(t, keys)
    ensures Preimage(s, unit, fee, expiry) == Preimage(t, unit, fee, expiry)
  {
    OrganizedOnce(s, t, keys);
  }

  // ----- the two implementations -----

  /** The signer's own copy lowers the unit; the shared one takes it as it is. */
  function SignerPreimage(s: seq<Entry>, unit: string, fee: nat, expiry: Option<int>): string
  {
    Preimage(s, ToLower(unit), fee, expiry)
  }

  predicate HasNoCapital(s: string)
  {
    forall i | 0 <= i < |s| :: !('A' <= s[i] <= 'Z')
  }

  lemma LowerIff(s: string)
    ensures ToLower(s) == s <==> HasNoCapital(s)
  {
    forall i | 0 <= i < |s| ensures LowerChar(s[i]) == s[i] <==> !('A' <= s[i] <= 'Z') {
    }
  }

  /** They agree exactly when the unit is lower case already. */
  lemma ImplementationsAgreeIff(s: seq<Entry>, unit: string, fee: nat, expiry: Option<int>)
    ensures SignerPreimage(s, unit, fee, expiry) == Preimage(s, unit, fee, expiry) <==> HasNoCapital(unit)
  {
    LowerIff(unit);
    PreimageShape(s, unit, fee, expiry);
    PreimageShape(s, ToLower(unit), fee, expiry);
    hide Preimage, Join, EntryTexts, FeeField, ExpiryField, ToLower, HasNoCapital;
    var tail := (if fee > 0 then "|" + FeeField(fee) else "")
      + (if expiry.Some? then "|" + ExpiryField(expiry.value) else "");
    EndingSplit(unit, fee, expiry, tail);
    EndingSplit(ToLower(unit), fee, expiry, tail);
    hide Ending;
    SameMiddle(Join(EntryTexts(s), ',') + "|unit:", unit, ToLower(unit), tail);
  }

  lemma EndingSplit(unit: string, fee: nat, expiry: Option<int>, tail: string)
    requires tail ==
      (if fee > 0 then "|" + FeeField(fee) else "") + (if expiry.Some? then "|" + ExpiryField(expiry.value) else "")
    ensures forall keys: string :: keys + Ending(unit, fee, expiry) == keys + "|unit:" + unit + tail
  {
    hide FeeField, ExpiryField;
    assert Ending(unit, fee, expiry) == "|unit:" + unit + tail;
    forall keys: string ensures keys + Ending(unit, fee, expiry) == keys + "|unit:" + unit + tail {
    }
  }

  lemma SameMiddle(head: string, a: string, b: string, tail: string)
    requires |a| == |b|
    ensures head + a + tail == head + b + tail <==> a == b
  {
    var p, q := head + a + tail, head + b + tail;
    assert p[|head|..|head| + |a|] == a && q[|head|..|head| + |b|] == b;
  }

  /** The names that a unit prints as. */
  const UNIT_NAMES: seq<string> := ["sat", "msat", "usd", "eur", "auth"]

  lemma NamesAreLower(unit: string)
    requires unit in UNIT_NAMES
    ensures ToLower(unit) == unit
  {
    LowerIff(unit);
  }

  /** The expiry of a stored seed: the time's int64 as a uint64. */
  function StoredExpiry(expiry: Option<int>): Option<nat>
  {
    match expiry case None => None case Some(e) => Some(Wrap(e))
  }

  /** The time made from a stored expiry: the uint64 as an int64. */
  function ReadExpiry(stored: Option<nat>): Option<int>
  {
    match stored case None => None case Some(e) => Some(ToInt64(e))
  }

  predicate IsTime(expiry: Option<int>)
  {
    expiry.Some? ==> expiry.value < TWO_63 && -expiry.value <= TWO_63
  }

  lemma ExpiryRoundTrip(expiry: Option<int>)
    requires IsTime(expiry)
    ensures ReadExpiry(StoredExpiry(expiry)) == expiry
  {
    if expiry.Some? && expiry.value < 0 {
      assert Wrap(expiry.value) == expiry.value + TWO_64;
    }
  }

  /** createNewSeed computes the id with the shared copy, before the expiry is stored. */
  function CreatedId(sha: string -> string, s: seq<Entry>, unit: string, fee: nat, expiry: Option<int>): string
  {
    "01" + sha(Preimage(s, unit, fee, expiry))
  }

  /** GetKeysetsFromSeeds recomputes it from the stored seed with the signer's copy at every start. */
  function StartupId(sha: string -> string, s: seq<Entry>, unit: string, fee: nat, stored: Option<nat>): string
  {
    "01" + sha(SignerPreimage(s, unit, fee, ReadExpiry(stored)))
  }

  /**
   * The start panics when the two ids differ. They agree, whatever order the keys are read in then and whatever the
   * expiry, exactly when the unit was written in lower case, provided the hash does not collide on the two preimages.
   */
  lemma StartupCheckIff(
      sha: string -> string, s: seq<Entry>, t: seq<Entry>, keys: PubKeys, unit: string, fee: nat, expiry: Option<int>)
    requires Organized(s, keys) && Organized(t, keys) && IsTime(expiry)
    requires var a, b := Preimage(s, unit, fee, expiry), SignerPreimage(s, unit, fee, expiry);
      sha(a) == sha(b) ==> a == b
    ensures StartupId(sha, t, unit, fee, StoredExpiry(expiry)) == CreatedId(sha, s, unit, fee, expiry)
      <==> HasNoCapital(unit)
  {
    hide Preimage, ToLower, Organized, HasNoCapital;
    OrganizedOnce(s, t, keys);
    ExpiryRoundTrip(expiry);
    ImplementationsAgreeIff(s, unit, fee, expiry);
    SamePrefix(sha(Preimage(s, unit, fee, expiry)), sha(SignerPreimage(s, unit, fee, expiry)));
    hide ReadExpiry, StoredExpiry, SignerPreimage;
  }

  lemma SamePrefix(a: string, b: string)
    ensures "01" + a == "01" + b <==> a == b
  {
    assert ("01" + a)[2..] == a && ("01" + b)[2..] == b;
  }

  /** So the check passes for every seed that createNewSeed makes: all five units, any fee, any expiry, any hash. */
  lemma StartupCheckSucceeds(
      sha: string -> string, s: seq<Entry>, t: seq<Entry>, keys: PubKeys, unit: string, fee: nat, expiry: Option<int>)
    requires Organized(s, keys) && Organized(t, keys) && IsTime(expiry) && unit in UNIT_NAMES
    ensures StartupId(sha, t, unit, fee, StoredExpiry(expiry)) == CreatedId(sha, s, unit, fee, expiry)
  {
    hide Preimage, ToLower, Organized;
    OrganizedOnce(s, t, keys);
    ExpiryRoundTrip(expiry);
    NamesAreLower(unit);
    hide ReadExpiry, StoredExpiry;
  }

  // ----- derivation paths -----

  const PEANUT: nat := 129372
  const HARDENED: nat := 0x8000_0000
  const TWO_32: nat := 0x1_0000_0000

  /** keyDerivation: purpose, unit and version, each marked as hardened. */
  function KeyDerivation(unitNumber: nat, version: nat): string
  {
    Join([Decimal(PEANUT) + "'", Decimal(unitNumber) + "'", Decimal(version) + "'"], '/')
  }

  /** One step of a path; the offset for a hardened one is added on uint32s. */
  function StepOf(part: string): Option<nat>
  {
    var pieces := Split(part, '\'');
    match ParseUint(pieces[0], TWO_32)
    case None => None
    case Some(index) => Some(if |pieces| == 2 then (HARDENED + index) % TWO_32 else index)
  }

  function StepsOf(parts: seq<string>): Option<seq<nat>>
  {
    if parts == [] then Some([])
    else
      match (StepsOf(parts[..|parts| - 1]), StepOf(parts[|parts| - 1]))
      case (Some(steps), Some(step)) => Some(steps + [step])
      case _ => None
  }

  lemma StepsSnoc(parts: seq<string>, part: string)
    ensures StepsOf(parts + [part]) ==
      if StepsOf(parts).Some? && StepOf(part).Some? then Some(StepsOf(parts).value + [StepOf(part).value]) else None
  {
  }

  method GetDerivationSteps(path: string) returns (steps: Option<array<nat>>)
    ensures steps.Some? <==> StepsOf(Split(path, '/')).Some?
    ensures steps.Some? ==> StepsOf(Split(path, '/')) == Some(steps.value[..])
  {
    var parts := Split(path, '/');
    var derivationPaths := new nat[|parts|];
    for i := 0 to |parts|
      invariant StepsOf(parts[..i]) == Some(derivationPaths[..i])
    {
      var step := StepOf(parts[i]);
      assert parts[..i + 1] == parts[..i] + [parts[i]];
      StepsSnoc(parts[..i], parts[i]);
      if step.None? {
        NoSteps(parts, i + 1);
        return None;
      }
      derivationPaths[i] := step.value;
      assert derivationPaths[..i + 1] == derivationPaths[..i] + [step.value];
    }
    assert parts[..|parts|] == parts && derivationPaths[..|parts|] == derivationPaths[..];
    steps := Some(derivationPaths);
  }

  lemma {:induction false} NoSteps(parts: seq<string>, n: nat)
    requires n <= |parts| && StepsOf(parts[..n]).None?
    ensures StepsOf(parts).None?
    decreases |parts|
  {
    if n < |parts| {
      assert parts[..|parts| - 1][..n] == parts[..n];
      NoSteps(parts[..|parts| - 1], n);
    } else {
      assert parts[..n] == parts;
    }
  }

  lemma HardenedStep(n: nat)
    requires n < TWO_32
    ensures StepOf(Decimal(n) + "'") == Some((HARDENED + n) % TWO_32) && Lacks(Decimal(n) + "'", '/')
  {
    SplitPrefix(Decimal(n), "", '\'');
    assert Decimal(n) + "'" == Decimal(n) + ['\''] + "";
    DecimalRoundTrip(n, TWO_32);
  }

  lemma BelowHardened(n: nat)
    requires n < TWO_32
    ensures (HARDENED + n) % TWO_32 == HARDENED + n <==> n < HARDENED
  {
  }

  lemma ThreeSteps(a: string, b: string, c: string, x: nat, y: nat, z: nat)
    requires StepOf(a) == Some(x) && StepOf(b) == Some(y) && StepOf(c) == Some(z)
    ensures StepsOf([a, b, c]) == Some([x, y, z])
  {
    assert StepsOf([]) == Some([]);
    hide StepOf, StepsOf;
    StepsSnoc([], a);
    StepsSnoc([a], b);
    StepsSnoc([a, b], c);
    assert [] + [a] == [a] && [a] + [b] == [a, b] && [a, b] + [c] == [a, b, c];
    assert [] + [x] + [y] + [z] == [x, y, z];
  }

  /** The path of a seed parses back to its three numbers; the version is a hardened index exactly below 2^31. */
  lemma PathRoundTrip(unitNumber: nat, version: nat)
    requires unitNumber < HARDENED && version < TWO_32
    ensures StepsOf(Split(KeyDerivation(unitNumber, version), '/'))
         == Some([0x8000_0000 + 129372, 0x8000_0000 + unitNumber, (0x8000_0000 + version) % 0x1_0000_0000])
    ensures (HARDENED + version) % TWO_32 == HARDENED + version <==> version < HARDENED
  {
    BelowHardened(PEANUT);
    BelowHardened(unitNumber);
    BelowHardened(version);
    hide StepOf, StepsOf, Decimal, Join, Split;
    HardenedStep(PEANUT);
    HardenedStep(unitNumber);
    HardenedStep(version);
    var a, b, c := Decimal(PEANUT) + "'", Decimal(unitNumber) + "'", Decimal(version) + "'";
    SplitOfJoin([a, b, c], '/');
    ThreeSteps(a, b, c, HARDENED + PEANUT, HARDENED + unitNumber, (HARDENED + version) % TWO_32);
  }
}
