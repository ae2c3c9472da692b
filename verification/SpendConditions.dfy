/**
 * Spending conditions of NUT-11 (P2PK) and NUT-14 (HTLC) (api/cashu/proofs.go, spend_condition.go, swap.go). Signature
 * verification, key parsing, tag parsing and the preimage digest are parameters: nothing is assumed about them.
 */
module SpendConditions {
  import opened Prelude
  import opened Cashu

  datatype Signature = Signature(id: int)

  datatype SigFlag = SigUnset | SigAll | SigInputs

  datatype Tags = Tags(
    sigflag: SigFlag, pubkeys: seq<Point>, refund: seq<Point>, nSigs: nat, locktime: nat, nSigsRefund: nat)

  datatype Kind = P2PK | HTLC

  /** A parsed secret; its tags are kept as they were written, too. */
  datatype Condition = Condition(kind: Kind, data: string, originalTag: string)

  datatype Witness = Witness(preimage: string, signatures: seq<Signature>)

  datatype Env = Env(
    verify: (Signature, Point) -> bool,
    parseKey: string -> Option<Point>,
    parseTags: string -> Tags,
    digest: string -> Option<string>)

  datatype Verdict =
    Accepted | BadKey | BadPreimage | NoValidSignatures | NotEnoughSignatures | NotTheSame | TooManyKeys | BadSecretSize

  // ----- what the conditions mean -----

  /** The keys for which some signature verifies. */
  ghost function Signers(env: Env, keys: set<Point>, sigs: seq<Signature>): set<Point>
  {
    set k | k in keys && exists i :: 0 <= i < |sigs| && env.verify(sigs[i], k)
  }

  function Keys(list: seq<Point>): set<Point>
  {
    set i | 0 <= i < |list| :: list[i]
  }

  function Larger(a: nat, b: nat): nat
  {
    if a < b then b else a
  }

  predicate TimelockPassed(now: int, tags: Tags)
  {
    tags.locktime != 0 && now > ToInt64(tags.locktime)
  }

  function RefundThreshold(tags: Tags): nat
  {
    Larger(if tags.refund != [] then 1 else 0, tags.nSigsRefund)
  }

  ghost predicate RefundMet(env: Env, tags: Tags, sigs: seq<Signature>)
  {
    |Signers(env, Keys(tags.refund), sigs)| >= RefundThreshold(tags)
  }

  /** The keys that may sign: the one the secret is locked to, and the listed ones. */
  function SigningKeys(env: Env, c: Condition): Option<set<Point>>
  {
    var listed := Keys(env.parseTags(c.originalTag).pubkeys);
    match c.kind
    case HTLC => Some(listed)
    case P2PK =>
      match env.parseKey(c.data)
      case None => None
      case Some(key) => Some({key} + listed)
  }

  predicate PreimageMatches(env: Env, c: Condition, w: Witness)
  {
    env.digest(w.preimage) == Some(c.data)
  }

  ghost predicate EnoughSigners(env: Env, c: Condition, sigs: seq<Signature>, needed: nat)
  {
    SigningKeys(env, c).Some? && |Signers(env, SigningKeys(env, c).value, sigs)| >= needed
  }

  /** The main path: the lock's own key with its co-signers, or the preimage with its co-signers if there are any. */
  ghost predicate MainMet(env: Env, c: Condition, w: Witness)
  {
    var tags := env.parseTags(c.originalTag);
    match c.kind
    case P2PK => EnoughSigners(env, c, w.signatures, Larger(1, tags.nSigs))
    case HTLC =>
      PreimageMatches(env, c, w)
      && (tags.pubkeys == [] || EnoughSigners(env, c, w.signatures, Larger(1, tags.nSigs)))
  }

  /** May be spent: after the locktime by the refund keys, or at any time along the main path. */
  ghost predicate MaySpend(env: Env, c: Condition, w: Witness, now: int)
  {
    var tags := env.parseTags(c.originalTag);
    (TimelockPassed(now, tags) && RefundMet(env, tags, w.signatures)) || MainMet(env, c, w)
  }

  // ----- counting signatures -----

  /**
   * The loop all four checks share: for each signature, every key still in the map is tried, in whatever order the map
   * gives them, and a key that verifies is counted and deleted from the map while the map is being ranged over.
   */
  method CountSignatures(env: Env, keys: set<Point>, sigs: seq<Signature>) returns (count: nat)
    ensures count == |Signers(env, keys, sigs)|
  {
    var pubkeys := keys;
    count := 0;
    NoSigners(env, keys);
    for i := 0 to |sigs|
      invariant pubkeys == keys - Signers(env, keys, sigs[..i])
      invariant count == |Signers(env, keys, sigs[..i])|
    {
      ghost var start, counted := pubkeys, Signers(env, keys, sigs[..i]);
      var ahead := pubkeys;
      ghost var hits: set<Point> := {};
      while ahead != {}
        invariant ahead <= pubkeys <= start && hits == start - pubkeys
        invariant forall k | k in start - ahead :: k in hits <==> env.verify(sigs[i], k)
        invariant hits !! ahead && count == |counted| + |hits|
        decreases ahead
      {
        var pubkey :| pubkey in ahead;
        ahead := ahead - {pubkey};
        if env.verify(sigs[i], pubkey) {
          count := count + 1;
          pubkeys := pubkeys - {pubkey};
          hits := hits + {pubkey};
        }
      }
      OneMoreSignature(env, keys, sigs, i, hits);
    }
    assert sigs[..|sigs|] == sigs;
  }

  lemma NoSigners(env: Env, keys: set<Point>)
    ensures Signers(env, keys, []) == {}
  {
  }

  lemma OneMoreSignature(env: Env, keys: set<Point>, sigs: seq<Signature>, i: nat, hits: set<Point>)
    requires i < |sigs|
    requires hits == set k | k in keys - Signers(env, keys, sigs[..i]) && env.verify(sigs[i], k)
    ensures Signers(env, keys, sigs[..i + 1]) == Signers(env, keys, sigs[..i]) + hits
    ensures |Signers(env, keys, sigs[..i + 1])| == |Signers(env, keys, sigs[..i])| + |hits|
  {
    var shorter, longer := sigs[..i], sigs[..i + 1];
    forall k ensures k in Signers(env, keys, longer) <==> k in Signers(env, keys, shorter) + hits {
      if k in Signers(env, keys, longer) {
        var j :| 0 <= j <= i && env.verify(longer[j], k);
        assert j < i ==> shorter[j] == longer[j];
      }
      if k in Signers(env, keys, shorter) {
        var j :| 0 <= j < i && env.verify(shorter[j], k);
        assert longer[j] == shorter[j];
      }
      if k in hits {
        assert env.verify(longer[i], k);
      }
    }
  }

  /** Order and repetition of the signatures do not matter, only which there are. */
  lemma CountIgnoresOrder(env: Env, keys: set<Point>, sigs: seq<Signature>, others: seq<Signature>)
    requires forall s :: s in sigs <==> s in others
    ensures Signers(env, keys, sigs) == Signers(env, keys, others)
  {
    SignersGrow(env, keys, sigs, others);
    SignersGrow(env, keys, others, sigs);
  }

  lemma SignersGrow(env: Env, keys: set<Point>, sigs: seq<Signature>, more: seq<Signature>)
    requires forall s | s in sigs :: s in more
    ensures Signers(env, keys, sigs) <= Signers(env, keys, more)
  {
    forall k | k in Signers(env, keys, sigs) ensures k in Signers(env, keys, more) {
      var i :| 0 <= i < |sigs| && env.verify(sigs[i], k);
      assert sigs[i] in more;
      var j :| 0 <= j < |more| && more[j] == sigs[i];
      assert env.verify(more[j], k);
    }
  }

  lemma {:induction false} SmallerSet(a: set<Point>, b: set<Point>)
    requires a <= b
    ensures |a| <= |b|
  {
    assert b == a + (b - a);
  }

  // ----- one proof at a time -----

  /** The switch at the end of the counting loops of the main paths. */
  function Judge(needed: nat, count: nat): Verdict
  {
    if count == 0 then NoValidSignatures else if count < needed then NotEnoughSignatures else Accepted
  }

  ghost predicate NobodySigned(env: Env, keys: seq<Point>, sigs: seq<Signature>)
  {
    forall k, s | k in keys && s in sigs :: !env.verify(s, k)
  }

  ghost function TooFew(env: Env, keys: seq<Point>, sigs: seq<Signature>): Verdict
  {
    if NobodySigned(env, keys, sigs) then NoValidSignatures else NotEnoughSignatures
  }

  /** Why the lock's own way in is refused. */
  ghost function Refusal(env: Env, c: Condition, w: Witness): Verdict
  {
    var listed := env.parseTags(c.originalTag).pubkeys;
    match c.kind
    case P2PK =>
      (match env.parseKey(c.data)
       case None => BadKey
       case Some(key) => TooFew(env, [key] + listed, w.signatures))
    case HTLC =>
      if env.digest(w.preimage) != Some(c.data) then BadPreimage else TooFew(env, listed, w.signatures)
  }

  lemma NoSignersIff(env: Env, keys: seq<Point>, distinct: set<Point>, sigs: seq<Signature>)
    requires forall k :: k in distinct <==> k in keys
    ensures |Signers(env, distinct, sigs)| == 0 <==> NobodySigned(env, keys, sigs)
  {
    if !NobodySigned(env, keys, sigs) {
      var k, s :| k in keys && s in sigs && env.verify(s, k);
      var i :| 0 <= i < |sigs| && sigs[i] == s;
      assert k in Signers(env, distinct, sigs);
    } else {
      assert Signers(env, distinct, sigs) == {};
    }
  }

  method VerifyRefund(env: Env, tags: Tags, sigs: seq<Signature>) returns (v: Verdict)
    ensures v == Accepted <==> RefundMet(env, tags, sigs)
    ensures v != Accepted ==> v == TooFew(env, tags.refund, sigs)
  {
    NoSignersIff(env, tags.refund, Keys(tags.refund), sigs);
    hide NobodySigned;
    var nsigToCheck := if tags.refund != [] then 1 else 0;
    if tags.nSigsRefund > nsigToCheck {
      nsigToCheck := tags.nSigsRefund;
    }
    var count := CountSignatures(env, Keys(tags.refund), sigs);
    v := if nsigToCheck == 0 then Accepted else Judge(nsigToCheck, count);
  }

  method VerifyMainP2PK(env: Env, c: Condition, w: Witness) returns (v: Verdict)
    requires c.kind == P2PK
    ensures v == Accepted <==> MainMet(env, c, w)
    ensures v != Accepted ==> v == Refusal(env, c, w)
  {
    var keys := SigningKeys(env, c);
    if keys.Some? {
      NoSignersIff(
        env, [env.parseKey(c.data).value] + env.parseTags(c.originalTag).pubkeys, keys.value, w.signatures);
    }
    hide NobodySigned;
    if keys.None? {
      return BadKey;
    }
    var nsigToCheck := 1;
    if env.parseTags(c.originalTag).nSigs > nsigToCheck {
      nsigToCheck := env.parseTags(c.originalTag).nSigs;
    }
    var count := CountSignatures(env, keys.value, w.signatures);
    v := Judge(nsigToCheck, count);
  }

  method VerifyMainHTLC(env: Env, c: Condition, w: Witness) returns (v: Verdict)
    requires c.kind == HTLC
    ensures v == Accepted <==> MainMet(env, c, w)
    ensures v != Accepted ==> v == Refusal(env, c, w)
  {
    NoSignersIff(
      env, env.parseTags(c.originalTag).pubkeys, Keys(env.parseTags(c.originalTag).pubkeys), w.signatures);
    hide NobodySigned;
    if !PreimageMatches(env, c, w) {
      return BadPreimage;
    }
    var tags := env.parseTags(c.originalTag);
    if tags.pubkeys == [] {
      return Accepted;
    }
    var nsigToCheck := 1;
    if tags.nSigs > nsigToCheck {
      nsigToCheck := tags.nSigs;
    }
    var count := CountSignatures(env, Keys(tags.pubkeys), w.signatures);
    v := Judge(nsigToCheck, count);
  }

  /** VerifyP2PK and VerifyHTLC: the refund path is tried first and its error dropped. */
  method VerifyLock(env: Env, c: Condition, w: Witness, now: int) returns (v: Verdict)
    ensures v == Accepted <==> MaySpend(env, c, w, now)
    ensures v != Accepted ==> v == Refusal(env, c, w)
  {
    var tags := env.parseTags(c.originalTag);
    if TimelockPassed(now, tags) {
      v := VerifyRefund(env, tags, w.signatures);
      if v == Accepted {
        return;
      }
    }
    match c.kind {
      case P2PK => v := VerifyMainP2PK(env, c, w);
      case HTLC => v := VerifyMainHTLC(env, c, w);
    }
  }

  /** An input as it is presented: its secret, the condition the secret parses to if it does, and its witness. */
  datatype Input = Input(secret: string, condition: Option<Condition>, w: Witness)

  predicate KeysFit(tags: Tags)
  {
    |tags.pubkeys| + |tags.refund| <= 10
  }

  /** A plain secret has 64 characters; a locked one at most ten keys, and its condition must be met. */
  ghost predicate InputMaySpend(env: Env, p: Input, now: int)
  {
    match p.condition
    case None => |p.secret| == 64
    case Some(c) => KeysFit(env.parseTags(c.originalTag)) && MaySpend(env, c, p.w, now)
  }

  ghost function InputRefusal(env: Env, p: Input): Verdict
  {
    match p.condition
    case None => BadSecretSize
    case Some(c) => if !KeysFit(env.parseTags(c.originalTag)) then TooManyKeys else Refusal(env, c, p.w)
  }

  method VerifyProofCondition(env: Env, p: Input, now: int) returns (v: Verdict)
    ensures v == Accepted <==> InputMaySpend(env, p, now)
    ensures p.condition.None? ==> v == if |p.secret| == 64 then Accepted else BadSecretSize
    ensures p.condition.Some? ==> var tags := env.parseTags(p.condition.value.originalTag);
      |tags.pubkeys| + |tags.refund| > 10 ==> v == TooManyKeys
    ensures p.condition.Some? ==> var tags := env.parseTags(p.condition.value.originalTag);
      |tags.pubkeys| + |tags.refund| <= 10 ==> (v == Accepted <==> MaySpend(env, p.condition.value, p.w, now))
    ensures v != Accepted ==> v == InputRefusal(env, p)
  {
    if p.condition.None? {
      return if |p.secret| != 64 then BadSecretSize else Accepted;
    }
    if !KeysFit(env.parseTags(p.condition.value.originalTag)) {
      return TooManyKeys;
    }
    v := VerifyLock(env, p.condition.value, p.w, now);
  }

  /** The first input that may not be spent, and why. */
  ghost predicate FirstRefused(envOf: string -> Env, inputs: seq<Input>, now: int, i: int, v: Verdict)
  {
    && 0 <= i < |inputs| && !InputMaySpend(envOf(inputs[i].secret), inputs[i], now)
    && v == InputRefusal(envOf(inputs[i].secret), inputs[i])
    && forall j | 0 <= j < i :: InputMaySpend(envOf(inputs[j].secret), inputs[j], now)
  }

  /** Every input on its own; signatures are over the input's own secret. */
  method VerifyProofsSpendConditions(envOf: string -> Env, inputs: seq<Input>, now: int) returns (v: Verdict)
    ensures v == Accepted <==> forall i | 0 <= i < |inputs| :: InputMaySpend(envOf(inputs[i].secret), inputs[i], now)
    ensures v != Accepted ==> exists i :: FirstRefused(envOf, inputs, now, i, v)
  {
    hide InputMaySpend, InputRefusal;
    for i := 0 to |inputs|
      invariant forall k | 0 <= k < i :: InputMaySpend(envOf(inputs[k].secret), inputs[k], now)
    {
      v := VerifyProofCondition(envOf(inputs[i].secret), inputs[i], now);
      if v != Accepted {
        assert FirstRefused(envOf, inputs, now, i, v);
        return;
      }
    }
    v := Accepted;
  }

  /** More signatures and more time never turn an accepted witness away. */
  lemma MaySpendIsMonotone(env: Env, c: Condition, w: Witness, now: int, more: seq<Signature>, later: int)
    requires MaySpend(env, c, w, now) && now <= later && forall s | s in w.signatures :: s in more
    ensures MaySpend(env, c, w.(signatures := more), later)
  {
    var tags := env.parseTags(c.originalTag);
    MoreSigners(env, Keys(tags.refund), w.signatures, more);
    if SigningKeys(env, c).Some? {
      MoreSigners(env, SigningKeys(env, c).value, w.signatures, more);
    }
  }

  lemma MoreSigners(env: Env, keys: set<Point>, sigs: seq<Signature>, more: seq<Signature>)
    requires forall s | s in sigs :: s in more
    ensures |Signers(env, keys, sigs)| <= |Signers(env, keys, more)|
  {
    SignersGrow(env, keys, sigs, more);
    SmallerSet(Signers(env, keys, sigs), Signers(env, keys, more));
  }

  /** A locktime of 2^63 or more becomes a negative time, and so has always passed. */
  lemma TimelockIsExactIff(now: int, tags: Tags)
    requires 0 <= now < TWO_63 && tags.locktime < TWO_64
    ensures (TimelockPassed(now, tags) <==> tags.locktime != 0 && now > tags.locktime) <==> tags.locktime < TWO_63
  {
  }

  // ----- all inputs under one signature (SIG_ALL) -----

  datatype SigflagValidation = SigflagValidation(
    sigFlag: SigFlag, kind: Kind, pubkeys: set<Point>, refundPubkeys: set<Point>, required: nat, requiredRefund: nat)

  /** What checkForSigAll records of a condition with the flag; None if its key does not parse. */
  function ValidationOf(env: Env, c: Condition): Option<SigflagValidation>
  {
    var tags := env.parseTags(c.originalTag);
    match SigningKeys(env, c)
    case None => None
    case Some(keys) =>
      var asked := if tags.nSigs > 1 then tags.nSigs else if c.kind == P2PK then 1 else 0;
      Some(SigflagValidation(
        SigAll, c.kind, keys, Keys(tags.refund),
        if keys != {} && asked == 0 then 1 else asked,
        if tags.refund == [] then 0 else if tags.nSigsRefund > 1 then tags.nSigsRefund else 1))
  }

  predicate HasSigAll(env: Env, c: Condition)
  {
    env.parseTags(c.originalTag).sigflag == SigAll
  }

  /** The first input with the flag decides. */
  method CheckForSigAll(env: Env, inputs: seq<Condition>) returns (flagged: bool, v: Option<SigflagValidation>)
    ensures flagged <==> exists i :: 0 <= i < |inputs| && env.parseTags(inputs[i].originalTag).sigflag == SigAll
    ensures flagged <==> exists i :: 0 <= i < |inputs| && HasSigAll(env, inputs[i])
    ensures flagged ==> exists i :: 0 <= i < |inputs| && HasSigAll(env, inputs[i]) && v == ValidationOf(env, inputs[i])
                                    && forall j | 0 <= j < i :: !HasSigAll(env, inputs[j])
  {
    for i := 0 to |inputs|
      invariant forall j | 0 <= j < i :: !HasSigAll(env, inputs[j])
    {
      if env.parseTags(inputs[i].originalTag).sigflag == SigAll {
        assert HasSigAll(env, inputs[i]);
        return true, ValidationOf(env, inputs[i]);
      }
    }
    return false, None;
  }

  ghost predicate SigAllMet(env: Env, c: Condition, w: Witness, now: int)
  {
    var tags, v := env.parseTags(c.originalTag), ValidationOf(env, c);
    && v.Some?
    && (|| (TimelockPassed(now, tags) && |Signers(env, v.value.refundPubkeys, w.signatures)| >= v.value.requiredRefund)
        || ((c.kind == HTLC ==> PreimageMatches(env, c, w))
          && |Signers(env, v.value.pubkeys, w.signatures)| >= v.value.required))
  }

  /** All inputs repeat the first one's data and tags, as they were written. */
  predicate Repeats(inputs: seq<Condition>)
  {
    forall i | 0 <= i < |inputs| :: inputs[i].data == inputs[0].data && inputs[i].originalTag == inputs[0].originalTag
  }

  /** ValidateSigflag; `env.verify` checks signatures over the combined message. */
  method ValidateSigflag(env: Env, inputs: seq<Condition>, w: Witness, now: int) returns (v: Verdict)
    requires inputs != [] && exists i :: 0 <= i < |inputs| && HasSigAll(env, inputs[i])
    ensures v == Accepted <==> AllParse(env, inputs) && Repeats(inputs) && SigAllMet(env, inputs[0], w, now)
    ensures v != Accepted ==>
      v == if !AllParse(env, inputs) then BadKey
           else if !Repeats(inputs) then NotTheSame
           else if inputs[0].kind == HTLC && env.digest(w.preimage) != Some(inputs[0].data) then BadPreimage
           else NotEnoughSignatures
  {
    var _, validation := CheckForSigAll(env, inputs);
    if validation.None? {
      return BadKey;
    }
    for i := 0 to |inputs|
      invariant forall k | 0 <= k < i ::
        inputs[k].data == inputs[0].data && inputs[k].originalTag == inputs[0].originalTag
    {
      if inputs[i].data != inputs[0].data || inputs[i].originalTag != inputs[0].originalTag {
        return NotTheSame;
      }
    }
    var p := validation.value;
    if TimelockPassed(now, env.parseTags(inputs[0].originalTag)) {
      var refunds := CountSignatures(env, p.refundPubkeys, w.signatures);
      if refunds >= p.requiredRefund {
        return Accepted;
      }
    }
    if p.kind == HTLC && !PreimageMatches(env, inputs[0], w) {
      return BadPreimage;
    }
    var count := CountSignatures(env, p.pubkeys, w.signatures);
    v := if count < p.required then NotEnoughSignatures else Accepted;
  }

  /** The first flagged input has a key that parses. */
  ghost predicate AllParse(env: Env, inputs: seq<Condition>)
  {
    forall i | 0 <= i < |inputs| && HasSigAll(env, inputs[i])
      && (forall j | 0 <= j < i :: !HasSigAll(env, inputs[j])) ::
      SigningKeys(env, inputs[i]).Some?
  }

  // The three families in which the joint check and the check of the single condition part.

  predicate BadKeyFamily(env: Env, c: Condition)
  {
    SigningKeys(env, c).None?
  }

  predicate RefundFamily(env: Env, c: Condition, now: int)
  {
    var tags := env.parseTags(c.originalTag);
    TimelockPassed(now, tags) && tags.refund == [] && tags.nSigsRefund > 0
  }

  predicate HtlcFamily(env: Env, c: Condition, now: int)
  {
    var tags := env.parseTags(c.originalTag);
    c.kind == HTLC && tags.pubkeys == [] && tags.nSigs > 1 && !(TimelockPassed(now, tags) && tags.refund == [])
  }

  ghost predicate Refunds(env: Env, c: Condition, w: Witness, now: int)
  {
    TimelockPassed(now, env.parseTags(c.originalTag)) && RefundMet(env, env.parseTags(c.originalTag), w.signatures)
  }

  /** In its family the one check accepts and the other does not, for this witness. */
  ghost predicate PartsOn(env: Env, c: Condition, w: Witness, now: int)
  {
    if BadKeyFamily(env, c) then Refunds(env, c, w, now)
    else if RefundFamily(env, c, now) then !MainMet(env, c, w)
    else HtlcFamily(env, c, now) && PreimageMatches(env, c, w) && !Refunds(env, c, w, now)
  }

  /**
   * The joint check decides as the check of the single condition does, except where the key does not parse and the
   * refund is due, where a refund threshold without refund keys lets anybody in jointly, and where an HTLC without
   * keys asks for several signatures and its preimage is shown.
   */
  lemma SigAllAgreesIff(env: Env, c: Condition, w: Witness, now: int)
    ensures (SigAllMet(env, c, w, now) <==> MaySpend(env, c, w, now)) <==> !PartsOn(env, c, w, now)
  {
    var tags := env.parseTags(c.originalTag);
    assert tags.pubkeys != [] ==> tags.pubkeys[0] in Keys(tags.pubkeys);
    assert tags.pubkeys == [] ==> Keys(tags.pubkeys) == {};
    assert tags.refund == [] ==> Keys(tags.refund) == {};
    NoKeysNoSigners(env, w.signatures);
  }

  lemma NoKeysNoSigners(env: Env, sigs: seq<Signature>)
    ensures Signers(env, {}, sigs) == {}
  {
  }

  ghost predicate CanBeSignedFor(env: Env, k: Point)
  {
    exists s :: env.verify(s, k)
  }

  /** Every refund key can sign, and an HTLC's digest is that of some preimages and not of all. */
  ghost predicate Usable(env: Env, c: Condition)
  {
    && (forall k | k in Keys(env.parseTags(c.originalTag).refund) :: CanBeSignedFor(env, k))
    && (c.kind == HTLC ==>
          && (exists preimage :: env.digest(preimage) == Some(c.data))
          && (exists preimage :: env.digest(preimage) != Some(c.data)))
  }

  /** The families alone: a bad key with refund keys enough, a refund threshold without keys, a keyless HTLC. */
  predicate Parted(env: Env, c: Condition, now: int)
  {
    var tags := env.parseTags(c.originalTag);
    if BadKeyFamily(env, c) then TimelockPassed(now, tags) && |Keys(tags.refund)| >= RefundThreshold(tags)
    else RefundFamily(env, c, now) || HtlcFamily(env, c, now)
  }

  lemma {:induction false} AllSign(env: Env, keys: set<Point>) returns (sigs: seq<Signature>)
    requires forall k | k in keys :: CanBeSignedFor(env, k)
    ensures Signers(env, keys, sigs) == keys
    decreases keys
  {
    sigs := [];
    if keys != {} {
      var k :| k in keys;
      assert CanBeSignedFor(env, k);
      var s :| env.verify(s, k);
      var rest := AllSign(env, keys - {k});
      sigs := rest + [s];
      assert env.verify(sigs[|rest|], k);
      forall other | other in keys - {k} ensures other in Signers(env, keys, sigs) {
        assert other in Signers(env, keys - {k}, rest);
        var i :| 0 <= i < |rest| && env.verify(rest[i], other);
        assert sigs[i] == rest[i];
      }
    }
  }

  lemma NoSignatures(env: Env, c: Condition, preimage: string, now: int)
    ensures var w, tags := Witness(preimage, []), env.parseTags(c.originalTag);
      && (Refunds(env, c, w, now) <==> TimelockPassed(now, tags) && RefundThreshold(tags) == 0)
      && (MainMet(env, c, w) ==> c.kind == HTLC && PreimageMatches(env, c, w) && tags.pubkeys == [])
  {
    NoSigners(env, Keys(env.parseTags(c.originalTag).refund));
    if SigningKeys(env, c).Some? {
      NoSigners(env, SigningKeys(env, c).value);
    }
    hide Signers;
  }

  lemma PartingWitness(env: Env, c: Condition, now: int) returns (w: Witness)
    requires Usable(env, c) && Parted(env, c, now)
    ensures PartsOn(env, c, w, now)
  {
    var tags := env.parseTags(c.originalTag);
    hide Signers, Keys, MainMet;
    if BadKeyFamily(env, c) {
      var sigs := AllSign(env, Keys(tags.refund));
      w := Witness("", sigs);
    } else if RefundFamily(env, c, now) {
      w := Witness("", []);
      if c.kind == HTLC {
        var preimage :| env.digest(preimage) != Some(c.data);
        w := Witness(preimage, []);
      }
      NoSignatures(env, c, w.preimage, now);
    } else {
      var preimage :| env.digest(preimage) == Some(c.data);
      w := Witness(preimage, []);
      NoSignatures(env, c, preimage, now);
    }
  }

  lemma SignersAreKeys(env: Env, keys: set<Point>, sigs: seq<Signature>)
    ensures |Signers(env, keys, sigs)| <= |keys|
  {
    SmallerSet(Signers(env, keys, sigs), keys);
  }

  lemma OnlyParted(env: Env, c: Condition, w: Witness, now: int)
    requires PartsOn(env, c, w, now)
    ensures Parted(env, c, now)
  {
    SignersAreKeys(env, Keys(env.parseTags(c.originalTag).refund), w.signatures);
    hide Signers, Keys, MainMet;
  }

  /** The two checks decide alike for every witness exactly when the condition is in none of the families. */
  lemma SigAllAgreesAlwaysIff(env: Env, c: Condition, now: int)
    requires Usable(env, c)
    ensures (forall w :: SigAllMet(env, c, w, now) <==> MaySpend(env, c, w, now)) <==> !Parted(env, c, now)
  {
    hide Usable, Parted, SigAllMet, MaySpend, PartsOn;
    if Parted(env, c, now) {
      var w := PartingWitness(env, c, now);
      SigAllAgreesIff(env, c, w, now);
    } else {
      forall w ensures SigAllMet(env, c, w, now) <==> MaySpend(env, c, w, now) {
        SigAllAgreesIff(env, c, w, now);
        if PartsOn(env, c, w, now) {
          OnlyParted(env, c, w, now);
        }
      }
    }
  }

  /** A refund threshold without refund keys: jointly anybody may spend after the locktime, singly nobody can refund. */
  lemma SigAllRefundWithoutKeys(env: Env, c: Condition, w: Witness, now: int)
    requires SigningKeys(env, c).Some? && TimelockPassed(now, env.parseTags(c.originalTag))
    requires env.parseTags(c.originalTag).refund == [] && env.parseTags(c.originalTag).nSigsRefund > 0
    ensures SigAllMet(env, c, w, now) && (MaySpend(env, c, w, now) <==> MainMet(env, c, w))
  {
  }

  /** An HTLC without keys that asks for several signatures: singly the preimage is enough, jointly it never is. */
  lemma SigAllHtlcWithoutKeys(env: Env, c: Condition, w: Witness, now: int)
    requires c.kind == HTLC && env.parseTags(c.originalTag).pubkeys == [] && env.parseTags(c.originalTag).nSigs > 1
    requires !TimelockPassed(now, env.parseTags(c.originalTag))
    ensures !SigAllMet(env, c, w, now) && (MaySpend(env, c, w, now) <==> PreimageMatches(env, c, w))
  {
  }

  /** A P2PK key that does not parse: jointly nothing is accepted, singly the refund path still is. */
  lemma SigAllBadKey(env: Env, c: Condition, w: Witness, now: int)
    requires c.kind == P2PK && env.parseKey(c.data).None?
    ensures !SigAllMet(env, c, w, now)
    ensures MaySpend(env, c, w, now) <==>
      TimelockPassed(now, env.parseTags(c.originalTag)) && RefundMet(env, env.parseTags(c.originalTag), w.signatures)
  {
  }

  /** The joint check has no limit on the number of keys; the single one turns more than ten away. */
  lemma SigAllIgnoresKeyLimit(env: Env, p: Input, now: int)
    requires p.condition.Some? && !KeysFit(env.parseTags(p.condition.value.originalTag))
    requires SigAllMet(env, p.condition.value, p.w, now)
    ensures !InputMaySpend(env, p, now)
  {
  }

  /** One accepted joint signature satisfies every input, provided they are of one kind, which is not checked. */
  lemma SigAllCoversEveryInput(env: Env, inputs: seq<Condition>, w: Witness, now: int, i: nat)
    requires i < |inputs| && Repeats(inputs) && SigAllMet(env, inputs[0], w, now) && inputs[i].kind == inputs[0].kind
    ensures SigAllMet(env, inputs[i], w, now)
  {
  }

  /** An HTLC behind a P2PK input with the same data and tags passes without its preimage. */
  lemma RepetitionIgnoresKind(env: Env, first: Condition, w: Witness, now: int)
    requires first.kind == P2PK && SigAllMet(env, first, w, now) && !PreimageMatches(env, first, w)
    requires !TimelockPassed(now, env.parseTags(first.originalTag))
    ensures Repeats([first, first.(kind := HTLC)]) && !MaySpend(env, first.(kind := HTLC), w, now)
  {
  }

  /** This can happen: a digest has 64 characters, so with a key's 66 as its data the HTLC has no preimage at all. */
  lemma MixedKindsPass() returns (env: Env, first: Condition, w: Witness)
    ensures first.kind == P2PK && |first.data| == 66 && Repeats([first, first.(kind := HTLC)])
    ensures SigAllMet(env, first, w, 0) && forall any: Witness :: !MaySpend(env, first.(kind := HTLC), any, 0)
  {
    var data := seq(66, _ => '0');
    env := Env((_, _) => true, _ => Some(Point(1)), _ => Tags(SigAll, [], [], 0, 0, 0), _ => Some(seq(64, _ => '0')));
    first := Condition(P2PK, data, "");
    w := Witness("", [Signature(1)]);
    assert env.verify(w.signatures[0], Point(1));
    assert Signers(env, {Point(1)}, w.signatures) == {Point(1)};
    assert Keys([]) == {};
    assert SigningKeys(env, first) == Some({Point(1)} + Keys([])) && {Point(1)} + Keys([]) == {Point(1)};
  }
}
