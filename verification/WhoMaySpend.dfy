/**
 * Whose signatures open a locked proof, said key by key: P2PK, HTLC, the refund after the locktime, and SIG_ALL
 * (api/cashu/proofs.go, spend_condition.go).
 */
module WhoMaySpend {
  import opened Prelude
  import opened Cashu
  import opened SpendConditions

  /** At least `n` different keys of the list have a signature that verifies. */
  ghost predicate SignedBy(env: Env, allowed: seq<Point>, sigs: seq<Signature>, n: nat)
  {
    exists keys: set<Point> :: |keys| >= n && AllSigned(env, allowed, sigs, keys)
  }

  ghost predicate AllSigned(env: Env, allowed: seq<Point>, sigs: seq<Signature>, keys: set<Point>)
  {
    forall k | k in keys :: k in allowed && exists s :: s in sigs && env.verify(s, k)
  }

  lemma SignedByIff(env: Env, allowed: seq<Point>, keys: set<Point>, sigs: seq<Signature>, n: nat)
    requires forall k :: k in keys <==> k in allowed
    ensures |Signers(env, keys, sigs)| >= n <==> SignedBy(env, allowed, sigs, n)
  {
    var signers := Signers(env, keys, sigs);
    assert AllSigned(env, allowed, sigs, signers) by {
      forall k | k in signers ensures exists s :: s in sigs && env.verify(s, k) {
        var i :| 0 <= i < |sigs| && env.verify(sigs[i], k);
        assert sigs[i] in sigs;
      }
    }
    if SignedBy(env, allowed, sigs, n) {
      var others: set<Point> :| |others| >= n && AllSigned(env, allowed, sigs, others);
      forall k | k in others ensures k in signers {
        var s :| s in sigs && env.verify(s, k);
        var i :| 0 <= i < |sigs| && sigs[i] == s;
      }
      SmallerSet(others, signers);
    }
  }

  function AtLeastOne(n: nat): nat
  {
    if n > 1 then n else 1
  }

  predicate Passed(tags: Tags, now: int)
  {
    tags.locktime != 0 && now > if tags.locktime < TWO_63 then tags.locktime else tags.locktime - TWO_64
  }

  /** The lock's own way in: its key with the co-signers, or its preimage with the co-signers, if there are any. */
  ghost predicate Opens(env: Env, c: Condition, w: Witness)
  {
    var tags := env.parseTags(c.originalTag);
    match c.kind
    case P2PK =>
      && env.parseKey(c.data).Some?
      && SignedBy(env, [env.parseKey(c.data).value] + tags.pubkeys, w.signatures, AtLeastOne(tags.nSigs))
    case HTLC =>
      && env.digest(w.preimage) == Some(c.data)
      && (tags.pubkeys == [] || SignedBy(env, tags.pubkeys, w.signatures, AtLeastOne(tags.nSigs)))
  }

  /** The refund keys' way in: as many of them as are asked for, and at least one if there is any. */
  ghost predicate Refunded(env: Env, tags: Tags, sigs: seq<Signature>)
  {
    SignedBy(env, tags.refund, sigs, if tags.refund == [] then tags.nSigsRefund else AtLeastOne(tags.nSigsRefund))
  }

  lemma KeysAre(list: seq<Point>)
    ensures forall k :: k in Keys(list) <==> k in list
  {
  }

  lemma OpensIff(env: Env, c: Condition, w: Witness)
    ensures MainMet(env, c, w) <==> Opens(env, c, w)
  {
    var tags := env.parseTags(c.originalTag);
    KeysAre(tags.pubkeys);
    hide Signers, SignedBy;
    match c.kind {
      case P2PK =>
        if env.parseKey(c.data).Some? {
          var key := env.parseKey(c.data).value;
          KeysAre([key] + tags.pubkeys);
          hide Keys;
          SignedByIff(env, [key] + tags.pubkeys, {key} + Keys(tags.pubkeys), w.signatures, AtLeastOne(tags.nSigs));
        }
      case HTLC =>
        SignedByIff(env, tags.pubkeys, Keys(tags.pubkeys), w.signatures, AtLeastOne(tags.nSigs));
    }
  }

  lemma RefundedIff(env: Env, tags: Tags, sigs: seq<Signature>)
    ensures RefundMet(env, tags, sigs) <==> Refunded(env, tags, sigs)
  {
    KeysAre(tags.refund);
    hide Signers, SignedBy, Keys;
    SignedByIff(env, tags.refund, Keys(tags.refund), sigs, RefundThreshold(tags));
  }

  /** A proof may be spent the lock's own way at any time, and by the refund keys once the locktime has passed. */
  lemma MaySpendIff(env: Env, c: Condition, w: Witness, now: int)
    ensures MaySpend(env, c, w, now) <==>
      || Opens(env, c, w)
      || (Passed(env.parseTags(c.originalTag), now) && Refunded(env, env.parseTags(c.originalTag), w.signatures))
  {
    hide MainMet, RefundMet, Opens, Refunded;
    OpensIff(env, c, w);
    RefundedIff(env, env.parseTags(c.originalTag), w.signatures);
  }

  /** Before the locktime, P2PK: the lock's key parses, and enough of it and the listed keys signed. */
  lemma P2pkBeforeLocktimeIff(env: Env, c: Condition, w: Witness, now: int)
    requires c.kind == P2PK && !Passed(env.parseTags(c.originalTag), now)
    ensures var tags := env.parseTags(c.originalTag);
      MaySpend(env, c, w, now) <==>
        && env.parseKey(c.data).Some?
        && exists keys: set<Point> ::
             && |keys| >= AtLeastOne(tags.nSigs)
             && AllSigned(env, [env.parseKey(c.data).value] + tags.pubkeys, w.signatures, keys)
  {
    MaySpendIff(env, c, w, now);
    hide MaySpend, Refunded;
  }

  /** Before the locktime, HTLC: the preimage, and enough of the listed keys if there are any. */
  lemma HtlcBeforeLocktimeIff(env: Env, c: Condition, w: Witness, now: int)
    requires c.kind == HTLC && !Passed(env.parseTags(c.originalTag), now)
    ensures var tags := env.parseTags(c.originalTag);
      MaySpend(env, c, w, now) <==>
        && env.digest(w.preimage) == Some(c.data)
        && (tags.pubkeys == [] || exists keys: set<Point> ::
              |keys| >= AtLeastOne(tags.nSigs) && AllSigned(env, tags.pubkeys, w.signatures, keys))
  {
    MaySpendIff(env, c, w, now);
    hide MaySpend, Refunded;
  }

  /** A signature of none of the keys that may sign. */
  ghost predicate Stranger(env: Env, c: Condition, s: Signature)
  {
    && (forall k | k in env.parseTags(c.originalTag).pubkeys :: !env.verify(s, k))
    && (c.kind == P2PK && env.parseKey(c.data).Some? ==> !env.verify(s, env.parseKey(c.data).value))
  }

  lemma StrangerSigns(env: Env, allowed: seq<Point>, sigs: seq<Signature>, s: Signature, n: nat)
    requires forall k | k in allowed :: !env.verify(s, k)
    ensures SignedBy(env, allowed, sigs + [s], n) <==> SignedBy(env, allowed, sigs, n)
  {
    forall keys ensures AllSigned(env, allowed, sigs + [s], keys) <==> AllSigned(env, allowed, sigs, keys) {
      SameSigners(env, allowed, sigs, s, keys);
    }
    if SignedBy(env, allowed, sigs, n) {
      var keys: set<Point> :| |keys| >= n && AllSigned(env, allowed, sigs, keys);
      assert AllSigned(env, allowed, sigs + [s], keys);
    }
    if SignedBy(env, allowed, sigs + [s], n) {
      var keys: set<Point> :| |keys| >= n && AllSigned(env, allowed, sigs + [s], keys);
      assert AllSigned(env, allowed, sigs, keys);
    }
    hide AllSigned;
  }

  lemma SameSigners(env: Env, allowed: seq<Point>, sigs: seq<Signature>, s: Signature, keys: set<Point>)
    requires forall k | k in allowed :: !env.verify(s, k)
    ensures AllSigned(env, allowed, sigs + [s], keys) <==> AllSigned(env, allowed, sigs, keys)
  {
    if AllSigned(env, allowed, sigs + [s], keys) {
      forall k | k in keys ensures k in allowed && exists r :: r in sigs && env.verify(r, k) {
        var r :| r in sigs + [s] && env.verify(r, k);
        assert r in sigs;
      }
    }
    if AllSigned(env, allowed, sigs, keys) {
      forall k | k in keys ensures k in allowed && exists r :: r in sigs + [s] && env.verify(r, k) {
        var r :| r in sigs && env.verify(r, k);
        assert r in sigs + [s];
      }
    }
  }

  /** Before the locktime a signature of anybody else, a refund key included, changes no answer. */
  lemma StrangersChangeNothing(env: Env, c: Condition, w: Witness, now: int, s: Signature)
    requires !Passed(env.parseTags(c.originalTag), now) && Stranger(env, c, s)
    ensures MaySpend(env, c, w.(signatures := w.signatures + [s]), now) <==> MaySpend(env, c, w, now)
  {
    hide MaySpend, SignedBy, Refunded;
    var tags := env.parseTags(c.originalTag);
    MaySpendIff(env, c, w, now);
    MaySpendIff(env, c, w.(signatures := w.signatures + [s]), now);
    StrangerSigns(env, tags.pubkeys, w.signatures, s, AtLeastOne(tags.nSigs));
    if c.kind == P2PK && env.parseKey(c.data).Some? {
      StrangerSigns(env, [env.parseKey(c.data).value] + tags.pubkeys, w.signatures, s, AtLeastOne(tags.nSigs));
    }
  }

  // ----- all inputs under one signature -----

  /** The joint check asks an HTLC for signatures only if it lists keys, or for several in any case. */
  function AskedJointly(c: Condition, tags: Tags): nat
  {
    if tags.nSigs > 1 then tags.nSigs else if c.kind == P2PK || tags.pubkeys != [] then 1 else 0
  }

  ghost predicate OpensJointly(env: Env, c: Condition, w: Witness, now: int)
  {
    var tags := env.parseTags(c.originalTag);
    var key := env.parseKey(c.data);
    var allowed := if c.kind == P2PK && key.Some? then [key.value] + tags.pubkeys else tags.pubkeys;
    && (c.kind == P2PK ==> env.parseKey(c.data).Some?)
    && (|| ((c.kind == HTLC ==> env.digest(w.preimage) == Some(c.data))
            && SignedBy(env, allowed, w.signatures, AskedJointly(c, tags)))
        || (Passed(tags, now)
            && SignedBy(env, tags.refund, w.signatures,
                        if tags.refund == [] then 0 else AtLeastOne(tags.nSigsRefund))))
  }

  /** What the joint check accepts: the same ways in, but for the key that has to parse and the numbers asked for. */
  lemma SigAllIff(env: Env, c: Condition, w: Witness, now: int)
    ensures SigAllMet(env, c, w, now) <==> OpensJointly(env, c, w, now)
  {
    var tags := env.parseTags(c.originalTag);
    if ValidationOf(env, c).Some? {
      var v := ValidationOf(env, c).value;
      JointNumbers(env, c, v);
      hide ValidationOf, SignedBy, Signers, AskedJointly, AtLeastOne;
      KeysAre(tags.refund);
      SignedByIff(env, tags.refund, v.refundPubkeys, w.signatures, v.requiredRefund);
      var allowed :=
        if c.kind == P2PK && env.parseKey(c.data).Some? then [env.parseKey(c.data).value] + tags.pubkeys
        else tags.pubkeys;
      SignedByIff(env, allowed, v.pubkeys, w.signatures, v.required);
    }
    hide SignedBy;
  }

  lemma JointNumbers(env: Env, c: Condition, v: SigflagValidation)
    requires ValidationOf(env, c) == Some(v)
    ensures var tags := env.parseTags(c.originalTag);
      && v.required == AskedJointly(c, tags) && v.refundPubkeys == Keys(tags.refund)
      && v.requiredRefund == (if tags.refund == [] then 0 else AtLeastOne(tags.nSigsRefund))
      && (c.kind == HTLC ==> forall k :: k in v.pubkeys <==> k in tags.pubkeys)
      && (c.kind == P2PK ==> env.parseKey(c.data).Some?)
      && (c.kind == P2PK ==> forall k :: k in v.pubkeys <==> k in [env.parseKey(c.data).value] + tags.pubkeys)
  {
    var tags := env.parseTags(c.originalTag);
    KeysAre(tags.pubkeys);
    assert tags.pubkeys != [] ==> tags.pubkeys[0] in tags.pubkeys;
    hide Keys;
  }
}
