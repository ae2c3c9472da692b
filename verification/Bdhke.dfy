/**
 * Blind signatures (NUT-00) and their proofs (NUT-12) over residues: a point is its discrete logarithm, so the group is
 * the integers modulo the order of the curve (pkg/crypto/bdhke.go, api/cashu/types.go). Hashes are parameters.
 */
module Bdhke {
  import opened Modular

  /** The order of secp256k1. */
  const ORDER: nat := 0xFFFFFFFF_FFFFFFFF_FFFFFFFF_FFFFFFFE_BAAEDCE6_AF48A03B_BFD25E8C_D0364141

  type Residue = x: nat | x < ORDER witness 0

  function Reduce(x: int): Residue
  {
    x % ORDER
  }

  function Plus(a: Residue, b: Residue): Residue
  {
    Reduce(a + b)
  }

  function Times(a: Residue, b: Residue): Residue
  {
    Reduce(a * b)
  }

  function Neg(a: Residue): Residue
  {
    Reduce(ORDER - a)
  }

  // ----- residues form a ring -----

  lemma ReduceSum(a: int, b: int)
    ensures Reduce(Reduce(a) + b) == Reduce(a + b) == Reduce(b + Reduce(a))
  {
  }

  lemma RegroupProduct(r: int, k: int, n: int, b: int)
    ensures (r + k * n) * b == r * b + (k * b) * n
  {
  }

  lemma ReduceProduct(a: int, b: int)
    ensures Reduce(Reduce(a) * b) == Reduce(a * b) == Reduce(b * Reduce(a))
  {
    var k, r := a / ORDER, Reduce(a);
    assert a == r + k * ORDER;
    RegroupProduct(r, k, ORDER, b);
    assert Reduce(r * b + (k * b) * ORDER) == Reduce(r * b) by {
      Shift(r * b, k * b, ORDER);
    }
    hide Reduce;
    assert b * r == r * b;
  }

  lemma AddAssociates(a: Residue, b: Residue, c: Residue)
    ensures Plus(Plus(a, b), c) == Plus(a, Plus(b, c))
  {
    hide Reduce;
    ReduceSum(a + b, c);
    ReduceSum(b + c, a);
  }

  lemma ProductAssociates(a: int, b: int, c: int)
    ensures a * b * c == b * c * a
  {
  }

  lemma MulAssociates(a: Residue, b: Residue, c: Residue)
    ensures Times(Times(a, b), c) == Times(a, Times(b, c))
  {
    hide Reduce;
    ReduceProduct(a * b, c);
    ReduceProduct(b * c, a);
    ProductAssociates(a, b, c);
  }

  lemma MulCommutes(a: Residue, b: Residue)
    ensures Times(a, b) == Times(b, a)
  {
  }

  lemma ProductDistributes(a: int, b: int, c: int)
    ensures (a + b) * c == a * c + b * c
  {
  }

  lemma Distributes(a: Residue, b: Residue, c: Residue)
    ensures Times(Plus(a, b), c) == Plus(Times(a, c), Times(b, c))
  {
    hide Reduce;
    ReduceProduct(a + b, c);
    ProductDistributes(a, b, c);
    ReduceSum(a * c, b * c);
    ReduceSum(b * c, Reduce(a * c));
  }

  lemma WholeOrder(a: nat, b: nat)
    requires a <= ORDER
    ensures Reduce((ORDER - a) * b + a * b) == 0
  {
  }

  lemma NegCancels(a: Residue, b: Residue)
    ensures Plus(Times(a, b), Times(Neg(a), b)) == 0
  {
    var p, q := a * b, (ORDER - a) * b;
    WholeOrder(a, b);
    hide Reduce;
    ReduceProduct(ORDER - a, b);
    ReduceSum(p, Reduce(q));
    ReduceSum(q, p);
  }

  lemma NegTwice(a: Residue)
    ensures Neg(Neg(a)) == a
  {
  }

  lemma AddZero(a: Residue)
    ensures Plus(a, 0) == a
  {
  }

  // ----- blind signatures -----

  /** Secrets map to points through a hash that is not modelled: `y` is the point of the secret. */
  function BlindMessage(y: Residue, r: Residue): Residue
  {
    Plus(y, r)
  }

  function SignBlindedMessage(b: Residue, k: Residue): Residue
  {
    Times(k, b)
  }

  function UnblindSignature(c: Residue, r: Residue, pubkey: Residue): Residue
  {
    Plus(c, Times(Neg(r), pubkey))
  }

  predicate Verify(y: Residue, k: Residue, c: Residue)
  {
    c == Times(k, y)
  }

  /** Blinding, signing and unblinding gives the signature on the secret itself, whatever the blinding factor. */
  lemma UnblindedVerifies(y: Residue, r: Residue, k: Residue)
    ensures Verify(y, k, UnblindSignature(SignBlindedMessage(BlindMessage(y, r), k), r, k))
  {
    MulCommutes(k, Plus(y, r));
    Distributes(y, r, k);
    AddAssociates(Times(y, k), Times(r, k), Times(Neg(r), k));
    NegCancels(r, k);
    AddZero(Times(y, k));
    MulCommutes(y, k);
  }

  lemma SumCancels(a: Residue, b: Residue, c: Residue)
    ensures Plus(a, c) == Plus(b, c) <==> a == b
  {
    ReduceBelowTwice(a + c);
    ReduceBelowTwice(b + c);
    hide Reduce;
  }

  lemma ReduceBelowTwice(x: nat)
    requires x < 2 * ORDER
    ensures Reduce(x) == if x < ORDER then x else x - ORDER
  {
  }

  /** What comes of unblinding verifies exactly when the blinded message was signed with the key. */
  lemma UnblindedVerifiesIff(y: Residue, r: Residue, k: Residue, c: Residue)
    ensures Verify(y, k, UnblindSignature(c, r, k)) <==> c == SignBlindedMessage(BlindMessage(y, r), k)
  {
    hide Reduce, Plus, Times, Neg, BlindMessage;
    UnblindedVerifies(y, r, k);
    SumCancels(c, SignBlindedMessage(BlindMessage(y, r), k), Times(Neg(r), k));
  }

  // ----- proofs that a signature was made with the announced key -----

  /** A scalar that its owner changes in place. */
  class Scalar {
    var v: Residue

    constructor (x: Residue)
      ensures v == x
    {
      v := x;
    }

    method Mul(other: Scalar)
      modifies this
      ensures v == Times(old(v), old(other.v))
    {
      v := Times(v, other.v);
    }

    method Add(other: Scalar)
      modifies this
      ensures v == Plus(old(v), old(other.v))
    {
      v := Plus(v, other.v);
    }

    method Negate()
      modifies this
      ensures v == Neg(old(v))
    {
      v := Neg(v);
    }
  }

  type Hash = (Residue, Residue, Residue, Residue) -> nat

  datatype Dleq = Dleq(e: Residue, s: Residue)

  /** What GenerateDLEQ is to produce for key `a`, blinded message `b`, signature `c` and nonce `r`. */
  function ProofOf(hash: Hash, b: Residue, a: Residue, c: Residue, r: Residue): Dleq
  {
    var e := Reduce(hash(r, Times(r, b), a, c));
    Dleq(e, Plus(r, Times(e, a)))
  }

  /** What a verifier checks, with A and C' as in the announcement. */
  predicate Accepts(hash: Hash, b: Residue, p: Dleq, pubkey: Residue, c: Residue)
  {
    var r1 := Plus(p.s, Times(Neg(p.e), pubkey));
    var r2 := Plus(Times(p.s, b), Times(Neg(p.e), c));
    Reduce(hash(r1, r2, pubkey, c)) == p.e
  }

  /** The source's order: e is multiplied in place, r takes the sum in place, and e is read from the hash once more. */
  method GenerateDLEQ(hash: Hash, b: Residue, a: Scalar, c: Residue, nonce: nat) returns (e: Scalar, s: Scalar)
    ensures fresh(e) && fresh(s) && e != s && a.v == old(a.v)
    ensures Dleq(e.v, s.v) == ProofOf(hash, b, a.v, c, Reduce(nonce))
  {
    var r := new Scalar(Reduce(nonce));
    var ehash := hash(r.v, Times(r.v, b), a.v, c);
    var product := new Scalar(Reduce(ehash));
    product.Mul(a);
    r.Add(product);
    s := new Scalar(r.v);
    e := new Scalar(Reduce(ehash));
  }

  /** VerifyDLEQ negates the caller's e and leaves it so. */
  method VerifyDLEQ(hash: Hash, b: Residue, e: Scalar, s: Scalar, pubkey: Residue, c: Residue) returns (ok: bool)
    requires e != s
    modifies e
    ensures ok <==> Accepts(hash, b, Dleq(old(e.v), s.v), pubkey, c)
    ensures e.v == Neg(old(e.v))
  {
    e.Negate();
    var eA := Times(e.v, pubkey);
    var r1 := Plus(s.v, eA);
    var eC := Times(e.v, c);
    var sB := Times(s.v, b);
    var r2 := Plus(sB, eC);
    var hashed := new Scalar(Reduce(hash(r1, r2, pubkey, c)));
    ghost var was := hashed.v;
    hashed.Negate();
    ok := hashed.v == e.v;
    NegTwice(was);
    NegTwice(old(e.v));
  }

  /** The nonce comes back: (r + x) * b less x * b is r * b. */
  lemma NonceComesBack(r: Residue, e: Residue, a: Residue, b: Residue)
    ensures Plus(Times(Plus(r, Times(e, a)), b), Times(Neg(e), Times(a, b))) == Times(r, b)
  {
    Distributes(r, Times(e, a), b);
    MulAssociates(e, a, b);
    AddAssociates(Times(r, b), Times(e, Times(a, b)), Times(Neg(e), Times(a, b)));
    NegCancels(e, Times(a, b));
    AddZero(Times(r, b));
  }

  lemma TimesOne(a: Residue)
    ensures Times(a, 1) == a
  {
  }

  /** Every proof that is generated for a true signature is accepted. */
  lemma GeneratedIsAccepted(hash: Hash, b: Residue, a: Residue, r: Residue)
    ensures Accepts(hash, b, ProofOf(hash, b, a, SignBlindedMessage(b, a), r), a, SignBlindedMessage(b, a))
  {
    var p := ProofOf(hash, b, a, Times(a, b), r);
    NonceComesBack(r, p.e, a, b);
    NonceComesBack(r, p.e, a, 1);
    TimesOne(Plus(r, Times(p.e, a)));
    TimesOne(a);
    TimesOne(r);
  }

  /** A second verification on the same scalars asks another question: whether the negated e passes. */
  method VerifyTwice(hash: Hash, b: Residue, a: Scalar, nonce: nat) returns (first: bool, second: bool)
    ensures first
    ensures var p := ProofOf(hash, b, a.v, SignBlindedMessage(b, a.v), Reduce(nonce));
      second <==> Accepts(hash, b, p.(e := Neg(p.e)), a.v, SignBlindedMessage(b, a.v))
  {
    var c := SignBlindedMessage(b, a.v);
    var e, s := GenerateDLEQ(hash, b, a, c, nonce);
    GeneratedIsAccepted(hash, b, a.v, Reduce(nonce));
    first := VerifyDLEQ(hash, b, e, s, a.v, c);
    second := VerifyDLEQ(hash, b, e, s, a.v, c);
  }

  /**
   * A caller that hands every verification a copy of its own keeps e, and gets the same answer however often it asks.
   */
  method VerifyWithCopies(hash: Hash, b: Residue, e: Scalar, s: Scalar, pubkey: Residue, c: Residue, times: nat)
    returns (answers: seq<bool>)
    ensures e.v == old(e.v) && |answers| == times
    ensures forall i | 0 <= i < times :: answers[i] <==> Accepts(hash, b, Dleq(e.v, s.v), pubkey, c)
  {
    answers := [];
    for i := 0 to times
      invariant e.v == old(e.v) && s.v == old(s.v) && |answers| == i
      invariant forall k | 0 <= k < i :: answers[k] <==> Accepts(hash, b, Dleq(e.v, s.v), pubkey, c)
    {
      var copied := new Scalar(e.v);
      var ok := VerifyDLEQ(hash, b, copied, s, pubkey, c);
      answers := answers + [ok];
    }
  }

  /** Without copies it can fail for a true signature: here the hash is always 1. */
  lemma SecondVerificationCanFail(b: Residue, a: Residue, r: Residue)
    ensures var hash: Hash := (_, _, _, _) => 1;
      var p := ProofOf(hash, b, a, SignBlindedMessage(b, a), r);
      !Accepts(hash, b, p.(e := Neg(p.e)), a, SignBlindedMessage(b, a))
  {
    hide Plus, Times;
  }
}
