/** Splitting amounts into powers of two and handing out change (api/cashu/keys.go, internal/utils/proofs.go). */
module Amounts {
  import opened Prelude
  import opened Totals
  import opened Cashu

  function Pow2(n: nat): (r: nat)
    ensures r > 0
  {
    if n == 0 then 1 else 2 * Pow2(n - 1)
  }

  predicate IsPow2(x: nat)
  {
    x == 1 || (x > 0 && x % 2 == 0 && IsPow2(x / 2))
  }

  lemma {:induction false} Pow2IsPow2(n: nat)
    ensures IsPow2(Pow2(n))
  {
    if n > 0 {
      Pow2IsPow2(n - 1);
      assert Pow2(n) / 2 == Pow2(n - 1);
    }
  }

  lemma {:induction false} Pow2Add(m: nat, n: nat)
    ensures Pow2(m + n) == Pow2(m) * Pow2(n)
  {
    if m > 0 {
      Pow2Add(m - 1, n);
      assert Pow2(m + n) == 2 * Pow2(m - 1 + n);
      assert Pow2(m) * Pow2(n) == 2 * (Pow2(m - 1) * Pow2(n));
    }
  }

  lemma {:induction false} Pow2Mono(m: nat, n: nat)
    requires m <= n
    ensures Pow2(m) <= Pow2(n)
    decreases n
  {
    if m < n {
      Pow2Mono(m, n - 1);
    }
  }

  /** The number of one bits. */
  function Popcount(n: nat): nat
  {
    if n == 0 then 0 else n % 2 + Popcount(n / 2)
  }

  /** The powers of two at the one bits of `n`, counted from bit `pos`, lowest first. */
  function SplitFrom(n: nat, pos: nat): seq<nat>
    decreases n
  {
    if n == 0 then []
    else if n % 2 == 1 then [Pow2(pos)] + SplitFrom(n / 2, pos + 1)
    else SplitFrom(n / 2, pos + 1)
  }

  function Split(n: nat): seq<nat>
  {
    SplitFrom(n, 0)
  }

  ghost predicate StrictlyIncreasing(s: seq<nat>)
  {
    forall i, j | 0 <= i < j < |s| :: s[i] < s[j]
  }

  lemma SumCons(x: nat, s: seq<nat>)
    ensures Sum([x] + s) == x + Sum(s)
  {
    SumAppend([x], s);
    assert Sum([x]) == Sum([]) + x by { SumSnoc([], x); assert [] + [x] == [x]; }
  }

  lemma {:induction false} SplitFromSum(n: nat, pos: nat)
    ensures Sum(SplitFrom(n, pos)) == n * Pow2(pos)
    ensures |SplitFrom(n, pos)| == Popcount(n)
    decreases n
  {
    if n != 0 {
      var half, w := n / 2, Pow2(pos);
      SplitFromSum(half, pos + 1);
      assert half * (2 * w) == (2 * half) * w;
      hide Sum;
      if n % 2 == 1 {
        SumCons(w, SplitFrom(half, pos + 1));
        assert n * w == (2 * half + 1) * w == (2 * half) * w + w;
      } else {
        assert n * w == (2 * half) * w;
      }
    }
  }

  lemma {:induction false} SplitFromOrder(n: nat, pos: nat)
    ensures StrictlyIncreasing(SplitFrom(n, pos))
    ensures forall i | 0 <= i < |SplitFrom(n, pos)| :: SplitFrom(n, pos)[i] >= Pow2(pos) && IsPow2(SplitFrom(n, pos)[i])
    decreases n
  {
    if n != 0 {
      SplitFromOrder(n / 2, pos + 1);
      Pow2IsPow2(pos);
    }
  }

  lemma {:induction false} PopcountPlusPow2(n: nat, p: nat)
    requires IsPow2(p)
    ensures Popcount(n + p) <= Popcount(n) + 1
    decreases n + p
  {
    if p == 1 {
      if n % 2 == 0 {
        assert (n + 1) / 2 == n / 2;
      } else {
        assert (n + 1) / 2 == n / 2 + 1;
        PopcountPlusPow2(n / 2, 1);
      }
    } else {
      assert (n + p) / 2 == n / 2 + p / 2;
      assert (n + p) % 2 == n % 2;
      PopcountPlusPow2(n / 2, p / 2);
    }
  }

  lemma {:induction false} PopcountOfSum(s: seq<nat>)
    requires forall i | 0 <= i < |s| :: IsPow2(s[i])
    ensures Popcount(Sum(s)) <= |s|
  {
    if s != [] {
      PopcountOfSum(s[..|s| - 1]);
      PopcountPlusPow2(Sum(s[..|s| - 1]), s[|s| - 1]);
    }
  }

  /** The split is a strictly increasing list of powers of two that adds up to the amount. */
  lemma SplitIsBinary(amount: nat)
    ensures Sum(Split(amount)) == amount
    ensures StrictlyIncreasing(Split(amount))
    ensures forall i | 0 <= i < |Split(amount)| :: IsPow2(Split(amount)[i])
  {
    SplitFromSum(amount, 0);
    SplitFromOrder(amount, 0);
  }

  /** No list of powers of two that adds up to the amount is shorter than the split. */
  lemma SplitIsShortest(amount: nat, other: seq<nat>)
    requires forall i | 0 <= i < |other| :: IsPow2(other[i])
    requires Sum(other) == amount
    ensures |Split(amount)| <= |other|
  {
    SplitFromSum(amount, 0);
    PopcountOfSum(other);
  }

  /** The source's loop: test the lowest bit, append the power of two at `pos`, shift right. */
  method AmountSplit(amount: nat) returns (rv: seq<nat>)
    requires amount < TWO_64
    ensures rv == Split(amount)
  {
    rv := [];
    var rest, pos := amount, 0;
    while rest > 0
      invariant rv + SplitFrom(rest, pos) == Split(amount)
      decreases rest
    {
      if rest % 2 == 1 {
        rv := rv + [Pow2(pos)];
      }
      rest := rest / 2;
      pos := pos + 1;
    }
  }

  function Smaller(a: nat, b: nat): nat
  {
    if a < b then a else b
  }

  /** The blinded messages that carry change: as many as there are powers of two to hand out, or all of them. */
  function ChangeMessages(overpaid: nat, outputs: seq<BlindedMessage>): (change: seq<BlindedMessage>)
  {
    var amounts := Split(overpaid);
    seq(Smaller(|amounts|, |outputs|),
        i requires 0 <= i < |amounts| && 0 <= i < |outputs| => outputs[i].(amount := amounts[i]))
  }

  function OutputAmounts(outputs: seq<BlindedMessage>): seq<nat>
  {
    seq(|outputs|, i requires 0 <= i < |outputs| => outputs[i].amount)
  }

  lemma {:induction false} SumPrefixStrict(s: seq<nat>, n: nat)
    requires n <= |s|
    requires forall i | 0 <= i < |s| :: s[i] > 0
    ensures Sum(s[..n]) <= Sum(s)
    ensures Sum(s[..n]) == Sum(s) <==> n == |s|
  {
    if n < |s| {
      var s' := s[..|s| - 1];
      SumPrefixStrict(s', n);
      assert s'[..n] == s[..n];
    } else {
      assert s[..n] == s;
    }
  }

  /** Change never exceeds what was overpaid, and equals it exactly when there is an output for every part. */
  lemma ChangeIsAtMostOverpaid(overpaid: nat, outputs: seq<BlindedMessage>)
    ensures Sum(OutputAmounts(ChangeMessages(overpaid, outputs))) <= overpaid
    ensures Sum(OutputAmounts(ChangeMessages(overpaid, outputs))) == overpaid <==> |Split(overpaid)| <= |outputs|
  {
    var amounts := Split(overpaid);
    var n := Smaller(|amounts|, |outputs|);
    assert OutputAmounts(ChangeMessages(overpaid, outputs)) == amounts[..n];
    SplitIsBinary(overpaid);
    SumPrefixStrict(amounts, n);
  }

  /** Writes the amounts into the caller's outputs, in place, and returns how many of them carry change. */
  method GetMessagesForChange(overpaid: nat, outputs: array<BlindedMessage>) returns (n: nat)
    requires overpaid < TWO_64
    modifies outputs
    ensures n <= outputs.Length && outputs[..n] == ChangeMessages(overpaid, old(outputs[..]))
    ensures outputs[n..] == old(outputs[n..])
  {
    var amounts := AmountSplit(overpaid);
    n := Smaller(|amounts|, outputs.Length);
    for i := 0 to n
      invariant forall k | 0 <= k < i :: outputs[k] == old(outputs[k]).(amount := amounts[k])
      invariant forall k | i <= k < outputs.Length :: outputs[k] == old(outputs[k])
    {
      outputs[i] := outputs[i].(amount := amounts[i]);
    }
  }
}
