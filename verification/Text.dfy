/** Decimal and hexadecimal text, and joining and splitting on a separator, as the Go library does them. */
module Text {
  import opened Prelude

  type byte = x: int | 0 <= x < 256 witness 0

  predicate Lacks(s: string, c: char)
  {
    forall i | 0 <= i < |s| :: s[i] != c
  }

  // ----- decimal -----

  predicate IsDigit(c: char)
  {
    '0' <= c <= '9'
  }

  predicate AllDigits(s: string)
  {
    forall i | 0 <= i < |s| :: IsDigit(s[i])
  }

  function DigitChar(d: nat): (c: char)
    requires d < 10
    ensures IsDigit(c) && DigitValue(c) == d
  {
    '0' + d as char
  }

  function DigitValue(c: char): nat
    requires IsDigit(c)
  {
    c as int - '0' as int
  }

  function Decimal(n: nat): (s: string)
    ensures s != [] && AllDigits(s)
  {
    if n < 10 then [DigitChar(n)] else Decimal(n / 10) + [DigitChar(n % 10)]
  }

  function DigitsValue(s: string): nat
    requires AllDigits(s)
  {
    if s == [] then 0 else 10 * DigitsValue(s[..|s| - 1]) + DigitValue(s[|s| - 1])
  }

  /** strconv.ParseUint in base 10: digits only, and the value must fit. */
  function ParseUint(s: string, limit: nat): Option<nat>
  {
    if s == [] || !AllDigits(s) || DigitsValue(s) >= limit then None else Some(DigitsValue(s))
  }

  lemma {:induction false} DecimalValue(n: nat)
    ensures DigitsValue(Decimal(n)) == n
  {
    if n >= 10 {
      DecimalValue(n / 10);
      var s := Decimal(n);
      assert s[..|s| - 1] == Decimal(n / 10) && s[|s| - 1] == DigitChar(n % 10);
    } else {
      assert Decimal(n)[..0] == [];
    }
  }

  /** Printing and parsing back gives the number, if it fits. */
  lemma DecimalRoundTrip(n: nat, limit: nat)
    ensures ParseUint(Decimal(n), limit) == if n < limit then Some(n) else None
  {
    DecimalValue(n);
  }

  function Zeros(k: nat): string
  {
    seq(k, i => '0')
  }

  lemma {:induction false} ZerosValue(k: nat, s: string)
    requires AllDigits(s)
    ensures AllDigits(Zeros(k) + s) && DigitsValue(Zeros(k) + s) == DigitsValue(s)
  {
    var padded := Zeros(k) + s;
    if s != [] {
      ZerosValue(k, s[..|s| - 1]);
      assert padded[..|padded| - 1] == Zeros(k) + s[..|s| - 1];
    } else if k > 0 {
      ZerosValue(k - 1, []);
      assert padded == Zeros(k) && padded[..k - 1] == Zeros(k - 1) == Zeros(k - 1) + [];
    }
  }

  lemma OneMoreDigit(high: nat, c: char)
    requires high > 0 && IsDigit(c)
    ensures Decimal(10 * high + DigitValue(c)) == Decimal(high) + [c]
  {
    var n := 10 * high + DigitValue(c);
    assert n / 10 == high && n % 10 == DigitValue(c) && DigitChar(DigitValue(c)) == c;
  }

  lemma OneDigit(c: char)
    requires IsDigit(c)
    ensures Decimal(DigitValue(c)) == [c]
  {
    assert DigitChar(DigitValue(c)) == c;
  }

  lemma LastDigit(s: string)
    requires s != [] && AllDigits(s)
    ensures DigitsValue(s) == 10 * DigitsValue(s[..|s| - 1]) + DigitValue(s[|s| - 1])
    ensures |s| == 1 ==> DigitsValue(s) == DigitValue(s[0])
  {
  }

  lemma ZerosSnoc(k: nat)
    ensures Zeros(k) + Decimal(0) == Zeros(k + 1)
  {
    assert Decimal(0) == ['0'];
  }

  lemma {:induction false} DigitsAre(s: string) returns (k: nat)
    requires s != [] && AllDigits(s)
    ensures s == Zeros(k) + Decimal(DigitsValue(s))
  {
    hide Decimal, DigitsValue;
    var n, last := |s| - 1, s[|s| - 1];
    LastDigit(s);
    OneDigit(last);
    assert s == s[..n] + [last];
    if n == 0 {
      k := 0;
      assert Zeros(0) == [] && s == [last];
    } else {
      k := DigitsAre(s[..n]);
      var high := DigitsValue(s[..n]);
      if high == 0 {
        ZerosSnoc(k);
        k := k + 1;
      } else {
        OneMoreDigit(high, last);
        assert Zeros(k) + Decimal(high) + [last] == Zeros(k) + (Decimal(high) + [last]);
      }
    }
  }

  /** A text parses to a number exactly when it is the number's own text, zeros in front allowed, and it fits. */
  lemma ParseUintIff(s: string, limit: nat, n: nat)
    ensures ParseUint(s, limit) == Some(n) <==> n < limit && exists k: nat :: s == Zeros(k) + Decimal(n)
  {
    if ParseUint(s, limit) == Some(n) {
      var k := DigitsAre(s);
    }
    if k: nat :| n < limit && s == Zeros(k) + Decimal(n) {
      ZerosValue(k, Decimal(n));
      DecimalValue(n);
    }
  }

  lemma DecimalInjective(m: nat, n: nat)
    ensures Decimal(m) == Decimal(n) <==> m == n
  {
    DecimalValue(m);
    DecimalValue(n);
  }

  // ----- hexadecimal -----

  predicate IsHexDigit(c: char)
  {
    IsDigit(c) || 'a' <= c <= 'f'
  }

  function HexChar(d: nat): (c: char)
    requires d < 16
    ensures IsHexDigit(c) && HexValue(c) == Some(d)
  {
    if d < 10 then '0' + d as char else 'a' + (d - 10) as char
  }

  function HexValue(c: char): Option<nat>
  {
    if IsDigit(c) then Some(c as int - '0' as int)
    else if 'a' <= c <= 'f' then Some(c as int - 'a' as int + 10)
    else if 'A' <= c <= 'F' then Some(c as int - 'A' as int + 10)
    else None
  }

  /** hex.EncodeToString. */
  function Hex(bytes: seq<byte>): (s: string)
    ensures |s| == 2 * |bytes| && forall i | 0 <= i < |s| :: IsHexDigit(s[i])
  {
    if bytes == [] then []
    else [HexChar(bytes[0] / 16), HexChar(bytes[0] % 16)] + Hex(bytes[1..])
  }

  /** hex.DecodeString: an even number of hex digits of either case. */
  function DecodeHex(s: string): Option<seq<byte>>
  {
    if s == [] then Some([])
    else if |s| == 1 then None
    else
      match (HexValue(s[0]), HexValue(s[1]), DecodeHex(s[2..]))
      case (Some(high), Some(low), Some(rest)) =>
        if high < 16 && low < 16 then Some([high * 16 + low] + rest) else None
      case _ => None
  }

  lemma {:induction false} HexRoundTrip(bytes: seq<byte>)
    ensures DecodeHex(Hex(bytes)) == Some(bytes)
  {
    if bytes != [] {
      HexRoundTrip(bytes[1..]);
      var b, s := bytes[0], Hex(bytes);
      assert s[2..] == Hex(bytes[1..]);
      assert HexValue(s[0]) == Some(b / 16) && HexValue(s[1]) == Some(b % 16);
      assert b / 16 * 16 + b % 16 == b;
      assert bytes == [b] + bytes[1..];
    }
  }

  lemma HexDigitIff(c: char, d: nat)
    requires d < 16
    ensures HexValue(c) == Some(d) <==> LowerChar(c) == HexChar(d)
  {
  }

  lemma HexValueSmall(c: char)
    ensures HexValue(c).Some? ==> HexValue(c).value < 16
  {
  }

  lemma TwoDigits(s: string, b: byte, rest: seq<byte>)
    requires |s| >= 2
    ensures DecodeHex(s) == Some([b] + rest) <==>
      HexValue(s[0]) == Some(b / 16) && HexValue(s[1]) == Some(b % 16) && DecodeHex(s[2..]) == Some(rest)
  {
    HexValueSmall(s[0]);
    HexValueSmall(s[1]);
    hide HexValue;
    assert b == b / 16 * 16 + b % 16;
    if DecodeHex(s) == Some([b] + rest) {
      var high, low, more := HexValue(s[0]).value, HexValue(s[1]).value, DecodeHex(s[2..]).value;
      assert ([high * 16 + low] + more)[0] == b && ([high * 16 + low] + more)[1..] == more == ([b] + rest)[1..] == rest;
    }
  }

  lemma TwoLetters(s: string, b: byte, rest: seq<byte>)
    requires |s| >= 2
    ensures ToLower(s) == Hex([b] + rest) <==>
      LowerChar(s[0]) == HexChar(b / 16) && LowerChar(s[1]) == HexChar(b % 16) && ToLower(s[2..]) == Hex(rest)
  {
    assert ([b] + rest)[1..] == rest && s[1..][1..] == s[2..];
    assert ToLower(s) == [LowerChar(s[0])] + ([LowerChar(s[1])] + ToLower(s[2..]));
    assert ToLower(s) == [LowerChar(s[0]), LowerChar(s[1])] + ToLower(s[2..]);
    SamePairs(LowerChar(s[0]), LowerChar(s[1]), ToLower(s[2..]), HexChar(b / 16), HexChar(b % 16), Hex(rest));
  }

  /** Decoding undoes encoding, up to the case of the digits: a text decodes if, in lower case, it is an encoding. */
  lemma {:induction false} DecodeHexIff(s: string, bytes: seq<byte>)
    ensures DecodeHex(s) == Some(bytes) <==> ToLower(s) == Hex(bytes)
  {
    if |s| >= 2 && bytes != [] {
      var b, rest := bytes[0], bytes[1..];
      assert bytes == [b] + rest;
      DecodeHexIff(s[2..], rest);
      HexDigitIff(s[0], b / 16);
      HexDigitIff(s[1], b % 16);
      TwoDigits(s, b, rest);
      TwoLetters(s, b, rest);
      hide DecodeHex, ToLower, Hex, HexValue, LowerChar, HexChar;
    }
  }

  lemma SamePairs(a: char, b: char, s: string, c: char, d: char, t: string)
    ensures [a, b] + s == [c, d] + t <==> a == c && b == d && s == t
  {
    if [a, b] + s == [c, d] + t {
      assert ([a, b] + s)[0] == a && ([c, d] + t)[0] == c && ([a, b] + s)[1] == b && ([c, d] + t)[1] == d;
      assert s == ([a, b] + s)[2..] == ([c, d] + t)[2..] == t;
    }
  }

  lemma HexInjective(a: seq<byte>, b: seq<byte>)
    ensures Hex(a) == Hex(b) <==> a == b
  {
    HexRoundTrip(a);
    HexRoundTrip(b);
  }

  // ----- separators -----

  /** strings.Join. */
  function Join(parts: seq<string>, c: char): string
  {
    if parts == [] then ""
    else if |parts| == 1 then parts[0]
    else parts[0] + [c] + Join(parts[1..], c)
  }

  /** strings.Split: always at least one part. */
  function Split(s: string, c: char): (parts: seq<string>)
    ensures parts != []
  {
    if s == [] then [[]]
    else if s[0] == c then [[]] + Split(s[1..], c)
    else
      var rest := Split(s[1..], c);
      [[s[0]] + rest[0]] + rest[1..]
  }

  lemma {:induction false} SplitPrefix(part: string, rest: string, c: char)
    requires Lacks(part, c)
    ensures Split(part + [c] + rest, c) == [part] + Split(rest, c)
  {
    if part == [] {
      assert (part + [c] + rest)[1..] == rest;
    } else {
      SplitPrefix(part[1..], rest, c);
      var s := part + [c] + rest;
      assert s[0] == part[0] && s[1..] == part[1..] + [c] + rest;
      assert [part[0]] + part[1..] == part;
      assert Split(s[1..], c)[1..] == Split(rest, c);
    }
  }

  lemma {:induction false} SplitLacking(part: string, c: char)
    requires Lacks(part, c)
    ensures Split(part, c) == [part]
  {
    if part != [] {
      SplitLacking(part[1..], c);
      assert part[0] != c && [part[0]] + part[1..] == part;
    }
  }

  /** Splitting undoes joining when no part contains the separator. */
  lemma {:induction false} SplitOfJoin(parts: seq<string>, c: char)
    requires parts != [] && forall i | 0 <= i < |parts| :: Lacks(parts[i], c)
    ensures Split(Join(parts, c), c) == parts
  {
    if |parts| == 1 {
      SplitLacking(parts[0], c);
    } else {
      SplitOfJoin(parts[1..], c);
      SplitPrefix(parts[0], Join(parts[1..], c), c);
    }
  }

  lemma {:induction false} JoinLacks(parts: seq<string>, c: char, d: char)
    requires c != d && forall i | 0 <= i < |parts| :: Lacks(parts[i], d)
    ensures Lacks(Join(parts, c), d)
  {
    if |parts| > 1 {
      JoinLacks(parts[1..], c, d);
    }
  }

  lemma JoinInjective(parts: seq<string>, others: seq<string>, c: char)
    requires parts != [] && others != []
    requires forall i | 0 <= i < |parts| :: Lacks(parts[i], c)
    requires forall i | 0 <= i < |others| :: Lacks(others[i], c)
    ensures Join(parts, c) == Join(others, c) <==> parts == others
  {
    SplitOfJoin(parts, c);
    SplitOfJoin(others, c);
  }

  // ----- case -----

  function LowerChar(c: char): char
  {
    if 'A' <= c <= 'Z' then 'a' + (c as int - 'A' as int) as char else c
  }

  /** strings.ToLower on ASCII text. */
  function ToLower(s: string): (t: string)
    ensures |t| == |s| && forall i | 0 <= i < |s| :: t[i] == LowerChar(s[i])
  {
    if s == [] then [] else [LowerChar(s[0])] + ToLower(s[1..])
  }
}
