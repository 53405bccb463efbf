/** Job names: decimal numbers, and pairs of them written one after the other. */
module JobIds {

  function Digit(d: nat): (c: char)
    requires d < 10
    ensures '0' <= c <= '9' && DigitValue(c) == d
  {
    ('0' as int + d) as char
  }

  function DigitValue(c: char): nat
    requires '0' <= c <= '9'
  {
    c as int - '0' as int
  }

  function Itoa(n: nat): (s: string)
    ensures s != [] && forall i | 0 <= i < |s| :: '0' <= s[i] <= '9'
  {
    if n < 10 then [Digit(n)] else Itoa(n / 10) + [Digit(n % 10)]
  }

  function Atoi(s: string): nat
    requires forall i | 0 <= i < |s| :: '0' <= s[i] <= '9'
  {
    if s == [] then 0 else 10 * Atoi(s[..|s| - 1]) + DigitValue(s[|s| - 1])
  }

  lemma {:induction false} RoundTrip(n: nat)
    ensures Atoi(Itoa(n)) == n
  {
    if n >= 10 {
      RoundTrip(n / 10);
      assert Itoa(n)[..|Itoa(n)| - 1] == Itoa(n / 10);
    }
  }

  lemma ItoaInjective(a: nat, b: nat)
    requires Itoa(a) == Itoa(b)
    ensures a == b
  {
    RoundTrip(a);
    RoundTrip(b);
  }

  lemma {:induction false} LeadingZero(n: nat)
    requires Itoa(n)[0] == '0'
    ensures n == 0
  {
    if n >= 10 {
      assert Itoa(n)[0] == Itoa(n / 10)[0];
      LeadingZero(n / 10);
    }
  }

  /** Number `m` directly followed by number `r`. */
  function PairKey(m: nat, r: nat): string {
    Itoa(m) + Itoa(r)
  }

  ghost predicate PairKeysDistinct(nMap: nat, nReduce: nat) {
    forall m: nat, r: nat, m': nat, r': nat |
      m < nMap && r < nReduce && m' < nMap && r' < nReduce && PairKey(m, r) == PairKey(m', r') ::
      m == m' && r == r'
  }

  lemma ConcatSplits(a: string, b: string, a': string, b': string)
    requires a + b == a' + b' && |a| == |a'|
    ensures a == a' && b == b'
  {
    assert a == (a + b)[..|a|] && b == (a + b)[|a|..];
    assert a' == (a' + b')[..|a'|] && b' == (a' + b')[|a'|..];
  }

  lemma OneDigitReduce(m: nat, r: nat, m': nat, r': nat)
    requires r < 10 && r' < 10 && PairKey(m, r) == PairKey(m', r')
    ensures m == m' && r == r'
  {
    assert |PairKey(m, r)| == |Itoa(m)| + 1 && |PairKey(m', r')| == |Itoa(m')| + 1;
    ConcatSplits(Itoa(m), Itoa(r), Itoa(m'), Itoa(r'));
    ItoaInjective(m, m');
    ItoaInjective(r, r');
  }

  lemma OneDigitMap(m: nat, r: nat, m': nat, r': nat)
    requires m < 10 && m' < 10 && PairKey(m, r) == PairKey(m', r')
    ensures m == m' && r == r'
  {
    ConcatSplits(Itoa(m), Itoa(r), Itoa(m'), Itoa(r'));
    ItoaInjective(m, m');
    ItoaInjective(r, r');
  }

  lemma TenIsApart(r: nat, m': nat, r': nat)
    requires m' < 10
    ensures PairKey(10, r) != PairKey(m', r')
  {
    if PairKey(10, r) == PairKey(m', r') {
      var s := PairKey(10, r);
      assert Itoa(10) == ['1', '0'] by { assert Itoa(1) == [Digit(1)]; }
      assert s[1] == '0' && |s| >= 3;
      assert |Itoa(m')| == 1 && s[1] == Itoa(r')[0] && |s| == 1 + |Itoa(r')|;
      LeadingZero(r');
    }
  }

  lemma UpToTen(m: nat, r: nat, m': nat, r': nat)
    requires m < 11 && m' < 11 && PairKey(m, r) == PairKey(m', r')
    ensures m == m' && r == r'
  {
    if m < 10 && m' < 10 {
      OneDigitMap(m, r, m', r');
    } else if m == 10 && m' == 10 {
      ConcatSplits(Itoa(10), Itoa(r), Itoa(10), Itoa(r'));
      ItoaInjective(r, r');
    } else if m == 10 {
      TenIsApart(r, m', r');
    } else {
      TenIsApart(r', m, r);
    }
  }

  lemma Collision()
    ensures PairKey(11, 0) == PairKey(1, 10)
  {
    assert Itoa(1) == [Digit(1)] && Itoa(0) == [Digit(0)];
    assert Itoa(11) == [Digit(1)] + [Digit(1)];
    assert Itoa(10) == [Digit(1)] + [Digit(0)];
    assert PairKey(11, 0) == [Digit(1), Digit(1), Digit(0)] == PairKey(1, 10);
  }

  /** Exactly when no two pairs share a key. */
  lemma PairKeysDistinctIff(nMap: nat, nReduce: nat)
    ensures PairKeysDistinct(nMap, nReduce) <==> nReduce <= 10 || nMap <= 11
  {
    if nReduce <= 10 || nMap <= 11 {
      forall m: nat, r: nat, m': nat, r': nat | m < nMap && r < nReduce && m' < nMap && r' < nReduce && PairKey(m, r) == PairKey(m', r')
        ensures m == m' && r == r'
      {
        if nReduce <= 10 {
          OneDigitReduce(m, r, m', r');
        } else {
          UpToTen(m, r, m', r');
        }
      }
    } else {
      Collision();
    }
  }
}
