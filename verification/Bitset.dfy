/** Sets of small numbers packed into 64-bit words, bit `i` in word `i / 64`.

    A 64-bit word is its 64 binary digits, least significant first; the operators on words
    are the machine's bitwise ones. */
module Bitsets {

  type Word = w: seq<bool> | |w| == 64 witness seq(64, i => false)

  // ----- single words

  function Zero(): Word {
    seq(64, i => false)
  }

  /** `1 << k` */
  function Mask(k: nat): Word {
    seq(64, i => i == k)
  }

  function Or(x: Word, y: Word): Word {
    seq(64, i requires 0 <= i < 64 => x[i] || y[i])
  }

  function And(x: Word, y: Word): Word {
    seq(64, i requires 0 <= i < 64 => x[i] && y[i])
  }

  function AndNot(x: Word, y: Word): Word {
    seq(64, i requires 0 <= i < 64 => x[i] && !y[i])
  }

  function Xor(x: Word, y: Word): Word {
    seq(64, i requires 0 <= i < 64 => x[i] != y[i])
  }

  /** A number's low 64 binary digits. */
  function Truncate(n: nat): Word {
    Digits(n, 64)
  }

  function Digits(n: nat, width: nat): (digits: seq<bool>)
    ensures |digits| == width
  {
    if width == 0 then [] else [n % 2 == 1] + Digits(n / 2, width - 1)
  }

  predicate Bit(x: Word, k: nat) {
    And(x, Mask(k)) != Zero()
  }

  lemma BitAt(x: Word, k: nat)
    requires k < 64
    ensures Bit(x, k) <==> x[k]
  {
    if x[k] {
      assert And(x, Mask(k))[k] && !Zero()[k];
    } else {
      assert And(x, Mask(k)) == Zero();
    }
  }

  lemma SetBit(x: Word, k: nat, j: nat)
    requires k < 64 && j < 64
    ensures Bit(Or(x, Mask(k)), j) <==> j == k || Bit(x, j)
    ensures Bit(AndNot(x, Mask(k)), j) <==> j != k && Bit(x, j)
  {
    BitAt(x, j);
    BitAt(Or(x, Mask(k)), j);
    BitAt(AndNot(x, Mask(k)), j);
  }

  /** A word is determined by its bits. */
  lemma WordExtensional(x: Word, y: Word)
    requires forall k | 0 <= k < 64 :: Bit(x, k) == Bit(y, k)
    ensures x == y
  {
    forall k | 0 <= k < 64 ensures x[k] == y[k] {
      assert Bit(x, k) == Bit(y, k);
      BitAt(x, k);
      BitAt(y, k);
    }
  }

  // ----- sequences of words

  predicate Test(words: seq<Word>, i: nat) {
    i / 64 < |words| && Bit(words[i / 64], i % 64)
  }

  /** The set of numbers a bitset stands for. */
  function Denote(words: seq<Word>): set<nat> {
    set i | 0 <= i < 64 * |words| && Test(words, i)
  }

  lemma InDenote(words: seq<Word>, i: nat)
    ensures i in Denote(words) <==> Test(words, i)
  {
    if Test(words, i) {
      assert i == 64 * (i / 64) + i % 64;
    }
  }

  lemma DenoteSet(words: seq<Word>, pos: nat)
    requires pos / 64 < |words|
    ensures Denote(words[pos / 64 := Or(words[pos / 64], Mask(pos % 64))]) == Denote(words) + {pos}
    ensures Denote(words[pos / 64 := AndNot(words[pos / 64], Mask(pos % 64))]) == Denote(words) - {pos}
  {
    var major, minor := pos / 64, pos % 64;
    var on := words[major := Or(words[major], Mask(minor))];
    var off := words[major := AndNot(words[major], Mask(minor))];
    forall i: nat
      ensures i in Denote(on) <==> i in Denote(words) + {pos}
      ensures i in Denote(off) <==> i in Denote(words) - {pos}
    {
      InDenote(words, i);
      InDenote(on, i);
      InDenote(off, i);
      assert i == pos <==> i / 64 == major && i % 64 == minor;
      if i / 64 == major {
        SetBit(words[major], minor, i % 64);
      }
    }
  }

  /** Two bitsets of one size are the same words exactly when they are the same set. */
  lemma DenoteInjective(a: seq<Word>, b: seq<Word>)
    requires |a| == |b|
    ensures Denote(a) == Denote(b) <==> a == b
  {
    if Denote(a) == Denote(b) {
      forall w | 0 <= w < |a| ensures a[w] == b[w] {
        forall k | 0 <= k < 64 ensures Bit(a[w], k) == Bit(b[w], k) {
          var i := 64 * w + k;
          assert i / 64 == w && i % 64 == k;
          InDenote(a, i);
          InDenote(b, i);
        }
        WordExtensional(a[w], b[w]);
      }
    }
  }

  lemma DenoteEmpty(words: seq<Word>)
    requires forall w | 0 <= w < |words| :: words[w] == Zero()
    ensures Denote(words) == {}
  {
    forall i: nat ensures i !in Denote(words) {
      InDenote(words, i);
    }
  }

  // ----- population count and hash

  function OnesBelow(x: Word, k: nat): nat {
    if k == 0 then 0 else OnesBelow(x, k - 1) + if Bit(x, k - 1) then 1 else 0
  }

  function PopCount(words: seq<Word>): nat {
    if words == [] then 0 else PopCount(words[..|words| - 1]) + OnesBelow(words[|words| - 1], 64)
  }

  function Below(words: seq<Word>, n: nat): set<nat> {
    set i | 0 <= i < n && Test(words, i)
  }

  lemma BelowNext(words: seq<Word>, n: nat)
    ensures Below(words, n + 1) == if Test(words, n) then Below(words, n) + {n} else Below(words, n)
  {
  }

  lemma BelowFront(words: seq<Word>)
    requires |words| > 0
    ensures Below(words, 64 * (|words| - 1)) == Denote(words[..|words| - 1])
  {
    var front := words[..|words| - 1];
    forall i: nat | i < 64 * |front| ensures Test(words, i) == Test(front, i) {
      assert i / 64 < |front|;
    }
  }

  lemma {:induction false} OnesCounted(words: seq<Word>, k: nat)
    requires |words| > 0 && k <= 64
    ensures var n := 64 * (|words| - 1);
            |Below(words, n + k)| == |Below(words, n)| + OnesBelow(words[|words| - 1], k)
  {
    if k > 0 {
      OnesCounted(words, k - 1);
      BelowGrows(words, 64 * (|words| - 1) + (k - 1));
      TestLast(words, k - 1);
    }
  }

  lemma BelowGrows(words: seq<Word>, n: nat)
    ensures |Below(words, n + 1)| == |Below(words, n)| + if Test(words, n) then 1 else 0
  {
    BelowNext(words, n);
  }

  lemma TestLast(words: seq<Word>, k: nat)
    requires |words| > 0 && k < 64
    ensures Test(words, 64 * (|words| - 1) + k) == Bit(words[|words| - 1], k)
  {
    var n := 64 * (|words| - 1) + k;
    assert n / 64 == |words| - 1 && n % 64 == k;
  }

  /** The population count is the number of elements. */
  lemma {:induction false} PopCountIsCardinality(words: seq<Word>)
    ensures PopCount(words) == |Denote(words)|
  {
    if words == [] {
      assert Denote(words) == {};
    } else {
      PopCountIsCardinality(words[..|words| - 1]);
      BelowFront(words);
      OnesCounted(words, 64);
      assert Denote(words) == Below(words, 64 * |words|);
    }
  }

  function XorAll(words: seq<Word>, start: Word): Word {
    if words == [] then start else Xor(XorAll(words[..|words| - 1], start), words[|words| - 1])
  }

  function HashOf(words: seq<Word>): Word {
    XorAll(words, Truncate(PopCount(words)))
  }

  /** The k-th binary digit of `n`. */
  function Digit(n: nat, k: nat): bool {
    if k == 0 then n % 2 == 1 else Digit(n / 2, k - 1)
  }

  lemma {:induction false} DigitAt(n: nat, width: nat, k: nat)
    requires k < width
    ensures Digits(n, width)[k] == Digit(n, k)
  {
    if k > 0 { DigitAt(n / 2, width - 1, k - 1); }
  }

  /** The words that have bit `k`. */
  ghost function Having(words: seq<Word>, k: nat): set<nat> {
    set w: nat | w < |words| && 64 * w + k in Denote(words)
  }

  lemma HavingBit(words: seq<Word>, k: nat, w: nat)
    requires k < 64 && w < |words|
    ensures w in Having(words, k) <==> words[w][k]
  {
    var i := 64 * w + k;
    assert i / 64 == w && i % 64 == k;
    BitAt(words[w], k);
  }

  lemma HavingNext(words: seq<Word>, k: nat)
    requires k < 64 && words != []
    ensures var last := |words| - 1;
            |Having(words, k)| == |Having(words[..last], k)| + if words[last][k] then 1 else 0
  {
    var last := |words| - 1;
    var front := words[..last];
    forall w: nat | w < last ensures w in Having(words, k) <==> w in Having(front, k) {
      HavingBit(words, k, w);
      HavingBit(front, k, w);
    }
    HavingBit(words, k, last);
    assert Having(words, k) == if words[last][k] then Having(front, k) + {last} else Having(front, k);
  }

  lemma XorAt(x: Word, y: Word, k: nat)
    requires k < 64
    ensures Xor(x, y)[k] == (x[k] != y[k])
  {
  }

  lemma {:induction false} XorIsParity(words: seq<Word>, start: Word, k: nat)
    requires k < 64
    ensures XorAll(words, start)[k] <==> (start[k] != (|Having(words, k)| % 2 == 1))
  {
    if words == [] {
      assert Having(words, k) == {};
    } else {
      var last := |words| - 1;
      XorIsParity(words[..last], start, k);
      HavingNext(words, k);
      XorAt(XorAll(words[..last], start), words[last], k);
    }
  }

  /** Bit `k` of the hash tells, of the set denoted, whether an odd number of elements leave the
      remainder `k` modulo 64, except that it is flipped when the set's size has binary digit
      `k`. */
  lemma HashIsParity(words: seq<Word>, k: nat)
    requires k < 64
    ensures HashOf(words)[k] <==> (Digit(|Denote(words)|, k) != (|Having(words, k)| % 2 == 1))
  {
    PopCountIsCardinality(words);
    DigitAt(PopCount(words), 64, k);
    XorIsParity(words, Truncate(PopCount(words)), k);
  }

  // ----- the operations

  method NewBitset(bits: nat) returns (b: array<Word>)
    ensures fresh(b)
    ensures bits <= 64 * b.Length < bits + 64
    ensures Denote(b[..]) == {}
  {
    var extra := if bits % 64 != 0 then 1 else 0;
    var chunks := bits / 64 + extra;
    b := new Word[chunks](_ => Zero());
    DenoteEmpty(b[..]);
  }

  method Clone(b: array<Word>) returns (c: array<Word>)
    ensures fresh(c)
    ensures c[..] == b[..]
  {
    c := new Word[b.Length];
    for i := 0 to b.Length
      invariant c[..i] == b[..i]
    {
      c[i] := b[i];
    }
    assert c[..] == c[..b.Length] && b[..] == b[..b.Length];
  }

  method Set(b: array<Word>, pos: nat)
    requires pos < 64 * b.Length
    modifies b
    ensures Denote(b[..]) == old(Denote(b[..])) + {pos}
  {
    var major, minor := pos / 64, pos % 64;
    DenoteSet(b[..], pos);
    b[major] := Or(b[major], Mask(minor));
    assert b[..] == old(b[..])[major := Or(old(b[major]), Mask(minor))];
  }

  method Clear(b: array<Word>, pos: nat)
    requires pos < 64 * b.Length
    modifies b
    ensures Denote(b[..]) == old(Denote(b[..])) - {pos}
  {
    var major, minor := pos / 64, pos % 64;
    DenoteSet(b[..], pos);
    b[major] := AndNot(b[major], Mask(minor));
    assert b[..] == old(b[..])[major := AndNot(old(b[major]), Mask(minor))];
  }

  method Get(b: array<Word>, pos: nat) returns (present: bool)
    requires pos < 64 * b.Length
    ensures present <==> pos in Denote(b[..])
  {
    var major, minor := pos / 64, pos % 64;
    InDenote(b[..], pos);
    present := And(b[major], Mask(minor)) != Zero();
  }

  method OnesCount(x: Word) returns (ones: nat)
    ensures ones == OnesBelow(x, 64)
  {
    ones := 0;
    for k := 0 to 64
      invariant ones == OnesBelow(x, k)
    {
      if Bit(x, k) { ones := ones + 1; }
    }
  }

  method Popcnt(b: array<Word>) returns (total: nat)
    ensures total == |Denote(b[..])| == PopCount(b[..])
  {
    total := 0;
    for i := 0 to b.Length
      invariant total == PopCount(b[..i])
    {
      var ones := OnesCount(b[i]);
      total := total + ones;
      assert b[..i + 1][..i] == b[..i];
    }
    assert b[..b.Length] == b[..];
    PopCountIsCardinality(b[..]);
  }

  method Hash(b: array<Word>) returns (hash: Word)
    ensures hash == HashOf(b[..])
  {
    var total := Popcnt(b);
    ghost var start := Truncate(total);
    hash := Truncate(total);
    for i := 0 to b.Length
      invariant hash == XorAll(b[..i], start)
    {
      hash := Xor(hash, b[i]);
      assert b[..i + 1][..i] == b[..i];
    }
    assert b[..b.Length] == b[..];
  }

  method Equals(b: array<Word>, b2: array<Word>) returns (same: bool)
    ensures same <==> b[..] == b2[..]
    ensures b.Length == b2.Length ==> (same <==> Denote(b[..]) == Denote(b2[..]))
  {
    if b.Length != b2.Length {
      return false;
    }
    DenoteInjective(b[..], b2[..]);
    for i := 0 to b.Length
      invariant b[..i] == b2[..i]
    {
      if b[i] != b2[i] {
        assert b[..][i] != b2[..][i];
        return false;
      }
    }
    assert b[..b.Length] == b[..] && b2[..b2.Length] == b2[..];
    return true;
  }
}
