/** The cache of configurations: buckets of (bitset, state) pairs keyed by the bitset's hash. */
module Caches {
  import opened Bitsets
  import opened Sealing

  datatype CacheEntry<+S> = CacheEntry(linearized: array<Word>, state: S)

  /** An entry of bucket `h` is a stored bitset with that hash, for a configuration inserted. */
  ghost predicate Filed<S(!new)>(words: nat, arrays: set<array<Word>>, seen: seq<(set<nat>, S)>, h: Word, e: CacheEntry<S>)
    reads arrays
  {
    && e.linearized in arrays
    && e.linearized.Length == words
    && HashOf(e.linearized[..]) == h
    && (Denote(e.linearized[..]), e.state) in seen
  }

  /** Position `k` of bucket `h` stores configuration `c`. */
  ghost predicate Holds<S(!new)>(arrays: set<array<Word>>, table: map<Word, seq<CacheEntry<S>>>, h: Word, k: int, c: (set<nat>, S))
    reads arrays
  {
    && h in table
    && 0 <= k < |table[h]|
    && table[h][k].linearized in arrays
    && c == (Denote(table[h][k].linearized[..]), table[h][k].state)
  }

  ghost predicate Stored<S(!new)>(arrays: set<array<Word>>, table: map<Word, seq<CacheEntry<S>>>, c: (set<nat>, S))
    reads arrays
  {
    exists h: Word, k: int :: Holds(arrays, table, h, k, c)
  }

  /** The table holds the configurations inserted and nothing else. */
  ghost predicate Tabled<S(!new)>(words: nat, arrays: set<array<Word>>, table: map<Word, seq<CacheEntry<S>>>, seen: seq<(set<nat>, S)>)
    reads arrays
  {
    forall seal {:trigger Unsealed(seal)} :: seal == CacheSeal ==> TabledFacts(words, arrays, table, seen)
  }

  ghost predicate TabledFacts<S(!new)>(words: nat, arrays: set<array<Word>>, table: map<Word, seq<CacheEntry<S>>>, seen: seq<(set<nat>, S)>)
    reads arrays
  {
    && (forall h, k | h in table && 0 <= k < |table[h]| :: Filed(words, arrays, seen, h, table[h][k]))
    && (forall i | 0 <= i < |seen| :: Stored(arrays, table, seen[i]))
  }

  function Bucket<S>(table: map<Word, seq<CacheEntry<S>>>, h: Word): seq<CacheEntry<S>> {
    if h in table then table[h] else []
  }

  lemma StaysStored<S(!new)>(
      arrays: set<array<Word>>, table: map<Word, seq<CacheEntry<S>>>, c: (set<nat>, S), hash: Word, entry: CacheEntry<S>)
    requires Stored(arrays, table, c)
    ensures Stored(arrays + {entry.linearized}, table[hash := Bucket(table, hash) + [entry]], c)
  {
    var h: Word, k: int :| Holds(arrays, table, h, k, c);
    assert Holds(arrays + {entry.linearized}, table[hash := Bucket(table, hash) + [entry]], h, k, c);
  }

  lemma StaysFiled<S(!new)>(words: nat, arrays: set<array<Word>>, table: map<Word, seq<CacheEntry<S>>>, seen: seq<(set<nat>, S)>,
                            hash: Word, entry: CacheEntry<S>, c: (set<nat>, S), h: Word, k: int)
    requires Tabled(words, arrays, table, seen)
    requires Filed(words, arrays + {entry.linearized}, seen + [c], hash, entry)
    requires var table' := table[hash := Bucket(table, hash) + [entry]]; h in table' && 0 <= k < |table'[h]|
    ensures Filed(words, arrays + {entry.linearized}, seen + [c], h, table[hash := Bucket(table, hash) + [entry]][h][k])
  {
    assert Unsealed(CacheSeal);
    if h in table && k < |table[h]| { assert Filed(words, arrays, seen, h, table[h][k]); }
  }

  /** One more entry in its bucket is one more configuration. */
  lemma TabledGrows<S(!new)>(words: nat, arrays: set<array<Word>>, table: map<Word, seq<CacheEntry<S>>>, seen: seq<(set<nat>, S)>,
                             entry: CacheEntry<S>)
    requires Tabled(words, arrays, table, seen) && entry.linearized.Length == words
    ensures var hash := HashOf(entry.linearized[..]);
            Tabled(words, arrays + {entry.linearized}, table[hash := Bucket(table, hash) + [entry]],
                   seen + [(Denote(entry.linearized[..]), entry.state)])
  {
    assert Unsealed(CacheSeal);
    var hash, c := HashOf(entry.linearized[..]), (Denote(entry.linearized[..]), entry.state);
    var table', arrays', seen' := table[hash := Bucket(table, hash) + [entry]], arrays + {entry.linearized}, seen + [c];
    assert c == seen'[|seen|];
    assert Filed(words, arrays', seen', hash, entry);
    forall h, k | h in table' && 0 <= k < |table'[h]| ensures Filed(words, arrays', seen', h, table'[h][k]) {
      StaysFiled(words, arrays, table, seen, hash, entry, c, h, k);
    }
    forall i | 0 <= i < |seen'| ensures Stored(arrays', table', seen'[i]) {
      if i < |seen| {
        StaysStored(arrays, table, seen[i], hash, entry);
      } else {
        assert Holds(arrays', table', hash, |Bucket(table, hash)|, seen'[i]);
      }
    }
  }

  class Cache<S(!new)> {
    var table: map<Word, seq<CacheEntry<S>>>

    /** Length in words of every bitset stored. */
    const words: nat
    /** The configurations inserted so far, oldest first. */
    ghost var seen: seq<(set<nat>, S)>
    ghost var arrays: set<array<Word>>
    ghost var Repr: set<object>

    ghost predicate Valid()
      reads this, Repr
    {
      && Repr == {this} + arrays
      && Tabled(words, arrays, table, seen)
    }

    constructor (words: nat)
      ensures Valid() && fresh(Repr) && seen == [] && this.words == words
    {
      this.words := words;
      table := map[];
      seen := [];
      arrays := {};
      Repr := {this};
      assert Unsealed(CacheSeal);
    }

    /** Membership up to the model's equality, although only one bucket is searched. */
    method Contains(equal: (S, S) -> bool, linearized: array<Word>, state: S) returns (found: bool)
      requires Valid() && linearized.Length == words
      ensures found <==> exists t :: (Denote(linearized[..]), t) in seen && equal(state, t)
    {
      assert Unsealed(CacheSeal);
      var hash := Hash(linearized);
      ghost var set0 := Denote(linearized[..]);
      var bucket := Bucket(table, hash);
      for i := 0 to |bucket|
        invariant forall k | 0 <= k < i :: !(Denote(bucket[k].linearized[..]) == set0 && equal(state, bucket[k].state))
      {
        assert Filed(words, arrays, seen, hash, table[hash][i]);
        var same := Equals(linearized, bucket[i].linearized);
        if same && equal(state, bucket[i].state) {
          return true;
        }
      }
      forall t | (set0, t) in seen ensures !equal(state, t) {
        var k := InBucket(linearized, t);
      }
      return false;
    }

    /** A configuration inserted before is in the bucket that its bitset hashes to. */
    lemma InBucket(linearized: array<Word>, t: S) returns (k: int)
      requires Valid() && linearized.Length == words && (Denote(linearized[..]), t) in seen
      ensures HashOf(linearized[..]) in table
      ensures Holds(arrays, table, HashOf(linearized[..]), k, (Denote(linearized[..]), t))
    {
      assert Unsealed(CacheSeal);
      var i :| 0 <= i < |seen| && seen[i] == (Denote(linearized[..]), t);
      assert Stored(arrays, table, seen[i]);
      var h: Word, k0: int :| Holds(arrays, table, h, k0, seen[i]);
      assert Filed(words, arrays, seen, h, table[h][k0]);
      DenoteInjective(table[h][k0].linearized[..], linearized[..]);
      k := k0;
    }

    /** A stored bitset must not change afterwards: it joins the representation. */
    method Insert(linearized: array<Word>, state: S)
      requires Valid() && linearized.Length == words
      modifies this
      ensures Valid()
      ensures seen == old(seen) + [(Denote(linearized[..]), state)]
      ensures Repr == old(Repr) + {linearized}
    {
      var hash := Hash(linearized);
      TabledGrows(words, arrays, table, seen, CacheEntry(linearized, state));
      table := table[hash := Bucket(table, hash) + [CacheEntry(linearized, state)]];
      arrays := arrays + {linearized};
      seen := seen + [(Denote(linearized[..]), state)];
      Repr := Repr + {linearized};
    }
  }
}
