/** The cache of visited configurations, in buckets by the hash of a bitset. */
module PorcupineCache {
  import opened PorcupineSearch
  import opened PorcupineBitset

  datatype CacheEntry<S> = CacheEntry(linearized: seq<Word>, state: S)

  datatype Key = Key(hash: Word)

  type Cache<S> = map<Key, seq<CacheEntry<S>>>

  ghost function EntryOf<S>(c: Config<S>, words: nat): CacheEntry<S> { CacheEntry(Words(c.done, words), c.state) }

  ghost predicate Fits<S>(c: Config<S>, words: nat) { forall x :: x in c.done ==> x < 64 * words }

  predicate Stored<S(==)>(cache: Cache<S>, hash: Key, entry: CacheEntry<S>) {
    hash in cache && entry in cache[hash]
  }

  ghost predicate IsSeen<S>(seen: set<Config<S>>, words: nat, entry: CacheEntry<S>) {
    exists c :: c in seen && entry == EntryOf(c, words)
  }

  /** The buckets hold exactly the visited configurations, each under its own hash. */
  ghost predicate CacheOk<S>(cache: Cache<S>, words: nat, seen: set<Config<S>>) {
    && (forall c :: c in seen ==> Fits(c, words) && Stored(cache, Key(HashOf(Words(c.done, words))), EntryOf(c, words)))
    && (forall hash, i :: hash in cache && 0 <= i < |cache[hash]| ==> IsSeen(seen, words, cache[hash][i]))
  }

  lemma SeenOnce<S>(seen: set<Config<S>>, words: nat, c: Config<S>)
    requires Fits(c, words) && forall d :: d in seen ==> Fits(d, words)
    ensures IsSeen(seen, words, EntryOf(c, words)) <==> c in seen
  {
    hide Words;
    if IsSeen(seen, words, EntryOf(c, words)) {
      var d :| d in seen && EntryOf(c, words) == EntryOf(d, words);
      WordsOf(c.done, words);
      WordsOf(d.done, words);
      EncodesUnique(Words(c.done, words), Words(d.done, words), c.done, d.done);
    }
  }

  lemma WordsOf(s: set<nat>, words: nat)
    requires forall x :: x in s ==> x < 64 * words
    ensures |Words(s, words)| == words && Encodes(Words(s, words), s)
  {
  }

  method CacheContains<S(==)>(cache: Cache<S>, entry: CacheEntry<S>, ghost words: nat, ghost c: Config<S>, ghost seen: set<Config<S>>)
    returns (found: bool)
    requires CacheOk(cache, words, seen) && Fits(c, words) && entry == EntryOf(c, words)
    ensures found <==> c in seen
  {
    hide HashOf, Words;
    SeenOnce(seen, words, c);
    var code := Hash(entry.linearized);
    var hash := Key(code);
    var bucket := if hash in cache then cache[hash] else [];
    assert c in seen ==> entry in bucket;
    var i := 0;
    while i < |bucket|
      invariant 0 <= i <= |bucket| && entry !in bucket[..i]
    {
      var same := Equals(entry.linearized, bucket[i].linearized);
      if same && entry.state == bucket[i].state {
        return true;
      }
      i := i + 1;
    }
    return false;
  }

  method CacheAdd<S(==)>(cache: Cache<S>, entry: CacheEntry<S>, ghost words: nat, ghost c: Config<S>, ghost seen: set<Config<S>>)
    returns (added: Cache<S>)
    requires CacheOk(cache, words, seen) && Fits(c, words) && entry == EntryOf(c, words)
    ensures CacheOk(added, words, seen + {c})
  {
    hide HashOf, Words;
    var code := Hash(entry.linearized);
    var hash := Key(code);
    var bucket := if hash in cache then cache[hash] else [];
    added := cache[hash := bucket + [entry]];
    forall k, i | k in added && 0 <= i < |added[k]| ensures IsSeen(seen + {c}, words, added[k][i]) {
      if k == hash && i == |bucket| {
        assert c in seen + {c};
      } else {
        assert added[k][i] == cache[k][i];
        var d :| d in seen && cache[k][i] == EntryOf(d, words);
        assert d in seen + {c};
      }
    }
    forall d | d in seen + {c} ensures Fits(d, words) && Stored(added, Key(HashOf(Words(d.done, words))), EntryOf(d, words)) {
      StoredMore(cache, hash, entry, Key(HashOf(Words(d.done, words))), EntryOf(d, words));
    }
  }

  lemma StoredMore<S>(cache: Cache<S>, hash: Key, entry: CacheEntry<S>, k: Key, e: CacheEntry<S>)
    ensures var added := cache[hash := (if hash in cache then cache[hash] else []) + [entry]];
            Stored(added, k, e) <==> Stored(cache, k, e) || (k == hash && e == entry)
  {
  }
}
