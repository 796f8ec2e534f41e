/** Counting by key, as the agents do with
    `*map.entry(key).or_insert(0) += 1` over a list, and the facts that tie
    such a tally to the number of occurrences of each key. */
module Counting {

  function Lookup<K>(m: map<K, nat>, k: K): nat {
    if k in m then m[k] else 0
  }

  /** How often `k` occurs in `keys`. */
  function Occurrences<K(==)>(keys: seq<K>, k: K): (n: nat)
    ensures n <= |keys|
  {
    if keys == [] then 0
    else Occurrences(keys[..|keys| - 1], k) + (if keys[|keys| - 1] == k then 1 else 0)
  }

  /** The `*map.entry(key).or_insert(0) += 1` loop, key by key. */
  function Tally<K>(keys: seq<K>): map<K, nat> {
    if keys == [] then map[]
    else
      var m := Tally(keys[..|keys| - 1]);
      var k := keys[|keys| - 1];
      m[k := Lookup(m, k) + 1]
  }

  /** The tally holds exactly the keys that occur, each with its number of
      occurrences. */
  lemma {:induction false} TallyCounts<K>(keys: seq<K>)
    ensures forall k :: (k in Tally(keys) <==> k in keys) && Lookup(Tally(keys), k) == Occurrences(keys, k)
    decreases |keys|
  {
    if keys != [] {
      var prefix := keys[..|keys| - 1];
      TallyCounts(prefix);
      forall k ensures k in keys <==> k in prefix || k == keys[|keys| - 1] {
        if k in keys {
          var i :| 0 <= i < |keys| && keys[i] == k;
          if i < |prefix| {
            assert prefix[i] == k;
          }
        }
        if k in prefix {
          var i :| 0 <= i < |prefix| && prefix[i] == k;
          assert keys[i] == k;
        }
      }
    }
  }

  /** The sum of the counts of the keys listed in `domain`. */
  function Total<K>(m: map<K, nat>, domain: seq<K>): nat {
    if domain == [] then 0 else Lookup(m, domain[0]) + Total(m, domain[1..])
  }

  predicate Distinct<K(==)>(s: seq<K>) {
    forall i, j :: 0 <= i < j < |s| ==> s[i] != s[j]
  }

  lemma {:induction false} TotalBump<K>(m: map<K, nat>, domain: seq<K>, k: K)
    requires Distinct(domain)
    ensures Total(m[k := Lookup(m, k) + 1], domain) == Total(m, domain) + (if k in domain then 1 else 0)
    decreases |domain|
  {
    if domain != [] {
      var rest := domain[1..];
      TotalBump(m, rest, k);
      if domain[0] == k {
        forall j | 0 <= j < |rest| ensures rest[j] != k {
          assert rest[j] == domain[j + 1];
        }
      } else {
        assert k in domain <==> k in rest by {
          if k in domain {
            var j :| 0 <= j < |domain| && domain[j] == k;
            assert rest[j - 1] == k;
          }
        }
      }
    }
  }

  /** Over a domain that lists every key once, the tallied counts add up to
      the number of keys. */
  lemma {:induction false} TallyTotal<K>(keys: seq<K>, domain: seq<K>)
    requires Distinct(domain)
    requires forall k :: k in keys ==> k in domain
    ensures Total(Tally(keys), domain) == |keys|
    decreases |keys|
  {
    if keys != [] {
      var prefix := keys[..|keys| - 1];
      assert forall k :: k in prefix ==> k in keys;
      TallyTotal(prefix, domain);
      var k := keys[|keys| - 1];
      assert k in keys;
      assert Tally(keys) == Tally(prefix)[k := Lookup(Tally(prefix), k) + 1];
      TotalBump(Tally(prefix), domain, k);
    } else {
      TotalOfEmpty<K>(domain);
    }
  }

  lemma {:induction false} TotalOfEmpty<K>(domain: seq<K>)
    ensures Total(map[], domain) == 0
    decreases |domain|
  {
    if domain != [] {
      TotalOfEmpty<K>(domain[1..]);
    }
  }

  /** The distinct elements of `s`, each at its first occurrence. */
  function Dedup<K(==)>(s: seq<K>): seq<K> {
    if s == [] then []
    else
      var d := Dedup(s[..|s| - 1]);
      if s[|s| - 1] in d then d else d + [s[|s| - 1]]
  }

  /** Deduplication keeps exactly the elements of `s`, each once. */
  lemma {:induction false} DedupFacts<K>(s: seq<K>)
    ensures Distinct(Dedup(s))
    ensures forall k :: k in Dedup(s) <==> k in s
    decreases |s|
  {
    if s != [] {
      var prefix := s[..|s| - 1];
      DedupFacts(prefix);
      assert forall k :: k in s <==> k in prefix || k == s[|s| - 1] by {
        forall k | k in s ensures k in prefix || k == s[|s| - 1] {
          var i :| 0 <= i < |s| && s[i] == k;
          if i < |prefix| {
            assert prefix[i] == k;
          }
        }
        forall k | k in prefix ensures k in s {
          var i :| 0 <= i < |prefix| && prefix[i] == k;
          assert s[i] == k;
        }
      }
    }
  }
}
