/**
 * `np.argsort` over a vector of confidences: the positions of the vector listed by
 * non-decreasing confidence, each position exactly once.
 */
module Ordering {

  /** Every entry of `order` is a position of a sequence of length `n`. */
  predicate InBounds(order: seq<nat>, n: nat)
  {
    forall k :: 0 <= k < |order| ==> order[k] < n
  }

  /** Every entry of `order` is a position of `conf`, and confidences never decrease along `order`. */
  ghost predicate SortedBy(order: seq<nat>, conf: seq<real>)
  {
    && InBounds(order, |conf|)
    && (forall j, k :: 0 <= j < k < |order| ==> conf[order[j]] <= conf[order[k]])
  }

  /** `order` lists each of the positions 0 .. n-1 exactly once and nothing else. */
  ghost predicate PermutesPositions(order: seq<nat>, n: nat)
  {
    forall i: nat :: multiset(order)[i] == (if i < n then 1 else 0)
  }

  /** Inserts position `x` into `s` after every position whose confidence is not greater. */
  function Insert(s: seq<nat>, x: nat, conf: seq<real>): (r: seq<nat>)
    requires x < |conf| && InBounds(s, |conf|)
    ensures |r| == |s| + 1 && (r[0] == x || (s != [] && r[0] == s[0]))
    ensures InBounds(r, |conf|)
  {
    if s == [] then [x]
    else if conf[x] < conf[s[0]] then [x] + s
    else [s[0]] + Insert(s[1..], x, conf)
  }

  /** Insertion adds exactly the inserted position. */
  lemma {:induction false} InsertAdds(s: seq<nat>, x: nat, conf: seq<real>)
    requires x < |conf| && InBounds(s, |conf|)
    ensures multiset(Insert(s, x, conf)) == multiset(s) + multiset{x}
  {
    if s == [] {
    } else if conf[x] < conf[s[0]] {
      assert Insert(s, x, conf) == [x] + s;
    } else {
      var rest := s[1..];
      assert InBounds(rest, |conf|) by {
        forall k | 0 <= k < |rest| ensures rest[k] < |conf| {
          assert rest[k] == s[k + 1];
        }
      }
      InsertAdds(rest, x, conf);
      assert Insert(s, x, conf) == [s[0]] + Insert(rest, x, conf);
      assert s == [s[0]] + rest;
    }
  }

  /** Inserting into a sorted list keeps it sorted. */
  lemma {:induction false} InsertSorted(s: seq<nat>, x: nat, conf: seq<real>)
    requires x < |conf| && SortedBy(s, conf)
    ensures SortedBy(Insert(s, x, conf), conf)
  {
    var r := Insert(s, x, conf);
    if s == [] {
    } else if conf[x] < conf[s[0]] {
      assert r == [x] + s;
      forall j, k | 0 <= j < k < |r|
        ensures conf[r[j]] <= conf[r[k]]
      {
        assert r[k] == s[k - 1];
        if j == 0 {
          assert conf[s[0]] <= conf[s[k - 1]];
        } else {
          assert r[j] == s[j - 1];
        }
      }
    } else {
      var rest := Insert(s[1..], x, conf);
      assert SortedBy(s[1..], conf) by {
        forall j, k | 0 <= j < k < |s[1..]|
          ensures conf[s[1..][j]] <= conf[s[1..][k]]
        {
          assert s[1..][j] == s[j + 1] && s[1..][k] == s[k + 1];
        }
      }
      InsertSorted(s[1..], x, conf);
      assert r == [s[0]] + rest;
      assert conf[s[0]] <= conf[rest[0]] by {
        if rest[0] != x {
          assert rest[0] == s[1];
        }
      }
      forall j, k | 0 <= j < k < |r|
        ensures conf[r[j]] <= conf[r[k]]
      {
        assert r[k] == rest[k - 1];
        if j == 0 {
          if k > 1 {
            assert conf[rest[0]] <= conf[rest[k - 1]];
          }
        } else {
          assert r[j] == rest[j - 1];
        }
      }
    }
  }

  /** The positions 0 .. n-1 of `conf`, each inserted in turn. */
  function SortPrefix(conf: seq<real>, n: nat): (order: seq<nat>)
    requires n <= |conf|
    ensures |order| == n && InBounds(order, |conf|)
  {
    if n == 0 then [] else Insert(SortPrefix(conf, n - 1), n - 1, conf)
  }

  /** Sorting the first n positions orders them by non-decreasing confidence. */
  lemma {:induction false} SortPrefixSorted(conf: seq<real>, n: nat)
    requires n <= |conf|
    ensures SortedBy(SortPrefix(conf, n), conf)
  {
    if n > 0 {
      SortPrefixSorted(conf, n - 1);
      InsertSorted(SortPrefix(conf, n - 1), n - 1, conf);
    }
  }

  /** Sorting the first n positions lists each of them exactly once. */
  lemma {:induction false} SortPrefixPermutes(conf: seq<real>, n: nat)
    requires n <= |conf|
    ensures PermutesPositions(SortPrefix(conf, n), n)
  {
    if n > 0 {
      SortPrefixPermutes(conf, n - 1);
      InsertPermutes(SortPrefix(conf, n - 1), conf, n - 1);
    }
  }

  /** Inserting position n into a list of the positions 0 .. n-1 lists the positions 0 .. n. */
  lemma InsertPermutes(prev: seq<nat>, conf: seq<real>, n: nat)
    requires n < |conf| && InBounds(prev, |conf|) && PermutesPositions(prev, n)
    ensures PermutesPositions(Insert(prev, n, conf), n + 1)
  {
    InsertAdds(prev, n, conf);
    var after: multiset<nat> := multiset(Insert(prev, n, conf));
    var before: multiset<nat> := multiset(prev);
    forall i: nat ensures after[i] == (if i <= n then 1 else 0) {
      assert after[i] == before[i] + multiset{n}[i];
    }
  }

  /** `np.argsort(conf)`: the positions of `conf`. */
  function ArgSort(conf: seq<real>): (order: seq<nat>)
    ensures |order| == |conf| && InBounds(order, |conf|)
  {
    SortPrefix(conf, |conf|)
  }

  /** `np.argsort(conf)` lists every position exactly once, by non-decreasing confidence. */
  lemma ArgSortSorts(conf: seq<real>)
    ensures SortedBy(ArgSort(conf), conf) && PermutesPositions(ArgSort(conf), |conf|)
  {
    SortPrefixSorted(conf, |conf|);
    SortPrefixPermutes(conf, |conf|);
  }
}
