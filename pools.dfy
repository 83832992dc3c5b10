/** Entity pools: ordered sequences that are compacted by keeping the entities whose
    removal flag is not set (`pool.filter(e => !e.markedForDeletion)`). */
module Pools {
  /** No entity appears twice in a pool: each one is absent from the part before it. */
  ghost predicate Distinct<T>(s: seq<T>)
    decreases |s|
  {
    s == [] || (s[|s| - 1] !in s[..|s| - 1] && Distinct(s[..|s| - 1]))
  }

  /** `Distinct` says that no two positions hold the same entity. */
  lemma {:induction false} DistinctIndices<T>(s: seq<T>)
    ensures Distinct(s) <==> forall i, j :: 0 <= i < j < |s| ==> s[i] != s[j]
  {
    if s != [] {
      var n := |s| - 1;
      DistinctIndices(s[..n]);
      if Distinct(s) {
        forall i, j | 0 <= i < j < |s| ensures s[i] != s[j] {
          if j < n {
            assert s[i] == s[..n][i] && s[j] == s[..n][j];
          } else {
            assert s[i] == s[..n][i];
          }
        }
      }
      if forall i, j :: 0 <= i < j < |s| ==> s[i] != s[j] {
        forall i, j | 0 <= i < j < n ensures s[..n][i] != s[..n][j] {
          assert s[..n][i] == s[i] && s[..n][j] == s[j];
        }
      }
    }
  }

  /** Pushing an entity that is not in the pool keeps it free of duplicates. */
  lemma DistinctPush<T>(s: seq<T>, x: T)
    requires Distinct(s) && x !in s
    ensures Distinct(s + [x])
  {
    assert (s + [x])[..|s|] == s;
  }

  /** So does unshifting one. */
  lemma DistinctUnshift<T>(x: T, s: seq<T>)
    requires Distinct(s) && x !in s
    ensures Distinct([x] + s)
  {
    DistinctIndices(s);
    DistinctIndices([x] + s);
    forall i, j | 0 <= i < j < |[x] + s| ensures ([x] + s)[i] != ([x] + s)[j] {
      if i == 0 {
        assert ([x] + s)[j] == s[j - 1];
      } else {
        assert ([x] + s)[i] == s[i - 1] && ([x] + s)[j] == s[j - 1];
      }
    }
  }

  /** A prefix of a pool without duplicates has none: the particle cap keeps the pool
      free of duplicates. */
  lemma DistinctPrefix<T>(s: seq<T>, n: nat)
    requires Distinct(s) && n <= |s|
    ensures Distinct(s[..n])
  {
    DistinctIndices(s);
    DistinctIndices(s[..n]);
  }

  /** The entities of `s` whose flag in `marked` is false, in their original order. */
  function Retain<T>(s: seq<T>, marked: seq<bool>): (r: seq<T>)
    requires |marked| == |s|
    ensures |r| <= |s|
  {
    if s == [] then []
    else
      var n := |s| - 1;
      Retain(s[..n], marked[..n]) + (if marked[n] then [] else [s[n]])
  }

  /** The positions whose flag is false, in increasing order. */
  function Unmarked(marked: seq<bool>): (pos: seq<nat>)
    ensures forall k :: 0 <= k < |pos| ==> pos[k] < |marked| && !marked[pos[k]]
    ensures forall k, l :: 0 <= k < l < |pos| ==> pos[k] < pos[l]
    ensures forall i :: 0 <= i < |marked| && !marked[i] ==> i in pos
  {
    if marked == [] then []
    else
      var n := |marked| - 1;
      var rest := Unmarked(marked[..n]);
      assert forall i :: 0 <= i < n && !marked[i] ==> !marked[..n][i];
      rest + (if marked[n] then [] else [n])
  }

  /** Compaction keeps exactly the unmarked entities, in their original relative order:
      the k-th survivor is the entity at the k-th unmarked position. */
  lemma {:induction false} RetainPositions<T>(s: seq<T>, marked: seq<bool>)
    requires |marked| == |s|
    ensures |Retain(s, marked)| == |Unmarked(marked)|
    ensures forall k :: 0 <= k < |Unmarked(marked)| ==> Retain(s, marked)[k] == s[Unmarked(marked)[k]]
  {
    if s != [] {
      var n := |s| - 1;
      RetainPositions(s[..n], marked[..n]);
      var head, rest := Retain(s[..n], marked[..n]), Unmarked(marked[..n]);
      var r, pos := Retain(s, marked), Unmarked(marked);
      assert r == head + (if marked[n] then [] else [s[n]]);
      assert pos == rest + (if marked[n] then [] else [n]);
      forall k | 0 <= k < |pos|
        ensures r[k] == s[pos[k]]
      {
        if k < |rest| {
          assert r[k] == head[k] && pos[k] == rest[k];
          assert s[..n][rest[k]] == s[rest[k]];
        }
      }
    }
  }

  /** Membership form of the same fact. */
  lemma {:induction false} RetainMembers<T>(s: seq<T>, marked: seq<bool>, x: T)
    requires |marked| == |s|
    ensures x in Retain(s, marked) <==> exists i :: 0 <= i < |s| && s[i] == x && !marked[i]
  {
    if s != [] {
      var n := |s| - 1;
      RetainMembers(s[..n], marked[..n], x);
      assert Retain(s, marked) == Retain(s[..n], marked[..n]) + (if marked[n] then [] else [s[n]]);
      if exists i :: 0 <= i < n && s[i] == x && !marked[i] {
        var i :| 0 <= i < n && s[i] == x && !marked[i];
        assert s[..n][i] == x && !marked[..n][i];
      }
    }
  }

  /** A pool in which nothing is marked is left as it is. */
  lemma {:induction false} RetainNothingMarked<T>(s: seq<T>, marked: seq<bool>)
    requires |marked| == |s|
    requires forall i :: 0 <= i < |s| ==> !marked[i]
    ensures Retain(s, marked) == s
  {
    if s != [] {
      var n := |s| - 1;
      RetainNothingMarked(s[..n], marked[..n]);
      assert s[..n] + [s[n]] == s;
    }
  }

  lemma {:induction false} RetainSameLength<T>(s: seq<T>, marked: seq<bool>)
    requires |marked| == |s|
    ensures |Retain(marked, marked)| == |Retain(s, marked)|
  {
    if s != [] {
      RetainSameLength(s[..|s| - 1], marked[..|s| - 1]);
    }
  }

  /** The flags of the survivors are all false. */
  lemma {:induction false} RetainFlagsClear(marked: seq<bool>)
    ensures forall k :: 0 <= k < |Retain(marked, marked)| ==> !Retain(marked, marked)[k]
  {
    if marked != [] {
      var n := |marked| - 1;
      RetainFlagsClear(marked[..n]);
    }
  }

  /** Compacting twice with no update in between is the same as compacting once: the second
      pass sees the survivors' flags, which are all false. */
  lemma RetainIdempotent<T>(s: seq<T>, marked: seq<bool>)
    requires |marked| == |s|
    ensures |Retain(marked, marked)| == |Retain(s, marked)|
    ensures Retain(Retain(s, marked), Retain(marked, marked)) == Retain(s, marked)
  {
    RetainSameLength(s, marked);
    RetainFlagsClear(marked);
    RetainNothingMarked(Retain(s, marked), Retain(marked, marked));
  }

  /** Compaction keeps a pool free of duplicates. */
  lemma {:induction false} RetainDistinct<T>(s: seq<T>, marked: seq<bool>)
    requires |marked| == |s| && Distinct(s)
    ensures Distinct(Retain(s, marked))
  {
    if s != [] {
      var n := |s| - 1;
      RetainDistinct(s[..n], marked[..n]);
      RetainMembers(s[..n], marked[..n], s[n]);
      assert Retain(s, marked) == Retain(s[..n], marked[..n]) + (if marked[n] then [] else [s[n]]);
      if !marked[n] {
        DistinctPush(Retain(s[..n], marked[..n]), s[n]);
      } else {
        assert Retain(s, marked) == Retain(s[..n], marked[..n]);
      }
    }
  }
}
