/** Batch selection: the first `limit` candidates in the order of a key. */
module Selection {
  import opened Rows

  predicate Distinct(ids: seq<nat>) {
    forall i, j :: 0 <= i < j < |ids| ==> ids[i] != ids[j]
  }

  function Least(a: nat, b: nat): nat {
    if a < b then a else b
  }

  /** `ids` are the `limit` earliest candidates, earliest first (all of them if there are fewer). */
  ghost predicate Selected(ids: seq<nat>, candidates: set<nat>, key: map<nat, Time>, limit: nat)
    requires candidates <= key.Keys
  {
    && Distinct(ids)
    && |ids| == Least(limit, |candidates|)
    && (forall i :: 0 <= i < |ids| ==> ids[i] in candidates)
    && (forall i, j :: 0 <= i < j < |ids| ==> key[ids[i]] <= key[ids[j]])
    && (forall i, c :: 0 <= i < |ids| && c in candidates && c !in ids ==> key[ids[i]] <= key[c])
  }

  method Earliest(candidates: set<nat>, key: map<nat, Time>) returns (m: nat)
    requires candidates != {} && candidates <= key.Keys
    ensures m in candidates && forall c :: c in candidates ==> key[m] <= key[c]
  {
    m :| m in candidates;
    var rest := candidates - {m};
    while rest != {}
      invariant rest <= candidates && m in candidates
      invariant forall c :: c in candidates - rest ==> key[m] <= key[c]
      decreases rest
    {
      var c :| c in rest;
      if key[c] < key[m] {
        m := c;
      }
      rest := rest - {c};
    }
  }

  method Select(candidates: set<nat>, key: map<nat, Time>, limit: nat) returns (ids: seq<nat>)
    requires candidates <= key.Keys
    ensures Selected(ids, candidates, key, limit)
  {
    ids := [];
    var rest := candidates;
    while rest != {} && |ids| < limit
      invariant rest <= candidates
      invariant |ids| + |rest| == |candidates| && |ids| <= limit
      invariant Distinct(ids)
      invariant forall c :: c in candidates <==> c in rest || c in ids
      invariant forall i :: 0 <= i < |ids| ==> ids[i] in candidates && ids[i] !in rest
      invariant forall i, j :: 0 <= i < j < |ids| ==> key[ids[i]] <= key[ids[j]]
      invariant forall i, c :: 0 <= i < |ids| && c in rest ==> key[ids[i]] <= key[c]
      decreases rest
    {
      var m := Earliest(rest, key);
      ids := ids + [m];
      rest := rest - {m};
    }
  }

  /** A limit of at least the number of candidates leaves none behind. */
  lemma {:induction false} SelectedAll(ids: seq<nat>, candidates: set<nat>, key: map<nat, Time>, limit: nat)
    requires candidates <= key.Keys && Selected(ids, candidates, key, limit) && |candidates| <= limit
    ensures forall c :: c in candidates ==> c in ids
  {
    var taken := set i | 0 <= i < |ids| :: ids[i];
    DistinctSize(ids);
    SameSize(taken, candidates);
  }

  lemma {:induction false} DistinctSize(ids: seq<nat>)
    requires Distinct(ids)
    ensures |set i | 0 <= i < |ids| :: ids[i]| == |ids|
    decreases |ids|
  {
    var all := set i | 0 <= i < |ids| :: ids[i];
    if ids == [] {
      assert all == {};
    } else {
      var last := |ids| - 1;
      var front := ids[..last];
      DistinctSize(front);
      var fewer := set i | 0 <= i < |front| :: front[i];
      assert ids[last] !in fewer;
      forall x ensures x in all <==> x in fewer + {ids[last]} {
        if x in fewer {
          var i :| 0 <= i < |front| && front[i] == x;
          assert ids[i] == x;
        }
        if x in all {
          var i :| 0 <= i < |ids| && ids[i] == x;
          if i < last {
            assert front[i] == x;
          }
        }
      }
      assert all == fewer + {ids[last]};
    }
  }

  lemma SameSize(a: set<nat>, b: set<nat>)
    requires a <= b && |a| == |b|
    ensures a == b
  {
    assert |b - a| == |b| - |a|;
  }

  lemma Smaller(a: set<nat>, b: set<nat>)
    requires a <= b
    ensures |a| <= |b|
  {
    assert |b - a| == |b| - |a|;
  }
}
