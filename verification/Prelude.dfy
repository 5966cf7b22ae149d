/** Vocabulary shared by every module: optional values, URLs, and counting and summing over maps. */
module Prelude {
  datatype Option<+T> = None | Some(value: T)

  /** A URL together with what the URL library reports of it. `domain` is the result of
      getDomain, the empty string when the text does not parse; `blacklisted` is the result
      of isBlacklisted. Both are functions of the URL, hence fields of it. */
  datatype Url = Url(text: string, domain: string, origin: string, blacklisted: bool)

  function Max(a: int, b: int): int { if a < b then b else a }

  function Min(a: int, b: int): int { if a < b then a else b }

  /** `m.get(k) || 0` for a map of counters. */
  function Get<K>(m: map<K, nat>, k: K): nat { if k in m then m[k] else 0 }

  // ---------------------------------------------------------------- counting entries of a map

  function KeysWhere<K(!new), V(!new)>(m: map<K, V>, p: V -> bool): set<K> {
    set k | k in m && p(m[k])
  }

  /** The number of entries of `m` whose value satisfies `p`. */
  function CountIf<K(!new), V(!new)>(m: map<K, V>, p: V -> bool): nat { |KeysWhere(m, p)| }

  function One(b: bool): nat { if b then 1 else 0 }

  lemma CountPut<K(!new), V(!new)>(m: map<K, V>, k: K, v: V, p: V -> bool)
    ensures CountIf(m[k := v], p) == CountIf(m, p) - One(k in m && p(m[k])) + One(p(v))
  {
    var rest := KeysWhere(m, p) - {k};
    assert KeysWhere(m[k := v], p) == if p(v) then rest + {k} else rest;
    assert KeysWhere(m, p) == if k in m && p(m[k]) then rest + {k} else rest;
  }

  lemma CountDrop<K(!new), V(!new)>(m: map<K, V>, k: K, p: V -> bool)
    requires k in m
    ensures CountIf(m - {k}, p) == CountIf(m, p) - One(p(m[k]))
  {
    assert KeysWhere(m - {k}, p) == KeysWhere(m, p) - {k};
  }

  lemma CountNone<K(!new), V(!new)>(m: map<K, V>, p: V -> bool)
    requires forall k | k in m :: !p(m[k])
    ensures CountIf(m, p) == 0
  {
    assert KeysWhere(m, p) == {};
  }

  lemma CountPositive<K(!new), V(!new)>(m: map<K, V>, k: K, p: V -> bool)
    requires k in m && p(m[k])
    ensures CountIf(m, p) >= 1
  {
    CountDrop(m, k, p);
  }

  lemma SizeDrop<K, V>(m: map<K, V>, k: K)
    requires k in m
    ensures |m - {k}| == |m| - 1
  {
    assert (m - {k}).Keys == m.Keys - {k};
    assert |m - {k}| == |(m - {k}).Keys|;
  }

  // ---------------------------------------------------------------- summing the values of a map

  /** The sum of all values of `m`. */
  ghost function Sum<K(!new)>(m: map<K, nat>): nat
    decreases |m|
  {
    if m == map[] then 0
    else
      var k :| k in m;
      SizeDrop(m, k);
      m[k] + Sum(m - {k})
  }

  /** The sum does not depend on the entry taken out first. */
  lemma {:induction false} SumSplit<K(!new)>(m: map<K, nat>, k: K)
    requires k in m
    ensures Sum(m) == m[k] + Sum(m - {k})
    decreases |m|
  {
    var j :| j in m && Sum(m) == m[j] + Sum(m - {j});
    if j != k {
      SizeDrop(m, j);
      SizeDrop(m, k);
      SumSplit(m - {j}, k);
      SumSplit(m - {k}, j);
      assert m - {j} - {k} == m - {k} - {j};
    }
  }

  lemma SumPut<K(!new)>(m: map<K, nat>, k: K, v: nat)
    ensures Sum(m[k := v]) == Sum(m) - Get(m, k) + v
  {
    SumSplit(m[k := v], k);
    if k in m {
      SumSplit(m, k);
      assert m[k := v] - {k} == m - {k};
    } else {
      assert m[k := v] - {k} == m;
    }
  }
}
