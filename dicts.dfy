/**
 * JavaScript plain objects used as dictionaries (`Record<string, T>`): a
 * map from keys to values together with the order in which the keys were
 * first inserted, which is the order `Object.entries` enumerates them in.
 */
module Dicts {
  import opened Seqs

  datatype Dict<K, V> = Dict(keys: seq<K>, vals: map<K, V>)

  /** No element of `keys` repeats an earlier one. */
  ghost predicate Unique<K>(keys: seq<K>)
  {
    forall j :: 0 <= j < |keys| ==> keys[j] !in keys[..j]
  }

  /** Every key is listed once, and exactly the listed keys have values. */
  ghost predicate Valid<K, V>(d: Dict<K, V>)
  {
    Unique(d.keys) && (forall k <- d.vals.Keys :: k in d.keys) && (forall k <- d.keys :: k in d.vals)
  }

  /** Appending a new element keeps the elements unique. */
  lemma UniqueSnoc<K>(keys: seq<K>, k: K)
    requires Unique(keys) && k !in keys
    ensures Unique(keys + [k])
  {
    var r := keys + [k];
    forall j | 0 <= j < |r|
      ensures r[j] !in r[..j]
    {
      if j < |keys| {
        assert r[..j] == keys[..j];
      } else {
        assert r[..j] == keys;
      }
    }
  }

  /** Dropping the last element keeps the elements unique. */
  lemma UniqueInit<K>(keys: seq<K>)
    requires |keys| > 0 && Unique(keys)
    ensures Unique(keys[..|keys| - 1])
  {
    var init := keys[..|keys| - 1];
    forall j | 0 <= j < |init|
      ensures init[j] !in init[..j]
    {
      assert init[..j] == keys[..j];
    }
  }

  /** `{}`. */
  function Empty<K, V>(): (d: Dict<K, V>)
    ensures Valid(d) && d.keys == []
  {
    Dict([], map[])
  }

  /** `obj[k] = v`: a new key goes to the end of the enumeration order, an old one keeps its place. */
  function Put<K, V>(d: Dict<K, V>, k: K, v: V): (r: Dict<K, V>)
    requires Valid(d)
    ensures Valid(r) && r.vals == d.vals[k := v]
    ensures r.keys == if k in d.vals then d.keys else d.keys + [k]
  {
    if k in d.vals then Dict(d.keys, d.vals[k := v])
    else
      UniqueSnoc(d.keys, k);
      Dict(d.keys + [k], d.vals[k := v])
  }

  // ---------------------------------------------------------------------------
  // Sums over the entries

  /** The sum of `f` over the values of `keys`, taken in key order. */
  function SumKeys<K, V>(keys: seq<K>, vals: map<K, V>, f: V -> int): int
    requires forall k :: k in keys ==> k in vals
  {
    if |keys| == 0 then 0
    else SumKeys(keys[..|keys| - 1], vals, f) + f(vals[keys[|keys| - 1]])
  }

  /** The sum of `f` over every entry of `d`. */
  function Sum<K, V>(d: Dict<K, V>, f: V -> int): int
    requires Valid(d)
  {
    SumKeys(d.keys, d.vals, f)
  }

  /** Changing the value of a key that is not summed changes nothing. */
  lemma {:induction false} SumKeysFrame<K, V>(keys: seq<K>, vals: map<K, V>, k: K, v: V, f: V -> int)
    requires forall j :: j in keys ==> j in vals
    requires k !in keys
    ensures SumKeys(keys, vals[k := v], f) == SumKeys(keys, vals, f)
  {
    if |keys| > 0 {
      SumKeysFrame(keys[..|keys| - 1], vals, k, v, f);
    }
  }

  /** Changing the value of one summed key changes the sum by the difference. */
  lemma {:induction false} SumKeysUpdate<K, V>(keys: seq<K>, vals: map<K, V>, k: K, v: V, f: V -> int)
    requires forall j :: j in keys ==> j in vals
    requires Unique(keys)
    requires k in keys
    ensures SumKeys(keys, vals[k := v], f) == SumKeys(keys, vals, f) - f(vals[k]) + f(v)
  {
    var init, last := keys[..|keys| - 1], keys[|keys| - 1];
    if last == k {
      SumKeysFrame(init, vals, k, v, f);
    } else {
      assert k in init by {
        var i :| 0 <= i < |keys| && keys[i] == k;
        assert i < |keys| - 1 && init[i] == k;
      }
      UniqueInit(keys);
      SumKeysUpdate(init, vals, k, v, f);
    }
  }

  /** The sum after `Put` is the old sum, less the replaced value, plus the new one. */
  lemma SumPut<K, V>(d: Dict<K, V>, k: K, v: V, f: V -> int)
    requires Valid(d)
    ensures Sum(Put(d, k, v), f) == Sum(d, f) + f(v) - (if k in d.vals then f(d.vals[k]) else 0)
  {
    if k in d.vals {
      SumKeysUpdate(d.keys, d.vals, k, v, f);
    } else {
      var r := Put(d, k, v);
      assert r.keys[..|r.keys| - 1] == d.keys;
      SumKeysFrame(d.keys, d.vals, k, v, f);
    }
  }

  /** `Object.entries(d).map(([k, v]) => row(k, v))`, over the keys `keys`. */
  function MapEntries<K, V, R>(keys: seq<K>, vals: map<K, V>, row: (K, V) -> R): (rs: seq<R>)
    requires forall k :: k in keys ==> k in vals
    ensures |rs| == |keys| && forall i :: 0 <= i < |keys| ==> rs[i] == row(keys[i], vals[keys[i]])
  {
    if |keys| == 0 then []
    else MapEntries(keys[..|keys| - 1], vals, row) + [row(keys[|keys| - 1], vals[keys[|keys| - 1]])]
  }

  /** The sum of `f` over a list. */
  function SumOf<R>(rs: seq<R>, f: R -> int): int
  {
    if |rs| == 0 then 0 else SumOf(rs[..|rs| - 1], f) + f(rs[|rs| - 1])
  }

  /** Summing over the mapped entries is summing over the entries, when `f` only reads what `row` copies. */
  lemma {:induction false} SumOfMapEntries<K, V, R>(keys: seq<K>, vals: map<K, V>, row: (K, V) -> R, f: R -> int, g: V -> int)
    requires forall k :: k in keys ==> k in vals
    requires forall k, v :: f(row(k, v)) == g(v)
    ensures SumOf(MapEntries(keys, vals, row), f) == SumKeys(keys, vals, g)
  {
    if |keys| > 0 {
      SumOfMapEntries(keys[..|keys| - 1], vals, row, f, g);
      var rs := MapEntries(keys, vals, row);
      assert rs[..|rs| - 1] == MapEntries(keys[..|keys| - 1], vals, row);
    }
  }

  // ---------------------------------------------------------------------------
  // Counting occurrences: `counts[k] = (counts[k] || 0) + 1`

  /** The number of times `k` occurs in `s`. */
  function Occurrences<K(==)>(s: seq<K>, k: K): nat
  {
    if |s| == 0 then 0
    else Occurrences(s[..|s| - 1], k) + (if s[|s| - 1] == k then 1 else 0)
  }

  /** The distinct elements of `s`, in order of first occurrence. */
  function Distinct<K(==)>(s: seq<K>): seq<K>
  {
    if |s| == 0 then []
    else if s[|s| - 1] in Distinct(s[..|s| - 1]) then Distinct(s[..|s| - 1])
    else Distinct(s[..|s| - 1]) + [s[|s| - 1]]
  }

  /** `Distinct` keeps exactly the elements of `s`. */
  lemma {:induction false} DistinctMembers<K>(s: seq<K>, k: K)
    ensures k in Distinct(s) <==> k in s
  {
    if |s| > 0 {
      DistinctMembers(s[..|s| - 1], k);
      assert s == s[..|s| - 1] + [s[|s| - 1]];
    }
  }

  /** The elements of `Distinct(s)` are pairwise different. */
  lemma {:induction false} DistinctOrder<K>(s: seq<K>)
    ensures forall i, j :: 0 <= i < j < |Distinct(s)| ==> Distinct(s)[i] != Distinct(s)[j]
  {
    if |s| > 0 {
      DistinctOrder(s[..|s| - 1]);
    }
  }

  /** An element occurs in `s` exactly when it is counted at least once. */
  lemma {:induction false} OccurrencesPositive<K>(s: seq<K>, k: K)
    ensures Occurrences(s, k) > 0 <==> k in s
  {
    if |s| > 0 {
      OccurrencesPositive(s[..|s| - 1], k);
      assert s == s[..|s| - 1] + [s[|s| - 1]];
    }
  }

  function Identity(n: nat): int
  {
    n
  }

  /** The tally of `s`: each distinct element, in order of first occurrence, with its number of occurrences. */
  ghost predicate IsTally<K>(d: Dict<K, nat>, s: seq<K>)
  {
    Valid(d) && d.keys == Distinct(s) &&
    (forall k <- d.vals.Keys :: d.vals[k] == Occurrences(s, k) && d.vals[k] >= 1)
  }

  /** The count of `k` before one more `k` is counted. */
  function CountOf<K>(d: Dict<K, nat>, k: K): nat
  {
    if k in d.vals then d.vals[k] else 0
  }

  /** Counting one more `k` appends `k` to the keys exactly when it is new. */
  lemma TallyStepKeys<K>(d: Dict<K, nat>, s: seq<K>, k: K)
    requires IsTally(d, s)
    ensures Put(d, k, CountOf(d, k) + 1).keys == Distinct(s + [k])
  {
    SnocInit(s, k);
    DistinctMembers(s, k);
  }

  /** A key the tally has not seen yet does not occur in the items counted. */
  lemma TallyMissing<K>(d: Dict<K, nat>, s: seq<K>, k: K)
    requires IsTally(d, s)
    requires k !in d.vals
    ensures Occurrences(s, k) == 0
  {
    assert k !in Distinct(s);
    DistinctMembers(s, k);
    OccurrencesPositive(s, k);
  }

  /** Counting one more `k` adds one to the count of `k` and leaves the others. */
  lemma TallyStepValues<K>(d: Dict<K, nat>, s: seq<K>, k: K, j: K)
    requires IsTally(d, s)
    requires j in Put(d, k, CountOf(d, k) + 1).vals
    ensures Put(d, k, CountOf(d, k) + 1).vals[j] == Occurrences(s + [k], j) >= 1
  {
    SnocInit(s, k);
    if k !in d.vals {
      TallyMissing(d, s, k);
    }
  }

  /** Counting one more `k` keeps the tally and adds one to the total. */
  lemma TallyStep<K>(d: Dict<K, nat>, s: seq<K>, k: K)
    requires IsTally(d, s)
    ensures IsTally(Put(d, k, CountOf(d, k) + 1), s + [k])
    ensures Sum(Put(d, k, CountOf(d, k) + 1), Identity) == Sum(d, Identity) + 1
  {
    var r := Put(d, k, CountOf(d, k) + 1);
    TallyStepKeys(d, s, k);
    forall j <- r.vals.Keys
      ensures r.vals[j] == Occurrences(s + [k], j) && r.vals[j] >= 1
    {
      TallyStepValues(d, s, k, j);
    }
    SumPut(d, k, CountOf(d, k) + 1, Identity);
  }

  /** A tally has a key for exactly the items counted. */
  lemma TallyKeys<K>(d: Dict<K, nat>, s: seq<K>)
    requires IsTally(d, s)
    ensures forall k :: k in d.vals <==> k in s
  {
    forall k
      ensures k in d.vals <==> k in s
    {
      DistinctMembers(s, k);
    }
  }

  /**
   * The `forEach` callback `counts[k] = (counts[k] || 0) + 1`: counting one
   * more `k` into the tally of `counted` gives the tally of `counted + [k]`,
   * and the counts add up to one more.
   */
  method CountOne<K(==)>(counts: Dict<K, nat>, ghost counted: seq<K>, k: K) returns (r: Dict<K, nat>)
    requires IsTally(counts, counted)
    ensures IsTally(r, counted + [k])
    ensures Sum(r, Identity) == Sum(counts, Identity) + 1
  {
    TallyStep(counts, counted, k);
    r := Put(counts, k, CountOf(counts, k) + 1);
  }

  /**
   * The `forEach` that counts the items of `s` into a fresh object: every key
   * present occurs in the input, its count is its number of occurrences and
   * at least one, and the counts add up to the number of items counted.
   */
  method Tally<K(==)>(s: seq<K>) returns (counts: Dict<K, nat>)
    ensures IsTally(counts, s)
    ensures forall k :: k in counts.vals <==> k in s
    ensures Sum(counts, Identity) == |s|
  {
    counts := Empty();
    ghost var counted := [];
    var i := 0;
    while i < |s|
      invariant i == |counted| <= |s| && counted == s[..i]
      invariant IsTally(counts, counted) && Sum(counts, Identity) == i
    {
      PrefixStep(s, i);
      counts := CountOne(counts, counted, s[i]);
      counted := counted + [s[i]];
      i := i + 1;
    }
    assert counted == s;
    TallyKeys(counts, s);
  }
}
