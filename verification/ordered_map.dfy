/** PHP associative arrays: an insertion-ordered map. The builtins used by the
    export core (`$a[$k] = $v`, `unset`, `+`, `array_replace`,
    `array_fill_keys(array_keys(...))`, `array_filter`, `array_intersect_key`,
    `array_values`) are functions on it. */
module OrderedMap {

  /** No element occurs twice. */
  predicate Distinct<T(==,!new)>(s: seq<T>) {
    forall i, j :: 0 <= i < j < |s| ==> At(s, i) != At(s, j)
  }

  /** The element at position i. */
  function At<T>(s: seq<T>, i: int): T
    requires 0 <= i < |s|
  {
    s[i]
  }

  lemma DistinctConcat<T(!new)>(a: seq<T>, b: seq<T>)
    requires Distinct(a) && Distinct(b)
    requires forall x :: x in a ==> x !in b
    ensures Distinct(a + b)
  {
    forall i, j | 0 <= i < j < |a + b| ensures At(a + b, i) != At(a + b, j) {
      if j < |a| {
        assert At(a, i) != At(a, j);
      } else if i >= |a| {
        assert At(b, i - |a|) != At(b, j - |a|);
      } else {
        assert (a + b)[i] in a && (a + b)[j] in b;
      }
    }
  }

  /** The elements of s that belong to keep, in their order in s. */
  function Among<T(==,!new)>(s: seq<T>, keep: set<T>): (r: seq<T>)
    ensures |r| <= |s|
    ensures forall x :: x in r <==> x in s && x in keep
  {
    if s == [] then []
    else
      var r0 := Among(s[..|s| - 1], keep);
      assert forall x :: x in s[..|s| - 1] ==> x in s;
      if s[|s| - 1] in keep then
        r0 + [s[|s| - 1]]
      else r0
  }

  /** The elements of s that do not occur in drop, in their order in s. */
  function Outside<T(==,!new)>(s: seq<T>, drop: seq<T>): (r: seq<T>)
    ensures |r| <= |s|
    ensures forall x :: x in r <==> x in s && x !in drop
  {
    if s == [] then []
    else
      var r0 := Outside(s[..|s| - 1], drop);
      assert forall x :: x in s[..|s| - 1] ==> x in s;
      if s[|s| - 1] in drop then r0
      else
        r0 + [s[|s| - 1]]
  }

  /** The elements of s that occur in keep, in their order in s. */
  function Within<T(==,!new)>(s: seq<T>, keep: seq<T>): (r: seq<T>)
    ensures |r| <= |s|
    ensures forall x :: x in r <==> x in s && x in keep
  {
    if s == [] then []
    else
      var r0 := Within(s[..|s| - 1], keep);
      assert forall x :: x in s[..|s| - 1] ==> x in s;
      if s[|s| - 1] in keep then
        r0 + [s[|s| - 1]]
      else r0
  }

  /** Appending one element that is not yet present keeps a sequence
      without repetition. */
  lemma DistinctSnoc<T(!new)>(s: seq<T>, x: T)
    requires Distinct(s) && x !in s
    ensures Distinct(s + [x])
  {
    DistinctConcat(s, [x]);
  }

  /** Dropping the last element keeps a sequence without repetition, and
      that element occurs nowhere before it. */
  lemma DistinctInit<T(!new)>(s: seq<T>)
    requires Distinct(s) && s != []
    ensures Distinct(s[..|s| - 1]) && s[|s| - 1] !in s[..|s| - 1]
  {
    var s0 := s[..|s| - 1];
    forall i, j | 0 <= i < j < |s0| ensures At(s0, i) != At(s0, j) {
      assert At(s, i) != At(s, j);
    }
    forall i | 0 <= i < |s0| ensures s0[i] != s[|s| - 1] {
      assert At(s, i) != At(s, |s| - 1);
    }
  }

  lemma {:induction false} AmongDistinct<T(!new)>(s: seq<T>, keep: set<T>)
    requires Distinct(s)
    ensures Distinct(Among(s, keep))
    decreases |s|
  {
    if s != [] {
      var s0 := s[..|s| - 1];
      DistinctInit(s);
      AmongDistinct(s0, keep);
      if s[|s| - 1] in keep {
        DistinctSnoc(Among(s0, keep), s[|s| - 1]);
      }
    }
  }

  lemma {:induction false} OutsideDistinct<T(!new)>(s: seq<T>, drop: seq<T>)
    requires Distinct(s)
    ensures Distinct(Outside(s, drop))
    decreases |s|
  {
    if s != [] {
      var s0 := s[..|s| - 1];
      DistinctInit(s);
      OutsideDistinct(s0, drop);
      if s[|s| - 1] !in drop {
        DistinctSnoc(Outside(s0, drop), s[|s| - 1]);
      }
    }
  }

  lemma {:induction false} WithinDistinct<T(!new)>(s: seq<T>, keep: seq<T>)
    requires Distinct(s)
    ensures Distinct(Within(s, keep))
    decreases |s|
  {
    if s != [] {
      var s0 := s[..|s| - 1];
      DistinctInit(s);
      WithinDistinct(s0, keep);
      if s[|s| - 1] in keep {
        DistinctSnoc(Within(s0, keep), s[|s| - 1]);
      }
    }
  }

  /** Nothing is left when every element is dropped. */
  lemma {:induction false} OutsideAll<T(!new)>(s: seq<T>, drop: seq<T>)
    requires forall x :: x in s ==> x in drop
    ensures Outside(s, drop) == []
    decreases |s|
  {
    if s != [] {
      var s0 := s[..|s| - 1];
      assert forall x :: x in s0 ==> x in s;
      OutsideAll(s0, drop);
    }
  }

  /** Dropping elements that do not occur leaves the sequence as it is. */
  lemma {:induction false} OutsideNone<T(!new)>(s: seq<T>, drop: seq<T>)
    requires forall x :: x in s ==> x !in drop
    ensures Outside(s, drop) == s
    decreases |s|
  {
    if s != [] {
      var s0 := s[..|s| - 1];
      assert forall x :: x in s0 ==> x in s;
      OutsideNone(s0, drop);
      assert s0 + [s[|s| - 1]] == s;
    }
  }

  lemma {:induction false} AmongConcat<T(!new)>(a: seq<T>, b: seq<T>, keep: set<T>)
    ensures Among(a + b, keep) == Among(a, keep) + Among(b, keep)
    decreases |b|
  {
    if b == [] {
      assert a + b == a;
    } else {
      var b0 := b[..|b| - 1];
      assert (a + b)[..|a + b| - 1] == a + b0;
      AmongConcat(a, b0, keep);
    }
  }

  lemma {:induction false} AmongAll<T(!new)>(s: seq<T>, keep: set<T>)
    requires forall x :: x in s ==> x in keep
    ensures Among(s, keep) == s
    decreases |s|
  {
    if s != [] {
      var s0 := s[..|s| - 1];
      assert forall x :: x in s0 ==> x in s;
      AmongAll(s0, keep);
      assert s0 + [s[|s| - 1]] == s;
    }
  }

  /** Two keep-sets that agree on the elements of s select the same elements. */
  lemma {:induction false} AmongAgree<T(!new)>(s: seq<T>, k1: set<T>, k2: set<T>)
    requires forall x :: x in s ==> (x in k1 <==> x in k2)
    ensures Among(s, k1) == Among(s, k2)
    decreases |s|
  {
    if s != [] {
      var s0 := s[..|s| - 1];
      assert forall x :: x in s0 ==> x in s;
      AmongAgree(s0, k1, k2);
    }
  }

  /** a followed by each element of s that is not yet present, in the order of
      its first occurrence in s. */
  function AddNew<T(==,!new)>(a: seq<T>, s: seq<T>): (r: seq<T>)
    ensures forall x :: x in r <==> x in a || x in s
    ensures |a| <= |r| && r[..|a|] == a
  {
    if s == [] then a
    else
      var p := AddNew(a, s[..|s| - 1]);
      assert forall x :: x in s[..|s| - 1] ==> x in s;
      assert s == s[..|s| - 1] + [s[|s| - 1]];
      if s[|s| - 1] in p then p else p + [s[|s| - 1]]
  }

  lemma {:induction false} AddNewKeepsDistinct<T(!new)>(a: seq<T>, s: seq<T>)
    requires Distinct(a)
    ensures Distinct(AddNew(a, s))
    decreases |s|
  {
    if s != [] {
      var s0 := s[..|s| - 1];
      AddNewKeepsDistinct(a, s0);
      if s[|s| - 1] !in AddNew(a, s0) {
        DistinctSnoc(AddNew(a, s0), s[|s| - 1]);
      }
    }
  }

  lemma {:induction false} AddNewConcat<T(!new)>(a: seq<T>, s: seq<T>, t: seq<T>)
    ensures AddNew(a, s + t) == AddNew(AddNew(a, s), t)
    decreases |t|
  {
    if t == [] {
      assert s + t == s;
    } else {
      var t0 := t[..|t| - 1];
      assert (s + t)[..|s + t| - 1] == s + t0;
      assert (s + t)[|s + t| - 1] == t[|t| - 1];
      AddNewConcat(a, s, t0);
    }
  }

  /** AddNew appends to a the elements of s that a lacks, each once, in the
      order of their first occurrence in s. */
  lemma {:induction false} AddNewSplit<T(!new)>(a: seq<T>, s: seq<T>)
    ensures AddNew(a, s) == a + AddNew([], Outside(s, a))
    decreases |s|
  {
    if s != [] {
      var s0, x := s[..|s| - 1], s[|s| - 1];
      AddNewSplit(a, s0);
      if x !in a {
        assert Outside(s, a) == Outside(s0, a) + [x];
        assert Outside(s, a)[..|Outside(s, a)| - 1] == Outside(s0, a);
      }
    }
  }

  /** Two drop lists with the same elements drop the same elements. */
  lemma {:induction false} OutsideAgree<T(!new)>(s: seq<T>, d1: seq<T>, d2: seq<T>)
    requires forall x :: x in d1 <==> x in d2
    ensures Outside(s, d1) == Outside(s, d2)
    decreases |s|
  {
    if s != [] {
      OutsideAgree(s[..|s| - 1], d1, d2);
    }
  }

  /** When s has no repetition, AddNew appends exactly the elements of s
      missing from a. */
  lemma {:induction false} AddNewDistinct<T(!new)>(a: seq<T>, s: seq<T>)
    requires Distinct(s)
    ensures AddNew(a, s) == a + Outside(s, a)
    decreases |s|
  {
    if s != [] {
      var s0, last := s[..|s| - 1], s[|s| - 1];
      DistinctInit(s);
      AddNewDistinct(a, s0);
      assert last in AddNew(a, s0) <==> last in a;
    }
  }

  /** Slicing facts the loops over a sequence rely on. */
  lemma PrefixNext<T>(s: seq<T>, i: int)
    requires 0 <= i < |s|
    ensures s[..i + 1] == s[..i] + [s[i]]
    ensures s[..i + 1][..i] == s[..i]
  {
  }

  lemma PrefixAll<T>(s: seq<T>)
    ensures s[..|s|] == s
  {
  }

  lemma SnocPrefix<T>(s: seq<T>, x: T)
    ensures (s + [x])[..|s|] == s
  {
  }

  /** The representation of a PHP array: its keys in insertion order and a
      value for each of them. Only the listed keys belong to the array: vals
      is never read outside them. */
  datatype Entries<K(==,!new), V> = Entries(keys: seq<K>, vals: map<K, V>) {
    predicate Valid() {
      && Distinct(keys)
      && (forall k | k in keys :: k in vals)
    }
  }

  /** A PHP array: no key twice, and every key has a value. */
  type Assoc<K(==,!new), V> = a: Entries<K, V> | a.Valid() witness Entries([], map[])

  /** `[]`. */
  function Empty<K(==,!new), V>(): (r: Assoc<K, V>)
    ensures r.keys == [] && r.vals == map[]
  {
    Entries([], map[])
  }

  /** The value PHP reads for `$a[$k]`, or dflt when the key is absent. */
  function Lookup<K(==,!new), V>(a: Assoc<K, V>, k: K, dflt: V): (r: V)
    ensures k in a.keys ==> r == a.vals[k]
    ensures k !in a.keys ==> r == dflt
  {
    if k in a.keys then a.vals[k] else dflt
  }

  /** `$a[$k] = $v`: an existing key keeps its position, a new key is appended. */
  function Put<K(==,!new), V>(a: Assoc<K, V>, k: K, v: V): (r: Assoc<K, V>)
    ensures r.keys == if k in a.keys then a.keys else a.keys + [k]
    ensures r.vals == a.vals[k := v]
  {
    if k in a.keys then Entries(a.keys, a.vals[k := v])
    else
      DistinctSnoc(a.keys, k);
      Entries(a.keys + [k], a.vals[k := v])
  }

  /** A log that grew by `older` and then by `more` grew by both. */
  lemma AppendLog<T>(log0: seq<T>, log: seq<T>, log1: seq<T>, older: seq<T>, more: seq<T>)
    requires log == log0 + older && log1 == log + more
    ensures log1 == log0 + (older + more)
  {
  }

  /** A sequence that is `done` followed by `x` then `rest` is `done + [x]`
      followed by `rest`. */
  lemma Regroup<T>(all: seq<T>, done: seq<T>, from: seq<T>, x: T, rest: seq<T>)
    requires all == done + from && from == [x] + rest
    ensures all == done + [x] + rest
  {
  }

  /** Storing the same value twice under a key is storing it once. */
  lemma PutTwice<K(!new), V>(a: Assoc<K, V>, k: K, v: V)
    ensures Put(Put(a, k, v), k, v) == Put(a, k, v)
  {
  }

  /** `unset($a[$k])`. */
  function Remove<K(==,!new), V>(a: Assoc<K, V>, k: K): (r: Assoc<K, V>)
    ensures r.keys == Outside(a.keys, [k])
    ensures r.vals == a.vals
  {
    OutsideDistinct(a.keys, [k]);
    Entries(Outside(a.keys, [k]), a.vals)
  }

  /** `array_replace($a, $b)`: the keys of a, then the new keys of b; b's
      value wins on a shared key. */
  function Replace<K(==,!new), V>(a: Assoc<K, V>, b: Assoc<K, V>): (r: Assoc<K, V>)
    ensures r.keys == a.keys + Outside(b.keys, a.keys)
    ensures forall x | x in r.keys :: r.vals[x] == if x in b.keys then b.vals[x] else a.vals[x]
  {
    var keys := a.keys + Outside(b.keys, a.keys);
    OutsideDistinct(b.keys, a.keys);
    DistinctConcat(a.keys, Outside(b.keys, a.keys));
    Entries(keys, map x | x in keys :: if x in b.keys then b.vals[x] else a.vals[x])
  }

  /** `$a + $b`: the keys of a, then the new keys of b; a's value wins on a
      shared key. */
  function Union<K(==,!new), V>(a: Assoc<K, V>, b: Assoc<K, V>): (r: Assoc<K, V>)
    ensures r.keys == a.keys + Outside(b.keys, a.keys)
    ensures forall x | x in r.keys :: r.vals[x] == if x in a.keys then a.vals[x] else b.vals[x]
  {
    var keys := a.keys + Outside(b.keys, a.keys);
    OutsideDistinct(b.keys, a.keys);
    DistinctConcat(a.keys, Outside(b.keys, a.keys));
    Entries(keys, map x | x in keys :: if x in a.keys then a.vals[x] else b.vals[x])
  }

  /** `array_fill_keys(array_keys($a), $v)`. */
  function FillKeys<K(==,!new), U, V>(a: Assoc<K, U>, v: V): (r: Assoc<K, V>)
    ensures r.keys == a.keys
    ensures forall x | x in r.keys :: r.vals[x] == v
  {
    Entries(a.keys, map x | x in a.keys :: v)
  }

  /** `array_fill_keys($keys, $v)` for a sequence of keys without repetition. */
  function FillList<K(==,!new), V>(keys: seq<K>, v: V): (r: Assoc<K, V>)
    requires Distinct(keys)
    ensures r.keys == keys
    ensures forall x | x in r.keys :: r.vals[x] == v
  {
    Entries(keys, map x | x in keys :: v)
  }

  /** The keys of a whose value is true. */
  function TrueKeys<K(==,!new)>(a: Assoc<K, bool>): set<K> {
    set k | k in a.keys && a.vals[k]
  }

  /** `array_filter($a)` on an array of booleans. */
  function KeepTrue<K(==,!new)>(a: Assoc<K, bool>): (r: Assoc<K, bool>)
    ensures r.keys == Among(a.keys, TrueKeys(a))
    ensures r.vals == a.vals
  {
    AmongDistinct(a.keys, TrueKeys(a));
    Entries(Among(a.keys, TrueKeys(a)), a.vals)
  }

  /** `array_intersect_key($a, $b)`: the entries of a whose key b has, in a's order. */
  function IntersectKey<K(==,!new), V, U>(a: Assoc<K, V>, b: Assoc<K, U>): (r: Assoc<K, V>)
    ensures r.keys == Within(a.keys, b.keys)
    ensures r.vals == a.vals
  {
    WithinDistinct(a.keys, b.keys);
    Entries(Within(a.keys, b.keys), a.vals)
  }

  /** `array_values($a)`. */
  function Values<K(==,!new), V>(a: Assoc<K, V>): (r: seq<V>)
    ensures |r| == |a.keys|
    ensures forall i :: 0 <= i < |r| ==> r[i] == a.vals[a.keys[i]]
  {
    seq(|a.keys|, i requires 0 <= i < |a.keys| => a.vals[a.keys[i]])
  }
}
