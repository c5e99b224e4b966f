/** Python's `dict`, which remembers the order its keys were first inserted.

    The order is behaviour, not presentation: the fill poll visits orders in this order, and
    "move to the back" is a `pop` followed by a re-insertion. */
module InsertionDict {

  predicate NoDup<T(==)>(s: seq<T>) {
    s == [] || (s[0] !in s[1..] && NoDup(s[1..]))
  }

  function Elems<T(==)>(s: seq<T>): set<T> {
    if s == [] then {} else {s[0]} + Elems(s[1..])
  }

  /** `s` without its occurrences of `x`, in order. */
  function Without<T(==)>(s: seq<T>, x: T): seq<T> {
    if s == [] then []
    else if s[0] == x then Without(s[1..], x)
    else [s[0]] + Without(s[1..], x)
  }

  /** Position of the first occurrence of `x` in `s`; |s| when there is none. */
  function IndexOf<T(==)>(s: seq<T>, x: T): nat {
    if s == [] || s[0] == x then 0 else 1 + IndexOf(s[1..], x)
  }

  datatype RawDict<K(==), +V> = RawDict(keys: seq<K>, vals: map<K, V>)

  ghost predicate Valid<K, V>(d: RawDict<K, V>) {
    NoDup(d.keys) && d.vals.Keys == Elems(d.keys)
  }

  type Dict<K(==), +V> = d: RawDict<K, V> | Valid(d) witness RawDict([], map[])

  function Empty<K(==), V>(): (d: Dict<K, V>)
    ensures d.keys == [] && d.vals == map[]
  {
    RawDict([], map[])
  }

  /** `d[k] = v`: an existing key keeps its place, a new one goes last. */
  function Put<K(==), V>(d: Dict<K, V>, k: K, v: V): (r: Dict<K, V>)
    ensures r.vals == d.vals[k := v]
    ensures r.keys == if k in d.vals then d.keys else d.keys + [k]
  {
    KeysAndValues(d, k);
    AppendKeeps(d.keys, k);
    RawDict(if k in d.vals then d.keys else d.keys + [k], d.vals[k := v])
  }

  /** `del d[k]`. */
  function Drop<K(==), V>(d: Dict<K, V>, k: K): (r: Dict<K, V>)
    ensures r.vals == d.vals - {k}
    ensures r.keys == Without(d.keys, k)
  {
    WithoutKeeps(d.keys, k);
    RawDict(Without(d.keys, k), d.vals - {k})
  }

  /** `d[k] = d.pop(k)`: the entry moves behind all the others. */
  function ToBack<K(==), V>(d: Dict<K, V>, k: K): (r: Dict<K, V>)
    requires k in d.vals
    ensures r.vals == d.vals
    ensures r.keys == Without(d.keys, k) + [k]
  {
    Put(Drop(d, k), k, d.vals[k])
  }

  // ---- laws

  lemma {:induction false} InElems<T>(s: seq<T>, x: T)
    ensures x in Elems(s) <==> x in s
  {
    if s != [] {
      assert s == [s[0]] + s[1..];
      InElems(s[1..], x);
    }
  }

  /** A key has a value exactly when it is in the key order. */
  lemma KeysAndValues<K, V>(d: Dict<K, V>, k: K)
    ensures k in d.vals <==> k in d.keys
  {
    InElems(d.keys, k);
  }

  lemma {:induction false} AppendKeeps<T>(s: seq<T>, x: T)
    requires NoDup(s)
    ensures Elems(s + [x]) == Elems(s) + {x}
    ensures x !in s ==> NoDup(s + [x])
  {
    if s == [] {
      assert s + [x] == [x];
    } else {
      assert (s + [x])[1..] == s[1..] + [x];
      AppendKeeps(s[1..], x);
    }
  }

  lemma {:induction false} WithoutKeeps<T>(s: seq<T>, x: T)
    requires NoDup(s)
    ensures Elems(Without(s, x)) == Elems(s) - {x}
    ensures NoDup(Without(s, x))
  {
    if s != [] {
      WithoutKeeps(s[1..], x);
      InElems(s[1..], s[0]);
      InElems(Without(s[1..], x), s[0]);
      assert ([s[0]] + Without(s[1..], x))[1..] == Without(s[1..], x);
    }
  }

  lemma {:induction false} IndexOfBounds<T>(s: seq<T>, x: T)
    ensures IndexOf(s, x) <= |s|
    ensures x in s <==> IndexOf(s, x) < |s|
    ensures IndexOf(s, x) < |s| ==> s[IndexOf(s, x)] == x
  {
    if s != [] {
      assert s == [s[0]] + s[1..];
      IndexOfBounds(s[1..], x);
    }
  }

  lemma {:induction false} IndexOfAppend<T>(s: seq<T>, t: seq<T>, x: T)
    requires x in s
    ensures IndexOf(s + t, x) == IndexOf(s, x)
  {
    if s[0] != x {
      assert (s + t)[1..] == s[1..] + t;
      IndexOfAppend(s[1..], t, x);
    }
  }

  lemma IndexOfCons<T>(x: T, s: seq<T>, y: T)
    requires x != y
    ensures IndexOf([x] + s, y) == 1 + IndexOf(s, y)
  {
    assert ([x] + s)[1..] == s;
  }

  /** Deleting a key never moves another one back, and moves those behind it forward. */
  lemma {:induction false} WithoutShifts<T>(s: seq<T>, x: T, y: T)
    requires y in s && y != x
    ensures y in Without(s, x)
    ensures IndexOf(Without(s, x), y) <= IndexOf(s, y)
    ensures IndexOf(s, x) < IndexOf(s, y) ==> IndexOf(Without(s, x), y) < IndexOf(s, y)
  {
    if s[0] != y {
      var rest := Without(s[1..], x);
      WithoutShifts(s[1..], x, y);
      if s[0] != x {
        IndexOfCons(s[0], rest, y);
      }
    }
  }

  lemma {:induction false} NoDupIndices<T>(s: seq<T>, i: nat, j: nat)
    requires NoDup(s) && i < j < |s|
    ensures s[i] != s[j]
  {
    if i > 0 {
      NoDupIndices(s[1..], i - 1, j - 1);
    }
  }

  /** Storing an entry it already holds leaves a dictionary as it was. */
  lemma PutSame<K, V>(d: Dict<K, V>, k: K)
    requires k in d.vals
    ensures Put(d, k, d.vals[k]) == d
  {
    assert d.vals[k := d.vals[k]] == d.vals;
  }
}
