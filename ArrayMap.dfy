/** Model of ezArrayMapBase (Foundation/Containers/ArrayMap.h): an associative
    container whose key/value pairs live in one contiguous array that is sorted
    lazily, and which may hold several pairs under the same key (a multimap).

    Keys are modelled as `int`, whose `<` stands for KEY's operator<; values are
    a type parameter. The header's `mutable` array and sorted flag are the
    fields `data` and `sorted`; lookups therefore modify the object, exactly as
    the `const` lookups of the source re-sort the `mutable` state. */
module ArrayMap {

  /** ezInvalidIndex: what Find returns when no pair has the key. Counts and
      indices are ezUInt32, so a valid index is always below it. */
  const InvalidIndex: nat := 0xFFFF_FFFF

  /** ezArrayMapBase::Pair. */
  datatype Pair<V> = Pair(key: int, value: V)

  /** Pair::operator< compares the keys only. */
  predicate PairLess<V>(a: Pair<V>, b: Pair<V>)
  {
    a.key < b.key
  }

  /** Pair::operator== compares the keys only. */
  predicate PairEquivalent<V>(a: Pair<V>, b: Pair<V>)
  {
    a.key == b.key
  }

  /** The pair order is a strict weak order whose equivalence classes are the
      pairs with equal keys, whatever their values. */
  lemma PairOrderIsStrictWeak<V>(a: Pair<V>, b: Pair<V>, c: Pair<V>)
    ensures !PairLess(a, a)
    ensures PairLess(a, b) && PairLess(b, c) ==> PairLess(a, c)
    ensures PairEquivalent(a, b) <==> !PairLess(a, b) && !PairLess(b, a)
    ensures PairEquivalent(a, b) <==> PairEquivalent(Pair(a.key, c.value), b)
  {
  }

  /** Sorted by the pair order: no pair is less than one before it, so keys
      are non-decreasing and equal keys sit side by side in any value order. */
  ghost predicate SortedByKey<V>(s: seq<Pair<V>>)
  {
    forall i, j :: 0 <= i < j < |s| ==> !PairLess(s[j], s[i])
  }

  /** Some stored pair has key `k`. */
  ghost predicate HasKey<V>(s: seq<Pair<V>>, k: int)
  {
    exists i :: 0 <= i < |s| && s[i].key == k
  }

  /** Whether a key is present depends only on the multiset of pairs, not on
      their order, so sorting never changes the answer of a lookup. */
  lemma HasKeyByMultiset<V>(s: seq<Pair<V>>, t: seq<Pair<V>>, k: int)
    requires multiset(s) == multiset(t)
    ensures HasKey(s, k) <==> HasKey(t, k)
  {
    if HasKey(s, k) {
      var i :| 0 <= i < |s| && s[i].key == k;
      assert s[i] in multiset(t);
      var j :| 0 <= j < |t| && t[j] == s[i];
    }
    if HasKey(t, k) {
      var j :| 0 <= j < |t| && t[j].key == k;
      assert t[j] in multiset(s);
      var i :| 0 <= i < |s| && s[i] == t[j];
    }
  }

  /** Removing one element from a sorted array, keeping the order of the
      rest, leaves it sorted. */
  lemma {:induction false} SortedRemove<V>(s: seq<Pair<V>>, i: nat)
    requires SortedByKey(s) && i < |s|
    ensures SortedByKey(s[..i] + s[i + 1..])
  {
    var r := s[..i] + s[i + 1..];
    forall x, y | 0 <= x < y < |r| ensures r[x].key <= r[y].key {
      var x' := if x < i then x else x + 1;
      var y' := if y < i then y else y + 1;
      assert r[x] == s[x'] && r[y] == s[y'];
    }
  }

  /** Cutting element `i` out of an array removes exactly that element from
      its multiset. */
  lemma CutMultiset<V>(s: seq<Pair<V>>, i: nat)
    requires i < |s|
    ensures multiset(s[..i] + s[i + 1..]) == multiset(s) - multiset{s[i]}
  {
    assert s == s[..i] + [s[i]] + s[i + 1..];
  }

  /** Moving the last element into slot `i` and dropping the last slot removes
      exactly the old element `i` from the multiset. */
  lemma SwapRemoveMultiset<V>(s: seq<Pair<V>>, i: nat)
    requires i < |s|
    ensures multiset(s[i := s[|s| - 1]][..|s| - 1]) == multiset(s) - multiset{s[i]}
  {
    var last := |s| - 1;
    if i < last {
      assert s == s[..i] + [s[i]] + s[i + 1..last] + [s[last]];
      assert s[i := s[last]][..last] == s[..i] + [s[last]] + s[i + 1..last];
    } else {
      assert s == s[..last] + [s[last]];
    }
  }

  /** One step of insertion: swapping the element at `j` with its larger left
      neighbour keeps the multiset and moves the "hole" of the sorted prefix
      one to the left. */
  lemma SwapDown<V>(a: seq<Pair<V>>, i: nat, j: nat)
    requires 0 < j <= i < |a| && a[j].key < a[j - 1].key
    requires forall x, y :: 0 <= x < y <= i && x != j && y != j ==> a[x].key <= a[y].key
    requires forall y :: j < y <= i ==> a[j].key <= a[y].key
    ensures var b := a[j - 1 := a[j]][j := a[j - 1]];
      && |b| == |a| && multiset(b) == multiset(a)
      && (forall x, y :: 0 <= x < y <= i && x != j - 1 && y != j - 1 ==> b[x].key <= b[y].key)
      && (forall y :: j - 1 < y <= i ==> b[j - 1].key <= b[y].key)
  {
    var b := a[j - 1 := a[j]][j := a[j - 1]];
    assert a == a[..j - 1] + [a[j - 1], a[j]] + a[j + 1..];
    assert b == a[..j - 1] + [a[j], a[j - 1]] + a[j + 1..];
    forall x, y | 0 <= x < y <= i && x != j - 1 && y != j - 1 ensures b[x].key <= b[y].key {
      var x' := if x == j then j - 1 else x;
      var y' := if y == j then j - 1 else y;
      assert b[x] == a[x'] && b[y] == a[y'];
    }
    forall y | j - 1 < y <= i ensures b[j - 1].key <= b[y].key {
      if y > j {
        assert b[y] == a[y];
      }
    }
  }

  /** One pass of insertion sort: `s[..i]` is sorted and `s[i]` is moved down
      past every larger key, so that `s[..i + 1]` is sorted. */
  method InsertDown<V>(s: seq<Pair<V>>, i: nat) returns (a: seq<Pair<V>>)
    requires i < |s|
    requires forall x, y :: 0 <= x < y < i ==> s[x].key <= s[y].key
    ensures |a| == |s| && multiset(a) == multiset(s)
    ensures forall x, y :: 0 <= x < y <= i ==> a[x].key <= a[y].key
  {
    a := s;
    var j := i;
    while 0 < j && PairLess(a[j], a[j - 1])
      invariant 0 <= j <= i < |a| == |s|
      invariant multiset(a) == multiset(s)
      invariant forall x, y :: 0 <= x < y <= i && x != j && y != j ==> a[x].key <= a[y].key
      invariant forall y :: j < y <= i ==> a[j].key <= a[y].key
    {
      SwapDown(a, i, j);
      a := a[j - 1 := a[j]][j := a[j - 1]];
      j := j - 1;
    }
    forall x, y | 0 <= x < y <= i ensures a[x].key <= a[y].key {
      if y == j && x < j - 1 {
        assert a[x].key <= a[j - 1].key;
      }
    }
  }

  /** The sort behind Sort: an insertion sort into key order that keeps the
      multiset of pairs. */
  method InsertionSort<V>(s: seq<Pair<V>>) returns (a: seq<Pair<V>>)
    ensures SortedByKey(a) && multiset(a) == multiset(s)
  {
    a := s;
    var i := 0;
    while i < |a|
      invariant 0 <= i <= |a| == |s|
      invariant multiset(a) == multiset(s)
      invariant forall x, y :: 0 <= x < y < i ==> a[x].key <= a[y].key
    {
      a := InsertDown(a, i);
      i := i + 1;
    }
  }

  /** The binary search behind Find, on an array already sorted by key:
      returns an index holding key `key`, or InvalidIndex exactly when there
      is none. The key is compared through the pair order, as a pair whose
      value is irrelevant to it (PairOrderIsStrictWeak). */
  method FindIndex<V>(s: seq<Pair<V>>, key: int) returns (r: nat)
    requires SortedByKey(s) && |s| < InvalidIndex
    ensures r == InvalidIndex <==> !HasKey(s, key)
    ensures r != InvalidIndex ==> r < |s| && s[r].key == key
  {
    var lo, hi := 0, |s|;
    while lo < hi
      invariant 0 <= lo <= hi <= |s|
      invariant forall i :: 0 <= i < lo ==> s[i].key < key
      invariant forall i :: hi <= i < |s| ==> key < s[i].key
    {
      var mid := lo + (hi - lo) / 2;
      var probe := Pair(key, s[mid].value);
      if PairLess(s[mid], probe) {
        lo := mid + 1;
      } else if PairLess(probe, s[mid]) {
        hi := mid;
      } else {
        return mid;
      }
    }
    return InvalidIndex;
  }

  /** ezArrayMapBase<KEY, VALUE> with KEY = int. */
  class ArrayMapBase<V> {
    /** m_Data */
    var data: seq<Pair<V>>
    /** m_bSorted: when set, `data` is sorted by key. */
    var sorted: bool

    ghost predicate Valid()
      reads this
    {
      |data| < InvalidIndex && (sorted ==> SortedByKey(data))
    }

    /** A new map is empty (and trivially sorted). */
    constructor ()
      ensures Valid() && data == [] && sorted
    {
      data := [];
      sorted := true;
    }

    /** GetCount: the number of stored pairs, duplicates included. */
    method GetCount() returns (n: nat)
      requires Valid()
      ensures n == |data| && n < InvalidIndex
    {
      n := |data|;
    }

    /** IsEmpty */
    method IsEmpty() returns (empty: bool)
      requires Valid()
      ensures empty <==> data == []
    {
      empty := |data| == 0;
    }

    /** Clear: purges every pair. */
    method Clear()
      requires Valid()
      modifies this
      ensures Valid() && data == [] && sorted
    {
      data := [];
      sorted := true;
    }

    /** Insert: always appends a new pair, even when the key is present, and
        returns its (briefly valid) index; the map is marked unsorted. */
    method Insert(key: int, value: V) returns (index: nat)
      requires Valid() && |data| + 1 < InvalidIndex
      modifies this
      ensures Valid() && !sorted
      ensures data == old(data) + [Pair(key, value)]
      ensures |data| == old(|data|) + 1
      ensures index == old(|data|) && data[index] == Pair(key, value)
    {
      data := data + [Pair(key, value)];
      sorted := false;
      index := |data| - 1;
    }

    /** Sort: a no-op when the flag says sorted; otherwise the pairs are sorted
        by key. Either way the result is sorted and holds the same pairs with
        the same multiplicities. */
    method Sort()
      requires Valid()
      modifies this
      ensures Valid() && sorted
      ensures SortedByKey(data) && multiset(data) == multiset(old(data))
      ensures old(sorted) ==> data == old(data)
    {
      if sorted {
        return;
      }
      data := InsertionSort(data);
      sorted := true;
    }

    /** Find: sorts, then returns an index of one pair with the key, or
        InvalidIndex exactly when no pair has it. A map already sorted is
        left exactly as it was, so earlier indices stay valid. */
    method Find(key: int) returns (index: nat)
      requires Valid()
      modifies this
      ensures Valid() && sorted && multiset(data) == multiset(old(data))
      ensures index == InvalidIndex <==> !HasKey(old(data), key)
      ensures index != InvalidIndex ==> index < |data| && data[index].key == key
      ensures old(sorted) ==> data == old(data)
    {
      Sort();
      HasKeyByMultiset(data, old(data), key);
      index := FindIndex(data, key);
    }

    /** Contains: whether some stored pair has the key; like Find, it leaves
        a sorted map as it was. */
    method Contains(key: int) returns (found: bool)
      requires Valid()
      modifies this
      ensures Valid() && sorted && multiset(data) == multiset(old(data))
      ensures found <==> HasKey(old(data), key)
      ensures old(sorted) ==> data == old(data)
    {
      var index := Find(key);
      found := index != InvalidIndex;
    }

    /** FindOrAdd: the index of a pair with the key; when there is none, one
        pair (key, init) is added first, `init` standing for the
        default-constructed VALUE. `existed` tells which case happened. On a
        map already sorted, the pairs stay in place and a new one is
        appended. */
    method FindOrAdd(key: int, init: V) returns (index: nat, existed: bool)
      requires Valid() && |data| + 1 < InvalidIndex
      modifies this
      ensures Valid() && index < |data| && data[index].key == key
      ensures existed <==> HasKey(old(data), key)
      ensures existed ==> multiset(data) == multiset(old(data)) && |data| == old(|data|)
      ensures !existed ==> (multiset(data) == multiset(old(data)) + multiset{Pair(key, init)}
                            && |data| == old(|data|) + 1 && data[index] == Pair(key, init))
      ensures old(sorted) && existed ==> data == old(data)
      ensures old(sorted) && !existed ==> data == old(data) + [Pair(key, init)]
    {
      index := Find(key);
      existed := index != InvalidIndex;
      assert |data| == old(|data|) by {
        assert |multiset(data)| == |multiset(old(data))|;
      }
      if !existed {
        index := Insert(key, init);
      }
    }

    /** operator[](key): the same as FindOrAdd. */
    method Subscript(key: int, init: V) returns (index: nat)
      requires Valid() && |data| + 1 < InvalidIndex
      modifies this
      ensures Valid() && index < |data| && data[index].key == key
      ensures HasKey(old(data), key) ==> multiset(data) == multiset(old(data)) && |data| == old(|data|)
      ensures !HasKey(old(data), key) ==> (multiset(data) == multiset(old(data)) + multiset{Pair(key, init)}
                                           && |data| == old(|data|) + 1 && data[index] == Pair(key, init))
      ensures old(sorted) && HasKey(old(data), key) ==> data == old(data)
      ensures old(sorted) && !HasKey(old(data), key) ==> data == old(data) + [Pair(key, init)]
    {
      var existed;
      index, existed := FindOrAdd(key, init);
    }

    /** Remove(index, bKeepSorted): on a sorted map with bKeepSorted the pair is
        cut out and the order of the rest kept; otherwise the last pair is
        moved into its place and the map is marked unsorted. */
    method RemoveAt(index: nat, keepSorted: bool)
      requires Valid() && index < |data|
      modifies this
      ensures Valid() && |data| == old(|data|) - 1
      ensures multiset(data) == multiset(old(data)) - multiset{old(data)[index]}
      ensures old(sorted) && keepSorted ==> sorted && data == old(data[..index] + data[index + 1..])
      ensures !(old(sorted) && keepSorted) ==> !sorted && data == old(data[index := data[|data| - 1]][..|data| - 1])
    {
      if sorted && keepSorted {
        RemoveKeepingOrder(index);
      } else {
        RemoveBySwap(index);
      }
    }

    /** The order-preserving branch of RemoveAt, taken on a sorted map. */
    method RemoveKeepingOrder(index: nat)
      requires Valid() && sorted && index < |data|
      modifies this
      ensures Valid() && sorted && data == old(data[..index] + data[index + 1..])
      ensures |data| == old(|data|) - 1 && multiset(data) == multiset(old(data)) - multiset{old(data)[index]}
    {
      CutMultiset(data, index);
      SortedRemove(data, index);
      data := data[..index] + data[index + 1..];
    }

    /** The constant-time branch of RemoveAt: the last pair moves into the
        freed slot and the map is no longer known to be sorted. */
    method RemoveBySwap(index: nat)
      requires Valid() && index < |data|
      modifies this
      ensures Valid() && !sorted && data == old(data[index := data[|data| - 1]][..|data| - 1])
      ensures |data| == old(|data|) - 1 && multiset(data) == multiset(old(data)) - multiset{old(data)[index]}
    {
      SwapRemoveMultiset(data, index);
      data := data[index := data[|data| - 1]][..|data| - 1];
      sorted := false;
    }

    /** Remove(key, bKeepSorted): removes ONE pair with the key and says
        whether there was one; further pairs with the same key stay. */
    method Remove(key: int, keepSorted: bool) returns (removed: bool)
      requires Valid()
      modifies this
      ensures Valid()
      ensures removed <==> HasKey(old(data), key)
      ensures !removed ==> multiset(data) == multiset(old(data)) && |data| == old(|data|)
      ensures removed ==> |data| == old(|data|) - 1
      ensures removed ==> (exists p :: p in multiset(old(data)) && p.key == key
                                    && multiset(data) == multiset(old(data)) - multiset{p})
      ensures removed && keepSorted ==> sorted
    {
      var index := Find(key);
      if index == InvalidIndex {
        assert |multiset(data)| == |multiset(old(data))|;
        return false;
      }
      ghost var p := data[index];
      assert p in multiset(old(data)) by {
        assert p in multiset(data);
      }
      assert |multiset(data)| == |multiset(old(data))|;
      RemoveAt(index, keepSorted);
      return true;
    }
  }
}
