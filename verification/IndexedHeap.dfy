/**
 A heap of entries with a side map from keys to entries.  Each entry records its own
 slot, so that an update or a removal finds it without a search; every exchange of two
 slots has to keep these records right.  The periodic dispatcher's launch heap and the
 client's queue of finished allocations are both built this way.
 */
module IndexedHeap {
  import opened GoHeap

  type ID = string

  // Nanoseconds since the zero time
  type Time = int

  // What the heap order sees of an entry.
  datatype Item = Item(key: ID, time: Time)

  function Cmp(before: (Time, Time) -> bool): (Item, Item) -> bool {
    (a: Item, b: Item) => before(a.time, b.time)
  }

  ghost predicate StrictWeak(before: (Time, Time) -> bool) {
    && (forall a, b | before(a, b) :: !before(b, a))
    && (forall a, b, c | !before(b, a) && !before(c, b) :: !before(c, a))
  }

  lemma CmpIsWeakOrder(before: (Time, Time) -> bool, s: set<Item>)
    requires StrictWeak(before)
    ensures WeakOrder(Cmp(before), s)
  {
  }

  ghost function Elems(h: seq<Item>): set<Item> {
    set x | x in h
  }

  // The slice operations, for any strict weak order of times.

  lemma PushKeeps(before: (Time, Time) -> bool, h: seq<Item>, x: Item)
    requires StrictWeak(before) && IsHeap(Cmp(before), h)
    ensures IsHeap(Cmp(before), Push(Cmp(before), h, x))
  {
    CmpIsWeakOrder(before, Elems(h) + {x});
    PushCorrect(Cmp(before), h, x, Elems(h) + {x});
  }

  lemma PopKeeps(before: (Time, Time) -> bool, h: seq<Item>)
    requires StrictWeak(before) && IsHeap(Cmp(before), h) && h != []
    ensures IsHeap(Cmp(before), PopRest(Cmp(before), h)) && PopTop(Cmp(before), h) == h[0]
  {
    CmpIsWeakOrder(before, Elems(h));
    PopCorrect(Cmp(before), h, Elems(h));
  }

  lemma DetachKeeps(before: (Time, Time) -> bool, h: seq<Item>, i: nat)
    requires StrictWeak(before) && IsHeap(Cmp(before), h) && i < |h|
    ensures IsHeap(Cmp(before), Detach(Cmp(before), h, i)[..|h| - 1]) && Detach(Cmp(before), h, i)[|h| - 1] == h[i]
  {
    CmpIsWeakOrder(before, Elems(h));
    DetachCorrect(Cmp(before), h, i, Elems(h));
  }

  // Any change to one element of a heap can be repaired from its slot.
  lemma FixKeeps(before: (Time, Time) -> bool, h: seq<Item>, i: nat, x: Item)
    requires StrictWeak(before) && IsHeap(Cmp(before), h) && i < |h|
    ensures IsHeap(Cmp(before), Fix(Cmp(before), h[i := x], i))
  {
    var less, s, g := Cmp(before), Elems(h) + {x}, h[i := x];
    CmpIsWeakOrder(before, s);
    forall c | 0 < c < |g| && i > 0 && c != i && Parent(c) == i ensures !less(g[c], g[Parent(i)]) {
      assert !less(h[i], h[Parent(i)]) && !less(h[c], h[i]);
    }
    FixCorrect(less, g, i, s);
  }

  lemma TopIsFirst(before: (Time, Time) -> bool, h: seq<Item>, i: nat)
    requires StrictWeak(before) && IsHeap(Cmp(before), h) && i < |h|
    ensures !before(h[i].time, h[0].time)
  {
    CmpIsWeakOrder(before, Elems(h));
    RootIsLeast(Cmp(before), h, i, Elems(h));
  }

  // As many slots as keys.
  lemma {:induction false} DistinctKeys(h: seq<Item>, keys: set<ID>)
    requires forall i | 0 <= i < |h| :: h[i].key in keys
    requires forall k | k in keys :: exists i :: 0 <= i < |h| && h[i].key == k
    requires forall i, j | 0 <= i < j < |h| :: h[i].key != h[j].key
    ensures |h| == |keys|
  {
    if h != [] {
      var n := |h| - 1;
      var init, rest := h[..n], keys - {h[n].key};
      forall k | k in rest ensures exists i :: 0 <= i < |init| && init[i].key == k {
        var i :| 0 <= i < |h| && h[i].key == k;
        assert init[i].key == k;
      }
      DistinctKeys(init, rest);
      assert keys == rest + {h[n].key};
    } else {
      assert keys == {};
    }
  }

  class Entry<V> {
    const key: ID
    var value: V
    var time: Time
    var index: int

    constructor (key: ID, value: V, time: Time)
      ensures this.key == key && this.value == value && this.time == time
    {
      this.key, this.value, this.time, this.index := key, value, time, 0;
    }
  }

  datatype Popped<V> = Nothing | Entry(key: ID, value: V, time: Time)

  // The key holds this value and no other key has an earlier time.
  ghost predicate Earliest<V>(before: (Time, Time) -> bool, m: map<ID, (V, Time)>, key: ID, value: V, time: Time) {
    key in m && m[key] == (value, time) && forall k | k in m :: !before(m[k].1, time)
  }

  class IndexedHeap<V> {
    const before: (Time, Time) -> bool
    var index: map<ID, Entry<V>>
    var heap: seq<Entry<V>>

    ghost var repr: set<Entry<V>>
    ghost var slots: seq<Item>
    ghost var contents: map<ID, (V, Time)>

    // A slot's entry knows its slot and is known to the side map.
    ghost predicate SlotOk(i: int)
      requires |slots| == |heap|
      reads this, repr
    {
      0 <= i < |heap| ==>
        && heap[i] in repr && heap[i].key in index && index[heap[i].key] == heap[i]
        && heap[i].index == i && slots[i] == Item(heap[i].key, heap[i].time)
    }

    // A key's entry is in the slice and is what contents says.
    ghost predicate KeyOk(k: ID)
      reads this, repr
    {
      k in index ==>
        && index[k] in repr && index[k].key == k
        && 0 <= index[k].index < |heap| && heap[index[k].index] == index[k]
        && k in contents && contents[k] == (index[k].value, index[k].time)
    }

    // The side map and the slice hold the same entries; slots is what the order sees
    // of the slice, contents the map that the heap stands for.
    ghost predicate Linked()
      reads this, repr
    {
      |slots| == |heap| && contents.Keys == index.Keys && (forall i :: SlotOk(i)) && (forall k :: KeyOk(k))
    }

    ghost predicate Valid()
      reads this, repr
    {
      Linked() && StrictWeak(before) && IsHeap(Cmp(before), slots)
    }

    constructor (before: (Time, Time) -> bool)
      requires StrictWeak(before)
      ensures Valid() && this.before == before && contents == map[] && repr == {}
    {
      this.before := before;
      index, heap, repr, slots, contents := map[], [], {}, [], map[];
    }

    // Swap of the heap interface
    method Exchange(i: nat, j: nat)
      requires Linked() && i < |heap| && j < |heap|
      modifies this`heap, this`slots, repr`index
      ensures Linked()
      ensures heap == Swap(old(heap), i, j) && slots == Swap(old(slots), i, j)
    {
      assert SlotOk(i) && SlotOk(j);
      heap := heap[i := heap[j]][j := heap[i]];
      heap[i].index := i;
      heap[j].index := j;
      slots := Swap(slots, i, j);
      forall x ensures SlotOk(x) {
        assert old(SlotOk(x));
      }
      forall k ensures KeyOk(k) {
        assert old(KeyOk(k));
      }
    }

    method SiftUp(j0: nat)
      requires Linked() && j0 < |heap|
      modifies this`heap, this`slots, repr`index
      ensures Linked() && slots == Up(Cmp(before), old(slots), j0)
    {
      var j := j0;
      while true
        invariant Linked() && 0 <= j < |heap|
        invariant Up(Cmp(before), slots, j) == Up(Cmp(before), old(slots), j0)
        decreases j
      {
        var i := Parent(j);
        assert SlotOk(i) && SlotOk(j);
        if i == j || !before(heap[j].time, heap[i].time) {
          break;
        }
        Exchange(i, j);
        j := i;
      }
    }

    method SiftDown(i0: nat, n: nat) returns (moved: bool)
      requires Linked() && i0 < n <= |heap|
      modifies this`heap, this`slots, repr`index
      ensures Linked() && slots == Down(Cmp(before), old(slots), i0, n)
      ensures moved == Moves(Cmp(before), old(slots), i0, n)
    {
      var i := i0;
      while true
        invariant Linked() && 0 <= i < n <= |heap|
        invariant Down(Cmp(before), slots, i, n) == Down(Cmp(before), old(slots), i0, n)
        invariant i == i0 ==> slots == old(slots)
        invariant i0 <= i && (i > i0 ==> Moves(Cmp(before), old(slots), i0, n))
        decreases n - i
      {
        var j1 := 2 * i + 1;
        if j1 >= n {
          break;
        }
        var j, j2 := j1, j1 + 1;
        assert SlotOk(i) && SlotOk(j1) && SlotOk(j2);
        if j2 < n && before(heap[j2].time, heap[j1].time) {
          j := j2;
        }
        assert j == Child(Cmp(before), slots, i, n);
        if !before(heap[j].time, heap[i].time) {
          break;
        }
        Exchange(i, j);
        i := j;
      }
      moved := i > i0;
    }

    // Pop of the heap interface, with the deletion from the side map.
    method CutLast() returns (e: Entry<V>)
      requires Linked() && heap != []
      modifies this`heap, this`slots, this`contents, this`index, repr`index
      ensures Linked() && slots == old(slots[..|slots| - 1])
      ensures e.key == old(slots)[|old(slots)| - 1].key && e.key in old(contents)
      ensures old(contents)[e.key] == (e.value, e.time) && contents == old(contents) - {e.key}
    {
      var n := |heap| - 1;
      e := heap[n];
      assert SlotOk(n) && KeyOk(e.key);
      e.index := -1;
      heap, slots := heap[..n], slots[..n];
      index, contents := index - {e.key}, contents - {e.key};
      forall i ensures SlotOk(i) {
        assert old(SlotOk(i));
      }
      forall k ensures KeyOk(k) {
        assert old(KeyOk(k));
      }
    }

    method Repair(i: nat, n: nat)
      requires Linked() && i < n <= |heap|
      modifies this`heap, this`slots, repr`index
      ensures Linked() && slots == FixPrefix(Cmp(before), old(slots), i, n)
    {
      var moved := SiftDown(i, n);
      if !moved {
        assert slots == old(slots);
        SiftUp(i);
      }
    }

    // Append an entry that the side map does not know yet.
    method Append(e: Entry<V>)
      requires Linked() && e !in repr && e.key !in index
      modifies this`heap, this`slots, this`contents, this`index, this`repr, e`index
      ensures Linked() && slots == old(slots) + [Item(e.key, e.time)]
      ensures contents == old(contents)[e.key := (e.value, e.time)] && repr == old(repr) + {e}
    {
      index, repr := index[e.key := e], repr + {e};
      contents := contents[e.key := (e.value, e.time)];
      e.index := |heap|;
      heap, slots := heap + [e], slots + [Item(e.key, e.time)];
      forall i ensures SlotOk(i) {
        assert old(SlotOk(i));
      }
      forall k ensures KeyOk(k) {
        assert old(KeyOk(k));
      }
    }

    method Insert(key: ID, value: V, time: Time)
      requires Linked() && key !in contents
      modifies this, repr
      ensures Linked() && slots == GoHeap.Push(Cmp(before), old(slots), Item(key, time))
      ensures contents == old(contents)[key := (value, time)] && fresh(repr - old(repr))
    {
      var e := new Entry(key, value, time);
      Append(e);
      SiftUp(|heap| - 1);
    }

    method TakeFirst() returns (e: Entry<V>)
      requires Linked() && heap != []
      modifies this, repr
      ensures Linked() && repr == old(repr) && slots == PopRest(Cmp(before), old(slots))
      ensures e.key == PopTop(Cmp(before), old(slots)).key && e.key in old(contents)
      ensures old(contents)[e.key] == (e.value, e.time) && contents == old(contents) - {e.key}
    {
      var n := |heap| - 1;
      if n > 0 {
        Exchange(0, n);
        var moved := SiftDown(0, n);
      }
      e := CutLast();
    }

    method TakeAt(i: nat) returns (e: Entry<V>)
      requires Linked() && i < |heap|
      modifies this, repr
      ensures Linked() && repr == old(repr) && slots == Detach(Cmp(before), old(slots), i)[..|old(slots)| - 1]
      ensures e.key == Detach(Cmp(before), old(slots), i)[|old(slots)| - 1].key && e.key in old(contents)
      ensures old(contents)[e.key] == (e.value, e.time) && contents == old(contents) - {e.key}
    {
      var n := |heap| - 1;
      if n != i {
        Exchange(i, n);
        Repair(i, n);
      }
      e := CutLast();
    }

    // Overwrite the entry at its place.
    method Overwrite(e: Entry<V>, value: V, time: Time)
      requires Linked() && e.key in index && index[e.key] == e
      modifies this`slots, this`contents, repr
      ensures Linked() && e.index == old(e.index) && 0 <= e.index < |heap| == |old(slots)|
      ensures slots == old(slots)[e.index := Item(e.key, time)]
      ensures contents == old(contents)[e.key := (value, time)]
    {
      assert KeyOk(e.key);
      e.value, e.time := value, time;
      slots, contents := slots[e.index := Item(e.key, time)], contents[e.key := (value, time)];
      forall i ensures SlotOk(i) {
        assert old(SlotOk(i));
      }
      forall k ensures KeyOk(k) {
        assert old(KeyOk(k));
      }
    }

    method Push(key: ID, value: V, time: Time) returns (ok: bool)
      requires Valid()
      modifies this, repr
      ensures Valid() && fresh(repr - old(repr))
      ensures ok <==> key !in old(contents)
      ensures contents == if ok then old(contents)[key := (value, time)] else old(contents)
    {
      if key in index {
        return false;
      }
      PushKeeps(before, slots, Item(key, time));
      Insert(key, value, time);
      return true;
    }

    method Pop() returns (r: Popped<V>)
      requires Valid()
      modifies this, repr
      ensures Valid() && repr == old(repr)
      ensures r.Nothing? <==> old(contents) == map[]
      ensures contents == if r.Nothing? then old(contents) else old(contents) - {r.key}
      ensures r.Entry? ==> Earliest(before, old(contents), r.key, r.value, r.time)
    {
      EmptyTogether();
      if |heap| == 0 {
        return Nothing;
      }
      FirstIsEarliest();
      assert SlotOk(0);
      PopKeeps(before, slots);
      var e := TakeFirst();
      return Popped.Entry(e.key, e.value, e.time);
    }

    method Peek() returns (r: Popped<V>)
      requires Valid()
      ensures r.Nothing? <==> contents == map[]
      ensures r.Entry? ==> Earliest(before, contents, r.key, r.value, r.time)
    {
      EmptyTogether();
      if |heap| == 0 {
        return Nothing;
      }
      FirstIsEarliest();
      assert SlotOk(0);
      return Popped.Entry(heap[0].key, heap[0].value, heap[0].time);
    }

    method Update(key: ID, value: V, time: Time) returns (ok: bool)
      requires Valid()
      modifies this, repr
      ensures Valid() && repr == old(repr)
      ensures ok <==> key in old(contents)
      ensures contents == if ok then old(contents)[key := (value, time)] else old(contents)
    {
      if key !in index {
        return false;
      }
      var e := index[key];
      assert KeyOk(key);
      FixKeeps(before, slots, e.index, Item(key, time));
      Overwrite(e, value, time);
      Repair(e.index, |heap|);
      return true;
    }

    method Remove(key: ID) returns (r: Popped<V>)
      requires Valid()
      modifies this, repr
      ensures Valid() && repr == old(repr)
      ensures r.Nothing? <==> key !in old(contents)
      ensures r.Entry? ==> r.key == key && (r.value, r.time) == old(contents)[key]
      ensures contents == old(contents) - {key}
    {
      if key !in index {
        return Nothing;
      }
      var i := index[key].index;
      assert KeyOk(key) && SlotOk(i);
      DetachKeeps(before, slots, i);
      var e := TakeAt(i);
      return Popped.Entry(e.key, e.value, e.time);
    }

    lemma EmptyTogether()
      requires Linked()
      ensures heap == [] <==> contents == map[]
    {
      if heap != [] {
        assert SlotOk(0) && KeyOk(heap[0].key);
      } else {
        forall k ensures k !in contents {
          assert KeyOk(k);
        }
      }
    }

    lemma FirstIsEarliest()
      requires Valid() && heap != []
      ensures Earliest(before, contents, heap[0].key, heap[0].value, heap[0].time)
    {
      assert SlotOk(0) && KeyOk(heap[0].key);
      forall k | k in contents ensures !before(contents[k].1, heap[0].time) {
        assert KeyOk(k) && SlotOk(index[k].index);
        TopIsFirst(before, slots, index[k].index);
      }
    }

    method Length() returns (n: nat)
      requires Valid()
      ensures n == |contents|
    {
      assert |contents| == |contents.Keys|;
      forall k | k in index ensures exists i :: 0 <= i < |slots| && slots[i].key == k {
        assert KeyOk(k) && SlotOk(index[k].index);
      }
      forall i | 0 <= i < |slots| ensures slots[i].key in index && index[slots[i].key].index == i {
        assert SlotOk(i);
      }
      DistinctKeys(slots, index.Keys);
      return |heap|;
    }
  }
}
