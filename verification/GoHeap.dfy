/**
 Binary heaps on slices, as Go's container/heap keeps them: the order is given by
 a `less` function, elements are moved only by swapping two slots.  The sifting
 loops are stated as functions, so that state machines can use them, and again as
 methods with the original loops, proved to compute the same slices.
 */
module GoHeap {

  function Parent(i: nat): nat {
    if i == 0 then 0 else (i - 1) / 2
  }

  function Swap<T>(h: seq<T>, i: nat, j: nat): seq<T>
    requires i < |h| && j < |h|
  {
    h[i := h[j]][j := h[i]]
  }

  function Up<T>(less: (T, T) -> bool, h: seq<T>, j: nat): (r: seq<T>)
    requires j < |h|
    ensures |r| == |h|
    decreases j
  {
    var i := Parent(j);
    if i == j || !less(h[j], h[i]) then h else Up(less, Swap(h, i, j), i)
  }

  // The child that `down` compares with its parent.
  function Child<T>(less: (T, T) -> bool, h: seq<T>, i: nat, n: nat): (j: nat)
    requires 2 * i + 1 < n <= |h|
    ensures i < j < n && Parent(j) == i
  {
    if 2 * i + 2 < n && less(h[2 * i + 2], h[2 * i + 1]) then 2 * i + 2 else 2 * i + 1
  }

  function Down<T>(less: (T, T) -> bool, h: seq<T>, i: nat, n: nat): (r: seq<T>)
    requires i < n <= |h|
    ensures |r| == |h|
    decreases n - i
  {
    if 2 * i + 1 >= n then h else
    var j := Child(less, h, i, n);
    if !less(h[j], h[i]) then h else Down(less, Swap(h, i, j), j, n)
  }

  // `down` reports whether it moved the element.
  predicate Moves<T>(less: (T, T) -> bool, h: seq<T>, i: nat, n: nat)
    requires i < n <= |h|
  {
    2 * i + 1 < n && less(h[Child(less, h, i, n)], h[i])
  }

  function FixPrefix<T>(less: (T, T) -> bool, h: seq<T>, i: nat, n: nat): (r: seq<T>)
    requires i < n <= |h|
    ensures |r| == |h|
  {
    if Moves(less, h, i, n) then Down(less, h, i, n) else Up(less, h, i)
  }

  function Push<T>(less: (T, T) -> bool, h: seq<T>, x: T): seq<T> {
    Up(less, h + [x], |h|)
  }

  function Fix<T>(less: (T, T) -> bool, h: seq<T>, i: nat): seq<T>
    requires i < |h|
  {
    FixPrefix(less, h, i, |h|)
  }

  // The slice just before the last slot is cut off by the heap's own Pop.
  function Detach<T>(less: (T, T) -> bool, h: seq<T>, i: nat): (r: seq<T>)
    requires i < |h|
    ensures |r| == |h|
  {
    var n := |h| - 1;
    if i == n then h else FixPrefix(less, Swap(h, i, n), i, n)
  }

  // heap.Pop sifts down from the root only.
  function PopDetach<T>(less: (T, T) -> bool, h: seq<T>): (r: seq<T>)
    requires h != []
    ensures |r| == |h|
  {
    var n := |h| - 1;
    if n == 0 then h else Down(less, Swap(h, 0, n), 0, n)
  }

  function PopRest<T>(less: (T, T) -> bool, h: seq<T>): seq<T>
    requires h != []
  {
    PopDetach(less, h)[..|h| - 1]
  }

  function PopTop<T>(less: (T, T) -> bool, h: seq<T>): T
    requires h != []
  {
    PopDetach(less, h)[|h| - 1]
  }

  // Order and shape

  // `less` is a strict weak order on the elements of s.
  ghost predicate WeakOrder<T>(less: (T, T) -> bool, s: set<T>) {
    && (forall a, b | a in s && b in s && less(a, b) :: !less(b, a))
    && (forall a, b, c | a in s && b in s && c in s && !less(b, a) && !less(c, b) :: !less(c, a))
  }

  ghost predicate Within<T>(h: seq<T>, s: set<T>) {
    forall i | 0 <= i < |h| :: h[i] in s
  }

  ghost predicate HeapPrefix<T>(less: (T, T) -> bool, h: seq<T>, n: nat)
    requires n <= |h|
  {
    forall i {:trigger Parent(i)} | 0 < i < n :: !less(h[i], h[Parent(i)])
  }

  ghost predicate IsHeap<T>(less: (T, T) -> bool, h: seq<T>) {
    HeapPrefix(less, h, |h|)
  }

  // A heap in which only the element at k may be out of place.
  ghost predicate HeapExcept<T>(less: (T, T) -> bool, h: seq<T>, n: nat, k: nat)
    requires k < n <= |h|
  {
    && (forall i {:trigger Parent(i)} | 0 < i < n && i != k && Parent(i) != k :: !less(h[i], h[Parent(i)]))
    && (forall i {:trigger Parent(i)} | 0 < i < n && k > 0 && i != k && Parent(i) == k :: !less(h[i], h[Parent(k)]))
  }

  // Sifting permutes, and leaves the slots outside its range alone

  lemma SwapPermutes<T>(h: seq<T>, i: nat, j: nat)
    requires i < |h| && j < |h|
    ensures multiset(Swap(h, i, j)) == multiset(h)
  {
  }

  lemma {:induction false} UpPermutes<T>(less: (T, T) -> bool, h: seq<T>, j: nat)
    requires j < |h|
    ensures multiset(Up(less, h, j)) == multiset(h)
    ensures forall k | j < k < |h| :: Up(less, h, j)[k] == h[k]
    decreases j
  {
    var i := Parent(j);
    if i != j && less(h[j], h[i]) {
      SwapPermutes(h, i, j);
      UpPermutes(less, Swap(h, i, j), i);
    }
  }

  lemma {:induction false} DownPermutes<T>(less: (T, T) -> bool, h: seq<T>, i: nat, n: nat)
    requires i < n <= |h|
    ensures multiset(Down(less, h, i, n)) == multiset(h)
    ensures forall k | n <= k < |h| :: Down(less, h, i, n)[k] == h[k]
    decreases n - i
  {
    if Moves(less, h, i, n) {
      var j := Child(less, h, i, n);
      SwapPermutes(h, i, j);
      DownPermutes(less, Swap(h, i, j), j, n);
    }
  }

  // Sifting restores the order

  // Exchanging a misplaced element with its parent moves the fault to the parent.
  lemma SwapParentKeeps<T>(less: (T, T) -> bool, h: seq<T>, j: nat, n: nat, s: set<T>)
    requires 0 < j < n <= |h| && Within(h, s) && WeakOrder(less, s) && less(h[j], h[Parent(j)])
    requires HeapExcept(less, h, n, j)
    ensures HeapExcept(less, Swap(h, Parent(j), j), n, Parent(j))
  {
  }

  lemma {:induction false} UpRestores<T>(less: (T, T) -> bool, h: seq<T>, j: nat, n: nat, s: set<T>)
    requires j < n <= |h| && Within(h, s) && WeakOrder(less, s)
    requires HeapExcept(less, h, n, j)
    requires forall i | 0 < i < n && i != j && Parent(i) == j :: !less(h[i], h[j])
    ensures HeapPrefix(less, Up(less, h, j), n)
    decreases j
  {
    var i := Parent(j);
    if i != j && less(h[j], h[i]) {
      var g := Swap(h, i, j);
      forall c | 0 < c < n && c != i && Parent(c) == i ensures !less(g[c], g[i]) {
        if c != j {
          assert !less(h[c], h[i]);
          assert !less(h[i], h[j]);
        }
      }
      SwapParentKeeps(less, h, j, n, s);
      UpRestores(less, g, i, n, s);
    }
  }

  // Exchanging the misplaced element with its first child moves the fault to the child.
  lemma SwapChildKeeps<T>(less: (T, T) -> bool, h: seq<T>, i: nat, n: nat, s: set<T>)
    requires i < n <= |h| && Within(h, s) && WeakOrder(less, s)
    requires HeapExcept(less, h, n, i) && Moves(less, h, i, n)
    ensures var j := Child(less, h, i, n);
      HeapExcept(less, Swap(h, i, j), n, j) && !less(Swap(h, i, j)[j], Swap(h, i, j)[i])
  {
    var j := Child(less, h, i, n);
    var g := Swap(h, i, j);
    assert !less(h[i], h[j]);
    forall c | 0 < c < n && c != j && Parent(c) != j ensures !less(g[c], g[Parent(c)]) {
      if c == i {
        assert !less(h[j], h[Parent(i)]);
      } else if Parent(c) == i {
        assert !less(h[c], h[j]);
      } else {
        assert g[c] == h[c] && g[Parent(c)] == h[Parent(c)];
      }
    }
    forall c | 0 < c < n && j > 0 && c != j && Parent(c) == j ensures !less(g[c], g[Parent(j)]) {
      assert !less(h[c], h[j]);
    }
  }

  lemma {:induction false} DownRestores<T>(less: (T, T) -> bool, h: seq<T>, i: nat, n: nat, s: set<T>)
    requires i < n <= |h| && Within(h, s) && WeakOrder(less, s)
    requires HeapExcept(less, h, n, i)
    requires i > 0 && !Moves(less, h, i, n) ==> !less(h[i], h[Parent(i)])
    ensures HeapPrefix(less, Down(less, h, i, n), n)
    decreases n - i
  {
    if Moves(less, h, i, n) {
      SwapChildKeeps(less, h, i, n, s);
      var j := Child(less, h, i, n);
      DownRestores(less, Swap(h, i, j), j, n, s);
    } else {
      ChildrenInOrder(less, h, i, n, s);
    }
  }

  lemma ChildrenInOrder<T>(less: (T, T) -> bool, h: seq<T>, i: nat, n: nat, s: set<T>)
    requires i < n <= |h| && Within(h, s) && WeakOrder(less, s) && !Moves(less, h, i, n)
    ensures forall c | 0 < c < n && c != i && Parent(c) == i :: !less(h[c], h[i])
  {
  }

  lemma FixPrefixCorrect<T>(less: (T, T) -> bool, h: seq<T>, i: nat, n: nat, s: set<T>)
    requires i < n <= |h| && Within(h, s) && WeakOrder(less, s)
    requires HeapExcept(less, h, n, i)
    ensures HeapPrefix(less, FixPrefix(less, h, i, n), n)
    ensures multiset(FixPrefix(less, h, i, n)) == multiset(h)
    ensures forall k | n <= k < |h| :: FixPrefix(less, h, i, n)[k] == h[k]
  {
    if Moves(less, h, i, n) {
      DownRestores(less, h, i, n, s);
      DownPermutes(less, h, i, n);
    } else {
      ChildrenInOrder(less, h, i, n, s);
      UpRestores(less, h, i, n, s);
      UpPermutes(less, h, i);
    }
  }

  // What the four operations promise

  lemma PushCorrect<T>(less: (T, T) -> bool, h: seq<T>, x: T, s: set<T>)
    requires IsHeap(less, h) && Within(h, s) && x in s && WeakOrder(less, s)
    ensures IsHeap(less, Push(less, h, x))
    ensures multiset(Push(less, h, x)) == multiset(h) + multiset{x}
  {
    var g := h + [x];
    assert forall i | 0 < i < |g| - 1 :: Parent(i) < |h|;
    UpRestores(less, g, |h|, |g|, s);
    UpPermutes(less, g, |h|);
  }

  lemma FixCorrect<T>(less: (T, T) -> bool, h: seq<T>, i: nat, s: set<T>)
    requires i < |h| && Within(h, s) && WeakOrder(less, s)
    requires HeapExcept(less, h, |h|, i)
    ensures IsHeap(less, Fix(less, h, i))
    ensures multiset(Fix(less, h, i)) == multiset(h)
  {
    FixPrefixCorrect(less, h, i, |h|, s);
  }

  // Moving the last element of a heap into slot i can only disturb slot i.
  lemma SwapLastKeeps<T>(less: (T, T) -> bool, h: seq<T>, i: nat, s: set<T>)
    requires i < |h| - 1 && IsHeap(less, h) && Within(h, s) && WeakOrder(less, s)
    ensures HeapExcept(less, Swap(h, i, |h| - 1), |h| - 1, i)
  {
  }

  lemma CutLast<T>(less: (T, T) -> bool, r: seq<T>, h: seq<T>)
    requires h != [] && |r| == |h| && multiset(r) == multiset(h) && HeapPrefix(less, r, |h| - 1)
    ensures IsHeap(less, r[..|h| - 1])
    ensures multiset(r[..|h| - 1]) + multiset{r[|h| - 1]} == multiset(h)
  {
    var n := |h| - 1;
    assert r == r[..n] + [r[n]];
    forall i | 0 < i < n ensures !less(r[..n][i], r[..n][Parent(i)]) {
      assert Parent(i) < n;
    }
  }

  lemma DetachCorrect<T>(less: (T, T) -> bool, h: seq<T>, i: nat, s: set<T>)
    requires i < |h| && IsHeap(less, h) && Within(h, s) && WeakOrder(less, s)
    ensures var r := Detach(less, h, i);
      && r[|h| - 1] == h[i]
      && IsHeap(less, r[..|h| - 1])
      && multiset(r[..|h| - 1]) + multiset{h[i]} == multiset(h)
  {
    var n := |h| - 1;
    if i != n {
      SwapLastKeeps(less, h, i, s);
      SwapPermutes(h, i, n);
      FixPrefixCorrect(less, Swap(h, i, n), i, n, s);
    }
    CutLast(less, Detach(less, h, i), h);
  }

  lemma PopCorrect<T>(less: (T, T) -> bool, h: seq<T>, s: set<T>)
    requires h != [] && IsHeap(less, h) && Within(h, s) && WeakOrder(less, s)
    ensures PopTop(less, h) == h[0]
    ensures IsHeap(less, PopRest(less, h))
    ensures multiset(PopRest(less, h)) + multiset{PopTop(less, h)} == multiset(h)
  {
    var n := |h| - 1;
    if n != 0 {
      SwapLastKeeps(less, h, 0, s);
      SwapPermutes(h, 0, n);
      DownRestores(less, Swap(h, 0, n), 0, n, s);
      DownPermutes(less, Swap(h, 0, n), 0, n);
    }
    CutLast(less, PopDetach(less, h), h);
  }

  // No element comes before the root.
  lemma {:induction false} RootIsLeast<T>(less: (T, T) -> bool, h: seq<T>, i: nat, s: set<T>)
    requires i < |h| && IsHeap(less, h) && Within(h, s) && WeakOrder(less, s)
    ensures !less(h[i], h[0])
  {
    if i > 0 {
      RootIsLeast(less, h, Parent(i), s);
    }
  }

  // The loops of container/heap

  method SiftUp<T>(less: (T, T) -> bool, h: seq<T>, j0: nat) returns (r: seq<T>)
    requires j0 < |h|
    ensures r == Up(less, h, j0)
  {
    r := h;
    var j := j0;
    while true
      invariant 0 <= j < |r| == |h|
      invariant Up(less, r, j) == Up(less, h, j0)
      decreases j
    {
      var i := Parent(j);
      if i == j || !less(r[j], r[i]) {
        break;
      }
      r := Swap(r, i, j);
      j := i;
    }
  }

  method SiftDown<T>(less: (T, T) -> bool, h: seq<T>, i0: nat, n: nat) returns (r: seq<T>)
    requires i0 < n <= |h|
    ensures r == Down(less, h, i0, n)
  {
    r := h;
    var i := i0;
    while true
      invariant 0 <= i < n <= |r| == |h|
      invariant Down(less, r, i, n) == Down(less, h, i0, n)
      decreases n - i
    {
      var j1 := 2 * i + 1;
      if j1 >= n {
        break;
      }
      var j := j1;
      var j2 := j1 + 1;
      if j2 < n && less(r[j2], r[j1]) {
        j := j2;
      }
      if !less(r[j], r[i]) {
        break;
      }
      r := Swap(r, i, j);
      i := j;
    }
  }

  // heap.Push
  method PushSlice<T>(less: (T, T) -> bool, h: seq<T>, x: T) returns (r: seq<T>)
    ensures r == Push(less, h, x)
  {
    r := SiftUp(less, h + [x], |h|);
  }

  // heap.Pop
  method PopSlice<T>(less: (T, T) -> bool, h: seq<T>) returns (top: T, rest: seq<T>)
    requires h != []
    ensures top == PopTop(less, h) && rest == PopRest(less, h)
  {
    var n := |h| - 1;
    var r := h;
    if n > 0 {
      r := SiftDown(less, Swap(h, 0, n), 0, n);
    }
    top, rest := r[n], r[..n];
  }
}
