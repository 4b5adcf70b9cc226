/**
 Binary-heap order on a sequence, and what one sift step does to it. The sift loops come
 from Go's container/heap, which pkg/queue/heap/heap.go drives; their invariants are the
 two "hole" predicates below.
 */
module HeapOrder {
  import opened Orders

  function Parent(i: nat): nat
    requires i >= 1
  {
    (i - 1) / 2
  }

  function Swapped<T>(s: seq<T>, i: nat, j: nat): seq<T>
    requires i < |s| && j < |s|
  {
    s[i := s[j]][j := s[i]]
  }

  /** The object at i is not less than the one above it. */
  ghost predicate EdgeOk<T>(less: (T, T) -> bool, s: seq<T>, i: nat)
    requires 1 <= i < |s|
  {
    !Before(less, s[i], s[Parent(i)])
  }

  /** The first n objects of s are in heap order. */
  ghost predicate Ordered<T>(less: (T, T) -> bool, s: seq<T>, n: nat)
    requires n <= |s|
  {
    forall i: nat | 1 <= i < n :: EdgeOk(less, s, i)
  }

  /** Every object below hole is not less than the object above hole. */
  ghost predicate BridgeOk<T>(less: (T, T) -> bool, s: seq<T>, n: nat, hole: nat)
    requires n <= |s|
  {
    hole >= 1 ==>
      forall c: nat | 1 <= c < n && Parent(c) == hole :: !Before(less, s[c], s[Parent(hole)])
  }

  /** Heap order except possibly between hole and its parent: the state of a sift-up. */
  ghost predicate UpHole<T>(less: (T, T) -> bool, s: seq<T>, n: nat, hole: nat)
    requires n <= |s|
  {
    && (forall i: nat | 1 <= i < n && i != hole :: EdgeOk(less, s, i))
    && BridgeOk(less, s, n, hole)
  }

  /**
   Heap order except possibly between hole and its children: the state of a sift-down.
   Before anything has moved, the edge above the hole may be broken as well.
   */
  ghost predicate DownHole<T>(less: (T, T) -> bool, s: seq<T>, n: nat, hole: nat, moved: bool)
    requires n <= |s|
  {
    && (forall i: nat | 1 <= i < n && Parent(i) != hole && (moved || i != hole) :: EdgeOk(less, s, i))
    && BridgeOk(less, s, n, hole)
  }

  /** Replacing any object of a heap leaves exactly one hole. */
  lemma ReplaceMakesHole<T(!new)>(less: (T, T) -> bool, s: seq<T>, n: nat, k: nat, x: T)
    requires StrictWeakOrder(less) && n <= |s| && k < n && Ordered(less, s, n)
    ensures DownHole(less, s[k := x], n, k, false)
  {
    var t := s[k := x];
    forall i: nat | 1 <= i < n && Parent(i) != k && i != k ensures EdgeOk(less, t, i) {
      assert EdgeOk(less, s, i);
    }
    if k >= 1 {
      forall c: nat | 1 <= c < n && Parent(c) == k ensures !Before(less, t[c], t[Parent(k)]) {
        assert EdgeOk(less, s, c) && EdgeOk(less, s, k);
        assert NotLessChains(less, s[c], s[k], s[Parent(k)]);
      }
    }
  }

  lemma SiftUpStep<T(!new)>(less: (T, T) -> bool, s: seq<T>, n: nat, j: nat)
    requires StrictWeakOrder(less) && n <= |s| && 1 <= j < n
    requires UpHole(less, s, n, j) && Before(less, s[j], s[Parent(j)])
    ensures UpHole(less, Swapped(s, Parent(j), j), n, Parent(j))
  {
    var p := Parent(j);
    var t := Swapped(s, p, j);
    forall i: nat | 1 <= i < n && i != p ensures EdgeOk(less, t, i) {
      if i != j {
        assert EdgeOk(less, s, i);
        assert NotLessChains(less, s[i], s[p], s[j]);
      }
    }
    if p >= 1 {
      assert EdgeOk(less, s, p);
      forall c: nat | 1 <= c < n && Parent(c) == p ensures !Before(less, t[c], t[Parent(p)]) {
        if c != j {
          assert EdgeOk(less, s, c);
          assert NotLessChains(less, s[c], s[p], s[Parent(p)]);
        }
      }
    }
  }

  lemma SiftUpDone<T>(less: (T, T) -> bool, s: seq<T>, n: nat, j: nat)
    requires n <= |s| && UpHole(less, s, n, j)
    requires 1 <= j < n ==> !Before(less, s[j], s[Parent(j)])
    ensures Ordered(less, s, n)
  {
  }

  /** j is the child of i that container/heap.down picks: the right one only if it is less. */
  ghost predicate PickedChild<T>(less: (T, T) -> bool, s: seq<T>, n: nat, i: nat, j: nat)
    requires n <= |s|
  {
    && 2 * i + 1 < n
    && j == if 2 * i + 2 < n && Before(less, s[2 * i + 2], s[2 * i + 1]) then 2 * i + 2 else 2 * i + 1
  }

  lemma PickedChildIsLeast<T(!new)>(less: (T, T) -> bool, s: seq<T>, n: nat, i: nat, j: nat, c: nat)
    requires StrictWeakOrder(less) && n <= |s| && PickedChild(less, s, n, i, j)
    requires 1 <= c < n && Parent(c) == i
    ensures !Before(less, s[c], s[j])
  {
  }

  lemma SiftDownStep<T(!new)>(less: (T, T) -> bool, s: seq<T>, n: nat, i: nat, j: nat, moved: bool)
    requires StrictWeakOrder(less) && n <= |s| && PickedChild(less, s, n, i, j)
    requires DownHole(less, s, n, i, moved) && Before(less, s[j], s[i])
    ensures DownHole(less, Swapped(s, i, j), n, j, true)
  {
    var t := Swapped(s, i, j);
    forall c: nat | 1 <= c < n && Parent(c) != j ensures EdgeOk(less, t, c) {
      if c != j && c != i {
        if Parent(c) == i {
          PickedChildIsLeast(less, s, n, i, j, c);
        } else {
          assert EdgeOk(less, s, c);
        }
      }
    }
    forall c: nat | 1 <= c < n && Parent(c) == j ensures !Before(less, t[c], t[Parent(j)]) {
      assert EdgeOk(less, s, c);
    }
  }

  /** A sift-down stops at a leaf or when the picked child is not less than the hole. */
  lemma SiftDownDone<T(!new)>(less: (T, T) -> bool, s: seq<T>, n: nat, i: nat, j: nat, moved: bool)
    requires StrictWeakOrder(less) && n <= |s| && DownHole(less, s, n, i, moved)
    requires 2 * i + 1 < n ==> PickedChild(less, s, n, i, j) && !Before(less, s[j], s[i])
    ensures moved ==> Ordered(less, s, n)
    ensures !moved ==> UpHole(less, s, n, i)
  {
    forall c: nat | 1 <= c < n && (moved || c != i) ensures EdgeOk(less, s, c) {
      if Parent(c) == i {
        PickedChildIsLeast(less, s, n, i, j, c);
        assert NotLessChains(less, s[c], s[j], s[i]);
      }
    }
  }

  /** Order is about the first n objects only, so cutting off the rest keeps it. */
  lemma OrderedPrefix<T>(less: (T, T) -> bool, s: seq<T>, n: nat)
    requires n <= |s| && Ordered(less, s, n)
    ensures Ordered(less, s[..n], n)
  {
    forall i: nat | 1 <= i < n ensures EdgeOk(less, s[..n], i) {
      assert EdgeOk(less, s, i);
    }
  }

  /** Nothing in a heap is less than its root. */
  lemma {:induction false} RootIsLeast<T(!new)>(less: (T, T) -> bool, s: seq<T>, n: nat, i: nat)
    requires StrictWeakOrder(less) && i < n <= |s| && Ordered(less, s, n)
    ensures !Before(less, s[i], s[0])
  {
    if i > 0 {
      assert EdgeOk(less, s, i);
      RootIsLeast(less, s, n, Parent(i));
      assert NotLessChains(less, s[i], s[Parent(i)], s[0]);
    }
  }
}
