/**
 The keyed heap of pkg/queue/heap/heap.go: a slice of keys kept in heap order and a map
 from key to object and slice index, changed in place by Swap, Push and Pop under the sift
 loops of Go's container/heap.
 */
module KeyedHeap {
  import opened Orders
  import opened HeapOrder

  datatype Item<T> = Item(obj: T, index: nat)

  datatype Error = NoError | KeyError | NotFound

  /** "queue[i] = k if and only if items[k].index = i", and nothing else is stored. */
  ghost predicate Indexed<T>(queue: seq<string>, items: map<string, Item<T>>)
  {
    && (forall i | 0 <= i < |queue| :: queue[i] in items && items[queue[i]].index == i)
    && (forall k | k in items :: items[k].index < |queue| && queue[items[k].index] == k)
  }

  /** The stored objects in slice order. */
  ghost function Objects<T>(queue: seq<string>, items: map<string, Item<T>>): (s: seq<T>)
    requires Indexed(queue, items)
    ensures |s| == |queue|
    ensures forall i {:trigger s[i]} | 0 <= i < |queue| :: s[i] == items[queue[i]].obj
  {
    seq(|queue|, i requires 0 <= i < |queue| => items[queue[i]].obj)
  }

  /** The plain map the heap stands for. */
  ghost function Contents<T>(items: map<string, Item<T>>): map<string, T>
  {
    map k | k in items :: items[k].obj
  }

  /** x is stored in m, under its own key. */
  ghost predicate Stored<T>(keyFunc: T -> Option<string>, m: map<string, T>, x: T)
  {
    KeyOf(keyFunc, x).Some? && KeyOf(keyFunc, x).value in m && m[KeyOf(keyFunc, x).value] == x
  }

  /** No object of m is less than x. */
  ghost predicate Least<T>(less: (T, T) -> bool, m: map<string, T>, x: T)
  {
    forall k | k in m :: !Before(less, m[k], x)
  }

  /** A layout holds as many keys as its map, so Len is the size of the map. */
  lemma IndexedSize<T>(queue: seq<string>, items: map<string, Item<T>>)
    requires Indexed(queue, items)
    ensures |queue| == |items|
    decreases |queue|
  {
    if |queue| == 0 {
      assert items.Keys == {} by {
        if k :| k in items { assert false; }
      }
      assert items == map[];
    } else {
      var k := queue[|queue| - 1];
      var items' := items - {k};
      assert Indexed(queue[..|queue| - 1], items');
      IndexedSize(queue[..|queue| - 1], items');
      assert items.Keys == items'.Keys + {k};
    }
  }

  /** Swapping two slots and rewriting the two indices keeps the bijection and the map. */
  lemma SwapKeepsIndex<T>(queue: seq<string>, items: map<string, Item<T>>, i: nat, j: nat)
    requires Indexed(queue, items) && i < |queue| && j < |queue|
    ensures var q := Swapped(queue, i, j);
            var m := items[q[i] := items[q[i]].(index := i)];
            var m := m[q[j] := m[q[j]].(index := j)];
            && Indexed(q, m)
            && Contents(m) == Contents(items)
            && Objects(q, m) == Swapped(Objects(queue, items), i, j)
  {
  }

  lemma PushKeepsIndex<T>(queue: seq<string>, items: map<string, Item<T>>, key: string, obj: T)
    requires Indexed(queue, items) && key !in items
    ensures var m := items[key := Item(obj, |queue|)];
            && Indexed(queue + [key], m)
            && Contents(m) == Contents(items)[key := obj]
            && Objects(queue + [key], m) == Objects(queue, items) + [obj]
  {
  }

  lemma PopKeepsIndex<T>(queue: seq<string>, items: map<string, Item<T>>)
    requires Indexed(queue, items) && |queue| > 0
    ensures var n := |queue| - 1;
            var m := items - {queue[n]};
            && Indexed(queue[..n], m)
            && Contents(m) == Contents(items) - {queue[n]}
            && Objects(queue[..n], m) == Objects(queue, items)[..n]
  {
  }

  /** In an ordered layout no stored object is less than the one in slot 0. */
  lemma LeastAtRoot<T(!new)>(less: (T, T) -> bool, queue: seq<string>, items: map<string, Item<T>>)
    requires StrictWeakOrder(less) && Indexed(queue, items)
    requires Ordered(less, Objects(queue, items), |queue|)
    ensures |queue| == 0 <==> Contents(items) == map[]
    ensures |queue| > 0 ==> queue[0] in Contents(items)
    ensures |queue| > 0 ==> Least(less, Contents(items), Objects(queue, items)[0])
  {
    if |queue| > 0 {
      forall k | k in Contents(items) ensures !Before(less, Contents(items)[k], Objects(queue, items)[0]) {
        RootIsLeast(less, Objects(queue, items), |queue|, items[k].index);
      }
      assert queue[0] in Contents(items);
    } else {
      if k :| k in items { assert false; }
      assert Contents(items) == map[];
    }
  }

  class Heap<T(!new)> {
    const keyFunc: T -> Option<string>
    const less: (T, T) -> bool
    var items: map<string, Item<T>>
    var queue: seq<string>

    /** Everything but the order: the index bijection, and each object under its own key. */
    ghost predicate Shaped()
      reads this
    {
      && StrictWeakOrder(less)
      && Indexed(queue, items)
      && forall k | k in items :: KeyOf(keyFunc, items[k].obj) == Some(k)
    }

    ghost function Objs(): seq<T>
      requires Shaped()
      reads this
    {
      Objects(queue, items)
    }

    ghost function View(): map<string, T>
      reads this
    {
      Contents(items)
    }

    ghost predicate Valid()
      reads this
    {
      Shaped() && Ordered(less, Objs(), |queue|)
    }

    constructor (keyFn: T -> Option<string>, lessFn: (T, T) -> bool)
      requires StrictWeakOrder(lessFn)
      ensures Valid() && View() == map[]
      ensures keyFunc == keyFn && less == lessFn
    {
      keyFunc, less := keyFn, lessFn;
      items, queue := map[], [];
    }

    // ---------- the container/heap interface: Less, Len, Swap, Push, Pop ----------

    predicate Less(i: nat, j: nat)
      requires Shaped() && i < |queue| && j < |queue|
      reads this
    {
      Before(less, items[queue[i]].obj, items[queue[j]].obj)
    }

    method Swap(i: nat, j: nat)
      requires Shaped() && i < |queue| && j < |queue|
      modifies this
      ensures Shaped() && |queue| == |old(queue)|
      ensures Objs() == Swapped(old(Objs()), i, j)
      ensures View() == old(View())
    {
      SwapKeepsIndex(queue, items, i, j);
      queue := queue[i := queue[j]][j := queue[i]];
      items := items[queue[i] := items[queue[i]].(index := i)];
      items := items[queue[j] := items[queue[j]].(index := j)];
    }

    method PushLast(key: string, obj: T)
      requires Shaped() && key !in items && KeyOf(keyFunc, obj) == Some(key)
      modifies this
      ensures Shaped() && |queue| == |old(queue)| + 1
      ensures Objs() == old(Objs()) + [obj]
      ensures View() == old(View())[key := obj]
    {
      PushKeepsIndex(queue, items, key, obj);
      items := items[key := Item(obj, |queue|)];
      queue := queue + [key];
    }

    method PopLast() returns (obj: T)
      requires Shaped() && |queue| > 0
      modifies this
      ensures Shaped() && |queue| == |old(queue)| - 1
      ensures obj == old(Objs())[|queue|] && Objs() == old(Objs())[..|queue|]
      ensures Stored(keyFunc, old(View()), obj)
      ensures View() == old(View()) - {KeyOf(keyFunc, obj).value}
    {
      var key := queue[|queue| - 1];
      obj := items[key].obj;
      PopKeepsIndex(queue, items);
      queue := queue[..|queue| - 1];
      items := items - {key};
    }

    // ---------- the sift loops of container/heap ----------

    method Up(start: nat, ghost n: nat)
      requires Shaped() && start < n <= |queue| && UpHole(less, Objs(), n, start)
      modifies this
      ensures Shaped() && |queue| == |old(queue)| && View() == old(View())
      ensures Ordered(less, Objs(), n)
      ensures n < |queue| ==> Objs()[n] == old(Objs())[n]
    {
      var j: nat := start;
      while j > 0 && Less(j, Parent(j))
        invariant Shaped() && |queue| == |old(queue)| && View() == old(View())
        invariant j < n && UpHole(less, Objs(), n, j)
        invariant n < |queue| ==> Objs()[n] == old(Objs())[n]
      {
        SiftUpStep(less, Objs(), n, j);
        Swap(Parent(j), j);
        j := Parent(j);
      }
      SiftUpDone(less, Objs(), n, j);
    }

    method Child(i: nat, n: nat) returns (j: nat)
      requires Shaped() && 2 * i + 1 < n <= |queue|
      ensures PickedChild(less, Objs(), n, i, j)
    {
      j := 2 * i + 1;
      if j + 1 < n && Less(j + 1, j) {
        j := j + 1;
      }
    }

    /** One round of down: the hole moves to the picked child. */
    method SwapDown(i: nat, j: nat, ghost n: nat, ghost moved: bool)
      requires Shaped() && n <= |queue| && DownHole(less, Objs(), n, i, moved)
      requires PickedChild(less, Objs(), n, i, j) && Less(j, i)
      modifies this
      ensures Shaped() && |queue| == |old(queue)| && View() == old(View())
      ensures DownHole(less, Objs(), n, j, true)
      ensures n < |queue| ==> Objs()[n] == old(Objs())[n]
    {
      SiftDownStep(less, Objs(), n, i, j, moved);
      Swap(i, j);
    }

    method Down(start: nat, n: nat) returns (moved: bool)
      requires Shaped() && start < |queue| && n <= |queue| && DownHole(less, Objs(), n, start, false)
      requires start < n || n == 0
      modifies this
      ensures Shaped() && |queue| == |old(queue)| && View() == old(View())
      ensures if moved then Ordered(less, Objs(), n) else UpHole(less, Objs(), n, start)
      ensures n < |queue| ==> Objs()[n] == old(Objs())[n]
    {
      var i: nat := start;
      ghost var picked: nat := 0;
      while 2 * i + 1 < n
        invariant Shaped() && |queue| == |old(queue)| && View() == old(View())
        invariant start <= i < |queue| && (i < n || n == 0)
        invariant DownHole(less, Objs(), n, i, i > start)
        invariant n < |queue| ==> Objs()[n] == old(Objs())[n]
        decreases n - i
      {
        var j := Child(i, n);
        picked := j;
        if !Less(j, i) {
          break;
        }
        SwapDown(i, j, n, i > start);
        i := j;
      }
      SiftDownDone(less, Objs(), n, i, picked, i > start);
      moved := i > start;
    }

    /** Down, then Up if nothing moved: closes a hole among the first n slots and leaves slot n alone. */
    method Sift(i: nat, n: nat)
      requires Shaped() && i < n <= |queue| && DownHole(less, Objs(), n, i, false)
      modifies this
      ensures Shaped() && |queue| == |old(queue)| && View() == old(View())
      ensures Ordered(less, Objs(), n)
      ensures n < |queue| ==> Objs()[n] == old(Objs())[n]
    {
      var moved := Down(i, n);
      if !moved {
        Up(i, n);
      }
    }

    /** container/heap.Fix: restores order after the object at i was replaced by any other. */
    method Fix(i: nat)
      requires Shaped() && i < |queue| && DownHole(less, Objs(), |queue|, i, false)
      modifies this
      ensures Valid() && View() == old(View())
    {
      Sift(i, |queue|);
    }

    /** Down alone, from the root. */
    method SiftRoot(n: nat)
      requires Shaped() && n < |queue| && (n > 0 ==> DownHole(less, Objs(), n, 0, false))
      modifies this
      ensures Shaped() && |queue| == |old(queue)| && View() == old(View())
      ensures Ordered(less, Objs(), n) && Objs()[n] == old(Objs())[n]
    {
      var moved := Down(0, n);
      if !moved {
        SiftUpDone(less, Objs(), n, 0);
      }
    }

    /** The first half of Remove and Pop: the object to go trades places with the last one. */
    method MoveToEnd(i: nat)
      requires Valid() && i < |queue|
      modifies this
      ensures Shaped() && |queue| == |old(queue)| && View() == old(View())
      ensures Objs()[|queue| - 1] == old(Objs())[i]
      ensures DownHole(less, Objs(), |queue| - 1, i, false) || i == |queue| - 1
    {
      ghost var s := Objs();
      var n := |queue| - 1;
      Swap(i, n);
      if i < n {
        ReplaceMakesHole(less, s, n, i, s[n]);
        HoleIgnoresTail(less, s[i := s[n]], Objs(), n, i);
      }
    }

    /** The second half: data.Pop on a layout whose other slots are in order. */
    method DropLast() returns (obj: T)
      requires Shaped() && |queue| > 0 && Ordered(less, Objs(), |queue| - 1)
      modifies this
      ensures Valid()
      ensures obj == old(Objs()[|queue| - 1])
      ensures Stored(keyFunc, old(View()), obj)
      ensures View() == old(View()) - {KeyOf(keyFunc, obj).value}
    {
      OrderedPrefix(less, Objs(), |queue| - 1);
      ghost var t := Objs()[..|queue| - 1];
      obj := PopLast();
      assert Objs() == t;
    }

    /** The object at i comes last and the others are in order. */
    method TakeOut(i: nat)
      requires Valid() && i < |queue|
      modifies this
      ensures Shaped() && |queue| == |old(queue)| && View() == old(View())
      ensures Ordered(less, Objs(), |queue| - 1) && Objs()[|queue| - 1] == old(Objs())[i]
    {
      var n := |queue| - 1;
      if n != i {
        MoveToEnd(i);
        Sift(i, n);
      }
    }

    /** container/heap.Remove: takes out the object at any index. */
    method Remove(i: nat) returns (obj: T)
      requires Valid() && i < |queue|
      modifies this
      ensures Valid() && obj == old(Objs())[i]
      ensures Stored(keyFunc, old(View()), obj)
      ensures View() == old(View()) - {KeyOf(keyFunc, obj).value}
    {
      TakeOut(i);
      obj := DropLast();
    }

    // ---------- the exported operations ----------

    method Add(obj: T) returns (err: Error)
      requires Valid()
      modifies this
      ensures Valid()
      ensures KeyOf(keyFunc, obj).None? ==> err == KeyError && View() == old(View())
      ensures KeyOf(keyFunc, obj).Some? ==> err == NoError && View() == old(View())[KeyOf(keyFunc, obj).value := obj]
    {
      match KeyOf(keyFunc, obj)
      case None => err := KeyError;
      case Some(key) =>
        err := NoError;
        if key in items {
          ghost var s := Objs();
          var i := items[key].index;
          ReplaceMakesHole(less, s, |queue|, i, obj);
          items := items[key := Item(obj, i)];
          assert Objs() == s[i := obj];
          assert View() == old(View())[key := obj];
          Fix(i);
        } else {
          ghost var s := Objs();
          PushLast(key, obj);
          AppendMakesHole(less, s, obj);
          Up(|queue| - 1, |queue|);
        }
    }

    method AddIfNotPresent(obj: T) returns (err: Error)
      requires Valid()
      modifies this
      ensures Valid()
      ensures KeyOf(keyFunc, obj).None? ==> err == KeyError && View() == old(View())
      ensures KeyOf(keyFunc, obj).Some? ==> err == NoError
      ensures KeyOf(keyFunc, obj).Some? ==>
                var k := KeyOf(keyFunc, obj).value;
                View() == if k in old(View()) then old(View()) else old(View())[k := obj]
    {
      match KeyOf(keyFunc, obj)
      case None => err := KeyError;
      case Some(key) =>
        err := NoError;
        if key !in items {
          ghost var s := Objs();
          PushLast(key, obj);
          AppendMakesHole(less, s, obj);
          Up(|queue| - 1, |queue|);
        }
    }

    method Update(obj: T) returns (err: Error)
      requires Valid()
      modifies this
      ensures Valid()
      ensures KeyOf(keyFunc, obj).None? ==> err == KeyError && View() == old(View())
      ensures KeyOf(keyFunc, obj).Some? ==> err == NoError && View() == old(View())[KeyOf(keyFunc, obj).value := obj]
    {
      err := Add(obj);
    }

    method Delete(obj: T) returns (err: Error)
      requires Valid()
      modifies this
      ensures Valid()
      ensures KeyOf(keyFunc, obj).None? ==> err == KeyError && View() == old(View())
      ensures KeyOf(keyFunc, obj).Some? ==>
                var k := KeyOf(keyFunc, obj).value;
                && err == (if k in old(View()) then NoError else NotFound)
                && View() == old(View()) - {k}
    {
      match KeyOf(keyFunc, obj)
      case None => err := KeyError;
      case Some(key) =>
        if key in items {
          var gone := Remove(items[key].index);
          err := NoError;
        } else {
          err := NotFound;
          assert View() == old(View()) - {key};
        }
    }

    method Peek() returns (top: Option<T>)
      requires Valid()
      ensures top.None? <==> View() == map[]
      ensures top.Some? ==> Stored(keyFunc, View(), top.value) && Least(less, View(), top.value)
      ensures top.Some? ==> |queue| > 0 && top.value == Objs()[0]
    {
      if |queue| > 0 {
        top := Some(items[queue[0]].obj);
        LeastAtRoot(less, queue, items);
      } else {
        top := None;
        LeastAtRoot(less, queue, items);
      }
    }

    /** Pop on an empty heap panics in container/heap, so callers check Len first. */
    method Pop() returns (obj: T)
      requires Valid() && View() != map[]
      modifies this
      ensures Valid()
      ensures Stored(keyFunc, old(View()), obj)
      ensures Least(less, old(View()), obj)
      ensures View() == old(View()) - {KeyOf(keyFunc, obj).value}
      ensures obj == old(Objs())[0]
    {
      LeastAtRoot(less, queue, items);
      var n := |queue| - 1;
      MoveToEnd(0);
      SiftRoot(n);
      obj := DropLast();
    }

    method Get(obj: T) returns (found: Option<T>, err: Error)
      requires Valid()
      ensures KeyOf(keyFunc, obj).None? ==> err == KeyError && found == None
      ensures KeyOf(keyFunc, obj).Some? ==>
                var k := KeyOf(keyFunc, obj).value;
                err == NoError && found == if k in View() then Some(View()[k]) else None
    {
      match KeyOf(keyFunc, obj)
      case None => found, err := None, KeyError;
      case Some(key) =>
        found := GetByKey(key);
        err := NoError;
    }

    method GetByKey(key: string) returns (found: Option<T>)
      requires Valid()
      ensures found == if key in View() then Some(View()[key]) else None
    {
      found := if key in items then Some(items[key].obj) else None;
    }

    /** List walks the map in whatever order it likes: each stored object once. */
    method List() returns (list: seq<T>)
      requires Valid()
      ensures |list| == |View()|
      ensures forall i | 0 <= i < |list| :: Stored(keyFunc, View(), list[i])
      ensures forall i, j | 0 <= i < j < |list| :: KeyOf(keyFunc, list[i]) != KeyOf(keyFunc, list[j])
      ensures forall k | k in View() :: View()[k] in list
    {
      list := [];
      var todo := items.Keys;
      while todo != {}
        invariant todo <= items.Keys && |list| + |todo| == |items|
        invariant forall i | 0 <= i < |list| ::
            && KeyOf(keyFunc, list[i]).Some? && KeyOf(keyFunc, list[i]).value in items.Keys - todo
            && items[KeyOf(keyFunc, list[i]).value].obj == list[i]
        invariant forall i, j | 0 <= i < j < |list| :: KeyOf(keyFunc, list[i]) != KeyOf(keyFunc, list[j])
        invariant forall k | k in items.Keys - todo :: items[k].obj in list
      {
        var k :| k in todo;
        list := list + [items[k].obj];
        todo := todo - {k};
      }
      assert View().Keys == items.Keys;
    }

    method Len() returns (n: nat)
      requires Valid()
      ensures n == |View()|
      ensures n == 0 <==> View() == map[]
    {
      n := |queue|;
      IndexedSize(queue, items);
      assert View().Keys == items.Keys;
    }
  }

  /** Appending leaves a hole at the new last index, which has no children. */
  lemma AppendMakesHole<T>(less: (T, T) -> bool, s: seq<T>, x: T)
    requires Ordered(less, s, |s|)
    ensures UpHole(less, s + [x], |s| + 1, |s|)
  {
    forall i: nat | 1 <= i < |s| ensures EdgeOk(less, s + [x], i) {
      assert EdgeOk(less, s, i);
    }
  }

  /** A hole predicate speaks of the first n objects only. */
  lemma HoleIgnoresTail<T>(less: (T, T) -> bool, s: seq<T>, t: seq<T>, n: nat, hole: nat)
    requires n <= |s| && n <= |t| && s[..n] == t[..n] && DownHole(less, s, n, hole, false) && hole < n
    ensures DownHole(less, t, n, hole, false)
  {
    assert forall i | 0 <= i < n :: t[i] == t[..n][i] == s[i];
    forall i: nat | 1 <= i < n && Parent(i) != hole && i != hole ensures EdgeOk(less, t, i) {
      assert EdgeOk(less, s, i);
    }
  }

  ghost function KeysOf<T>(keyFunc: T -> Option<string>, out: seq<T>): set<string>
  {
    set i | 0 <= i < |out| && KeyOf(keyFunc, out[i]).Some? :: KeyOf(keyFunc, out[i]).value
  }

  /** out holds each object of `all` whose key is not in rest, exactly once, and no other. */
  ghost predicate Taken<T>(keyFunc: T -> Option<string>, all: map<string, T>, rest: map<string, T>, out: seq<T>)
  {
    && rest == all - KeysOf(keyFunc, out)
    && (forall i | 0 <= i < |out| :: Stored(keyFunc, all, out[i]))
    && (forall i, j | 0 <= i < j < |out| :: KeyOf(keyFunc, out[i]) != KeyOf(keyFunc, out[j]))
  }

  /** out never goes down, and rest holds nothing less than anything in out. */
  ghost predicate Rising<T>(less: (T, T) -> bool, rest: map<string, T>, out: seq<T>)
  {
    && (forall i, j | 0 <= i < j < |out| :: !Before(less, out[j], out[i]))
    && (forall i | 0 <= i < |out| :: Least(less, rest, out[i]))
  }

  lemma TakeOne<T>(keyFunc: T -> Option<string>, all: map<string, T>, rest: map<string, T>, out: seq<T>, x: T)
    requires Taken(keyFunc, all, rest, out) && Stored(keyFunc, rest, x)
    ensures Taken(keyFunc, all, rest - {KeyOf(keyFunc, x).value}, out + [x])
  {
    var key := KeyOf(keyFunc, x).value;
    var out' := out + [x];
    assert KeysOf(keyFunc, out') == KeysOf(keyFunc, out) + {key} by {
      assert out'[|out|] == x;
      assert forall i | 0 <= i < |out| :: out'[i] == out[i];
    }
    assert forall i | 0 <= i < |out| :: KeyOf(keyFunc, out[i]).value in KeysOf(keyFunc, out);
  }

  lemma RemoveShrinks<T>(m: map<string, T>, k: string)
    requires k in m
    ensures |m - {k}| == |m| - 1
  {
  }

  lemma RiseOne<T>(less: (T, T) -> bool, rest: map<string, T>, out: seq<T>, key: string)
    requires Rising(less, rest, out) && key in rest && Least(less, rest, rest[key])
    ensures Rising(less, rest - {key}, out + [rest[key]])
  {
  }

  /**
   Popping until the heap is empty yields every stored object exactly once, and no later
   object is less than an earlier one.
   */
  method Drain<T(!new)>(h: Heap<T>) returns (out: seq<T>)
    requires h.Valid()
    modifies h
    ensures h.Valid() && h.View() == map[]
    ensures Taken(h.keyFunc, old(h.View()), map[], out)
    ensures Rising(h.less, map[], out)
  {
    out := [];
    var n := h.Len();
    while n > 0
      invariant h.Valid() && n == |h.View()| && (n == 0 <==> h.View() == map[])
      invariant Taken(h.keyFunc, old(h.View()), h.View(), out) && Rising(h.less, h.View(), out)
      decreases n
    {
      ghost var before := h.View();
      var obj := h.Pop();
      TakeOne(h.keyFunc, old(h.View()), before, out, obj);
      RiseOne(h.less, before, out, KeyOf(h.keyFunc, obj).value);
      RemoveShrinks(before, KeyOf(h.keyFunc, obj).value);
      out := out + [obj];
      n := h.Len();
    }
  }
}
