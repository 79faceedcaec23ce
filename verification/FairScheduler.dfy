/** The number of queued items, which the scheduler keeps as a counter. */
module SchedulerSize {
  import opened Sums
  import opened Seqs
  import opened SchedulerSpec

  ghost function Lengths<T>(queued: map<Principal, seq<T>>): map<Principal, int> {
    map q | q in queued :: |queued[q]|
  }

  ghost function BucketSize<T>(b: Bucket<T>): int {
    Sum(Lengths(b.queued))
  }

  ghost function Sizes<T>(s: Sched<T>): map<int, int> {
    map p | p in s :: BucketSize(s[p])
  }

  ghost function Size<T>(s: Sched<T>): int {
    Sum(Sizes(s))
  }

  lemma BucketUpdate<T>(b: Bucket<T>, ring: seq<Principal>, q: Principal, stream: seq<T>)
    ensures BucketSize(Bucket(ring, b.queued[q := stream])) ==
            BucketSize(b) + |stream| - (if q in b.queued then |b.queued[q]| else 0)
  {
    SumUpdate(Lengths(b.queued), q, |stream|);
    assert Lengths(b.queued[q := stream]) == Lengths(b.queued)[q := |stream|];
  }

  lemma BucketDrop<T>(b: Bucket<T>, ring: seq<Principal>, q: Principal)
    requires q in b.queued
    ensures BucketSize(Bucket(ring, b.queued - {q})) == BucketSize(b) - |b.queued[q]|
  {
    SumRemove(Lengths(b.queued), q);
    assert Lengths(b.queued - {q}) == Lengths(b.queued) - {q};
  }

  lemma SetSize<T>(s: Sched<T>, p: int, b: Bucket<T>)
    ensures Size(s[p := b]) == Size(s) + BucketSize(b) - (if p in s then BucketSize(s[p]) else 0)
  {
    SumUpdate(Sizes(s), p, BucketSize(b));
    assert Sizes(s[p := b]) == Sizes(s)[p := BucketSize(b)];
  }

  lemma StoreSize<T>(s: Sched<T>, p: int, b: Bucket<T>)
    requires p in s && (b.ring == [] ==> BucketSize(b) == 0)
    ensures Size(Store(s, p, b)) == Size(s) - BucketSize(s[p]) + BucketSize(b)
  {
    SetSize(s, p, b);
    if b.ring == [] {
      SumRemove(Sizes(s), p);
      assert Sizes(s - {p}) == Sizes(s) - {p};
    }
  }

  lemma EmptyBucket<T>(b: Bucket<T>)
    requires b.queued == map[]
    ensures BucketSize(b) == 0
  {
    assert Lengths(b.queued) == map[];
  }

  lemma PutSize<T>(s: Sched<T>, item: T, p: int, q: Principal, front: bool)
    ensures Size(Put(s, item, p, q, front)) == Size(s) + 1
  {
    var b := BucketAt(s, p);
    var b' := PutBucket(b, item, q, front);
    BucketUpdate(b, b'.ring, q, b'.queued[q]);
    SetSize(s, p, b');
    if p !in s { EmptyBucket(b); }
  }

  lemma PopSize<T>(s: Sched<T>, p: int)
    requires Ok(s) && p in s
    ensures CanPop(s, p) && Size(Pop(s, p)) == Size(s) - 1
  {
    PopKeepsOk(s, p);
    var b, b', q := s[p], PopBucket(s[p]), Turn(s, p);
    if q in b'.queued { BucketUpdate(b, b'.ring, q, b'.queued[q]); } else { BucketDrop(b, b'.ring, q); }
    if b'.ring == [] {
      assert forall r :: r in b.queued ==> r in b.ring;
      EmptyBucket(b');
    }
    StoreSize(s, p, b');
  }

  lemma RemoveSize<T>(s: Sched<T>, p: int, q: Principal, item: T)
    requires Ok(s) && item in Stream(s, p, q)
    ensures Size(Remove(s, p, q, item)) == Size(s) - 1
  {
    var b, b' := s[p], RemoveBucket(s[p], q, item);
    if q in b'.queued { BucketUpdate(b, b'.ring, q, b'.queued[q]); } else {
      RemoveFirstElements(b.ring, q);
      BucketDrop(b, b'.ring, q);
    }
    if b'.ring == [] {
      forall r | r in b.queued ensures r == q { assert r in b.ring; }
      EmptyBucket(b');
    }
    StoreSize(s, p, b');
  }

  /** The counter is zero exactly when there is nothing to pop. */
  lemma EmptyIffSizeZero<T>(s: Sched<T>)
    requires Ok(s)
    ensures Size(s) >= 0 && (Size(s) == 0 <==> s == map[])
  {
    forall p | p in s ensures BucketSize(s[p]) > 0 {
      var b := s[p];
      assert b.ring[0] in b.ring;
      SummandLeSum(Lengths(b.queued), b.ring[0]);
    }
    SumNonNegative(Sizes(s));
    if s != map[] {
      var p := KeyOf(s);
      SummandLeSum(Sizes(s), p);
    }
  }
}

/** What Python's documentation promises of `heapq` on a list of integers: the least comes first. */
module Heap {

  ghost predicate FirstIsLeast(h: seq<int>) {
    forall i :: 0 <= i < |h| ==> h[0] <= h[i]
  }

  method Push(h: seq<int>, x: int) returns (h': seq<int>)
    requires FirstIsLeast(h)
    ensures FirstIsLeast(h') && multiset(h') == multiset(h) + multiset{x}
  {
    if h == [] || x < h[0] { h' := [x] + h; } else { h' := h + [x]; }
  }

  method Heapify(h: seq<int>) returns (h': seq<int>)
    ensures FirstIsLeast(h') && multiset(h') == multiset(h)
  {
    h' := h;
    if h == [] { return; }
    var least := 0;
    for i := 1 to |h|
      invariant least < |h| && forall j :: 0 <= j < i ==> h[least] <= h[j]
    {
      if h[i] < h[least] { least := i; }
    }
    assert h == h[..least] + [h[least]] + h[least + 1..];
    h' := [h[least]] + h[..least] + h[least + 1..];
  }

  method Pop(h: seq<int>) returns (h': seq<int>)
    requires FirstIsLeast(h) && h != []
    ensures FirstIsLeast(h') && multiset(h') == multiset(h) - multiset{h[0]}
  {
    assert h == [h[0]] + h[1..];
    h' := Heapify(h[1..]);
  }
}

module FairSchedulers {
  import opened Options
  import opened Seqs
  import opened SchedulerSpec
  import opened SchedulerSize
  import Heap

  /** One priority level, mutated in place. */
  class Priority<T(==)> {
    var principals: seq<Principal>
    var queued: map<Principal, seq<T>>
    ghost const level: int

    constructor (ghost level: int)
      ensures principals == [] && queued == map[] && this.level == level
    {
      principals, queued := [], map[];
      this.level := level;
    }

    ghost function View(): Bucket<T>
      reads this
    {
      Bucket(principals, queued)
    }

    method Put(item: T, principal: Principal, front: bool)
      modifies this
      ensures View() == PutBucket(old(View()), item, principal, front)
    {
      var queue := if principal in queued then queued[principal] else [];
      if |queue| == 0 {
        principals := principals + [principal];
      }
      queue := if front then [item] + queue else queue + [item];
      queued := queued[principal := queue];
    }

    method Pop() returns (item: T)
      requires BucketOk(View())
      modifies this
      ensures old(principals[0] in queued && queued[principals[0]] != [] && item == queued[principals[0]][0])
      ensures View() == PopBucket(old(View()))
    {
      assert principals[0] in View().ring;
      var principal := principals[0];
      principals := principals[1..];
      var queue := queued[principal];
      item := queue[0];
      queue := queue[1..];
      if |queue| != 0 {
        queued := queued[principal := queue];
        principals := principals + [principal];
      } else {
        queued := queued - {principal};
      }
    }

    method Remove(item: T, principal: Principal)
      requires principal in queued && item in queued[principal]
      modifies this
      ensures View() == RemoveBucket(old(View()), principal, item)
    {
      var queue := RemoveFirst(queued[principal], item);
      if |queue| != 0 {
        queued := queued[principal := queue];
      } else {
        queued := queued - {principal};
        if principal in principals {
          principals := RemoveFirst(principals, principal);
        }
      }
    }
  }

  /** `h` lists the elements of `keys`, once each. */
  ghost predicate Lists(h: seq<int>, keys: set<int>) {
    if h == [] then keys == {} else h[0] in keys && Lists(h[1..], keys - {h[0]})
  }

  ghost predicate HeapOf(heap: seq<int>, keys: set<int>) {
    Lists(heap, keys) && Heap.FirstIsLeast(heap)
  }

  lemma {:induction false} ListsIffCounts(h: seq<int>, keys: set<int>)
    ensures Lists(h, keys) <==> multiset(h) == multiset(keys)
    decreases |h|
  {
    if h == [] {
      assert |multiset(keys)| == |keys|;
    } else {
      assert h == [h[0]] + h[1..];
      assert h[0] in multiset(h);
      assert multiset(h[1..]) == multiset(h) - multiset{h[0]};
      ListsIffCounts(h[1..], keys - {h[0]});
      if h[0] in keys {
        assert multiset(keys - {h[0]}) == multiset(keys) - multiset{h[0]};
        assert multiset(keys) == multiset(keys - {h[0]}) + multiset{h[0]};
      }
    }
  }

  method HeapWith(heap: seq<int>, ghost keys: set<int>, p: int) returns (r: seq<int>)
    requires HeapOf(heap, keys) && p !in keys
    ensures HeapOf(r, keys + {p})
  {
    ListsIffCounts(heap, keys);
    r := Heap.Push(heap, p);
    assert multiset(keys + {p}) == multiset(keys) + multiset{p};
    ListsIffCounts(r, keys + {p});
  }

  method HeapWithoutFirst(heap: seq<int>, ghost keys: set<int>) returns (r: seq<int>)
    requires HeapOf(heap, keys) && heap != []
    ensures HeapOf(r, keys - {heap[0]})
  {
    ListsIffCounts(heap, keys);
    assert heap[0] in multiset(heap);
    r := Heap.Pop(heap);
    assert multiset(keys - {heap[0]}) == multiset(keys) - multiset{heap[0]};
    ListsIffCounts(r, keys - {heap[0]});
  }

  method HeapWithout(heap: seq<int>, ghost keys: set<int>, p: int) returns (r: seq<int>)
    requires HeapOf(heap, keys) && p in keys
    ensures HeapOf(r, keys - {p})
  {
    ListsIffCounts(heap, keys);
    assert p in multiset(heap);
    var i := IndexOf(heap, p);
    assert heap == heap[..i] + [heap[i]] + heap[i + 1..];
    r := Heap.Heapify(RemoveFirst(heap, p));
    assert multiset(keys - {p}) == multiset(keys) - multiset{p};
    ListsIffCounts(r, keys - {p});
  }

  lemma TopIsLeast(heap: seq<int>, keys: set<int>)
    requires HeapOf(heap, keys) && keys != {}
    ensures heap != [] && heap[0] in keys && forall p :: p in keys ==> heap[0] <= p
  {
    ListsIffCounts(heap, keys);
    assert heap[0] in multiset(heap);
    forall p | p in keys ensures heap[0] <= p { assert p in multiset(heap); }
  }

  class FairScheduler<T(==)> {
    var priorities: map<int, Priority<T>>
    var heap: seq<int>
    var size: nat

    /** The value of the scheduler. */
    ghost var contents: Sched<T>
    ghost var Repr: set<Priority<T>>

    /** Buckets are not shared, and the heap has the priorities once each. */
    ghost predicate Linked()
      reads this
    {
      && (forall p :: p in priorities ==> priorities[p].level == p)
      && HeapOf(heap, priorities.Keys)
    }

    /** The buckets hold exactly the value `s`. */
    ghost predicate Mirrors(s: Sched<T>)
      reads this, Repr
    {
      && (forall p :: p in s ==> p in priorities)
      && forall p :: p in priorities ==> p in s && priorities[p] in Repr && priorities[p].View() == s[p]
    }

    ghost predicate Valid()
      reads this, Repr
    {
      Linked() && Mirrors(contents) && Ok(contents) && size == Size(contents)
    }

    constructor ()
      ensures Valid() && contents == map[] && fresh(Repr)
    {
      EmptyIffSizeZero<T>(map[]);
      priorities, heap, size, contents, Repr := map[], [], 0, map[], {};
    }

    method Put(item: T, priority: int, principal: Principal)
      requires Valid()
      modifies this, Repr
      ensures Valid() && Repr >= old(Repr) && fresh(Repr - old(Repr))
      ensures contents == SchedulerSpec.Put(old(contents), item, priority, principal, false)
    {
      PutAt(item, priority, principal, false);
    }

    /** Restore a popped item ahead of later work in its stream. */
    method PutFront(item: T, priority: int, principal: Principal)
      requires Valid()
      modifies this, Repr
      ensures Valid() && Repr >= old(Repr) && fresh(Repr - old(Repr))
      ensures contents == SchedulerSpec.Put(old(contents), item, priority, principal, true)
    {
      PutAt(item, priority, principal, true);
    }

    method PutAt(item: T, priority: int, principal: Principal, front: bool)
      requires Valid()
      modifies this, Repr
      ensures Valid() && Repr >= old(Repr) && fresh(Repr - old(Repr))
      ensures contents == SchedulerSpec.Put(old(contents), item, priority, principal, front)
    {
      hide Ok;
      ghost var s := contents;
      PutKeepsOk(s, item, priority, principal, front);
      PutSize(s, item, priority, principal, front);
      Append(item, priority, principal, front, s);
      size := size + 1;
      contents := SchedulerSpec.Put(s, item, priority, principal, front);
    }

    /** Take the head of the stream whose turn it is at the least priority; none when empty. */
    method Pop() returns (item: Option<T>)
      requires Valid()
      modifies this, Repr
      ensures Valid() && Repr == old(Repr)
      ensures old(contents) == map[] ==> item == None && contents == old(contents)
      ensures old(contents) != map[] ==>
                exists p :: && IsLeast(old(contents), p) && CanPop(old(contents), p)
                            && item == Some(PopItem(old(contents), p)) && contents == SchedulerSpec.Pop(old(contents), p)
    {
      hide Ok;
      ghost var s := contents;
      EmptyIffSizeZero(s);
      if size == 0 {
        return None;
      }
      var priority := LeastPriority();
      PopKeepsOk(s, priority);
      PopSize(s, priority);
      var head := TakeTurn(priority, s);
      item := Some(head);
      size := size - 1;
      contents := SchedulerSpec.Pop(s, priority);
    }

    /** Take one `item` out, wherever it is queued. */
    method Remove(item: T) returns (found: bool)
      requires Valid()
      modifies this, Repr
      ensures Valid() && Repr == old(Repr)
      ensures found ==> exists p, q :: item in Stream(old(contents), p, q) &&
                                       contents == SchedulerSpec.Remove(old(contents), p, q, item)
      ensures !found ==> contents == old(contents) && forall p, q :: item !in Stream(contents, p, q)
    {
      ghost var s := contents;
      var levels := priorities.Keys;
      while levels != {}
        invariant levels <= priorities.Keys && unchanged(this) && unchanged(Repr)
        invariant forall p, q :: p !in levels ==> item !in Stream(s, p, q)
        decreases levels
      {
        var priority := AnyOf(levels);
        var bucket := priorities[priority];
        var streams := bucket.queued.Keys;
        while streams != {}
          invariant streams <= bucket.queued.Keys && unchanged(this) && unchanged(Repr)
          invariant forall q :: q in bucket.queued && q !in streams ==> item !in bucket.queued[q]
          decreases streams
        {
          var principal := AnyOf(streams);
          if item in bucket.queued[principal] {
            assert item in Stream(s, priority, principal);
            Take(priority, principal, item);
            return true;
          }
          streams := streams - {principal};
        }
        levels := levels - {priority};
      }
      return false;
    }

    /** The body of `remove` once the stream holding `item` is found. */
    method Take(priority: int, principal: Principal, item: T)
      requires Valid() && item in Stream(contents, priority, principal)
      modifies this, Repr
      ensures Valid() && Repr == old(Repr)
      ensures contents == SchedulerSpec.Remove(old(contents), priority, principal, item)
    {
      hide Ok, SchedulerSpec.Remove, Stream;
      ghost var s := contents;
      RemoveKeepsOk(s, priority, principal, item);
      RemoveSize(s, priority, principal, item);
      EmptyIffSizeZero(SchedulerSpec.Remove(s, priority, principal, item));
      TakeFrom(priority, principal, item, s);
      size := size - 1;
      contents := SchedulerSpec.Remove(s, priority, principal, item);
    }

    // ---------- one bucket at a time ----------

    method LeastPriority() returns (p: int)
      requires Linked() && Mirrors(contents) && contents != map[]
      ensures IsLeast(contents, p) && heap != [] && p == heap[0]
    {
      assert forall q :: q in priorities.Keys <==> q in contents;
      TopIsLeast(heap, priorities.Keys);
      p := heap[0];
    }

    method Append(item: T, priority: int, principal: Principal, front: bool, ghost s: Sched<T>)
      requires Linked() && Mirrors(s)
      modifies this`heap, this`priorities, this`Repr, Repr
      ensures Linked() && Mirrors(SchedulerSpec.Put(s, item, priority, principal, front))
      ensures Repr >= old(Repr) && fresh(Repr - old(Repr))
    {
      if priority !in priorities {
        AddLevel(priority, s);
      }
      priorities[priority].Put(item, principal, front);
    }

    method AddLevel(priority: int, ghost s: Sched<T>)
      requires Linked() && Mirrors(s) && priority !in priorities
      modifies this`heap, this`priorities, this`Repr
      ensures Linked() && Mirrors(s[priority := Bucket([], map[])])
      ensures Repr >= old(Repr) && fresh(Repr - old(Repr))
    {
      var bucket := new Priority<T>(priority);
      heap := HeapWith(heap, priorities.Keys, priority);
      assert (priorities[priority := bucket]).Keys == priorities.Keys + {priority};
      priorities := priorities[priority := bucket];
      Repr := Repr + {bucket};
    }

    method DropLevel(priority: int, rest: seq<int>, ghost s: Sched<T>)
      requires Linked() && Mirrors(s) && priority in priorities && HeapOf(rest, priorities.Keys - {priority})
      modifies this`heap, this`priorities
      ensures Linked() && Mirrors(s - {priority})
    {
      heap := rest;
      assert (priorities - {priority}).Keys == priorities.Keys - {priority};
      priorities := priorities - {priority};
    }

    method TakeTurn(priority: int, ghost s: Sched<T>) returns (item: T)
      requires Linked() && Mirrors(s) && priority in s && BucketOk(s[priority]) && CanPop(s, priority)
      requires heap != [] && heap[0] == priority
      modifies this`heap, this`priorities, Repr
      ensures Linked() && Mirrors(SchedulerSpec.Pop(s, priority)) && item == PopItem(s, priority)
    {
      var bucket := priorities[priority];
      item := bucket.Pop();
      ghost var s' := s[priority := PopBucket(s[priority])];
      assert Mirrors(s');
      if bucket.principals == [] {
        var rest := HeapWithoutFirst(heap, priorities.Keys);
        DropLevel(priority, rest, s');
        assert s' - {priority} == s - {priority};
      }
    }

    method TakeFrom(priority: int, principal: Principal, item: T, ghost s: Sched<T>)
      requires Linked() && Mirrors(s) && item in Stream(s, priority, principal)
      modifies this`heap, this`priorities, Repr
      ensures Linked() && Mirrors(SchedulerSpec.Remove(s, priority, principal, item))
    {
      var bucket := priorities[priority];
      bucket.Remove(item, principal);
      ghost var s' := s[priority := RemoveBucket(s[priority], principal, item)];
      assert Mirrors(s');
      if bucket.principals == [] {
        var rest := HeapWithout(heap, priorities.Keys, priority);
        DropLevel(priority, rest, s');
        assert s' - {priority} == s - {priority};
      }
    }
  }
}
