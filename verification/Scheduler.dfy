/**
 The broker's strict-priority, principal-fair scheduler.

 `SchedulerSpec` gives the scheduler's value: one bucket for each priority that has
 work, holding a round-robin ring of principals and one FIFO stream for each of them.
 `Fairness` proves what round robin promises over arbitrary runs of operations, and
 `FairSchedulers` holds the mutable structure of deadpool/remote/_scheduler.py, proved
 to refine that value.
 */
module SchedulerSpec {
  import opened Seqs

  type Principal = string

  datatype Bucket<T> = Bucket(ring: seq<Principal>, queued: map<Principal, seq<T>>)

  type Sched<T> = map<int, Bucket<T>>

  /** The ring lists exactly the principals with queued work, once each, and is not empty. */
  ghost predicate BucketOk<T>(b: Bucket<T>) {
    && b.ring != []
    && NoDup(b.ring)
    && (forall q :: q in b.ring <==> q in b.queued)
    && forall q :: q in b.queued ==> b.queued[q] != []
  }

  ghost predicate Ok<T>(s: Sched<T>) {
    forall p :: p in s ==> BucketOk(s[p])
  }

  function Stream<T>(s: Sched<T>, p: int, q: Principal): seq<T> {
    if p in s && q in s[p].queued then s[p].queued[q] else []
  }

  function Ring<T>(s: Sched<T>, p: int): seq<Principal> {
    if p in s then s[p].ring else []
  }

  function BucketAt<T>(s: Sched<T>, p: int): Bucket<T> {
    if p in s then s[p] else Bucket([], map[])
  }

  // ---------- the four operations ----------

  function PutBucket<T>(b: Bucket<T>, item: T, q: Principal, front: bool): Bucket<T> {
    var stream := if q in b.queued then b.queued[q] else [];
    Bucket(if stream == [] then b.ring + [q] else b.ring,
           b.queued[q := if front then [item] + stream else stream + [item]])
  }

  function Put<T>(s: Sched<T>, item: T, p: int, q: Principal, front: bool): Sched<T> {
    s[p := PutBucket(BucketAt(s, p), item, q, front)]
  }

  ghost predicate IsLeast<T>(s: Sched<T>, p: int) {
    p in s && forall p' :: p' in s ==> p <= p'
  }

  /** The head of the ring of bucket `p`, and the head of that principal's stream. */
  function Turn<T>(s: Sched<T>, p: int): Principal
    requires p in s && s[p].ring != []
  {
    s[p].ring[0]
  }

  predicate CanPop<T>(s: Sched<T>, p: int) {
    p in s && s[p].ring != [] && s[p].ring[0] in s[p].queued && s[p].queued[s[p].ring[0]] != []
  }

  function PopItem<T>(s: Sched<T>, p: int): T
    requires CanPop(s, p)
  {
    s[p].queued[Turn(s, p)][0]
  }

  function PopBucket<T>(b: Bucket<T>): Bucket<T>
    requires b.ring != [] && b.ring[0] in b.queued && b.queued[b.ring[0]] != []
  {
    var q, rest := b.ring[0], b.queued[b.ring[0]][1..];
    if rest != [] then Bucket(b.ring[1..] + [q], b.queued[q := rest])
    else Bucket(b.ring[1..], b.queued - {q})
  }

  /** `s` with bucket `p` replaced, or dropped when its ring is empty. */
  function Store<T>(s: Sched<T>, p: int, b: Bucket<T>): Sched<T> {
    if b.ring == [] then s - {p} else s[p := b]
  }

  function Pop<T>(s: Sched<T>, p: int): Sched<T>
    requires CanPop(s, p)
  {
    Store(s, p, PopBucket(s[p]))
  }

  function RemoveBucket<T(==)>(b: Bucket<T>, q: Principal, item: T): Bucket<T>
    requires q in b.queued && item in b.queued[q]
  {
    var rest := RemoveFirst(b.queued[q], item);
    if rest != [] then b.(queued := b.queued[q := rest])
    else Bucket(if q in b.ring then RemoveFirst(b.ring, q) else b.ring, b.queued - {q})
  }

  /** The first `item` of one stream taken out. */
  function Remove<T(==)>(s: Sched<T>, p: int, q: Principal, item: T): Sched<T>
    requires item in Stream(s, p, q)
  {
    Store(s, p, RemoveBucket(s[p], q, item))
  }

  // ---------- what the operations do to streams and rings ----------

  lemma PutKeepsOk<T>(s: Sched<T>, item: T, p: int, q: Principal, front: bool)
    requires Ok(s)
    ensures Ok(Put(s, item, p, q, front))
  {
    var b, b' := BucketAt(s, p), PutBucket(BucketAt(s, p), item, q, front);
    forall r ensures r in b'.ring <==> r in b'.queued {
      if r in b'.queued && r == q && q !in b.queued { assert b'.ring[|b'.ring| - 1] == q; }
      if r in b.ring { var i :| 0 <= i < |b.ring| && b.ring[i] == r; assert b'.ring[i] == r; }
    }
    assert BucketOk(b');
  }

  lemma PutStreams<T>(s: Sched<T>, item: T, p: int, q: Principal, front: bool)
    ensures forall p', q' :: Stream(Put(s, item, p, q, front), p', q') ==
              if p' == p && q' == q
              then (if front then [item] + Stream(s, p, q) else Stream(s, p, q) + [item])
              else Stream(s, p', q')
  {
  }

  lemma PopKeepsOk<T>(s: Sched<T>, p: int)
    requires Ok(s) && p in s
    ensures BucketOk(s[p]) && CanPop(s, p) && Ok(Pop(s, p))
  {
    var b := s[p];
    assert b.ring[0] in b.ring;
    var b' := PopBucket(b);
    forall r ensures r in b'.ring <==> r in b'.queued {
      assert r in b.ring <==> r in b.queued;
      if r in b.ring && r != b.ring[0] {
        var i :| 0 <= i < |b.ring| && b.ring[i] == r;
        assert b'.ring[i - 1] == r;
      }
    }
    assert b'.ring != [] ==> BucketOk(b');
  }

  /** `pop` takes the head of the stream whose turn it is and touches no other stream. */
  lemma PopStreams<T>(s: Sched<T>, p: int)
    requires Ok(s) && p in s
    ensures CanPop(s, p)
    ensures Stream(s, p, Turn(s, p)) == [PopItem(s, p)] + Stream(Pop(s, p), p, Turn(s, p))
    ensures forall p', q' :: (p' != p || q' != Turn(s, p)) ==> Stream(Pop(s, p), p', q') == Stream(s, p', q')
  {
    var b := s[p];
    assert b.ring[0] in b.ring;
    var b' := PopBucket(b);
    if b'.ring == [] {
      assert forall q' :: q' in b.queued ==> q' in b.ring;
    }
  }

  lemma RemoveKeepsOk<T>(s: Sched<T>, p: int, q: Principal, item: T)
    requires Ok(s) && item in Stream(s, p, q)
    ensures Ok(Remove(s, p, q, item))
  {
    var b, b' := s[p], RemoveBucket(s[p], q, item);
    if RemoveFirst(b.queued[q], item) == [] {
      RemoveFirstElements(b.ring, q);
    }
    assert b'.ring != [] ==> BucketOk(b');
  }

  /** `remove` takes one occurrence out of one stream; the rest of it and every other stream keep their order. */
  lemma RemoveStreams<T>(s: Sched<T>, p: int, q: Principal, item: T)
    requires Ok(s) && item in Stream(s, p, q)
    ensures forall p', q' :: Stream(Remove(s, p, q, item), p', q') ==
              if p' == p && q' == q then RemoveFirst(Stream(s, p, q), item) else Stream(s, p', q')
  {
    var b, b' := s[p], RemoveBucket(s[p], q, item);
    if RemoveFirst(b.queued[q], item) == [] {
      RemoveFirstElements(b.ring, q);
      if b'.ring == [] {
        forall q' | q' in b.queued ensures q' == q { assert q' in b.ring; }
      }
    }
  }

  /**
   The broker pops a record, finds the local pool full and puts the record back in front.
   Every stream is restored exactly, but the principal has moved to the back of its ring.
   */
  lemma PopThenPutFront<T>(s: Sched<T>, p: int)
    requires Ok(s) && p in s
    ensures CanPop(s, p)
    ensures var back := Put(Pop(s, p), PopItem(s, p), p, Turn(s, p), true);
            && (forall p', q' :: Stream(back, p', q') == Stream(s, p', q'))
            && (forall p' :: p' != p ==> Ring(back, p') == Ring(s, p'))
            && Ring(back, p) == Ring(s, p)[1..] + [Turn(s, p)]
  {
    PopStreams(s, p);
    PutStreams(Pop(s, p), PopItem(s, p), p, Turn(s, p), true);
    var b := s[p];
    var q := Turn(s, p);
    assert q !in b.ring[1..];
    var b' := PopBucket(b);
    if b'.ring == [] {
      assert b.ring == [q];
    }
  }
}
