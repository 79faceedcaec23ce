/**
 What round robin promises over every run of scheduler operations: principals may join,
 empty, be emptied by `remove` and rejoin, and work may be put at either end of a stream.
 */
module Fairness {
  import opened Seqs
  import opened Sums
  import opened SchedulerSpec

  datatype Op<T> =
    | PutOp(item: T, p: int, q: Principal, front: bool)
    | PopOp
    | RemoveOp(item: T, p: int, q: Principal)

  ghost function Least<T>(s: Sched<T>): (p: int)
    requires s != map[]
    ensures IsLeast(s, p)
  {
    LeastExists(s);
    var p :| IsLeast(s, p);
    p
  }

  lemma {:induction false} LeastExists<T>(s: Sched<T>)
    requires s != map[]
    ensures exists p :: IsLeast(s, p)
    decreases |s|
  {
    var x := KeyOf(s);
    var rest := s - {x};
    if rest != map[] {
      assert s == rest[x := s[x]];
      LeastExists(rest);
      var y :| IsLeast(rest, y);
      assert IsLeast(s, if x < y then x else y);
    } else {
      assert forall p' :: p' in s ==> p' == x;
      assert IsLeast(s, x);
    }
  }

  /** One operation; `pop` on an empty scheduler and `remove` of an absent item change nothing. */
  ghost function Apply<T>(s: Sched<T>, op: Op<T>): Sched<T>
    requires Ok(s)
    ensures Ok(Apply(s, op))
  {
    match op
    case PutOp(item, p, q, front) => PutKeepsOk(s, item, p, q, front); Put(s, item, p, q, front)
    case PopOp => if s == map[] then s else PopKeepsOk(s, Least(s)); Pop(s, Least(s))
    case RemoveOp(item, p, q) =>
      if item in Stream(s, p, q) then RemoveKeepsOk(s, p, q, item); Remove(s, p, q, item) else s
  }

  ghost function Run<T>(s: Sched<T>, ops: seq<Op<T>>): Sched<T>
    requires Ok(s)
    ensures Ok(Run(s, ops))
    decreases |ops|
  {
    if ops == [] then s else Run(Apply(s, ops[0]), ops[1..])
  }

  /** The principals that `ops` serves from bucket `p`, in order. */
  ghost function Served<T>(s: Sched<T>, ops: seq<Op<T>>, p: int): seq<Principal>
    requires Ok(s)
    decreases |ops|
  {
    if ops == [] then [] else
      ServedBy(s, ops[0], p) + Served(Apply(s, ops[0]), ops[1..], p)
  }

  ghost function ServedBy<T>(s: Sched<T>, op: Op<T>, p: int): seq<Principal>
    requires Ok(s)
  {
    if op.PopOp? && s != map[] && Least(s) == p then [Turn(s, p)] else []
  }

  /** `q` has work at priority `p` in every state of the run. */
  ghost predicate StaysBacklogged<T>(s: Sched<T>, ops: seq<Op<T>>, p: int, q: Principal)
    requires Ok(s)
    decreases |ops|
  {
    q in Ring(s, p) && (ops == [] || StaysBacklogged(Apply(s, ops[0]), ops[1..], p, q))
  }

  /** How many principals are in front of `q` in bucket `p`. */
  ghost function Position<T>(s: Sched<T>, p: int, q: Principal): nat
    requires q in Ring(s, p)
  {
    IndexOf(Ring(s, p), q)
  }

  ghost predicate InFront(r: seq<Principal>, x: Principal, q: Principal) {
    x in r && q in r && IndexOf(r, x) < IndexOf(r, q)
  }

  /** The principals that will be served before `q` if nothing else happens. */
  ghost function Front<T>(s: Sched<T>, p: int, q: Principal): set<Principal> {
    set x | x in Ring(s, p) && InFront(Ring(s, p), x, q)
  }

  // ---------- one operation ----------

  /** The only ways an operation changes a ring. */
  datatype Change = Same | Join(x: Principal) | Drop(x: Principal) | TakeTurn(requeue: bool)

  ghost predicate Possible(r: seq<Principal>, c: Change) {
    && (c.Join? ==> c.x !in r)
    && (c.Drop? ==> c.x in r)
    && (c.TakeTurn? ==> r != [])
  }

  ghost function After(r: seq<Principal>, c: Change): seq<Principal>
    requires Possible(r, c)
  {
    match c
    case Same => r
    case Join(x) => r + [x]
    case Drop(x) => RemoveFirst(r, x)
    case TakeTurn(requeue) => r[1..] + if requeue then [r[0]] else []
  }

  ghost function ServedIn(r: seq<Principal>, c: Change): seq<Principal>
    requires Possible(r, c)
  {
    if c.TakeTurn? then [r[0]] else []
  }

  lemma ChangeOf<T>(s: Sched<T>, op: Op<T>, p: int) returns (c: Change)
    requires Ok(s)
    ensures Possible(Ring(s, p), c)
    ensures Ring(Apply(s, op), p) == After(Ring(s, p), c)
    ensures ServedBy(s, op, p) == ServedIn(Ring(s, p), c)
    ensures NoDup(Ring(s, p)) && NoDup(Ring(Apply(s, op), p))
  {
    c := Same;
    match op
    case PutOp(item, p', q, front) =>
      if p == p' && q !in Ring(s, p) { c := Join(q); }
    case PopOp =>
      if s != map[] && Least(s) == p {
        PopKeepsOk(s, p);
        c := TakeTurn(s[p].queued[Turn(s, p)][1..] != []);
      }
    case RemoveOp(item, p', q) =>
      if p == p' && item in Stream(s, p, q) && RemoveFirst(Stream(s, p, q), item) == [] { c := Drop(q); }
  }

  lemma IndexIs(r: seq<Principal>, i: nat)
    requires NoDup(r) && i < |r|
    ensures IndexOf(r, r[i]) == i
  {
  }

  /** Where an unserved principal stands after a change. */
  lemma IndexAfter(r: seq<Principal>, c: Change, q: Principal)
    requires NoDup(r) && Possible(r, c) && NoDup(After(r, c))
    requires q in r && q in After(r, c) && q !in ServedIn(r, c)
    ensures IndexOf(After(r, c), q) ==
            if c.TakeTurn? || (c.Drop? && IndexOf(r, c.x) < IndexOf(r, q)) then IndexOf(r, q) - 1 else IndexOf(r, q)
    ensures c.Drop? ==> c.x != q && IndexOf(r, c.x) != IndexOf(r, q)
  {
    var i := IndexOf(r, q);
    if c.Drop? { RemoveFirstElements(r, c.x); }
    IndexIs(After(r, c), if c.TakeTurn? || (c.Drop? && IndexOf(r, c.x) < i) then i - 1 else i);
  }

  /** While `q` waits unserved, nobody gets in front of it, and whoever is served leaves the front. */
  lemma NobodyOvertakes(r: seq<Principal>, c: Change, x: Principal, q: Principal)
    requires NoDup(r) && Possible(r, c) && NoDup(After(r, c))
    requires q in r && q !in ServedIn(r, c) && InFront(After(r, c), x, q)
    ensures InFront(r, x, q) && x !in ServedIn(r, c)
  {
    IndexAfter(r, c, q);
    if !(c.TakeTurn? && x == r[0]) && !(c.Join? && x == c.x) {
      if c.Drop? { RemoveFirstElements(r, c.x); }
      IndexAfter(r, c, x);
    }
  }

  lemma PairKeepsOrder(r: seq<Principal>, c: Change, x: Principal, q: Principal)
    requires NoDup(r) && Possible(r, c) && NoDup(After(r, c))
    requires InFront(r, x, q) && x in After(r, c) && q in After(r, c) && x !in ServedIn(r, c)
    ensures q !in ServedIn(r, c) && InFront(After(r, c), x, q)
  {
    IndexAfter(r, c, x);
    IndexAfter(r, c, q);
  }

  // ---------- whole runs ----------

  lemma StepOrder<T>(s: Sched<T>, op: Op<T>, p: int, q: Principal)
    requires Ok(s) && q in Ring(s, p) && q in Ring(Apply(s, op), p) && q !in ServedBy(s, op, p)
    ensures forall x :: x in Front(Apply(s, op), p, q) ==> x in Front(s, p, q) && x !in ServedBy(s, op, p)
    ensures forall x :: x in ServedBy(s, op, p) ==> x in Front(s, p, q)
    ensures Position(Apply(s, op), p, q) + |ServedBy(s, op, p)| <= Position(s, p, q)
  {
    var r, r' := Ring(s, p), Ring(Apply(s, op), p);
    var c := ChangeOf(s, op, p);
    IndexAfter(r, c, q);
    forall x | InFront(r', x, q) ensures InFront(r, x, q) && x !in ServedIn(r, c) {
      NobodyOvertakes(r, c, x, q);
    }
  }

  lemma Disjoined(now: seq<Principal>, later: seq<Principal>)
    requires NoDup(later) && |now| <= 1 && forall x :: x in later ==> x !in now
    ensures NoDup(now + later)
  {
    forall i, j | 0 <= i < j < |now + later| ensures (now + later)[i] != (now + later)[j] {
      assert (now + later)[j] in later;
    }
  }

  lemma NextStep<T>(s: Sched<T>, ops: seq<Op<T>>, p: int, q: Principal)
    requires Ok(s) && ops != [] && StaysBacklogged(s, ops, p, q)
    ensures q in Ring(Apply(s, ops[0]), p) && StaysBacklogged(Apply(s, ops[0]), ops[1..], p, q)
    ensures Run(s, ops) == Run(Apply(s, ops[0]), ops[1..])
    ensures Served(s, ops, p) == ServedBy(s, ops[0], p) + Served(Apply(s, ops[0]), ops[1..], p)
  {
  }

  /**
   However other principals come and go, while `q` stays backlogged and unserved, every turn
   taken moves it one place forward, only principals that were in front of it are served, each
   of those at most once, and nobody else gets in front.
   */
  lemma {:induction false} AtMostOnceBeforeMyTurn<T>(s: Sched<T>, ops: seq<Op<T>>, p: int, q: Principal)
    requires Ok(s) && StaysBacklogged(s, ops, p, q) && q !in Served(s, ops, p)
    ensures q in Ring(Run(s, ops), p)
    ensures NoDup(Served(s, ops, p))
    ensures forall x :: x in Served(s, ops, p) ==> x in Front(s, p, q)
    ensures forall x :: x in Front(Run(s, ops), p, q) ==> x in Front(s, p, q) && x !in Served(s, ops, p)
    ensures Position(Run(s, ops), p, q) + |Served(s, ops, p)| <= Position(s, p, q)
    decreases |ops|
  {
    if ops != [] {
      NextStep(s, ops, p, q);
      StepOrder(s, ops[0], p, q);
      AtMostOnceBeforeMyTurn(Apply(s, ops[0]), ops[1..], p, q);
      Disjoined(ServedBy(s, ops[0], p), Served(Apply(s, ops[0]), ops[1..], p));
    }
  }

  lemma FirstService<T>(s: Sched<T>, p: int, q: Principal)
    requires Ok(s) && ServedBy(s, PopOp, p) == [q] && q in Ring(Apply(s, PopOp), p)
    ensures q in Ring(s, p) && Position(Apply(s, PopOp), p, q) == |Ring(s, p)| - 1
    ensures forall x :: x in Front(Apply(s, PopOp), p, q) <==> x in Ring(s, p) && x != q
  {
    var c := ChangeOf(s, PopOp, p);
    var r := Ring(s, p);
    var r' := After(r, c);
    assert r' == r[1..] + [q];
    IndexIs(r', |r| - 1);
    forall x | x in r && x != q ensures InFront(r', x, q) {
      var i :| 1 <= i < |r| && r[i] == x;
      IndexIs(r', i - 1);
    }
  }

  /**
   Between two consecutive services of `q` from bucket `p`, with `q` backlogged all the while,
   no other principal is served twice from it, so fewer than `|ring|` turns are taken.
   */
  lemma BetweenConsecutiveServices<T>(s: Sched<T>, ops: seq<Op<T>>, p: int, q: Principal)
    requires Ok(s) && ServedBy(s, PopOp, p) == [q]
    requires StaysBacklogged(Apply(s, PopOp), ops, p, q) && q !in Served(Apply(s, PopOp), ops, p)
    ensures NoDup(Served(Apply(s, PopOp), ops, p))
    ensures |Served(Apply(s, PopOp), ops, p)| < |Ring(s, p)|
    ensures forall x :: x in Served(Apply(s, PopOp), ops, p) ==> x != q && x in Ring(s, p)
  {
    FirstService(s, p, q);
    AtMostOnceBeforeMyTurn(Apply(s, PopOp), ops, p, q);
  }

  /** Whoever is in front and stays backlogged is still in front until it has had its turn. */
  lemma {:induction false} InFrontUntilServed<T>(s: Sched<T>, ops: seq<Op<T>>, p: int, x: Principal, q: Principal)
    requires Ok(s) && StaysBacklogged(s, ops, p, q) && StaysBacklogged(s, ops, p, x)
    requires x in Front(s, p, q) && x !in Served(s, ops, p)
    ensures q !in Served(s, ops, p)
    decreases |ops|
  {
    if ops != [] {
      NextStep(s, ops, p, q);
      NextStep(s, ops, p, x);
      var c := ChangeOf(s, ops[0], p);
      PairKeepsOrder(Ring(s, p), c, x, q);
      InFrontUntilServed(Apply(s, ops[0]), ops[1..], p, x, q);
    }
  }

  /**
   The other half of fairness: once `q` has been served, it is not served again before every
   principal that was waiting with it, and has stayed backlogged, has had a turn.
   */
  lemma EveryoneElseFirst<T>(s: Sched<T>, ops: seq<Op<T>>, p: int, x: Principal, q: Principal)
    requires Ok(s) && ServedBy(s, PopOp, p) == [q] && x in Ring(s, p) && x != q
    requires StaysBacklogged(Apply(s, PopOp), ops, p, q) && StaysBacklogged(Apply(s, PopOp), ops, p, x)
    requires q in Served(Apply(s, PopOp), ops, p)
    ensures x in Served(Apply(s, PopOp), ops, p)
  {
    FirstService(s, p, q);
    if x !in Served(Apply(s, PopOp), ops, p) {
      InFrontUntilServed(Apply(s, PopOp), ops, p, x, q);
    }
  }
}
