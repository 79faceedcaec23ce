/** `_fit_terminal_descriptor` of deadpool/remote/server.py: as much diagnostic text as the first frame can carry. */
module Descriptors {
  import opened Json
  import opened Utf8
  import opened Protocol

  datatype Name = Module | Type | Detail | SerializationError | Traceback

  type Descriptor = map<Name, Text>

  /** What the removal order gives up first. */
  const ORDER := [Traceback, SerializationError, Detail, Type, Module]

  function Label(name: Name): Text {
    match name
    case Module => Ascii("module")
    case Type => Ascii("type")
    case Detail => Ascii("message")
    case SerializationError => Ascii("serialization_error")
    case Traceback => Ascii("traceback")
  }

  // ---------- the control of the first frame, keys sorted ----------

  function With(d: Descriptor, name: Name, rest: Fields): Fields {
    if name in d then Field(Label(name), Str(d[name]), rest) else rest
  }

  function ControlFields(id: Text, d: Descriptor): Fields {
    With(d, Detail, With(d, Module,
      Field(Ascii("request_id"), Str(id), With(d, SerializationError, With(d, Traceback, With(d, Type, NoFields))))))
  }

  function Zeros(n: nat): Text {
    seq(n, _ => 48)
  }

  /** The header of the first frame of a terminal message, its id and digest as long as real ones. */
  function FirstHeader(id: Text, d: Descriptor, size: nat, limits: Limits): Fields {
    HeaderFields(Zeros(32), 0, ChunkCount(size, limits), size, Zeros(64), Object(ControlFields(id, d)))
  }

  /** `_terminal_descriptor_fits` */
  predicate Fits(id: Text, d: Descriptor, size: nat, limits: Limits) {
    Sendable(size, limits) && Encodes(FirstHeader(id, d, size, limits), limits)
  }

  // ---------- fitting is monotone ----------

  /** No other fields, none printing longer, and all of them text within the metadata limit. */
  ghost predicate NoLonger(d: Descriptor, e: Descriptor, limit: nat) {
    && d.Keys <= e.Keys
    && forall name :: name in d ==>
         |EscapeAll(d[name])| <= |EscapeAll(e[name])| && Encodable(d[name]) && Utf8Size(d[name]) <= limit
  }

  lemma WithNoLonger(d: Descriptor, e: Descriptor, limit: nat, name: Name, r1: Fields, r2: Fields, depth: nat)
    requires NoLonger(d, e, limit) && (r2.NoFields? ==> r1.NoFields?) && |PrintFields(r1)| <= |PrintFields(r2)|
    requires Keys(r1) <= Keys(r2) && (ValidFields(r2, limit, depth) ==> ValidFields(r1, limit, depth))
    ensures var f1, f2 := With(d, name, r1), With(e, name, r2);
            && (f2.NoFields? ==> f1.NoFields?) && |PrintFields(f1)| <= |PrintFields(f2)|
            && Keys(f1) <= Keys(f2) && (ValidFields(f2, limit, depth) ==> ValidFields(f1, limit, depth))
  {
    hide EscapeAll;
  }

  lemma ControlNoLonger(id: Text, d: Descriptor, e: Descriptor, limit: nat)
    requires NoLonger(d, e, limit)
    ensures var f1, f2 := ControlFields(id, d), ControlFields(id, e);
            |PrintFields(f1)| <= |PrintFields(f2)| && Keys(f1) <= Keys(f2) && (ValidFields(f2, limit, 2) ==> ValidFields(f1, limit, 2))
  {
    hide NoLonger, With, EscapeAll, Encodable;
    var a1, a2 := With(d, Type, NoFields), With(e, Type, NoFields);
    WithNoLonger(d, e, limit, Type, NoFields, NoFields, 2);
    var b1, b2 := With(d, Traceback, a1), With(e, Traceback, a2);
    WithNoLonger(d, e, limit, Traceback, a1, a2, 2);
    var c1, c2 := With(d, SerializationError, b1), With(e, SerializationError, b2);
    WithNoLonger(d, e, limit, SerializationError, b1, b2, 2);
    var i1, i2 := Field(Ascii("request_id"), Str(id), c1), Field(Ascii("request_id"), Str(id), c2);
    var m1, m2 := With(d, Module, i1), With(e, Module, i2);
    WithNoLonger(d, e, limit, Module, i1, i2, 2);
    WithNoLonger(d, e, limit, Detail, m1, m2, 2);
  }

  /** A descriptor that prints no longer fits wherever the longer one does. */
  lemma FitsMonotone(id: Text, d: Descriptor, e: Descriptor, size: nat, limits: Limits)
    requires NoLonger(d, e, limits.maxMetadata) && Fits(id, e, size, limits)
    ensures Fits(id, d, size, limits)
  {
    ControlNoLonger(id, d, e, limits.maxMetadata);
    FrameNoLonger(id, d, e, size, limits);
  }

  lemma FrameNoLonger(id: Text, d: Descriptor, e: Descriptor, size: nat, limits: Limits)
    requires var f1, f2, limit := ControlFields(id, d), ControlFields(id, e), limits.maxMetadata;
             |PrintFields(f1)| <= |PrintFields(f2)| && Keys(f1) <= Keys(f2) && (ValidFields(f2, limit, 2) ==> ValidFields(f1, limit, 2))
    ensures Encodes(FirstHeader(id, e, size, limits), limits) ==> Encodes(FirstHeader(id, d, size, limits), limits)
  {
    hide ControlFields, Decimal, Quoted;
    var rest := Field(COUNT, Integer(ChunkCount(size, limits)), Field(DIGEST, Str(Zeros(64)),
      Field(INDEX, Integer(0), Field(MESSAGE_ID, Str(Zeros(32)), Field(TOTAL, Integer(size), NoFields)))));
    var c1, c2 := Object(ControlFields(id, d)), Object(ControlFields(id, e));
    assert |Print(c1)| <= |Print(c2)|;
    assert PrintFields(Field(CONTROL, c1, rest)) == Quoted(CONTROL) + [58] + Print(c1) + [44] + PrintFields(rest);
    assert PrintFields(Field(CONTROL, c2, rest)) == Quoted(CONTROL) + [58] + Print(c2) + [44] + PrintFields(rest);
    ValidFrame(c1, c2, rest, limits.maxMetadata);
  }

  lemma ValidFrame(c1: Json, c2: Json, rest: Fields, limit: nat)
    requires c1.Object? && c2.Object? && Keys(c1.fields) <= Keys(c2.fields)
    requires ValidFields(c2.fields, limit, 2) ==> ValidFields(c1.fields, limit, 2)
    ensures Valid(Object(Field(CONTROL, c2, rest)), limit, 0) ==> Valid(Object(Field(CONTROL, c1, rest)), limit, 0)
  {
    var f1, f2 := Field(CONTROL, c1, rest), Field(CONTROL, c2, rest);
    assert Valid(c2, limit, 1) ==> Valid(c1, limit, 1);
    assert ValidFields(f2, limit, 1) ==> ValidFields(f1, limit, 1);
    assert Keys(f1) == Keys(f2);
  }

  // ---------- the search ----------

  /** The largest budget at which `text`, cut to it, leaves a fitting descriptor. */
  ghost predicate LargestBudget(id: Text, d: Descriptor, name: Name, text: Text, size: nat, limits: Limits, budget: nat) {
    && budget <= |Encode(text)|
    && (forall m: nat :: m <= |Encode(text)| ==> (Fits(id, d[name := Truncate(text, m)], size, limits) <==> m <= budget))
  }

  /** Cutting one field shorter keeps a fitting descriptor fitting. */
  lemma ShorterFits(id: Text, d: Descriptor, name: Name, text: Text, m: nat, n: nat, size: nat, limits: Limits)
    requires Within(d[name := text], limits) && m <= n <= |Encode(text)|
    requires Fits(id, d[name := Truncate(text, n)], size, limits)
    ensures Fits(id, d[name := Truncate(text, m)], size, limits)
  {
    hide Fits, Truncate, EscapeAll, Encode, Utf8Size, Encodable;
    TruncateIsShortened(text, m);
    TruncateIsShortened(text, n);
    PrintedSizeMonotone(Replaced(text), m, n);
    TruncateFits(text, m);
    EncodedSize(text);
    var cut := d[name := Truncate(text, m)];
    forall x | x in cut ensures Encodable(cut[x]) && Utf8Size(cut[x]) <= limits.maxMetadata {
      assert x in d[name := text];
    }
    FitsMonotone(id, d[name := Truncate(text, m)], d[name := Truncate(text, n)], size, limits);
  }

  /** Every field is text within the metadata limit. */
  ghost predicate Within(d: Descriptor, limits: Limits) {
    forall name :: name in d ==> Encodable(d[name]) && Utf8Size(d[name]) <= limits.maxMetadata
  }

  method LargestFit(id: Text, d: Descriptor, name: Name, original: Text, size: nat, limits: Limits) returns (best: Text, ghost budget: nat)
    requires name in d && d[name] == [] && Within(d[name := original], limits) && Fits(id, d, size, limits)
    ensures LargestBudget(id, d, name, original, size, limits, budget) && best == Truncate(original, budget)
    ensures Fits(id, d[name := best], size, limits)
    ensures forall m: nat :: m <= |Encode(original)| && Fits(id, d[name := Truncate(original, m)], size, limits) ==>
              |EscapeAll(Truncate(original, m))| <= |EscapeAll(best)|
  {
    hide Fits, Truncate, Encode, Within, EscapeAll, Shortened, Replaced;
    CutToNothing(original);
    assert d[name := []] == d;
    var low: int, high: int := 0, |Encode(original)|;
    best := [];
    while low <= high
      invariant 0 <= low <= high + 1 <= |Encode(original)| + 1
      invariant forall m: nat :: m < low ==> Fits(id, d[name := Truncate(original, m)], size, limits)
      invariant forall m: nat :: high < m <= |Encode(original)| ==> !Fits(id, d[name := Truncate(original, m)], size, limits)
      invariant best == Truncate(original, if low == 0 then 0 else low - 1)
    {
      var middle := (low + high) / 2;
      var candidate := Truncate(original, middle);
      if Fits(id, d[name := candidate], size, limits) {
        forall m: nat | m < middle + 1 ensures Fits(id, d[name := Truncate(original, m)], size, limits) {
          ShorterFits(id, d, name, original, m, middle, size, limits);
        }
        best := candidate;
        low := middle + 1;
      } else {
        forall m: nat | middle - 1 < m <= |Encode(original)| ensures !Fits(id, d[name := Truncate(original, m)], size, limits) {
          if Fits(id, d[name := Truncate(original, m)], size, limits) {
            ShorterFits(id, d, name, original, middle, m, size, limits);
          }
        }
        high := middle - 1;
      }
    }
    assert Fits(id, d[name := Truncate(original, 0)], size, limits);
    budget := low - 1;
    forall m: nat | m <= |Encode(original)| && Fits(id, d[name := Truncate(original, m)], size, limits)
      ensures |EscapeAll(Truncate(original, m))| <= |EscapeAll(best)|
    {
      TruncateIsShortened(original, m);
      TruncateIsShortened(original, budget);
      PrintedSizeMonotone(Replaced(original), m, budget);
    }
  }

  lemma CutToNothing(t: Text)
    ensures Truncate(t, 0) == []
  {
    TruncateIsShortened(t, 0);
    if Replaced(t) != [] { assert Utf8Size(Replaced(t)) > 0; }
    assert MARKER[..0] == [];
  }

  // ---------- the whole function ----------

  /** The first `k` fields of the removal order emptied. */
  function Emptied(d: Descriptor, k: nat): (e: Descriptor)
    requires k <= |ORDER|
    ensures e.Keys == d.Keys
  {
    map name | name in d :: if name in ORDER[..k] then [] else d[name]
  }

  function Bounded(d: Descriptor, limits: Limits): (e: Descriptor)
    ensures e.Keys == d.Keys
  {
    map name | name in d :: Truncate(d[name], limits.maxMetadata)
  }

  /** Everything before field `k` is given up because nothing less fits, and of field `k` as much as possible is kept. */
  ghost predicate BestFrom(id: Text, b: Descriptor, k: nat, budget: nat, r: Descriptor, size: nat, limits: Limits) {
    && k < |ORDER| && ORDER[k] in b
    && NothingFitsUpTo(id, b, k, size, limits)
    && Fits(id, Emptied(b, k + 1), size, limits)
    && LargestBudget(id, Emptied(b, k + 1), ORDER[k], b[ORDER[k]], size, limits, budget)
    && r == Emptied(b, k + 1)[ORDER[k] := Truncate(b[ORDER[k]], budget)]
  }

  ghost predicate NothingFitsUpTo(id: Text, b: Descriptor, k: nat, size: nat, limits: Limits) {
    k <= |ORDER| && forall j :: 0 <= j < k && ORDER[j] in b ==> !Fits(id, Emptied(b, j + 1), size, limits)
  }

  /** What is returned for the bounded fields `b`: all of them, the best of them, or nothing. */
  ghost predicate Outcome(id: Text, b: Descriptor, r: Descriptor, size: nat, limits: Limits) {
    if Fits(id, b, size, limits) then r == b
    else
      || (exists k: nat, budget: nat :: BestFrom(id, b, k, budget, r, size, limits))
      || (r == map[] && NothingFitsUpTo(id, b, |ORDER|, size, limits))
  }

  /** `_fit_terminal_descriptor`: the best descriptor there is, and one that fits whenever any does. */
  method FitTerminalDescriptor(id: Text, descriptor: Descriptor, size: nat, limits: Limits) returns (r: Descriptor)
    ensures Outcome(id, Bounded(descriptor, limits), r, size, limits)
    ensures Fits(id, r, size, limits) <==> Fits(id, map[], size, limits)
  {
    hide Fits, Truncate, LargestBudget, Emptied, Within;
    var bounded := Bounded(descriptor, limits);
    ghost var b := bounded;
    BoundedWithin(descriptor, limits);
    if Fits(id, bounded, size, limits) {
      EmptyFitsFirst(id, bounded, size, limits);
      return bounded;
    }
    EmptiedNone(b);
    for k := 0 to |ORDER|
      invariant bounded == Emptied(b, k)
      invariant NothingFitsUpTo(id, b, k, size, limits)
    {
      var name := ORDER[k];
      EmptyNext(b, k);
      if name in bounded {
        var original := bounded[name];
        bounded := bounded[name := []];
        if Fits(id, bounded, size, limits) {
          EmptiedWithin(b, k, limits);
          var best, budget := LargestFit(id, bounded, name, original, size, limits);
          BudgetFits(id, bounded, name, original, size, limits, budget);
          assert BestFrom(id, b, k, budget, bounded[name := best], size, limits);
          bounded := bounded[name := best];
          EmptyFitsFirst(id, bounded, size, limits);
          return bounded;
        }
      }
    }
    return map[];
  }

  lemma EmptiedNone(b: Descriptor)
    ensures Emptied(b, 0) == b
  {
  }

  lemma BudgetFits(id: Text, d: Descriptor, name: Name, text: Text, size: nat, limits: Limits, budget: nat)
    requires LargestBudget(id, d, name, text, size, limits, budget)
    ensures Fits(id, d[name := Truncate(text, budget)], size, limits)
  {
    hide Fits, Truncate, Encode;
  }

  lemma EmptyNext(b: Descriptor, k: nat)
    requires k < |ORDER|
    ensures ORDER[k] in b ==> Emptied(b, k + 1) == Emptied(b, k)[ORDER[k] := []] && Emptied(b, k)[ORDER[k]] == b[ORDER[k]]
    ensures ORDER[k] !in b ==> Emptied(b, k + 1) == Emptied(b, k)
  {
    assert ORDER[..k + 1] == ORDER[..k] + [ORDER[k]];
  }

  lemma BoundedWithin(d: Descriptor, limits: Limits)
    ensures Within(Bounded(d, limits), limits)
  {
    hide Truncate;
    forall name | name in d ensures Encodable(Truncate(d[name], limits.maxMetadata)) && Utf8Size(Truncate(d[name], limits.maxMetadata)) <= limits.maxMetadata {
      TruncateFits(d[name], limits.maxMetadata);
    }
  }

  lemma EmptiedWithin(b: Descriptor, k: nat, limits: Limits)
    requires k < |ORDER| && ORDER[k] in b && Within(b, limits)
    ensures Within(Emptied(b, k + 1)[ORDER[k] := b[ORDER[k]]], limits)
  {
  }

  /** The descriptor that comes back fits whenever any descriptor at all can: none is easier to fit than the empty one. */
  lemma EmptyFitsFirst(id: Text, d: Descriptor, size: nat, limits: Limits)
    requires Fits(id, d, size, limits)
    ensures Fits(id, map[], size, limits)
  {
    hide Fits;
    FitsMonotone(id, map[], d, size, limits);
  }

  /** Diagnostic worth: what is given up later. */
  function Worth(name: Name): nat {
    match name
    case Traceback => 0
    case SerializationError => 1
    case Detail => 2
    case Type => 3
    case Module => 4
  }

  /** A field is shortened only when every field of less worth is empty. */
  lemma LessWorthFirst(id: Text, b: Descriptor, r: Descriptor, size: nat, limits: Limits, kept: Name, shortened: Name)
    requires Outcome(id, b, r, size, limits) && kept in r && shortened in r
    requires r[shortened] != b[shortened] && Worth(kept) < Worth(shortened)
    ensures r.Keys == b.Keys && r[kept] == []
  {
    hide Fits, Truncate, LargestBudget, NothingFitsUpTo, Emptied;
    var k: nat, budget: nat :| BestFrom(id, b, k, budget, r, size, limits);
    EmptiedAt(b, k, kept);
    EmptiedAt(b, k, shortened);
    assert ORDER[k] == shortened ==> Worth(shortened) == k by { Worths(k); }
    assert ORDER[k] == kept ==> Worth(kept) == k by { Worths(k); }
  }

  lemma Worths(k: nat)
    requires k < |ORDER|
    ensures Worth(ORDER[k]) == k
  {
  }

  lemma EmptiedAt(b: Descriptor, k: nat, name: Name)
    requires k < |ORDER| && name in b
    ensures Emptied(b, k + 1)[name] == if Worth(name) <= k then [] else b[name]
  {
    assert ORDER[Worth(name)] == name;
    if Worth(name) <= k { assert ORDER[..k + 1][Worth(name)] == name; }
    if name in ORDER[..k + 1] {
      var j :| 0 <= j < k + 1 && ORDER[..k + 1][j] == name;
      assert ORDER[j] == name;
    }
  }
}
