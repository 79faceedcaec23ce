/** Printed headers: the receiver reads what the sender wrote, and a descriptor that fits can be sent. */
module Headers {
  import opened Json
  import opened JsonReader
  import opened Utf8
  import opened Protocol
  import opened Descriptors

  // ---------- what the validator accepts, node by node ----------

  /** `x` is `j` itself or a key, item or value in it, `depth` containers down. */
  ghost predicate Occurs(j: Json, x: Json, depth: nat)
    decreases j
  {
    if depth == 0 then x == j
    else
      match j
      case Array(items) => OccursInItems(items, x, depth - 1)
      case Object(fields) => OccursInFields(fields, x, depth - 1)
      case _ => false
  }

  ghost predicate OccursInItems(items: Items, x: Json, depth: nat)
    decreases items
  {
    items.Item? && (Occurs(items.head, x, depth) || OccursInItems(items.tail, x, depth))
  }

  ghost predicate OccursInFields(fields: Fields, x: Json, depth: nat)
    decreases fields
  {
    fields.Field? && ((depth == 0 && x == Str(fields.key)) || Occurs(fields.value, x, depth) || OccursInFields(fields.rest, x, depth))
  }

  /** What is asked of one node. */
  ghost predicate Acceptable(x: Json, limit: nat) {
    match x
    case Str(s) => Encodable(s) && |Encode(s)| <= limit
    case Integer(i) => -0x8000000000000000 <= i <= 0x7fffffffffffffff
    case Array(items) => Length(items) <= 1024
    case Object(fields) => Keys(fields) <= 128
    case _ => true
  }

  ghost predicate AllAcceptable(j: Json, limit: nat, depth: nat) {
    forall x, d: nat :: Occurs(j, x, d) ==> depth + d <= 12 && Acceptable(x, limit)
  }

  ghost predicate ItemsAcceptable(items: Items, limit: nat, depth: nat) {
    forall x, d: nat :: OccursInItems(items, x, d) ==> depth + d <= 12 && Acceptable(x, limit)
  }

  ghost predicate FieldsAcceptable(fields: Fields, limit: nat, depth: nat) {
    forall x, d: nat :: OccursInFields(fields, x, d) ==> depth + d <= 12 && Acceptable(x, limit)
  }

  /** The validator accepts a value if and only if each node in it, keys included, is acceptable and at most twelve deep. */
  lemma {:induction false} ValidEverywhere(j: Json, limit: nat, depth: nat)
    ensures Valid(j, limit, depth) <==> AllAcceptable(j, limit, depth)
    decreases j
  {
    assert Occurs(j, j, 0);
    match j
    case Array(items) =>
      ItemsEverywhere(items, limit, depth + 1);
      ContainerEverywhere(j, limit, depth);
    case Object(fields) =>
      FieldsEverywhere(fields, limit, depth + 1);
      ContainerEverywhere(j, limit, depth);
    case Str(s) => EncodedSize(s);
    case _ =>
  }

  lemma ContainerEverywhere(j: Json, limit: nat, depth: nat)
    requires j.Array? || j.Object?
    ensures AllAcceptable(j, limit, depth) <==>
            && depth <= 12 && Acceptable(j, limit)
            && if j.Array? then ItemsAcceptable(j.items, limit, depth + 1) else FieldsAcceptable(j.fields, limit, depth + 1)
  {
    assert Occurs(j, j, 0);
    if AllAcceptable(j, limit, depth) {
      forall x, d: nat | j.Array? && OccursInItems(j.items, x, d) ensures depth + 1 + d <= 12 && Acceptable(x, limit) {
        assert Occurs(j, x, d + 1);
      }
      forall x, d: nat | j.Object? && OccursInFields(j.fields, x, d) ensures depth + 1 + d <= 12 && Acceptable(x, limit) {
        assert Occurs(j, x, d + 1);
      }
    } else {
      var x, d: nat :| Occurs(j, x, d) && !(depth + d <= 12 && Acceptable(x, limit));
      if d > 0 && j.Array? { assert OccursInItems(j.items, x, d - 1); }
      if d > 0 && j.Object? { assert OccursInFields(j.fields, x, d - 1); }
    }
  }

  lemma {:induction false} ItemsEverywhere(items: Items, limit: nat, depth: nat)
    ensures ValidItems(items, limit, depth) <==> ItemsAcceptable(items, limit, depth)
    decreases items
  {
    if items.Item? {
      ValidEverywhere(items.head, limit, depth);
      ItemsEverywhere(items.tail, limit, depth);
      if ItemsAcceptable(items, limit, depth) {
        forall x, d: nat | Occurs(items.head, x, d) ensures depth + d <= 12 && Acceptable(x, limit) { assert OccursInItems(items, x, d); }
        forall x, d: nat | OccursInItems(items.tail, x, d) ensures depth + d <= 12 && Acceptable(x, limit) { assert OccursInItems(items, x, d); }
      } else {
        var x, d: nat :| OccursInItems(items, x, d) && !(depth + d <= 12 && Acceptable(x, limit));
        assert Occurs(items.head, x, d) || OccursInItems(items.tail, x, d);
      }
    }
  }

  lemma {:induction false} FieldsEverywhere(fields: Fields, limit: nat, depth: nat)
    ensures ValidFields(fields, limit, depth) <==> FieldsAcceptable(fields, limit, depth)
    decreases fields
  {
    if fields.Field? {
      ValidEverywhere(fields.value, limit, depth);
      FieldsEverywhere(fields.rest, limit, depth);
      EncodedSize(fields.key);
      if FieldsAcceptable(fields, limit, depth) {
        assert OccursInFields(fields, Str(fields.key), 0);
        forall x, d: nat | Occurs(fields.value, x, d) ensures depth + d <= 12 && Acceptable(x, limit) { assert OccursInFields(fields, x, d); }
        forall x, d: nat | OccursInFields(fields.rest, x, d) ensures depth + d <= 12 && Acceptable(x, limit) { assert OccursInFields(fields, x, d); }
      } else {
        var x, d: nat :| OccursInFields(fields, x, d) && !(depth + d <= 12 && Acceptable(x, limit));
        assert (d == 0 && x == Str(fields.key)) || Occurs(fields.value, x, d) || OccursInFields(fields.rest, x, d);
      }
    }
  }

  // ---------- keys in order, and each once ----------

  /** Code points compared as `sort_keys` compares strings. */
  predicate Less(a: Text, b: Text)
    decreases |a|
  {
    b != [] && (a == [] || a[0] < b[0] || (a[0] == b[0] && Less(a[1..], b[1..])))
  }

  predicate Below(key: Text, fields: Fields) {
    fields.Field? ==> Less(key, fields.key) && Below(key, fields.rest)
  }

  /** Every key comes before all later ones. */
  predicate Ascending(fields: Fields) {
    fields.Field? ==> Below(fields.key, fields.rest) && Ascending(fields.rest)
  }

  lemma {:induction false} NotLess(a: Text)
    ensures !Less(a, a)
    decreases |a|
  {
    if a != [] { NotLess(a[1..]); }
  }

  lemma {:induction false} BelowOnce(key: Text, fields: Fields)
    requires Below(key, fields)
    ensures !HasKey(fields, key)
    decreases fields
  {
    if fields.Field? {
      NotLess(key);
      BelowOnce(key, fields.rest);
    }
  }

  /** Sorted keys are distinct, so what is readable in the values is readable in all. */
  lemma {:induction false} AscendingReadable(fields: Fields)
    requires Ascending(fields) && ValuesReadable(fields)
    ensures ReadableFields(fields)
    decreases fields
  {
    if fields.Field? {
      BelowOnce(fields.key, fields.rest);
      AscendingReadable(fields.rest);
    }
  }

  ghost predicate ValuesReadable(fields: Fields) {
    fields.Field? ==> Encodable(fields.key) && Readable(fields.value) && ValuesReadable(fields.rest)
  }

  lemma FirstDiffers(a: Text, b: Text)
    requires a != [] && b != [] && a[0] < b[0]
    ensures Less(a, b)
  {
  }

  lemma HeaderKeysLess()
    ensures Less(CONTROL, COUNT) && Less(CONTROL, DIGEST) && Less(CONTROL, INDEX) && Less(CONTROL, MESSAGE_ID) && Less(CONTROL, TOTAL)
    ensures Less(COUNT, DIGEST) && Less(COUNT, INDEX) && Less(COUNT, MESSAGE_ID) && Less(COUNT, TOTAL)
    ensures Less(DIGEST, INDEX) && Less(DIGEST, MESSAGE_ID) && Less(DIGEST, TOTAL)
    ensures Less(INDEX, MESSAGE_ID) && Less(INDEX, TOTAL) && Less(MESSAGE_ID, TOTAL)
  {
    assert CONTROL[0] == COUNT[0] == 99 && DIGEST[0] == 100 && INDEX[0] == 105 && MESSAGE_ID[0] == 109 && TOTAL[0] == 116;
    assert CONTROL[1] == COUNT[1] == 111 && CONTROL[2] == 110 && COUNT[2] == 117;
    assert Less(CONTROL[2..], COUNT[2..]);
    assert CONTROL[1..][1..] == CONTROL[2..] && COUNT[1..][1..] == COUNT[2..];
    assert Less(CONTROL[1..], COUNT[1..]);
  }

  lemma HeaderAscending(id: Text, index: nat, count: nat, total: nat, digest: Text, control: Json)
    ensures Ascending(HeaderFields(id, index, count, total, digest, control))
  {
    hide Less;
    HeaderKeysLess();
    var f6 := Field(TOTAL, Integer(total), NoFields);
    var f5 := Field(MESSAGE_ID, Str(id), f6);
    var f4 := Field(INDEX, Integer(index), f5);
    var f3 := Field(DIGEST, Str(digest), f4);
    var f2 := Field(COUNT, Integer(count), f3);
    forall key | key in {CONTROL, COUNT, DIGEST, INDEX, MESSAGE_ID} ensures Below(key, f6) { assert Below(key, NoFields); }
    forall key | key in {CONTROL, COUNT, DIGEST, INDEX} ensures Below(key, f5) { }
    forall key | key in {CONTROL, COUNT, DIGEST} ensures Below(key, f4) { }
    forall key | key in {CONTROL, COUNT} ensures Below(key, f3) { }
    assert Ascending(f6);
    assert Ascending(f5);
    assert Ascending(f4);
    assert Ascending(f3);
    assert Ascending(f2) && Below(CONTROL, f2);
  }

  lemma WithBelow(key: Text, d: Descriptor, name: Name, rest: Fields)
    requires Less(key, Label(name)) && Below(key, rest)
    ensures Below(key, With(d, name, rest))
  {
    hide Less, Label;
  }

  lemma WithAscending(d: Descriptor, name: Name, rest: Fields)
    requires Below(Label(name), rest) && Ascending(rest)
    ensures Ascending(With(d, name, rest))
  {
    hide Less, Label;
  }

  lemma LabelsLess()
    ensures var r := Ascii("request_id");
            && Less(Label(Detail), Label(Module)) && Less(Label(Module), r) && Less(r, Label(SerializationError))
            && Less(Label(SerializationError), Label(Traceback)) && Less(Label(Traceback), Label(Type))
            && Less(Label(Detail), r) && Less(Label(Detail), Label(SerializationError)) && Less(Label(Detail), Label(Traceback))
            && Less(Label(Detail), Label(Type)) && Less(Label(Module), Label(SerializationError))
            && Less(Label(Module), Label(Traceback)) && Less(Label(Module), Label(Type))
            && Less(r, Label(Traceback)) && Less(r, Label(Type)) && Less(Label(SerializationError), Label(Type))
  {
    var detail, module_, r, serial, trace, type_ :=
      Label(Detail), Label(Module), Ascii("request_id"), Label(SerializationError), Label(Traceback), Label(Type);
    assert detail[0] == 109 && module_[0] == 109 && r[0] == 114 && serial[0] == 115 && trace[0] == 116 && type_[0] == 116;
    assert detail[1..][0] == 101 && module_[1..][0] == 111 && trace[1..][0] == 114 && type_[1..][0] == 121;
  }

  /** The control of a terminal message lists its keys in order. */
  lemma ControlAscending(id: Text, d: Descriptor)
    ensures Ascending(ControlFields(id, d))
  {
    hide Less, Label, With;
    LabelsLess();
    var r := Ascii("request_id");
    var a := With(d, Type, NoFields);
    var b := With(d, Traceback, a);
    var c := With(d, SerializationError, b);
    var e := Field(r, Str(id), c);
    var f := With(d, Module, e);
    assert Below(Label(Type), NoFields) && Below(Label(Traceback), NoFields) && Below(Label(SerializationError), NoFields)
        && Below(r, NoFields) && Below(Label(Module), NoFields) && Below(Label(Detail), NoFields);
    WithAscending(d, Type, NoFields);
    WithBelow(Label(Traceback), d, Type, NoFields);
    WithBelow(Label(SerializationError), d, Type, NoFields);
    WithBelow(r, d, Type, NoFields);
    WithBelow(Label(Module), d, Type, NoFields);
    WithBelow(Label(Detail), d, Type, NoFields);
    WithAscending(d, Traceback, a);
    WithBelow(Label(SerializationError), d, Traceback, a);
    WithBelow(r, d, Traceback, a);
    WithBelow(Label(Module), d, Traceback, a);
    WithBelow(Label(Detail), d, Traceback, a);
    WithAscending(d, SerializationError, b);
    WithBelow(r, d, SerializationError, b);
    WithBelow(Label(Module), d, SerializationError, b);
    WithBelow(Label(Detail), d, SerializationError, b);
    assert Ascending(e) && Below(Label(Module), e) && Below(Label(Detail), e);
    WithAscending(d, Module, e);
    WithBelow(Label(Detail), d, Module, e);
    WithAscending(d, Detail, f);
  }

  // ---------- the receiver reads what was sent ----------

  /** A printed header is read back field by field. */
  lemma HeaderReads(id: Text, index: nat, count: nat, total: nat, digest: Text, control: Json)
    requires Encodable(id) && Encodable(digest) && Readable(control)
    ensures var h := HeaderFields(id, index, count, total, digest, control);
            ReadValue(Print(Object(h))) == Got(Object(h), [])
  {
    hide Ascending, Print, ReadValue;
    var h := HeaderFields(id, index, count, total, digest, control);
    HeaderAscending(id, index, count, total, digest, control);
    HeaderValues(id, index, count, total, digest, control);
    AscendingReadable(h);
    PrintedReads(Object(h), []);
    assert Print(Object(h)) + [] == Print(Object(h));
  }

  lemma HeaderValues(id: Text, index: nat, count: nat, total: nat, digest: Text, control: Json)
    requires Encodable(id) && Encodable(digest) && Readable(control)
    ensures ValuesReadable(HeaderFields(id, index, count, total, digest, control))
  {
    hide Encodable;
    KeysEncodable();
    var f6 := Field(TOTAL, Integer(total), NoFields);
    var f5 := Field(MESSAGE_ID, Str(id), f6);
    var f4 := Field(INDEX, Integer(index), f5);
    var f3 := Field(DIGEST, Str(digest), f4);
    assert ValuesReadable(f6) && ValuesReadable(f5);
    assert ValuesReadable(f4) && ValuesReadable(f3);
  }

  lemma KeysEncodable()
    ensures Encodable(CONTROL) && Encodable(COUNT) && Encodable(DIGEST) && Encodable(INDEX) && Encodable(MESSAGE_ID) && Encodable(TOTAL)
  {
  }

  /** Each field of the descriptor is in the control under the name the client looks it up by, and nothing else is. */
  lemma ControlCarries(id: Text, d: Descriptor)
    ensures var c := ControlFields(id, d);
            && Get(c, Ascii("request_id")) == Str(id)
            && Get(c, Ascii("module")) == (if Module in d then Str(d[Module]) else Null)
            && Get(c, Ascii("type")) == (if Type in d then Str(d[Type]) else Null)
            && Get(c, Ascii("message")) == (if Detail in d then Str(d[Detail]) else Null)
            && Get(c, Ascii("serialization_error")) == (if SerializationError in d then Str(d[SerializationError]) else Null)
            && Get(c, Ascii("traceback")) == (if Traceback in d then Str(d[Traceback]) else Null)
    ensures forall key :: HasKey(ControlFields(id, d), key) ==>
              key in {Ascii("request_id"), Ascii("module"), Ascii("type"), Ascii("message"), Ascii("serialization_error"), Ascii("traceback")}
  {
    hide Get, HasKey, ControlFields;
    LookUp(id, d, Ascii("request_id"));
    LookUp(id, d, Ascii("module"));
    LookUp(id, d, Ascii("type"));
    LookUp(id, d, Ascii("message"));
    LookUp(id, d, Ascii("serialization_error"));
    LookUp(id, d, Ascii("traceback"));
    LabelLengths();
    forall key | HasKey(ControlFields(id, d), key)
      ensures key in {Ascii("request_id"), Ascii("module"), Ascii("type"), Ascii("message"), Ascii("serialization_error"), Ascii("traceback")}
    {
      OnlyLabels(id, d, key);
    }
  }

  function Looked(d: Descriptor, name: Name): Json {
    if name in d then Str(d[name]) else Null
  }

  lemma LabelLengths()
    ensures |Ascii("request_id")| == 10 && |Ascii("module")| == 6 && |Ascii("type")| == 4 && |Ascii("message")| == 7
    ensures |Ascii("serialization_error")| == 19 && |Ascii("traceback")| == 9
    ensures Label(Module) == Ascii("module") && Label(Type) == Ascii("type") && Label(Detail) == Ascii("message")
    ensures Label(SerializationError) == Ascii("serialization_error") && Label(Traceback) == Ascii("traceback")
  {
  }

  lemma WithGet(d: Descriptor, name: Name, rest: Fields, key: Text)
    ensures Get(With(d, name, rest), key) == if key == Label(name) && name in d then Str(d[name]) else Get(rest, key)
    ensures HasKey(With(d, name, rest), key) ==> key == Label(name) || HasKey(rest, key)
  {
    hide Label;
  }

  lemma LookUp(id: Text, d: Descriptor, key: Text)
    ensures Get(ControlFields(id, d), key) ==
              if key == Label(Detail) && Detail in d then Str(d[Detail])
              else if key == Label(Module) && Module in d then Str(d[Module])
              else if key == Ascii("request_id") then Str(id)
              else if key == Label(SerializationError) && SerializationError in d then Str(d[SerializationError])
              else if key == Label(Traceback) && Traceback in d then Str(d[Traceback])
              else if key == Label(Type) && Type in d then Str(d[Type]) else Null
  {
    hide With, Label;
    var a := With(d, Type, NoFields);
    var b := With(d, Traceback, a);
    var c := With(d, SerializationError, b);
    var e := Field(Ascii("request_id"), Str(id), c);
    var f := With(d, Module, e);
    WithGet(d, Type, NoFields, key);
    WithGet(d, Traceback, a, key);
    WithGet(d, SerializationError, b, key);
    WithGet(d, Module, e, key);
    WithGet(d, Detail, f, key);
  }

  lemma OnlyLabels(id: Text, d: Descriptor, key: Text)
    requires HasKey(ControlFields(id, d), key)
    ensures key in {Ascii("request_id"), Label(Module), Label(Type), Label(Detail), Label(SerializationError), Label(Traceback)}
  {
    hide With, Label;
    var a := With(d, Type, NoFields);
    var b := With(d, Traceback, a);
    var c := With(d, SerializationError, b);
    var e := Field(Ascii("request_id"), Str(id), c);
    var f := With(d, Module, e);
    WithGet(d, Type, NoFields, key);
    WithGet(d, Traceback, a, key);
    WithGet(d, SerializationError, b, key);
    WithGet(d, Module, e, key);
    WithGet(d, Detail, f, key);
  }

  /** `_json_dumps` raises unless every node is acceptable, none is too deep, and the text is within the control limit. */
  lemma EncodesExactlyWhen(header: Fields, limits: Limits)
    ensures Encodes(header, limits) <==>
              AllAcceptable(Object(header), limits.maxMetadata, 0) && !(|Print(Object(header))| > limits.maxControl)
  {
    hide Print, Valid, AllAcceptable;
    ValidEverywhere(Object(header), limits.maxMetadata, 0);
  }

  /** A lone surrogate in a descriptor is spelled out, and reads as the same code unit. */
  lemma SurrogateSpelled(c: Point, rest: Text)
    requires 0xd800 <= c <= 0xdfff
    ensures var t := Replaced([c] + rest);
            |t| >= 6 && t[0] == 92 && t[1] == 117 && ReadHex4(t[2..]) == Got(c, Replaced(rest))
  {
    hide Hex4, ReadHex4;
    Hex4Reads(c, Replaced(rest));
    assert ([c] + rest)[1..] == rest;
    assert Replaced([c] + rest)[2..] == Hex4(c)[2..] + Replaced(rest);
    SpelledOut(c);
  }

  lemma SpelledOut(n: nat)
    requires n < 0x10000
    ensures Hex4(n)[0] == 92 && Hex4(n)[1] == 117
  {
  }

  /** A field within the metadata limit is kept as it is; of a longer one as much as fits whole, and the marker. */
  lemma BoundedKeeps(d: Descriptor, limits: Limits, name: Name)
    requires name in d && Encodable(d[name])
    ensures var t, limit := d[name], limits.maxMetadata;
            && (Utf8Size(t) <= limit ==> Bounded(d, limits)[name] == t)
            && (Utf8Size(t) > limit > 14 ==>
                  exists k :: 0 <= k < |t| && Bounded(d, limits)[name] == t[..k] + Ascii("...[truncated]")
                              && Utf8Size(t[..k]) <= limit - 14 < Utf8Size(t[..k + 1]))
  {
    hide Truncate, Utf8Size, Encodable;
    ReplacedSame(d[name]);
    TruncateFits(d[name], limits.maxMetadata);
  }

  // ---------- what fits is sent ----------

  /** Characters of a message id or a digest. */
  predicate Hex(t: Text) {
    forall i :: 0 <= i < |t| ==> 48 <= t[i] <= 57 || 97 <= t[i] <= 102
  }

  lemma KeySizes()
    ensures |Quoted(CONTROL)| == 9 && |Quoted(COUNT)| == 7 && |Quoted(DIGEST)| == 8 && |Quoted(INDEX)| == 7
    ensures |Quoted(MESSAGE_ID)| == 12 && |Quoted(TOTAL)| == 7
  {
    hide EscapeAll;
    AsciiSize(CONTROL);
    AsciiSize(COUNT);
    AsciiSize(DIGEST);
    LaterKeySizes();
  }

  lemma LaterKeySizes()
    ensures |Quoted(INDEX)| == 7 && |Quoted(MESSAGE_ID)| == 12 && |Quoted(TOTAL)| == 7
  {
    hide EscapeAll;
    AsciiSize(INDEX);
    AsciiSize(MESSAGE_ID);
    AsciiSize(TOTAL);
  }

  /** How long a header prints. */
  lemma HeaderSize(id: Text, index: nat, count: nat, total: nat, digest: Text, control: Json)
    ensures |Print(Object(HeaderFields(id, index, count, total, digest, control)))| ==
              67 + |Print(control)| + |Decimal(count)| + |EscapeAll(digest)| + |Decimal(index)| + |EscapeAll(id)| + |Decimal(total)|
  {
    hide EscapeAll, Decimal;
    KeySizes();
    var f6 := Field(TOTAL, Integer(total), NoFields);
    var f5 := Field(MESSAGE_ID, Str(id), f6);
    var f4 := Field(INDEX, Integer(index), f5);
    var f3 := Field(DIGEST, Str(digest), f4);
    var f2 := Field(COUNT, Integer(count), f3);
    hide Quoted;
    assert |PrintFields(f6)| == 8 + |Decimal(total)|;
    assert |PrintFields(f5)| == 14 + |Quoted(id)| + |PrintFields(f6)|;
    assert |PrintFields(f4)| == 9 + |Decimal(index)| + |PrintFields(f5)|;
    assert |PrintFields(f3)| == 10 + |Quoted(digest)| + |PrintFields(f4)|;
    assert |PrintFields(f2)| == 9 + |Decimal(count)| + |PrintFields(f3)|;
    QuotedSize(id);
    QuotedSize(digest);
  }

  lemma QuotedSize(t: Text)
    ensures |Quoted(t)| == 2 + |EscapeAll(t)|
  {
  }

  lemma HexSize(t: Text)
    requires Hex(t)
    ensures |EscapeAll(t)| == |t| == Utf8Size(t) && Encodable(t)
  {
    hide EscapeAll, Utf8Size;
    AsciiSize(t);
  }

  lemma HeaderValid(id: Text, index: nat, count: nat, total: nat, digest: Text, control: Json, limit: nat)
    ensures Valid(Object(HeaderFields(id, index, count, total, digest, control)), limit, 0) <==>
            && KeysFit(limit) && Valid(control, limit, 1) && Valid(Integer(count), limit, 1) && Valid(Str(digest), limit, 1)
            && Valid(Integer(index), limit, 1) && Valid(Str(id), limit, 1) && Valid(Integer(total), limit, 1)
  {
    hide Valid;
    var f6 := Field(TOTAL, Integer(total), NoFields);
    var f5 := Field(MESSAGE_ID, Str(id), f6);
    var f4 := Field(INDEX, Integer(index), f5);
    var f3 := Field(DIGEST, Str(digest), f4);
    var f2 := Field(COUNT, Integer(count), f3);
    var f1 := Field(CONTROL, control, f2);
    assert ValidFields(f6, limit, 1) <==> KeyFits(TOTAL, limit) && Valid(Integer(total), limit, 1);
    assert ValidFields(f5, limit, 1) <==> KeyFits(MESSAGE_ID, limit) && Valid(Str(id), limit, 1) && ValidFields(f6, limit, 1);
    assert ValidFields(f4, limit, 1) <==> KeyFits(INDEX, limit) && Valid(Integer(index), limit, 1) && ValidFields(f5, limit, 1);
    assert ValidFields(f3, limit, 1) <==> KeyFits(DIGEST, limit) && Valid(Str(digest), limit, 1) && ValidFields(f4, limit, 1);
    assert ValidFields(f2, limit, 1) <==> KeyFits(COUNT, limit) && Valid(Integer(count), limit, 1) && ValidFields(f3, limit, 1);
    assert ValidFields(f1, limit, 1) <==> KeyFits(CONTROL, limit) && Valid(control, limit, 1) && ValidFields(f2, limit, 1);
    TopValid(f1, limit);
    assert Keys(f6) == 1 && Keys(f5) == 2 && Keys(f4) == 3 && Keys(f3) == 4 && Keys(f2) == 5 && Keys(f1) == 6;
  }

  lemma TopValid(fields: Fields, limit: nat)
    ensures Valid(Object(fields), limit, 0) <==> Keys(fields) <= 128 && ValidFields(fields, limit, 1)
  {
  }

  predicate KeyFits(key: Text, limit: nat) {
    Encodable(key) && Utf8Size(key) <= limit
  }

  predicate KeysFit(limit: nat) {
    && KeyFits(CONTROL, limit) && KeyFits(COUNT, limit) && KeyFits(DIGEST, limit) && KeyFits(INDEX, limit)
    && KeyFits(MESSAGE_ID, limit) && KeyFits(TOTAL, limit)
  }

  /** The placeholders are as good as any id and digest of their lengths: a descriptor fits if and only if its first frame can be sent. */
  lemma FitsIsFirstFrame(id: Text, d: Descriptor, size: nat, limits: Limits, messageId: Text, digest: Text)
    requires Hex(messageId) && |messageId| == 32 && Hex(digest) && |digest| == 64
    ensures Fits(id, d, size, limits) <==>
            && Sendable(size, limits)
            && Encodes(HeaderFields(messageId, 0, ChunkCount(size, limits), size, digest, Object(ControlFields(id, d))), limits)
  {
    hide Print, Valid, HeaderFields, ControlFields, EscapeAll, Utf8Size, Decimal, ChunkCount, Sendable, KeysFit;
    var control, count := Object(ControlFields(id, d)), ChunkCount(size, limits);
    HexSize(messageId);
    HexSize(digest);
    HexSize(Zeros(32));
    HexSize(Zeros(64));
    HeaderSize(messageId, 0, count, size, digest, control);
    HeaderSize(Zeros(32), 0, count, size, Zeros(64), control);
    HeaderValid(messageId, 0, count, size, digest, control, limits.maxMetadata);
    HeaderValid(Zeros(32), 0, count, size, Zeros(64), control, limits.maxMetadata);
    TextValid(messageId, Zeros(32), limits.maxMetadata);
    TextValid(digest, Zeros(64), limits.maxMetadata);
  }

  lemma TextValid(a: Text, b: Text, limit: nat)
    requires Encodable(a) && Encodable(b) && Utf8Size(a) == Utf8Size(b)
    ensures Valid(Str(a), limit, 1) <==> Valid(Str(b), limit, 1)
  {
    hide Utf8Size, Encodable;
  }

  lemma {:induction false} DigitsShorter(m: nat, n: nat)
    requires m <= n
    ensures |Digits(m)| <= |Digits(n)|
    decreases m
  {
    if m >= 10 { DigitsShorter(m / 10, n / 10); }
  }

  lemma FourteenDigits(n: nat)
    requires n < 100_000_000_000_000
    ensures |Decimal(n)| <= 14
  {
    DigitsShorter(n, 99_999_999_999_999);
    assert |Digits(99_999_999_999_999)| == 14;
  }

  /** A terminal control is never shorter than this. */
  lemma ControlSize(id: Text, d: Descriptor)
    ensures |Print(Object(ControlFields(id, d)))| >= 17
  {
    hide EscapeAll, With, Print;
    var c := With(d, SerializationError, With(d, Traceback, With(d, Type, NoFields)));
    var e := Field(Ascii("request_id"), Str(id), c);
    RequestIdSize(id, c);
    WithLonger(d, Module, e);
    WithLonger(d, Detail, With(d, Module, e));
    ObjectSize(ControlFields(id, d));
  }

  lemma ObjectSize(fields: Fields)
    ensures |Print(Object(fields))| == 2 + |PrintFields(fields)|
  {
  }

  lemma RequestIdSize(id: Text, rest: Fields)
    ensures |PrintFields(Field(Ascii("request_id"), Str(id), rest))| >= 15
  {
    AsciiSize(Ascii("request_id"));
    QuotedSize(Ascii("request_id"));
    QuotedSize(id);
    hide EscapeAll, Quoted;
    assert Print(Str(id)) == Quoted(id);
  }

  lemma WithLonger(d: Descriptor, name: Name, rest: Fields)
    ensures |PrintFields(With(d, name, rest))| >= |PrintFields(rest)|
  {
    hide EscapeAll, Label;
  }

  /** And then every frame can be: the message goes out whole. */
  lemma FittedIsSent(id: Text, d: Descriptor, m: Message, messageId: Text, digest: Text, limits: Limits, index: nat)
    requires Hex(messageId) && |messageId| == 32 && Hex(digest) && |digest| == 64
    requires Fits(id, d, |m.payload|, limits) && m.control == ControlFields(id, d) && limits.maxChunks <= 100_000_000_000_000
    requires index < |Split(m.payload, limits.maxFramePayload)|
    ensures Encodes(FrameOf(messageId, m, digest, limits, index).header, limits)
  {
    hide Print, Valid, HeaderFields, ControlFields, EscapeAll, Utf8Size, Decimal, ChunkCount, KeysFit, Split;
    var control, count, size := Object(m.control), ChunkCount(|m.payload|, limits), |m.payload|;
    SplitCount(m.payload, limits);
    FitsIsFirstFrame(id, d, size, limits, messageId, digest);
    if index > 0 {
      HeaderSize(messageId, 0, count, size, digest, control);
      HeaderSize(messageId, index, count, size, digest, Null);
      HeaderValid(messageId, 0, count, size, digest, control, limits.maxMetadata);
      HeaderValid(messageId, index, count, size, digest, Null, limits.maxMetadata);
      ControlSize(id, d);
      FourteenDigits(index);
      SmallSizes(index, count, limits.maxMetadata);
    }
  }

  lemma SmallSizes(index: nat, count: nat, limit: nat)
    requires index < count
    ensures |Decimal(0)| == 1 && |Print(Null)| == 4 && Valid(Null, limit, 1)
    ensures Valid(Integer(count), limit, 1) ==> Valid(Integer(index), limit, 1)
  {
  }
}
