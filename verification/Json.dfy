/**
 Control headers as JSON: the compact printer of deadpool/remote/_protocol.py, the scanner that
 bounds nesting before decoding, and the recursive validator behind it.
 */
module Json {

  /** A Unicode code point as Python strings hold them, lone surrogates included. */
  type Point = c: int | 0 <= c < 0x110000 witness 0

  type Text = seq<Point>

  const QUOTE: Point := 34
  const BACKSLASH: Point := 92
  const MAX_DEPTH := 12

  datatype Json =
    | Null
    | Boolean(b: bool)
    | Integer(i: int)
    | Float(digits: Text)
    | Str(s: Text)
    | Array(items: Items)
    | Object(fields: Fields)
  datatype Items = NoItems | Item(head: Json, tail: Items)
  datatype Fields = NoFields | Field(key: Text, value: Json, rest: Fields)

  // ---------- the compact ASCII printer ----------

  function Ascii(s: string): (t: Text)
    requires forall i :: 0 <= i < |s| ==> (s[i] as int) < 128
    ensures |t| == |s|
  {
    seq(|s|, i requires 0 <= i < |s| => s[i] as int)
  }

  function HexDigit(n: nat): Point
    requires n < 16
  {
    if n < 10 then 48 + n else 87 + n
  }

  /** `\uXXXX` */
  function Hex4(n: nat): (t: Text)
    requires n < 0x10000
    ensures |t| == 6
  {
    [BACKSLASH, 117, HexDigit(n / 4096), HexDigit(n / 256 % 16), HexDigit(n / 16 % 16), HexDigit(n % 16)]
  }

  /** One code point inside a JSON string with `ensure_ascii`. */
  function Escape(c: Point): Text {
    if c == QUOTE || c == BACKSLASH then [BACKSLASH, c]
    else if c == 10 then [BACKSLASH, 110]
    else if c == 13 then [BACKSLASH, 114]
    else if c == 9 then [BACKSLASH, 116]
    else if c == 12 then [BACKSLASH, 102]
    else if c == 8 then [BACKSLASH, 98]
    else if 32 <= c <= 126 then [c]
    else if c < 0x10000 then Hex4(c)
    else Hex4(0xd800 + (c - 0x10000) / 1024) + Hex4(0xdc00 + (c - 0x10000) % 1024)
  }

  function EscapeAll(s: Text): Text {
    if s == [] then [] else Escape(s[0]) + EscapeAll(s[1..])
  }

  function Quoted(s: Text): Text {
    [QUOTE] + EscapeAll(s) + [QUOTE]
  }

  function Digits(n: nat): Text {
    if n < 10 then [48 + n] else Digits(n / 10) + [48 + n % 10]
  }

  function Decimal(i: int): Text {
    if i < 0 then [45] + Digits(-i) else Digits(i)
  }

  function Print(j: Json): Text {
    match j
    case Null => Ascii("null")
    case Boolean(b) => if b then Ascii("true") else Ascii("false")
    case Integer(i) => Decimal(i)
    case Float(digits) => digits
    case Str(s) => Quoted(s)
    case Array(items) => [91] + PrintItems(items) + [93]
    case Object(fields) => [123] + PrintFields(fields) + [125]
  }

  function PrintItems(items: Items): Text {
    match items
    case NoItems => []
    case Item(head, NoItems) => Print(head)
    case Item(head, tail) => Print(head) + [44] + PrintItems(tail)
  }

  function PrintFields(fields: Fields): Text {
    match fields
    case NoFields => []
    case Field(key, value, rest) =>
      var one := Quoted(key) + [58] + Print(value);
      if rest.NoFields? then one else one + [44] + PrintFields(rest)
  }

  /** What the digits of a float may be made of. */
  predicate Numeric(t: Text) {
    forall i :: 0 <= i < |t| ==> 48 <= t[i] <= 57 || t[i] in {43, 45, 46, 69, 101}
  }

  ghost predicate Printable(j: Json) {
    match j
    case Float(digits) => Numeric(digits)
    case Array(items) => PrintableItems(items)
    case Object(fields) => PrintableFields(fields)
    case _ => true
  }

  ghost predicate PrintableItems(items: Items) {
    items.Item? ==> Printable(items.head) && PrintableItems(items.tail)
  }

  ghost predicate PrintableFields(fields: Fields) {
    fields.Field? ==> Printable(fields.value) && PrintableFields(fields.rest)
  }

  // ---------- the scanner ----------

  datatype Lex = Lex(depth: int, inString: bool, escaped: bool)

  const START := Lex(0, false, false)

  /** What one character does to depth, string and escape. */
  function Advance(s: Lex, c: Point): Lex {
    if s.inString then
      if s.escaped then s.(escaped := false)
      else if c == BACKSLASH then s.(escaped := true)
      else if c == QUOTE then s.(inString := false)
      else s
    else if c == QUOTE then s.(inString := true)
    else if c == 91 || c == 123 then s.(depth := s.depth + 1)
    else if c == 93 || c == 125 then s.(depth := s.depth - 1)
    else s
  }

  function Scan(s: Lex, text: Text): Lex
    decreases |text|
  {
    if text == [] then s else Scan(Advance(s, text[0]), text[1..])
  }

  function Max(a: int, b: int): int {
    if a < b then b else a
  }

  /** The greatest depth on the way. */
  function Peak(s: Lex, text: Text): int
    decreases |text|
  {
    if text == [] then s.depth else Max(s.depth, Peak(Advance(s, text[0]), text[1..]))
  }

  /** `_validate_json_nesting`: accept exactly the texts that never open more than MAX_DEPTH + 1 containers at once. */
  method ValidateNesting(text: Text) returns (ok: bool)
    ensures ok <==> Peak(START, text) <= MAX_DEPTH + 1
  {
    var depth, inString, escaped := 0, false, false;
    assert text[0..] == text;
    for i := 0 to |text|
      invariant depth <= MAX_DEPTH + 1
      invariant Peak(START, text) <= MAX_DEPTH + 1 <==> Peak(Lex(depth, inString, escaped), text[i..]) <= MAX_DEPTH + 1
    {
      var character := text[i];
      assert text[i..][1..] == text[i + 1..];
      if inString {
        if escaped {
          escaped := false;
        } else if character == BACKSLASH {
          escaped := true;
        } else if character == QUOTE {
          inString := false;
        }
      } else if character == QUOTE {
        inString := true;
      } else if character == 91 || character == 123 {
        depth := depth + 1;
        if depth > MAX_DEPTH + 1 {
          PeakAtLeast(Lex(depth, inString, escaped), text[i + 1..]);
          return false;
        }
      } else if character == 93 || character == 125 {
        depth := depth - 1;
      }
    }
    return true;
  }

  lemma PeakAtLeast(s: Lex, text: Text)
    ensures s.depth <= Peak(s, text)
  {
  }

  lemma {:induction false} ScanConcat(s: Lex, a: Text, b: Text)
    ensures Scan(s, a + b) == Scan(Scan(s, a), b)
    ensures Peak(s, a + b) == Max(Peak(s, a), Peak(Scan(s, a), b))
    decreases |a|
  {
    if a == [] {
      assert a + b == b;
      PeakAtLeast(s, b);
    } else {
      assert (a + b)[1..] == a[1..] + b;
      ScanConcat(Advance(s, a[0]), a[1..], b);
    }
  }

  // ---------- scanning what was printed ----------

  function Nesting(j: Json): nat {
    match j
    case Array(items) => 1 + NestingItems(items)
    case Object(fields) => 1 + NestingFields(fields)
    case _ => 0
  }

  function NestingItems(items: Items): nat {
    match items
    case NoItems => 0
    case Item(head, tail) => Max(Nesting(head), NestingItems(tail))
  }

  function NestingFields(fields: Fields): nat {
    match fields
    case NoFields => 0
    case Field(_, value, rest) => Max(Nesting(value), NestingFields(rest))
  }

  /** Outside a string at depth `d`. */
  function At(d: int): Lex {
    Lex(d, false, false)
  }

  function Inside(d: int): Lex {
    Lex(d, true, false)
  }

  /** Scanning `t` from `s` leads back to `s` without ever going `n` deeper than it. */
  ghost predicate Balanced(s: Lex, t: Text, n: nat) {
    Scan(s, t) == s && Peak(s, t) == s.depth + n
  }

  lemma {:induction false} Neutral(s: Lex, t: Text)
    requires forall i :: 0 <= i < |t| ==> Advance(s, t[i]) == s
    ensures Balanced(s, t, 0)
    decreases |t|
  {
    if t != [] { Neutral(s, t[1..]); }
  }

  lemma BalancedConcat(s: Lex, a: Text, m: nat, b: Text, n: nat)
    requires Balanced(s, a, m) && Balanced(s, b, n)
    ensures Balanced(s, a + b, Max(m, n))
  {
    ScanConcat(s, a, b);
  }

  lemma PairNeutral(d: int, c: Point)
    ensures Balanced(Inside(d), [BACKSLASH, c], 0)
  {
    assert [BACKSLASH, c][1..] == [c] && [c][1..] == [];
    assert Scan(Inside(d).(escaped := true), [c]) == Scan(Inside(d), []);
    assert Peak(Inside(d).(escaped := true), [c]) == Max(d, Peak(Inside(d), []));
  }

  lemma HexNeutral(d: int, n: nat)
    requires n < 0x10000
    ensures Balanced(Inside(d), Hex4(n), 0)
  {
    var t := Hex4(n);
    assert t == [BACKSLASH, 117] + t[2..];
    PairNeutral(d, 117);
    Neutral(Inside(d), t[2..]);
    BalancedConcat(Inside(d), [BACKSLASH, 117], 0, t[2..], 0);
  }

  lemma EscapeNeutral(d: int, c: Point)
    ensures Balanced(Inside(d), Escape(c), 0)
  {
    hide Hex4, Balanced;
    if c >= 0x10000 {
      HexNeutral(d, 0xd800 + (c - 0x10000) / 1024);
      HexNeutral(d, 0xdc00 + (c - 0x10000) % 1024);
      BalancedConcat(Inside(d), Hex4(0xd800 + (c - 0x10000) / 1024), 0, Hex4(0xdc00 + (c - 0x10000) % 1024), 0);
    } else {
      HexNeutral(d, c);
      Neutral(Inside(d), if c == QUOTE || c == BACKSLASH then [] else [c]);
      forall x: Point ensures Balanced(Inside(d), [BACKSLASH, x], 0) { PairNeutral(d, x); }
    }
  }

  lemma {:induction false} EscapedNeutral(d: int, s: Text)
    ensures Balanced(Inside(d), EscapeAll(s), 0)
    decreases |s|
  {
    if s == [] {
      Neutral(Inside(d), []);
    } else {
      EscapeNeutral(d, s[0]);
      EscapedNeutral(d, s[1..]);
      BalancedConcat(Inside(d), Escape(s[0]), 0, EscapeAll(s[1..]), 0);
    }
  }

  /** Whatever a string contains, scanning it printed leads out of it again. */
  lemma QuotedBalanced(d: int, s: Text)
    ensures Balanced(At(d), Quoted(s), 0)
  {
    var body := EscapeAll(s);
    EscapedNeutral(d, s);
    assert [QUOTE][1..] == [];
    ScanConcat(At(d), [QUOTE], body);
    ScanConcat(At(d), [QUOTE] + body, [QUOTE]);
  }

  lemma {:induction false} DigitsNumeric(n: nat)
    ensures Numeric(Digits(n))
  {
    if n >= 10 { DigitsNumeric(n / 10); }
  }

  lemma NumericBalanced(d: int, t: Text)
    requires Numeric(t)
    ensures Balanced(At(d), t, 0)
  {
    Neutral(At(d), t);
  }

  lemma DecimalBalanced(d: int, i: int)
    ensures Balanced(At(d), Decimal(i), 0)
  {
    DigitsNumeric(if i < 0 then -i else i);
    NumericBalanced(d, Decimal(i));
  }

  lemma Enclosed(d: int, open: Point, body: Text, close: Point, n: nat)
    requires open in {91, 123} && close in {93, 125} && Balanced(At(d + 1), body, n)
    ensures Balanced(At(d), [open] + body + [close], 1 + n)
  {
    assert [open][1..] == [] && [close][1..] == [];
    ScanConcat(At(d), [open], body);
    ScanConcat(At(d), [open] + body, [close]);
  }

  lemma Separated(d: int, a: Text, m: nat, c: Point, b: Text, n: nat)
    requires Balanced(At(d), a, m) && Balanced(At(d), b, n) && c in {44, 58}
    ensures Balanced(At(d), a + [c] + b, Max(m, n))
  {
    Neutral(At(d), [c]);
    BalancedConcat(At(d), a, m, [c], 0);
    BalancedConcat(At(d), a + [c], m, b, n);
  }

  /** Scanning a printed tree ends where it began, and its greatest depth is the container nesting of the tree. */
  lemma {:induction false} PrintedBalanced(d: int, j: Json)
    requires Printable(j)
    ensures Balanced(At(d), Print(j), Nesting(j))
    decreases j
  {
    match j
    case Null => Neutral(At(d), Print(j));
    case Boolean(_) => Neutral(At(d), Print(j));
    case Integer(i) => DecimalBalanced(d, i);
    case Float(digits) => NumericBalanced(d, digits);
    case Str(s) => QuotedBalanced(d, s);
    case Array(items) =>
      PrintedItemsBalanced(d + 1, items);
      Enclosed(d, 91, PrintItems(items), 93, NestingItems(items));
    case Object(fields) =>
      PrintedFieldsBalanced(d + 1, fields);
      Enclosed(d, 123, PrintFields(fields), 125, NestingFields(fields));
  }

  lemma {:induction false} PrintedItemsBalanced(d: int, items: Items)
    requires PrintableItems(items)
    ensures Balanced(At(d), PrintItems(items), NestingItems(items))
    decreases items
  {
    match items
    case NoItems =>
    case Item(head, tail) =>
      PrintedBalanced(d, head);
      PrintedItemsBalanced(d, tail);
      Separated(d, Print(head), Nesting(head), 44, PrintItems(tail), NestingItems(tail));
  }

  lemma {:induction false} PrintedFieldsBalanced(d: int, fields: Fields)
    requires PrintableFields(fields)
    ensures Balanced(At(d), PrintFields(fields), NestingFields(fields))
    decreases fields
  {
    match fields
    case NoFields =>
    case Field(key, value, rest) =>
      QuotedBalanced(d, key);
      PrintedBalanced(d, value);
      Separated(d, Quoted(key), 0, 58, Print(value), Nesting(value));
      PrintedFieldsBalanced(d, rest);
      Separated(d, Quoted(key) + [58] + Print(value), Nesting(value), 44, PrintFields(rest), NestingFields(rest));
  }

  // ---------- the validator ----------

  /** Bytes of a code point in UTF-8 (section 3 of RFC 3629). */
  function Width(c: Point): nat {
    if c < 0x80 then 1 else if c < 0x800 then 2 else if c < 0x10000 then 3 else 4
  }

  function Utf8Size(s: Text): nat {
    if s == [] then 0 else Width(s[0]) + Utf8Size(s[1..])
  }

  /** Without lone surrogates, which UTF-8 cannot encode. */
  predicate Encodable(s: Text) {
    forall i :: 0 <= i < |s| ==> !(0xd800 <= s[i] <= 0xdfff)
  }

  function Length(items: Items): nat {
    match items
    case NoItems => 0
    case Item(_, tail) => 1 + Length(tail)
  }

  function Keys(fields: Fields): nat {
    match fields
    case NoFields => 0
    case Field(_, _, rest) => 1 + Keys(rest)
  }

  /** `_validate_json`, for strings of at most `limit` bytes. */
  predicate Valid(j: Json, limit: nat, depth: nat) {
    depth <= MAX_DEPTH &&
    match j
    case Str(s) => Encodable(s) && Utf8Size(s) <= limit
    case Integer(i) => -0x8000000000000000 <= i < 0x8000000000000000
    case Array(items) => Length(items) <= 1024 && ValidItems(items, limit, depth + 1)
    case Object(fields) => Keys(fields) <= 128 && ValidFields(fields, limit, depth + 1)
    case _ => true
  }

  predicate ValidItems(items: Items, limit: nat, depth: nat) {
    items.Item? ==> Valid(items.head, limit, depth) && ValidItems(items.tail, limit, depth)
  }

  predicate ValidFields(fields: Fields, limit: nat, depth: nat) {
    fields.Field? ==>
      && depth <= MAX_DEPTH && Encodable(fields.key) && Utf8Size(fields.key) <= limit && Valid(fields.value, limit, depth)
      && ValidFields(fields.rest, limit, depth)
  }

  lemma {:induction false} ValidNesting(j: Json, limit: nat, depth: nat)
    requires Valid(j, limit, depth)
    ensures depth + Nesting(j) <= MAX_DEPTH + 1
    decreases j
  {
    match j
    case Array(items) => ValidNestingItems(items, limit, depth + 1);
    case Object(fields) => ValidNestingFields(fields, limit, depth + 1);
    case _ =>
  }

  lemma {:induction false} ValidNestingItems(items: Items, limit: nat, depth: nat)
    requires ValidItems(items, limit, depth) && depth <= MAX_DEPTH + 1
    ensures depth + NestingItems(items) <= MAX_DEPTH + 1
    decreases items
  {
    if items.Item? {
      ValidNesting(items.head, limit, depth);
      ValidNestingItems(items.tail, limit, depth);
    }
  }

  lemma {:induction false} ValidNestingFields(fields: Fields, limit: nat, depth: nat)
    requires ValidFields(fields, limit, depth) && depth <= MAX_DEPTH + 1
    ensures depth + NestingFields(fields) <= MAX_DEPTH + 1
    decreases fields
  {
    if fields.Field? {
      ValidNesting(fields.value, limit, depth);
      ValidNestingFields(fields.rest, limit, depth);
    }
  }

  /**
   The scanner agrees with the tree: it stops outside any string at depth zero, it accepts a printed tree exactly
   when at most MAX_DEPTH + 1 containers are nested, and so never refuses what the validator accepts.
   */
  lemma ScannerAgrees(j: Json, limit: nat)
    requires Printable(j)
    ensures Scan(START, Print(j)) == START
    ensures Peak(START, Print(j)) <= MAX_DEPTH + 1 <==> Nesting(j) <= MAX_DEPTH + 1
    ensures Valid(j, limit, 0) ==> Peak(START, Print(j)) <= MAX_DEPTH + 1
  {
    PrintedBalanced(0, j);
    if Valid(j, limit, 0) { ValidNesting(j, limit, 0); }
  }
}
