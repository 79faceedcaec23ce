/**
 A reader of compact JSON texts, written from the grammar of RFC 8259 and from nothing else: what the printer prints is
 read back as the value it was printed from. Objects with a repeated key are malformed, as in `_unique_object`.
 */
module JsonReader {
  import opened Options
  import opened Json

  datatype Reading<T> = Got(value: T, rest: Text) | Malformed

  // ---------- strings (section 7) ----------

  function HexValue(c: Point): Option<nat> {
    if 48 <= c <= 57 then Some(c - 48)
    else if 97 <= c <= 102 then Some(c - 97 + 10)
    else if 65 <= c <= 70 then Some(c - 65 + 10)
    else None
  }

  /** The number after `\u`. */
  function ReadHex4(t: Text): Reading<nat>
    ensures ReadHex4(t).Got? ==> |ReadHex4(t).rest| < |t| && ReadHex4(t).value < 0x10000
  {
    if |t| < 4 then Malformed
    else
      match (HexValue(t[0]), HexValue(t[1]), HexValue(t[2]), HexValue(t[3]))
      case (Some(a), Some(b), Some(c), Some(d)) => Got(((a * 16 + b) * 16 + c) * 16 + d, t[4..])
      case _ => Malformed
  }

  /** What a backslash and one more character stand for. */
  function Unescaped(c: Point): Option<Point> {
    match c
    case 34 => Some(34)
    case 92 => Some(92)
    case 47 => Some(47)
    case 98 => Some(8)
    case 102 => Some(12)
    case 110 => Some(10)
    case 114 => Some(13)
    case 116 => Some(9)
    case _ => None
  }

  /** One character of a string; two `\u` escapes may be one character outside the basic plane. */
  function ReadChar(t: Text): Reading<Point>
    ensures ReadChar(t).Got? ==> |ReadChar(t).rest| < |t|
  {
    if t == [] || t[0] < 32 || t[0] == 34 then Malformed
    else if t[0] != 92 then Got(t[0], t[1..])
    else if |t| < 2 then Malformed
    else if t[1] != 117 then
      var c := Unescaped(t[1]);
      if c.Some? then Got(c.value, t[2..]) else Malformed
    else
      var high := ReadHex4(t[2..]);
      if high.Malformed? then Malformed
      else if !(0xd800 <= high.value < 0xdc00) || |high.rest| < 2 || high.rest[0] != 92 || high.rest[1] != 117 then high
      else
        var low := ReadHex4(high.rest[2..]);
        if low.Malformed? then Malformed
        else if !(0xdc00 <= low.value < 0xe000) then high
        else Got(0x10000 + (high.value - 0xd800) * 0x400 + (low.value - 0xdc00), low.rest)
  }

  /** The rest of a string, after its opening quote. */
  function ReadString(t: Text): Reading<Text>
    ensures ReadString(t).Got? ==> |ReadString(t).rest| < |t|
    decreases |t|
  {
    if t != [] && t[0] == 34 then Got([], t[1..])
    else
      var c := ReadChar(t);
      if c.Malformed? then Malformed
      else
        var s := ReadString(c.rest);
        if s.Malformed? then Malformed else Got([c.value] + s.value, s.rest)
  }

  // ---------- numbers (section 6) ----------

  predicate Digit(c: Point) {
    48 <= c <= 57
  }

  /** Characters a number may go on with. */
  predicate InNumber(c: Point) {
    Digit(c) || c == 45 || c == 43 || c == 46 || c == 101 || c == 69
  }

  function Span(t: Text): (n: nat)
    ensures n <= |t|
  {
    if t != [] && InNumber(t[0]) then 1 + Span(t[1..]) else 0
  }

  predicate AllDigits(t: Text) {
    t != [] && forall i :: 0 <= i < |t| ==> Digit(t[i])
  }

  /** Digits without a leading zero. */
  predicate Natural(t: Text) {
    AllDigits(t) && (t[0] == 48 ==> |t| == 1)
  }

  function Value(t: Text): nat
    requires forall i :: 0 <= i < |t| ==> Digit(t[i])
  {
    if t == [] then 0
    else
      assert Digit(t[|t| - 1]);
      var last: int := t[|t| - 1];
      10 * Value(t[..|t| - 1]) + (last - 48)
  }

  predicate Whole(t: Text) {
    Natural(t) || (t != [] && t[0] == 45 && Natural(t[1..]))
  }

  predicate Fraction(t: Text) {
    t != [] && t[0] == 46 && AllDigits(t[1..])
  }

  predicate Exponent(t: Text) {
    && |t| >= 2 && (t[0] == 101 || t[0] == 69)
    && (AllDigits(t[1..]) || ((t[1] == 43 || t[1] == 45) && AllDigits(t[2..])))
  }

  /** A whole part with a fraction, an exponent or both. */
  ghost predicate Fractional(t: Text) {
    exists m, n :: 0 <= m <= n <= |t| && m < |t| && SplitsAt(t, m, n)
  }

  ghost predicate SplitsAt(t: Text, m: nat, n: nat)
    requires m <= n <= |t|
  {
    Whole(t[..m]) && (m == n || Fraction(t[m..n])) && (n == |t| || Exponent(t[n..]))
  }

  ghost function ReadNumber(t: Text): Reading<Json> {
    var token, rest := t[..Span(t)], t[Span(t)..];
    if Natural(token) then Got(Integer(Value(token)), rest)
    else if Whole(token) then Got(Integer(0 - Value(token[1..])), rest)
    else if Fractional(token) then Got(Float(token), rest)
    else Malformed
  }

  // ---------- values (sections 3 to 5) ----------

  predicate StartsWith(t: Text, word: Text) {
    |word| <= |t| && t[..|word|] == word
  }

  function HasKey(fields: Fields, key: Text): bool {
    fields.Field? && (fields.key == key || HasKey(fields.rest, key))
  }

  ghost function ReadValue(t: Text): (r: Reading<Json>)
    ensures r.Got? ==> |r.rest| < |t|
    decreases |t|, 1
  {
    if t == [] then Malformed
    else if t[0] == 34 then
      var s := ReadString(t[1..]);
      if s.Got? then Got(Str(s.value), s.rest) else Malformed
    else if t[0] == 91 then
      if |t| >= 2 && t[1] == 93 then Got(Array(NoItems), t[2..])
      else
        var items := ReadItems(t[1..]);
        if items.Got? then Got(Array(items.value), items.rest) else Malformed
    else if t[0] == 123 then
      if |t| >= 2 && t[1] == 125 then Got(Object(NoFields), t[2..])
      else
        var fields := ReadFields(t[1..]);
        if fields.Got? then Got(Object(fields.value), fields.rest) else Malformed
    else if StartsWith(t, Ascii("null")) then Got(Null, t[4..])
    else if StartsWith(t, Ascii("true")) then Got(Boolean(true), t[4..])
    else if StartsWith(t, Ascii("false")) then Got(Boolean(false), t[5..])
    else if Span(t) == 0 then Malformed
    else ReadNumber(t)
  }

  /** Values between commas, and the closing bracket. */
  ghost function ReadItems(t: Text): (r: Reading<Items>)
    ensures r.Got? ==> |r.rest| < |t|
    decreases |t|, 2
  {
    var head := ReadValue(t);
    if head.Malformed? || head.rest == [] then Malformed
    else if head.rest[0] == 93 then Got(Item(head.value, NoItems), head.rest[1..])
    else if head.rest[0] != 44 then Malformed
    else
      var tail := ReadItems(head.rest[1..]);
      if tail.Got? then Got(Item(head.value, tail.value), tail.rest) else Malformed
  }

  /** Members between commas, and the closing brace. */
  ghost function ReadFields(t: Text): (r: Reading<Fields>)
    ensures r.Got? ==> |r.rest| < |t|
    decreases |t|, 2
  {
    if t == [] || t[0] != 34 then Malformed
    else
      var key := ReadString(t[1..]);
      if key.Malformed? || key.rest == [] || key.rest[0] != 58 then Malformed
      else
        var value := ReadValue(key.rest[1..]);
        if value.Malformed? || value.rest == [] then Malformed
        else if value.rest[0] == 125 then Got(Field(key.value, value.value, NoFields), value.rest[1..])
        else if value.rest[0] != 44 then Malformed
        else
          var rest := ReadFields(value.rest[1..]);
          if rest.Malformed? || HasKey(rest.value, key.value) then Malformed
          else Got(Field(key.value, value.value, rest.value), rest.rest)
  }

  // ---------- a printed string is read back ----------

  lemma HexDigitReads(n: nat)
    requires n < 16
    ensures HexValue(HexDigit(n)) == Some(n)
  {
  }

  lemma HexParts(n: nat)
    requires n < 0x10000
    ensures n / 4096 < 16 && n == ((n / 4096 * 16 + n / 256 % 16) * 16 + n / 16 % 16) * 16 + n % 16
  {
    var k := n / 16;
    var l := k / 16;
    assert n == k * 16 + n % 16 && k == l * 16 + k % 16 && l == l / 16 * 16 + l % 16;
    assert l == n / 256 && l / 16 == n / 4096;
  }

  lemma Hex4Reads(n: nat, rest: Text)
    requires n < 0x10000
    ensures ReadHex4(Hex4(n)[2..] + rest) == Got(n, rest)
  {
    var a, b, c, d := n / 4096, n / 256 % 16, n / 16 % 16, n % 16;
    hide HexValue, HexDigit;
    HexParts(n);
    HexDigitReads(a);
    HexDigitReads(b);
    HexDigitReads(c);
    HexDigitReads(d);
    var t := Hex4(n)[2..] + rest;
    assert t[0] == HexDigit(a) && t[1] == HexDigit(b) && t[2] == HexDigit(c) && t[3] == HexDigit(d);
    assert t[4..] == rest;
  }

  lemma UnicodeReads(n: nat, rest: Text)
    requires n < 0x10000 && !(0xd800 <= n < 0xdc00)
    ensures ReadChar(Hex4(n) + rest) == Got(n, rest)
  {
    Hex4Reads(n, rest);
    assert (Hex4(n) + rest)[2..] == Hex4(n)[2..] + rest;
  }

  lemma PairReads(c: Point, rest: Text)
    requires c >= 0x10000
    ensures ReadChar(Escape(c) + rest) == Got(c, rest)
  {
    hide ReadHex4, HexDigit, ReadChar;
    var k: int := c - 0x10000;
    var high, low := 0xd800 + k / 1024, 0xdc00 + k % 1024;
    assert k == k / 1024 * 1024 + k % 1024 && k / 1024 < 1024;
    var t, after := Hex4(high) + Hex4(low) + rest, Hex4(low) + rest;
    assert Escape(c) + rest == t;
    Hex4Reads(high, after);
    Hex4Reads(low, rest);
    assert t[2..] == Hex4(high)[2..] + after;
    assert after[2..] == Hex4(low)[2..] + rest;
    SurrogatesRead(t, high, low, after, rest);
  }

  lemma SurrogatesRead(t: Text, high: nat, low: nat, after: Text, rest: Text)
    requires |t| >= 2 && t[0] == 92 && t[1] == 117 && ReadHex4(t[2..]) == Got(high, after) && 0xd800 <= high < 0xdc00
    requires |after| >= 2 && after[0] == 92 && after[1] == 117 && ReadHex4(after[2..]) == Got(low, rest) && 0xdc00 <= low < 0xe000
    ensures ReadChar(t) == Got(0x10000 + (high - 0xd800) * 1024 + (low - 0xdc00), rest)
  {
    hide ReadHex4, Unescaped;
  }

  lemma EscapeReads(c: Point, rest: Text)
    requires !(0xd800 <= c <= 0xdfff)
    ensures ReadChar(Escape(c) + rest) == Got(c, rest)
    ensures Escape(c) != [] && Escape(c)[0] != QUOTE
  {
    hide ReadHex4;
    if c >= 0x10000 {
      PairReads(c, rest);
    } else if 32 <= c <= 126 || c in {8, 9, 10, 12, 13} {
      var t := Escape(c) + rest;
      assert t[|Escape(c)|..] == rest;
    } else {
      UnicodeReads(c, rest);
    }
  }

  /** A string, whatever it contains, is read back from its printed form. */
  lemma {:induction false} StringReads(s: Text, rest: Text)
    requires Encodable(s)
    ensures ReadString(EscapeAll(s) + [QUOTE] + rest) == Got(s, rest)
    decreases |s|
  {
    hide ReadChar, Escape;
    if s == [] {
      assert (EscapeAll(s) + [QUOTE] + rest)[1..] == rest;
    } else {
      var tail := EscapeAll(s[1..]) + [QUOTE] + rest;
      assert EscapeAll(s) + [QUOTE] + rest == Escape(s[0]) + tail;
      EscapeReads(s[0], tail);
      StringReads(s[1..], rest);
      var t := Escape(s[0]) + tail;
      assert t[0] == Escape(s[0])[0] != 34;
      assert ReadString(t) == Got([s[0]] + s[1..], rest);
      assert [s[0]] + s[1..] == s;
    }
  }

  /** Only characters that print. */
  ghost predicate Plain(t: Text) {
    forall i :: 0 <= i < |t| ==> 32 <= t[i] <= 126
  }

  lemma EscapePlain(c: Point)
    ensures Plain(Escape(c))
  {
  }

  lemma {:induction false} EscapedPlain(s: Text)
    ensures Plain(EscapeAll(s))
    decreases |s|
  {
    if s != [] {
      EscapePlain(s[0]);
      EscapedPlain(s[1..]);
    }
  }

  // ---------- a printed number is read back ----------

  lemma {:induction false} DigitsRead(n: nat)
    ensures Natural(Digits(n)) && Value(Digits(n)) == n
    ensures Digits(n)[0] == 48 ==> n == 0
  {
    if n >= 10 {
      DigitsRead(n / 10);
      assert Digits(n)[..|Digits(n)| - 1] == Digits(n / 10);
    } else {
      assert [48 + n][..0] == [];
    }
  }

  lemma {:induction false} SpanIs(t: Text, rest: Text)
    requires (forall i :: 0 <= i < |t| ==> InNumber(t[i])) && (rest == [] || !InNumber(rest[0]))
    ensures Span(t + rest) == |t|
    decreases |t|
  {
    if t == [] {
      assert t + rest == rest;
    } else {
      assert (t + rest)[1..] == t[1..] + rest;
      SpanIs(t[1..], rest);
    }
  }

  lemma DecimalReads(i: int, rest: Text)
    requires rest == [] || !InNumber(rest[0])
    ensures ReadNumber(Decimal(i) + rest) == Got(Integer(i), rest) && Span(Decimal(i) + rest) > 0
  {
    var t := Decimal(i);
    DigitsRead(if i < 0 then -i else i);
    SpanIs(t, rest);
    assert (t + rest)[..|t|] == t && (t + rest)[|t|..] == rest;
    if i < 0 { assert t[1..] == Digits(-i); }
  }

  lemma WholeChars(t: Text)
    requires Whole(t)
    ensures t != [] && (Digit(t[0]) || t[0] == 45) && forall i :: 0 <= i < |t| ==> InNumber(t[i]) && t[i] !in {43, 46, 69, 101}
  {
    if !Natural(t) { assert forall i :: 1 <= i < |t| ==> t[i] == t[1..][i - 1]; }
  }

  lemma FractionChars(t: Text)
    requires Fraction(t)
    ensures forall i :: 0 <= i < |t| ==> InNumber(t[i])
  {
    assert forall i :: 1 <= i < |t| ==> t[i] == t[1..][i - 1];
  }

  lemma ExponentChars(t: Text)
    requires Exponent(t)
    ensures forall i :: 0 <= i < |t| ==> InNumber(t[i])
  {
    if AllDigits(t[1..]) {
      assert forall i :: 1 <= i < |t| ==> t[i] == t[1..][i - 1];
    } else {
      assert forall i :: 2 <= i < |t| ==> t[i] == t[2..][i - 2];
    }
  }

  /** A float begins as a whole number does, and is none. */
  lemma FractionalChars(t: Text)
    requires Fractional(t)
    ensures t != [] && !Whole(t) && (Digit(t[0]) || t[0] == 45) && forall i :: 0 <= i < |t| ==> InNumber(t[i])
  {
    hide Whole, Fraction, Exponent, InNumber;
    var m, n :| 0 <= m <= n <= |t| && m < |t| && SplitsAt(t, m, n);
    WholeChars(t[..m]);
    if m < n { FractionChars(t[m..n]); }
    if n < |t| { ExponentChars(t[n..]); }
    assert forall i :: 0 <= i < m ==> t[i] == t[..m][i];
    assert forall i :: m <= i < n ==> t[i] == t[m..n][i - m];
    assert forall i :: n <= i < |t| ==> t[i] == t[n..][i - n];
    assert t[m] in {46, 69, 101} by { MarkChar(t, m, n); }
    if Whole(t) { WholeChars(t); }
  }

  lemma MarkChar(t: Text, m: nat, n: nat)
    requires m <= n <= |t| && m < |t| && SplitsAt(t, m, n)
    ensures t[m] in {46, 69, 101}
  {
    if m < n { assert t[m..n][0] == t[m]; } else { assert t[n..][0] == t[m]; }
  }

  lemma FloatReads(t: Text, rest: Text)
    requires Fractional(t) && (rest == [] || !InNumber(rest[0]))
    ensures ReadNumber(t + rest) == Got(Float(t), rest) && Span(t + rest) > 0
  {
    hide Whole, Natural, Fractional, InNumber;
    FractionalChars(t);
    SpanIs(t, rest);
    assert (t + rest)[..|t|] == t && (t + rest)[|t|..] == rest;
    NaturalIsWhole(t);
  }

  lemma NaturalIsWhole(t: Text)
    ensures Natural(t) ==> Whole(t)
  {
  }

  // ---------- a printed value is read back ----------

  /** What a decoded control can be: text that UTF-8 can encode, proper floats, and no key twice. */
  ghost predicate Readable(j: Json) {
    match j
    case Float(digits) => Fractional(digits)
    case Str(s) => Encodable(s)
    case Array(items) => ReadableItems(items)
    case Object(fields) => ReadableFields(fields)
    case _ => true
  }

  ghost predicate ReadableItems(items: Items) {
    items.Item? ==> Readable(items.head) && ReadableItems(items.tail)
  }

  ghost predicate ReadableFields(fields: Fields) {
    fields.Field? ==>
      Encodable(fields.key) && Readable(fields.value) && !HasKey(fields.rest, fields.key) && ReadableFields(fields.rest)
  }

  /** Not a character that would go on with a number. */
  predicate Ends(rest: Text) {
    rest == [] || !InNumber(rest[0])
  }

  lemma LiteralReads(j: Json, rest: Text)
    requires j.Null? || j.Boolean?
    ensures ReadValue(Print(j) + rest) == Got(j, rest)
  {
    var t := Print(j) + rest;
    assert t[..|Print(j)|] == Print(j) && t[|Print(j)|..] == rest;
    assert t[0] == Print(j)[0];
    assert j == Boolean(true) ==> t[..4][0] == 116;
    assert j == Boolean(false) ==> |t| >= 5 && t[..4][0] == 102;
  }

  lemma QuotedReads(s: Text, rest: Text)
    requires Encodable(s)
    ensures Quoted(s) + rest != [] && (Quoted(s) + rest)[0] == 34
    ensures ReadString((Quoted(s) + rest)[1..]) == Got(s, rest)
  {
    StringReads(s, rest);
    assert (Quoted(s) + rest)[1..] == EscapeAll(s) + [QUOTE] + rest;
  }

  lemma SameStart(t: Text, word: Text)
    ensures StartsWith(t, word) && word != [] ==> t != [] && t[0] == word[0]
  {
    assert StartsWith(t, word) && word != [] ==> t[..|word|][0] == t[0];
  }

  /** A number begins with a digit or a sign, and with nothing that begins another value. */
  lemma NumberReads(j: Json, rest: Text)
    requires (j.Integer? || j.Float?) && Readable(j) && Ends(rest)
    ensures ReadValue(Print(j) + rest) == Got(j, rest)
  {
    hide ReadNumber, ReadItems, ReadFields, StartsWith, ReadString, Fractional, Digits;
    var t := Print(j) + rest;
    NumberStart(j);
    if j.Integer? { DecimalReads(j.i, rest); } else { FloatReads(j.digits, rest); }
    assert t[0] == Print(j)[0];
    SameStart(t, Ascii("null"));
    SameStart(t, Ascii("true"));
    SameStart(t, Ascii("false"));
  }

  lemma NumberStart(j: Json)
    requires (j.Integer? || j.Float?) && Readable(j)
    ensures Print(j) != [] && (Digit(Print(j)[0]) || Print(j)[0] == 45)
  {
    if j.Integer? { DigitsRead(if j.i < 0 then -j.i else j.i); } else { FractionalChars(j.digits); }
  }

  /** Whatever is printed is read back: the text stands for this value and no other. */
  lemma {:induction false} PrintedReads(j: Json, rest: Text)
    requires Readable(j) && Ends(rest)
    ensures ReadValue(Print(j) + rest) == Got(j, rest)
    decreases j
  {
    match j
    case Null => LiteralReads(j, rest);
    case Boolean(_) => LiteralReads(j, rest);
    case Integer(_) => NumberReads(j, rest);
    case Float(_) => NumberReads(j, rest);
    case Str(s) =>
      hide ReadItems, ReadFields, ReadNumber, StartsWith;
      QuotedReads(s, rest);
    case Array(items) =>
      hide ReadValue;
      if items.Item? { PrintedItemsRead(items, rest); }
      ArrayReads(items, rest);
    case Object(fields) =>
      hide ReadValue;
      if fields.Field? { PrintedFieldsRead(fields, rest); }
      ObjectReads(fields, rest);
  }

  lemma ArrayReads(items: Items, rest: Text)
    requires ReadableItems(items) && (items.Item? ==> ReadItems(PrintItems(items) + [93] + rest) == Got(items, rest))
    ensures ReadValue(Print(Array(items)) + rest) == Got(Array(items), rest)
  {
    hide ReadItems, ReadFields, ReadNumber, StartsWith, ReadString;
    var t := Print(Array(items)) + rest;
    if items == NoItems {
      assert t[1] == 93 && t[2..] == rest;
    } else {
      ItemsStart(items);
      assert t[1..] == PrintItems(items) + [93] + rest;
      assert t[1] == PrintItems(items)[0];
    }
  }

  lemma ItemsStart(items: Items)
    requires items.Item? && ReadableItems(items)
    ensures PrintItems(items) != [] && PrintItems(items)[0] != 93
  {
    PrintStart(items.head);
    assert PrintItems(items)[0] == Print(items.head)[0];
  }

  lemma ObjectReads(fields: Fields, rest: Text)
    requires fields.Field? ==> ReadFields(PrintFields(fields) + [125] + rest) == Got(fields, rest)
    ensures ReadValue(Print(Object(fields)) + rest) == Got(Object(fields), rest)
  {
    hide ReadValue, ReadFields;
    var t := Print(Object(fields)) + rest;
    if fields == NoFields {
      assert t[1] == 125 && t[2..] == rest;
    } else {
      FieldsStart(fields);
      assert t[1..] == PrintFields(fields) + [125] + rest;
      assert t[1] == PrintFields(fields)[0];
    }
    BraceReads(t, fields, rest);
  }

  lemma BraceReads(t: Text, fields: Fields, rest: Text)
    requires |t| >= 2 && t[0] == 123
    requires if fields == NoFields then t[1] == 125 && t[2..] == rest else t[1] != 125 && ReadFields(t[1..]) == Got(fields, rest)
    ensures ReadValue(t) == Got(Object(fields), rest)
  {
    hide ReadItems, ReadFields, ReadNumber, StartsWith, ReadString, Span;
  }

  lemma FieldsStart(fields: Fields)
    requires fields.Field?
    ensures PrintFields(fields) != [] && PrintFields(fields)[0] == 34
  {
    assert PrintFields(fields)[0] == Quoted(fields.key)[0];
  }

  /** No value begins with a closing bracket. */
  lemma PrintStart(j: Json)
    requires Readable(j)
    ensures Print(j) != [] && Print(j)[0] != 93
  {
    match j
    case Integer(i) => DigitsRead(if i < 0 then -i else i);
    case Float(digits) => FractionalChars(digits);
    case _ =>
  }

  lemma {:induction false} PrintedItemsRead(items: Items, rest: Text)
    requires items.Item? && ReadableItems(items)
    ensures ReadItems(PrintItems(items) + [93] + rest) == Got(items, rest)
    decreases items
  {
    hide ReadValue, Print;
    var t := PrintItems(items) + [93] + rest;
    if items.tail == NoItems {
      PrintedReads(items.head, [93] + rest);
      assert t == Print(items.head) + ([93] + rest);
      assert ([93] + rest)[1..] == rest;
    } else {
      var after := PrintItems(items.tail) + [93] + rest;
      PrintedReads(items.head, [44] + after);
      PrintedItemsRead(items.tail, rest);
      assert t == Print(items.head) + ([44] + after);
      assert ([44] + after)[1..] == after;
    }
  }

  lemma {:induction false} PrintedFieldsRead(fields: Fields, rest: Text)
    requires fields.Field? && ReadableFields(fields)
    ensures ReadFields(PrintFields(fields) + [125] + rest) == Got(fields, rest)
    decreases fields
  {
    hide ReadValue, ReadFields, Print, Quoted;
    var t := PrintFields(fields) + [125] + rest;
    var after := if fields.rest == NoFields then [125] + rest else [44] + PrintFields(fields.rest) + [125] + rest;
    var value := Print(fields.value) + after;
    assert t == Quoted(fields.key) + ([58] + value);
    PrintedReads(fields.value, after);
    FieldReads(t, fields.key, fields.value, value, after);
    if fields.rest == NoFields {
      assert after[1..] == rest;
    } else {
      PrintedFieldsRead(fields.rest, rest);
      assert after[1..] == PrintFields(fields.rest) + [125] + rest;
    }
  }

  /** A printed key, a colon and a value, with what comes after them. */
  lemma FieldReads(t: Text, key: Text, j: Json, value: Text, after: Text)
    requires Encodable(key) && t == Quoted(key) + ([58] + value) && ReadValue(value) == Got(j, after) && after != []
    ensures after[0] == 125 ==> ReadFields(t) == Got(Field(key, j, NoFields), after[1..])
    ensures after[0] == 44 ==>
              var more := ReadFields(after[1..]);
              more.Got? && !HasKey(more.value, key) ==> ReadFields(t) == Got(Field(key, j, more.value), more.rest)
  {
    hide ReadValue, ReadString, Quoted, HasKey;
    QuotedReads(key, [58] + value);
    assert ([58] + value)[1..] == value;
  }

  /** Different values print differently. */
  lemma PrintInjective(j: Json, k: Json)
    requires Readable(j) && Readable(k) && Print(j) == Print(k)
    ensures j == k
  {
    PrintedReads(j, []);
    PrintedReads(k, []);
    assert Print(j) + [] == Print(j);
  }
}
