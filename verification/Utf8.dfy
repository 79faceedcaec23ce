/** UTF-8 (section 3 of RFC 3629), and text cut to a number of encoded bytes. */
module Utf8 {
  import opened Options
  import opened ByteStrings
  import opened Json

  function EncodePoint(c: Point): (bs: Bytes)
    ensures |bs| == Width(c)
  {
    if c < 0x80 then [c]
    else if c < 0x800 then [0xc0 + c / 64, 0x80 + c % 64]
    else if c < 0x10000 then [0xe0 + c / 64 / 64, 0x80 + c / 64 % 64, 0x80 + c % 64]
    else [0xf0 + c / 64 / 64 / 64, 0x80 + c / 64 / 64 % 64, 0x80 + c / 64 % 64, 0x80 + c % 64]
  }

  function Encode(s: Text): Bytes {
    if s == [] then [] else EncodePoint(s[0]) + Encode(s[1..])
  }

  predicate Continues(bs: Bytes, n: nat) {
    n < |bs| && forall i :: 1 <= i <= n ==> 0x80 <= bs[i] < 0xc0
  }

  /** The six payload bits of a continuation byte. */
  function Low(bs: Bytes, i: nat): int
    requires i < |bs|
  {
    var b: int := bs[i];
    b - 0x80
  }

  function Lead(bs: Bytes, base: int): int
    requires bs != []
  {
    var b: int := bs[0];
    b - base
  }

  /** The code point a byte sequence starts with; overlong forms and surrogates are malformed. */
  function DecodePoint(bs: Bytes): Option<Point>
    requires bs != []
  {
    if bs[0] < 0x80 then Some(bs[0])
    else if 0xc2 <= bs[0] < 0xe0 && Continues(bs, 1) then Some(Lead(bs, 0xc0) * 64 + Low(bs, 1))
    else if 0xe0 <= bs[0] < 0xf0 && Continues(bs, 2) then
      var c := (Lead(bs, 0xe0) * 64 + Low(bs, 1)) * 64 + Low(bs, 2);
      if c < 0x800 || 0xd800 <= c <= 0xdfff then None else Some(c)
    else if 0xf0 <= bs[0] < 0xf5 && Continues(bs, 3) then
      var c := ((Lead(bs, 0xf0) * 64 + Low(bs, 1)) * 64 + Low(bs, 2)) * 64 + Low(bs, 3);
      if c < 0x10000 || c >= 0x110000 then None else Some(c)
    else None
  }

  /** `bytes.decode("utf-8", errors="ignore")`: malformed bytes are dropped. */
  function DecodeIgnore(bs: Bytes): Text
    decreases |bs|
  {
    if bs == [] then []
    else
      var c := DecodePoint(bs);
      if c.Some? && Width(c.value) <= |bs| then [c.value] + DecodeIgnore(bs[Width(c.value)..]) else DecodeIgnore(bs[1..])
  }

  lemma DecodeEncoded(c: Point, rest: Bytes)
    requires !(0xd800 <= c <= 0xdfff)
    ensures DecodePoint(EncodePoint(c) + rest) == Some(c)
  {
    var bs := EncodePoint(c) + rest;
    assert forall i :: 0 <= i < Width(c) ==> bs[i] == EncodePoint(c)[i];
    var d := c / 64;
    var e := d / 64;
    assert c == d * 64 + c % 64 && d == e * 64 + d % 64 && e == e / 64 * 64 + e % 64;
  }

  lemma {:induction false} ContinuationsIgnored(bs: Bytes)
    requires forall i :: 0 <= i < |bs| ==> 0x80 <= bs[i] < 0xc0
    ensures DecodeIgnore(bs) == []
    decreases |bs|
  {
    if bs != [] { ContinuationsIgnored(bs[1..]); }
  }

  /** A cut encoding of one code point decodes to nothing. */
  lemma CutPointIgnored(c: Point, n: nat)
    requires n < Width(c)
    ensures DecodeIgnore(EncodePoint(c)[..n]) == []
  {
    var bs := EncodePoint(c)[..n];
    if n > 0 {
      assert DecodePoint(bs) == None;
      ContinuationsIgnored(bs[1..]);
    }
  }

  /** How many leading code points fit in `n` bytes. */
  function Fitting(s: Text, n: nat): (k: nat)
    ensures k <= |s|
  {
    if s == [] || n < Width(s[0]) then 0 else 1 + Fitting(s[1..], n - Width(s[0]))
  }

  lemma {:induction false} EncodedSize(s: Text)
    ensures |Encode(s)| == Utf8Size(s)
    decreases |s|
  {
    if s != [] { EncodedSize(s[1..]); }
  }

  /** Cutting an encoding anywhere and ignoring what is malformed keeps exactly the code points that fit whole. */
  lemma {:induction false} CutDecodes(s: Text, n: nat)
    requires Encodable(s) && n <= |Encode(s)|
    ensures DecodeIgnore(Encode(s)[..n]) == s[..Fitting(s, n)]
    decreases |s|
  {
    if s != [] {
      var w := Width(s[0]);
      if n < w {
        assert Encode(s)[..n] == EncodePoint(s[0])[..n];
        CutPointIgnored(s[0], n);
      } else {
        var bs := Encode(s)[..n];
        assert bs == EncodePoint(s[0]) + Encode(s[1..])[..n - w];
        DecodeEncoded(s[0], Encode(s[1..])[..n - w]);
        assert bs[w..] == Encode(s[1..])[..n - w];
        CutDecodes(s[1..], n - w);
        assert s[..Fitting(s, n)] == [s[0]] + s[1..][..Fitting(s[1..], n - w)];
      }
    }
  }

  lemma {:induction false} FittingFits(s: Text, n: nat)
    ensures Utf8Size(s[..Fitting(s, n)]) <= n
    ensures Fitting(s, n) < |s| ==> n < Utf8Size(s[..Fitting(s, n)]) + Width(s[Fitting(s, n)])
    decreases |s|
  {
    if s != [] && Width(s[0]) <= n {
      FittingFits(s[1..], n - Width(s[0]));
      assert s[..Fitting(s, n)][1..] == s[1..][..Fitting(s[1..], n - Width(s[0]))];
    }
  }

  // ---------- truncation ----------

  /** `...[truncated]` */
  const MARKER: Text := Ascii("...[truncated]")

  /** `errors="backslashreplace"`: a lone surrogate becomes its escape. */
  function Replaced(s: Text): (t: Text)
    ensures Encodable(t)
  {
    if s == [] then []
    else if 0xd800 <= s[0] <= 0xdfff then Hex4(s[0]) + Replaced(s[1..])
    else [s[0]] + Replaced(s[1..])
  }

  /** `_truncate_utf8` */
  function Truncate(value: Text, limit: nat): Text {
    var encoded := Encode(Replaced(value));
    if |encoded| <= limit then DecodeIgnore(encoded)
    else if limit <= |MARKER| then MARKER[..limit]
    else DecodeIgnore(encoded[..limit - |MARKER|]) + MARKER
  }

  /** The same in code points. */
  function Shortened(t: Text, limit: nat): Text {
    if Utf8Size(t) <= limit then t
    else if limit <= |MARKER| then MARKER[..limit]
    else t[..Fitting(t, limit - |MARKER|)] + MARKER
  }

  lemma {:induction false} WholeFits(s: Text)
    ensures Fitting(s, Utf8Size(s)) == |s|
    decreases |s|
  {
    if s != [] { WholeFits(s[1..]); }
  }

  lemma TruncateIsShortened(value: Text, limit: nat)
    ensures Truncate(value, limit) == Shortened(Replaced(value), limit)
  {
    hide DecodeIgnore, Encode, Fitting, Utf8Size, Replaced, Encodable;
    var t := Replaced(value);
    EncodedSize(t);
    WholeFits(t);
    CutDecodes(t, |Encode(t)|);
    assert Encode(t)[..|Encode(t)|] == Encode(t);
    if |MARKER| < limit < |Encode(t)| { CutDecodes(t, limit - |MARKER|); }
  }

  lemma {:induction false} SizeConcat(a: Text, b: Text)
    ensures Utf8Size(a + b) == Utf8Size(a) + Utf8Size(b)
    decreases |a|
  {
    if a == [] { assert a + b == b; } else {
      assert (a + b)[1..] == a[1..] + b;
      SizeConcat(a[1..], b);
    }
  }

  lemma {:induction false} AsciiSize(t: Text)
    requires forall i :: 0 <= i < |t| ==> 32 <= t[i] <= 126 && t[i] != QUOTE && t[i] != BACKSLASH
    ensures Utf8Size(t) == |t| == |EscapeAll(t)|
    decreases |t|
  {
    if t != [] { AsciiSize(t[1..]); }
  }

  lemma MarkerSize(n: nat)
    requires n <= |MARKER|
    ensures Utf8Size(MARKER[..n]) == n == |EscapeAll(MARKER[..n])|
  {
    AsciiSize(MARKER[..n]);
  }

  lemma {:induction false} ReplacedSame(t: Text)
    requires Encodable(t)
    ensures Replaced(t) == t
    decreases |t|
  {
    if t != [] { ReplacedSame(t[1..]); }
  }

  /** The result is within the limit, and made of whole code points of the text, in order, and of the marker. */
  lemma TruncateFits(value: Text, limit: nat)
    ensures Utf8Size(Truncate(value, limit)) <= limit && Encodable(Truncate(value, limit))
    ensures |Encode(Truncate(value, limit))| <= limit
    ensures Utf8Size(Replaced(value)) <= limit ==> Truncate(value, limit) == Replaced(value)
    ensures Utf8Size(Replaced(value)) > limit > |MARKER| ==>
              exists k :: 0 <= k < |Replaced(value)| && Truncate(value, limit) == Replaced(value)[..k] + MARKER
                          && Utf8Size(Replaced(value)[..k]) <= limit - |MARKER| < Utf8Size(Replaced(value)[..k + 1])
  {
    hide Truncate, Replaced, Utf8Size, Fitting, Encodable, EscapeAll, Encode;
    TruncateIsShortened(value, limit);
    var t := Replaced(value);
    EncodedSize(Truncate(value, limit));
    if Utf8Size(t) > limit {
      if limit <= |MARKER| {
        MarkerSize(limit);
        MarkerEncodable(limit);
      } else {
        CutFits(t, limit - |MARKER|);
      }
    }
  }

  lemma MarkerEncodable(n: nat)
    requires n <= |MARKER|
    ensures Encodable(MARKER[..n])
  {
  }

  lemma CutFits(t: Text, n: nat)
    requires Utf8Size(t) > n && Encodable(t)
    ensures var k := Fitting(t, n);
            && k < |t| && Utf8Size(t[..k]) <= n < Utf8Size(t[..k + 1])
            && Utf8Size(t[..k] + MARKER) <= n + |MARKER| && Encodable(t[..k] + MARKER)
  {
    hide Utf8Size, Fitting, EscapeAll;
    var k := Fitting(t, n);
    FittingFits(t, n);
    SizeConcat(t[..k], MARKER);
    MarkerSize(|MARKER|);
    assert MARKER[..|MARKER|] == MARKER;
    assert t[..|t|] == t;
    assert t[..k + 1] == t[..k] + [t[k]];
    SizeConcat(t[..k], [t[k]]);
    OneSize(t[k]);
    MarkerEncodable(|MARKER|);
  }

  lemma OneSize(c: Point)
    ensures Utf8Size([c]) == Width(c)
  {
    assert [c][1..] == [];
  }

  function Min(a: nat, b: nat): nat {
    if a < b then a else b
  }

  // ---------- the printed size of what is kept ----------

  lemma {:induction false} EscapedConcat(a: Text, b: Text)
    ensures EscapeAll(a + b) == EscapeAll(a) + EscapeAll(b)
    decreases |a|
  {
    if a == [] { assert a + b == b; } else {
      assert (a + b)[1..] == a[1..] + b;
      EscapedConcat(a[1..], b);
    }
  }

  lemma {:induction false} EscapedAtLeast(t: Text)
    ensures |EscapeAll(t)| >= Utf8Size(t)
    decreases |t|
  {
    if t != [] { EscapedAtLeast(t[1..]); }
  }

  lemma {:induction false} FittingMonotone(s: Text, m: nat, n: nat)
    requires m <= n
    ensures Fitting(s, m) <= Fitting(s, n)
    decreases |s|
  {
    if s != [] && Width(s[0]) <= m { FittingMonotone(s[1..], m - Width(s[0]), n - Width(s[0])); }
  }

  /** A larger budget never prints shorter, not even where the marker gives way to the full text. */
  lemma PrintedSizeMonotone(t: Text, m: nat, n: nat)
    requires m <= n
    ensures |EscapeAll(Shortened(t, m))| <= |EscapeAll(Shortened(t, n))|
  {
    hide Utf8Size, Fitting, EscapeAll;
    MarkerSize(Min(m, |MARKER|));
    MarkerSize(Min(n, |MARKER|));
    MarkerSize(|MARKER|);
    assert MARKER[..|MARKER|] == MARKER;
    if Utf8Size(t) <= n {
      if Utf8Size(t) > m { FullIsLonger(t, m); }
    } else if n > |MARKER| {
      var k, l := Fitting(t, n - |MARKER|), if m > |MARKER| then Fitting(t, m - |MARKER|) else 0;
      EscapedConcat(t[..k], MARKER);
      if m > |MARKER| {
        FittingMonotone(t, m - |MARKER|, n - |MARKER|);
        EscapedConcat(t[..l], MARKER);
        assert t[..k] == t[..l] + t[l..k];
        EscapedConcat(t[..l], t[l..k]);
      }
    }
  }

  lemma FullIsLonger(t: Text, m: nat)
    requires Utf8Size(t) > m
    ensures |EscapeAll(Shortened(t, m))| <= |EscapeAll(t)|
  {
    hide Utf8Size, Fitting, EscapeAll;
    EscapedAtLeast(t);
    MarkerSize(Min(m, |MARKER|));
    MarkerSize(|MARKER|);
    assert MARKER[..|MARKER|] == MARKER;
    if m > |MARKER| {
      var k := Fitting(t, m - |MARKER|);
      FittingFits(t, m - |MARKER|);
      assert t == t[..k] + t[k..];
      SizeConcat(t[..k], t[k..]);
      EscapedConcat(t[..k], t[k..]);
      EscapedConcat(t[..k], MARKER);
      EscapedAtLeast(t[k..]);
    }
  }
}
