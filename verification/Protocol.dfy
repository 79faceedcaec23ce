/** Messages split into bounded frames and reassembled, as in deadpool/remote/_protocol.py. */
module Protocol {
  import opened ByteStrings
  import opened Json

  /** The positive limits of deadpool/remote/config.py. */
  datatype RawLimits = Limits(
    maxControl: nat, maxFramePayload: nat, maxMessage: nat, maxMetadata: nat, maxChunks: nat, maxIncomplete: nat)

  type Limits = l: RawLimits | l.maxFramePayload > 0 witness Limits(1, 1, 1, 1, 1, 1)

  datatype Message = Message(kind: int, control: Fields, payload: Bytes)

  datatype Frame = Frame(kind: int, header: Fields, payload: Bytes)

  // ---------- headers ----------

  const CONTROL := Ascii("control")
  const COUNT := Ascii("count")
  const DIGEST := Ascii("digest")
  const INDEX := Ascii("index")
  const MESSAGE_ID := Ascii("message_id")
  const TOTAL := Ascii("total")

  function HeaderFields(id: Text, index: nat, count: nat, total: nat, digest: Text, control: Json): Fields {
    Field(CONTROL, control, Field(COUNT, Integer(count), Field(DIGEST, Str(digest),
      Field(INDEX, Integer(index), Field(MESSAGE_ID, Str(id), Field(TOTAL, Integer(total), NoFields))))))
  }

  /** `_json_dumps` accepts the header. */
  predicate Encodes(header: Fields, limits: Limits) {
    Valid(Object(header), limits.maxMetadata, 0) && |Print(Object(header))| <= limits.maxControl
  }

  function KeySet(fields: Fields): set<Text> {
    match fields
    case NoFields => {}
    case Field(key, _, rest) => {key} + KeySet(rest)
  }

  function Get(fields: Fields, key: Text): (value: Json) {
    match fields
    case NoFields => Null
    case Field(k, value, rest) => if k == key then value else Get(rest, key)
  }

  lemma KeysDistinct()
    ensures CONTROL != COUNT && CONTROL != DIGEST && CONTROL != INDEX && CONTROL != MESSAGE_ID && CONTROL != TOTAL
    ensures COUNT != DIGEST && COUNT != INDEX && COUNT != MESSAGE_ID && COUNT != TOTAL
    ensures DIGEST != INDEX && DIGEST != MESSAGE_ID && DIGEST != TOTAL
    ensures INDEX != MESSAGE_ID && INDEX != TOTAL && MESSAGE_ID != TOTAL
  {
    assert |CONTROL| == 7 && |COUNT| == 5 && |DIGEST| == 6 && |INDEX| == 5 && |MESSAGE_ID| == 10 && |TOTAL| == 5;
    assert COUNT[0] == 99 && INDEX[0] == 105 && TOTAL[0] == 116;
  }

  lemma HeaderKeys(id: Text, index: nat, count: nat, total: nat, digest: Text, control: Json)
    ensures var h := HeaderFields(id, index, count, total, digest, control);
            && KeySet(h) == {MESSAGE_ID, INDEX, COUNT, TOTAL, DIGEST, CONTROL}
            && Get(h, CONTROL) == control && Get(h, COUNT) == Integer(count) && Get(h, DIGEST) == Str(digest)
            && Get(h, INDEX) == Integer(index) && Get(h, MESSAGE_ID) == Str(id) && Get(h, TOTAL) == Integer(total)
  {
    KeysDistinct();
    var f6 := Field(TOTAL, Integer(total), NoFields);
    var f5 := Field(MESSAGE_ID, Str(id), f6);
    var f4 := Field(INDEX, Integer(index), f5);
    var f3 := Field(DIGEST, Str(digest), f4);
    var f2 := Field(COUNT, Integer(count), f3);
    assert KeySet(f6) == {TOTAL} && KeySet(f5) == {TOTAL, MESSAGE_ID} && KeySet(f4) == {TOTAL, MESSAGE_ID, INDEX};
    assert KeySet(f3) == {TOTAL, MESSAGE_ID, INDEX, DIGEST} && KeySet(f2) == {TOTAL, MESSAGE_ID, INDEX, DIGEST, COUNT};
    assert Get(f6, TOTAL) == Integer(total) && Get(f5, TOTAL) == Integer(total) && Get(f4, TOTAL) == Integer(total);
    assert Get(f3, TOTAL) == Integer(total) && Get(f2, TOTAL) == Integer(total);
    assert Get(f5, MESSAGE_ID) == Str(id) && Get(f4, MESSAGE_ID) == Str(id) && Get(f3, MESSAGE_ID) == Str(id) && Get(f2, MESSAGE_ID) == Str(id);
    assert Get(f4, INDEX) == Integer(index) && Get(f3, INDEX) == Integer(index) && Get(f2, INDEX) == Integer(index);
    assert Get(f3, DIGEST) == Str(digest) && Get(f2, DIGEST) == Str(digest) && Get(f2, COUNT) == Integer(count);
  }

  /** The header on the wire, key by key. */
  lemma HeaderSays(id: Text, index: nat, count: nat, total: nat, digest: Text, control: Json)
    ensures var h := HeaderFields(id, index, count, total, digest, control);
            && KeySet(h) == {Ascii("message_id"), Ascii("index"), Ascii("count"), Ascii("total"), Ascii("digest"), Ascii("control")}
            && Get(h, Ascii("control")) == control && Get(h, Ascii("count")) == Integer(count) && Get(h, Ascii("digest")) == Str(digest)
            && Get(h, Ascii("index")) == Integer(index) && Get(h, Ascii("message_id")) == Str(id) && Get(h, Ascii("total")) == Integer(total)
  {
    hide Ascii, Get, KeySet, HeaderFields;
    HeaderKeys(id, index, count, total, digest, control);
  }

  // ---------- sending ----------

  /** The payload sizes a message is cut into: full chunks and a last one that may be shorter or empty. */
  function Split(payload: Bytes, size: nat): (chunks: seq<Bytes>)
    requires size > 0
    ensures chunks != []
    decreases |payload|
  {
    if |payload| <= size then [payload] else [payload[..size]] + Split(payload[size..], size)
  }

  function Concat(chunks: seq<Bytes>): Bytes {
    if chunks == [] then [] else Concat(chunks[..|chunks| - 1]) + chunks[|chunks| - 1]
  }

  /** `_message_chunk_count`, before its two checks. */
  function ChunkCount(size: nat, limits: Limits): (count: nat)
  {
    Max(1, (size + limits.maxFramePayload - 1) / limits.maxFramePayload)
  }

  predicate Sendable(size: nat, limits: Limits) {
    size <= limits.maxMessage && ChunkCount(size, limits) <= limits.maxChunks
  }

  function FrameOf(id: Text, m: Message, digest: Text, limits: Limits, index: nat): Frame
    requires index < |Split(m.payload, limits.maxFramePayload)|
  {
    var chunks := Split(m.payload, limits.maxFramePayload);
    Frame(m.kind,
          HeaderFields(id, index, |chunks|, |m.payload|, digest, if index == 0 then Object(m.control) else Null),
          chunks[index])
  }

  /** Every frame of a message, in order. */
  function Frames(id: Text, m: Message, digest: Text, limits: Limits): seq<Frame> {
    seq(|Split(m.payload, limits.maxFramePayload)|,
        i requires 0 <= i < |Split(m.payload, limits.maxFramePayload)| => FrameOf(id, m, digest, limits, i))
  }

  lemma AtLeastOne(k: int, size: int)
    requires k >= 1 && size > 0
    ensures k * size >= size
  {
    assert (k - 1) * size >= 0;
    assert (k - 1) * size == k * size - size;
  }

  lemma DivStep(n: int, size: int)
    requires size > 0
    ensures (n + size) / size == n / size + 1
  {
    var q, r, p, t := n / size, n % size, (n + size) / size, (n + size) % size;
    assert n == q * size + r && n + size == p * size + t;
    assert (q + 1 - p) * size == q * size + size - p * size;
    assert (p - q - 1) * size == p * size - q * size - size;
    if p < q + 1 { AtLeastOne(q + 1 - p, size); }
    if p > q + 1 { AtLeastOne(p - q - 1, size); }
  }

  lemma {:induction false} SplitCount(payload: Bytes, limits: Limits)
    ensures |Split(payload, limits.maxFramePayload)| == ChunkCount(|payload|, limits)
    decreases |payload|
  {
    var size := limits.maxFramePayload;
    if |payload| > size {
      SplitCount(payload[size..], limits);
      DivStep(|payload| - size + size - 1, size);
    } else if |payload| > 0 {
      DivStep(|payload| - 1, size);
    }
  }

  /** The chunk the sender slices out at `index` is the one of the split. */
  lemma {:induction false} SplitAt(payload: Bytes, size: nat, index: nat)
    requires size > 0 && index < |Split(payload, size)|
    ensures index * size <= |payload|
    ensures Split(payload, size)[index] == payload[index * size..if index * size + size < |payload| then index * size + size else |payload|]
    decreases |payload|
  {
    if index > 0 {
      var rest, k := payload[size..], (index - 1) * size;
      SplitAt(rest, size, index - 1);
      assert index * size == k + size;
      var end := if k + size < |rest| then k + size else |rest|;
      assert rest[k..end] == payload[k + size..end + size];
    } else {
      assert index * size == 0;
    }
  }

  lemma FramesPrefix(id: Text, m: Message, digest: Text, limits: Limits, index: nat)
    requires index < |Split(m.payload, limits.maxFramePayload)|
    ensures var frames := Frames(id, m, digest, limits);
            && index < |frames| == |Split(m.payload, limits.maxFramePayload)|
            && frames[..index + 1] == frames[..index] + [FrameOf(id, m, digest, limits, index)]
  {
  }

  /**
   `send_message`: the frames go out in order until one of their headers is too large, and only a message that is
   within the limits starts at all.
   */
  method SendMessage(id: Text, m: Message, hash: Bytes -> Text, limits: Limits) returns (sent: seq<Frame>, ok: bool)
    ensures var frames := Frames(id, m, hash(m.payload), limits);
            && sent <= frames
            && (forall i :: 0 <= i < |sent| ==> Encodes(sent[i].header, limits))
            && (!Sendable(|m.payload|, limits) ==> !ok && sent == [])
            && (Sendable(|m.payload|, limits) ==>
                  if ok then sent == frames else |sent| < |frames| && !Encodes(frames[|sent|].header, limits))
  {
    hide Encodes, HeaderFields, Split, ChunkCount;
    SplitCount(m.payload, limits);
    sent := [];
    var count := ChunkCount(|m.payload|, limits);
    if |m.payload| > limits.maxMessage || count > limits.maxChunks { return sent, false; }
    var digest := hash(m.payload);
    for index := 0 to count
      invariant sent == Frames(id, m, digest, limits)[..index]
      invariant forall i :: 0 <= i < |sent| ==> Encodes(sent[i].header, limits)
    {
      SplitAt(m.payload, limits.maxFramePayload, index);
      FramesPrefix(id, m, digest, limits, index);
      var start := index * limits.maxFramePayload;
      var end := start + limits.maxFramePayload;
      var chunk := m.payload[start..if end < |m.payload| then end else |m.payload|];
      var header := HeaderFields(id, index, count, |m.payload|, digest, if index == 0 then Object(m.control) else Null);
      if !Encodes(header, limits) { return sent, false; }
      assert Frame(m.kind, header, chunk) == FrameOf(id, m, digest, limits, index);
      sent := sent + [Frame(m.kind, header, chunk)];
    }
    return sent, true;
  }

  // ---------- receiving ----------

  /** `_Chunks` */
  datatype Chunks = Chunks(
    kind: int, control: Fields, count: int, total: int, digest: Text, nextIndex: int, parts: seq<Bytes>, received: int)

  datatype Reason =
    | BadFields | BadId | BadNumbers | BadIndex | TotalTooLarge | BadDigest
    | NotAtStart | TooManyIncomplete | Conflict | OutOfOrder | AggregateTooLarge | ExceedsTotal | WrongLength | WrongDigest

  datatype Verdict = Complete(message: Message) | Waiting | Refused(reason: Reason)

  datatype Reader = Reader(messages: map<Text, Chunks>, incomplete: int)

  const EMPTY := Reader(map[], 0)

  datatype Envelope = Envelope(id: Text, index: int, count: int, total: int, digest: Text, control: Json)

  datatype Checked<T> = Pass(value: T) | Fail(reason: Reason)

  /** The checks on a header alone, in the order the source makes them. */
  function HeaderOf(h: Fields, limits: Limits): Checked<Envelope> {
    var id, index, count := Get(h, MESSAGE_ID), Get(h, INDEX), Get(h, COUNT);
    var total, digest := Get(h, TOTAL), Get(h, DIGEST);
    if KeySet(h) != {MESSAGE_ID, INDEX, COUNT, TOTAL, DIGEST, CONTROL} then Fail(BadFields)
    else if !id.Str? || |id.s| > 64 then Fail(BadId)
    else if !(index.Integer? && count.Integer? && total.Integer?) then Fail(BadNumbers)
    else if count.i < 1 || count.i > limits.maxChunks || !(0 <= index.i < count.i) then Fail(BadIndex)
    else if total.i < 0 || total.i > limits.maxMessage then Fail(TotalTooLarge)
    else if !digest.Str? || |digest.s| != 64 then Fail(BadDigest)
    else Pass(Envelope(id.s, index.i, count.i, total.i, digest.s, Get(h, CONTROL)))
  }

  /** The partial message a frame belongs to, or why it belongs to none. */
  function Opened(rd: Reader, kind: int, e: Envelope, limits: Limits): Checked<Chunks> {
    if e.id !in rd.messages then
      if e.index != 0 || !e.control.Object? then Fail(NotAtStart)
      else if |rd.messages| >= limits.maxIncomplete then Fail(TooManyIncomplete)
      else Pass(Chunks(kind, e.control.fields, e.count, e.total, e.digest, 0, [], 0))
    else
      var c := rd.messages[e.id];
      if c.kind != kind || c.count != e.count || c.total != e.total || c.digest != e.digest || !e.control.Null?
      then Fail(Conflict) else Pass(c)
  }

  function Grown(c: Chunks, payload: Bytes): Chunks {
    c.(parts := c.parts + [payload], received := c.received + |payload|, nextIndex := c.nextIndex + 1)
  }

  /** A frame's payload added to its partial message. */
  function Appended(rd: Reader, id: Text, index: int, payload: Bytes, hash: Bytes -> Text, limits: Limits): (Reader, Verdict)
    requires id in rd.messages
  {
    var c := rd.messages[id];
    if index != c.nextIndex then (rd, Refused(OutOfOrder))
    else if rd.incomplete + |payload| > limits.maxMessage then (rd, Refused(AggregateTooLarge))
    else
      var g := Grown(c, payload);
      var more := Reader(rd.messages[id := g], rd.incomplete + |payload|);
      if g.received > g.total then (more, Refused(ExceedsTotal))
      else if index + 1 != g.count then (more, Waiting)
      else
        var done := Reader(more.messages - {id}, more.incomplete - g.received);
        if g.received != g.total then (done, Refused(WrongLength))
        else if hash(Concat(g.parts)) != g.digest then (done, Refused(WrongDigest))
        else (done, Complete(Message(g.kind, g.control, Concat(g.parts))))
  }

  /** `_accept`: the reader afterwards, also where the source raises half way, and what came of the frame. */
  function Accepted(rd: Reader, f: Frame, hash: Bytes -> Text, limits: Limits): (Reader, Verdict) {
    var header := HeaderOf(f.header, limits);
    if header.Fail? then (rd, Refused(header.reason))
    else
      var e := header.value;
      var chunks := Opened(rd, f.kind, e, limits);
      if chunks.Fail? then (rd, Refused(chunks.reason))
      else Appended(rd.(messages := rd.messages[e.id := chunks.value]), e.id, e.index, f.payload, hash, limits)
  }

  class MessageReader {
    const limits: Limits
    const hash: Bytes -> Text
    var messages: map<Text, Chunks>
    var incompleteBytes: int

    constructor (limits: Limits, hash: Bytes -> Text)
      ensures View() == EMPTY && this.limits == limits && this.hash == hash
    {
      this.limits, this.hash := limits, hash;
      messages, incompleteBytes := map[], 0;
    }

    ghost function View(): Reader
      reads this
    {
      Reader(messages, incompleteBytes)
    }

    /** `_accept` */
    method Accept(f: Frame) returns (verdict: Verdict)
      modifies this
      ensures (View(), verdict) == Accepted(old(View()), f, hash, limits)
    {
      var id, index, count := Get(f.header, MESSAGE_ID), Get(f.header, INDEX), Get(f.header, COUNT);
      var total, digest, control := Get(f.header, TOTAL), Get(f.header, DIGEST), Get(f.header, CONTROL);
      if KeySet(f.header) != {MESSAGE_ID, INDEX, COUNT, TOTAL, DIGEST, CONTROL} { return Refused(BadFields); }
      if !id.Str? || |id.s| > 64 { return Refused(BadId); }
      if !(index.Integer? && count.Integer? && total.Integer?) { return Refused(BadNumbers); }
      if count.i < 1 || count.i > limits.maxChunks || !(0 <= index.i < count.i) { return Refused(BadIndex); }
      if total.i < 0 || total.i > limits.maxMessage { return Refused(TotalTooLarge); }
      if !digest.Str? || |digest.s| != 64 { return Refused(BadDigest); }
      if id.s !in messages {
        if index.i != 0 || !control.Object? { return Refused(NotAtStart); }
        if |messages| >= limits.maxIncomplete { return Refused(TooManyIncomplete); }
        messages := messages[id.s := Chunks(f.kind, control.fields, count.i, total.i, digest.s, 0, [], 0)];
      } else {
        var c := messages[id.s];
        if c.kind != f.kind || c.count != count.i || c.total != total.i || c.digest != digest.s || !control.Null? {
          return Refused(Conflict);
        }
        assert messages[id.s := c] == messages;
      }
      verdict := Append(id.s, index.i, f.payload);
    }

    /** The end of `_accept`, once the frame has its partial message. */
    method Append(id: Text, index: int, payload: Bytes) returns (verdict: Verdict)
      requires id in messages
      modifies this
      ensures (View(), verdict) == Appended(old(View()), id, index, payload, hash, limits)
    {
      var c := messages[id];
      if index != c.nextIndex { return Refused(OutOfOrder); }
      if incompleteBytes + |payload| > limits.maxMessage { return Refused(AggregateTooLarge); }
      messages := messages[id := c.(parts := c.parts + [payload], received := c.received + |payload|, nextIndex := c.nextIndex + 1)];
      incompleteBytes := incompleteBytes + |payload|;
      c := messages[id];
      if c.received > c.total { return Refused(ExceedsTotal); }
      if index + 1 != c.count { return Waiting; }
      messages := messages - {id};
      incompleteBytes := incompleteBytes - c.received;
      if c.received != c.total { return Refused(WrongLength); }
      var complete := Concat(c.parts);
      if hash(complete) != c.digest { return Refused(WrongDigest); }
      return Complete(Message(c.kind, c.control, complete));
    }
  }
}
