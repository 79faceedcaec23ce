/** Which frames a reader takes and what each does to it, named from the frame's own fields. */
module FrameRules {
  import opened ByteStrings
  import opened Json
  import opened Protocol

  /** The header has the six keys, a short id, a position within a permitted count, a permitted total and a digest of 64 characters. */
  predicate WellHeaded(h: Fields, limits: Limits) {
    var id, index, count := Get(h, Ascii("message_id")), Get(h, Ascii("index")), Get(h, Ascii("count"));
    var total, digest := Get(h, Ascii("total")), Get(h, Ascii("digest"));
    && KeySet(h) == {Ascii("message_id"), Ascii("index"), Ascii("count"), Ascii("total"), Ascii("digest"), Ascii("control")}
    && id.Str? && |id.s| <= 64 && digest.Str? && |digest.s| == 64
    && index.Integer? && count.Integer? && total.Integer?
    && 0 <= index.i < count.i && 1 <= count.i <= limits.maxChunks && 0 <= total.i <= limits.maxMessage
  }

  function Said(h: Fields, limits: Limits): Envelope
    requires WellHeaded(h, limits)
  {
    Envelope(Get(h, Ascii("message_id")).s, Get(h, Ascii("index")).i, Get(h, Ascii("count")).i,
             Get(h, Ascii("total")).i, Get(h, Ascii("digest")).s, Get(h, Ascii("control")))
  }

  lemma HeadedExactlyWhen(h: Fields, limits: Limits)
    ensures HeaderOf(h, limits).Pass? <==> WellHeaded(h, limits)
    ensures WellHeaded(h, limits) ==> HeaderOf(h, limits) == Pass(Said(h, limits))
  {
    hide Get, KeySet;
  }

  /** The frame starts a message, or is the next one of a message that says the same of itself. */
  predicate Continues(rd: Reader, kind: int, e: Envelope, limits: Limits) {
    if e.id in rd.messages
    then
      var c := rd.messages[e.id];
      && e.control.Null? && e.index == c.nextIndex && kind == c.kind && e.count == c.count && e.total == c.total && e.digest == c.digest
    else e.control.Object? && e.index == 0 && |rd.messages| < limits.maxIncomplete
  }

  /** What is there of the message before the frame. */
  function Before(rd: Reader, kind: int, e: Envelope, limits: Limits): (c: Chunks)
    requires Continues(rd, kind, e, limits)
    ensures c.nextIndex == e.index && c.count == e.count
  {
    if e.id in rd.messages then rd.messages[e.id] else Chunks(kind, e.control.fields, e.count, e.total, e.digest, 0, [], 0)
  }

  /** The payload fits with all that is held and into its message, and fills the message exactly if it is the last, with the right digest. */
  predicate Fills(rd: Reader, c: Chunks, payload: Bytes, hash: Bytes -> Text, limits: Limits) {
    && rd.incomplete + |payload| <= limits.maxMessage && c.received + |payload| <= c.total
    && (c.nextIndex + 1 == c.count ==> c.received + |payload| == c.total && hash(Concat(c.parts + [payload])) == c.digest)
  }

  predicate Taken(rd: Reader, f: Frame, hash: Bytes -> Text, limits: Limits) {
    && WellHeaded(f.header, limits)
    && Continues(rd, f.kind, Said(f.header, limits), limits)
    && Fills(rd, Before(rd, f.kind, Said(f.header, limits), limits), f.payload, hash, limits)
  }

  lemma OpenedExactlyWhen(rd: Reader, kind: int, e: Envelope, limits: Limits)
    ensures var found := Opened(rd, kind, e, limits);
            found.Pass? && found.value.nextIndex == e.index <==> Continues(rd, kind, e, limits)
    ensures Continues(rd, kind, e, limits) ==> Opened(rd, kind, e, limits) == Pass(Before(rd, kind, e, limits))
  {
  }

  /** The reader with one more part of a message, or without the message the part completes. */
  function Held(rd: Reader, id: Text, c: Chunks, payload: Bytes): (Reader, Verdict) {
    if c.nextIndex + 1 == c.count
    then (Reader(rd.messages - {id}, rd.incomplete - c.received), Complete(Message(c.kind, c.control, Concat(c.parts + [payload]))))
    else
      (Reader(rd.messages[id := c.(nextIndex := c.nextIndex + 1, parts := c.parts + [payload], received := c.received + |payload|)],
              rd.incomplete + |payload|), Waiting)
  }

  /**
   A frame is taken if and only if its header is in order, it is the next one of its message, and its payload fits. Then it
   is the message's next part; the last part gives the message out, and what the reader held of it is gone.
   */
  lemma TakenExactlyWhen(rd: Reader, f: Frame, hash: Bytes -> Text, limits: Limits)
    ensures !Accepted(rd, f, hash, limits).1.Refused? <==> Taken(rd, f, hash, limits)
    ensures Taken(rd, f, hash, limits) ==>
              var e := Said(f.header, limits);
              Accepted(rd, f, hash, limits) == Held(rd, e.id, Before(rd, f.kind, e, limits), f.payload)
  {
    hide HeaderOf, Opened, WellHeaded, Continues, Appended, Fills, Held;
    HeadedExactlyWhen(f.header, limits);
    if WellHeaded(f.header, limits) {
      var e := Said(f.header, limits);
      OpenedExactlyWhen(rd, f.kind, e, limits);
      if Opened(rd, f.kind, e, limits).Pass? {
        AddedExactlyWhen(rd, e.id, e.index, Opened(rd, f.kind, e, limits).value, f.payload, hash, limits);
      }
    }
  }

  lemma AddedExactlyWhen(rd: Reader, id: Text, index: int, c: Chunks, payload: Bytes, hash: Bytes -> Text, limits: Limits)
    ensures var rd' := rd.(messages := rd.messages[id := c]);
            && (!Appended(rd', id, index, payload, hash, limits).1.Refused? <==> index == c.nextIndex && Fills(rd, c, payload, hash, limits))
            && (index == c.nextIndex && Fills(rd, c, payload, hash, limits) ==>
                  Appended(rd', id, index, payload, hash, limits) == Held(rd, id, c, payload))
  {
    hide Concat;
    assert rd.messages[id := c][id := Grown(c, payload)] - {id} == rd.messages - {id};
    assert rd.messages[id := c][id := Grown(c, payload)] == rd.messages[id := Grown(c, payload)];
  }
}
