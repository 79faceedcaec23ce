/** What the reader guarantees for any frames at all, and that it gives back interleaved messages exactly. */
module Reassembly {
  import opened Sums
  import opened ByteStrings
  import opened Json
  import opened Protocol

  // ---------- any frames, hostile ones included ----------

  /** The reader after a log of frames, each fed whatever came of the ones before. */
  ghost function Fed(log: seq<Frame>, hash: Bytes -> Text, limits: Limits): Reader {
    if log == [] then EMPTY
    else Accepted(Fed(log[..|log| - 1], hash, limits), log[|log| - 1], hash, limits).0
  }

  /** The frame is number `k` of message `id` as the partial message `c` describes it. */
  ghost predicate Carries(f: Frame, id: Text, c: Chunks, k: nat, payload: Bytes) {
    && f.kind == c.kind && f.payload == payload
    && Get(f.header, MESSAGE_ID) == Str(id) && Get(f.header, INDEX) == Integer(k) && Get(f.header, COUNT) == Integer(c.count)
    && Get(f.header, TOTAL) == Integer(c.total) && Get(f.header, DIGEST) == Str(c.digest)
  }

  /** The frame that opened the partial message `c`; its own payload may have been refused. */
  ghost predicate Opens(f: Frame, id: Text, c: Chunks) {
    Carries(f, id, c, 0, f.payload) && Get(f.header, CONTROL) == Object(c.control)
  }

  ghost predicate CameAt(log: seq<Frame>, id: Text, c: Chunks, at: seq<nat>) {
    && |at| == |c.parts|
    && (forall i, j :: 0 <= i < j < |at| ==> at[i] < at[j])
    && forall k :: 0 <= k < |at| ==> at[k] < |log| && Carries(log[at[k]], id, c, k, c.parts[k])
  }

  /** The parts came, in order, from frames of the log that all tell the same story. */
  ghost predicate Sourced(log: seq<Frame>, id: Text, c: Chunks) {
    exists at: seq<nat>, origin: nat :: CameAt(log, id, c, at) && OpenedAt(log, id, c, at, origin)
  }

  ghost predicate OpenedAt(log: seq<Frame>, id: Text, c: Chunks, at: seq<nat>, origin: nat) {
    origin < |log| && Opens(log[origin], id, c) && (at != [] ==> origin <= at[0])
  }

  ghost predicate ChunksOk(c: Chunks, limits: Limits) {
    && c.nextIndex == |c.parts| <= c.count <= limits.maxChunks && 1 <= c.count
    && 0 <= c.total <= limits.maxMessage
    && c.received == |Concat(c.parts)|
  }

  ghost function Received(messages: map<Text, Chunks>): map<Text, int> {
    map id | id in messages :: messages[id].received
  }

  ghost predicate Bounded(rd: Reader, limits: Limits) {
    && rd.incomplete == Sum(Received(rd.messages)) <= limits.maxMessage
    && |rd.messages| <= limits.maxIncomplete
    && forall id :: id in rd.messages ==> ChunksOk(rd.messages[id], limits)
  }

  ghost predicate AllSourced(rd: Reader, log: seq<Frame>) {
    forall id :: id in rd.messages ==> Sourced(log, id, rd.messages[id])
  }

  lemma ConcatGrows(parts: seq<Bytes>, payload: Bytes)
    ensures Concat(parts + [payload]) == Concat(parts) + payload
  {
    assert (parts + [payload])[..|parts|] == parts;
  }

  lemma ReceivedUpdate(messages: map<Text, Chunks>, id: Text, c: Chunks)
    ensures Sum(Received(messages[id := c])) == Sum(Received(messages)) + c.received - (if id in messages then messages[id].received else 0)
  {
    SumUpdate(Received(messages), id, c.received);
    assert Received(messages[id := c]) == Received(messages)[id := c.received];
  }

  lemma ReceivedRemove(messages: map<Text, Chunks>, id: Text)
    requires id in messages
    ensures Sum(Received(messages - {id})) == Sum(Received(messages)) - messages[id].received
  {
    SumRemove(Received(messages), id);
    assert Received(messages - {id}) == Received(messages) - {id};
  }

  lemma CardUpdate(messages: map<Text, Chunks>, id: Text, c: Chunks)
    ensures |messages[id := c]| == |messages| + (if id in messages then 0 else 1)
    ensures id in messages ==> |messages - {id}| == |messages| - 1
  {
    assert messages[id := c].Keys == messages.Keys + {id};
    if id in messages {
      assert messages.Keys + {id} == messages.Keys;
      assert (messages - {id}).Keys == messages.Keys - {id};
    }
  }

  /** The bytes held are the sum of the parts, and both limits hold, after a frame of any kind. */
  lemma AppendedBounded(rd: Reader, id: Text, index: int, payload: Bytes, hash: Bytes -> Text, limits: Limits)
    requires Bounded(rd, limits) && id in rd.messages && 0 <= index < rd.messages[id].count
    ensures Bounded(Appended(rd, id, index, payload, hash, limits).0, limits)
  {
    hide Sum, Concat;
    var c := rd.messages[id];
    if index == c.nextIndex && rd.incomplete + |payload| <= limits.maxMessage {
      var g := Grown(c, payload);
      ConcatGrows(c.parts, payload);
      ReceivedUpdate(rd.messages, id, g);
      CardUpdate(rd.messages, id, g);
      CardUpdate(rd.messages[id := g], id, g);
      ReceivedRemove(rd.messages[id := g], id);
      assert ChunksOk(g, limits);
    }
  }

  lemma AcceptedBounded(rd: Reader, f: Frame, hash: Bytes -> Text, limits: Limits)
    requires Bounded(rd, limits)
    ensures Bounded(Accepted(rd, f, hash, limits).0, limits)
  {
    hide Get, KeySet;
    var header := HeaderOf(f.header, limits);
    if header.Pass? {
      var e := header.value;
      var chunks := Opened(rd, f.kind, e, limits);
      if chunks.Pass? {
        ReceivedUpdate(rd.messages, e.id, chunks.value);
        CardUpdate(rd.messages, e.id, chunks.value);
        assert chunks.value.parts == [] ==> Concat(chunks.value.parts) == [];
        AppendedBounded(rd.(messages := rd.messages[e.id := chunks.value]), e.id, e.index, f.payload, hash, limits);
      }
    }
  }

  // ---------- where parts come from ----------

  lemma CameLonger(log: seq<Frame>, f: Frame, id: Text, c: Chunks, at: seq<nat>)
    requires CameAt(log, id, c, at)
    ensures CameAt(log + [f], id, c, at)
  {
    forall k | 0 <= k < |at| ensures at[k] < |log + [f]| && Carries((log + [f])[at[k]], id, c, k, c.parts[k]) {
      assert (log + [f])[at[k]] == log[at[k]];
    }
  }

  lemma SourcedLonger(log: seq<Frame>, f: Frame, id: Text, c: Chunks)
    requires Sourced(log, id, c)
    ensures Sourced(log + [f], id, c)
  {
    var at: seq<nat>, origin: nat :| CameAt(log, id, c, at) && OpenedAt(log, id, c, at, origin);
    CameLonger(log, f, id, c, at);
    assert OpenedAt(log + [f], id, c, at, origin);
  }

  lemma GrownSourced(log: seq<Frame>, f: Frame, id: Text, c: Chunks, at: seq<nat>, origin: nat)
    requires CameAt(log, id, c, at) && OpenedAt(log + [f], id, c, at, origin)
    ensures Sourced(log + [f], id, c)
    ensures Carries(f, id, c, |c.parts|, f.payload) ==> Sourced(log + [f], id, Grown(c, f.payload))
  {
    CameLonger(log, f, id, c, at);
    if Carries(f, id, c, |c.parts|, f.payload) {
      var more, g := log + [f], Grown(c, f.payload);
      var at' := at + [|log|];
      forall k | 0 <= k < |at'| ensures at'[k] < |more| && Carries(more[at'[k]], id, g, k, g.parts[k]) {
        if k < |at| { assert Carries(log[at[k]], id, c, k, c.parts[k]) && more[at[k]] == log[at[k]]; }
      }
      assert CameAt(more, id, g, at') && OpenedAt(more, id, g, at', origin);
    }
  }

  /** A delivered message is the concatenation, in order, of as many logged frames as its count says, of one id and one story. */
  ghost predicate Genuine(m: Message, log: seq<Frame>, hash: Bytes -> Text) {
    exists id: Text, c: Chunks ::
      && Sourced(log, id, c) && |c.parts| == c.count
      && m == Message(c.kind, c.control, Concat(c.parts)) && |m.payload| == c.total && hash(m.payload) == c.digest
  }

  lemma AcceptedSourced(rd: Reader, log: seq<Frame>, f: Frame, hash: Bytes -> Text, limits: Limits)
    requires Bounded(rd, limits) && AllSourced(rd, log)
    ensures var (after, verdict) := Accepted(rd, f, hash, limits);
            AllSourced(after, log + [f]) && (verdict.Complete? ==> Genuine(verdict.message, log + [f], hash))
  {
    hide Sum, KeySet, Get, Sourced, Concat;
    forall id | id in rd.messages ensures Sourced(log + [f], id, rd.messages[id]) {
      SourcedLonger(log, f, id, rd.messages[id]);
    }
    var header := HeaderOf(f.header, limits);
    if header.Pass? {
      var e := header.value;
      var chunks := Opened(rd, f.kind, e, limits);
      if chunks.Pass? {
        var c := chunks.value;
        var at, origin := OpenedSourced(rd, log, f, limits);
        GrownSourced(log, f, e.id, c, at, origin);
        ConcatGrows(c.parts, f.payload);
      }
    }
  }

  lemma OpenedSourced(rd: Reader, log: seq<Frame>, f: Frame, limits: Limits) returns (at: seq<nat>, origin: nat)
    requires Bounded(rd, limits) && AllSourced(rd, log)
    requires var h := HeaderOf(f.header, limits); h.Pass? && Opened(rd, f.kind, h.value, limits).Pass?
    ensures var e := HeaderOf(f.header, limits).value;
            var c := Opened(rd, f.kind, e, limits).value;
            && CameAt(log, e.id, c, at) && OpenedAt(log + [f], e.id, c, at, origin)
            && c.nextIndex == |c.parts| && c.received == |Concat(c.parts)|
            && (c.nextIndex == e.index ==> Carries(f, e.id, c, |c.parts|, f.payload))
  {
    hide Sum, KeySet, Get, CameAt;
    var e := HeaderOf(f.header, limits).value;
    var c := Opened(rd, f.kind, e, limits).value;
    if e.id in rd.messages {
      assert ChunksOk(c, limits) && Sourced(log, e.id, c);
      at, origin := OriginOf(log, f, e.id, c);
    } else {
      NothingCame(log, e.id, c);
      at, origin := [], |log|;
      assert (log + [f])[origin] == f && Concat([]) == [];
    }
  }

  lemma OriginOf(log: seq<Frame>, f: Frame, id: Text, c: Chunks) returns (at: seq<nat>, origin: nat)
    requires Sourced(log, id, c)
    ensures CameAt(log, id, c, at) && OpenedAt(log + [f], id, c, at, origin)
  {
    hide CameAt, Opens;
    at, origin :| CameAt(log, id, c, at) && OpenedAt(log, id, c, at, origin);
    assert (log + [f])[origin] == log[origin];
  }

  lemma NothingCame(log: seq<Frame>, id: Text, c: Chunks)
    requires c.parts == []
    ensures CameAt(log, id, c, [])
  {
  }

  /**
   Whatever frames are fed, also ones that are refused half way: the bytes held are those of the partial messages and
   stay within the message limit, the partial messages stay within theirs, and each is made of logged frames in order.
   */
  lemma {:induction false} AnyFramesAreBounded(log: seq<Frame>, hash: Bytes -> Text, limits: Limits)
    ensures Bounded(Fed(log, hash, limits), limits) && AllSourced(Fed(log, hash, limits), log)
    decreases |log|
  {
    hide Accepted;
    if log == [] {
      assert Received(EMPTY.messages) == map[];
    } else {
      var n := |log| - 1;
      AnyFramesAreBounded(log[..n], hash, limits);
      var rd := Fed(log[..n], hash, limits);
      AcceptedBounded(rd, log[n], hash, limits);
      AcceptedSourced(rd, log[..n], log[n], hash, limits);
      assert log == log[..n] + [log[n]];
    }
  }

  /** Whatever was fed before, a message that comes out is genuine. */
  lemma DeliveredIsGenuine(log: seq<Frame>, f: Frame, hash: Bytes -> Text, limits: Limits)
    requires Accepted(Fed(log, hash, limits), f, hash, limits).1.Complete?
    ensures Genuine(Accepted(Fed(log, hash, limits), f, hash, limits).1.message, log + [f], hash)
  {
    hide Accepted, Genuine;
    AnyFramesAreBounded(log, hash, limits);
    AcceptedSourced(Fed(log, hash, limits), log, f, hash, limits);
  }

  // ---------- refused frames ----------

  /** The frame is refused before it touches the reader, or its message, opened by this very frame, is dropped again. */
  ghost predicate RefusedCleanly(rd: Reader, f: Frame, limits: Limits) {
    var header := HeaderOf(f.header, limits);
    || header.Fail?
    || Opened(rd, f.kind, header.value, limits).Fail?
    || if header.value.id in rd.messages
       then header.value.index != rd.messages[header.value.id].nextIndex || rd.incomplete + |f.payload| > limits.maxMessage
       else header.value.count == 1 && rd.incomplete + |f.payload| <= limits.maxMessage && |f.payload| <= header.value.total
  }

  /** When `_accept` raises, the reader is as it was if and only if one of these holds of the frame. */
  lemma RefusalLeavesReader(rd: Reader, f: Frame, hash: Bytes -> Text, limits: Limits)
    requires Accepted(rd, f, hash, limits).1.Refused?
    ensures Accepted(rd, f, hash, limits).0 == rd <==> RefusedCleanly(rd, f, limits)
  {
    hide KeySet, Get, Concat, HeaderOf;
    var header := HeaderOf(f.header, limits);
    if header.Pass? && Opened(rd, f.kind, header.value, limits).Pass? {
      var e, c := header.value, Opened(rd, f.kind, header.value, limits).value;
      var after := Accepted(rd, f, hash, limits).0;
      if e.id in rd.messages {
        assert rd.messages[e.id := c] == rd.messages;
        assert RefusedCleanly(rd, f, limits) || e.id !in after.messages || after.messages[e.id].nextIndex == c.nextIndex + 1;
      } else if RefusedCleanly(rd, f, limits) {
        assert rd.messages[e.id := Grown(c, f.payload)] - {e.id} == rd.messages;
      } else {
        assert e.id in after.messages;
      }
    }
  }

  /**
   Two frames in a row: the payload of the first is refused, its control is not forgotten, and the second delivers a
   message that is made of both.
   */
  lemma RefusedControlSurvives(control: Fields, hash: Bytes -> Text, id: Text)
    requires |hash([7])| == 64 && |id| <= 64
    ensures var limits: Limits := Limits(1000, 2, 1, 10, 1, 1);
            var first := Frame(0, HeaderFields(id, 0, 1, 1, hash([7]), Object(control)), [1, 2]);
            var second := Frame(0, HeaderFields(id, 0, 1, 1, hash([7]), Null), [7]);
            var (rd, verdict) := Accepted(EMPTY, first, hash, limits);
            && verdict == Refused(AggregateTooLarge) && rd != EMPTY
            && Accepted(rd, second, hash, limits) == (EMPTY, Complete(Message(0, control, [7])))
  {
    hide KeySet, Get, HeaderFields;
    HeaderKeys(id, 0, 1, 1, hash([7]), Object(control));
    HeaderKeys(id, 0, 1, 1, hash([7]), Null);
    var c := Chunks(0, control, 1, 1, hash([7]), 0, [], 0);
    assert Concat([[7]]) == [7];
    assert map[id := Grown(c, [7])] - {id} == map[];
  }
}
