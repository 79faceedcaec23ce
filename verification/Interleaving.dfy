/** Any interleaving of the frames of several messages gives every message back, each at its last frame. */
module Interleaving {
  import opened Sums
  import opened ByteStrings
  import opened Json
  import opened Protocol
  import opened Reassembly

  // ---------- chunks put together again ----------

  lemma {:induction false} ConcatBoth(a: seq<Bytes>, b: seq<Bytes>)
    ensures Concat(a + b) == Concat(a) + Concat(b)
    decreases |b|
  {
    if b == [] {
      assert a + b == a;
    } else {
      var n := |b| - 1;
      assert (a + b)[..|a| + n] == a + b[..n];
      ConcatBoth(a, b[..n]);
    }
  }

  lemma {:induction false} SplitConcat(payload: Bytes, size: nat)
    requires size > 0
    ensures Concat(Split(payload, size)) == payload
    decreases |payload|
  {
    if |payload| <= size {
      assert Concat([payload]) == Concat([]) + payload;
    } else {
      SplitConcat(payload[size..], size);
      ConcatBoth([payload[..size]], Split(payload[size..], size));
      assert Concat([payload[..size]]) == Concat([]) + payload[..size];
    }
  }

  lemma PrefixLength(payload: Bytes, size: nat, k: nat)
    requires size > 0 && k <= |Split(payload, size)|
    ensures |Concat(Split(payload, size)[..k])| <= |payload|
  {
    var chunks := Split(payload, size);
    SplitConcat(payload, size);
    ConcatBoth(chunks[..k], chunks[k..]);
    assert chunks == chunks[..k] + chunks[k..];
  }

  // ---------- the state between two frames ----------

  datatype Traffic = Traffic(messages: map<Text, Message>, hash: Bytes -> Text, limits: Limits)
  {
    function Chunk(id: Text): seq<Bytes>
      requires id in messages
    {
      Split(messages[id].payload, limits.maxFramePayload)
    }
  }

  type Progress = map<Text, nat>

  /** What the sender checks of each message, and the reader of its id and digest. */
  ghost predicate Sendables(t: Traffic) {
    forall id :: id in t.messages ==>
      && |id| <= 64 && |t.hash(t.messages[id].payload)| == 64 && Sendable(|t.messages[id].payload|, t.limits)
  }

  ghost predicate InStep(t: Traffic, p: Progress) {
    p.Keys == t.messages.Keys && forall id :: id in t.messages ==> p[id] <= |t.Chunk(id)|
  }

  function Partial(t: Traffic, id: Text, k: nat): Chunks
    requires id in t.messages && k <= |t.Chunk(id)|
  {
    var m := t.messages[id];
    Chunks(m.kind, m.control, |t.Chunk(id)|, |m.payload|, t.hash(m.payload), k, t.Chunk(id)[..k], |Concat(t.Chunk(id)[..k])|)
  }

  /** The messages of which some but not all frames have arrived. */
  ghost function Between(t: Traffic, p: Progress): map<Text, Chunks>
    requires InStep(t, p)
  {
    map id | id in t.messages && 0 < p[id] < |t.Chunk(id)| :: Partial(t, id, p[id])
  }

  ghost function StateOf(t: Traffic, p: Progress): Reader
    requires InStep(t, p)
  {
    Reader(Between(t, p), Sum(Received(Between(t, p))))
  }

  /** The next frame of `id` may come: both limits of the reader leave room for it. */
  ghost predicate MayCome(t: Traffic, p: Progress, id: Text)
    requires InStep(t, p)
  {
    && id in t.messages && p[id] < |t.Chunk(id)|
    && (p[id] == 0 ==> |Between(t, p)| < t.limits.maxIncomplete)
    && Sum(Received(Between(t, p))) + |t.Chunk(id)[p[id]]| <= t.limits.maxMessage
  }

  function NextFrame(t: Traffic, p: Progress, id: Text): Frame
    requires id in t.messages && id in p && p[id] < |t.Chunk(id)|
  {
    FrameOf(id, t.messages[id], t.hash(t.messages[id].payload), t.limits, p[id])
  }

  // ---------- one frame ----------

  lemma HeaderAccepted(t: Traffic, id: Text, index: nat)
    requires Sendables(t) && id in t.messages && index < |t.Chunk(id)|
    ensures var m := t.messages[id];
            HeaderOf(FrameOf(id, m, t.hash(m.payload), t.limits, index).header, t.limits)
            == Pass(Envelope(id, index, |t.Chunk(id)|, |m.payload|, t.hash(m.payload), if index == 0 then Object(m.control) else Null))
  {
    var m := t.messages[id];
    KeysDistinct();
    SplitCount(m.payload, t.limits);
    HeaderKeys(id, index, |t.Chunk(id)|, |m.payload|, t.hash(m.payload), if index == 0 then Object(m.control) else Null);
  }

  lemma PartialGrows(t: Traffic, id: Text, k: nat)
    requires id in t.messages && k < |t.Chunk(id)|
    ensures Grown(Partial(t, id, k), t.Chunk(id)[k]) == Partial(t, id, k + 1)
    ensures Partial(t, id, k + 1).received <= |t.messages[id].payload|
    ensures k + 1 == |t.Chunk(id)| ==> Concat(Partial(t, id, k + 1).parts) == t.messages[id].payload
  {
    var chunks := t.Chunk(id);
    ConcatGrows(chunks[..k], chunks[k]);
    assert chunks[..k + 1] == chunks[..k] + [chunks[k]];
    PrefixLength(t.messages[id].payload, t.limits.maxFramePayload, k + 1);
    SplitConcat(t.messages[id].payload, t.limits.maxFramePayload);
    assert chunks[..|chunks|] == chunks;
  }

  lemma BetweenNext(t: Traffic, p: Progress, id: Text)
    requires InStep(t, p) && id in t.messages && p[id] < |t.Chunk(id)|
    ensures InStep(t, p[id := p[id] + 1])
    ensures var b, c := Between(t, p), Between(t, p[id := p[id] + 1]);
            if p[id] + 1 < |t.Chunk(id)| then c == b[id := Partial(t, id, p[id] + 1)]
            else c == b[id := Partial(t, id, p[id] + 1)] - {id}
  {
    hide Partial, Split;
  }

  lemma OpenedBetween(t: Traffic, p: Progress, id: Text)
    requires InStep(t, p) && MayCome(t, p, id) && Sendables(t)
    ensures var f := NextFrame(t, p, id);
            var h := HeaderOf(f.header, t.limits);
            && h.Pass? && h.value.id == id && h.value.index == p[id]
            && Opened(StateOf(t, p), f.kind, h.value, t.limits) == Pass(Partial(t, id, p[id]))
  {
    HeaderAccepted(t, id, p[id]);
    assert Concat([]) == [];
    assert t.Chunk(id)[..0] == [];
  }

  /** One more frame of `id` moves the reader to the next state, and gives the message back if it was the last. */
  lemma FrameArrives(t: Traffic, p: Progress, id: Text)
    requires InStep(t, p) && MayCome(t, p, id) && Sendables(t)
    ensures InStep(t, p[id := p[id] + 1])
    ensures Accepted(StateOf(t, p), NextFrame(t, p, id), t.hash, t.limits) ==
            (StateOf(t, p[id := p[id] + 1]), if p[id] + 1 == |t.Chunk(id)| then Complete(t.messages[id]) else Waiting)
  {
    hide HeaderOf, Opened, NextFrame, Appended, Sum, Received, Between, Partial;
    OpenedBetween(t, p, id);
    FramePayload(t, p, id);
    BetweenNext(t, p, id);
    PayloadAppended(t, p, id);
  }

  lemma PayloadAppended(t: Traffic, p: Progress, id: Text)
    requires InStep(t, p) && MayCome(t, p, id) && Sendables(t) && InStep(t, p[id := p[id] + 1])
    ensures Appended(Reader(Between(t, p)[id := Partial(t, id, p[id])], Sum(Received(Between(t, p)))), id, p[id], t.Chunk(id)[p[id]],
                     t.hash, t.limits) ==
            (StateOf(t, p[id := p[id] + 1]), if p[id] + 1 == |t.Chunk(id)| then Complete(t.messages[id]) else Waiting)
  {
    hide Concat, Sum, Received, Between, Appended, Partial, Grown, Split, Sendables;
    var c, b, g := Partial(t, id, p[id]), Between(t, p), Partial(t, id, p[id] + 1);
    PartialGrows(t, id, p[id]);
    PartialFields(t, id, p[id]);
    PartialFields(t, id, p[id] + 1);
    BetweenNext(t, p, id);
    ArrivedSum(t, p, id);
    ReceivedUpdate(b, id, g);
    WholeReceived(t, id);
    assert b[id := c][id := g] == b[id := g];
    AppendedCases(Reader(b[id := c], Sum(Received(b))), id, p[id], t.Chunk(id)[p[id]], t.hash, t.limits);
    if p[id] + 1 == |t.Chunk(id)| { ReceivedRemove(b[id := g], id); }
  }

  /** What is added to a partial message that takes it: it goes on, or it is whole and the message is given out. */
  lemma AppendedCases(rd: Reader, id: Text, index: nat, payload: Bytes, hash: Bytes -> Text, limits: Limits)
    requires id in rd.messages && rd.messages[id].nextIndex == index && rd.incomplete + |payload| <= limits.maxMessage
    requires rd.messages[id].received + |payload| <= rd.messages[id].total
    ensures var g := Grown(rd.messages[id], payload);
            var more := Reader(rd.messages[id := g], rd.incomplete + |payload|);
            Appended(rd, id, index, payload, hash, limits) ==
              if index + 1 != g.count then (more, Waiting)
              else
                (Reader(more.messages - {id}, more.incomplete - g.received),
                 if g.received != g.total then Refused(WrongLength)
                 else if hash(Concat(g.parts)) != g.digest then Refused(WrongDigest)
                 else Complete(Message(g.kind, g.control, Concat(g.parts))))
  {
    hide Concat;
  }

  lemma PartialFields(t: Traffic, id: Text, k: nat)
    requires id in t.messages && k <= |t.Chunk(id)|
    ensures var c, m := Partial(t, id, k), t.messages[id];
            && c.nextIndex == k && c.count == |t.Chunk(id)| && c.total == |m.payload| && c.digest == t.hash(m.payload)
            && c.kind == m.kind && c.control == m.control
            && (k < |t.Chunk(id)| ==> Grown(c, t.Chunk(id)[k]).received == c.received + |t.Chunk(id)[k]|)
  {
  }

  lemma WholeReceived(t: Traffic, id: Text)
    requires id in t.messages
    ensures Partial(t, id, |t.Chunk(id)|).received == |t.messages[id].payload|
  {
    SplitConcat(t.messages[id].payload, t.limits.maxFramePayload);
    assert t.Chunk(id)[..|t.Chunk(id)|] == t.Chunk(id);
  }

  lemma FramePayload(t: Traffic, p: Progress, id: Text)
    requires id in t.messages && id in p && p[id] < |t.Chunk(id)|
    ensures NextFrame(t, p, id).payload == t.Chunk(id)[p[id]] && NextFrame(t, p, id).kind == t.messages[id].kind
  {
  }

  lemma ArrivedSum(t: Traffic, p: Progress, id: Text)
    requires InStep(t, p) && id in t.messages && p[id] < |t.Chunk(id)|
    ensures var b := Between(t, p);
            && (id in b ==> b[id] == Partial(t, id, p[id]))
            && (id !in b ==> p[id] == 0 && Partial(t, id, p[id]).received == 0)
            && Partial(t, id, p[id] + 1).received == Partial(t, id, p[id]).received + |t.Chunk(id)[p[id]]|
  {
    PartialGrows(t, id, p[id]);
    assert t.Chunk(id)[..0] == [] && Concat([]) == [];
  }

  // ---------- whole schedules ----------

  /** The ids in the order in which their next frames arrive. */
  type Schedule = seq<Text>

  ghost predicate Admissible(t: Traffic, p: Progress, schedule: Schedule)
    decreases |schedule|
  {
    InStep(t, p) &&
    (schedule == [] ||
     (MayCome(t, p, schedule[0]) && Admissible(t, p[schedule[0] := p[schedule[0]] + 1], schedule[1..])))
  }

  /** Nothing is left to come after the schedule. */
  ghost predicate Exhausts(t: Traffic, p: Progress, schedule: Schedule)
    requires Admissible(t, p, schedule)
    decreases |schedule|
  {
    if schedule == [] then forall id :: id in t.messages ==> p[id] == |t.Chunk(id)|
    else Exhausts(t, p[schedule[0] := p[schedule[0]] + 1], schedule[1..])
  }

  ghost function Arriving(t: Traffic, p: Progress, schedule: Schedule): seq<Frame>
    requires Admissible(t, p, schedule)
    decreases |schedule|
  {
    if schedule == [] then []
    else [NextFrame(t, p, schedule[0])] + Arriving(t, p[schedule[0] := p[schedule[0]] + 1], schedule[1..])
  }

  /** Feeding frames one by one: the reader at the end and what came of each frame. */
  ghost function Feed(rd: Reader, frames: seq<Frame>, hash: Bytes -> Text, limits: Limits): (Reader, seq<Verdict>)
    decreases |frames|
  {
    if frames == [] then (rd, [])
    else
      var (next, verdict) := Accepted(rd, frames[0], hash, limits);
      var (last, verdicts) := Feed(next, frames[1..], hash, limits);
      (last, [verdict] + verdicts)
  }

  /** A message's frames are all still to come, and then it comes up in the schedule as often as it has frames left. */
  lemma {:induction false} ComesAgain(t: Traffic, p: Progress, schedule: Schedule, id: Text)
    requires Admissible(t, p, schedule) && Exhausts(t, p, schedule) && id in t.messages
    ensures id in schedule <==> p[id] < |t.Chunk(id)|
    decreases |schedule|
  {
    if schedule != [] {
      ComesAgain(t, p[schedule[0] := p[schedule[0]] + 1], schedule[1..], id);
    }
  }

  /** What comes of the frames of a schedule: a message at the last frame of its id, nothing at the others. */
  ghost predicate DeliveredInTurn(t: Traffic, schedule: Schedule, verdicts: seq<Verdict>) {
    && |verdicts| == |schedule|
    && forall i :: 0 <= i < |schedule| ==>
         schedule[i] in t.messages && verdicts[i] == VerdictAt(t, schedule, i)
  }

  ghost function VerdictAt(t: Traffic, schedule: Schedule, i: nat): Verdict
    requires i < |schedule| && schedule[i] in t.messages
  {
    if schedule[i] in schedule[i + 1..] then Waiting else Complete(t.messages[schedule[i]])
  }

  lemma DeliveredAfter(t: Traffic, schedule: Schedule, verdicts: seq<Verdict>)
    requires schedule != [] && verdicts != [] && schedule[0] in t.messages && DeliveredInTurn(t, schedule[1..], verdicts[1..])
    requires verdicts[0] == if schedule[0] in schedule[1..] then Waiting else Complete(t.messages[schedule[0]])
    ensures DeliveredInTurn(t, schedule, verdicts)
  {
    forall i | 0 <= i < |schedule| ensures schedule[i] in t.messages && verdicts[i] == VerdictAt(t, schedule, i) {
      if i > 0 {
        assert schedule[1..][i - 1] in t.messages && verdicts[1..][i - 1] == VerdictAt(t, schedule[1..], i - 1);
        assert schedule[1..][i..] == schedule[i + 1..];
      }
    }
  }

  lemma {:induction false} FeedFrom(t: Traffic, p: Progress, schedule: Schedule)
    requires Sendables(t) && Admissible(t, p, schedule) && Exhausts(t, p, schedule)
    ensures var (last, verdicts) := Feed(StateOf(t, p), Arriving(t, p, schedule), t.hash, t.limits);
            last == EMPTY && DeliveredInTurn(t, schedule, verdicts)
    decreases |schedule|
  {
    hide Accepted, MayCome, StateOf, DeliveredInTurn, NextFrame, Sendables;
    if schedule == [] {
      NothingBetween(t, p);
      NothingDelivered(t);
    } else {
      var id := schedule[0];
      var next := p[id := p[id] + 1];
      KnownId(t, p, id);
      FrameArrives(t, p, id);
      FeedFrom(t, next, schedule[1..]);
      ComesAgain(t, next, schedule[1..], id);
      var frames := Arriving(t, p, schedule);
      assert frames[0] == NextFrame(t, p, id) && frames[1..] == Arriving(t, next, schedule[1..]);
      var (last, verdicts) := Feed(StateOf(t, p), frames, t.hash, t.limits);
      var rest := Feed(StateOf(t, next), frames[1..], t.hash, t.limits);
      assert verdicts[1..] == rest.1;
      DeliveredAfter(t, schedule, verdicts);
    }
  }

  lemma NothingDelivered(t: Traffic)
    ensures DeliveredInTurn(t, [], [])
  {
  }

  lemma NothingBetween(t: Traffic, p: Progress)
    requires InStep(t, p) && forall id :: id in t.messages ==> p[id] == 0 || p[id] == |t.Chunk(id)|
    ensures StateOf(t, p) == EMPTY
  {
    assert Between(t, p) == map[];
    assert Received(map[]) == map[];
  }

  lemma KnownId(t: Traffic, p: Progress, id: Text)
    requires InStep(t, p) && MayCome(t, p, id)
    ensures id in t.messages && id in p && p[id] < |t.Chunk(id)|
  {
  }

  /** No frame has arrived yet. */
  ghost function Fresh(t: Traffic): Progress {
    map id | id in t.messages :: 0
  }

  /**
   The interleaved round trip: the frames of any messages, in any order that keeps each message's own and the reader's
   two limits, raise nothing, give each message back exactly and exactly at its last frame, and leave the reader empty.
   */
  lemma InterleavedRoundTrip(t: Traffic, schedule: Schedule)
    requires Sendables(t) && Admissible(t, Fresh(t), schedule) && Exhausts(t, Fresh(t), schedule)
    ensures var (last, verdicts) := Feed(EMPTY, Arriving(t, Fresh(t), schedule), t.hash, t.limits);
            last == EMPTY && DeliveredInTurn(t, schedule, verdicts)
    ensures forall id :: id in t.messages ==> id in schedule
  {
    hide Sendables, StateOf, DeliveredInTurn, Feed, Arriving, Exhausts;
    FreshInStep(t);
    NothingBetween(t, Fresh(t));
    FeedFrom(t, Fresh(t), schedule);
    forall id | id in t.messages ensures id in schedule { ComesAgain(t, Fresh(t), schedule, id); }
  }

  lemma FreshInStep(t: Traffic)
    ensures InStep(t, Fresh(t)) && forall id :: id in t.messages ==> Fresh(t)[id] == 0 < |t.Chunk(id)|
  {
  }
}
