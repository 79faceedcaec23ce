/** The worker's side of a request: deadpool/remote/_worker.py and the limited writer of deadpool/remote/serializer.py. */
module Worker {
  import opened ByteStrings
  import B = BrokerState

  /** What the application code does when the invocation is run, and how its value serialises. */
  datatype Materialized = Unknown | Raises | Returns

  /** The chunks a pickler writes for a value, and whether it fails by itself after them. */
  datatype Pickling = Pickling(chunks: seq<Bytes>, fails: bool)

  function Written(chunks: seq<Bytes>): Bytes {
    if chunks == [] then [] else chunks[0] + Written(chunks[1..])
  }

  class LimitedWriter {
    const limit: nat
    var buffer: Bytes

    constructor (limit: nat)
      ensures this.limit == limit && buffer == []
    {
      this.limit := limit;
      buffer := [];
    }

    /** `write`: refuse a chunk that would exceed the limit before keeping any of it. */
    method Write(chunk: Bytes) returns (ok: bool)
      requires |buffer| <= limit
      modifies this
      ensures |buffer| <= limit && ok == (|old(buffer)| + |chunk| <= limit)
      ensures buffer == if ok then old(buffer) + chunk else old(buffer)
    {
      if |buffer| + |chunk| > limit { return false; }
      buffer := buffer + chunk;
      return true;
    }
  }

  datatype Dump = Dumped(payload: Bytes) | LimitExceeded | Unserialisable

  /** The whole output fits: every prefix of it does. */
  lemma {:induction false} PrefixFits(chunks: seq<Bytes>, k: nat)
    requires k <= |chunks|
    ensures |Written(chunks[..k])| <= |Written(chunks)|
    ensures Written(chunks) == Written(chunks[..k]) + Written(chunks[k..])
    decreases k
  {
    if k > 0 {
      PrefixFits(chunks[1..], k - 1);
      assert chunks[..k][1..] == chunks[1..][..k - 1] && chunks[k..] == chunks[1..][k - 1..];
    } else {
      assert chunks[..0] == [] && chunks[0..] == chunks;
    }
  }

  /** `dumps(value, limit=limit)`: the output is the whole value and within the limit, or there is none. */
  method Dumps(value: Pickling, limit: nat) returns (dump: Dump)
    ensures dump.Dumped? <==> |Written(value.chunks)| <= limit && !value.fails
    ensures dump.Dumped? ==> dump.payload == Written(value.chunks)
    ensures dump.LimitExceeded? <==> |Written(value.chunks)| > limit
  {
    var writer := new LimitedWriter(limit);
    for i := 0 to |value.chunks|
      invariant |writer.buffer| <= limit && writer.limit == limit && fresh(writer)
      invariant writer.buffer == Written(value.chunks[..i])
    {
      var last: seq<Bytes> := [value.chunks[i]];
      PrefixFits(value.chunks, i + 1);
      PrefixFits(value.chunks[..i + 1], i);
      assert value.chunks[..i + 1][..i] == value.chunks[..i] && value.chunks[..i + 1][i..] == last;
      assert last[1..] == [];
      var ok := writer.Write(value.chunks[i]);
      if !ok { return LimitExceeded; }
    }
    assert value.chunks[..|value.chunks|] == value.chunks;
    if value.fails { return Unserialisable; }
    return Dumped(writer.buffer);
  }

  /** `execute_opaque`, for what the code does and how the error or the result pickles: the broker may take any outcome of it. */
  method ExecuteOpaque(run: Materialized, error: Pickling, result: Pickling, limit: nat, describe: string)
    returns (outcome: B.Outcome)
    ensures outcome.Returned? && |outcome.payload| <= limit
    ensures forall s: B.Broker, a: B.AttemptId ::
              s.Att(a).phase == B.Phase.Claimed && s.Rec(s.Att(a).record).reserved == limit ==> B.Permitted(s, a, outcome)
    ensures outcome.verdict == if !run.Returns? then B.TaskFailed
                               else if |Written(result.chunks)| > limit then B.ResultTooLarge
                               else if result.fails then B.ResultEncodingFailed
                               else B.Succeeded
    ensures outcome.payload == if run.Returns? && |Written(result.chunks)| <= limit && !result.fails then Written(result.chunks)
                               else if !run.Returns? && |Written(error.chunks)| <= limit && !error.fails then Written(error.chunks)
                               else []
  {
    if !run.Returns? {
      var dump := Dumps(error, limit);
      return B.Returned(B.TaskFailed, describe, if dump.Dumped? then dump.payload else []);
    }
    var dump := Dumps(result, limit);
    match dump
    case LimitExceeded => return B.Returned(B.ResultTooLarge, describe, []);
    case Unserialisable => return B.Returned(B.ResultEncodingFailed, describe, []);
    case Dumped(payload) => return B.Returned(B.Succeeded, describe, payload);
  }
}
