/** The provider's call log, and the reference behaviour of a hasher as a function of
    the calls made on it. */
module HashLog {
  import opened JavaBytes

  /** The type annotation of a log entry: which hasher operation wrote it. */
  datatype Tag = Update | Digest

  /** One log entry: the operation's tag and its bytes, each as an unsigned 0..255 integer. */
  datatype LogEntry = LogEntry(tag: Tag, values: seq<int>)

  /** One call made on a hasher, with the bytes passed to `update`. */
  datatype Call = UpdateCall(bytes: seq<Byte>) | DigestCall

  /** The concatenation of `chunks`, in order. */
  function Flatten(chunks: seq<seq<Byte>>): seq<Byte>
  {
    if chunks == [] then [] else chunks[0] + Flatten(chunks[1..])
  }

  /** The calls `update(c)` for each `c` of `chunks`, in order. */
  function Updates(chunks: seq<seq<Byte>>): (calls: seq<Call>)
    ensures |calls| == |chunks|
    ensures forall i :: 0 <= i < |calls| ==> calls[i] == UpdateCall(chunks[i])
  {
    if chunks == [] then [] else [UpdateCall(chunks[0])] + Updates(chunks[1..])
  }

  /** The bytes a hasher holds after `history`: each `update` appends its bytes and each
      `digest` starts afresh. */
  function Pending(history: seq<Call>): seq<Byte>
  {
    if history == [] then []
    else match history[|history| - 1]
      case DigestCall => []
      case UpdateCall(bytes) => Pending(history[..|history| - 1]) + bytes
  }

  /** The arguments of the `update` calls made after the last `digest` of `history`
      (or since the start, if there was none). */
  function SinceLastDigest(history: seq<Call>): seq<seq<Byte>>
  {
    if history == [] then []
    else match history[|history| - 1]
      case DigestCall => []
      case UpdateCall(bytes) => SinceLastDigest(history[..|history| - 1]) + [bytes]
  }

  /** The number of `digest` calls in `history`. */
  function DigestCount(history: seq<Call>): nat
  {
    if history == [] then 0
    else DigestCount(history[..|history| - 1]) + (if history[|history| - 1].DigestCall? then 1 else 0)
  }

  /** The log an identity hasher writes for `history`: one `update` entry with the input,
      and one `digest` entry with the bytes accumulated so far, per call. */
  function IdentityTrace(history: seq<Call>): seq<LogEntry>
  {
    if history == [] then []
    else
      var before := history[..|history| - 1];
      IdentityTrace(before) +
        match history[|history| - 1]
        case UpdateCall(bytes) => [LogEntry(Update, Payload(bytes))]
        case DigestCall => [LogEntry(Digest, Payload(Pending(before)))]
  }

  /** The log a hasher for `algorithm` writes for `history`, when `digest` stands for the
      platform's message digests: nothing per `update`, and per `digest` one entry with
      the hash of the bytes fed since the previous one. */
  function DigestTrace(digest: (string, seq<Byte>) -> seq<Byte>, algorithm: string, history: seq<Call>): seq<LogEntry>
  {
    if history == [] then []
    else
      var before := history[..|history| - 1];
      DigestTrace(digest, algorithm, before) +
        match history[|history| - 1]
        case UpdateCall(_) => []
        case DigestCall => [LogEntry(Digest, Payload(digest(algorithm, Pending(before))))]
  }

  lemma {:induction false} FlattenAppend(chunks: seq<seq<Byte>>, last: seq<Byte>)
    ensures Flatten(chunks + [last]) == Flatten(chunks) + last
  {
    if chunks == [] {
      assert [last][1..] == [];
    } else {
      assert (chunks + [last])[1..] == chunks[1..] + [last];
      FlattenAppend(chunks[1..], last);
    }
  }

  /** What a hasher holds is exactly the concatenation, in order, of the `update`
      arguments since the last `digest`. */
  lemma {:induction false} PendingIsSinceLastDigest(history: seq<Call>)
    ensures Pending(history) == Flatten(SinceLastDigest(history))
  {
    if history != [] {
      var before := history[..|history| - 1];
      match history[|history| - 1]
      case DigestCall =>
      case UpdateCall(bytes) =>
        PendingIsSinceLastDigest(before);
        FlattenAppend(SinceLastDigest(before), bytes);
    }
  }

  /** From a fresh hasher, or right after a `digest`, the updates `chunks` leave the
      hasher holding their concatenation `chunks[0] + chunks[1] + ...`. */
  lemma {:induction false} PendingAfterUpdates(start: seq<Call>, chunks: seq<seq<Byte>>)
    requires start == [] || start[|start| - 1] == DigestCall
    ensures Pending(start + Updates(chunks)) == Flatten(chunks)
  {
    if chunks == [] {
      assert start + Updates(chunks) == start;
    } else {
      var init := chunks[..|chunks| - 1];
      var last := chunks[|chunks| - 1];
      assert chunks == init + [last];
      assert Updates(chunks) == Updates(init) + [UpdateCall(last)];
      assert start + Updates(chunks) == (start + Updates(init)) + [UpdateCall(last)];
      PendingAfterUpdates(start, init);
      FlattenAppend(init, last);
    }
  }

  /** A `digest` resets the hasher: it holds no bytes afterwards, so a second `digest`
      straight after it returns, and logs, the empty sequence. */
  lemma DigestResets(history: seq<Call>)
    ensures Pending(history + [DigestCall]) == []
    ensures |IdentityTrace(history + [DigestCall, DigestCall])| == |history| + 2
    ensures IdentityTrace(history + [DigestCall, DigestCall])[|history| + 1] == LogEntry(Digest, [])
  {
    var twice := history + [DigestCall, DigestCall];
    assert twice[..|twice| - 1] == history + [DigestCall];
    IdentityTraceShape(twice[..|twice| - 1]);
  }

  /** The identity log has one entry per call, in call order: `update(b)` is logged with
      `b` and `digest` with what it returned, the bytes accumulated before it. */
  lemma {:induction false} IdentityTraceShape(history: seq<Call>)
    ensures |IdentityTrace(history)| == |history|
    ensures forall i :: 0 <= i < |history| ==>
      IdentityTrace(history)[i] ==
        match history[i]
        case UpdateCall(bytes) => LogEntry(Update, Payload(bytes))
        case DigestCall => LogEntry(Digest, Payload(Pending(history[..i])))
  {
    if history != [] {
      var before := history[..|history| - 1];
      IdentityTraceShape(before);
      forall i | 0 <= i < |before|
        ensures before[..i] == history[..i]
      {
      }
    }
  }

  /** The digest-backed log holds only `digest` entries, exactly one per `digest` call. */
  lemma {:induction false} DigestTraceShape(digest: (string, seq<Byte>) -> seq<Byte>, algorithm: string, history: seq<Call>)
    ensures |DigestTrace(digest, algorithm, history)| == DigestCount(history)
    ensures forall i :: 0 <= i < |DigestTrace(digest, algorithm, history)| ==>
      DigestTrace(digest, algorithm, history)[i].tag == Digest
  {
    if history != [] {
      DigestTraceShape(digest, algorithm, history[..|history| - 1]);
    }
  }
}
