/** The reader threads of a capture: how much they buffer and what they report. */
module Capture {
  import opened Options
  import opened Utf8

  const STREAM_LIMIT := 4 * 1024 * 1024

  /** One read of the pipe: some bytes, none at the end of the stream. */
  datatype Read = Bytes(bytes: string) | Fault

  datatype Failure = Overflow | ReadFailed | InvalidUtf8

  /** The code stored for the collecting thread. */
  function Code(f: Failure): nat {
    match f
    case Overflow => 1
    case ReadFailed => 2
    case InvalidUtf8 => 3
  }

  datatype Report = StillReading | Text(text: string) | Failed(failure: Failure)

  /** The first `k` reads all brought bytes. */
  predicate Brings(input: seq<Read>, k: nat)
    requires k <= |input|
  {
    forall i :: 0 <= i < k ==> input[i].Bytes? && input[i].bytes != []
  }

  function Total(input: seq<Read>, k: nat): string
    requires k <= |input| && Brings(input, k)
  {
    if k == 0 then [] else Total(input, k - 1) + input[k - 1].bytes
  }

  /** The reader stops at the first read that is not more bytes within the limit, and what
      that read is decides its report. */
  ghost predicate Reports(input: seq<Read>, k: nat, r: Report) {
    && k <= |input| && Brings(input, k) && |Total(input, k)| <= STREAM_LIMIT
    && if k == |input| then r == StillReading
       else if input[k].Fault? then r == Failed(ReadFailed)
       else if input[k].bytes == [] then
         r == if Valid(Total(input, k)) then Text(Total(input, k)) else Failed(InvalidUtf8)
       else r == Failed(Overflow) && |Total(input, k)| + |input[k].bytes| > STREAM_LIMIT
  }

  /** `capture_reader`, on the reads it will see; `buffered` is the most it ever holds. */
  method ReadStream(pipe: Option<seq<Read>>) returns (r: Report, failed: nat, buffered: nat, ghost k: nat)
    ensures buffered <= STREAM_LIMIT
    ensures pipe.None? ==> r == Failed(ReadFailed) && buffered == 0
    ensures pipe.Some? ==> Reports(pipe.value, k, r) && buffered == |Total(pipe.value, k)|
    ensures failed == if r.Failed? then Code(r.failure) else 0
  {
    k, buffered, failed := 0, 0, 0;
    if pipe.None? {
      r, failed := Failed(ReadFailed), Code(ReadFailed);
      return;
    }
    var input, bytes := pipe.value, [];
    var i := 0;
    r := StillReading;
    while i < |input|
      invariant i <= |input| && k == i && Brings(input, i) && bytes == Total(input, i) && |bytes| <= STREAM_LIMIT
      invariant r == StillReading && failed == 0
    {
      buffered := |bytes|;
      if input[i].Fault? {
        r, failed := Failed(ReadFailed), Code(ReadFailed);
        return;
      }
      if input[i].bytes == [] {
        if Valid(bytes) {
          r := Text(bytes);
        } else {
          r, failed := Failed(InvalidUtf8), Code(InvalidUtf8);
        }
        return;
      }
      if |bytes| + |input[i].bytes| > STREAM_LIMIT {
        r, failed := Failed(Overflow), Code(Overflow);
        return;
      }
      bytes := bytes + input[i].bytes;
      i, k := i + 1, k + 1;
    }
    buffered := |bytes|;
  }

  lemma {:induction false} TotalGrows(input: seq<Read>, i: nat, k: nat)
    requires i < k <= |input| && Brings(input, k)
    ensures |Total(input, i)| + |input[i].bytes| <= |Total(input, k)|
  {
    if i + 1 < k {
      TotalGrows(input, i, k - 1);
    }
  }

  /** The reads leave no choice of where the reader stops and what it reports. */
  lemma ReportUnique(input: seq<Read>, j: nat, q: Report, k: nat, r: Report)
    requires Reports(input, j, q) && Reports(input, k, r)
    ensures j == k && q == r
  {
    if j < k {
      TotalGrows(input, j, k);
    } else if k < j {
      TotalGrows(input, k, j);
    }
  }
}
