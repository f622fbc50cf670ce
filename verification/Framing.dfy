/** Newline framing of the peer's byte stream, read in chunks of any size. */
module Framing {
  import opened Common
  import opened Journal

  const MAX_LINE_BYTES := 1024 * 1024
  const MAX_CHUNK := 65536

  datatype ReadError = Deadline | Framing

  /** Index of the first LF from i on, or the length when there is none. */
  function LfFrom(s: seq<byte>, i: nat): (k: nat)
    requires i <= |s|
    ensures i <= k <= |s|
    ensures forall j :: i <= j < k ==> s[j] != LF
    ensures k < |s| ==> s[k] == LF
    decreases |s| - i
  {
    if i == |s| || s[i] == LF then i else LfFrom(s, i + 1)
  }

  function LfAt(s: seq<byte>): (k: nat)
    ensures k <= |s|
    ensures forall j :: 0 <= j < k ==> s[j] != LF
    ensures k < |s| ==> s[k] == LF
  {
    LfFrom(s, 0)
  }

  /** The next line of `s`, LF included, when it is complete and within the limit. */
  function Frame(s: seq<byte>): Option<seq<byte>> {
    var k := LfAt(s);
    if k < |s| && k + 1 <= MAX_LINE_BYTES then Some(s[..k + 1]) else None
  }

  /** All LF-terminated lines of `s`, in order, LF included: the plain reading of a byte stream. */
  function KeepLines(s: seq<byte>): seq<seq<byte>>
    decreases |s|
  {
    var k := LfAt(s);
    if k == |s| then [] else [s[..k + 1]] + KeepLines(s[k + 1..])
  }

  /** What is left of `s` after its first n lines. */
  function Remaining(s: seq<byte>, n: nat): seq<byte>
    decreases n
  {
    if n == 0 || LfAt(s) == |s| then s else Remaining(s[LfAt(s) + 1..], n - 1)
  }

  lemma {:induction false} RemainingLines(s: seq<byte>, n: nat)
    requires n <= |KeepLines(s)|
    ensures KeepLines(Remaining(s, n)) == KeepLines(s)[n..]
    decreases n
  {
    if n > 0 {
      var k := LfAt(s);
      RemainingLines(s[k + 1..], n - 1);
      DropCons(s[..k + 1], KeepLines(s[k + 1..]), n);
    }
  }

  lemma {:induction false} RemainingNext(s: seq<byte>, n: nat)
    requires n < |KeepLines(s)|
    ensures LfAt(Remaining(s, n)) < |Remaining(s, n)|
    ensures Remaining(s, n + 1) == Remaining(s, n)[LfAt(Remaining(s, n)) + 1..]
    decreases n
  {
    if n > 0 {
      RemainingNext(s[LfAt(s) + 1..], n - 1);
    }
  }

  /** Exactly the first n lines of the stream have been consumed. */
  predicate AtLine(stream: seq<byte>, n: nat, rest: seq<byte>) {
    n <= |KeepLines(stream)| && rest == Remaining(stream, n)
  }

  /** Framing fails exactly when no complete line is left or the next one is over the limit. */
  lemma FrameFailsIff(s: seq<byte>)
    ensures Frame(s).None? <==> KeepLines(s) == [] || |KeepLines(s)[0]| > 1024 * 1024
  {
  }

  /** The reading half of the session: a pipe the peer fills and a buffer of bytes not yet consumed. */
  class Reader {
    var pipe: seq<byte>            // what the peer has yet to deliver before it closes the pipe
    var buffer: seq<byte>          // received but not yet consumed
    const prompt: nat -> bool      // is the pipe readable before the deadline at the k-th wait?
    var waits: nat
    ghost var consumed: seq<byte>
    ghost const stream: seq<byte>  // everything the peer ever writes
    ghost var frames: nat          // lines returned so far

    /** Consumed bytes, buffered bytes and bytes still in the pipe are the whole stream, in order. */
    ghost predicate Valid()
      reads this
    {
      consumed + (buffer + pipe) == stream && |buffer| <= MAX_LINE_BYTES + 1
    }

    /** What has been consumed is exactly the first `frames` lines. */
    ghost predicate InStep()
      reads this
    {
      AtLine(stream, frames, buffer + pipe)
    }

    constructor (stream: seq<byte>, prompt: nat -> bool)
      ensures Valid() && InStep() && this.stream == stream && frames == 0 && consumed == [] && buffer == []
    {
      this.stream, this.prompt, waits := stream, prompt, 0;
      pipe := stream;
      buffer := [];
      consumed := [];
      frames := 0;
      new;
      assert buffer + pipe == stream;
    }

    /** One read of the pipe: any non-empty chunk within the limit, or nothing at end of file. */
    method ReadChunk(limit: nat) returns (chunk: seq<byte>)
      requires limit > 0
      modifies this`pipe
      ensures old(pipe) == chunk + pipe && |chunk| <= limit
      ensures chunk == [] ==> pipe == []
    {
      if pipe == [] {
        return [];
      }
      var k: nat :| 0 < k <= limit && k <= |pipe|;
      chunk := pipe[..k];
      pipe := pipe[k..];
    }

    /** None of these waits ran into the deadline. */
    predicate AllPrompt(from: nat, to: nat) {
      forall k: nat :: from <= k < to ==> prompt(k)
    }

    /** Read chunks until a line is complete, the buffer is over the limit or the pipe is closed. */
    method Fill() returns (inTime: bool)
      requires Valid()
      modifies this`pipe, this`buffer, this`waits
      ensures Valid() && buffer + pipe == old(buffer + pipe)
      ensures inTime <==> AllPrompt(old(waits), waits)
      ensures inTime ==> LF in buffer || |buffer| > MAX_LINE_BYTES || pipe == []
    {
      while LF !in buffer && |buffer| <= MAX_LINE_BYTES
        invariant Valid() && buffer + pipe == old(buffer + pipe)
        invariant old(waits) <= waits && AllPrompt(old(waits), waits)
        decreases |pipe|
      {
        waits := waits + 1;
        if !prompt(waits - 1) {
          return false;
        }
        var limit := MAX_LINE_BYTES + 1 - |buffer|;
        ghost var before := pipe;
        var chunk := ReadChunk(if limit < MAX_CHUNK then limit else MAX_CHUNK);
        if chunk == [] {
          return true;
        }
        assert (buffer + chunk) + pipe == buffer + before;
        buffer := buffer + chunk;
      }
      return true;
    }

    /** Take the first n buffered bytes. */
    method Consume(n: nat) returns (line: seq<byte>)
      requires Valid() && n <= |buffer|
      modifies this`buffer, this`consumed
      ensures Valid() && line == old(buffer)[..n] && buffer == old(buffer)[n..] && consumed == old(consumed) + line
      ensures buffer + pipe == old(buffer + pipe)[n..]
    {
      line := buffer[..n];
      buffer := buffer[n..];
      consumed := consumed + line;
    }

    /** Read one line. However the pipe splits the stream, the n-th line returned is its n-th line. */
    method Read() returns (r: Result<seq<byte>, ReadError>)
      requires Valid() && InStep()
      modifies this
      ensures Valid()
      ensures r.Ok? ==> InStep() && frames == old(frames) + 1
      ensures r.Ok? ==> frames <= |KeepLines(stream)| && r.value == KeepLines(stream)[old(frames)]
      ensures r.Ok? ==> Frame(old(buffer + pipe)) == Some(r.value) && consumed == old(consumed) + r.value
      ensures r == Err(Framing) ==> Frame(old(buffer + pipe)).None?
      ensures r == Err(Deadline) <==> !AllPrompt(old(waits), waits)
      ensures r == Err(Deadline) ==> InStep() && consumed == old(consumed) && frames == old(frames)
    {
      ghost var rest := buffer + pipe;
      var inTime := Fill();
      if !inTime {
        return Err(Deadline);
      }
      FrameOfBuffer(buffer, pipe);
      var marker := LfAt(buffer);
      var line := Consume(if marker == |buffer| then |buffer| else marker + 1);
      if line == [] || |line| > MAX_LINE_BYTES || line[|line| - 1] != LF {
        return Err(Framing);
      }
      NextLine(stream, frames, rest, line);
      frames := frames + 1;
      return Ok(line);
    }
  }

  /** What is framed depends only on the first LF of the buffered prefix. */
  lemma FrameOfBuffer(buffer: seq<byte>, pipe: seq<byte>)
    ensures var k := LfAt(buffer);
            && (k < |buffer| && k + 1 <= MAX_LINE_BYTES ==> Frame(buffer + pipe) == Some(buffer[..k + 1]))
            && (k < |buffer| && k + 1 > MAX_LINE_BYTES ==> Frame(buffer + pipe).None?)
            && (k == |buffer| && (k > MAX_LINE_BYTES || pipe == []) ==> Frame(buffer + pipe).None?)
  {
    var k := LfAt(buffer);
    var rest := buffer + pipe;
    if k < |buffer| {
      assert rest[k] == LF && LfAt(rest) == k && rest[..k + 1] == buffer[..k + 1];
    }
  }

  /** Taking the frame after n lines is taking line n of the plain reading. */
  lemma NextLine(stream: seq<byte>, n: nat, rest: seq<byte>, line: seq<byte>)
    requires AtLine(stream, n, rest) && Frame(rest) == Some(line)
    ensures n < |KeepLines(stream)| && KeepLines(stream)[n] == line
    ensures AtLine(stream, n + 1, rest[|line|..])
  {
    RemainingLines(stream, n);
    assert KeepLines(rest)[0] == line;
    assert KeepLines(stream)[n..][0] == line;
    RemainingNext(stream, n);
  }
}
