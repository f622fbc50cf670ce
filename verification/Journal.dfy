/** The delivery journal as bytes: record lines, validation of a file image, and what survives a cut. */
module Journal {
  import opened Common
  import opened HashChain

  newtype byte = x: int | 0 <= x < 256

  const LF: byte := 10
  const CR: byte := 13
  const MAX_JOURNAL_BYTES := 8 * 1024 * 1024
  const CHUNK_BYTES := 65536
  // The previous digest of the first record: sixty-four zeros.
  const ZERO: Digest := "0000000000000000000000000000000000000000000000000000000000000000"

  datatype Kind = AttemptStarted | Delivered | FailedBeforeWrite | Uncertain

  datatype Content = Content(attempt: string, kind: Kind, payload: string, alias: string, thread: string) {
    function Pair(): (string, string) { (payload, alias) }
  }

  type Record = Entry<Content>

  /** JSON text and SHA-256, as functions of a record. */
  datatype Codec = Codec(enc: Record -> seq<byte>, dec: seq<byte> -> Option<Record>, hash: Hash<Content>)

  ghost predicate Lawful(c: Codec) {
    && (forall r: Record :: c.dec(c.enc(r)) == Some(r))
    && (forall r: Record, k :: 0 <= k < |c.enc(r)| ==> !IsBreak(c.enc(r)[k]))
  }

  predicate IsBreak(b: byte) {
    b == LF || b == CR
  }

  function Line(c: Codec, r: Record): seq<byte> {
    c.enc(r) + [LF]
  }

  /** The file image left by appending exactly `rs`. */
  function Bytes(c: Codec, rs: seq<Record>): seq<byte> {
    if rs == [] then [] else Line(c, rs[0]) + Bytes(c, rs[1..])
  }

  predicate NoBreak(s: seq<byte>) {
    forall k :: 0 <= k < |s| ==> !IsBreak(s[k])
  }

  /** Where the first line break is, or the length when there is none. */
  function BreakAt(s: seq<byte>): (k: nat)
    ensures k <= |s|
    ensures forall j :: 0 <= j < k ==> !IsBreak(s[j])
    ensures k < |s| ==> IsBreak(s[k])
  {
    if s == [] || IsBreak(s[0]) then 0 else 1 + BreakAt(s[1..])
  }

  /** bytes.splitlines(): LF, CR and CR LF each end a line. */
  function SplitLines(s: seq<byte>): seq<seq<byte>>
    decreases |s|
  {
    if s == [] then []
    else
      var k := BreakAt(s);
      if k == |s| then [s]
      else
        var width := if s[k] == CR && k + 1 < |s| && s[k + 1] == LF then 2 else 1;
        [s[..k]] + SplitLines(s[k + width..])
  }

  function DecodeAll(c: Codec, lines: seq<seq<byte>>): Option<seq<Record>> {
    if lines == [] then Some([])
    else
      match (c.dec(lines[0]), DecodeAll(c, lines[1..]))
      case (Some(r), Some(rs)) => Some([r] + rs)
      case _ => None
  }

  datatype Refusal = Empty | TooLarge | PartialTail | Invalid | Busy | Closed | Io

  /** What a file image means to a reader: its records, or a refusal. */
  function Validate(c: Codec, raw: seq<byte>): Result<seq<Record>, Refusal> {
    if raw == [] then Ok([])
    else if raw[|raw| - 1] != LF then Err(PartialTail)
    else
      match DecodeAll(c, SplitLines(raw))
      case None => Err(Invalid)
      case Some(rs) => if Linked(c.hash, ZERO, rs) then Ok(rs) else Err(Invalid)
  }

  /** The validation loop: one pass over the lines, carrying the previous digest. */
  method ValidateLines(c: Codec, raw: seq<byte>) returns (r: Result<seq<Record>, Refusal>)
    ensures r == Validate(c, raw)
  {
    if raw == [] {
      return Ok([]);
    }
    if raw[|raw| - 1] != LF {
      return Err(PartialTail);
    }
    var lines := SplitLines(raw);
    var records: seq<Record> := [];
    var previous := ZERO;
    for i := 0 to |lines|
      invariant |records| == i
      invariant Linked(c.hash, ZERO, records) && previous == Head(records, ZERO)
      invariant DecodeAll(c, lines[..i]) == Some(records)
    {
      assert lines[..i + 1] == lines[..i] + [lines[i]];
      assert lines == lines[..i + 1] + lines[i + 1..];
      DecodeAllSnoc(c, lines[..i], lines[i]);
      DecodeAllPrefix(c, lines[..i + 1], lines[i + 1..]);
      var record := c.dec(lines[i]);
      if record.None? {
        return Err(Invalid);
      }
      var e := record.value;
      var unsigned := c.hash(e.ordinal, e.content, e.previous);
      ExtendsLinked(c.hash, ZERO, records, e);
      if e.ordinal != i + 1 || e.previous != previous || e.digest != unsigned {
        if DecodeAll(c, lines).Some? && Linked(c.hash, ZERO, DecodeAll(c, lines).value) {
          DecodedPrefixLinked(c, lines, i + 1, DecodeAll(c, lines).value);
          assert false;
        }
        return Err(Invalid);
      }
      previous := e.digest;
      records := records + [e];
    }
    assert lines[..|lines|] == lines;
    return Ok(records);
  }

  lemma DecodeAllSnoc(c: Codec, lines: seq<seq<byte>>, line: seq<byte>)
    ensures DecodeAll(c, lines + [line]) ==
            match (DecodeAll(c, lines), c.dec(line)) {
              case (Some(rs), Some(r)) => Some(rs + [r])
              case _ => None
            }
  {
    if lines == [] {
      assert lines + [line] == [line] && [line][1..] == [];
      match c.dec(line) {
        case Some(r) => assert [r] + [] == [] + [r];
        case None =>
      }
    } else {
      assert (lines + [line])[1..] == lines[1..] + [line];
      DecodeAllSnoc(c, lines[1..], line);
      match (c.dec(lines[0]), DecodeAll(c, lines[1..]), c.dec(line)) {
        case (Some(r), Some(rs), Some(last)) => assert [r] + (rs + [last]) == ([r] + rs) + [last];
        case _ =>
      }
    }
  }

  lemma DecodeAllPrefix(c: Codec, a: seq<seq<byte>>, b: seq<seq<byte>>)
    ensures DecodeAll(c, a).None? ==> DecodeAll(c, a + b).None?
    ensures DecodeAll(c, a).Some? && DecodeAll(c, a + b).Some? ==> DecodeAll(c, a).value <= DecodeAll(c, a + b).value
  {
    if a != [] {
      assert (a + b)[1..] == a[1..] + b;
      DecodeAllPrefix(c, a[1..], b);
    }
  }

  lemma DecodedPrefixLinked(c: Codec, lines: seq<seq<byte>>, n: nat, rs: seq<Record>)
    requires n <= |lines| && DecodeAll(c, lines) == Some(rs) && Linked(c.hash, ZERO, rs)
    ensures DecodeAll(c, lines[..n]).Some? && Linked(c.hash, ZERO, DecodeAll(c, lines[..n]).value)
  {
    assert lines == lines[..n] + lines[n..];
    DecodeAllPrefix(c, lines[..n], lines[n..]);
    var prefix := DecodeAll(c, lines[..n]).value;
    PrefixLinked(c.hash, ZERO, rs, |prefix|);
    assert rs[..|prefix|] == prefix;
  }

  // ---- which images are accepted ----

  /** Lines put together again with their endings. */
  function Glue(lines: seq<seq<byte>>, ends: seq<seq<byte>>): seq<byte>
    requires |lines| == |ends|
  {
    if lines == [] then [] else lines[0] + ends[0] + Glue(lines[1..], ends[1..])
  }

  predicate IsEnd(end: seq<byte>) {
    end == [LF] || end == [CR] || end == [CR, LF]
  }

  /** Splitting takes an image apart at its line breaks, and only there. */
  lemma {:induction false} SplitGlue(s: seq<byte>) returns (ends: seq<seq<byte>>)
    ensures |ends| == |SplitLines(s)| && Glue(SplitLines(s), ends) == s
    ensures forall i :: 0 <= i < |ends| ==> NoBreak(SplitLines(s)[i])
    ensures forall i :: 0 <= i < |ends| ==>
              IsEnd(ends[i]) || (i == |ends| - 1 && ends[i] == [] && SplitLines(s)[i] != [])
    decreases |s|
  {
    if s == [] {
      ends := [];
    } else {
      var k := BreakAt(s);
      if k == |s| {
        ends := [[]];
        GlueCons(s, [], [], []);
      } else {
        var width := if s[k] == CR && k + 1 < |s| && s[k + 1] == LF then 2 else 1;
        var more := SplitGlue(s[k + width..]);
        ends := [s[k..k + width]] + more;
        SplitStep(s, k, width, more);
      }
    }
  }

  lemma EndAt(s: seq<byte>, k: nat)
    requires k < |s| && IsBreak(s[k])
    ensures var width := if s[k] == CR && k + 1 < |s| && s[k + 1] == LF then 2 else 1;
            k + width <= |s| && IsEnd(s[k..k + width]) && s[..k] + s[k..k + width] + s[k + width..] == s
  {
    if s[k] == CR && k + 1 < |s| && s[k + 1] == LF {
      assert s[k..k + 2] == [CR, LF];
    } else {
      assert s[k..k + 1] == [s[k]];
    }
  }

  lemma SplitStep(s: seq<byte>, k: nat, width: nat, more: seq<seq<byte>>)
    requires s != [] && k == BreakAt(s) && k < |s|
    requires width == if s[k] == CR && k + 1 < |s| && s[k + 1] == LF then 2 else 1
    requires |more| == |SplitLines(s[k + width..])| && Glue(SplitLines(s[k + width..]), more) == s[k + width..]
    ensures SplitLines(s) == [s[..k]] + SplitLines(s[k + width..]) && NoBreak(s[..k]) && IsEnd(s[k..k + width])
    ensures |SplitLines(s)| == |more| + 1 && Glue(SplitLines(s), [s[k..k + width]] + more) == s
  {
    EndAt(s, k);
    var rest := SplitLines(s[k + width..]);
    assert SplitLines(s) == [s[..k]] + rest;
    GlueCons(s[..k], s[k..k + width], rest, more);
  }

  lemma GlueCons(line: seq<byte>, end: seq<byte>, lines: seq<seq<byte>>, ends: seq<seq<byte>>)
    requires |lines| == |ends|
    ensures Glue([line] + lines, [end] + ends) == line + end + Glue(lines, ends)
  {
    ConsTail(line, lines);
    ConsTail(end, ends);
  }

  lemma {:induction false} DecodesEach(c: Codec, lines: seq<seq<byte>>, rs: seq<Record>)
    ensures DecodeAll(c, lines) == Some(rs) <==>
              |lines| == |rs| && forall i :: 0 <= i < |lines| ==> c.dec(lines[i]) == Some(rs[i])
    decreases |lines|
  {
    if lines != [] && rs != [] {
      DecodesEach(c, lines[1..], rs[1..]);
      assert rs == [rs[0]] + rs[1..];
      assert forall i :: 0 < i < |lines| ==> lines[i] == lines[1..][i - 1];
      assert forall i :: 0 < i < |rs| ==> rs[i] == rs[1..][i - 1];
      assert |lines| == |rs| ==> forall i :: 0 <= i < |lines[1..]| ==> lines[1..][i] == lines[i + 1]
                                                                       && rs[1..][i] == rs[i + 1];
    }
  }

  /** An image is accepted, as these records, exactly when it is empty, or ends with a line feed and its lines
      are these records, chained and signed from the first one on. */
  lemma AcceptedIff(c: Codec, raw: seq<byte>, rs: seq<Record>)
    ensures Validate(c, raw) == Ok(rs) <==>
              if raw == [] then rs == []
              else
                var lines := SplitLines(raw);
                && raw[|raw| - 1] == LF && |lines| == |rs|
                && forall i :: 0 <= i < |lines| ==> c.dec(lines[i]) == Some(rs[i]) && Follows(c.hash, ZERO, rs, i)
  {
    DecodesEach(c, SplitLines(raw), rs);
    LinkedIff(c.hash, ZERO, rs);
    assert Validate(c, raw) == Ok(rs) && raw != [] ==> DecodeAll(c, SplitLines(raw)) == Some(rs);
  }

  // ---- round trip and crash prefixes ----

  lemma BytesConcat(c: Codec, a: seq<Record>, b: seq<Record>)
    ensures Bytes(c, a + b) == Bytes(c, a) + Bytes(c, b)
  {
    if a == [] {
      assert a + b == b;
    } else {
      assert (a + b)[1..] == a[1..] + b;
      BytesConcat(c, a[1..], b);
    }
  }

  lemma BytesSnoc(c: Codec, rs: seq<Record>, r: Record)
    ensures Bytes(c, rs + [r]) == Bytes(c, rs) + Line(c, r)
  {
    BytesConcat(c, rs, [r]);
    assert Bytes(c, [r][1..]) == [];
  }

  lemma SplitFirstLine(c: Codec, r: Record, rest: seq<byte>)
    requires Lawful(c)
    ensures SplitLines(Line(c, r) + rest) == [c.enc(r)] + SplitLines(rest)
  {
    var s := Line(c, r) + rest;
    var n := |c.enc(r)|;
    assert s[n] == LF && forall j :: 0 <= j < n ==> s[j] == c.enc(r)[j];
    assert BreakAt(s) == n;
    assert s[..n] == c.enc(r) && s[n + 1..] == rest;
  }

  lemma {:induction false} DecodeBytes(c: Codec, rs: seq<Record>)
    requires Lawful(c)
    ensures DecodeAll(c, SplitLines(Bytes(c, rs))) == Some(rs)
  {
    if rs != [] {
      SplitFirstLine(c, rs[0], Bytes(c, rs[1..]));
      DecodeBytes(c, rs[1..]);
      var lines := SplitLines(Bytes(c, rs[1..]));
      assert ([c.enc(rs[0])] + lines)[1..] == lines;
      assert rs == [rs[0]] + rs[1..];
    }
  }

  /** Reopening what a sequence of appends wrote recovers exactly the appended records. */
  lemma RoundTrip(c: Codec, rs: seq<Record>)
    requires Lawful(c) && Linked(c.hash, ZERO, rs)
    ensures Validate(c, Bytes(c, rs)) == Ok(rs)
  {
    DecodeBytes(c, rs);
    if rs != [] {
      BytesSnoc(c, rs[..|rs| - 1], rs[|rs| - 1]);
      assert rs == rs[..|rs| - 1] + [rs[|rs| - 1]];
    }
  }

  /** Any cut of the image is some whole records followed by a proper prefix of the next line. */
  lemma {:induction false} CutShape(c: Codec, rs: seq<Record>, k: nat) returns (j: nat, tail: seq<byte>)
    requires Lawful(c) && k <= |Bytes(c, rs)|
    ensures j <= |rs| && Bytes(c, rs)[..k] == Bytes(c, rs[..j]) + tail
    ensures NoBreak(tail)
    ensures tail != [] ==> j < |rs| && tail <= c.enc(rs[j])
    ensures k == |Bytes(c, rs[..j])| + |tail|
  {
    if rs == [] {
      j, tail := 0, [];
    } else {
      var line := Line(c, rs[0]);
      if k < |line| {
        j, tail := 0, Bytes(c, rs)[..k];
        assert tail == c.enc(rs[0])[..k];
      } else {
        var j', tail' := CutShape(c, rs[1..], k - |line|);
        j, tail := j' + 1, tail';
        assert rs[..j][1..] == rs[1..][..j'];
        assert Bytes(c, rs)[..k] == line + Bytes(c, rs[1..])[..k - |line|];
      }
    }
  }

  /** A torn tail is always noticed, whatever records precede it. */
  lemma TornTailRefused(c: Codec, rs: seq<Record>, tail: seq<byte>)
    requires tail != [] && NoBreak(tail)
    ensures Validate(c, Bytes(c, rs) + tail) == Err(PartialTail)
  {
    var raw := Bytes(c, rs) + tail;
    assert raw[|raw| - 1] == tail[|tail| - 1];
  }

  /** Crash-prefix safety: a cut of the image either is refused or recovers a prefix of the records,
      and it is accepted exactly when it falls on a record boundary. */
  lemma CrashPrefix(c: Codec, rs: seq<Record>, k: nat)
    requires Lawful(c) && Linked(c.hash, ZERO, rs) && k <= |Bytes(c, rs)|
    ensures match Validate(c, Bytes(c, rs)[..k])
            case Ok(got) => got <= rs && |Bytes(c, got)| == k
            case Err(e) => e == PartialTail && forall j :: 0 <= j <= |rs| ==> |Bytes(c, rs[..j])| != k
  {
    var j, tail := CutShape(c, rs, k);
    if tail == [] {
      PrefixLinked(c.hash, ZERO, rs, j);
      RoundTrip(c, rs[..j]);
      assert Bytes(c, rs)[..k] == Bytes(c, rs[..j]);
    } else {
      TornTailRefused(c, rs[..j], tail);
      forall i | 0 <= i <= |rs| ensures |Bytes(c, rs[..i])| != k {
        if i <= j {
          assert rs[..j] == rs[..i] + rs[i..j];
          BytesConcat(c, rs[..i], rs[i..j]);
        } else {
          assert rs[..i] == rs[..j + 1] + rs[j + 1..i];
          BytesConcat(c, rs[..j + 1], rs[j + 1..i]);
          assert rs[..j + 1] == rs[..j] + [rs[j]];
          BytesSnoc(c, rs[..j], rs[j]);
        }
      }
    }
  }

  // ---- what the records say about one (payload, alias) pair ----

  datatype Outcome = Delivered | FailedBeforeWrite | Uncertain

  function KindOf(o: Outcome): Kind {
    match o
    case Delivered => Kind.Delivered
    case FailedBeforeWrite => Kind.FailedBeforeWrite
    case Uncertain => Kind.Uncertain
  }

  /** The kinds recorded for one pair, in file order. */
  function Project(rs: seq<Record>, pair: (string, string)): seq<Kind> {
    if rs == [] then []
    else
      var last := rs[|rs| - 1].content;
      Project(rs[..|rs| - 1], pair) + if last.Pair() == pair then [last.kind] else []
  }

  /** The verdict on a pair: its last record decides, and a bare start counts as uncertain. */
  function TerminalFor(rs: seq<Record>, pair: (string, string)): Option<Outcome> {
    var ks := Project(rs, pair);
    if ks == [] then None
    else
      match ks[|ks| - 1]
      case Delivered => Some(Outcome.Delivered)
      case FailedBeforeWrite => Some(Outcome.FailedBeforeWrite)
      case AttemptStarted => Some(Outcome.Uncertain)
      case Uncertain => Some(Outcome.Uncertain)
  }

  predicate AllFailed(ks: seq<Kind>) {
    forall k :: 0 <= k < |ks| ==> ks[k] == Kind.FailedBeforeWrite
  }

  /** FAILED_BEFORE_WRITE* ATTEMPT_STARTED */
  predicate OpenAttempt(ks: seq<Kind>) {
    ks != [] && AllFailed(ks[..|ks| - 1]) && ks[|ks| - 1] == Kind.AttemptStarted
  }

  /** FAILED_BEFORE_WRITE* (ATTEMPT_STARTED (DELIVERED | UNCERTAIN)?)? */
  predicate Lifecycle(ks: seq<Kind>) {
    || AllFailed(ks)
    || OpenAttempt(ks)
    || (ks != [] && OpenAttempt(ks[..|ks| - 1]) && ks[|ks| - 1] in {Kind.Delivered, Kind.Uncertain})
  }

  lemma LifecyclePrefix(ks: seq<Kind>, n: nat)
    requires Lifecycle(ks) && n <= |ks|
    ensures Lifecycle(ks[..n])
  {
    if AllFailed(ks) || n == |ks| {
      assert n == |ks| ==> ks[..n] == ks;
    } else if OpenAttempt(ks) {
      assert ks[..n] == ks[..|ks| - 1][..n];
    } else if n == |ks| - 1 {
      assert ks[..n] == ks[..|ks| - 1];
    } else {
      var open := ks[..|ks| - 1];
      assert ks[..n] == open[..|open| - 1][..n];
    }
  }

  /** A pair may be tried exactly when everything recorded for it failed before writing. */
  lemma RetryableIffAllFailed(ks: seq<Kind>)
    requires Lifecycle(ks)
    ensures (ks == [] || ks[|ks| - 1] == Kind.FailedBeforeWrite) <==> AllFailed(ks)
  {
  }

  lemma ProjectSnoc(rs: seq<Record>, r: Record, pair: (string, string))
    ensures Project(rs + [r], pair) == Project(rs, pair) + if r.content.Pair() == pair then [r.content.kind] else []
  {
    assert (rs + [r])[..|rs|] == rs;
  }

  lemma {:induction false} ProjectPrefix(rs: seq<Record>, n: nat, pair: (string, string))
    requires n <= |rs|
    ensures Project(rs[..n], pair) <= Project(rs, pair)
    decreases |rs|
  {
    if n == |rs| {
      assert rs[..n] == rs;
    } else {
      var short := rs[..|rs| - 1];
      assert rs[..n] == short[..n];
      ProjectPrefix(short, n, pair);
    }
  }

  lemma {:induction false} ProjectHas(rs: seq<Record>, i: nat)
    requires i < |rs|
    ensures rs[i].content.kind in Project(rs, rs[i].content.Pair())
    decreases |rs|
  {
    if i < |rs| - 1 {
      ProjectHas(rs[..|rs| - 1], i);
    }
  }
}
