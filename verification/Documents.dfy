/** Documents as text: splitting into lines, reading a line, and joining lines again. */
module Documents {
  import opened Common
  import opened Text
  import opened Yaml

  /** The characters at which str.splitlines ends a line. */
  predicate IsLineBreak(c: char) {
    || '\n' <= c <= '\r' || '\U{1C}' <= c <= '\U{1E}' || c == '\U{85}' || c == '\U{2028}' || c == '\U{2029}'
  }

  predicate OneLine(s: string) {
    forall k :: 0 <= k < |s| ==> !IsLineBreak(s[k])
  }

  function LineBreakAt(s: string): (k: nat)
    ensures k <= |s| && OneLine(s[..k]) && (k < |s| ==> IsLineBreak(s[k]))
  {
    if s == "" || IsLineBreak(s[0]) then 0
    else
      var k := 1 + LineBreakAt(s[1..]);
      assert forall j :: 0 < j < k ==> s[j] == s[1..][..k - 1][j - 1];
      k
  }

  /** How long the first line is, its ending included. */
  function FirstWidth(s: string): (w: nat)
    requires s != ""
    ensures 0 < w <= |s|
  {
    var k := LineBreakAt(s);
    if k == |s| then k
    else if s[k] == '\r' && k + 1 < |s| && s[k + 1] == '\n' then k + 2
    else k + 1
  }

  /** str.splitlines(keepends=True) */
  function SplitKeep(s: string): seq<string>
    decreases |s|
  {
    if s == "" then [] else [s[..FirstWidth(s)]] + SplitKeep(s[FirstWidth(s)..])
  }

  function Join(ls: seq<string>): string {
    if ls == [] then "" else ls[0] + Join(ls[1..])
  }

  /** A line without its ending. */
  function Chomp(line: string): string {
    line[..LineBreakAt(line)]
  }

  // ---- reading one line ----

  datatype Reading = Bad | Skipped | Kept(line: Line)

  function Spaces(s: string): (n: nat)
    ensures n <= |s|
  {
    if s != "" && s[0] == ' ' then 1 + Spaces(s[1..]) else 0
  }

  /** Tabs are refused, blank lines and comments skipped, odd indentation refused. */
  function ReadLine(line: string): Reading {
    var raw := Chomp(line);
    if '\t' in raw then Bad
    else if Strip(raw) == "" || (StripLeft(raw) != "" && StripLeft(raw)[0] == '#') then Skipped
    else if Spaces(raw) % 2 != 0 then Bad
    else Kept(Line(Spaces(raw), raw[Spaces(raw)..]))
  }

  function ReadLines(ls: seq<string>): Option<seq<Line>> {
    if ls == [] then Some([])
    else
      match (ReadLine(ls[0]), ReadLines(ls[1..]))
      case (Bad, _) => None
      case (_, None) => None
      case (Skipped, Some(rest)) => Some(rest)
      case (Kept(line), Some(rest)) => Some([line] + rest)
  }

  /** The whole parser, from text to the root mapping. */
  function ParseLines(ls: seq<string>): Option<Value> {
    match ReadLines(ls)
    case None => None
    case Some(lines) => Document(lines)
  }

  function ParseText(text: string): Option<Value> {
    ParseLines(SplitKeep(text))
  }

  /** The parser as it runs: a loop over the lines, then the block parser. */
  method ParseRestrictedYaml(text: string) returns (r: Option<Value>)
    ensures r == ParseText(text)
  {
    var raws := SplitKeep(text);
    var lines: seq<Line> := [];
    assert raws[0..] == raws;
    assert ReadLines(raws).Some? ==> [] + ReadLines(raws).value == ReadLines(raws).value;
    for i := 0 to |raws|
      invariant ReadLines(raws) == Onto(lines, ReadLines(raws[i..]))
    {
      var reading := ReadLine(raws[i]);
      assert raws[i..][0] == raws[i] && raws[i..][1..] == raws[i + 1..];
      if reading.Bad? {
        return None;
      }
      if reading.Kept? {
        OntoSnoc(lines, reading.line, ReadLines(raws[i + 1..]));
        lines := lines + [reading.line];
      }
    }
    assert lines + [] == lines;
    r := ParseDocument(lines);
  }

  function Onto(lines: seq<Line>, rest: Option<seq<Line>>): Option<seq<Line>> {
    match rest
    case None => None
    case Some(more) => Some(lines + more)
  }

  lemma OntoSnoc(lines: seq<Line>, line: Line, rest: Option<seq<Line>>)
    ensures rest.Some? ==> Onto(lines, Some([line] + rest.value)) == Onto(lines + [line], rest)
  {
    if rest.Some? {
      Assoc(lines, [line], rest.value);
    }
  }

  // ---- splitting and joining ----

  /** A line with its ending: nothing else in it breaks a line. */
  predicate Whole(line: string) {
    line != "" && LineBreakAt(line) < |line| && FirstWidth(line) == |line|
  }

  /** Lines as splitting yields them: only the last may lack an ending, and no CR LF is torn apart. */
  predicate Canonical(ls: seq<string>) {
    ls == [] || (
      && ls[0] != ""
      && (Whole(ls[0]) || (|ls| == 1 && OneLine(ls[0])))
      && (|ls| > 1 && ls[0][|ls[0]| - 1] == '\r' && ls[1] != "" ==> ls[1][0] != '\n')
      && Canonical(ls[1..]))
  }

  lemma {:induction false} JoinSplit(s: string)
    ensures Join(SplitKeep(s)) == s
    decreases |s|
  {
    if s != "" {
      var w := FirstWidth(s);
      JoinSplit(s[w..]);
      ConsTail(s[..w], SplitKeep(s[w..]));
      assert s[..w] + s[w..] == s;
    }
  }

  lemma {:induction false} SplitCanonical(s: string)
    ensures Canonical(SplitKeep(s))
    ensures s != "" ==> SplitKeep(s)[0] != "" && SplitKeep(s)[0][0] == s[0]
    decreases |s|
  {
    if s != "" {
      var w := FirstWidth(s);
      SplitCanonical(s[w..]);
      FirstLine(s);
      var first, rest := s[..w], SplitKeep(s[w..]);
      ConsTail(first, rest);
      assert first[|first| - 1] == s[w - 1];
      if w == |s| {
        assert first == s && rest == [];
      } else {
        assert s[w..][0] == s[w];
      }
      assert Canonical([first] + rest);
    }
  }

  lemma {:induction false} BreakIs(s: string, k: nat)
    requires k <= |s| && OneLine(s[..k]) && (k < |s| ==> IsLineBreak(s[k]))
    ensures LineBreakAt(s) == k
  {
    if k > 0 {
      assert !IsLineBreak(s[..k][0]);
      var t := s[1..][..k - 1];
      forall j | 0 <= j < |t| ensures !IsLineBreak(t[j]) {
        assert t[j] == s[..k][j + 1];
      }
      BreakIs(s[1..], k - 1);
    }
  }

  lemma BreakWithin(s: string, n: nat)
    requires n <= |s|
    ensures LineBreakAt(s[..n]) == if LineBreakAt(s) < n then LineBreakAt(s) else n
  {
    var k := LineBreakAt(s);
    if k < n {
      assert s[..n][..k] == s[..k];
      BreakIs(s[..n], k);
    } else {
      assert s[..n][..n] == s[..n];
      forall j | 0 <= j < n ensures !IsLineBreak(s[..n][j]) {
        assert s[..n][j] == s[..k][j];
      }
      BreakIs(s[..n], n);
    }
  }

  lemma FirstLine(s: string)
    requires s != ""
    ensures var w := FirstWidth(s);
            && (w < |s| ==> Whole(s[..w])) && (w == |s| ==> Whole(s) || OneLine(s))
            && (w < |s| && s[w - 1] == '\r' ==> s[w] != '\n')
  {
    var w, k := FirstWidth(s), LineBreakAt(s);
    BreakWithin(s, w);
    if k == |s| {
      assert s[..k] == s;
    }
  }

  /** Joining such lines and splitting again gives the same lines. */
  lemma {:induction false} SplitJoin(ls: seq<string>)
    requires Canonical(ls)
    ensures SplitKeep(Join(ls)) == ls
  {
    if ls != [] {
      SplitJoin(ls[1..]);
      var s := Join(ls);
      if Whole(ls[0]) {
        JoinWidth(ls);
        assert s[..|ls[0]|] == ls[0] && s[|ls[0]|..] == Join(ls[1..]);
      } else {
        assert Join(ls[1..]) == "" && s == ls[0];
        assert LineBreakAt(s) == |s|;
        assert s[..|s|] == s && s[|s|..] == "";
      }
      assert [ls[0]] + ls[1..] == ls;
    }
  }

  lemma JoinWidth(ls: seq<string>)
    requires Canonical(ls) && ls != [] && Whole(ls[0])
    ensures FirstWidth(Join(ls)) == |ls[0]|
  {
    var s, k := Join(ls), LineBreakAt(ls[0]);
    assert s[..|ls[0]|] == ls[0];
    BreakWithin(s, |ls[0]|);
    assert LineBreakAt(s) == k;
    if |ls| > 1 {
      assert s[|ls[0]|..] == Join(ls[1..]) && Join(ls[1..])[..|ls[1]|] == ls[1];
    }
  }

  // ---- lines that do not count, and lines that are refused ----

  /** Blank, or a comment. */
  predicate Idle(line: string) {
    '\t' !in Chomp(line)
    && (Strip(Chomp(line)) == "" || (StripLeft(Chomp(line)) != "" && StripLeft(Chomp(line))[0] == '#'))
  }

  lemma {:induction false} ReadAround(a: seq<string>, line: string, b: seq<string>)
    requires Idle(line)
    ensures ReadLines(a + ([line] + b)) == ReadLines(a + b)
    decreases |a|
  {
    if a == [] {
      assert a + ([line] + b) == [line] + b && a + b == b;
      ConsTail(line, b);
    } else {
      ReadAround(a[1..], line, b);
      assert (a + ([line] + b))[1..] == a[1..] + ([line] + b) && (a + b)[1..] == a[1..] + b;
    }
  }

  /** A blank line or a comment, wherever it stands, changes nothing. */
  lemma IdleIgnored(a: seq<string>, line: string, b: seq<string>)
    requires Idle(line)
    ensures ParseLines(a + ([line] + b)) == ParseLines(a + b)
  {
    ReadAround(a, line, b);
  }

  /** A tab anywhere on a line, or an odd indentation, and the document is refused. */
  lemma BadLineRefused(ls: seq<string>, i: nat)
    requires i < |ls| && ('\t' in Chomp(ls[i]) || (!Idle(ls[i]) && Spaces(Chomp(ls[i])) % 2 != 0))
    ensures ParseLines(ls) == None
  {
    BadRead(ls, i);
  }

  lemma {:induction false} BadRead(ls: seq<string>, i: nat)
    requires i < |ls| && ReadLine(ls[i]).Bad?
    ensures ReadLines(ls) == None
    decreases i
  {
    if i > 0 {
      assert ls[1..][i - 1] == ls[i];
      BadRead(ls[1..], i - 1);
    }
  }
}
