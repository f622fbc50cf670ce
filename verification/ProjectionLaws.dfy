/** The edited document parses to the original with only the status and one machine's sequence changed. */
module ProjectionLaws {
  import opened Common
  import opened Text
  import opened Yaml
  import opened YamlLaws
  import opened YamlLocal
  import opened YamlPrint
  import opened Documents
  import opened Projection

  // ---- the edit seen on indented lines ----

  predicate StatusHead(a: Line) {
    a.indent == 0 && StartsWith(a.content, STATUS + ":")
  }

  predicate SequencesHead(a: Line) {
    a.indent == 0 && StartsWith(a.content, SEQUENCES + ":")
  }

  predicate SlugEdit(a: Line, b: Line, slug: string, sequence: int) {
    a.indent == 2 && StartsWith(a.content, slug + ":") && b == Line(2, slug + ": " + IntText(sequence))
  }

  predicate Region(a: Line, inside: bool) {
    SequencesHead(a) || (inside && a.indent > 0)
  }

  /** `zs` is `ys` with every status head replaced and, in the sequence region, perhaps slug lines. */
  ghost predicate Rel(ys: seq<Line>, zs: seq<Line>, inside: bool, status: string, slug: string, sequence: int)
    decreases |ys|
  {
    |ys| == |zs| && (ys == [] || (
      && (if StatusHead(ys[0]) then zs[0] == Line(0, STATUS + ": " + status)
          else zs[0] == ys[0] || (Region(ys[0], inside) && SlugEdit(ys[0], zs[0], slug, sequence)))
      && Rel(ys[1..], zs[1..], Region(ys[0], inside), status, slug, sequence)))
  }

  // ---- one line ----

  lemma ChompPrefix(line: string, p: string)
    requires p <= line && OneLine(p)
    ensures p <= Chomp(line)
  {
    assert forall j :: 0 <= j < |p| ==> line[j] == p[j];
  }

  lemma ChompLine(body: string)
    requires OneLine(body)
    ensures Chomp(body + "\n") == body
  {
    var s := body + "\n";
    assert s[..|body|] == body;
    BreakIs(s, |body|);
  }

  /** A line that starts with no white space and no comment sign is kept or refused. */
  lemma ReadFlush(line: string)
    requires Chomp(line) != "" && !IsSpace(Chomp(line)[0]) && Chomp(line)[0] != '#'
    ensures ReadLine(line) == if '\t' in Chomp(line) then Bad else Kept(Line(0, Chomp(line)))
  {
    var raw := Chomp(line);
    assert StripLeft(raw) == raw;
    StripRightKeeps(raw);
    assert Spaces(raw) == 0 && raw[0..] == raw;
  }

  lemma StripRightKeeps(s: string)
    requires s != "" && !IsSpace(s[0])
    ensures StripRight(s) != ""
  {
  }

  /** A line with two leading spaces and then text. */
  lemma ReadNested(line: string)
    requires |Chomp(line)| > 2 && Chomp(line)[0] == Chomp(line)[1] == ' ' && !IsSpace(Chomp(line)[2])
             && Chomp(line)[2] != '#'
    ensures ReadLine(line) == if '\t' in Chomp(line) then Bad else Kept(Line(2, Chomp(line)[2..]))
  {
    var raw := Chomp(line);
    var rest := raw[2..];
    assert raw[1..][1..] == rest;
    assert StripLeft(rest) == rest && StripLeft(raw) == rest;
    StripRightKeeps(rest);
    assert Spaces(rest) == 0 && Spaces(raw[1..]) == 1 && Spaces(raw) == 2;
  }

  lemma HeadKeys()
    ensures IsKey(STATUS) && IsKey(SEQUENCES) && STATUS[0] == 's' && SEQUENCES[0] == 'l'
  {
  }

  /** A line that starts with a key and a colon is kept or refused. */
  lemma ReadKeyLine(line: string, key: string)
    requires StartsWith(line, key + ":") && IsKey(key) && !ReadLine(line).Bad?
    ensures ReadLine(line).Kept? && ReadLine(line).line.indent == 0
            && StartsWith(ReadLine(line).line.content, key + ":")
  {
    var p := key + ":";
    KeyOneLine(key);
    assert OneLine(p);
    ChompPrefix(line, p);
    assert p[0] == key[0];
    ReadFlush(line);
  }

  lemma ReadStatus(line: string)
    requires IsStatus(line) && !ReadLine(line).Bad?
    ensures ReadLine(line).Kept? && StatusHead(ReadLine(line).line)
  {
    HeadKeys();
    ReadKeyLine(line, STATUS);
  }

  lemma ReadStatusLine(status: string)
    requires OneLine(status) && !ReadLine(StatusLine(status)).Bad?
    ensures ReadLine(StatusLine(status)) == Kept(Line(0, STATUS + ": " + status))
  {
    HeadKeys();
    KeyOneLine(STATUS);
    EntryLineReads(STATUS, status);
  }

  lemma EntryLineReads(key: string, text: string)
    requires IsKey(key) && OneLine(text)
    ensures ReadLine(key + ": " + text + "\n") == if '\t' in key + ": " + text then Bad
      else Kept(Line(0, key + ": " + text))
  {
    var body := key + ": " + text;
    KeyOneLine(key);
    assert OneLine(body);
    ChompLine(body);
    assert body[0] == key[0];
    ReadFlush(body + "\n");
  }

  lemma ReadHead(line: string)
    requires StartsWith(line, SEQUENCES + ":") && !ReadLine(line).Bad?
    ensures ReadLine(line).Kept? && SequencesHead(ReadLine(line).line)
  {
    HeadKeys();
    ReadKeyLine(line, SEQUENCES);
  }

  lemma ReadSlug(line: string, slug: string)
    requires StartsWith(line, "  " + (slug + ":")) && IsKey(slug) && !ReadLine(line).Bad?
    ensures ReadLine(line).Kept? && ReadLine(line).line.indent == 2
            && StartsWith(ReadLine(line).line.content, slug + ":")
  {
    var p := "  " + (slug + ":");
    assert OneLine(p) by { KeyOneLine(slug); }
    ChompPrefix(line, p);
    assert p[2] == slug[0];
    ReadNested(line);
    assert Chomp(line)[..|p|] == p;
    assert Chomp(line)[2..][..|slug| + 1] == p[2..] == slug + ":";
  }

  lemma KeyOneLine(key: string)
    requires IsKey(key)
    ensures OneLine(key) && '\t' !in key && !IsSpace(key[0]) && key[0] != '#'
  {
  }

  lemma IntTextPlain(n: int)
    ensures OneLine(IntText(n)) && '\t' !in IntText(n)
  {
  }

  lemma NestedLineReads(text: string)
    requires text != "" && OneLine(text) && '\t' !in text && !IsSpace(text[0]) && text[0] != '#'
    ensures ReadLine("  " + text + "\n") == Kept(Line(2, text))
  {
    var body := "  " + text;
    assert OneLine(body) && '\t' !in body;
    ChompLine(body);
    assert body[2] == text[0] && body[2..] == text;
    ReadNested(body + "\n");
  }

  lemma ReadSlugLine(slug: string, sequence: int)
    requires IsKey(slug)
    ensures ReadLine(SlugLine(slug, sequence)) == Kept(Line(2, slug + ": " + IntText(sequence)))
  {
    var text := slug + ": " + IntText(sequence);
    KeyOneLine(slug);
    IntTextPlain(sequence);
    assert text[0] == slug[0];
    assert OneLine(text) && '\t' !in text;
    NestedLineReads(text);
  }

  lemma ReadIndented(line: string)
    requires StartsWith(line, "  ") && ReadLine(line).Kept?
    ensures ReadLine(line).line.indent >= 2
  {
    ChompPrefix(line, "  ");
    var raw := Chomp(line);
    assert raw[0] == ' ' && raw[1..][0] == ' ';
    assert Spaces(raw) == 1 + Spaces(raw[1..]) && Spaces(raw[1..]) == 1 + Spaces(raw[1..][1..]);
  }

  /** The edit of raw lines is the edit of the indented lines read from them. */
  lemma {:induction false} ReadEdited(ls: seq<string>, raw: bool, inside: bool, status: string, slug: string,
                                      sequence: int)
    requires (raw ==> inside) && OneLine(status) && IsKey(slug)
    requires ReadLines(ls).Some? && ReadLines(Edited(ls, raw, status, slug, sequence)).Some?
    ensures Rel(ReadLines(ls).value, ReadLines(Edited(ls, raw, status, slug, sequence)).value, inside, status, slug,
                sequence)
    ensures StatusHits(ls) > 0 ==> exists k :: 0 <= k < |ReadLines(ls).value| && StatusHead(ReadLines(ls).value[k])
  {
    if ls != [] {
      var line, more := ls[0], Edited(ls[1..], !IsStatus(ls[0]) && Inside(ls[0], raw), status, slug, sequence);
      var edited := EditLine(line, raw, status, slug, sequence);
      assert Edited(ls, raw, status, slug, sequence) == [edited] + more;
      ConsTail(edited, more);
      EditedReading(line, raw, inside, status, slug, sequence);
      var next := if ReadLine(line).Kept? then Region(ReadLine(line).line, inside) else inside;
      ReadEdited(ls[1..], !IsStatus(line) && Inside(line, raw), next, status, slug, sequence);
      var ys := ReadLines(ls[1..]).value;
      if ReadLine(line).Kept? {
        assert ReadLines(ls).value == [ReadLine(line).line] + ys;
        ConsTail(ReadLine(line).line, ys);
        ConsTail(ReadLine(edited).line, ReadLines(more).value);
        HeadsGrow(ReadLine(line).line, ys);
      }
    }
  }

  lemma HeadsGrow(a: Line, ys: seq<Line>)
    ensures StatusHead(a) || (exists k :: 0 <= k < |ys| && StatusHead(ys[k])) ==>
              exists k :: 0 <= k < |[a] + ys| && StatusHead(([a] + ys)[k])
  {
    if StatusHead(a) {
      assert StatusHead(([a] + ys)[0]);
    } else if exists k :: 0 <= k < |ys| && StatusHead(ys[k]) {
      var k :| 0 <= k < |ys| && StatusHead(ys[k]);
      assert StatusHead(([a] + ys)[k + 1]);
    }
  }

  lemma StatusHeadIsStatus(line: string)
    requires ReadLine(line).Kept? && StatusHead(ReadLine(line).line)
    ensures IsStatus(line)
  {
    assert Chomp(line) <= line;
    assert Chomp(line)[0..] == Chomp(line);
  }

  /** What one line and its edited form read as. */
  lemma EditedReading(line: string, raw: bool, inside: bool, status: string, slug: string, sequence: int)
    requires (raw ==> inside) && OneLine(status) && IsKey(slug)
    requires !ReadLine(line).Bad? && !ReadLine(EditLine(line, raw, status, slug, sequence)).Bad?
    ensures var a, b := ReadLine(line), ReadLine(EditLine(line, raw, status, slug, sequence));
            && (a.Kept? <==> b.Kept?)
            && (a.Kept? ==> if StatusHead(a.line) && IsStatus(line) then b.line == Line(0, STATUS + ": " + status)
                            else b.line == a.line || (Region(a.line, inside)
                                                      && SlugEdit(a.line, b.line, slug, sequence)))
            && (IsStatus(line) ==> a.Kept? && StatusHead(a.line))
            && (a.Kept? && StatusHead(a.line) ==> IsStatus(line))
            && (!IsStatus(line) && Inside(line, raw) ==> if a.Kept? then Region(a.line, inside) else inside)
  {
    if IsStatus(line) {
      ReadStatus(line);
      ReadStatusLine(status);
    } else {
      if ReadLine(line).Kept? && StatusHead(ReadLine(line).line) {
        StatusHeadIsStatus(line);
      }
      if StartsWith(line, SEQUENCES + ":") {
        ReadHead(line);
      } else if raw && StartsWith(line, "  ") {
        if ReadLine(line).Kept? {
          ReadIndented(line);
        }
        if IsSlug(line, raw, slug) {
          ReadSlug(line, slug);
          ReadSlugLine(slug, sequence);
        }
      }
    }
  }

  // ---- root entries ----

  /** How many leading lines are nested below the line before. */
  function Deep(ys: seq<Line>): (n: nat)
    ensures n <= |ys| && (n < |ys| ==> ys[n].indent == 0) && forall k :: 0 <= k < n ==> ys[k].indent > 0
  {
    if ys == [] || ys[0].indent == 0 then 0 else 1 + Deep(ys[1..])
  }

  lemma {:induction false} DeepIs(ys: seq<Line>, n: nat)
    requires n <= |ys| && (n < |ys| ==> ys[n].indent == 0) && forall k :: 0 <= k < n ==> ys[k].indent > 0
    ensures Deep(ys) == n
  {
    if n > 0 {
      DeepIs(ys[1..], n - 1);
    }
  }

  /** A root entry takes exactly the lines nested below it. */
  lemma EntryTakesDeep(content: string, below: seq<Line>, after: seq<Line>)
    requires Entry(content, below, 0).Some? && Entry(content, below, 0).value.1 == after
    requires after == [] || after[0].indent == 0
    ensures Deep(below) == |below| - |after| && after == below[Deep(below)..]
  {
    ValueConsumes(SplitKey(content).value.1, below, 0);
    var n := |below| - |after|;
    forall k | 0 <= k < n ensures below[k].indent > 0 {
      assert below[..n][k] == below[k];
    }
    assert n < |below| ==> below[n] == after[0];
    DeepIs(below, n);
  }

  lemma RelHead(ys: seq<Line>, zs: seq<Line>, inside: bool, status: string, slug: string, sequence: int)
    requires Rel(ys, zs, inside, status, slug, sequence) && ys != []
    ensures zs != [] && zs[0].indent == ys[0].indent
  {
  }

  /** At a line of indentation zero it no longer matters whether the region was open. */
  lemma RelAtRoot(ys: seq<Line>, zs: seq<Line>, inside: bool, status: string, slug: string, sequence: int)
    requires Rel(ys, zs, inside, status, slug, sequence) && (ys == [] || ys[0].indent == 0)
    ensures Rel(ys, zs, false, status, slug, sequence)
  {
  }

  lemma RelStep(ys: seq<Line>, zs: seq<Line>, inside: bool, status: string, slug: string, sequence: int)
    requires Rel(ys, zs, inside, status, slug, sequence) && ys != [] && ys[0].indent > 0
    ensures zs != [] && zs[0].indent > 0 && Rel(ys[1..], zs[1..], inside, status, slug, sequence)
    ensures zs[0] == ys[0] || (inside && SlugEdit(ys[0], zs[0], slug, sequence))
  {
  }

  lemma {:induction false} RelDeep(ys: seq<Line>, zs: seq<Line>, inside: bool, status: string, slug: string,
                                   sequence: int)
    requires Rel(ys, zs, inside, status, slug, sequence)
    ensures |zs| == |ys| && Deep(zs) == Deep(ys)
    ensures Rel(ys[Deep(ys)..], zs[Deep(ys)..], false, status, slug, sequence)
    decreases |ys|
  {
    if ys != [] && ys[0].indent > 0 {
      RelStep(ys, zs, inside, status, slug, sequence);
      RelDeep(ys[1..], zs[1..], inside, status, slug, sequence);
      DropTwice(ys, 1, Deep(ys[1..]));
      DropTwice(zs, 1, Deep(ys[1..]));
    } else {
      RelAtRoot(ys, zs, inside, status, slug, sequence);
      assert ys[0..] == ys && zs[0..] == zs;
      if ys != [] {
        RelHead(ys, zs, inside, status, slug, sequence);
      }
    }
  }

  lemma {:induction false} RelDeepSame(ys: seq<Line>, zs: seq<Line>, status: string, slug: string, sequence: int)
    requires Rel(ys, zs, false, status, slug, sequence)
    ensures |zs| == |ys| && ys[..Deep(ys)] == zs[..Deep(ys)]
    decreases |ys|
  {
    if ys != [] && ys[0].indent > 0 {
      RelStep(ys, zs, false, status, slug, sequence);
      RelDeepSame(ys[1..], zs[1..], status, slug, sequence);
      var n := Deep(ys[1..]);
      assert ys[..n + 1] == [ys[0]] + ys[1..][..n] && zs[..n + 1] == [zs[0]] + zs[1..][..n];
    }
  }

  /** Below an unedited head outside the region nothing changed, so the value is the same. */
  lemma SameBelow(content: string, below: seq<Line>, below': seq<Line>, e: (string, Value), after: seq<Line>,
                  e': (string, Value), after': seq<Line>, status: string, slug: string, sequence: int)
    requires Entry(content, below, 0) == Some((e, after)) && Entry(content, below', 0) == Some((e', after'))
    requires (after == [] || after[0].indent == 0) && (after' == [] || after'[0].indent == 0)
    requires Rel(below, below', false, status, slug, sequence)
    ensures e == e'
  {
    RelDeep(below, below', false, status, slug, sequence);
    RelDeepSame(below, below', status, slug, sequence);
    EntryTakesDeep(content, below, after);
    EntryTakesDeep(content, below', after');
    var n := Deep(below);
    assert below' == below[..n] + after';
    assert |below| - |after| == n;
    EntryLocal(content, below, 0, after, after');
    assert Swap(below, after, after') == below';
  }

  // ---- the sequence mapping ----

  predicate PairedEntry(e: (string, Value), e': (string, Value), slug: string) {
    e.0 == e'.0 && (e.0 == slug || e.1 == e'.1)
  }

  ghost predicate Paired(es: seq<(string, Value)>, es': seq<(string, Value)>, slug: string) {
    |es| == |es'| && forall i :: 0 <= i < |es| ==> PairedEntry(es[i], es'[i], slug)
  }

  predicate AllNumbers(es: seq<(string, Value)>) {
    forall i :: 0 <= i < |es| ==> es[i].1.Number?
  }

  lemma {:induction false} EntriesKeep(ls: seq<Line>, indent: nat, acc: seq<(string, Value)>)
    requires Entries(ls, indent, acc).Some?
    ensures acc <= Entries(ls, indent, acc).value.0
    decreases |ls|
  {
    if NestedAt(ls, indent) {
      var (entry, rest) := Entry(ls[0].content, ls[1..], indent).value;
      EntriesKeep(rest, indent, acc + [entry]);
    }
  }

  lemma BlockNoNumber(ls: seq<Line>, indent: nat)
    ensures Block(ls, indent).Some? ==> !Block(ls, indent).value.0.Number?
  {
  }

  /** A number stands on its own line. */
  lemma NumberEntry(content: string, below: seq<Line>, indent: nat)
    requires Entry(content, below, indent).Some? && Entry(content, below, indent).value.0.1.Number?
    ensures Entry(content, below, indent).value.1 == below
  {
    BlockNoNumber(below, indent + 2);
  }

  lemma SlugKey(content: string, slug: string)
    requires StartsWith(content, slug + ":") && IsKey(slug) && SplitKey(content).Some?
    ensures SplitKey(content).value.0 == slug
  {
    KeyTight(slug);
    var rest := content[|slug| + 1..];
    assert content == slug + ":" + rest;
    ColonAfter(slug, rest);
    assert content[..|slug|] == slug;
  }

  lemma SlugEditKey(a: Line, b: Line, slug: string, sequence: int)
    requires SlugEdit(a, b, slug, sequence) && IsKey(slug) && SplitKey(a.content).Some? && SplitKey(b.content).Some?
    ensures SplitKey(a.content).value.0 == slug && SplitKey(b.content).value.0 == slug
  {
    SlugKey(a.content, slug);
    assert slug + ":" <= b.content;
    SlugKey(b.content, slug);
  }

  lemma {:induction false} CountersPaired(ls: seq<Line>, ls': seq<Line>, acc: seq<(string, Value)>,
                                          acc': seq<(string, Value)>, status: string, slug: string, sequence: int)
    requires Rel(ls, ls', true, status, slug, sequence) && IsKey(slug)
    requires Entries(ls, 2, acc).Some? && Entries(ls', 2, acc').Some?
    requires AllNumbers(Entries(ls, 2, acc).value.0) && AllNumbers(Entries(ls', 2, acc').value.0)
    requires Paired(acc, acc', slug)
    ensures Paired(Entries(ls, 2, acc).value.0, Entries(ls', 2, acc').value.0, slug)
    decreases |ls|
  {
    if ls != [] {
      RelHead(ls, ls', true, status, slug, sequence);
    }
    if NestedAt(ls, 2) {
      RelStep(ls, ls', true, status, slug, sequence);
      var (e, after) := Entry(ls[0].content, ls[1..], 2).value;
      var (e', after') := Entry(ls'[0].content, ls'[1..], 2).value;
      EntriesKeep(after, 2, acc + [e]);
      EntriesKeep(after', 2, acc' + [e']);
      assert (acc + [e])[|acc|] == e && (acc' + [e'])[|acc'|] == e';
      NumberEntry(ls[0].content, ls[1..], 2);
      NumberEntry(ls'[0].content, ls'[1..], 2);
      if ls'[0] != ls[0] {
        SlugEditKey(ls[0], ls'[0], slug, sequence);
      } else {
        SameNumber(ls[0].content, ls[1..], ls'[1..], 2);
      }
      assert PairedEntry(e, e', slug);
      CountersPaired(ls[1..], ls'[1..], acc + [e], acc' + [e'], status, slug, sequence);
    }
  }

  lemma SameNumber(content: string, below: seq<Line>, below': seq<Line>, indent: nat)
    requires Entry(content, below, indent).Some? && Entry(content, below', indent).Some?
    requires Entry(content, below, indent).value.0.1.Number? && Entry(content, below', indent).value.0.1.Number?
    ensures Entry(content, below, indent).value.0 == Entry(content, below', indent).value.0
  {
    BlockNoNumber(below, indent + 2);
    BlockNoNumber(below', indent + 2);
  }

  // ---- the whole document ----

  ghost predicate MatchedEntry(e: (string, Value), e': (string, Value), slug: string) {
    && e.0 == e'.0
    && (|| e.1 == e'.1
        || e.0 == STATUS
        || (e.0 == SEQUENCES && (Counters(e.1) && Counters(e'.1) ==> Paired(e.1.entries, e'.1.entries, slug))))
  }

  ghost predicate Matched(es: seq<(string, Value)>, es': seq<(string, Value)>, slug: string) {
    |es| == |es'| && forall i :: 0 <= i < |es| ==> MatchedEntry(es[i], es'[i], slug)
  }

  lemma MappingBlock(ls: seq<Line>, indent: nat)
    requires Block(ls, indent).Some? && Block(ls, indent).value.0.Mapping?
    ensures Entries(ls, indent, []).Some? && Entries(ls, indent, []).value.0 == Block(ls, indent).value.0.entries
  {
  }

  lemma NestedEntry(content: string, below: seq<Line>)
    requires Entry(content, below, 0).Some? && SplitKey(content).value.1 == ""
    ensures Block(below, 2).Some? && Entry(content, below, 0).value.0.1 == Block(below, 2).value.0
  {
  }

  lemma ScalarEntry(content: string, below: seq<Line>)
    requires Entry(content, below, 0).Some? && SplitKey(content).value.1 != ""
    ensures Some(Entry(content, below, 0).value.0.1) == Scalar(SplitKey(content).value.1)
  {
  }

  lemma SequencesMatched(content: string, below: seq<Line>, below': seq<Line>, status: string, slug: string,
                         sequence: int)
    requires StartsWith(content, SEQUENCES + ":") && Rel(below, below', true, status, slug, sequence) && IsKey(slug)
    requires Entry(content, below, 0).Some? && Entry(content, below', 0).Some?
    ensures MatchedEntry(Entry(content, below, 0).value.0, Entry(content, below', 0).value.0, slug)
  {
    SlugKey(content, SEQUENCES);
    var e, e' := Entry(content, below, 0).value.0, Entry(content, below', 0).value.0;
    if SplitKey(content).value.1 != "" {
      ScalarEntry(content, below);
      ScalarEntry(content, below');
    } else if Counters(e.1) && Counters(e'.1) {
      NestedEntry(content, below);
      NestedEntry(content, below');
      MappingBlock(below, 2);
      MappingBlock(below', 2);
      assert AllNumbers(e.1.entries) && AllNumbers(e'.1.entries);
      CountersPaired(below, below', [], [], status, slug, sequence);
    }
  }

  lemma StatusMatched(a: Line, b: Line, status: string)
    requires StatusHead(a) && b == Line(0, STATUS + ": " + status) && SplitKey(a.content).Some?
             && SplitKey(b.content).Some?
    ensures SplitKey(a.content).value.0 == STATUS && SplitKey(b.content).value.0 == STATUS
  {
    SlugKey(a.content, STATUS);
    assert STATUS + ":" <= b.content;
    SlugKey(b.content, STATUS);
  }

  /** The entry a root head makes, and where the next one starts. */
  lemma RootStep(ls: seq<Line>, acc: seq<(string, Value)>, es: seq<(string, Value)>)
    returns (e: (string, Value), after: seq<Line>)
    requires Entries(ls, 0, acc) == Some((es, [])) && ls != []
    ensures ls[0].indent == 0 && Entry(ls[0].content, ls[1..], 0) == Some((e, after)) && !HasKey(acc, e.0)
    ensures Entries(after, 0, acc + [e]) == Some((es, [])) && (after == [] || after[0].indent == 0)
    ensures after == ls[1..][Deep(ls[1..])..]
  {
    e, after := Entry(ls[0].content, ls[1..], 0).value.0, Entry(ls[0].content, ls[1..], 0).value.1;
    EntryTakesDeep(ls[0].content, ls[1..], after);
  }

  lemma {:induction false} Roots(ys: seq<Line>, zs: seq<Line>, acc: seq<(string, Value)>, acc': seq<(string, Value)>,
                                 es: seq<(string, Value)>, es': seq<(string, Value)>, status: string, slug: string,
                                   sequence: int)
    requires Rel(ys, zs, false, status, slug, sequence) && IsKey(slug)
    requires Entries(ys, 0, acc) == Some((es, [])) && Entries(zs, 0, acc') == Some((es', []))
    requires Matched(acc, acc', slug)
    ensures Matched(es, es', slug)
    decreases |ys|
  {
    if ys != [] {
      var e, after := RootStep(ys, acc, es);
      var e', after' := RootStep(zs, acc', es');
      var inside := SequencesHead(ys[0]);
      RelDeep(ys[1..], zs[1..], inside, status, slug, sequence);
      RootMatched(ys, zs, e, after, e', after', status, slug, sequence);
      Roots(after, after', acc + [e], acc' + [e'], es, es', status, slug, sequence);
    }
  }

  lemma RootMatched(ys: seq<Line>, zs: seq<Line>, e: (string, Value), after: seq<Line>, e': (string, Value),
                    after': seq<Line>, status: string, slug: string, sequence: int)
    requires Rel(ys, zs, false, status, slug, sequence) && IsKey(slug) && ys != [] && zs != [] && ys[0].indent == 0
    requires Entry(ys[0].content, ys[1..], 0) == Some((e, after))
             && Entry(zs[0].content, zs[1..], 0) == Some((e', after'))
    requires (after == [] || after[0].indent == 0) && (after' == [] || after'[0].indent == 0)
    ensures MatchedEntry(e, e', slug)
  {
    if StatusHead(ys[0]) {
      StatusMatched(ys[0], zs[0], status);
    } else if SequencesHead(ys[0]) {
      SequencesMatched(ys[0].content, ys[1..], zs[1..], status, slug, sequence);
    } else {
      SameBelow(ys[0].content, ys[1..], zs[1..], e, after, e', after', status, slug, sequence);
    }
  }

  lemma StatusKey(status: string)
    requires Tight(status)
    ensures SplitKey(STATUS + ": " + status) == Some((STATUS, status))
  {
    KeyLine(STATUS, status);
  }

  /** A later root line is among the lines after the first entry. */
  lemma LaterRoot(zs: seq<Line>, k: nat)
    requires 0 < k < |zs| && zs[k].indent == 0
    ensures var n := Deep(zs[1..]); n <= k - 1 && zs[1..][n..][k - 1 - n] == zs[k]
  {
    var n := Deep(zs[1..]);
    assert zs[1..][k - 1] == zs[k];
  }

  /** The entry a root line makes: its key, and its scalar if it holds one. */
  ghost predicate Makes(content: string, e: (string, Value)) {
    && SplitKey(content).Some? && e.0 == SplitKey(content).value.0
    && if SplitKey(content).value.1 != "" then Scalar(SplitKey(content).value.1) == Some(e.1) else !e.1.Text?
  }

  lemma EntryMakes(content: string, below: seq<Line>, e: (string, Value), after: seq<Line>)
    requires Entry(content, below, 0) == Some((e, after))
    ensures Makes(content, e)
  {
    if SplitKey(content).value.1 != "" {
      ScalarEntry(content, below);
    } else {
      NestedEntry(content, below);
      BlockNoText(below, 2);
    }
  }

  lemma BlockNoText(ls: seq<Line>, indent: nat)
    ensures Block(ls, indent).Some? ==> !Block(ls, indent).value.0.Text?
  {
  }

  /** Every line at indentation zero makes a root entry. */
  lemma {:induction false} RootEntry(zs: seq<Line>, acc: seq<(string, Value)>, es: seq<(string, Value)>, k: nat)
    returns (i: nat)
    requires Entries(zs, 0, acc) == Some((es, [])) && k < |zs| && zs[k].indent == 0
    ensures i < |es| && Makes(zs[k].content, es[i])
    decreases |zs|
  {
    var e, after := RootStep(zs, acc, es);
    if k == 0 {
      EntryMakes(zs[0].content, zs[1..], e, after);
      EntriesKeep(after, 0, acc + [e]);
      i := |acc|;
      assert es[i] == e;
    } else {
      LaterRoot(zs, k);
      i := RootEntry(after, acc + [e], es, k - 1 - Deep(zs[1..]));
    }
  }

  lemma {:induction false} RelStatus(ys: seq<Line>, zs: seq<Line>, inside: bool, status: string, slug: string,
                                     sequence: int, k: nat)
    requires Rel(ys, zs, inside, status, slug, sequence) && k < |ys| && StatusHead(ys[k])
    ensures k < |zs| && zs[k] == Line(0, STATUS + ": " + status)
    decreases |ys|
  {
    if k > 0 {
      assert ys[1..][k - 1] == ys[k];
      RelStatus(ys[1..], zs[1..], Region(ys[0], inside), status, slug, sequence, k - 1);
    }
  }

  // ---- the map update ----

  function SetCounter(es: seq<(string, Value)>, slug: string, sequence: int): (r: seq<(string, Value)>)
    ensures |r| == |es|
    ensures forall i :: 0 <= i < |es| ==> r[i] == (es[i].0, if es[i].0 == slug then Number(sequence) else es[i].1)
  {
    if es == [] then []
    else [(es[0].0, if es[0].0 == slug then Number(sequence) else es[0].1)] + SetCounter(es[1..], slug, sequence)
  }

  function UpdatedValue(key: string, v: Value, status: string, slug: string, sequence: int): Value {
    if key == STATUS then Text(status)
    else if key == SEQUENCES && v.Mapping? then Mapping(SetCounter(v.entries, slug, sequence))
    else v
  }

  /** The root mapping with the status and one machine's sequence set, everything else as it was. */
  function Updated(es: seq<(string, Value)>, status: string, slug: string, sequence: int): (r: seq<(string, Value)>)
    ensures |r| == |es|
    ensures forall i :: 0 <= i < |es| ==> r[i] == (es[i].0, UpdatedValue(es[i].0, es[i].1, status, slug, sequence))
  {
    if es == [] then []
    else [(es[0].0, UpdatedValue(es[0].0, es[0].1, status, slug, sequence))] + Updated(es[1..], status, slug, sequence)
  }

  lemma {:induction false} LookupIs(es: seq<(string, Value)>, i: nat)
    requires DistinctKeys(es) && i < |es|
    ensures Lookup(es, es[i].0) == Some(es[i].1)
  {
    if i > 0 {
      assert es[0].0 != es[i].0;
      assert DistinctKeys(es[1..]) by {
        forall a, b | 0 <= a < b < |es[1..]| ensures es[1..][a].0 != es[1..][b].0 {
          assert es[1..][a] == es[a + 1] && es[1..][b] == es[b + 1];
        }
      }
      LookupIs(es[1..], i - 1);
    }
  }

  /** A scalar that reads as its own text, once stripped, is exactly that text: quoting would shorten it. */
  lemma PlainStatus(status: string, t: string)
    requires Tight(status) && Scalar(status) == Some(Text(t)) && Strip(t) == status
    ensures t == status
  {
    TightStrip(status);
    StripShortens(t);
  }

  lemma StripLeftShortens(s: string)
    ensures |StripLeft(s)| <= |s|
  {
  }

  lemma StripShortens(s: string)
    ensures |Strip(s)| <= |s|
  {
    StripLeftShortens(s);
    StripRightPrefix(StripLeft(s));
  }

  /** A paired sequence mapping whose slug has the new number is the updated mapping. */
  lemma CountersUpdated(es: seq<(string, Value)>, es': seq<(string, Value)>, slug: string, sequence: int)
    requires Paired(es, es', slug) && DistinctKeys(es') && Lookup(es', slug) == Some(Number(sequence))
    ensures es' == SetCounter(es, slug, sequence)
  {
    forall i | 0 <= i < |es| ensures es'[i] == SetCounter(es, slug, sequence)[i] {
      assert PairedEntry(es[i], es'[i], slug);
      if es'[i].0 == slug {
        LookupIs(es', i);
      }
    }
  }

  lemma {:induction false} LookupAt(es: seq<(string, Value)>, key: string) returns (i: nat)
    requires Lookup(es, key).Some?
    ensures i < |es| && es[i] == (key, Lookup(es, key).value)
  {
    if es[0].0 == key {
      i := 0;
    } else {
      i := LookupAt(es[1..], key);
      i := i + 1;
    }
  }

  /** What the two manifests say about a pair of root mappings. */
  ghost predicate Checked(es: seq<(string, Value)>, es': seq<(string, Value)>, status: string, slug: string,
                          sequence: int) {
    && RequiredString(es', STATUS) == Some(status)
    && Lookup(es, SEQUENCES).Some? && Counters(Lookup(es, SEQUENCES).value)
    && Lookup(es', SEQUENCES).Some? && Counters(Lookup(es', SEQUENCES).value)
    && Lookup(Lookup(es', SEQUENCES).value.entries, slug) == Some(Number(sequence))
  }

  lemma OneIndex(es: seq<(string, Value)>, i: nat, j: nat)
    requires DistinctKeys(es) && i < |es| && j < |es| && es[i].0 == es[j].0
    ensures i == j
  {
  }

  /** The status after the edit is the text itself. */
  lemma StatusUpdated(es': seq<(string, Value)>, i: nat, status: string)
    requires DistinctKeys(es') && i < |es'| && es'[i].0 == STATUS && RequiredString(es', STATUS) == Some(status)
    requires exists j :: 0 <= j < |es'| && es'[j].0 == STATUS && Scalar(status) == Some(es'[j].1)
    ensures es'[i].1 == Text(status)
  {
    var j :| 0 <= j < |es'| && es'[j].0 == STATUS && Scalar(status) == Some(es'[j].1);
    OneIndex(es', i, j);
    LookupIs(es', i);
    PlainStatus(status, es'[i].1.text);
  }

  lemma MatchedUpdated(es: seq<(string, Value)>, es': seq<(string, Value)>, status: string, slug: string, sequence: int)
    requires Matched(es, es', slug) && WellKeyed(Mapping(es)) && WellKeyed(Mapping(es'))
    requires Checked(es, es', status, slug, sequence)
    requires exists j :: 0 <= j < |es'| && es'[j].0 == STATUS && Scalar(status) == Some(es'[j].1)
    ensures es' == Updated(es, status, slug, sequence)
  {
    forall i | 0 <= i < |es| ensures es'[i] == Updated(es, status, slug, sequence)[i] {
      assert MatchedEntry(es[i], es'[i], slug);
      if es[i].0 == STATUS {
        StatusUpdated(es', i, status);
      } else if es[i].0 == SEQUENCES {
        LookupIs(es, i);
        LookupIs(es', i);
        assert WellKeyed(es'[i].1);
        if es[i].1 == es'[i].1 {
          assert forall j :: 0 <= j < |es[i].1.entries| ==> PairedEntry(es[i].1.entries[j], es'[i].1.entries[j], slug);
        }
        CountersUpdated(es[i].1.entries, es'[i].1.entries, slug, sequence);
      }
    }
  }

  /** A slug with a counter is a valid key. */
  lemma SlugIsKey(es': seq<(string, Value)>, slug: string)
    requires WellKeyed(Mapping(es')) && Lookup(es', SEQUENCES).Some? && Lookup(es', SEQUENCES).value.Mapping?
    requires Lookup(Lookup(es', SEQUENCES).value.entries, slug).Some?
    ensures IsKey(slug)
  {
    var i := LookupAt(es', SEQUENCES);
    assert WellKeyed(es'[i].1);
    var j := LookupAt(es'[i].1.entries, slug);
    assert ValidKeys(es'[i].1.entries);
  }

  lemma RequiredTight(es: seq<(string, Value)>, key: string)
    requires RequiredString(es, key).Some?
    ensures Tight(RequiredString(es, key).value) && RequiredString(es, key).value != ""
  {
  }

  lemma LinesUpdated(ys: seq<Line>, zs: seq<Line>, es: seq<(string, Value)>, es': seq<(string, Value)>,
                     status: string, slug: string, sequence: int)
    requires Document(ys) == Some(Mapping(es)) && Document(zs) == Some(Mapping(es'))
    requires Rel(ys, zs, false, status, slug, sequence) && (exists k :: 0 <= k < |ys| && StatusHead(ys[k]))
    requires IsKey(slug) && Checked(es, es', status, slug, sequence)
    ensures es' == Updated(es, status, slug, sequence)
  {
    DocumentKeys(ys);
    DocumentKeys(zs);
    MappingBlock(ys, 0);
    MappingBlock(zs, 0);
    Roots(ys, zs, [], [], es, es', status, slug, sequence);
    var k :| 0 <= k < |ys| && StatusHead(ys[k]);
    RelStatus(ys, zs, false, status, slug, sequence, k);
    var i := RootEntry(zs, [], es', k);
    RequiredTight(es', STATUS);
    StatusKey(status);
    MatchedUpdated(es, es', status, slug, sequence);
  }

  // ---- text ----

  lemma StatusLineWhole(status: string)
    requires OneLine(status)
    ensures Whole(StatusLine(status)) && StatusLine(status)[0] == 's'
            && StatusLine(status)[|StatusLine(status)| - 1] == '\n'
  {
    ChompLine(STATUS + ": " + status);
    BreakIs(StatusLine(status), |STATUS + ": " + status|);
  }

  lemma SlugLineWhole(slug: string, sequence: int)
    requires IsKey(slug)
    ensures var line := SlugLine(slug, sequence); Whole(line) && line[0] == ' ' && line[|line| - 1] == '\n'
  {
    var body := "  " + (slug + ": " + IntText(sequence));
    KeyOneLine(slug);
    IntTextPlain(sequence);
    assert OneLine(body);
    assert (body + "\n")[..|body|] == body;
    BreakIs(body + "\n", |body|);
  }

  lemma EditLineShape(line: string, raw: bool, status: string, slug: string, sequence: int)
    requires line != "" && OneLine(status) && IsKey(slug)
    ensures var e := EditLine(line, raw, status, slug, sequence);
            && e != "" && (e[0] == '\n' ==> line[0] == '\n')
            && (e == line || (Whole(e) && e[|e| - 1] == '\n'))
  {
    StatusLineWhole(status);
    SlugLineWhole(slug, sequence);
  }

  lemma CanonicalCons(line: string, more: seq<string>)
    requires line != "" && Canonical(more) && (Whole(line) || (more == [] && OneLine(line)))
    requires more != [] && more[0] != "" && line[|line| - 1] == '\r' ==> more[0][0] != '\n'
    ensures Canonical([line] + more)
  {
    ConsTail(line, more);
    assert more != [] ==> ([line] + more)[1] == more[0];
  }

  /** The edited lines can be joined and split again unchanged. */
  lemma {:induction false} EditedCanonical(ls: seq<string>, raw: bool, status: string, slug: string, sequence: int)
    requires Canonical(ls) && OneLine(status) && IsKey(slug)
    ensures Canonical(Edited(ls, raw, status, slug, sequence)) && |Edited(ls, raw, status, slug, sequence)| == |ls|
    ensures ls != [] ==> Edited(ls, raw, status, slug, sequence)[0] == EditLine(ls[0], raw, status, slug, sequence)
    decreases |ls|
  {
    if ls != [] {
      var next := !IsStatus(ls[0]) && Inside(ls[0], raw);
      var first, more := EditLine(ls[0], raw, status, slug, sequence), Edited(ls[1..], next, status, slug, sequence);
      EditedCanonical(ls[1..], next, status, slug, sequence);
      EditLineShape(ls[0], raw, status, slug, sequence);
      if |ls| > 1 {
        EditLineShape(ls[1], next, status, slug, sequence);
      }
      CanonicalCons(first, more);
    }
  }

  // ---- a status with a line break never gets through ----

  /** A whole line in front of other text is split off as it is. */
  lemma WholeFirst(f: string, rest: string)
    requires Whole(f) && (rest != "" && f[|f| - 1] == '\r' ==> rest[0] != '\n')
    ensures SplitKeep(f + rest) == [f] + SplitKeep(rest)
  {
    var s := f + rest;
    assert s[..|f|] == f && s[|f|..] == rest;
    BreakWithin(s, |f|);
  }

  /** The first line of a text whose first break is inside `head`. */
  lemma BrokenFirst(head: string, status: string, rest: string)
    requires OneLine(head) && head != "" && !OneLine(status)
    ensures var ls := SplitKeep(head + status + rest);
            ls != [] && Chomp(ls[0]) == head + status[..LineBreakAt(status)]
  {
    var k, s := LineBreakAt(status), head + status + rest;
    NotOneLine(status);
    var body := head + status[..k];
    assert s[..|head| + k] == body && s[|head| + k] == status[k];
    BreakIs(s, |head| + k);
    var w := FirstWidth(s);
    BreakWithin(s, w);
    assert s[..w][..|head| + k] == body;
  }

  lemma NotOneLine(s: string)
    requires !OneLine(s)
    ensures LineBreakAt(s) < |s|
  {
    assert s[..|s|] == s;
  }

  lemma BrokenHead(status: string, rest: string)
    requires !OneLine(status)
    ensures var out := SplitKeep(StatusLine(status) + rest);
            out != [] && Chomp(out[0]) == STATUS + ": " + status[..LineBreakAt(status)]
  {
    HeadKeys();
    KeyOneLine(STATUS);
    assert StatusLine(status) + rest == (STATUS + ": ") + status + ("\n" + rest);
    BrokenFirst(STATUS + ": ", status, "\n" + rest);
  }

  /** Before the status line the edited text splits as the edited lines do. */
  lemma BeforeStatus(ls: seq<string>, raw: bool, status: string, slug: string, sequence: int, rest: string)
    requires |ls| > 1 && Canonical(ls) && IsKey(slug) && !IsStatus(ls[0])
    requires rest == Join(Edited(ls[1..], Inside(ls[0], raw), status, slug, sequence))
    ensures SplitKeep(Join(Edited(ls, raw, status, slug, sequence))) ==
            [EditLine(ls[0], raw, status, slug, sequence)] + SplitKeep(rest)
  {
    var first := EditLine(ls[0], raw, status, slug, sequence);
    SlugLineWhole(slug, sequence);
    ConsTail(first, Edited(ls[1..], Inside(ls[0], raw), status, slug, sequence));
    if rest != "" {
      EditedFirst(ls[1..], Inside(ls[0], raw), status, slug, sequence);
    }
    WholeFirst(first, rest);
  }

  lemma {:induction false} BrokenLine(ls: seq<string>, raw: bool, status: string, slug: string, sequence: int)
    returns (m: nat)
    requires Canonical(ls) && IsKey(slug) && !OneLine(status) && StatusHits(ls) > 0
    ensures var out := SplitKeep(Join(Edited(ls, raw, status, slug, sequence)));
            m < |out| && Chomp(out[m]) == STATUS + ": " + status[..LineBreakAt(status)]
    decreases |ls|
  {
    if IsStatus(ls[0]) {
      var more := Edited(ls[1..], false, status, slug, sequence);
      ConsTail(StatusLine(status), more);
      BrokenHead(status, Join(more));
      m := 0;
    } else {
      m := BrokenLine(ls[1..], Inside(ls[0], raw), status, slug, sequence);
      BeforeStatus(ls, raw, status, slug, sequence, Join(Edited(ls[1..], Inside(ls[0], raw), status, slug, sequence)));
      m := m + 1;
    }
  }

  lemma EditedFirst(ls: seq<string>, raw: bool, status: string, slug: string, sequence: int)
    requires ls != [] && ls[0] != "" && Join(Edited(ls, raw, status, slug, sequence)) != ""
    ensures ls[0][0] != '\n' ==> Join(Edited(ls, raw, status, slug, sequence))[0] != '\n'
  {
    HeadKeys();
    var first := EditLine(ls[0], raw, status, slug, sequence);
    assert StatusLine(status)[0] == STATUS[0] && SlugLine(slug, sequence)[0] == ' ';
    assert first != "" && Edited(ls, raw, status, slug, sequence)[0] == first;
  }

  lemma {:induction false} ReadsAt(ls: seq<string>, m: nat)
    requires ReadLines(ls).Some? && m < |ls|
    ensures !ReadLine(ls[m]).Bad?
    ensures ReadLine(ls[m]).Kept? ==> ReadLine(ls[m]).line in ReadLines(ls).value
  {
    if m > 0 {
      ReadsAt(ls[1..], m - 1);
    }
  }

  lemma ScalarTextShort(w: string)
    ensures Scalar(w).Some? && Scalar(w).value.Text? ==> |Scalar(w).value.text| <= |w|
  {
    StripShortens(w);
  }

  /** A root line `status: x` allows no status longer than x. */
  lemma ShortStatus(zs: seq<Line>, es: seq<(string, Value)>, x: string, status: string)
    requires Document(zs) == Some(Mapping(es)) && Line(0, STATUS + ": " + x) in zs
    requires RequiredString(es, STATUS) == Some(status)
    ensures |status| <= |x|
  {
    var k :| 0 <= k < |zs| && zs[k] == Line(0, STATUS + ": " + x);
    MappingBlock(zs, 0);
    DocumentKeys(zs);
    var i := RootEntry(zs, [], es, k);
    LooseStatusKey(x);
    LookupIs(es, i);
    ScalarTextShort(SplitKey(STATUS + ": " + x).value.1);
    StripShortens(es[i].1.text);
  }

  lemma LooseStatusKey(x: string)
    ensures SplitKey(STATUS + ": " + x).Some? && SplitKey(STATUS + ": " + x).value.0 == STATUS
    ensures |SplitKey(STATUS + ": " + x).value.1| <= |x|
  {
    HeadKeys();
    KeyTight(STATUS);
    ColonAfter(STATUS, " " + x);
    var s := STATUS + ": " + x;
    assert s == STATUS + ":" + (" " + x) && s[..|STATUS|] == STATUS && s[|STATUS| + 1..] == " " + x;
    assert Strip(" " + x) == Strip(x);
    StripShortens(x);
  }

  lemma BrokenStatusFails(ls: seq<string>, status: string, slug: string, sequence: int, path: string -> Option<string>)
    requires Canonical(ls) && IsKey(slug) && !OneLine(status) && StatusHits(ls) > 0
    requires ManifestOf(ParseText(Join(Edited(ls, false, status, slug, sequence))), path).Some?
    ensures ManifestOf(ParseText(Join(Edited(ls, false, status, slug, sequence))), path).value.status != status
  {
    var out := SplitKeep(Join(Edited(ls, false, status, slug, sequence)));
    var m := BrokenLine(ls, false, status, slug, sequence);
    var x := status[..LineBreakAt(status)];
    NotOneLine(status);
    HeadKeys();
    assert Chomp(out[m])[0] == STATUS[0];
    ReadFlush(out[m]);
    ReadsAt(out, m);
    ShortStatus(ReadLines(out).value, ParseLines(out).value.entries, x,
                ManifestOf(ParseText(Join(Edited(ls, false, status, slug, sequence))), path).value.status);
  }

  lemma StatusIsOneLine(text: string, status: string, slug: string, sequence: int, path: string -> Option<string>)
    ensures Project(text, status, slug, sequence, path).Some? ==> OneLine(status)
  {
    if Project(text, status, slug, sequence, path).Some? && !OneLine(status) {
      var out := Project(text, status, slug, sequence, path).value;
      ParsedKeys(out);
      SlugIsKey(ParseText(out).value.entries, slug);
      SplitCanonical(text);
      BrokenStatusFails(SplitKeep(text), status, slug, sequence, path);
      assert false;
    }
  }

  /** Whenever the projection succeeds, parsing its output equals parsing its input with only the status
      and the one machine's sequence changed: same keys in the same order, every other value untouched. */
  lemma ProjectionCommutes(text: string, status: string, slug: string, sequence: int, path: string -> Option<string>)
    requires Project(text, status, slug, sequence, path).Some?
    ensures var out := Project(text, status, slug, sequence, path).value;
            && ParseText(text).Some? && ParseText(text).value.Mapping?
            && ParseText(out) == Some(Mapping(Updated(ParseText(text).value.entries, status, slug, sequence)))
  {
    var ls, out := SplitKeep(text), Project(text, status, slug, sequence, path).value;
    var edited := Edited(ls, false, status, slug, sequence);
    var before, after := ParseText(text).value.entries, ParseText(out).value.entries;
    StatusIsOneLine(text, status, slug, sequence, path);
    ParsedKeys(out);
    SlugIsKey(after, slug);
    SplitCanonical(text);
    EditedCanonical(ls, false, status, slug, sequence);
    SplitJoin(edited);
    ReadEdited(ls, false, false, status, slug, sequence);
    LinesUpdated(ReadLines(ls).value, ReadLines(edited).value, before, after, status, slug, sequence);
  }

  lemma ParsedKeys(text: string)
    requires ParseText(text).Some?
    ensures WellKeyed(ParseText(text).value)
  {
    DocumentKeys(ReadLines(SplitKeep(text)).value);
  }
}
