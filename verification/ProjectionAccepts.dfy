/** Which documents the projection accepts for certain: a printed manifest, whatever else it holds. */
module ProjectionAccepts {
  import opened Common
  import opened Text
  import opened Yaml
  import opened YamlPrint
  import opened Documents
  import opened DocumentPrint
  import opened Projection
  import opened ProjectionLaws

  // ---- the pass over a document in pieces ----

  /** Whether the sequence region is open after these lines. */
  function RegionAfter(ls: seq<string>, inside: bool): bool {
    if ls == [] then inside else RegionAfter(ls[1..], !IsStatus(ls[0]) && Inside(ls[0], inside))
  }

  /** The pass over some lines: what it writes, where it leaves the region, and what it counts. */
  ghost predicate Passes(ls: seq<string>, inside: bool, status: string, slug: string, sequence: int, out: seq<string>,
                         after: bool, statusHits: nat, slugHits: nat)
  {
    && Edited(ls, inside, status, slug, sequence) == out && RegionAfter(ls, inside) == after
    && StatusHits(ls) == statusHits && SlugHits(ls, inside, slug) == slugHits
  }

  lemma {:induction false} EditedConcat(a: seq<string>, b: seq<string>, inside: bool, status: string, slug: string,
                                        sequence: int)
    ensures Edited(a + b, inside, status, slug, sequence) ==
            Edited(a, inside, status, slug, sequence) + Edited(b, RegionAfter(a, inside), status, slug, sequence)
    decreases |a|
  {
    if a == [] {
      assert a + b == b;
    } else {
      var next := !IsStatus(a[0]) && Inside(a[0], inside);
      EditedConcat(a[1..], b, next, status, slug, sequence);
      assert (a + b)[0] == a[0] && (a + b)[1..] == a[1..] + b;
      Assoc([EditLine(a[0], inside, status, slug, sequence)], Edited(a[1..], next, status, slug, sequence),
            Edited(b, RegionAfter(a, inside), status, slug, sequence));
    }
  }

  lemma {:induction false} CountsConcat(a: seq<string>, b: seq<string>, inside: bool, slug: string)
    ensures RegionAfter(a + b, inside) == RegionAfter(b, RegionAfter(a, inside))
    ensures StatusHits(a + b) == StatusHits(a) + StatusHits(b)
    ensures SlugHits(a + b, inside, slug) == SlugHits(a, inside, slug) + SlugHits(b, RegionAfter(a, inside), slug)
    decreases |a|
  {
    if a == [] {
      assert a + b == b;
    } else {
      CountsConcat(a[1..], b, !IsStatus(a[0]) && Inside(a[0], inside), slug);
      assert (a + b)[0] == a[0] && (a + b)[1..] == a[1..] + b;
    }
  }

  lemma PassesOn(a: seq<string>, b: seq<string>, inside: bool, status: string, slug: string, sequence: int,
                 out: seq<string>, mid: bool, s: nat, n: nat, out': seq<string>, after: bool, s': nat, n': nat)
    requires Passes(a, inside, status, slug, sequence, out, mid, s, n)
    requires Passes(b, mid, status, slug, sequence, out', after, s', n')
    ensures Passes(a + b, inside, status, slug, sequence, out + out', after, s + s', n + n')
  {
    EditedConcat(a, b, inside, status, slug, sequence);
    CountsConcat(a, b, inside, slug);
  }

  /** One line. */
  lemma PassesOne(line: string, inside: bool, status: string, slug: string, sequence: int)
    ensures var hit := !IsStatus(line) && IsSlug(line, inside, slug);
            Passes([line], inside, status, slug, sequence, [EditLine(line, inside, status, slug, sequence)],
                   !IsStatus(line) && Inside(line, inside), if IsStatus(line) then 1 else 0, if hit then 1 else 0)
  {
    assert [line][1..] == [];
  }

  lemma {:induction false} PrintConcat(a: seq<Line>, b: seq<Line>)
    ensures PrintLines(a + b) == PrintLines(a) + PrintLines(b)
    decreases |a|
  {
    if a == [] {
      assert a + b == b;
    } else {
      PrintConcat(a[1..], b);
      assert (a + b)[0] == a[0] && (a + b)[1..] == a[1..] + b;
    }
  }

  lemma PrintOne(a: Line)
    ensures PrintLines([a]) == [PrintLine(a)]
  {
    assert [a][1..] == [];
  }

  // ---- lines ----

  /** Of two keys with their colons one starts with the other only if they are the same. */
  lemma KeyStarts(key: string, other: string, more: string)
    requires IsKey(key) && IsKey(other)
    ensures StartsWith(key + ":" + more, other + ":") <==> key == other
  {
    var s, p := key + ":" + more, other + ":";
    KeyTight(key);
    KeyTight(other);
    ColonAfter(key, more);
    assert s[..|key|] == key;
    if StartsWith(s, p) {
      var rest := s[|p|..];
      assert s == other + ":" + rest;
      ColonAfter(other, rest);
      assert s[..|other|] == other;
    }
    assert key == other ==> s == p + more;
  }

  /** A root line with a key. */
  lemma RootLine(key: string, more: string, inside: bool, status: string, slug: string, sequence: int)
    requires IsKey(key)
    ensures var line := key + ":" + more;
            Passes([line], inside, status, slug, sequence, [if key == STATUS then StatusLine(status) else line],
                   key == SEQUENCES, if key == STATUS then 1 else 0, 0)
  {
    var line := key + ":" + more;
    HeadKeys();
    KeyStarts(key, STATUS, more);
    KeyStarts(key, SEQUENCES, more);
    assert line[0] == key[0] && ("  " + (slug + ":"))[0] == ' ' && "  "[0] == ' ';
    PassesOne(line, inside, status, slug, sequence);
  }

  /** A line at least two deep is none of the three outside the region. */
  lemma DeepLine(a: Line, status: string, slug: string, sequence: int)
    requires a.indent >= 2
    ensures Passes([PrintLine(a)], false, status, slug, sequence, [PrintLine(a)], false, 0, 0)
  {
    HeadKeys();
    assert PrintLine(a)[0] == ' ';
    PassesOne(PrintLine(a), false, status, slug, sequence);
  }

  lemma {:induction false} DeepLines(xs: seq<Line>, status: string, slug: string, sequence: int)
    requires forall k :: 0 <= k < |xs| ==> xs[k].indent >= 2
    ensures Passes(PrintLines(xs), false, status, slug, sequence, PrintLines(xs), false, 0, 0)
    decreases |xs|
  {
    if xs != [] {
      DeepLine(xs[0], status, slug, sequence);
      DeepLines(xs[1..], status, slug, sequence);
      PassesOn([PrintLine(xs[0])], PrintLines(xs[1..]), false, status, slug, sequence, [PrintLine(xs[0])], false, 0, 0,
               PrintLines(xs[1..]), false, 0, 0);
    }
  }

  // ---- the counters ----

  /** What a counter line becomes. */
  function Counter(entry: (string, Value), slug: string, sequence: int): (string, Value) {
    (entry.0, if entry.0 == slug then Number(sequence) else entry.1)
  }

  function CounterLine(entry: (string, Value)): Line
    requires entry.1.Number?
  {
    Line(2, entry.0 + ": " + IntText(entry.1.number))
  }

  lemma PadTwo()
    ensures Pad(2) == "  "
  {
    assert Pad(1) == " " + Pad(0);
    assert Pad(2) == " " + Pad(1);
  }

  lemma Regrouped(key: string, text: string)
    ensures "  " + (key + ": " + text) + "\n" == "  " + (key + ":" + (" " + text + "\n"))
  {
  }

  lemma CounterText(entry: (string, Value))
    requires entry.1.Number?
    ensures RenderEntry(entry, 2) == [CounterLine(entry)]
    ensures PrintLine(CounterLine(entry)) == "  " + (entry.0 + ": " + IntText(entry.1.number)) + "\n"
    ensures PrintLine(CounterLine(entry)) == "  " + (entry.0 + ":" + (" " + IntText(entry.1.number) + "\n"))
  {
    PadTwo();
    Regrouped(entry.0, IntText(entry.1.number));
    assert ScalarText(entry.1) == IntText(entry.1.number);
  }

  lemma CounterPasses(entry: (string, Value), status: string, slug: string, sequence: int)
    requires entry.1.Number? && IsKey(entry.0) && IsKey(slug)
    ensures Passes([PrintLine(CounterLine(entry))], true, status, slug, sequence,
                   [PrintLine(CounterLine(Counter(entry, slug, sequence)))], true, 0, if entry.0 == slug then 1 else 0)
  {
    var line, more := PrintLine(CounterLine(entry)), " " + IntText(entry.1.number) + "\n";
    HeadKeys();
    CounterText(entry);
    CounterText(Counter(entry, slug, sequence));
    KeyStarts(entry.0, slug, more);
    Deeper(entry.0 + ":" + more, slug + ":");
    assert line[0] == ' ' && StartsWith(line, "  ");
    assert SlugLine(slug, sequence) == "  " + (slug + ": " + IntText(sequence)) + "\n";
    PassesOne(line, true, status, slug, sequence);
  }

  lemma Deeper(s: string, p: string)
    ensures StartsWith("  " + s, "  " + p) <==> StartsWith(s, p)
  {
    if StartsWith("  " + s, "  " + p) {
      assert forall k :: 0 <= k < |p| ==> s[k] == ("  " + s)[k + 2] == ("  " + p)[k + 2] == p[k];
    }
    if StartsWith(s, p) {
      assert ("  " + s)[..|"  " + p|] == "  " + p;
    }
  }

  predicate CountersOk(es: seq<(string, Value)>) {
    forall i :: 0 <= i < |es| ==> es[i].1.Number? && IsKey(es[i].0)
  }

  function Mine(es: seq<(string, Value)>, slug: string): nat {
    if es == [] then 0 else (if es[0].0 == slug then 1 else 0) + Mine(es[1..], slug)
  }

  lemma {:induction false} CountersPass(es: seq<(string, Value)>, status: string, slug: string, sequence: int)
    requires CountersOk(es) && IsKey(slug)
    ensures Passes(PrintLines(RenderEntries(es, 2)), true, status, slug, sequence,
                   PrintLines(RenderEntries(SetCounter(es, slug, sequence), 2)), true, 0, Mine(es, slug))
    decreases |es|
  {
    if es != [] {
      var entry, next := es[0], Counter(es[0], slug, sequence);
      var rest, done := RenderEntries(es[1..], 2), RenderEntries(SetCounter(es[1..], slug, sequence), 2);
      CountersPass(es[1..], status, slug, sequence);
      CounterPasses(entry, status, slug, sequence);
      CounterText(entry);
      CounterText(next);
      assert SetCounter(es, slug, sequence) == [next] + SetCounter(es[1..], slug, sequence);
      ConsTail(next, SetCounter(es[1..], slug, sequence));
      PrintConcat([CounterLine(entry)], rest);
      PrintConcat([CounterLine(next)], done);
      PrintOne(CounterLine(entry));
      PrintOne(CounterLine(next));
      PassesOn([PrintLine(CounterLine(entry))], PrintLines(rest), true, status, slug, sequence,
               [PrintLine(CounterLine(next))], true, 0, if entry.0 == slug then 1 else 0, PrintLines(done), true, 0,
               Mine(es[1..], slug));
    }
  }

  // ---- one entry ----

  /** All lines of a rendering are as deep as it is. */
  lemma {:induction false} RenderDeep(v: Value, indent: nat)
    requires !IsScalar(v)
    ensures forall k :: 0 <= k < |Render(v, indent)| ==> Render(v, indent)[k].indent >= indent
    decreases v, 0
  {
    if v.List? {
      ItemsDeep(v.items, indent);
    } else {
      EntriesDeep(v.entries, indent);
    }
  }

  lemma {:induction false} ItemsDeep(items: seq<Value>, indent: nat)
    ensures forall k :: 0 <= k < |RenderItems(items, indent)| ==> RenderItems(items, indent)[k].indent >= indent
    decreases items, 0
  {
    if items != [] {
      ItemDeep(items[0], indent);
      ItemsDeep(items[1..], indent);
    }
  }

  lemma {:induction false} ItemDeep(v: Value, indent: nat)
    ensures forall k :: 0 <= k < |RenderItem(v, indent)| ==> RenderItem(v, indent)[k].indent >= indent
    decreases v, 1
  {
    if !IsScalar(v) {
      if v.Mapping? && v.entries != [] && IsScalar(v.entries[0].1) {
        EntriesDeep(v.entries[1..], indent + 2);
      } else {
        RenderDeep(v, indent + 2);
      }
    }
  }

  lemma {:induction false} EntriesDeep(entries: seq<(string, Value)>, indent: nat)
    ensures forall k :: 0 <= k < |RenderEntries(entries, indent)| ==> RenderEntries(entries, indent)[k].indent >= indent
    decreases entries, 0
  {
    if entries != [] {
      EntryDeep(entries[0], indent);
      EntriesDeep(entries[1..], indent);
    }
  }

  lemma {:induction false} EntryDeep(entry: (string, Value), indent: nat)
    ensures forall k :: 0 <= k < |RenderEntry(entry, indent)| ==> RenderEntry(entry, indent)[k].indent >= indent
    decreases entry, 1
  {
    if !IsScalar(entry.1) {
      RenderDeep(entry.1, indent + 2);
    }
  }

  /** An entry of a manifest: the status is a scalar, the counters are numbers under keys. */
  predicate EntryOk(entry: (string, Value)) {
    && IsKey(entry.0) && Printable(entry.1) && (entry.0 == STATUS ==> IsScalar(entry.1))
    && (entry.0 == SEQUENCES ==> entry.1.Mapping? && CountersOk(entry.1.entries))
  }

  /** The lines that the edit makes of an entry. */
  function Bare(entry: (string, Value), status: string, slug: string, sequence: int): seq<Line> {
    if entry.0 == STATUS then [Line(0, STATUS + ": " + status)]
    else RenderEntry((entry.0, UpdatedValue(entry.0, entry.1, status, slug, sequence)), 0)
  }

  function Hits(entry: (string, Value), slug: string): nat {
    if entry.0 == SEQUENCES && entry.1.Mapping? then Mine(entry.1.entries, slug) else 0
  }

  lemma RootText(content: string, key: string, more: string)
    requires content == key + ":" + more
    ensures PrintLine(Line(0, content)) == key + ":" + (more + "\n")
  {
    assert Pad(0) + content == content;
  }

  lemma ScalarPasses(entry: (string, Value), inside: bool, status: string, slug: string, sequence: int)
    requires EntryOk(entry) && IsScalar(entry.1)
    ensures Passes(PrintLines(RenderEntry(entry, 0)), inside, status, slug, sequence,
                   PrintLines(Bare(entry, status, slug, sequence)), false, if entry.0 == STATUS then 1 else 0, 0)
  {
    var content := entry.0 + ": " + ScalarText(entry.1);
    assert content == entry.0 + ":" + (" " + ScalarText(entry.1));
    RootText(content, entry.0, " " + ScalarText(entry.1));
    RootLine(entry.0, " " + ScalarText(entry.1) + "\n", inside, status, slug, sequence);
    PrintOne(Line(0, content));
    PrintOne(Line(0, STATUS + ": " + status));
    assert PrintLine(Line(0, STATUS + ": " + status)) == StatusLine(status);
  }

  /** An entry whose value is nested below its key. */
  lemma NestedPasses(entry: (string, Value), inside: bool, status: string, slug: string, sequence: int)
    requires EntryOk(entry) && !IsScalar(entry.1) && IsKey(slug)
    ensures Passes(PrintLines(RenderEntry(entry, 0)), inside, status, slug, sequence,
                   PrintLines(Bare(entry, status, slug, sequence)), entry.0 == SEQUENCES, 0, Hits(entry, slug))
  {
    var head, below := Line(0, entry.0 + ":"), Render(entry.1, 2);
    var next := Render(UpdatedValue(entry.0, entry.1, status, slug, sequence), 2);
    assert entry.0 + ":" == entry.0 + ":" + "";
    RootText(entry.0 + ":", entry.0, "");
    RootLine(entry.0, "" + "\n", inside, status, slug, sequence);
    if entry.0 == SEQUENCES {
      CountersPass(entry.1.entries, status, slug, sequence);
    } else {
      RenderDeep(entry.1, 2);
      DeepLines(below, status, slug, sequence);
    }
    PrintConcat([head], below);
    PrintConcat([head], next);
    PrintOne(head);
    PassesOn([PrintLine(head)], PrintLines(below), inside, status, slug, sequence, [PrintLine(head)],
             entry.0 == SEQUENCES, 0, 0, PrintLines(next), entry.0 == SEQUENCES, 0, Hits(entry, slug));
  }

  // ---- all entries ----

  function BareAll(es: seq<(string, Value)>, status: string, slug: string, sequence: int): seq<Line> {
    if es == [] then [] else Bare(es[0], status, slug, sequence) + BareAll(es[1..], status, slug, sequence)
  }

  predicate AllOk(es: seq<(string, Value)>) {
    forall i :: 0 <= i < |es| ==> EntryOk(es[i])
  }

  function Statuses(es: seq<(string, Value)>): nat {
    if es == [] then 0 else (if es[0].0 == STATUS then 1 else 0) + Statuses(es[1..])
  }

  function AllHits(es: seq<(string, Value)>, slug: string): nat {
    if es == [] then 0 else Hits(es[0], slug) + AllHits(es[1..], slug)
  }

  lemma EntryPasses(entry: (string, Value), inside: bool, status: string, slug: string, sequence: int)
    returns (after: bool)
    requires EntryOk(entry) && IsKey(slug)
    ensures Passes(PrintLines(RenderEntry(entry, 0)), inside, status, slug, sequence,
                   PrintLines(Bare(entry, status, slug, sequence)), after, if entry.0 == STATUS then 1 else 0,
                   Hits(entry, slug))
  {
    if IsScalar(entry.1) {
      ScalarPasses(entry, inside, status, slug, sequence);
      after := false;
    } else {
      NestedPasses(entry, inside, status, slug, sequence);
      after := entry.0 == SEQUENCES;
    }
  }

  lemma {:induction false} EntriesPass(es: seq<(string, Value)>, inside: bool, status: string, slug: string,
                                       sequence: int)
    returns (after: bool)
    requires AllOk(es) && IsKey(slug)
    ensures Passes(PrintLines(RenderEntries(es, 0)), inside, status, slug, sequence,
                   PrintLines(BareAll(es, status, slug, sequence)), after, Statuses(es), AllHits(es, slug))
    decreases |es|
  {
    if es == [] {
      after := inside;
    } else {
      var mid := EntryPasses(es[0], inside, status, slug, sequence);
      after := EntriesPass(es[1..], mid, status, slug, sequence);
      var first, rest := RenderEntry(es[0], 0), RenderEntries(es[1..], 0);
      var head, tail := Bare(es[0], status, slug, sequence), BareAll(es[1..], status, slug, sequence);
      PrintConcat(first, rest);
      PrintConcat(head, tail);
      PassesOn(PrintLines(first), PrintLines(rest), inside, status, slug, sequence, PrintLines(head), mid,
               if es[0].0 == STATUS then 1 else 0, Hits(es[0], slug), PrintLines(tail), after, Statuses(es[1..]),
               AllHits(es[1..], slug));
    }
  }

  lemma {:induction false} NoneCounted(es: seq<(string, Value)>, slug: string)
    ensures (forall i :: 0 <= i < |es| ==> es[i].0 != STATUS) ==> Statuses(es) == 0
    ensures (forall i :: 0 <= i < |es| ==> es[i].0 != SEQUENCES) ==> AllHits(es, slug) == 0
    ensures (forall i :: 0 <= i < |es| ==> es[i].0 != slug) ==> Mine(es, slug) == 0
    decreases |es|
  {
    if es != [] {
      NoneCounted(es[1..], slug);
      assert forall i :: 0 < i < |es| ==> es[i] == es[1..][i - 1];
    }
  }

  lemma Rest(es: seq<(string, Value)>)
    requires es != [] && KeysOk(es)
    ensures KeysOk(es[1..]) && forall i :: 0 <= i < |es[1..]| ==> es[1..][i].0 != es[0].0
  {
    assert forall i :: 0 <= i < |es[1..]| ==> es[1..][i] == es[i + 1];
  }

  /** Each key is counted once. */
  lemma {:induction false} OneCounted(es: seq<(string, Value)>, slug: string)
    requires KeysOk(es)
    ensures Lookup(es, STATUS).Some? ==> Statuses(es) == 1
    ensures Lookup(es, slug).Some? ==> Mine(es, slug) == 1
    decreases |es|
  {
    if es != [] {
      Rest(es);
      OneCounted(es[1..], slug);
      NoneCounted(es[1..], slug);
    }
  }

  lemma {:induction false} OneHit(es: seq<(string, Value)>, slug: string)
    requires KeysOk(es) && AllOk(es) && Lookup(es, SEQUENCES).Some?
    ensures AllHits(es, slug) == Hits((SEQUENCES, Lookup(es, SEQUENCES).value), slug)
    decreases |es|
  {
    Rest(es);
    if es[0].0 == SEQUENCES {
      NoneCounted(es[1..], slug);
    } else {
      assert forall i :: 0 <= i < |es[1..]| ==> es[1..][i] == es[i + 1];
      OneHit(es[1..], slug);
    }
  }

  // ---- what the edited lines read as ----

  /** A status that stands as it is on its line. */
  predicate PlainText(status: string) {
    status != "" && Tight(status) && OneLine(status) && '\t' !in status && Scalar(status) == Some(Text(status))
  }

  /** The states of the feature loop are such: capitals and underscores. */
  lemma CapitalsPlain(status: string)
    requires |status| > 5 && forall k :: 0 <= k < |status| ==> 'A' <= status[k] <= 'Z' || status[k] == '_'
    ensures PlainText(status)
  {
    TightStrip(status);
    assert !AllDigits(status) by {
      assert !('0' <= status[0] <= '9');
    }
  }

  function New(entry: (string, Value), status: string, slug: string, sequence: int): (string, Value) {
    (entry.0, UpdatedValue(entry.0, entry.1, status, slug, sequence))
  }

  lemma UpdatedPrintable(entry: (string, Value), status: string, slug: string, sequence: int)
    requires EntryOk(entry)
    ensures Printable(New(entry, status, slug, sequence).1)
  {
    if entry.0 == SEQUENCES {
      var es, after := entry.1.entries, SetCounter(entry.1.entries, slug, sequence);
      assert forall i :: 0 <= i < |es| ==> after[i].0 == es[i].0 && after[i].1.Number?;
    }
  }

  lemma BareTidy(entry: (string, Value), status: string, slug: string, sequence: int)
    requires EntryOk(entry) && PlainText(status)
    ensures AllTidy(Bare(entry, status, slug, sequence))
  {
    HeadKeys();
    UpdatedPrintable(entry, status, slug, sequence);
    if entry.0 == STATUS {
      EntryTidy(STATUS, status);
    } else {
      OneEntryTidy(New(entry, status, slug, sequence), 0);
    }
  }

  lemma {:induction false} AllBareTidy(es: seq<(string, Value)>, status: string, slug: string, sequence: int)
    requires AllOk(es) && PlainText(status)
    ensures AllTidy(BareAll(es, status, slug, sequence))
    decreases |es|
  {
    if es != [] {
      BareTidy(es[0], status, slug, sequence);
      AllBareTidy(es[1..], status, slug, sequence);
    }
  }

  lemma BareFirst(es: seq<(string, Value)>, status: string, slug: string, sequence: int)
    requires es != []
    ensures var ls := BareAll(es, status, slug, sequence);
            ls != [] && ls[0].indent == 0 && Shallower(BareAll(es[1..], status, slug, sequence), 2)
  {
    if |es| > 1 {
      assert Bare(es[1..][0], status, slug, sequence)[0].indent == 0;
    }
  }

  lemma BareBack(entry: (string, Value), more: seq<Line>, status: string, slug: string, sequence: int)
    requires EntryOk(entry) && PlainText(status) && Shallower(more, 2)
    ensures var ls := Bare(entry, status, slug, sequence) + more;
            NestedAt(ls, 0) && !IsItem(ls[0].content)
            && Entry(ls[0].content, ls[1..], 0) == Some((New(entry, status, slug, sequence), more))
  {
    if entry.0 == STATUS {
      KeyLine(STATUS, status);
      ConsTail(Line(0, STATUS + ": " + status), more);
    } else {
      UpdatedPrintable(entry, status, slug, sequence);
      EntryBack(New(entry, status, slug, sequence), 0, more);
    }
  }

  lemma NotHad(acc: seq<(string, Value)>, es: seq<(string, Value)>, next: (string, Value))
    requires es != [] && KeysOk(es) && next.0 == es[0].0 && forall i :: 0 <= i < |es| ==> !HasKey(acc, es[i].0)
    ensures forall i :: 0 <= i < |es[1..]| ==> !HasKey(acc + [next], es[1..][i].0)
  {
    Rest(es);
    forall i | 0 <= i < |es[1..]| ensures !HasKey(acc + [next], es[1..][i].0) {
      assert !HasKey(acc, es[i + 1].0) && es[1..][i] == es[i + 1];
    }
  }

  lemma {:induction false} AllBareBack(es: seq<(string, Value)>, acc: seq<(string, Value)>, status: string,
                                       slug: string, sequence: int)
    requires AllOk(es) && KeysOk(es) && PlainText(status) && forall i :: 0 <= i < |es| ==> !HasKey(acc, es[i].0)
    ensures Entries(BareAll(es, status, slug, sequence), 0, acc) ==
            Some((acc + Updated(es, status, slug, sequence), []))
    decreases |es|
  {
    if es == [] {
      assert acc + [] == acc;
    } else {
      var next, more := New(es[0], status, slug, sequence), BareAll(es[1..], status, slug, sequence);
      Rest(es);
      BareFirst(es, status, slug, sequence);
      BareBack(es[0], more, status, slug, sequence);
      NotHad(acc, es, next);
      AllBareBack(es[1..], acc + [next], status, slug, sequence);
      EntriesStep(BareAll(es, status, slug, sequence), 0, acc, next, more);
      Assoc(acc, [next], Updated(es[1..], status, slug, sequence));
    }
  }

  // ---- the manifest ----

  /** A manifest as the projection wants it, with a counter for the machine. */
  predicate Ordinary(es: seq<(string, Value)>, slug: string, path: string -> Option<string>) {
    && Printable(Mapping(es))
    && Lookup(es, "schema") == Some(Text("pulsarmlx.feature-loop/1.0.0"))
    && Lookup(es, "feature_id").Some? && Lookup(es, "feature_id").value.Text?
    && Strip(Lookup(es, "feature_id").value.text) != ""
    && Lookup(es, "status").Some? && Lookup(es, "status").value.Text? && Strip(Lookup(es, "status").value.text) != ""
    && Lookup(es, "state_file").Some? && Lookup(es, "state_file").value.Text?
    && Strip(Lookup(es, "state_file").value.text) != "" && path(Strip(Lookup(es, "state_file").value.text)).Some?
    && Lookup(es, "latest_machine_sequence").Some? && Lookup(es, "latest_machine_sequence").value.Mapping?
    && (forall i :: 0 <= i < |Lookup(es, "latest_machine_sequence").value.entries| ==>
          var v := Lookup(es, "latest_machine_sequence").value.entries[i].1; v.Number? && v.number >= 0)
    && Lookup(Lookup(es, "latest_machine_sequence").value.entries, slug).Some?
  }

  lemma OrdinaryOk(es: seq<(string, Value)>, slug: string, path: string -> Option<string>)
    requires Ordinary(es, slug, path)
    ensures AllOk(es) && KeysOk(es) && IsKey(slug)
    ensures AllHits(es, slug) == 1 && Statuses(es) == 1
  {
    var counters := Lookup(es, SEQUENCES).value.entries;
    var k := LookupAt(es, SEQUENCES);
    assert Printable(es[k].1) && KeysOk(counters);
    var j := LookupAt(counters, slug);
    forall i | 0 <= i < |es| ensures EntryOk(es[i]) {
      if es[i].0 == STATUS || es[i].0 == SEQUENCES {
        LookupIs(es, i);
      }
    }
    OneCounted(es, slug);
    OneCounted(counters, slug);
    OneHit(es, slug);
  }

  lemma {:induction false} UpdatedLookup(es: seq<(string, Value)>, key: string, status: string, slug: string,
                                         sequence: int)
    ensures Lookup(Updated(es, status, slug, sequence), key) ==
            match Lookup(es, key) {
              case None => None
              case Some(v) => Some(UpdatedValue(key, v, status, slug, sequence))
            }
    decreases |es|
  {
    if es != [] {
      UpdatedLookup(es[1..], key, status, slug, sequence);
      assert Updated(es, status, slug, sequence)[1..] == Updated(es[1..], status, slug, sequence);
    }
  }

  lemma {:induction false} CounterLookup(es: seq<(string, Value)>, slug: string, sequence: int)
    requires Lookup(es, slug).Some?
    ensures Lookup(SetCounter(es, slug, sequence), slug) == Some(Number(sequence))
    decreases |es|
  {
    if es[0].0 != slug {
      CounterLookup(es[1..], slug, sequence);
      assert SetCounter(es, slug, sequence)[1..] == SetCounter(es[1..], slug, sequence);
    }
  }

  lemma OrdinaryManifest(es: seq<(string, Value)>, slug: string, path: string -> Option<string>)
    requires Ordinary(es, slug, path)
    ensures ManifestOf(Some(Mapping(es)), path) ==
            Some(Manifest(Strip(Lookup(es, "feature_id").value.text), Strip(Lookup(es, "status").value.text),
                          path(Strip(Lookup(es, "state_file").value.text)).value, Lookup(es, SEQUENCES).value.entries))
  {
    assert Tight(FEATURE_SCHEMA);
    TightStrip(FEATURE_SCHEMA);
  }

  /** The updated map is a manifest too, of the same feature and state file. */
  lemma UpdatedOrdinary(es: seq<(string, Value)>, status: string, slug: string, sequence: int,
                        path: string -> Option<string>)
    requires Ordinary(es, slug, path) && PlainText(status) && sequence >= 0
    requires Printable(Mapping(Updated(es, status, slug, sequence)))
    ensures var after := Updated(es, status, slug, sequence);
            && Ordinary(after, slug, path) && Lookup(after, STATUS) == Some(Text(status))
            && Lookup(after, "feature_id") == Lookup(es, "feature_id")
            && Lookup(after, "state_file") == Lookup(es, "state_file")
            && Lookup(Lookup(after, SEQUENCES).value.entries, slug) == Some(Number(sequence))
  {
    UpdatedLookup(es, "schema", status, slug, sequence);
    UpdatedLookup(es, "feature_id", status, slug, sequence);
    UpdatedLookup(es, STATUS, status, slug, sequence);
    UpdatedLookup(es, "state_file", status, slug, sequence);
    UpdatedLookup(es, SEQUENCES, status, slug, sequence);
    CounterLookup(Lookup(es, SEQUENCES).value.entries, slug, sequence);
    TightStrip(status);
  }

  lemma UpdatedKeys(es: seq<(string, Value)>, status: string, slug: string, sequence: int)
    requires AllOk(es) && KeysOk(es) && es != []
    ensures Printable(Mapping(Updated(es, status, slug, sequence)))
  {
    var after := Updated(es, status, slug, sequence);
    forall i | 0 <= i < |after| ensures Printable(after[i].1) {
      UpdatedPrintable(es[i], status, slug, sequence);
    }
  }

  lemma EditedReads(es: seq<(string, Value)>, status: string, slug: string, sequence: int)
    requires AllOk(es) && KeysOk(es) && es != [] && PlainText(status)
    ensures var lines := PrintLines(BareAll(es, status, slug, sequence));
            ParseText(Join(lines)) == Some(Mapping(Updated(es, status, slug, sequence)))
  {
    var ls := BareAll(es, status, slug, sequence);
    AllBareTidy(es, status, slug, sequence);
    ReadPrintedLines(ls);
    SplitJoin(PrintLines(ls));
    BareDocument(es, status, slug, sequence);
  }

  lemma BareDocument(es: seq<(string, Value)>, status: string, slug: string, sequence: int)
    requires AllOk(es) && KeysOk(es) && es != [] && PlainText(status)
    ensures Document(BareAll(es, status, slug, sequence)) == Some(Mapping(Updated(es, status, slug, sequence)))
  {
    AllBareBack(es, [], status, slug, sequence);
    BareFirst(es, status, slug, sequence);
    BareBack(es[0], BareAll(es[1..], status, slug, sequence), status, slug, sequence);
    assert [] + Updated(es, status, slug, sequence) == Updated(es, status, slug, sequence);
  }

  lemma PrintedPasses(es: seq<(string, Value)>, status: string, slug: string, sequence: int)
    requires AllOk(es) && KeysOk(es) && es != [] && IsKey(slug)
    ensures var ls := SplitKeep(PrintText(Mapping(es)));
            && Edited(ls, false, status, slug, sequence) == PrintLines(BareAll(es, status, slug, sequence))
            && StatusHits(ls) == Statuses(es) && SlugHits(ls, false, slug) == AllHits(es, slug)
  {
    EntriesTidy(es, 0);
    ReadPrintedLines(RenderEntries(es, 0));
    SplitJoin(PrintLines(RenderEntries(es, 0)));
    var after := EntriesPass(es, false, status, slug, sequence);
  }

  /** An ordinary manifest, printed, is accepted, for every machine that has a counter in it, every plain status
      and every number; and what comes out parses to the manifest with these two set. */
  lemma OrdinaryAccepted(es: seq<(string, Value)>, status: string, slug: string, sequence: int,
                         path: string -> Option<string>)
    requires Ordinary(es, slug, path) && PlainText(status) && sequence >= 0
    ensures var r := Project(PrintText(Mapping(es)), status, slug, sequence, path);
            r.Some? && ParseText(r.value) == Some(Mapping(Updated(es, status, slug, sequence)))
  {
    OrdinaryOk(es, slug, path);
    TextBackAgain(Mapping(es));
    PrintedPasses(es, status, slug, sequence);
    EditedReads(es, status, slug, sequence);
    UpdatedKeys(es, status, slug, sequence);
    UpdatedOrdinary(es, status, slug, sequence, path);
    OrdinaryManifest(es, slug, path);
    OrdinaryManifest(Updated(es, status, slug, sequence), slug, path);
    TightStrip(status);
  }

  // ---- what a manifest is ----

  predicate SaysText(es: seq<(string, Value)>, key: string) {
    Lookup(es, key).Some? && Lookup(es, key).value.Text? && Strip(Lookup(es, key).value.text) != ""
  }

  /** A mapping is a manifest exactly when it names the schema, has a feature, a status and a state file at a
      good path, and at least one counter, all of them numbers from zero on. */
  lemma ManifestIff(es: seq<(string, Value)>, path: string -> Option<string>)
    ensures ManifestOf(Some(Mapping(es)), path).Some? <==>
              && SaysText(es, "schema") && Strip(Lookup(es, "schema").value.text) == "pulsarmlx.feature-loop/1.0.0"
              && SaysText(es, "feature_id") && SaysText(es, "status")
              && SaysText(es, "state_file") && path(Strip(Lookup(es, "state_file").value.text)).Some?
              && Lookup(es, "latest_machine_sequence").Some? && Lookup(es, "latest_machine_sequence").value.Mapping?
              && Lookup(es, "latest_machine_sequence").value.entries != []
              && forall i :: 0 <= i < |Lookup(es, "latest_machine_sequence").value.entries| ==>
                   var v := Lookup(es, "latest_machine_sequence").value.entries[i].1; v.Number? && v.number >= 0
  {
  }

  /** What is projected was a manifest, and what comes out is one of the same feature and state file, with the
      status and the counter asked for. */
  lemma ProjectedManifests(text: string, status: string, slug: string, sequence: int, path: string -> Option<string>)
    requires Project(text, status, slug, sequence, path).Some?
    ensures var out := Project(text, status, slug, sequence, path).value;
            var before, after := ManifestOf(ParseText(text), path), ManifestOf(ParseText(out), path);
            && before.Some? && after.Some? && after.value.feature == before.value.feature
            && after.value.stateFile == before.value.stateFile && after.value.status == status
            && Lookup(after.value.sequences, slug) == Some(Number(sequence)) && sequence >= 0
  {
    var out := Project(text, status, slug, sequence, path).value;
    var after := ManifestOf(ParseText(out), path).value.sequences;
    var j := LookupAt(after, slug);
  }
}
