/** The printer carried down to text: a printed mapping, parsed as a document, is the mapping. */
module DocumentPrint {
  import opened Common
  import opened Text
  import opened Yaml
  import opened YamlPrint
  import opened Documents

  function Pad(n: nat): string {
    if n == 0 then "" else " " + Pad(n - 1)
  }

  function PrintLine(line: Line): string {
    Pad(line.indent) + line.content + "\n"
  }

  function PrintLines(ls: seq<Line>): seq<string> {
    if ls == [] then [] else [PrintLine(ls[0])] + PrintLines(ls[1..])
  }

  function PrintText(v: Value): string
    requires v.Mapping?
  {
    Join(PrintLines(Render(v, 0)))
  }

  /** Content that stays on one line and is neither blank nor a comment. */
  predicate TidyText(s: string) {
    s != "" && !IsSpace(s[0]) && s[0] != '#' && OneLine(s) && '\t' !in s
  }

  predicate Tidy(line: Line) {
    line.indent % 2 == 0 && TidyText(line.content)
  }

  predicate AllTidy(ls: seq<Line>) {
    forall k :: 0 <= k < |ls| ==> Tidy(ls[k])
  }

  // ---- what is printed is tidy ----

  lemma QuotedPlain(s: string)
    ensures OneLine(QuotedBody(s)) && '\t' !in QuotedBody(s)
  {
  }

  lemma ScalarPlain(v: Value)
    requires IsScalar(v)
    ensures OneLine(ScalarText(v)) && '\t' !in ScalarText(v)
  {
    if v.Text? {
      QuotedPlain(v.text);
    }
  }

  lemma KeyPlain(key: string)
    requires IsKey(key)
    ensures TidyText(key)
  {
  }

  lemma EntryTidy(key: string, text: string)
    requires IsKey(key) && OneLine(text) && '\t' !in text
    ensures TidyText(key + ": " + text) && TidyText(key + ":") && TidyText("- " + (key + ": " + text))
  {
    KeyPlain(key);
    var s := key + ": " + text;
    assert s[0] == key[0] && (key + ":")[0] == key[0];
    assert OneLine(s) && '\t' !in s;
  }

  lemma {:induction false} RenderTidy(v: Value, indent: nat)
    requires !IsScalar(v) && Printable(v) && indent % 2 == 0
    ensures AllTidy(Render(v, indent))
    decreases v, 0
  {
    if v.List? {
      ItemsTidy(v.items, indent);
    } else {
      EntriesTidy(v.entries, indent);
    }
  }

  lemma {:induction false} ItemsTidy(items: seq<Value>, indent: nat)
    requires (forall i :: 0 <= i < |items| ==> Printable(items[i])) && indent % 2 == 0
    ensures AllTidy(RenderItems(items, indent))
    decreases items, 0
  {
    if items != [] {
      ItemTidy(items[0], indent);
      ItemsTidy(items[1..], indent);
    }
  }

  lemma {:induction false} ItemTidy(v: Value, indent: nat)
    requires Printable(v) && indent % 2 == 0
    ensures AllTidy(RenderItem(v, indent))
    decreases v, 1
  {
    if IsScalar(v) {
      ScalarPlain(v);
    } else if v.Mapping? && IsScalar(v.entries[0].1) {
      ScalarPlain(v.entries[0].1);
      EntryTidy(v.entries[0].0, ScalarText(v.entries[0].1));
      EntriesTidy(v.entries[1..], indent + 2);
    } else {
      RenderTidy(v, indent + 2);
    }
  }

  lemma {:induction false} EntriesTidy(entries: seq<(string, Value)>, indent: nat)
    requires (forall i :: 0 <= i < |entries| ==> IsKey(entries[i].0) && Printable(entries[i].1)) && indent % 2 == 0
    ensures AllTidy(RenderEntries(entries, indent))
    decreases entries, 0
  {
    if entries != [] {
      OneEntryTidy(entries[0], indent);
      EntriesTidy(entries[1..], indent);
    }
  }

  lemma {:induction false} OneEntryTidy(entry: (string, Value), indent: nat)
    requires IsKey(entry.0) && Printable(entry.1) && indent % 2 == 0
    ensures AllTidy(RenderEntry(entry, indent))
    decreases entry, 1
  {
    if IsScalar(entry.1) {
      ScalarPlain(entry.1);
      EntryTidy(entry.0, ScalarText(entry.1));
    } else {
      EntryTidy(entry.0, "");
      RenderTidy(entry.1, indent + 2);
    }
  }

  // ---- tidy lines read back ----

  lemma {:induction false} PadSpaces(n: nat, s: string)
    requires s != "" && !IsSpace(s[0])
    ensures Spaces(Pad(n) + s) == n && StripLeft(Pad(n) + s) == s && (Pad(n) + s)[n..] == s && |Pad(n)| == n
    ensures OneLine(Pad(n)) && '\t' !in Pad(n)
  {
    if n > 0 {
      PadSpaces(n - 1, s);
      assert (Pad(n) + s)[1..] == Pad(n - 1) + s && (Pad(n) + s)[0] == ' ';
    } else {
      assert Pad(n) + s == s;
    }
  }

  lemma StripRightKeepsText(s: string)
    requires s != "" && !IsSpace(s[0])
    ensures StripRight(s) != ""
  {
  }

  lemma ReadPrinted(line: Line)
    requires Tidy(line)
    ensures ReadLine(PrintLine(line)) == Kept(line) && Whole(PrintLine(line)) && PrintLine(line)[0] != '\n'
    ensures PrintLine(line)[|PrintLine(line)| - 1] == '\n'
  {
    var raw := Pad(line.indent) + line.content;
    PadSpaces(line.indent, line.content);
    StripRightKeepsText(line.content);
    assert OneLine(raw) && '\t' !in raw;
    assert PrintLine(line)[..|raw|] == raw;
    BreakIs(PrintLine(line), |raw|);
    assert raw[0] == if line.indent == 0 then line.content[0] else ' ';
  }

  lemma {:induction false} ReadPrintedLines(ls: seq<Line>)
    requires AllTidy(ls)
    ensures ReadLines(PrintLines(ls)) == Some(ls) && Canonical(PrintLines(ls)) && |PrintLines(ls)| == |ls|
    ensures ls != [] ==> PrintLines(ls)[0] == PrintLine(ls[0])
  {
    if ls != [] {
      ReadPrinted(ls[0]);
      ReadPrintedLines(ls[1..]);
      ConsTail(PrintLine(ls[0]), PrintLines(ls[1..]));
      HeadTail(ls);
      if |ls| > 1 {
        ReadPrinted(ls[1]);
      }
    }
  }

  /** Printing a mapping as text and parsing the text returns the mapping. */
  lemma TextBackAgain(v: Value)
    requires v.Mapping? && Printable(v)
    ensures ParseText(PrintText(v)) == Some(v)
  {
    RenderTidy(v, 0);
    ReadPrintedLines(Render(v, 0));
    SplitJoin(PrintLines(Render(v, 0)));
    DocumentBack(v);
  }
}
