/** A block printer for parsed values, and that the parser reads its output back. */
module YamlPrint {
  import opened Common
  import opened Text
  import opened Yaml

  // ---- scalars ----

  /** Characters a quoted scalar can hold as they are, on one line and inside a list item. */
  predicate Plain(c: char) {
    ' ' <= c && c !in {'"', '\\', ':', '\U{7F}', '\U{85}', '\U{2028}', '\U{2029}'}
  }

  function HexChar(d: nat): char
    requires d < 16
  {
    if d < 10 then '0' + d as char else 'a' + (d - 10) as char
  }

  function EscapeOf(c: char): (r: string)
    requires !Plain(c)
    ensures |r| == 6
  {
    var n := c as nat;
    ['\\', 'u', HexChar(n / 4096), HexChar(n / 256 % 16), HexChar(n / 16 % 16), HexChar(n % 16)]
  }

  function QuotedBody(s: string): string {
    if s == "" then "\""
    else (if Plain(s[0]) then [s[0]] else EscapeOf(s[0])) + QuotedBody(s[1..])
  }

  function Digits(n: nat): (r: string)
    ensures r != "" && AllDigits(r) && NaturalOf(r) == n && (n > 0 ==> r[0] != '0') && (n == 0 ==> r == "0")
  {
    if n < 10 then
      var r := ['0' + n as char];
      assert r[..0] == "" && NaturalOf(r[..0]) == 0;
      r
    else
      var r := Digits(n / 10) + ['0' + (n % 10) as char];
      assert r[..|r| - 1] == Digits(n / 10);
      r
  }

  predicate IsScalar(v: Value) {
    v.Text? || v.Flag? || v.Null? || v.Number?
  }

  function ScalarText(v: Value): string
    requires IsScalar(v)
  {
    match v
    case Text(s) => "\"" + QuotedBody(s)
    case Flag(b) => if b then "true" else "false"
    case Null => "null"
    case Number(n) => if n >= 0 then Digits(n) else "-" + Digits(-n)
  }

  lemma HexBack(d: nat)
    requires d < 16
    ensures HexDigit(HexChar(d)) == Some(d)
  {
  }

  lemma HexSum(n: nat)
    requires n < 65536
    ensures n == 4096 * (n / 4096) + 256 * (n / 256 % 16) + 16 * (n / 16 % 16) + n % 16
  {
    assert n == 16 * (n / 16) + n % 16;
    var m := n / 16;
    assert m == 16 * (m / 16) + m % 16;
    assert m / 16 == n / 256;
    var k := n / 256;
    assert k == 16 * (k / 16) + k % 16;
    assert k / 16 == n / 4096;
  }

  lemma Hex4Back(s: string, n: nat)
    requires |s| >= 4 && n < 65536
    requires s[0] == HexChar(n / 4096) && s[1] == HexChar(n / 256 % 16) && s[2] == HexChar(n / 16 % 16)
             && s[3] == HexChar(n % 16)
    ensures Hex4(s) == Some(n)
  {
    HexBack(n / 4096);
    HexBack(n / 256 % 16);
    HexBack(n / 16 % 16);
    HexBack(n % 16);
    HexSum(n);
  }

  lemma EscapeBack(c: char, more: string)
    requires !Plain(c)
    ensures UnicodeEscape((EscapeOf(c) + more)[2..]) == Some((c, 4))
  {
    var n, s := c as nat, (EscapeOf(c) + more)[2..];
    assert IsScalarValue(n);
    assert s[0] == HexChar(n / 4096) && s[1] == HexChar(n / 256 % 16) && s[2] == HexChar(n / 16 % 16)
           && s[3] == HexChar(n % 16);
    Hex4Back(s, n);
  }

  lemma {:induction false} UnquoteBack(s: string)
    ensures Unquote(QuotedBody(s)) == Some(s)
    decreases |s|
  {
    var q := QuotedBody(s);
    if s != "" {
      UnquoteBack(s[1..]);
      var c := s[0];
      assert s == [c] + s[1..];
      if Plain(c) {
        assert q[0] == c && q[1..] == QuotedBody(s[1..]);
      } else {
        EscapeBack(c, QuotedBody(s[1..]));
        assert q[0] == '\\' && q[1] == 'u';
        assert q[2 + 4..] == QuotedBody(s[1..]);
      }
    }
  }

  lemma QuotedShape(s: string)
    ensures var q := QuotedBody(s); q != "" && q[|q| - 1] == '"' && ':' !in q
  {
  }

  lemma TextBack(s: string)
    ensures var t := "\"" + QuotedBody(s); t != "" && Tight(t) && ':' !in t && Scalar(t) == Some(Text(s))
  {
    var t := "\"" + QuotedBody(s);
    QuotedShape(s);
    UnquoteBack(s);
    assert t[1..] == QuotedBody(s);
    TightStrip(t);
  }

  /** Digits, perhaps after a sign, are nothing but a number. */
  lemma NumberScalar(t: string)
    requires IsInteger(t)
    ensures t != "" && Tight(t) && ':' !in t && Scalar(t) == Some(Number(IntegerOf(t)))
  {
    assert t[0] == '-' || '0' <= t[0] <= '9';
    assert forall k :: 0 < k < |t| ==> '0' <= t[k] <= '9' by {
      if !IsNatural(t) {
        assert forall k :: 0 < k < |t| ==> t[k] == t[1..][k - 1];
      }
    }
    TightStrip(t);
  }

  lemma NumberBack(n: int)
    ensures var t := if n >= 0 then Digits(n) else "-" + Digits(-n);
            t != "" && Tight(t) && ':' !in t && Scalar(t) == Some(Number(n))
  {
    var t := if n >= 0 then Digits(n) else "-" + Digits(-n);
    if n < 0 {
      assert t[1..] == Digits(-n) && t[0] == '-';
      assert !IsNatural(t);
    }
    NumberScalar(t);
  }

  /** A printed scalar has no outer white space, no colon, and reads back as itself. */
  lemma ScalarBack(v: Value)
    requires IsScalar(v)
    ensures var t := ScalarText(v); t != "" && Tight(t) && ':' !in t && Scalar(t) == Some(v)
  {
    match v
    case Text(s) => TextBack(s);
    case Number(n) => NumberBack(n);
    case Flag(_) => TightStrip(ScalarText(v));
    case Null => TightStrip("null");
  }

  // ---- blocks ----

  /** Scalars, non-empty lists, and non-empty mappings from distinct valid keys. */
  predicate Printable(v: Value) {
    match v
    case List(items) => items != [] && forall i :: 0 <= i < |items| ==> Printable(items[i])
    case Mapping(entries) =>
      entries != [] && KeysOk(entries) && forall i :: 0 <= i < |entries| ==> Printable(entries[i].1)
    case _ => true
  }

  predicate KeysOk(entries: seq<(string, Value)>) {
    && (forall i :: 0 <= i < |entries| ==> IsKey(entries[i].0))
    && (forall i, j :: 0 <= i < j < |entries| ==> entries[i].0 != entries[j].0)
  }

  /** The two-space block rendering of a list or a mapping. */
  function Render(v: Value, indent: nat): seq<Line>
    requires !IsScalar(v)
    decreases v, 0
  {
    match v
    case List(items) => RenderItems(items, indent)
    case Mapping(entries) => RenderEntries(entries, indent)
  }

  function RenderItems(items: seq<Value>, indent: nat): seq<Line>
    decreases items, 0
  {
    if items == [] then [] else RenderItem(items[0], indent) + RenderItems(items[1..], indent)
  }

  /** A mapping whose first value is scalar starts on the dash line; anything else is nested below it. */
  function RenderItem(v: Value, indent: nat): seq<Line>
    decreases v, 1
  {
    if IsScalar(v) then [Line(indent, "- " + ScalarText(v))]
    else if v.Mapping? && v.entries != [] && IsScalar(v.entries[0].1) then
      [Line(indent, "- " + (v.entries[0].0 + ": " + ScalarText(v.entries[0].1)))] +
        RenderEntries(v.entries[1..], indent + 2)
    else [Line(indent, "-")] + Render(v, indent + 2)
  }

  function RenderEntries(entries: seq<(string, Value)>, indent: nat): seq<Line>
    decreases entries, 0
  {
    if entries == [] then [] else RenderEntry(entries[0], indent) + RenderEntries(entries[1..], indent)
  }

  function RenderEntry(entry: (string, Value), indent: nat): seq<Line>
    decreases entry, 1
  {
    if IsScalar(entry.1) then [Line(indent, entry.0 + ": " + ScalarText(entry.1))]
    else [Line(indent, entry.0 + ":")] + Render(entry.1, indent + 2)
  }

  // ---- lines read back ----

  lemma KeyTight(key: string)
    requires IsKey(key)
    ensures Tight(key) && ':' !in key && Strip(key) == key
  {
    assert IsLetter(key[|key| - 1]) || '0' <= key[|key| - 1] <= '9' || key[|key| - 1] in {'_', '.', '-'};
    TightStrip(key);
  }

  lemma ColonAfter(a: string, b: string)
    requires ':' !in a
    ensures ColonAt(a + ":" + b) == |a|
  {
    var s := a + ":" + b;
    assert s[|a|] == ':' && forall j :: 0 <= j < |a| ==> s[j] == a[j];
  }

  lemma SpacedStrip(t: string)
    requires Tight(t)
    ensures Strip(" " + t) == t && Strip("") == ""
  {
    assert (" " + t)[1..] == t;
    TightStrip(t);
  }

  lemma KeyLine(key: string, text: string)
    requires IsKey(key) && Tight(text)
    ensures SplitKey(key + ": " + text) == Some((key, text)) && SplitKey(key + ":") == Some((key, ""))
    ensures !IsItem(key + ": " + text) && !IsItem(key + ":")
    ensures ':' in key + ": " + text
  {
    KeyTight(key);
    SpacedStrip(text);
    ColonAfter(key, " " + text);
    ColonAfter(key, "");
    var s := key + ": " + text;
    assert s == key + ":" + (" " + text) && s[..|key|] == key && s[|key| + 1..] == " " + text && s[|key|] == ':';
    var t := key + ":";
    assert t == key + ":" + "" && t[..|key|] == key && t[|key| + 1..] == "";
    assert s[0] == key[0] && t[0] == key[0];
  }

  lemma DashLine(t: string)
    requires Tight(t)
    ensures IsItem("- " + t) && Strip(("- " + t)[1..]) == t && IsItem("-") && Strip("-"[1..]) == ""
  {
    assert ("- " + t)[1..] == " " + t;
    SpacedStrip(t);
    assert "-"[1..] == "";
  }

  lemma KeyTextTight(key: string, text: string)
    requires IsKey(key) && Tight(text) && text != ""
    ensures Tight(key + ": " + text)
  {
    KeyTight(key);
  }

  // ---- blocks read back ----

  lemma RenderFirst(v: Value, indent: nat)
    requires !IsScalar(v) && Printable(v)
    ensures var ls := Render(v, indent);
            ls != [] && ls[0].indent == indent && (IsItem(ls[0].content) <==> v.List?)
  {
    if v.List? {
      ItemFirst(v.items[0], indent);
    } else {
      EntryFirst(v.entries[0], indent);
    }
  }

  lemma ItemFirst(v: Value, indent: nat)
    requires Printable(v)
    ensures var ls := RenderItem(v, indent); ls != [] && ls[0].indent == indent && IsItem(ls[0].content)
  {
  }

  lemma EntryFirst(entry: (string, Value), indent: nat)
    requires IsKey(entry.0)
    ensures var ls := RenderEntry(entry, indent); ls != [] && ls[0].indent == indent && !IsItem(ls[0].content)
  {
    if IsScalar(entry.1) {
      ScalarBack(entry.1);
      KeyLine(entry.0, ScalarText(entry.1));
    } else {
      KeyLine(entry.0, "");
    }
  }

  /** Parsing the rendering of a value at any depth, before any shallower lines, returns that value and
      stops exactly at its end. */
  lemma {:induction false} BlockBack(v: Value, indent: nat, rest: seq<Line>)
    requires !IsScalar(v) && Printable(v) && Shallower(rest, indent)
    ensures Block(Render(v, indent) + rest, indent) == Some((v, rest))
    decreases v, 0
  {
    RenderFirst(v, indent);
    if v.List? {
      ItemsBack(v.items, indent, rest, []);
      assert [] + v.items == v.items;
    } else {
      EntriesBack(v.entries, indent, rest, []);
      assert [] + v.entries == v.entries;
    }
  }

  lemma {:induction false} ItemsBack(items: seq<Value>, indent: nat, rest: seq<Line>, acc: seq<Value>)
    requires (forall i :: 0 <= i < |items| ==> Printable(items[i])) && Shallower(rest, indent)
    ensures Items(RenderItems(items, indent) + rest, indent, acc) == Some((acc + items, rest))
    decreases items, 0
  {
    if items == [] {
      assert RenderItems(items, indent) + rest == rest && acc + items == acc;
    } else {
      var more := RenderItems(items[1..], indent) + rest;
      Assoc(RenderItem(items[0], indent), RenderItems(items[1..], indent), rest);
      if items[1..] != [] {
        ItemFirst(items[1], indent);
      }
      ItemBack(items[0], indent, more);
      ItemsBack(items[1..], indent, rest, acc + [items[0]]);
      Assoc(acc, [items[0]], items[1..]);
      HeadTail(items);
    }
  }

  lemma {:induction false} ItemBack(v: Value, indent: nat, more: seq<Line>)
    requires Printable(v) && Shallower(more, indent + 2)
    ensures var ls := RenderItem(v, indent) + more;
            ls[0].indent == indent && IsItem(ls[0].content) && Item(ls[0].content, ls[1..], indent) == Some((v, more))
    decreases v, 1
  {
    if IsScalar(v) {
      ScalarBack(v);
      DashLine(ScalarText(v));
      ConsTail(Line(indent, "- " + ScalarText(v)), more);
    } else if v.Mapping? && IsScalar(v.entries[0].1) {
      var head := Line(indent, "- " + (v.entries[0].0 + ": " + ScalarText(v.entries[0].1)));
      var below := RenderEntries(v.entries[1..], indent + 2);
      Assoc([head], below, more);
      ConsTail(head, below + more);
      CompactBack(v.entries, indent, below + more, more);
    } else {
      DashLine("");
      Assoc([Line(indent, "-")], Render(v, indent + 2), more);
      ConsTail(Line(indent, "-"), Render(v, indent + 2) + more);
      BlockBack(v, indent + 2, more);
    }
  }

  /** A dash line holding a key and a scalar, and what becomes of the lines below it. */
  lemma DashEntry(key: string, v: Value, below: seq<Line>, indent: nat)
    requires IsKey(key) && IsScalar(v)
    ensures var content := "- " + (key + ": " + ScalarText(v));
            && IsItem(content)
            && (!NestedAt(below, indent + 2) ==> Item(content, below, indent) == Some((Mapping([(key, v)]), below)))
            && (NestedAt(below, indent + 2) ==>
                  Item(content, below, indent) ==
                  match Block(below, indent + 2)
                  case Some((Mapping(siblings), after)) =>
                    if HasKey(siblings, key) then None else Some((Mapping([(key, v)] + siblings), after))
                  case _ => None)
  {
    var text := ScalarText(v);
    ScalarBack(v);
    KeyLine(key, text);
    KeyTextTight(key, text);
    DashLine(key + ": " + text);
  }

  lemma {:induction false} CompactBack(entries: seq<(string, Value)>, indent: nat, below: seq<Line>, more: seq<Line>)
    requires entries != [] && KeysOk(entries) && (forall i :: 0 <= i < |entries| ==> Printable(entries[i].1))
    requires IsScalar(entries[0].1) && Shallower(more, indent + 2)
    requires below == RenderEntries(entries[1..], indent + 2) + more
    ensures var content := "- " + (entries[0].0 + ": " + ScalarText(entries[0].1));
            IsItem(content) && Item(content, below, indent) == Some((Mapping(entries), more))
    decreases entries, 1
  {
    var siblings := entries[1..];
    HeadTail(entries);
    assert (entries[0].0, entries[0].1) == entries[0];
    DashEntry(entries[0].0, entries[0].1, below, indent);
    if siblings == [] {
      assert below == more && entries == [entries[0]];
    } else {
      assert forall i :: 0 <= i < |siblings| ==> siblings[i] == entries[i + 1];
      SiblingsBack(siblings, indent + 2, more);
      assert !HasKey(siblings, entries[0].0);
    }
  }

  lemma {:induction false} SiblingsBack(siblings: seq<(string, Value)>, indent: nat, more: seq<Line>)
    requires siblings != [] && KeysOk(siblings) && (forall i :: 0 <= i < |siblings| ==> Printable(siblings[i].1))
    requires Shallower(more, indent)
    ensures var below := RenderEntries(siblings, indent) + more;
            NestedAt(below, indent) && Block(below, indent) == Some((Mapping(siblings), more))
    decreases siblings, 2
  {
    EntryFirst(siblings[0], indent);
    EntriesBack(siblings, indent, more, []);
    assert [] + siblings == siblings;
  }

  lemma HasKeyNext(acc: seq<(string, Value)>, entries: seq<(string, Value)>)
    requires entries != [] && KeysOk(entries) && forall i :: 0 <= i < |entries| ==> !HasKey(acc, entries[i].0)
    ensures KeysOk(entries[1..]) && forall i :: 0 <= i < |entries[1..]| ==>
              !HasKey(acc + [entries[0]], entries[1..][i].0)
  {
    forall i | 0 <= i < |entries[1..]| ensures !HasKey(acc + [entries[0]], entries[1..][i].0) {
      assert entries[1..][i] == entries[i + 1];
      assert !HasKey(acc, entries[i + 1].0);
      forall j | 0 <= j < |acc| + 1 ensures (acc + [entries[0]])[j].0 != entries[i + 1].0 {
        assert j < |acc| ==> acc[j].0 != entries[i + 1].0;
      }
    }
  }

  lemma EntriesStep(ls: seq<Line>, indent: nat, acc: seq<(string, Value)>, entry: (string, Value), more: seq<Line>)
    requires NestedAt(ls, indent) && !IsItem(ls[0].content)
             && Entry(ls[0].content, ls[1..], indent) == Some((entry, more))
    requires !HasKey(acc, entry.0)
    ensures Entries(ls, indent, acc) == Entries(more, indent, acc + [entry])
  {
  }

  lemma {:induction false} EntriesBack(entries: seq<(string, Value)>, indent: nat, rest: seq<Line>,
                                       acc: seq<(string, Value)>)
    requires KeysOk(entries) && (forall i :: 0 <= i < |entries| ==> Printable(entries[i].1)) && Shallower(rest, indent)
    requires forall i :: 0 <= i < |entries| ==> !HasKey(acc, entries[i].0)
    ensures Entries(RenderEntries(entries, indent) + rest, indent, acc) == Some((acc + entries, rest))
    decreases entries, 1
  {
    if entries == [] {
      assert RenderEntries(entries, indent) + rest == rest && acc + entries == acc;
    } else {
      FirstEntryBack(entries, indent, rest, acc);
      HasKeyNext(acc, entries);
      EntriesBack(entries[1..], indent, rest, acc + [entries[0]]);
      Assoc(acc, [entries[0]], entries[1..]);
      HeadTail(entries);
    }
  }

  lemma {:induction false} FirstEntryBack(entries: seq<(string, Value)>, indent: nat, rest: seq<Line>,
                                          acc: seq<(string, Value)>)
    requires entries != [] && KeysOk(entries) && Printable(entries[0].1) && Shallower(rest, indent)
             && !HasKey(acc, entries[0].0)
    ensures Entries(RenderEntries(entries, indent) + rest, indent, acc) ==
            Entries(RenderEntries(entries[1..], indent) + rest, indent, acc + [entries[0]])
    decreases entries, 0
  {
    var more := RenderEntries(entries[1..], indent) + rest;
    Assoc(RenderEntry(entries[0], indent), RenderEntries(entries[1..], indent), rest);
    if entries[1..] != [] {
      EntryFirst(entries[1], indent);
    }
    EntryBack(entries[0], indent, more);
    EntriesStep(RenderEntry(entries[0], indent) + more, indent, acc, entries[0], more);
  }

  lemma {:induction false} EntryBack(entry: (string, Value), indent: nat, more: seq<Line>)
    requires IsKey(entry.0) && Printable(entry.1) && Shallower(more, indent + 2)
    ensures var ls := RenderEntry(entry, indent) + more;
            ls[0].indent == indent && !IsItem(ls[0].content)
              && Entry(ls[0].content, ls[1..], indent) == Some((entry, more))
    decreases entry, 1
  {
    if IsScalar(entry.1) {
      ScalarBack(entry.1);
      KeyLine(entry.0, ScalarText(entry.1));
      ConsTail(Line(indent, entry.0 + ": " + ScalarText(entry.1)), more);
    } else {
      KeyLine(entry.0, "");
      Assoc([Line(indent, entry.0 + ":")], Render(entry.1, indent + 2), more);
      ConsTail(Line(indent, entry.0 + ":"), Render(entry.1, indent + 2) + more);
      BlockBack(entry.1, indent + 2, more);
    }
  }

  /** Printing a mapping and parsing the lines as a document returns the mapping. */
  lemma DocumentBack(v: Value)
    requires v.Mapping? && Printable(v)
    ensures Document(Render(v, 0)) == Some(v)
  {
    BlockBack(v, 0, []);
    assert Render(v, 0) + [] == Render(v, 0);
  }

  /** A dash line that opens a key takes the whole block below it as that key's value: what was meant as
      the item's further entries ends up inside. */
  lemma DashKeySwallows(key: string, inner: Value, indent: nat, more: seq<Line>)
    requires IsKey(key) && !IsScalar(inner) && Printable(inner) && Shallower(more, indent + 2)
    ensures Item("- " + (key + ":"), Render(inner, indent + 2) + more, indent) == Some((Mapping([(key, inner)]), more))
  {
    KeyTight(key);
    KeyLine(key, "");
    DashLine(key + ":");
    BlockBack(inner, indent + 2, more);
  }
}
