/** The restricted YAML subset: scalars, and the recursive-descent parser over indented lines. */
module Yaml {
  import opened Common
  import opened Text

  /** Parsed values. A mapping keeps its entries in the order they were read. */
  datatype Value =
    | Text(text: string)
    | Flag(flag: bool)
    | Null
    | Number(number: int)
    | List(items: seq<Value>)
    | Mapping(entries: seq<(string, Value)>)

  datatype Line = Line(indent: nat, content: string)

  // ---- scalars ----

  function HexDigit(c: char): Option<nat> {
    if '0' <= c <= '9' then Some((c - '0') as nat)
    else if 'a' <= c <= 'f' then Some((c - 'a') as nat + 10)
    else if 'A' <= c <= 'F' then Some((c - 'A') as nat + 10)
    else None
  }

  function Hex4(s: string): Option<nat>
    requires |s| >= 4
  {
    match (HexDigit(s[0]), HexDigit(s[1]), HexDigit(s[2]), HexDigit(s[3]))
    case (Some(a), Some(b), Some(c), Some(d)) => Some(4096 * a + 256 * b + 16 * c + d)
    case _ => None
  }

  predicate IsScalarValue(n: nat) {
    n < 0xD800 || 0xE000 <= n < 0x110000
  }

  /** One \u escape, the s[0] being its first digit: the character and the width. Two escapes can make one
      character; a lone surrogate has no character here and is refused. */
  function UnicodeEscape(s: string): (r: Option<(char, nat)>)
    ensures r.Some? ==> 4 <= r.value.1 <= |s|
  {
    if |s| < 4 || Hex4(s).None? then None
    else
      var n := Hex4(s).value;
      if IsScalarValue(n) then Some((n as char, 4))
      else if n < 0xDC00 && |s| >= 10 && s[4] == '\\' && s[5] == 'u' && Hex4(s[6..]).Some?
        && 0xDC00 <= Hex4(s[6..]).value < 0xE000 then
        Some(((0x10000 + (n - 0xD800) * 1024 + (Hex4(s[6..]).value - 0xDC00)) as char, 10))
      else None
  }

  function SimpleEscape(c: char): Option<char> {
    match c
    case '"' => Some('"')
    case '\\' => Some('\\')
    case '/' => Some('/')
    case 'b' => Some('\U{8}')
    case 'f' => Some('\U{C}')
    case 'n' => Some('\n')
    case 'r' => Some('\r')
    case 't' => Some('\t')
    case _ => None
  }

  /** The rest of a JSON string after its opening quote; nothing may follow the closing one. */
  function Unquote(s: string): (r: Option<string>)
    ensures r.Some? ==> |r.value| < |s|
    decreases |s|
  {
    if s == "" then None
    else if s[0] == '"' then if |s| == 1 then Some("") else None
    else if s[0] < ' ' then None
    else if s[0] != '\\' then Prepend(s[0], Unquote(s[1..]))
    else if |s| < 2 then None
    else if s[1] == 'u' then
      match UnicodeEscape(s[2..])
      case None => None
      case Some((c, width)) => Prepend(c, Unquote(s[2 + width..]))
    else
      match SimpleEscape(s[1])
      case None => None
      case Some(c) => Prepend(c, Unquote(s[2..]))
  }

  function Prepend(c: char, r: Option<string>): Option<string> {
    match r
    case None => None
    case Some(t) => Some([c] + t)
  }

  /** str.replace of two single quotes by one, left to right. */
  function Undouble(s: string): (r: string)
    ensures |r| <= |s|
    decreases |s|
  {
    if |s| >= 2 && s[0] == '\'' && s[1] == '\'' then "'" + Undouble(s[2..])
    else if s == "" then ""
    else [s[0]] + Undouble(s[1..])
  }

  predicate AllDigits(s: string) {
    forall k :: 0 <= k < |s| ==> '0' <= s[k] <= '9'
  }

  predicate IsNatural(s: string) {
    s == "0" || (s != "" && s[0] != '0' && AllDigits(s))
  }

  predicate IsInteger(s: string) {
    IsNatural(s) || (s != "" && s[0] == '-' && IsNatural(s[1..]))
  }

  function NaturalOf(s: string): nat
    requires AllDigits(s)
  {
    if s == "" then 0 else 10 * NaturalOf(s[..|s| - 1]) + (s[|s| - 1] - '0') as nat
  }

  function IntegerOf(s: string): int
    requires IsInteger(s)
  {
    if IsNatural(s) then NaturalOf(s) else 0 - NaturalOf(s[1..])
  }

  predicate Unsupported(c: char) {
    c in {'&', '*', '!', '|', '>', '[', '{'}
  }

  function Scalar(raw: string): Option<Value> {
    var s := Strip(raw);
    if s == "" || Unsupported(s[0]) then None
    else if s[0] == '"' then
      match Unquote(s[1..])
      case None => None
      case Some(t) => Some(Text(t))
    else if s[0] == '\'' then
      if |s| < 2 || s[|s| - 1] != '\'' then None else Some(Text(Undouble(s[1..|s| - 1])))
    else if s == "true" || s == "True" then Some(Flag(true))
    else if s == "false" || s == "False" then Some(Flag(false))
    else if s == "null" || s == "Null" || s == "NULL" || s == "~" then Some(Null)
    else if IsInteger(s) then Some(Number(IntegerOf(s)))
    else Some(Text(s))
  }

  // ---- keys ----

  predicate IsLetter(c: char) {
    'A' <= c <= 'Z' || 'a' <= c <= 'z'
  }

  predicate IsKey(s: string) {
    && s != "" && (IsLetter(s[0]) || s[0] == '_')
    && forall k :: 0 <= k < |s| ==> IsLetter(s[k]) || '0' <= s[k] <= '9' || s[k] in {'_', '.', '-'}
  }

  function ColonAt(s: string): (k: nat)
    ensures k <= |s| && (forall j :: 0 <= j < k ==> s[j] != ':') && (k < |s| ==> s[k] == ':')
  {
    if s == "" || s[0] == ':' then 0 else 1 + ColonAt(s[1..])
  }

  /** Split at the first colon into a valid key and a stripped value. */
  function SplitKey(content: string): Option<(string, string)> {
    var k := ColonAt(content);
    if k == |content| || !IsKey(Strip(content[..k])) then None
    else Some((Strip(content[..k]), Strip(content[k + 1..])))
  }

  // ---- blocks ----

  predicate IsItem(content: string) {
    content == "-" || (|content| >= 2 && content[0] == '-' && content[1] == ' ')
  }

  predicate HasKey(entries: seq<(string, Value)>, key: string) {
    exists i :: 0 <= i < |entries| && entries[i].0 == key
  }

  /** What follows a block of this indentation: nothing, or a shallower line. */
  predicate Shallower(rest: seq<Line>, indent: nat) {
    rest == [] || rest[0].indent < indent
  }

  predicate NestedAt(ls: seq<Line>, indent: nat) {
    ls != [] && ls[0].indent == indent
  }

  type Parsed<T> = Option<(T, seq<Line>)>

  /** A value of a mapping entry: on its line, or the block nested below it. */
  function EntryValue(value: string, rest: seq<Line>, indent: nat): (r: Parsed<Value>)
    ensures r.Some? ==> |r.value.1| <= |rest|
    decreases |rest|, 0, 2
  {
    if value != "" then
      match Scalar(value)
      case None => None
      case Some(v) => Some((v, rest))
    else Block(rest, indent + 2)
  }

  function Block(ls: seq<Line>, indent: nat): (r: Parsed<Value>)
    ensures r.Some? ==> |r.value.1| < |ls|
    decreases |ls|, 0, 1
  {
    if !NestedAt(ls, indent) then None
    else if IsItem(ls[0].content) then
      match Items(ls, indent, [])
      case None => None
      case Some((items, rest)) => Some((List(items), rest))
    else
      match Entries(ls, indent, [])
      case None => None
      case Some((entries, rest)) => Some((Mapping(entries), rest))
  }

  /** The items of a list block, after `acc`. */
  function Items(ls: seq<Line>, indent: nat, acc: seq<Value>): (r: Parsed<seq<Value>>)
    ensures r.Some? ==> |r.value.1| <= |ls| && (NestedAt(ls, indent) ==> |r.value.1| < |ls|)
    decreases |ls|, 0, 0
  {
    if !NestedAt(ls, indent) then Some((acc, ls))
    else if !IsItem(ls[0].content) then None
    else
      match Item(ls[0].content, ls[1..], indent)
      case None => None
      case Some((item, rest)) => Items(rest, indent, acc + [item])
  }

  /** One list item: nested, scalar, or a mapping begun on the dash line. */
  function Item(content: string, rest: seq<Line>, indent: nat): (r: Parsed<Value>)
    requires IsItem(content)
    ensures r.Some? ==> |r.value.1| <= |rest|
    decreases |rest|, 1
  {
    var tail := Strip(content[1..]);
    if tail == "" then Block(rest, indent + 2)
    else if ':' !in tail then
      match Scalar(tail)
      case None => None
      case Some(v) => Some((v, rest))
    else
      match SplitKey(tail)
      case None => None
      case Some((key, value)) =>
        match EntryValue(value, rest, indent)
        case None => None
        case Some((v, after)) =>
          if !NestedAt(after, indent + 2) then Some((Mapping([(key, v)]), after))
          else
            match Block(after, indent + 2)
            case Some((Mapping(siblings), after')) =>
              if HasKey(siblings, key) then None else Some((Mapping([(key, v)] + siblings), after'))
            case _ => None
  }

  /** The entries of a mapping block, after `acc`. */
  function Entries(ls: seq<Line>, indent: nat, acc: seq<(string, Value)>): (r: Parsed<seq<(string, Value)>>)
    ensures r.Some? ==> |r.value.1| <= |ls| && (NestedAt(ls, indent) ==> |r.value.1| < |ls|)
    decreases |ls|, 0, 0
  {
    if !NestedAt(ls, indent) then Some((acc, ls))
    else if IsItem(ls[0].content) then None
    else
      match Entry(ls[0].content, ls[1..], indent)
      case None => None
      case Some((entry, rest)) => if HasKey(acc, entry.0) then None else Entries(rest, indent, acc + [entry])
  }

  /** One mapping entry and what is nested below it. */
  function Entry(content: string, rest: seq<Line>, indent: nat): (r: Parsed<(string, Value)>)
    ensures r.Some? ==> |r.value.1| <= |rest|
    decreases |rest|, 1
  {
    match SplitKey(content)
    case None => None
    case Some((key, value)) =>
      match EntryValue(value, rest, indent)
      case None => None
      case Some((v, after)) => Some(((key, v), after))
  }

  /** The document root: one mapping at indentation zero that uses up every line. */
  function Document(ls: seq<Line>): Option<Value> {
    match Block(ls, 0)
    case Some((Mapping(entries), rest)) => if rest == [] then Some(Mapping(entries)) else None
    case _ => None
  }

  // ---- the parser as it runs: an index into the lines ----

  /** `r` is the outcome `spec` with the lines left over given by an index. */
  ghost predicate Same<T>(lines: seq<Line>, spec: Parsed<T>, r: Option<(T, nat)>) {
    match spec
    case None => r.None?
    case Some((v, rest)) => r.Some? && r.value.0 == v && r.value.1 <= |lines| && rest == lines[r.value.1..]
  }

  method ParseValue(lines: seq<Line>, start: nat, value: string, indent: nat) returns (r: Option<(Value, nat)>)
    requires start <= |lines|
    ensures Same(lines, EntryValue(value, lines[start..], indent), r)
    ensures r.Some? ==> start <= r.value.1
    decreases |lines| - start, 0, 3
  {
    if value != "" {
      var v := Scalar(value);
      return if v.None? then None else Some((v.value, start));
    }
    r := ParseBlock(lines, start, indent + 2);
  }

  method ParseBlock(lines: seq<Line>, start: nat, indent: nat) returns (r: Option<(Value, nat)>)
    requires start <= |lines|
    ensures Same(lines, Block(lines[start..], indent), r)
    ensures r.Some? ==> start < r.value.1
    decreases |lines| - start, 0, 2
  {
    if start >= |lines| || lines[start].indent != indent {
      return None;
    }
    if IsItem(lines[start].content) {
      var items := ParseItems(lines, start, indent);
      return if items.None? then None else Some((List(items.value.0), items.value.1));
    }
    var entries := ParseEntries(lines, start, indent);
    return if entries.None? then None else Some((Mapping(entries.value.0), entries.value.1));
  }

  /** The list loop. */
  method ParseItems(lines: seq<Line>, start: nat, indent: nat) returns (r: Option<(seq<Value>, nat)>)
    requires start < |lines| && NestedAt(lines[start..], indent) && IsItem(lines[start].content)
    ensures Same(lines, Items(lines[start..], indent, []), r)
    ensures r.Some? ==> start < r.value.1
    decreases |lines| - start, 0, 0
  {
    var index, items := start, [];
    while index < |lines| && lines[index].indent == indent
      invariant start <= index <= |lines|
      invariant Items(lines[start..], indent, []) == Items(lines[index..], indent, items)
      invariant items == [] ==> index == start
      invariant items != [] ==> start < index
      decreases |lines| - index
    {
      var content := lines[index].content;
      if !IsItem(content) {
        return None;
      }
      assert lines[index..][1..] == lines[index + 1..];
      var item := ParseItem(lines, index + 1, content, indent);
      if item.None? {
        return None;
      }
      items, index := items + [item.value.0], item.value.1;
    }
    return Some((items, index));
  }

  method ParseItem(lines: seq<Line>, start: nat, content: string, indent: nat) returns (r: Option<(Value, nat)>)
    requires start <= |lines| && IsItem(content)
    ensures Same(lines, Item(content, lines[start..], indent), r)
    ensures r.Some? ==> start <= r.value.1
    decreases |lines| - start, 1
  {
    var tail := Strip(content[1..]);
    if tail == "" {
      r := ParseBlock(lines, start, indent + 2);
      return;
    }
    if ':' !in tail {
      var v := Scalar(tail);
      return if v.None? then None else Some((v.value, start));
    }
    var pair := SplitKey(tail);
    if pair.None? {
      return None;
    }
    var (key, text) := pair.value;
    var first := ParseValue(lines, start, text, indent);
    if first.None? {
      return None;
    }
    var (v, index) := first.value;
    if index < |lines| && lines[index].indent == indent + 2 {
      var siblings := ParseBlock(lines, index, indent + 2);
      if siblings.None? || !siblings.value.0.Mapping? {
        return None;
      }
      var more := siblings.value.0.entries;
      if HasKey(more, key) {
        return None;
      }
      return Some((Mapping([(key, v)] + more), siblings.value.1));
    }
    return Some((Mapping([(key, v)]), index));
  }

  lemma EntriesUnfold(lines: seq<Line>, index: nat, indent: nat, acc: seq<(string, Value)>)
    requires index < |lines| && NestedAt(lines[index..], indent) && !IsItem(lines[index].content)
    ensures var entry := Entry(lines[index].content, lines[index + 1..], indent);
            Entries(lines[index..], indent, acc) ==
            if entry.None? || HasKey(acc, entry.value.0.0) then None
              else Entries(entry.value.1, indent, acc + [entry.value.0])
  {
    assert lines[index..][1..] == lines[index + 1..];
  }

  /** The mapping loop. */
  method ParseEntries(lines: seq<Line>, start: nat, indent: nat) returns (r: Option<(seq<(string, Value)>, nat)>)
    requires start < |lines| && NestedAt(lines[start..], indent) && !IsItem(lines[start].content)
    ensures Same(lines, Entries(lines[start..], indent, []), r)
    ensures r.Some? ==> start < r.value.1
    decreases |lines| - start, 0, 1
  {
    var index, entries := start, [];
    while index < |lines| && lines[index].indent == indent
      invariant start <= index <= |lines|
      invariant Entries(lines[start..], indent, []) == Entries(lines[index..], indent, entries)
      invariant entries == [] ==> index == start
      invariant entries != [] ==> start < index
      decreases |lines| - index
    {
      var entry := ParseEntry(lines, index, indent, entries);
      if entry.None? {
        return None;
      }
      entries, index := entries + [entry.value.0], entry.value.1;
    }
    return Some((entries, index));
  }

  /** One round of the mapping loop: no item, a key not taken yet, and its value. */
  method ParseEntry(lines: seq<Line>, index: nat, indent: nat, taken: seq<(string, Value)>)
    returns (r: Option<((string, Value), nat)>)
    requires index < |lines| && NestedAt(lines[index..], indent)
    ensures r.None? ==> Entries(lines[index..], indent, taken) == None
    ensures r.Some? ==> index < r.value.1 <= |lines|
    ensures r.Some? ==>
              Entries(lines[index..], indent, taken) == Entries(lines[r.value.1..], indent, taken + [r.value.0])
    decreases |lines| - index, 0, 0
  {
    var content := lines[index].content;
    if IsItem(content) {
      return None;
    }
    EntriesUnfold(lines, index, indent, taken);
    var pair := SplitKey(content);
    if pair.None? || HasKey(taken, pair.value.0) {
      return None;
    }
    var (key, text) := pair.value;
    var v := ParseValue(lines, index + 1, text, indent);
    if v.None? {
      return None;
    }
    assert Entry(content, lines[index + 1..], indent) == Some(((key, v.value.0), lines[v.value.1..]));
    return Some(((key, v.value.0), v.value.1));
  }

  method ParseDocument(lines: seq<Line>) returns (r: Option<Value>)
    ensures r == Document(lines)
  {
    if lines == [] {
      return None;
    }
    var block := ParseBlock(lines, 0, lines[0].indent);
    assert lines[0..] == lines;
    if block.None? || lines[0].indent != 0 || block.value.1 != |lines| || !block.value.0.Mapping? {
      return None;
    }
    return Some(block.value.0);
  }
}
