/** What a parse preserves, whatever it accepts: the dashes, keys and scalars of the lines, in their order; and
    what is read of plain scalars and of a mapping begun on its dash line. */
module YamlTokens {
  import opened Common
  import opened Text
  import opened Yaml
  import opened YamlPrint

  datatype Token = Dash | Key(key: string) | Leaf(value: Value)

  // ---- the tokens of a value, from its beginning to its end ----

  function Tokens(v: Value): seq<Token>
    decreases v, 0
  {
    match v
    case List(items) => ItemTokens(items)
    case Mapping(entries) => EntryTokens(entries)
    case _ => [Leaf(v)]
  }

  function ItemTokens(items: seq<Value>): seq<Token>
    decreases items, 0
  {
    if items == [] then [] else [Dash] + Tokens(items[0]) + ItemTokens(items[1..])
  }

  function EntryTokens(entries: seq<(string, Value)>): seq<Token>
    decreases entries, 0
  {
    if entries == [] then [] else [Key(entries[0].0)] + EntryValueTokens(entries[0]) + EntryTokens(entries[1..])
  }

  function EntryValueTokens(entry: (string, Value)): seq<Token>
    decreases entry, 1
  {
    Tokens(entry.1)
  }

  // ---- the tokens of lines ----

  function ScalarTokens(text: string): seq<Token> {
    match Scalar(text)
    case None => []
    case Some(v) => [Leaf(v)]
  }

  /** A key and what stands behind its colon. */
  function KeyTokens(text: string): seq<Token> {
    match SplitKey(text)
    case None => []
    case Some((key, value)) => [Key(key)] + if value == "" then [] else ScalarTokens(value)
  }

  /** What stands behind a dash. */
  function TailTokens(tail: string): seq<Token> {
    if tail == "" then [] else if ':' in tail then KeyTokens(tail) else ScalarTokens(tail)
  }

  function LineTokens(content: string): seq<Token> {
    if IsItem(content) then [Dash] + TailTokens(Strip(content[1..])) else KeyTokens(content)
  }

  function AllTokens(ls: seq<Line>): seq<Token> {
    if ls == [] then [] else LineTokens(ls[0].content) + AllTokens(ls[1..])
  }

  // ---- appending ----

  lemma {:induction false} ItemTokensConcat(a: seq<Value>, b: seq<Value>)
    ensures ItemTokens(a + b) == ItemTokens(a) + ItemTokens(b)
    decreases |a|
  {
    if a == [] {
      assert a + b == b;
    } else {
      assert (a + b)[1..] == a[1..] + b;
      ItemTokensConcat(a[1..], b);
    }
  }

  lemma ItemTokensOne(item: Value)
    ensures ItemTokens([item]) == [Dash] + Tokens(item)
  {
    assert [item][1..] == [];
  }

  lemma {:induction false} EntryTokensConcat(a: seq<(string, Value)>, b: seq<(string, Value)>)
    ensures EntryTokens(a + b) == EntryTokens(a) + EntryTokens(b)
    decreases |a|
  {
    if a == [] {
      assert a + b == b;
    } else {
      assert (a + b)[1..] == a[1..] + b;
      EntryTokensConcat(a[1..], b);
    }
  }

  lemma EntryTokensOne(key: string, v: Value)
    ensures EntryTokens([(key, v)]) == [Key(key)] + Tokens(v)
  {
    assert [(key, v)][1..] == [];
  }

  // ---- what a parse takes, it keeps ----

  lemma {:induction false} ValueTokens(value: string, rest: seq<Line>, indent: nat)
    requires EntryValue(value, rest, indent).Some?
    ensures var (v, after) := EntryValue(value, rest, indent).value;
            (if value == "" then [] else ScalarTokens(value)) + AllTokens(rest) == Tokens(v) + AllTokens(after)
    decreases |rest|, 0, 2
  {
    if value == "" {
      BlockTokens(rest, indent + 2);
    }
  }

  lemma {:induction false} BlockTokens(ls: seq<Line>, indent: nat)
    requires Block(ls, indent).Some?
    ensures var (v, rest) := Block(ls, indent).value; AllTokens(ls) == Tokens(v) + AllTokens(rest)
    decreases |ls|, 0, 1
  {
    if IsItem(ls[0].content) {
      ItemsTokens(ls, indent, []);
    } else {
      EntriesTokens(ls, indent, []);
    }
  }

  lemma {:induction false} ItemsTokens(ls: seq<Line>, indent: nat, acc: seq<Value>)
    requires Items(ls, indent, acc).Some?
    ensures var (items, rest) := Items(ls, indent, acc).value;
            ItemTokens(acc) + AllTokens(ls) == ItemTokens(items) + AllTokens(rest)
    decreases |ls|, 0, 0
  {
    if NestedAt(ls, indent) {
      OneItemTokens(ls[0].content, ls[1..], indent);
      var (item, rest) := Item(ls[0].content, ls[1..], indent).value;
      ItemsTokens(rest, indent, acc + [item]);
      ItemTokensConcat(acc, [item]);
      ItemTokensOne(item);
    }
  }

  /** Tokens in front of both sides. */
  lemma Behind(first: seq<Token>, a: seq<Token>, b: seq<Token>, c: seq<Token>, d: seq<Token>)
    requires a + b == c + d
    ensures (first + a) + b == (first + c) + d
  {
    assert (first + a) + b == first + (a + b);
    assert (first + c) + d == first + (c + d);
  }

  /** A mapping begun with one entry, and its further entries, if any. */
  lemma BegunTokens(key: string, value: seq<Token>, v: Value, more: seq<(string, Value)>, rest: seq<Token>,
                    after: seq<Token>, after': seq<Token>)
    requires value + rest == Tokens(v) + after && after == EntryTokens(more) + after'
    ensures ([Key(key)] + value) + rest == Tokens(Mapping([(key, v)] + more)) + after'
  {
    Behind([Key(key)], value, rest, Tokens(v), after);
    EntryTokensOne(key, v);
    EntryTokensConcat([(key, v)], more);
  }

  /** The part of an item behind its dash, when it has a key. */
  lemma {:induction false} KeyedTail(content: string, tail: string, rest: seq<Line>, indent: nat)
    requires IsItem(content) && tail == Strip(content[1..]) && tail != "" && ':' in tail
    requires Item(content, rest, indent).Some?
    ensures var (v, after) := Item(content, rest, indent).value;
            KeyTokens(tail) + AllTokens(rest) == Tokens(v) + AllTokens(after)
    decreases |rest|, 1, 0
  {
    var (key, value) := SplitKey(tail).value;
    ValueTokens(value, rest, indent);
    var (v, after) := EntryValue(value, rest, indent).value;
    var said := if value == "" then [] else ScalarTokens(value);
    if NestedAt(after, indent + 2) {
      BlockTokens(after, indent + 2);
      var (siblings, after') := Block(after, indent + 2).value;
      BegunTokens(key, said, v, siblings.entries, AllTokens(rest), AllTokens(after), AllTokens(after'));
    } else {
      BegunTokens(key, said, v, [], AllTokens(rest), AllTokens(after), AllTokens(after));
      assert [(key, v)] + [] == [(key, v)];
    }
  }

  lemma PlainTail(content: string, tail: string, rest: seq<Line>, indent: nat)
    requires IsItem(content) && tail == Strip(content[1..]) && tail != "" && ':' !in tail
    requires Item(content, rest, indent).Some?
    ensures var (v, after) := Item(content, rest, indent).value; after == rest && TailTokens(tail) == Tokens(v)
  {
    var v := Scalar(tail).value;
    assert Item(content, rest, indent) == Some((v, rest));
    assert !v.List? && !v.Mapping?;
  }

  lemma BareTail(content: string, rest: seq<Line>, indent: nat)
    requires IsItem(content) && Strip(content[1..]) == ""
    ensures Item(content, rest, indent) == Block(rest, indent + 2) && TailTokens("") == []
  {
  }

  lemma {:induction false} ItemTail(content: string, tail: string, rest: seq<Line>, indent: nat)
    requires IsItem(content) && tail == Strip(content[1..]) && Item(content, rest, indent).Some?
    ensures var (v, after) := Item(content, rest, indent).value;
            TailTokens(tail) + AllTokens(rest) == Tokens(v) + AllTokens(after)
    decreases |rest|, 1, 1
  {
    if tail == "" {
      BareTail(content, rest, indent);
      BlockTokens(rest, indent + 2);
    } else if ':' in tail {
      KeyedTail(content, tail, rest, indent);
    } else {
      PlainTail(content, tail, rest, indent);
    }
  }

  lemma {:induction false} OneItemTokens(content: string, rest: seq<Line>, indent: nat)
    requires IsItem(content) && Item(content, rest, indent).Some?
    ensures var (v, after) := Item(content, rest, indent).value;
            LineTokens(content) + AllTokens(rest) == [Dash] + Tokens(v) + AllTokens(after)
    decreases |rest|, 1, 2
  {
    var tail := Strip(content[1..]);
    var (v, after) := Item(content, rest, indent).value;
    ItemTail(content, tail, rest, indent);
    Behind([Dash], TailTokens(tail), AllTokens(rest), Tokens(v), AllTokens(after));
  }

  lemma {:induction false} EntriesTokens(ls: seq<Line>, indent: nat, acc: seq<(string, Value)>)
    requires Entries(ls, indent, acc).Some?
    ensures var (entries, rest) := Entries(ls, indent, acc).value;
            EntryTokens(acc) + AllTokens(ls) == EntryTokens(entries) + AllTokens(rest)
    decreases |ls|, 0, 0
  {
    if NestedAt(ls, indent) {
      OneEntryTokens(ls[0].content, ls[1..], indent);
      var (entry, rest) := Entry(ls[0].content, ls[1..], indent).value;
      EntriesTokens(rest, indent, acc + [entry]);
      EntryTokensConcat(acc, [entry]);
      EntryTokensOne(entry.0, entry.1);
    }
  }

  lemma {:induction false} OneEntryTokens(content: string, rest: seq<Line>, indent: nat)
    requires !IsItem(content) && Entry(content, rest, indent).Some?
    ensures var (entry, after) := Entry(content, rest, indent).value;
            LineTokens(content) + AllTokens(rest) == [Key(entry.0)] + Tokens(entry.1) + AllTokens(after)
    decreases |rest|, 1
  {
    var (key, value) := SplitKey(content).value;
    ValueTokens(value, rest, indent);
    var (v, after) := EntryValue(value, rest, indent).value;
    Behind([Key(key)], if value == "" then [] else ScalarTokens(value), AllTokens(rest), Tokens(v), AllTokens(after));
  }

  /** Whatever parses, no dash, key or scalar of its lines is lost, added, changed or moved. */
  lemma DocumentTokens(ls: seq<Line>)
    requires Document(ls).Some?
    ensures Tokens(Document(ls).value) == AllTokens(ls)
  {
    BlockTokens(ls, 0);
  }

  // ---- two ways to write a mapping in a list ----

  predicate Clashes(acc: seq<(string, Value)>, entries: seq<(string, Value)>) {
    exists i :: 0 <= i < |entries| && HasKey(acc, entries[i].0)
  }

  /** The entries of a block behind others: the same entries, unless a key is taken. */
  function Joined(acc: seq<(string, Value)>, p: Parsed<seq<(string, Value)>>): Parsed<seq<(string, Value)>> {
    match p
    case None => None
    case Some((entries, rest)) => if Clashes(acc, entries) then None else Some((acc + entries, rest))
  }

  lemma ClashesNext(acc: seq<(string, Value)>, entry: (string, Value), more: seq<(string, Value)>)
    ensures Clashes(acc, [entry] + more) <==> HasKey(acc, entry.0) || Clashes(acc, more)
  {
    var all := [entry] + more;
    assert all[0] == entry && forall i :: 0 < i < |all| ==> all[i] == more[i - 1];
    if Clashes(acc, more) {
      var i :| 0 <= i < |more| && HasKey(acc, more[i].0);
      assert HasKey(acc, all[i + 1].0);
    }
  }

  lemma HasKeyConcat(a: seq<(string, Value)>, b: seq<(string, Value)>, key: string)
    ensures HasKey(a + b, key) <==> HasKey(a, key) || HasKey(b, key)
  {
    assert forall i :: 0 <= i < |a| ==> (a + b)[i] == a[i];
    if HasKey(b, key) {
      var i :| 0 <= i < |b| && b[i].0 == key;
      assert (a + b)[|a| + i].0 == key;
    }
  }

  lemma ClashesConcat(a: seq<(string, Value)>, b: seq<(string, Value)>, entries: seq<(string, Value)>)
    ensures Clashes(a + b, entries) <==> Clashes(a, entries) || Clashes(b, entries)
  {
    forall i | 0 <= i < |entries|
      ensures HasKey(a + b, entries[i].0) <==> HasKey(a, entries[i].0) || HasKey(b, entries[i].0)
    {
      HasKeyConcat(a, b, entries[i].0);
    }
  }

  lemma JoinedTwice(acc: seq<(string, Value)>, entry: (string, Value), p: Parsed<seq<(string, Value)>>)
    requires !HasKey(acc, entry.0)
    ensures Joined(acc, Joined([entry], p)) == Joined(acc + [entry], p)
  {
    if p.Some? {
      var more := p.value.0;
      ClashesNext(acc, entry, more);
      ClashesConcat(acc, [entry], more);
      assert acc + ([entry] + more) == acc + [entry] + more;
    }
  }

  lemma JoinedTaken(acc: seq<(string, Value)>, entry: (string, Value), p: Parsed<seq<(string, Value)>>)
    requires HasKey(acc, entry.0)
    ensures Joined(acc, Joined([entry], p)).None?
  {
    if p.Some? {
      ClashesNext(acc, entry, p.value.0);
    }
  }

  lemma {:induction false} EntriesJoined(ls: seq<Line>, indent: nat, acc: seq<(string, Value)>)
    ensures Entries(ls, indent, acc) == Joined(acc, Entries(ls, indent, []))
    decreases |ls|
  {
    if !NestedAt(ls, indent) {
      assert acc + [] == acc;
    } else if !IsItem(ls[0].content) && Entry(ls[0].content, ls[1..], indent).Some? {
      var (entry, rest) := Entry(ls[0].content, ls[1..], indent).value;
      EntriesJoined(rest, indent, [entry]);
      assert [] + [entry] == [entry];
      if HasKey(acc, entry.0) {
        JoinedTaken(acc, entry, Entries(rest, indent, []));
      } else {
        EntriesJoined(rest, indent, acc + [entry]);
        JoinedTwice(acc, entry, Entries(rest, indent, []));
      }
    }
  }

  lemma KeyLineNoItem(text: string)
    requires Tight(text) && SplitKey(text).Some?
    ensures text != "" && !IsItem(text) && ':' in text
  {
    var k := ColonAt(text);
    if k > 0 && text[0] == '-' {
      DashedKey(text[..k]);
    }
  }

  lemma DashedKey(text: string)
    requires text != "" && text[0] == '-'
    ensures !IsKey(Strip(text))
  {
    StripHead(text);
  }

  /** A text that begins with no white space keeps its first character. */
  lemma StripHead(text: string)
    requires text != "" && !IsSpace(text[0])
    ensures Strip(text) != "" && Strip(text)[0] == text[0]
  {
    StripRightHead(text);
  }

  lemma {:induction false} StripRightHead(text: string)
    requires text != "" && !IsSpace(text[0])
    ensures StripRight(text) != "" && StripRight(text)[0] == text[0]
    decreases |text|
  {
    if IsSpace(text[|text| - 1]) {
      StripRightHead(text[..|text| - 1]);
    }
  }

  /** A mapping may begin on the dash line or on the line below a bare dash: with a scalar behind its first key,
      the two are read alike, or both refused, whatever follows. */
  lemma DashShorthand(text: string, below: seq<Line>, indent: nat)
    requires Tight(text) && SplitKey(text).Some? && SplitKey(text).value.1 != ""
    ensures Item("- " + text, below, indent) == Item("-", [Line(indent + 2, text)] + below, indent)
  {
    KeyLineNoItem(text);
    DashLine(text);
    var nested := [Line(indent + 2, text)] + below;
    assert nested[1..] == below && nested[0].content == text;
    var (key, value) := SplitKey(text).value;
    if Scalar(value).Some? {
      BegunAlike(nested, (key, Scalar(value).value), below, indent + 2);
    } else {
      assert Entry(nested[0].content, nested[1..], indent + 2).None?;
      assert Block(nested, indent + 2).None?;
    }
  }

  lemma BegunAlike(ls: seq<Line>, entry: (string, Value), below: seq<Line>, indent: nat)
    requires NestedAt(ls, indent) && !IsItem(ls[0].content) && ls[1..] == below
    requires Entry(ls[0].content, below, indent) == Some((entry, below))
    ensures Block(ls, indent) ==
            if !NestedAt(below, indent) then Some((Mapping([entry]), below))
            else
              match Block(below, indent)
              case Some((Mapping(siblings), rest)) =>
                if HasKey(siblings, entry.0) then None else Some((Mapping([entry] + siblings), rest))
              case _ => None
  {
    assert [] + [entry] == [entry];
    EntriesJoined(below, indent, [entry]);
    if Entries(below, indent, []).Some? {
      var siblings := Entries(below, indent, []).value.0;
      assert Clashes([entry], siblings) <==> HasKey(siblings, entry.0) by {
        assert [entry][0] == entry;
      }
    }
  }

  // ---- plain scalars ----

  lemma {:induction false} DigitsUnique(s: string)
    requires IsNatural(s)
    ensures Digits(NaturalOf(s)) == s
    decreases |s|
  {
    var n, last := NaturalOf(s), (s[|s| - 1] - '0') as nat;
    if |s| == 1 {
      assert s[..0] == "" && s == [s[0]];
    } else {
      var short := s[..|s| - 1];
      DigitsUnique(short);
      assert n == 10 * NaturalOf(short) + last && n / 10 == NaturalOf(short) && n % 10 == last;
      NaturalPositive(short);
      assert s == short + [s[|s| - 1]];
    }
  }

  lemma NaturalPositive(s: string)
    requires IsNatural(s) && s[0] != '0'
    ensures NaturalOf(s) > 0
  {
    var rest := s[..|s| - 1];
    if rest != "" {
      NaturalPositive(rest);
    }
  }

  function Decimal(n: int): string {
    if n >= 0 then Digits(n) else "-" + Digits(-n)
  }

  lemma IntegerUnique(s: string)
    requires IsInteger(s) && s != "-0"
    ensures s == Decimal(IntegerOf(s))
  {
    if IsNatural(s) {
      DigitsUnique(s);
    } else {
      DigitsUnique(s[1..]);
      assert s == "-" + s[1..];
      if s[1] != '0' {
        NaturalPositive(s[1..]);
      }
    }
  }

  lemma ScalarStrip(raw: string)
    ensures Scalar(raw) == Scalar(Strip(raw))
  {
    StripTight(raw);
    TightStrip(Strip(raw));
  }

  lemma MinusZero()
    ensures Scalar("-0") == Some(Number(0))
  {
    var s := "-0";
    assert s[1..] == "0" && IsNatural("0") && !IsNatural(s);
    assert "0"[..0] == "" && NaturalOf("0") == 0;
    NumberScalar(s);
  }

  lemma NumberIs(s: string, n: int)
    requires Strip(s) == s && Scalar(s) == Some(Number(n))
    ensures IsInteger(s) && IntegerOf(s) == n
  {
  }

  /** A number is read of exactly its decimal text, and zero of "-0" too. */
  lemma NumberReads(raw: string, n: int)
    ensures Scalar(raw) == Some(Number(n)) <==> Strip(raw) == Decimal(n) || (n == 0 && Strip(raw) == "-0")
  {
    var s := Strip(raw);
    ScalarStrip(raw);
    NumberBack(n);
    MinusZero();
    if Scalar(s) == Some(Number(n)) && s != "-0" {
      StripTight(raw);
      TightStrip(s);
      NumberIs(s, n);
      IntegerUnique(s);
    }
  }

  predicate IsWord(s: string) {
    s in {"true", "True", "false", "False", "null", "Null", "NULL", "~"}
  }

  /** What a text without quotes stands for. */
  ghost predicate StandsFor(s: string, v: Value) {
    match v
    case Flag(b) => if b then s == "true" || s == "True" else s == "false" || s == "False"
    case Null => s == "null" || s == "Null" || s == "NULL" || s == "~"
    case Number(n) => s == Decimal(n) || (n == 0 && s == "-0")
    case Text(t) => t == s && !IsWord(s) && s != "-0" && forall n :: s != Decimal(n)
    case _ => false
  }

  lemma WordReads(raw: string)
    requires Strip(raw) == "" || Strip(raw)[0] !in {'"', '\''}
    ensures var s := Strip(raw);
            && (Scalar(raw).None? <==> s == "" || s[0] in {'&', '*', '!', '|', '>', '[', '{'})
            && (Scalar(raw) == Some(Flag(true)) <==> s == "true" || s == "True")
            && (Scalar(raw) == Some(Flag(false)) <==> s == "false" || s == "False")
            && (Scalar(raw) == Some(Null) <==> s == "null" || s == "Null" || s == "NULL" || s == "~")
            && (Scalar(raw).Some? ==> var v := Scalar(raw).value; v.Flag? || v.Null? || v.Number? || v == Text(s))
  {
  }

  /** Without quotes: refused exactly when blank or begun with a mark of what the subset leaves out; otherwise a
      word, a number, or the text itself. */
  lemma PlainScalar(raw: string, v: Value)
    requires Strip(raw) == "" || Strip(raw)[0] !in {'"', '\''}
    ensures var s := Strip(raw);
            Scalar(raw) == Some(v) <==>
              s != "" && s[0] !in {'&', '*', '!', '|', '>', '[', '{'} && StandsFor(s, v)
  {
    var s := Strip(raw);
    WordReads(raw);
    forall n ensures Scalar(raw) == Some(Number(n)) <==> s == Decimal(n) || (n == 0 && s == "-0") {
      NumberReads(raw, n);
    }
    if v.Number? {
      DecimalStarts(v.number);
    }
    if v.Text? && StandsFor(s, v) && Scalar(raw).Some? && Scalar(raw).value.Number? {
      NumberReads(raw, Scalar(raw).value.number);
    }
  }

  lemma DecimalStarts(n: int)
    ensures Decimal(n) != "" && Decimal(n)[0] !in {'&', '*', '!', '|', '>', '[', '{', '"', '\''}
  {
  }
}
