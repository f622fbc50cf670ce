/** A parse depends only on the lines it consumes: whatever shallower lines follow may be exchanged. */
module YamlLocal {
  import opened Common
  import opened Text
  import opened Yaml

  /** `ls` with its last |tail| lines, which are `tail`, exchanged for `tail'`. */
  function Swap(ls: seq<Line>, tail: seq<Line>, tail': seq<Line>): seq<Line>
    requires |tail| <= |ls|
  {
    ls[..|ls| - |tail|] + tail'
  }

  predicate EndsIn(ls: seq<Line>, tail: seq<Line>) {
    |tail| <= |ls| && ls[|ls| - |tail|..] == tail
  }

  lemma SwapHead(ls: seq<Line>, tail: seq<Line>, tail': seq<Line>, indent: nat)
    requires EndsIn(ls, tail) && Shallower(tail, indent) && Shallower(tail', indent)
    ensures NestedAt(ls, indent) <==> NestedAt(Swap(ls, tail, tail'), indent)
    ensures NestedAt(ls, indent) ==>
              EndsIn(ls[1..], tail) && Swap(ls, tail, tail')[0] == ls[0]
                && Swap(ls, tail, tail')[1..] == Swap(ls[1..], tail, tail')
  {
    if |ls| == |tail| {
      assert ls == tail && Swap(ls, tail, tail') == tail';
    } else {
      assert Swap(ls, tail, tail')[0] == ls[0];
      assert ls[1..][|ls| - 1 - |tail|..] == ls[|ls| - |tail|..];
      assert Swap(ls, tail, tail')[1..] == Swap(ls[1..], tail, tail');
    }
  }

  /** The outcome `r` on `ls`, carried over to other lines behind it. */
  ghost predicate Carries<T>(r: Parsed<T>, r': Parsed<T>, tail: seq<Line>, tail': seq<Line>) {
    && r.Some? && EndsIn(r.value.1, tail)
    && r' == Some((r.value.0, Swap(r.value.1, tail, tail')))
  }

  lemma {:induction false} ValueLocal(value: string, ls: seq<Line>, indent: nat, tail: seq<Line>, tail': seq<Line>)
    requires EndsIn(ls, tail) && Shallower(tail, indent + 2) && Shallower(tail', indent + 2)
    requires EntryValue(value, ls, indent).Some?
    ensures Carries(EntryValue(value, ls, indent), EntryValue(value, Swap(ls, tail, tail'), indent), tail, tail')
    decreases |ls|, 0, 2
  {
    if value == "" {
      BlockLocal(ls, indent + 2, tail, tail');
    }
  }

  /** Exchanging the shallower lines behind a block changes neither its value nor where it ends. */
  lemma {:induction false} BlockLocal(ls: seq<Line>, indent: nat, tail: seq<Line>, tail': seq<Line>)
    requires EndsIn(ls, tail) && Shallower(tail, indent) && Shallower(tail', indent) && Block(ls, indent).Some?
    ensures Carries(Block(ls, indent), Block(Swap(ls, tail, tail'), indent), tail, tail')
    decreases |ls|, 0, 1
  {
    SwapHead(ls, tail, tail', indent);
    if IsItem(ls[0].content) {
      ItemsLocal(ls, indent, [], tail, tail');
    } else {
      EntriesLocal(ls, indent, [], tail, tail');
    }
  }

  lemma {:induction false} ItemsLocal(ls: seq<Line>, indent: nat, acc: seq<Value>, tail: seq<Line>, tail': seq<Line>)
    requires EndsIn(ls, tail) && Shallower(tail, indent) && Shallower(tail', indent) && Items(ls, indent, acc).Some?
    ensures Carries(Items(ls, indent, acc), Items(Swap(ls, tail, tail'), indent, acc), tail, tail')
    decreases |ls|, 0, 0
  {
    SwapHead(ls, tail, tail', indent);
    if NestedAt(ls, indent) {
      var (item, rest) := Item(ls[0].content, ls[1..], indent).value;
      ItemLocal(ls[0].content, ls[1..], indent, tail, tail');
      ItemsLocal(rest, indent, acc + [item], tail, tail');
    }
  }

  lemma {:induction false} ItemLocal(content: string, ls: seq<Line>, indent: nat, tail: seq<Line>, tail': seq<Line>)
    requires IsItem(content) && EndsIn(ls, tail) && Shallower(tail, indent + 2) && Shallower(tail', indent + 2)
    requires Item(content, ls, indent).Some?
    ensures Carries(Item(content, ls, indent), Item(content, Swap(ls, tail, tail'), indent), tail, tail')
    decreases |ls|, 1
  {
    var text := Strip(content[1..]);
    if text == "" {
      BlockLocal(ls, indent + 2, tail, tail');
    } else if ':' in text {
      var (key, value) := SplitKey(text).value;
      ValueLocal(value, ls, indent, tail, tail');
      var after := EntryValue(value, ls, indent).value.1;
      SwapHead(after, tail, tail', indent + 2);
      if NestedAt(after, indent + 2) {
        BlockLocal(after, indent + 2, tail, tail');
      }
    }
  }

  lemma {:induction false} EntriesLocal(ls: seq<Line>, indent: nat, acc: seq<(string, Value)>, tail: seq<Line>,
                                        tail': seq<Line>)
    requires EndsIn(ls, tail) && Shallower(tail, indent) && Shallower(tail', indent) && Entries(ls, indent, acc).Some?
    ensures Carries(Entries(ls, indent, acc), Entries(Swap(ls, tail, tail'), indent, acc), tail, tail')
    decreases |ls|, 0, 0
  {
    SwapHead(ls, tail, tail', indent);
    if NestedAt(ls, indent) {
      var (entry, rest) := Entry(ls[0].content, ls[1..], indent).value;
      EntryLocal(ls[0].content, ls[1..], indent, tail, tail');
      EntriesLocal(rest, indent, acc + [entry], tail, tail');
    }
  }

  lemma {:induction false} EntryLocal(content: string, ls: seq<Line>, indent: nat, tail: seq<Line>, tail': seq<Line>)
    requires EndsIn(ls, tail) && Shallower(tail, indent + 2) && Shallower(tail', indent + 2)
             && Entry(content, ls, indent).Some?
    ensures Carries(Entry(content, ls, indent), Entry(content, Swap(ls, tail, tail'), indent), tail, tail')
    decreases |ls|, 1
  {
    ValueLocal(SplitKey(content).value.1, ls, indent, tail, tail');
  }
}
