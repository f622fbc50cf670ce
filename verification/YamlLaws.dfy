/** What the parser accepts: how indentation may change from line to line, and what keys come out. */
module YamlLaws {
  import opened Text
  import opened Yaml

  // ---- what a parse consumes ----

  /** No line is shallower than `low`, and none goes more than one level deeper than the line before. */
  ghost predicate Staircase(s: seq<Line>, low: nat) {
    && (forall k :: 0 <= k < |s| ==> low <= s[k].indent)
    && (forall k :: 0 < k < |s| ==> s[k].indent <= s[k - 1].indent + 2)
  }

  /** `rest` is what is left of `ls` after a staircase that starts at `first`. */
  ghost predicate Consumed(ls: seq<Line>, rest: seq<Line>, low: nat, first: nat) {
    && |rest| <= |ls| && ls[|ls| - |rest|..] == rest
    && Staircase(ls[..|ls| - |rest|], low)
    && (|rest| < |ls| ==> ls[0].indent == first)
  }

  lemma ConsumedTrans(a: seq<Line>, b: seq<Line>, c: seq<Line>, low: nat, first: nat, low': nat, first': nat)
    requires Consumed(a, b, low, first) && Consumed(b, c, low', first')
    requires low <= low' && low <= first && low <= first' && first' <= low + 2 && (|b| == |a| ==> first' == first)
    ensures Consumed(a, c, low, first)
  {
    var m, n := |a| - |b|, |a| - |c|;
    assert a[m..] == b && a[..m] + b == a;
    assert a[n..] == c by { assert b[n - m..] == a[m..][n - m..]; }
    forall k | 0 <= k < n ensures low <= a[..n][k].indent && (k > 0 ==> a[..n][k].indent <= a[..n][k - 1].indent + 2) {
      if k < m {
        assert a[..m][k] == a[k] && (k > 0 ==> a[..m][k - 1] == a[k - 1]);
      } else {
        assert b[..n - m][k - m] == a[k] && (k > m ==> b[..n - m][k - m - 1] == a[k - 1]);
        if k == m && k > 0 {
          assert a[..m][k - 1] == a[k - 1] && a[k] == b[0];
        }
      }
    }
  }

  lemma ConsumedHead(ls: seq<Line>, rest: seq<Line>, indent: nat)
    requires ls != [] && ls[0].indent == indent && Consumed(ls[1..], rest, indent + 2, indent + 2)
    ensures Consumed(ls, rest, indent, indent)
  {
    var n := |ls| - |rest|;
    assert ls[1..][n - 1..] == ls[n..];
    forall k | 0 <= k < n ensures indent <= ls[..n][k].indent
      && (k > 0 ==> ls[..n][k].indent <= ls[..n][k - 1].indent + 2) {
      if k > 0 {
        assert ls[1..][..n - 1][k - 1] == ls[k];
        assert k > 1 ==> ls[1..][..n - 1][k - 2] == ls[k - 1];
      }
    }
  }

  lemma {:induction false} ValueConsumes(value: string, rest: seq<Line>, indent: nat)
    requires EntryValue(value, rest, indent).Some?
    ensures Consumed(rest, EntryValue(value, rest, indent).value.1, indent + 2, indent + 2)
    decreases |rest|, 0, 2
  {
    if value == "" {
      BlockConsumes(rest, indent + 2);
    }
  }

  /** A block takes a staircase of lines no shallower than itself, and at least one. */
  lemma {:induction false} BlockConsumes(ls: seq<Line>, indent: nat)
    requires Block(ls, indent).Some?
    ensures Consumed(ls, Block(ls, indent).value.1, indent, indent) && |Block(ls, indent).value.1| < |ls|
    decreases |ls|, 0, 1
  {
    if IsItem(ls[0].content) {
      ItemsConsume(ls, indent, []);
    } else {
      EntriesConsume(ls, indent, []);
    }
  }

  lemma {:induction false} ItemsConsume(ls: seq<Line>, indent: nat, acc: seq<Value>)
    requires Items(ls, indent, acc).Some?
    ensures Consumed(ls, Items(ls, indent, acc).value.1, indent, indent)
    ensures !NestedAt(Items(ls, indent, acc).value.1, indent)
    decreases |ls|, 0, 0
  {
    if NestedAt(ls, indent) {
      var (item, rest) := Item(ls[0].content, ls[1..], indent).value;
      ItemConsumes(ls[0].content, ls[1..], indent);
      ConsumedHead(ls, rest, indent);
      ItemsConsume(rest, indent, acc + [item]);
      ConsumedTrans(ls, rest, Items(ls, indent, acc).value.1, indent, indent, indent, indent);
    }
  }

  lemma {:induction false} ItemConsumes(content: string, rest: seq<Line>, indent: nat)
    requires IsItem(content) && Item(content, rest, indent).Some?
    ensures Consumed(rest, Item(content, rest, indent).value.1, indent + 2, indent + 2)
    decreases |rest|, 1
  {
    var tail := Strip(content[1..]);
    if tail == "" {
      BlockConsumes(rest, indent + 2);
    } else if ':' in tail {
      var (key, value) := SplitKey(tail).value;
      ValueConsumes(value, rest, indent);
      var after := EntryValue(value, rest, indent).value.1;
      if NestedAt(after, indent + 2) {
        BlockConsumes(after, indent + 2);
        ConsumedTrans(rest, after, Block(after, indent + 2).value.1, indent + 2, indent + 2, indent + 2, indent + 2);
      }
    }
  }

  lemma {:induction false} EntriesConsume(ls: seq<Line>, indent: nat, acc: seq<(string, Value)>)
    requires Entries(ls, indent, acc).Some?
    ensures Consumed(ls, Entries(ls, indent, acc).value.1, indent, indent)
    ensures !NestedAt(Entries(ls, indent, acc).value.1, indent)
    decreases |ls|, 0, 0
  {
    if NestedAt(ls, indent) {
      var (entry, rest) := Entry(ls[0].content, ls[1..], indent).value;
      ValueConsumes(SplitKey(ls[0].content).value.1, ls[1..], indent);
      ConsumedHead(ls, rest, indent);
      EntriesConsume(rest, indent, acc + [entry]);
      ConsumedTrans(ls, rest, Entries(ls, indent, acc).value.1, indent, indent, indent, indent);
    }
  }

  /** A document that parses is one staircase from indentation zero. */
  lemma DocumentStaircase(ls: seq<Line>)
    ensures Document(ls).Some? ==> Staircase(ls, 0) && ls != [] && ls[0].indent == 0
  {
    if Document(ls).Some? {
      BlockConsumes(ls, 0);
      assert ls[..|ls|] == ls;
    }
  }

  /** One line indented too far below the line before makes the whole document fail. */
  lemma OverIndentedFails(ls: seq<Line>, k: nat)
    requires 0 < k < |ls| && ls[k].indent > ls[k - 1].indent + 2
    ensures Document(ls).None?
  {
    DocumentStaircase(ls);
  }

  // ---- distinct keys ----

  ghost predicate DistinctKeys(entries: seq<(string, Value)>) {
    forall i, j :: 0 <= i < j < |entries| ==> entries[i].0 != entries[j].0
  }

  ghost predicate ValidKeys(entries: seq<(string, Value)>) {
    forall i :: 0 <= i < |entries| ==> IsKey(entries[i].0)
  }

  /** Every mapping inside has valid keys, and none twice. */
  ghost predicate WellKeyed(v: Value) {
    match v
    case List(items) => forall i :: 0 <= i < |items| ==> WellKeyed(items[i])
    case Mapping(entries) => DistinctKeys(entries) && ValidKeys(entries) && forall i :: 0 <= i < |entries| ==>
           WellKeyed(entries[i].1)
    case _ => true
  }

  ghost predicate WellKeyedEntries(entries: seq<(string, Value)>) {
    WellKeyed(Mapping(entries))
  }

  lemma {:induction false} ValueKeys(value: string, rest: seq<Line>, indent: nat)
    requires EntryValue(value, rest, indent).Some?
    ensures WellKeyed(EntryValue(value, rest, indent).value.0)
    decreases |rest|, 0, 2
  {
    if value == "" {
      BlockKeys(rest, indent + 2);
    }
  }

  /** The parser never yields a duplicate key, at any depth. */
  lemma {:induction false} BlockKeys(ls: seq<Line>, indent: nat)
    requires Block(ls, indent).Some?
    ensures WellKeyed(Block(ls, indent).value.0)
    decreases |ls|, 0, 1
  {
    if IsItem(ls[0].content) {
      ItemsKeys(ls, indent, []);
    } else {
      EntriesKeys(ls, indent, []);
    }
  }

  lemma {:induction false} ItemsKeys(ls: seq<Line>, indent: nat, acc: seq<Value>)
    requires Items(ls, indent, acc).Some? && forall i :: 0 <= i < |acc| ==> WellKeyed(acc[i])
    ensures WellKeyed(List(Items(ls, indent, acc).value.0))
    decreases |ls|, 0, 0
  {
    if NestedAt(ls, indent) {
      var (item, rest) := Item(ls[0].content, ls[1..], indent).value;
      ItemKeys(ls[0].content, ls[1..], indent);
      ItemsKeys(rest, indent, acc + [item]);
    }
  }

  lemma {:induction false} ItemKeys(content: string, rest: seq<Line>, indent: nat)
    requires IsItem(content) && Item(content, rest, indent).Some?
    ensures WellKeyed(Item(content, rest, indent).value.0)
    decreases |rest|, 1
  {
    var tail := Strip(content[1..]);
    if tail == "" {
      BlockKeys(rest, indent + 2);
    } else if ':' in tail {
      var (key, value) := SplitKey(tail).value;
      ValueKeys(value, rest, indent);
      var (v, after) := EntryValue(value, rest, indent).value;
      if NestedAt(after, indent + 2) {
        BlockKeys(after, indent + 2);
        var siblings := Block(after, indent + 2).value.0.entries;
        var all := [(key, v)] + siblings;
        assert forall i :: 0 < i < |all| ==> all[i] == siblings[i - 1];
        assert WellKeyedEntries(siblings);
        assert WellKeyedEntries(all);
      }
    }
  }

  lemma {:induction false} EntriesKeys(ls: seq<Line>, indent: nat, acc: seq<(string, Value)>)
    requires Entries(ls, indent, acc).Some? && WellKeyedEntries(acc)
    ensures WellKeyedEntries(Entries(ls, indent, acc).value.0)
    decreases |ls|, 0, 0
  {
    if NestedAt(ls, indent) {
      var (entry, rest) := Entry(ls[0].content, ls[1..], indent).value;
      ValueKeys(SplitKey(ls[0].content).value.1, ls[1..], indent);
      assert WellKeyedEntries(acc + [entry]);
      EntriesKeys(rest, indent, acc + [entry]);
    }
  }

  lemma DocumentKeys(ls: seq<Line>)
    requires Document(ls).Some?
    ensures WellKeyed(Document(ls).value)
  {
    BlockKeys(ls, 0);
  }
}
