/** Python's notion of white space, and stripping it. */
module Text {
  import opened Common

  predicate IsSpace(c: char) {
    || ('\t' <= c <= '\r') || ('\U{1C}' <= c <= ' ') || c == '\U{85}' || c == '\U{A0}' || c == '\U{1680}'
    || ('\U{2000}' <= c <= '\U{200A}') || c == '\U{2028}' || c == '\U{2029}' || c == '\U{202F}' || c == '\U{205F}'
    || c == '\U{3000}'
  }

  function StripLeft(s: string): string {
    if s != "" && IsSpace(s[0]) then StripLeft(s[1..]) else s
  }

  function StripRight(s: string): string {
    if s != "" && IsSpace(s[|s| - 1]) then StripRight(s[..|s| - 1]) else s
  }

  function Strip(s: string): string {
    StripRight(StripLeft(s))
  }

  /** Nothing left to strip. */
  predicate Tight(s: string) {
    s == "" || (!IsSpace(s[0]) && !IsSpace(s[|s| - 1]))
  }

  lemma StripRightPrefix(s: string)
    ensures StripRight(s) <= s
    ensures StripRight(s) == "" || !IsSpace(StripRight(s)[|StripRight(s)| - 1])
  {
  }

  lemma StripTight(s: string)
    ensures Tight(Strip(s))
  {
    var left := StripLeft(s);
    assert left == "" || !IsSpace(left[0]) by { StripLeftFirst(s); }
    StripRightPrefix(left);
  }

  lemma StripLeftFirst(s: string)
    ensures StripLeft(s) == "" || !IsSpace(StripLeft(s)[0])
  {
  }

  lemma TightStrip(s: string)
    requires Tight(s)
    ensures Strip(s) == s
  {
  }

  predicate AllSpace(s: string) {
    forall k :: 0 <= k < |s| ==> IsSpace(s[k])
  }

  lemma {:induction false} StripLeftPast(a: string, s: string)
    requires AllSpace(a) && (s == "" || !IsSpace(s[0]))
    ensures StripLeft(a + s) == s
    decreases |a|
  {
    if a == "" {
      assert a + s == s;
    } else {
      assert (a + s)[1..] == a[1..] + s;
      StripLeftPast(a[1..], s);
    }
  }

  lemma {:induction false} StripRightPast(s: string, b: string)
    requires AllSpace(b) && (s == "" || !IsSpace(s[|s| - 1]))
    ensures StripRight(s + b) == s
    decreases |b|
  {
    if b == "" {
      assert s + b == s;
    } else {
      assert (s + b)[..|s + b| - 1] == s + b[..|b| - 1];
      StripRightPast(s, b[..|b| - 1]);
    }
  }

  /** Stripping takes the white space around a text and nothing else. */
  lemma StripAround(a: string, s: string, b: string)
    requires AllSpace(a) && Tight(s) && AllSpace(b)
    ensures Strip(a + s + b) == s
  {
    if s == "" {
      assert a + s + b == a + b && (a + b) + "" == a + b;
      StripLeftPast(a + b, "");
    } else {
      assert a + s + b == a + (s + b);
      StripLeftPast(a, s + b);
      StripRightPast(s, b);
    }
  }

  /** A required text field: its stripped value, unless nothing is left of it. */
  function Required(s: string): (r: Option<string>)
    ensures r.Some? ==> r.value != "" && Tight(r.value)
  {
    StripTight(s);
    if Strip(s) == "" then None else Some(Strip(s))
  }

  function RequiredEach(items: seq<string>): (r: Option<seq<string>>)
    ensures r.Some? ==> |r.value| == |items| && forall k :: 0 <= k < |items| ==> r.value[k] != "" && Tight(r.value[k])
  {
    if items == [] then Some([])
    else
      match (Required(items[0]), RequiredEach(items[1..]))
      case (Some(first), Some(rest)) => Some([first] + rest)
      case _ => None
  }

  lemma {:induction false} RequiredEachAgain(items: seq<string>)
    requires forall k :: 0 <= k < |items| ==> items[k] != "" && Tight(items[k])
    ensures RequiredEach(items) == Some(items)
  {
    if items != [] {
      TightStrip(items[0]);
      RequiredEachAgain(items[1..]);
      assert items == [items[0]] + items[1..];
    }
  }
}
