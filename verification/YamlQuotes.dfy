/** A double-quoted scalar is read exactly when it is a JSON string (section 7 of RFC 8259), a lone surrogate
    excepted; a single-quoted one exactly when it is closed. */
module YamlQuotes {
  import opened Common
  import opened Text
  import opened Yaml

  // ---- the grammar ----

  predicate Hex(c: char, d: nat) {
    d < 16 && (c == "0123456789abcdef"[d] || c == "0123456789ABCDEF"[d])
  }

  /** Four digits at `i`. */
  predicate Code(s: string, i: nat, n: nat) {
    && n < 65536 && i + 4 <= |s|
    && Hex(s[i], n / 4096) && Hex(s[i + 1], n / 256 % 16) && Hex(s[i + 2], n / 16 % 16) && Hex(s[i + 3], n % 16)
  }

  predicate Letter(letter: char, c: char) {
    (letter, c) in {('"', '"'), ('\\', '\\'), ('/', '/'), ('b', '\U{8}'), ('f', '\U{C}'), ('n', '\n'), ('r', '\r'),
                    ('t', '\t')}
  }

  predicate Narrow(s: string, c: char) {
    |s| == 6 && s[0] == '\\' && s[1] == 'u' && Code(s, 2, c as nat)
  }

  predicate Wide(s: string, c: char) {
    && |s| == 12 && s[0] == '\\' && s[1] == 'u' && s[6] == '\\' && s[7] == 'u' && c as nat >= 0x10000
    && Code(s, 2, 0xD800 + (c as nat - 0x10000) / 1024) && Code(s, 8, 0xDC00 + (c as nat - 0x10000) % 1024)
  }

  /** What may stand for a character inside the quotes: itself, a backslash and a letter, its code, or the codes
      of its two surrogates. */
  predicate Unit(s: string, c: char) {
    || (s == [c] && c >= ' ' && c != '"' && c != '\\')
    || (|s| == 2 && s[0] == '\\' && Letter(s[1], c))
    || Narrow(s, c) || Wide(s, c)
  }

  /** `s` is such units for the characters of `t`, one after the other, and the closing quote. */
  ghost predicate Quoted(s: string, t: string)
    decreases |t|
  {
    if t == "" then s == "\"" else exists n :: 0 < n <= |s| && Unit(s[..n], t[0]) && Quoted(s[n..], t[1..])
  }

  // ---- four digits ----

  lemma HexIs(c: char, d: nat)
    ensures HexDigit(c) == Some(d) <==> Hex(c, d)
  {
    assert |"0123456789abcdef"| == 16 && |"0123456789ABCDEF"| == 16;
  }

  lemma FourDigits(a: nat, b: nat, c: nat, d: nat, n: nat)
    requires a < 16 && b < 16 && c < 16 && d < 16
    ensures n == 4096 * a + 256 * b + 16 * c + d <==>
              n < 65536 && a == n / 4096 && b == n / 256 % 16 && c == n / 16 % 16 && d == n % 16
  {
    var x, y := n / 16, n / 256;
    assert y == x / 16 && n / 4096 == y / 16;
    assert n == 16 * x + n % 16 && x == 16 * y + x % 16 && y == 16 * (y / 16) + y % 16;
    if n == 4096 * a + 256 * b + 16 * c + d {
      assert n == 16 * (256 * a + 16 * b + c) + d;
      assert x == 256 * a + 16 * b + c && n % 16 == d;
      assert x == 16 * (16 * a + b) + c;
      assert y == 16 * a + b;
    }
  }

  lemma CodeReads(s: string, n: nat)
    requires Code(s, 0, n)
    ensures Hex4(s) == Some(n)
  {
    var a, b, c, d := n / 4096, n / 256 % 16, n / 16 % 16, n % 16;
    HexIs(s[0], a);
    HexIs(s[1], b);
    HexIs(s[2], c);
    HexIs(s[3], d);
    FourDigits(a, b, c, d, n);
  }

  lemma HexSome(c: char)
    requires HexDigit(c).Some?
    ensures Hex(c, HexDigit(c).value)
  {
    HexIs(c, HexDigit(c).value);
  }

  lemma CodeFound(s: string)
    requires |s| >= 4 && Hex4(s).Some?
    ensures Code(s, 0, Hex4(s).value)
  {
    HexSome(s[0]);
    HexSome(s[1]);
    HexSome(s[2]);
    HexSome(s[3]);
    var a, b, c, d := HexDigit(s[0]).value, HexDigit(s[1]).value, HexDigit(s[2]).value, HexDigit(s[3]).value;
    FourDigits(a, b, c, d, Hex4(s).value);
  }

  lemma CodeShift(s: string, i: nat, j: nat, k: nat, n: nat)
    requires i <= j <= |s| && k == j - i
    ensures Code(s[i..], k, n) <==> Code(s, j, n)
  {
    assert forall m :: 0 <= m < |s| - i ==> s[i..][m] == s[i + m];
  }

  lemma CodeCut(s: string, end: nat, j: nat, n: nat)
    requires j + 4 <= end <= |s|
    ensures Code(s[..end], j, n) <==> Code(s, j, n)
  {
    assert forall m :: 0 <= m < end ==> s[..end][m] == s[m];
  }

  // ---- one unit ----

  /** A character beyond the first plane and its surrogates. */
  predicate Surrogates(high: nat, low: nat, c: char) {
    0xD800 <= high < 0xDC00 <= low < 0xE000 && c as nat == 0x10000 + (high - 0xD800) * 1024 + (low - 0xDC00)
  }

  lemma SurrogatesAre(high: nat, low: nat, c: char)
    ensures Surrogates(high, low, c) <==>
              && c as nat >= 0x10000
              && high == 0xD800 + (c as nat - 0x10000) / 1024 && low == 0xDC00 + (c as nat - 0x10000) % 1024
  {
  }

  lemma PairEscape(s: string, high: nat, low: nat, c: char)
    requires |s| >= 10 && s[4] == '\\' && s[5] == 'u' && Hex4(s) == Some(high) && Hex4(s[6..]) == Some(low)
    requires Surrogates(high, low, c)
    ensures UnicodeEscape(s) == Some((c, 10))
  {
  }

  lemma PairReads(s: string, high: nat, low: nat, c: char)
    requires |s| >= 10 && s[4] == '\\' && s[5] == 'u' && Code(s, 0, high) && Code(s[6..], 0, low)
    requires Surrogates(high, low, c)
    ensures UnicodeEscape(s) == Some((c, 10))
  {
    CodeReads(s, high);
    CodeReads(s[6..], low);
    PairEscape(s, high, low, c);
  }

  lemma WideReads(s: string, high: nat, low: nat, c: char)
    requires |s| >= 12 && s[0] == '\\' && s[1] == 'u' && s[6] == '\\' && s[7] == 'u'
    requires Code(s, 2, high) && Code(s, 8, low) && Surrogates(high, low, c)
    ensures Unquote(s) == Prepend(c, Unquote(s[12..]))
  {
    CodeShift(s, 2, 2, 0, high);
    CodeShift(s, 8, 8, 0, low);
    assert s[2..][6..] == s[8..];
    PairReads(s[2..], high, low, c);
    assert s[2 + 10..] == s[12..];
  }

  lemma NarrowReads(s: string, c: char)
    requires |s| >= 6 && s[0] == '\\' && s[1] == 'u' && Code(s, 2, c as nat)
    ensures Unquote(s) == Prepend(c, Unquote(s[6..]))
  {
    CodeShift(s, 2, 2, 0, c as nat);
    CodeReads(s[2..], c as nat);
    assert s[2 + 4..] == s[6..];
  }

  lemma LetterReads(s: string, c: char)
    requires |s| >= 2 && s[0] == '\\' && Letter(s[1], c)
    ensures Unquote(s) == Prepend(c, Unquote(s[2..]))
  {
  }

  lemma PlainReads(s: string)
    requires s != "" && s[0] >= ' ' && s[0] != '"' && s[0] != '\\'
    ensures Unquote(s) == Prepend(s[0], Unquote(s[1..]))
  {
  }

  /** The code of a unit, in the text the unit begins. */
  lemma WideCodes(s: string, c: char) returns (high: nat, low: nat)
    requires |s| >= 12 && Wide(s[..12], c)
    ensures s[0] == '\\' && s[1] == 'u' && s[6] == '\\' && s[7] == 'u'
    ensures Code(s, 2, high) && Code(s, 8, low) && Surrogates(high, low, c)
  {
    var u := s[..12];
    assert forall m :: 0 <= m < 12 ==> u[m] == s[m];
    high, low := 0xD800 + (c as nat - 0x10000) / 1024, 0xDC00 + (c as nat - 0x10000) % 1024;
    CodeCut(s, 12, 2, high);
    CodeCut(s, 12, 8, low);
    SurrogatesAre(high, low, c);
  }

  lemma NarrowCode(s: string, c: char)
    requires |s| >= 6 && Narrow(s[..6], c)
    ensures s[0] == '\\' && s[1] == 'u' && Code(s, 2, c as nat)
  {
    var u := s[..6];
    assert forall m :: 0 <= m < 6 ==> u[m] == s[m];
    CodeCut(s, 6, 2, c as nat);
  }

  lemma UnitReads(s: string, n: nat, c: char)
    requires n <= |s| && Unit(s[..n], c)
    ensures n > 0 && Unquote(s) == Prepend(c, Unquote(s[n..]))
  {
    var u := s[..n];
    if Narrow(u, c) {
      NarrowCode(s, c);
      NarrowReads(s, c);
    } else if Wide(u, c) {
      var high, low := WideCodes(s, c);
      WideReads(s, high, low, c);
    } else if n == 2 {
      assert u[0] == s[0] && u[1] == s[1];
      LetterReads(s, c);
    } else {
      assert u[0] == s[0];
      PlainReads(s);
    }
  }

  lemma PairFound(s: string, c: char) returns (high: nat, low: nat)
    requires UnicodeEscape(s) == Some((c, 10))
    ensures |s| >= 10 && s[4] == '\\' && s[5] == 'u' && Hex4(s) == Some(high) && Hex4(s[6..]) == Some(low)
    ensures Surrogates(high, low, c)
  {
    high, low := Hex4(s).value, Hex4(s[6..]).value;
  }

  lemma WideFound(s: string, c: char)
    requires |s| >= 2 && s[0] == '\\' && s[1] == 'u' && UnicodeEscape(s[2..]) == Some((c, 10))
    ensures |s| >= 12 && Unit(s[..12], c)
  {
    var high, low := PairFound(s[2..], c);
    assert s[2..][6..] == s[8..];
    CodeFound(s[2..]);
    CodeFound(s[8..]);
    CodeShift(s, 2, 2, 0, high);
    CodeShift(s, 8, 8, 0, low);
    CodeCut(s, 12, 2, high);
    CodeCut(s, 12, 8, low);
    SurrogatesAre(high, low, c);
    WideUnit(s, high, low, c);
  }

  lemma WideUnit(s: string, high: nat, low: nat, c: char)
    requires |s| >= 12 && s[0] == '\\' && s[1] == 'u' && s[2..][4] == '\\' && s[2..][5] == 'u'
    requires Code(s[..12], 2, high) && Code(s[..12], 8, low) && c as nat >= 0x10000
    requires high == 0xD800 + (c as nat - 0x10000) / 1024 && low == 0xDC00 + (c as nat - 0x10000) % 1024
    ensures Unit(s[..12], c)
  {
    assert Wide(s[..12], c);
  }

  lemma NarrowFound(s: string, c: char)
    requires |s| >= 2 && s[0] == '\\' && s[1] == 'u' && UnicodeEscape(s[2..]) == Some((c, 4))
    ensures |s| >= 6 && Unit(s[..6], c)
  {
    CodeFound(s[2..]);
    CodeShift(s, 2, 2, 0, c as nat);
    CodeCut(s, 6, 2, c as nat);
    assert Narrow(s[..6], c);
  }

  lemma UnitFound(s: string) returns (n: nat, c: char)
    requires Unquote(s).Some? && s[0] != '"'
    ensures 0 < n <= |s| && Unit(s[..n], c) && Unquote(s) == Prepend(c, Unquote(s[n..]))
  {
    if s[0] != '\\' {
      n, c := 1, s[0];
      assert s[..1] == [c];
    } else if s[1] == 'u' {
      c, n := UnicodeEscape(s[2..]).value.0, 2 + UnicodeEscape(s[2..]).value.1;
      if n == 12 {
        WideFound(s, c);
      } else {
        NarrowFound(s, c);
      }
    } else {
      n, c := 2, SimpleEscape(s[1]).value;
      assert s[..2] == [s[0], s[1]] && Letter(s[1], c);
    }
  }

  /** What is unquoted, exactly: the characters the units stand for, up to the closing quote, which is last. */
  lemma {:induction false} UnquoteReads(s: string, t: string)
    ensures Unquote(s) == Some(t) <==> Quoted(s, t)
    decreases |s|
  {
    if Unquote(s) == Some(t) {
      UnquoteFinds(s, t);
    }
    if Quoted(s, t) {
      QuotedReads(s, t);
    }
  }

  lemma {:induction false} QuotedReads(s: string, t: string)
    requires Quoted(s, t)
    ensures Unquote(s) == Some(t)
    decreases |t|
  {
    if t != "" {
      var n :| 0 < n <= |s| && Unit(s[..n], t[0]) && Quoted(s[n..], t[1..]);
      UnitReads(s, n, t[0]);
      QuotedReads(s[n..], t[1..]);
      assert [t[0]] + t[1..] == t;
    }
  }

  lemma {:induction false} UnquoteFinds(s: string, t: string)
    requires Unquote(s) == Some(t)
    ensures Quoted(s, t)
    decreases |s|
  {
    if s[0] != '"' {
      var n, c := UnitFound(s);
      UnquoteFinds(s[n..], t[1..]);
      assert t[0] == c && Unit(s[..n], t[0]) && Quoted(s[n..], t[1..]);
    }
  }

  // ---- single quotes ----

  lemma {:induction false} UndoubleSame(s: string)
    requires forall i :: 0 <= i < |s| - 1 ==> s[i] != '\'' || s[i + 1] != '\''
    ensures Undouble(s) == s
    decreases |s|
  {
    if s != "" {
      UndoubleSame(s[1..]);
      assert [s[0]] + s[1..] == s;
    }
  }

  /** A text between single quotes, with those inside it doubled. */
  function Doubled(s: string): string {
    if s == "" then "" else (if s[0] == '\'' then "''" else [s[0]]) + Doubled(s[1..])
  }

  lemma {:induction false} UndoubleBack(s: string)
    ensures Undouble(Doubled(s)) == s
    decreases |s|
  {
    if s != "" {
      UndoubleBack(s[1..]);
      var d := Doubled(s);
      assert s == [s[0]] + s[1..];
      if s[0] == '\'' {
        assert d[0] == '\'' && d[1] == '\'' && d[2..] == Doubled(s[1..]);
      } else {
        assert d[0] == s[0] && d[1..] == Doubled(s[1..]);
      }
    }
  }

  /** Any text between single quotes, those inside it doubled, is read as that text. */
  lemma DoubledBack(s: string)
    ensures Scalar("'" + Doubled(s) + "'") == Some(Text(s))
  {
    var d := "'" + Doubled(s) + "'";
    UndoubleBack(s);
    assert d[1..|d| - 1] == Doubled(s);
    TightStrip(d);
  }

  /** Which quoted scalars are read, and as what; a single-quoted text without a doubled quote as it is. */
  lemma QuotedScalar(raw: string, t: string)
    requires Strip(raw) != "" && Strip(raw)[0] in {'"', '\''}
    ensures var s := Strip(raw);
            if s[0] == '"' then Scalar(raw) == Some(Text(t)) <==> Quoted(s[1..], t)
            else
              && (Scalar(raw).Some? <==> |s| >= 2 && s[|s| - 1] == '\'')
              && (|s| == |t| + 2 && s == "'" + t + "'"
                  && (forall i :: 0 <= i < |t| - 1 ==> t[i] != '\'' || t[i + 1] != '\'')
                  ==> Scalar(raw) == Some(Text(t)))
  {
    var s := Strip(raw);
    UnquoteReads(s[1..], t);
    if s[0] == '\'' && |s| == |t| + 2 && s == "'" + t + "'"
       && forall i :: 0 <= i < |t| - 1 ==> t[i] != '\'' || t[i + 1] != '\'' {
      UndoubleSame(t);
      assert s[1..|s| - 1] == t;
    }
  }
}
