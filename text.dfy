/** JavaScript's `String.prototype.trim`, which both the server's transcript guard and the
    client's emit guard apply to a transcript before testing it for emptiness. */
module Text {

  /** The characters `trim` removes: ECMAScript's WhiteSpace (tab, vertical tab, form feed,
      no-break space, byte-order mark and every space separator of Unicode category Zs)
      and its LineTerminator (line feed, carriage return, line and paragraph separator).
      Tab to carriage return is U+0009 to U+000D. */
  predicate IsSpace(c: char) {
    || '\t' <= c <= '\r'
    || c == ' ' || c == '\U{A0}' || c == '\U{1680}'
    || '\U{2000}' <= c <= '\U{200A}'
    || c == '\U{2028}' || c == '\U{2029}' || c == '\U{202F}' || c == '\U{205F}'
    || c == '\U{3000}' || c == '\U{FEFF}'
  }

  /** A string made of spaces only (the empty string included): what `trim` empties. */
  predicate Blank(s: string) {
    s == [] || (IsSpace(s[0]) && Blank(s[1..]))
  }

  /** `Blank` says that every character is a space. */
  lemma {:induction false} BlankAt(s: string)
    ensures Blank(s) <==> forall i :: 0 <= i < |s| ==> IsSpace(s[i])
  {
    if s != [] {
      BlankAt(s[1..]);
      assert forall i :: 1 <= i < |s| ==> s[1..][i - 1] == s[i];
    }
  }

  /** A concatenation is blank exactly when both parts are. */
  lemma {:induction false} BlankConcat(a: string, b: string)
    ensures Blank(a + b) <==> Blank(a) && Blank(b)
  {
    if a != [] {
      assert (a + b)[1..] == a[1..] + b;
      BlankConcat(a[1..], b);
    } else {
      assert a + b == b;
    }
  }

  /** `s.trim()`: drops a leading space, else a trailing one, until neither end of the
      string is a space. */
  function Trim(s: string): (r: string)
    ensures |r| <= |s|
    ensures r != [] ==> !IsSpace(r[0]) && !IsSpace(r[|r| - 1])
  {
    if s != [] && IsSpace(s[0]) then Trim(s[1..])
    else if s != [] && IsSpace(s[|s| - 1]) then Trim(s[..|s| - 1])
    else s
  }

  /** The number of leading characters `trim` drops. */
  function TrimOffset(s: string): nat {
    if s != [] && IsSpace(s[0]) then 1 + TrimOffset(s[1..])
    else if s != [] && IsSpace(s[|s| - 1]) then TrimOffset(s[..|s| - 1])
    else 0
  }

  /** `r` sits in `s` at offset `a` with only spaces before and after it. */
  ghost predicate InfixAt(s: string, a: nat, r: string) {
    && a + |r| <= |s|
    && r == s[a..a + |r|]
    && Blank(s[..a])
    && Blank(s[a + |r|..])
  }

  /** Putting a space in front of `s[1..]` moves its piece one place right. */
  lemma InfixCons(s: string, a: nat, r: string)
    requires s != [] && IsSpace(s[0]) && InfixAt(s[1..], a, r)
    ensures InfixAt(s, a + 1, r)
  {
    var t := s[1..];
    assert s[a + 1..a + 1 + |r|] == t[a..a + |r|];
    assert s[a + 1 + |r|..] == t[a + |r|..];
    assert s[..a + 1][1..] == t[..a];
  }

  /** Putting a space after `s[..|s| - 1]` leaves its piece where it was. */
  lemma InfixSnoc(s: string, a: nat, r: string)
    requires s != [] && IsSpace(s[|s| - 1]) && InfixAt(s[..|s| - 1], a, r)
    ensures InfixAt(s, a, r)
  {
    var t := s[..|s| - 1];
    assert s[a..a + |r|] == t[a..a + |r|];
    assert s[..a] == t[..a];
    assert s[a + |r|..] == t[a + |r|..] + [s[|s| - 1]];
    BlankConcat(t[a + |r|..], [s[|s| - 1]]);
  }

  lemma TrimDropsFirst(s: string)
    requires s != [] && IsSpace(s[0])
    ensures Trim(s) == Trim(s[1..]) && TrimOffset(s) == 1 + TrimOffset(s[1..])
  {
  }

  lemma TrimDropsLast(s: string)
    requires s != [] && !IsSpace(s[0]) && IsSpace(s[|s| - 1])
    ensures Trim(s) == Trim(s[..|s| - 1]) && TrimOffset(s) == TrimOffset(s[..|s| - 1])
  {
  }

  /** `s.trim()` is the piece of `s` between a blank prefix and a blank suffix. */
  lemma {:induction false} TrimIsInfix(s: string)
    ensures InfixAt(s, TrimOffset(s), Trim(s))
  {
    if s != [] && IsSpace(s[0]) {
      TrimIsInfix(s[1..]);
      TrimDropsFirst(s);
      InfixCons(s, TrimOffset(s[1..]), Trim(s[1..]));
    } else if s != [] && IsSpace(s[|s| - 1]) {
      TrimIsInfix(s[..|s| - 1]);
      TrimDropsLast(s);
      InfixSnoc(s, TrimOffset(s[..|s| - 1]), Trim(s[..|s| - 1]));
    } else {
      assert s[..0] == [] && s[|s|..] == [];
    }
  }

  /** `s.trim()` is empty exactly when `s` is blank, that is, when no character of `s` is
      other than a space. */
  lemma {:induction false} TrimEmptyIff(s: string)
    ensures Trim(s) == [] <==> Blank(s)
    ensures Blank(s) <==> forall i :: 0 <= i < |s| ==> IsSpace(s[i])
  {
    BlankAt(s);
    if s != [] && IsSpace(s[0]) {
      TrimEmptyIff(s[1..]);
    } else if s != [] && IsSpace(s[|s| - 1]) {
      TrimEmptyIff(s[..|s| - 1]);
      BlankConcat(s[..|s| - 1], [s[|s| - 1]]);
      assert s == s[..|s| - 1] + [s[|s| - 1]];
    }
  }

}
