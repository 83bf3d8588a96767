/** The string operations behind the wg-quick reader and writer, on sequences of
    Unicode characters. */
module WgText {
  import opened Logs

  // Space

  /** unicode.IsSpace */
  predicate IsSpace(c: char) {
    var x := c as int;
    || 0x09 <= x <= 0x0d || x == 0x20 || x == 0x85 || x == 0xa0 || x == 0x1680
    || 0x2000 <= x <= 0x200a || x == 0x2028 || x == 0x2029 || x == 0x202f || x == 0x205f || x == 0x3000
  }

  predicate AllSpace(s: string) { forall i | 0 <= i < |s| :: IsSpace(s[i]) }

  predicate Trimmed(s: string) { s != "" ==> !IsSpace(s[0]) && !IsSpace(s[|s| - 1]) }

  function TrimLeft(s: string): string {
    if s != "" && IsSpace(s[0]) then TrimLeft(s[1..]) else s
  }

  function TrimRight(s: string): string {
    if s != "" && IsSpace(s[|s| - 1]) then TrimRight(s[..|s| - 1]) else s
  }

  /** strings.TrimSpace */
  function Trim(s: string): string { TrimRight(TrimLeft(s)) }

  lemma {:induction false} TrimLeftIs(a: string, m: string)
    requires AllSpace(a) && (m != "" ==> !IsSpace(m[0]))
    ensures TrimLeft(a + m) == m
    decreases |a|
  {
    if a == "" {
      assert a + m == m;
    } else {
      assert (a + m)[1..] == a[1..] + m;
      TrimLeftIs(a[1..], m);
    }
  }

  lemma {:induction false} TrimRightIs(m: string, b: string)
    requires AllSpace(b) && (m != "" ==> !IsSpace(m[|m| - 1]))
    ensures TrimRight(m + b) == m
    decreases |b|
  {
    if b == "" {
      assert m + b == m;
    } else {
      assert (m + b)[..|m + b| - 1] == m + b[..|b| - 1];
      TrimRightIs(m, b[..|b| - 1]);
    }
  }

  /** Trimming finds the one trimmed core between two runs of space. */
  lemma {:induction false} TrimIs(a: string, m: string, b: string)
    requires AllSpace(a) && AllSpace(b) && Trimmed(m)
    ensures Trim(a + m + b) == m
  {
    if m == "" {
      assert a + m + b == (a + b) + "";
      TrimLeftIs(a + b, "");
    } else {
      assert a + m + b == a + (m + b);
      TrimLeftIs(a, m + b);
      TrimRightIs(m, b);
    }
  }

  lemma {:induction false} TrimLeftSplits(s: string) returns (a: string)
    ensures s == a + TrimLeft(s) && AllSpace(a) && (TrimLeft(s) != "" ==> !IsSpace(TrimLeft(s)[0]))
    decreases |s|
  {
    if s != "" && IsSpace(s[0]) {
      var rest := TrimLeftSplits(s[1..]);
      a := [s[0]] + rest;
    } else {
      a := "";
    }
  }

  lemma {:induction false} TrimRightSplits(s: string) returns (b: string)
    ensures s == TrimRight(s) + b && AllSpace(b) && (TrimRight(s) != "" ==> !IsSpace(TrimRight(s)[|TrimRight(s)| - 1]))
    decreases |s|
  {
    if s != "" && IsSpace(s[|s| - 1]) {
      var rest := TrimRightSplits(s[..|s| - 1]);
      b := rest + [s[|s| - 1]];
    } else {
      b := "";
    }
  }

  lemma {:induction false} TrimSplits(s: string) returns (a: string, b: string)
    ensures s == a + Trim(s) + b && AllSpace(a) && AllSpace(b) && Trimmed(Trim(s))
  {
    a := TrimLeftSplits(s);
    b := TrimRightSplits(TrimLeft(s));
    assert s == a + (Trim(s) + b);
    if Trim(s) != "" {
      assert TrimLeft(s)[0] == Trim(s)[0];
    }
  }

  /** Extra space on either side makes no difference. */
  lemma {:induction false} TrimPadded(p: string, s: string, q: string)
    requires AllSpace(p) && AllSpace(q)
    ensures Trim(p + s + q) == Trim(s)
  {
    var a, b := TrimSplits(s);
    TrimIs(p + a, Trim(s), b + q);
    assert p + s + q == (p + a) + Trim(s) + (b + q);
  }

  // Searching and splitting

  /** strings.IndexByte for an ASCII character; |s| when it is absent. */
  function Find(s: string, c: char): (i: nat)
    ensures i <= |s| && c !in s[..i] && (i < |s| ==> s[i] == c) && (i < |s| <==> c in s)
  {
    if s == "" then 0
    else if s[0] == c then 0
    else
      var j := Find(s[1..], c);
      assert s[..j + 1] == [s[0]] + s[1..][..j];
      assert s == [s[0]] + s[1..];
      j + 1
  }

  /** The first occurrence, recognised. */
  lemma {:induction false} FindIs(a: string, c: char, b: string)
    requires c !in a
    ensures Find(a + [c] + b, c) == |a|
    decreases |a|
  {
    if a != "" {
      FindIs(a[1..], c, b);
      assert (a + [c] + b)[1..] == a[1..] + [c] + b;
    }
  }

  /** The part of a line before a comment. */
  function StripComment(s: string): string { s[..Find(s, '#')] }

  /** strings.Split on a one-character separator. */
  function Split(s: string, c: char): (parts: seq<string>)
    ensures parts != []
    decreases |s|
  {
    var i := Find(s, c);
    if i == |s| then [s] else [s[..i]] + Split(s[i + 1..], c)
  }

  /** strings.Join */
  function Join(parts: seq<string>, c: char): string
    requires parts != []
    decreases |parts|
  {
    if |parts| == 1 then parts[0] else parts[0] + [c] + Join(parts[1..], c)
  }

  predicate Without(parts: seq<string>, c: char) { forall i | 0 <= i < |parts| :: c !in parts[i] }

  lemma {:induction false} SplitWithout(s: string, c: char)
    ensures Without(Split(s, c), c)
    decreases |s|
  {
    var i := Find(s, c);
    if i < |s| {
      SplitWithout(s[i + 1..], c);
    } else {
      assert s[..i] == s;
    }
  }

  lemma {:induction false} SplitCons(a: string, c: char, b: string)
    requires c !in a
    ensures Split(a + [c] + b, c) == [a] + Split(b, c)
  {
    var s := a + [c] + b;
    FindIs(a, c, b);
    assert s[..|a|] == a && s[|a| + 1..] == b;
  }

  lemma {:induction false} JoinCons(a: string, parts: seq<string>, c: char)
    requires parts != []
    ensures Join([a] + parts, c) == a + [c] + Join(parts, c)
  {
    assert ([a] + parts)[1..] == parts;
  }

  lemma {:induction false} Pieces(s: string, i: nat)
    requires i < |s|
    ensures s == s[..i] + [s[i]] + s[i + 1..]
  {
  }

  lemma {:induction false} JoinSplit(s: string, c: char)
    ensures Join(Split(s, c), c) == s
    decreases |s|
  {
    var i := Find(s, c);
    if i < |s| {
      var head, rest := s[..i], s[i + 1..];
      JoinSplit(rest, c);
      JoinCons(head, Split(rest, c), c);
      Pieces(s, i);
      assert Split(s, c) == [head] + Split(rest, c);
    } else {
      assert Split(s, c) == [s];
    }
  }

  lemma {:induction false} SplitJoin(parts: seq<string>, c: char)
    requires parts != [] && Without(parts, c)
    ensures Split(Join(parts, c), c) == parts
    decreases |parts|
  {
    if |parts| > 1 {
      SplitJoin(parts[1..], c);
      SplitCons(parts[0], c, Join(parts[1..], c));
      assert parts == [parts[0]] + parts[1..];
    } else {
      assert parts == [parts[0]];
    }
  }

  /** A printed setting. */
  function SettingText(key: string, v: string): string { key + " = " + v }

  // Case

  /** unicode.ToLower as far as a comparison with an ASCII word can tell: besides
      A-Z, only the dotted capital I and the Kelvin sign lower to ASCII. */
  function LowerChar(c: char): char {
    if 'A' <= c <= 'Z' then (c as int + 32) as char
    else if c as int == 0x130 then 'i'
    else if c as int == 0x212a then 'k'
    else c
  }

  function Lower(s: string): (r: string)
    ensures |r| == |s|
  {
    seq(|s|, i requires 0 <= i < |s| => LowerChar(s[i]))
  }

  function AsciiLower(c: char): char { if 'A' <= c <= 'Z' then (c as int + 32) as char else c }

  /** strings.EqualFold against a word without k or s, whose letters fold only
      within ASCII. */
  predicate FoldsTo(s: string, word: string) {
    |s| == |word| && forall i | 0 <= i < |s| :: AsciiLower(s[i]) == AsciiLower(word[i])
  }

  // Length in bytes

  function CharBytes(c: char): nat {
    var x := c as int;
    if x < 0x80 then 1 else if x < 0x800 then 2 else if x < 0x10000 then 3 else 4
  }

  function ByteLen(s: string): nat {
    if s == "" then 0 else CharBytes(s[0]) + ByteLen(s[1..])
  }
}
