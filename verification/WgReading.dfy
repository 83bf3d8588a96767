/** How the parser reads settings, whatever their value, and lines in sequence. */
module WgReading {
  import opened WgConf
  import opened WgText

  lemma {:induction false} TrimHead(s: string)
    requires s != "" && !IsSpace(s[0])
    ensures Trim(s) != "" && Trim(s)[0] == s[0]
  {
    assert TrimLeft(s) == s;
    var b := TrimRightSplits(s);
    assert s[0] == (TrimRight(s) + b)[0];
  }

  lemma {:induction false} FindSkip(p: string, s: string, c: char)
    requires c !in p
    ensures Find(p + s, c) == |p| + Find(s, c)
    decreases |p|
  {
    if p == "" {
      assert p + s == s;
    } else {
      assert (p + s)[1..] == p[1..] + s;
      FindSkip(p[1..], s, c);
    }
  }

  lemma {:induction false} StripSkip(p: string, s: string)
    requires '#' !in p
    ensures StripComment(p + s) == p + StripComment(s)
  {
    FindSkip(p, s, '#');
  }

  lemma {:induction false} TrimmedSetting(a: string, key: string, b: string, rest: string)
    requires AllSpace(a) && Trimmed(key) && key != ""
    ensures Trim(a + key + b + "=" + rest) == key + b + ['='] + TrimRight(rest)
  {
    var head, value := key + b + ['='], TrimRight(rest);
    var tail := TrimRightSplits(rest);
    assert Trimmed(head + value);
    TrimIs(a, head + value, tail);
    assert a + key + b + "=" == a + head;
    Regroup(a, head, value, tail);
  }

  lemma {:induction false} Regroup(a: string, b: string, c: string, d: string)
    ensures (a + b) + (c + d) == a + (b + c) + d
  {
  }

  /** A key, an equals sign and a value, with space around the key. */
  lemma {:induction false} SettingShape(a: string, key: string, b: string, rest: string)
    requires AllSpace(a) && AllSpace(b) && Trimmed(key) && key != "" && key[0] != '[' && '=' !in key
    ensures var line := Trim(a + key + b + "=" + rest);
            && line != "" && line[0] != '['
            && Find(line, '=') < |line|
            && Trim(line[..Find(line, '=')]) == key
            && Trim(line[Find(line, '=') + 1..]) == Trim(rest)
  {
    TrimmedSetting(a, key, b, rest);
    SplitSetting(key, b, TrimRight(rest));
    TrimOfRight(rest);
  }

  lemma {:induction false} TrimOfRight(s: string)
    ensures Trim(TrimRight(s)) == Trim(s)
  {
    var tail := TrimRightSplits(s);
    TrimPadded("", TrimRight(s), tail);
    assert "" + TrimRight(s) + tail == s;
  }

  lemma {:induction false} SplitSetting(key: string, b: string, value: string)
    requires AllSpace(b) && Trimmed(key) && key != "" && '=' !in key
    ensures var line := key + b + ['='] + value;
            var eq := Find(line, '=');
            line != "" && line[0] == key[0] && eq < |line| && Trim(line[..eq]) == key && line[eq + 1..] == value
  {
    var line := key + b + ['='] + value;
    assert '=' !in b by { assert !IsSpace('='); }
    FindIs(key + b, '=', value);
    assert line[..|key| + |b|] == "" + key + b;
    TrimIs("", key, b);
  }

  lemma {:induction false} SettingStripped(key: string, v: string)
    requires '#' !in key
    ensures StripComment(SettingText(key, v)) == "" + key + " " + "=" + (" " + StripComment(v))
  {
    var p := key + " = ";
    assert '#' !in p;
    StripSkip(p, v);
    assert p + v == SettingText(key, v);
  }

  /** How the parser reads a printed setting, whatever the value. */
  lemma {:induction false} SettingLine(key: string, v: string)
    requires Trimmed(key) && key != "" && key[0] != '[' && '=' !in key && '#' !in key
    ensures ReadLine(SettingText(key, v)) == Setting(NameOf(Lower(key)), Seen(v))
  {
    var sv := StripComment(v);
    SettingStripped(key, v);
    SettingShape("", key, " ", " " + sv);
    TrimPadded(" ", sv, "");
    assert " " + sv + "" == " " + sv;
  }

  lemma {:induction false} SeenIsSelf(v: string)
    requires Trimmed(v)
    ensures Seen(v) == v <==> '#' !in v
  {
    if '#' !in v {
      assert StripComment(v) == v;
      TrimIs("", v, "");
      assert "" + v + "" == v;
    } else {
      var a, b := TrimSplits(StripComment(v));
      assert |Seen(v)| <= |StripComment(v)| < |v|;
    }
  }

  lemma {:induction false} HandleLinesAppend(net: Net, f: Fields, xs: seq<string>, ys: seq<string>)
    ensures HandleLines(net, f, xs + ys) ==
            (var g := HandleLines(net, f, xs); if g.Err? then g else HandleLines(net, g.value, ys))
    decreases |xs|
  {
    if xs == [] {
      assert xs + ys == ys;
    } else {
      assert (xs + ys)[1..] == xs[1..] + ys;
      var g := HandleLine(net, f, xs[0]);
      if g.Ok? { HandleLinesAppend(net, g.value, xs[1..], ys); }
    }
  }

  lemma {:induction false} OneLine(net: Net, f: Fields, raw: string)
    ensures HandleLines(net, f, [raw]) == if TooLong(raw) then Err(LineTooLong) else HandleRead(net, f, ReadLine(raw))
  {
    assert [raw][1..] == [];
  }

  lemma {:induction false} ParseIs(net: Net, body: string, f0: Fields, r: WgConf.Result<Fields>)
    requires f0 == FRESH && HandleLines(net, f0, Split(body, '\n')) == r
    ensures Parse(net, body) == if r.Err? then Err(r.error) else Build(r.value)
  {
  }

  lemma {:induction false} ShortLine(net: Net, f: Fields, lines: seq<string>, i: nat)
    requires HandleLines(net, f, lines).Ok? && i < |lines|
    ensures !TooLong(lines[i])
    decreases |lines|
  {
    if i > 0 { ShortLine(net, HandleLine(net, f, lines[0]).value, lines[1..], i - 1); }
  }
}
