/** Laws of key injection: it reads back, it overwrites, it touches nothing else,
    and the wg-quick parser sees the injected key and otherwise the same file. */
module KeyTheorems {
  import opened KeyInjection
  import opened Logs
  import opened WgConf
  import opened WgMeaning
  import opened WgReading
  import opened WgText

  // The written line

  lemma {:induction false} LowerPrivateKey()
    ensures Lower("PrivateKey") == "privatekey"
  {
  }

  lemma {:induction false} WrittenAs(name: string, v: string)
    requires Trimmed(name) && name != "" && name[0] != '[' && '=' !in name
    ensures var raw := SettingText(name, v);
            && !IsHeader(raw) && Find(raw, '=') < |raw|
            && Trim(raw[..Find(raw, '=')]) == name && Trim(raw[Find(raw, '=') + 1..]) == Trim(v)
  {
    var raw := SettingText(name, v);
    assert raw == name + " " + ['='] + (" " + v);
    TrimHead(raw);
    FindIs(name + " ", '=', " " + v);
    assert raw[..Find(raw, '=')] == "" + name + " ";
    TrimIs("", name, " ");
    assert raw[Find(raw, '=') + 1..] == " " + v + "";
    TrimPadded(" ", v, "");
  }

  /** What the injector makes of the line it writes. */
  lemma {:induction false} WrittenLine(key: string)
    ensures !IsHeader(KeyLine(key)) && IsKeyLine(KeyLine(key)) && ValueOf(KeyLine(key)) == Trim(key)
  {
    LowerPrivateKey();
    WrittenAs("PrivateKey", key);
  }

  lemma {:induction false} WrittenOnOneLine(key: string)
    requires '\n' !in key
    ensures '\n' !in KeyLine(key)
  {
  }

  /** What the parser makes of it. */
  lemma {:induction false} WrittenLineSeen(key: string)
    ensures ReadLine(KeyLine(key)) == Setting(PrivateKey, Seen(key))
  {
    var name := "PrivateKey";
    SettingLine(name, key);
    LowerPrivateKey();
  }

  // Reading back and overwriting

  lemma {:induction false} FirstTargetIs(lines: seq<string>, i: nat, p: nat)
    requires i <= p < |lines| && IsTarget(lines, p) && forall j | i <= j < p :: !IsTarget(lines, j)
    ensures FirstTarget(lines, i) == Some(p)
    decreases p - i
  {
    if i < p { FirstTargetIs(lines, i + 1, p); }
  }

  lemma {:induction false} FirstTargetFirst(lines: seq<string>, i: nat)
    requires i <= |lines|
    ensures var t := FirstTarget(lines, i);
            && (t.Some? ==> IsTarget(lines, t.value))
            && forall j | i <= j < (if t.Some? then t.value else |lines|) :: !IsTarget(lines, j)
    decreases |lines| - i
  {
    if i < |lines| && !IsTarget(lines, i) { FirstTargetFirst(lines, i + 1); }
  }

  lemma {:induction false} LastHeaderIs(lines: seq<string>, i: nat)
    requires i <= |lines|
    ensures LastHeader(lines, i).Some? ==> OpensInterface(lines[LastHeader(lines, i).value])
    ensures var from := if LastHeader(lines, i).None? then 0 else LastHeader(lines, i).value + 1;
            forall j | from <= j < i :: !OpensInterface(lines[j])
  {
    if i > 0 && !OpensInterface(lines[i - 1]) { LastHeaderIs(lines, i - 1); }
  }

  /** Where Rekeyed writes. */
  function Position(lines: seq<string>): nat
    requires LastHeader(lines, |lines|).Some?
  {
    var t := FirstTarget(lines, 0);
    if t.Some? then t.value else LastHeader(lines, |lines|).value + 1
  }

  /** The lines after the written one. */
  function Tail(lines: seq<string>): seq<string>
    requires LastHeader(lines, |lines|).Some?
  {
    if FirstTarget(lines, 0).Some? then lines[Position(lines) + 1..] else lines[Position(lines)..]
  }

  /** Every other line is kept, in order: the result is the lines before the
      position, the key line, and the tail. */
  lemma {:induction false} RekeyedShape(lines: seq<string>, key: string)
    requires LastHeader(lines, |lines|).Some?
    ensures Rekeyed(lines, key) == Some(lines[..Position(lines)] + [KeyLine(key)] + Tail(lines))
    ensures var p := Position(lines);
            lines == lines[..p] + (if FirstTarget(lines, 0).Some? then [lines[p]] else []) + Tail(lines)
  {
    var p := Position(lines);
    if FirstTarget(lines, 0).Some? {
      assert lines[p := KeyLine(key)] == lines[..p] + [KeyLine(key)] + lines[p + 1..];
    }
  }

  /** Where the key is written: over the first [Interface] PrivateKey line, or, if there
      is none, right after the last [Interface] header. */
  lemma {:induction false} WrittenWhere(lines: seq<string>)
    requires LastHeader(lines, |lines|).Some?
    ensures var p := Position(lines);
            if exists i :: 0 <= i < |lines| && IsTarget(lines, i) then
              IsTarget(lines, p) && forall j | 0 <= j < p :: !IsTarget(lines, j)
            else
              && 0 < p <= |lines| && OpensInterface(lines[p - 1])
              && forall j | p <= j < |lines| :: !OpensInterface(lines[j])
  {
    FirstTargetFirst(lines, 0);
    LastHeaderIs(lines, |lines|);
  }

  /** The section before the written line is an [Interface] one. */
  lemma {:induction false} InsidePosition(lines: seq<string>)
    requires LastHeader(lines, |lines|).Some?
    ensures Inside(lines[..Position(lines)])
  {
    FirstTargetFirst(lines, 0);
    if FirstTarget(lines, 0).None? {
      var h := LastHeader(lines, |lines|).value;
      LastHeaderIs(lines, |lines|);
      assert lines[..h + 1][h] == lines[h];
    }
  }

  lemma {:induction false} RekeyedHeader(lines: seq<string>, key: string)
    requires LastHeader(lines, |lines|).Some?
    ensures var out := Rekeyed(lines, key).value; LastHeader(out, |out|).Some?
  {
    var out, h := Rekeyed(lines, key).value, LastHeader(lines, |lines|).value;
    LastHeaderIs(lines, |lines|);
    FirstTargetFirst(lines, 0);
    assert out[h] == lines[h];
    LastHeaderIs(out, |out|);
  }

  lemma {:induction false} RekeyedTarget(lines: seq<string>, key: string)
    requires LastHeader(lines, |lines|).Some?
    ensures var out := Rekeyed(lines, key).value;
            FirstTarget(out, 0) == Some(Position(lines)) && out[Position(lines)] == KeyLine(key)
  {
    var p, out := Position(lines), Rekeyed(lines, key).value;
    RekeyedShape(lines, key);
    FirstTargetFirst(lines, 0);
    assert out[..p] == lines[..p];
    assert IsTarget(out, p) by {
      WrittenLine(key);
      InsidePosition(lines);
    }
    forall j | 0 <= j < p
      ensures !IsTarget(out, j)
    {
      assert out[..j] == lines[..j] && out[j] == lines[j];
      assert !IsTarget(lines, j);
    }
    FirstTargetIs(out, 0, p);
  }

  lemma {:induction false} RekeyedLines(body: string, key: string)
    requires Inject(body, key).Some? && '\n' !in key
    ensures Split(Inject(body, key).value, '\n') == Rekeyed(Split(body, '\n'), key).value
  {
    var lines := Split(body, '\n');
    RekeyedShape(lines, key);
    WrittenOnOneLine(key);
    SplitWithout(body, '\n');
    SplitJoin(Rekeyed(lines, key).value, '\n');
  }

  /** The injector refuses exactly the bodies without an [Interface] header. */
  lemma {:induction false} InjectsUnderInterface(body: string, key: string)
    ensures Inject(body, key).Some? <==>
              exists i :: 0 <= i < |Split(body, '\n')| && OpensInterface(Split(body, '\n')[i])
  {
    LastHeaderIs(Split(body, '\n'), |Split(body, '\n')|);
  }

  /** What the injector writes is what the reader finds. */
  lemma {:induction false} InjectedKeyReadsBack(body: string, key: string)
    requires '\n' !in key && Trimmed(key) && Inject(body, key).Some?
    ensures Extract(Inject(body, key).value) == key
  {
    var out, p := Rekeyed(Split(body, '\n'), key).value, Position(Split(body, '\n'));
    RekeyedTarget(Split(body, '\n'), key);
    WrittenLine(key);
    assert Extract(Inject(body, key).value) == ValueOf(out[p]) by { RekeyedLines(body, key); }
    TrimIs("", key, "");
    assert "" + key + "" == key;
  }

  lemma {:induction false} RewrittenTwice(a: seq<string>, x: string, y: string, b: seq<string>)
    ensures (a + [x] + b)[|a| := y] == a + [y] + b
  {
  }

  lemma {:induction false} RekeyedTwice(lines: seq<string>, key1: string, key2: string)
    requires LastHeader(lines, |lines|).Some?
    ensures Rekeyed(Rekeyed(lines, key1).value, key2) == Rekeyed(lines, key2)
  {
    var out, p := Rekeyed(lines, key1).value, Position(lines);
    assert Rekeyed(out, key2) == Some(out[p := KeyLine(key2)]) by {
      RekeyedHeader(lines, key1);
      RekeyedTarget(lines, key1);
    }
    RekeyedShape(lines, key1);
    RekeyedShape(lines, key2);
    RewrittenTwice(lines[..p], KeyLine(key1), KeyLine(key2), Tail(lines));
  }

  /** A second injection overwrites the first and leaves no trace of it. */
  lemma {:induction false} LastInjectionWins(body: string, key1: string, key2: string)
    requires '\n' !in key1 && Inject(body, key1).Some?
    ensures Inject(Inject(body, key1).value, key2) == Inject(body, key2)
  {
    RekeyedLines(body, key1);
    RekeyedTwice(Split(body, '\n'), key1, key2);
  }

  // What the parser sees

  lemma {:induction false} NotInWord(s: string, word: string, c: char)
    requires Lower(s) == word && c !in word && LowerChar(c) == c
    ensures c !in s
  {
    assert forall i | 0 <= i < |s| :: Lower(s)[i] == LowerChar(s[i]);
    assert forall i | 0 <= i < |s| && s[i] == c :: word[i] == c;
  }

  /** A line the injector takes for a PrivateKey line is one to the parser too. */
  lemma {:induction false} KeyLineSeen(raw: string)
    requires IsKeyLine(raw)
    ensures ReadLine(raw).Setting? && ReadLine(raw).name.PrivateKey?
  {
    var eq, word := Find(raw, '='), "privatekey";
    var a, b := TrimSplits(raw[..eq]);
    var key := Trim(raw[..eq]);
    NotInWord(key, word, '#');
    NotInWord(key, word, '=');
    NotInWord(key, word, '[');
    KeyTextSeen(raw, a, key, b);
  }

  lemma {:induction false} KeyTextSeen(raw: string, a: string, key: string, b: string)
    requires Find(raw, '=') < |raw| && raw[..Find(raw, '=')] == a + key + b && AllSpace(a) && AllSpace(b)
    requires Trimmed(key) && key != "" && '#' !in key && '=' !in key && '[' !in key
    ensures ReadLine(raw).Setting? && ReadLine(raw).name == NameOf(Lower(key))
  {
    var rest := StrippedSetting(raw, a, key, b);
    SettingShape(a, key, b, rest);
  }

  lemma {:induction false} StrippedSetting(raw: string, a: string, key: string, b: string) returns (rest: string)
    requires Find(raw, '=') < |raw| && raw[..Find(raw, '=')] == a + key + b && AllSpace(a) && AllSpace(b) && '#' !in key
    ensures StripComment(raw) == a + key + b + "=" + rest
  {
    var eq := Find(raw, '=');
    var head, tail := raw[..eq + 1], raw[eq + 1..];
    assert head == a + key + b + "=";
    assert '#' !in head by { assert !IsSpace('#'); }
    assert raw == head + tail;
    StripSkip(head, tail);
    rest := StripComment(tail);
  }

  /** A line as leading space, what the parser keeps of it, and the rest. */
  lemma {:induction false} Uncommented(raw: string) returns (a: string, line: string, rest: string)
    ensures raw == a + line + rest && AllSpace(a) && Trimmed(line) && line == Trim(StripComment(raw))
  {
    var stripped, b := StripComment(raw), "";
    a, b := TrimSplits(stripped);
    line, rest := Trim(stripped), b + raw[|stripped|..];
  }

  lemma {:induction false} StartsWith(raw: string, a: string, line: string, rest: string)
    requires raw == a + line + rest && AllSpace(a) && Trimmed(line) && line != ""
    ensures Trim(raw) != "" && Trim(raw)[0] == line[0]
  {
    assert raw == a + (line + rest);
    TrimLeftIs(a, line + rest);
    TrimHead(line + rest);
    assert TrimLeft(line + rest) == line + rest;
  }

  /** The parser takes no line for a header that the injector does not. */
  lemma {:induction false} HeaderSeen(raw: string)
    requires ReadLine(raw).Header?
    ensures IsHeader(raw)
  {
    var a, line, rest := Uncommented(raw);
    StartsWith(raw, a, line, rest);
  }

  /** An [Interface] header of the injector reaches the parser uncommented. */
  lemma {:induction false} InterfaceSeen(raw: string)
    requires OpensInterface(raw)
    ensures ReadLine(raw) == Header(Trim(raw))
  {
    var a, b := TrimSplits(raw);
    var t := Trim(raw);
    assert '#' !in raw by {
      assert !IsSpace('#');
      assert forall i | 0 <= i < |t| :: t[i] != '#';
    }
    assert StripComment(raw) == raw;
  }

  function WithKey(f: Fields, key: Option<string>, otherwise: string): Fields {
    f.(privateKey := if key.Some? then key.value else otherwise)
  }

  lemma {:induction false} KeyFreeInterface(net: Net, f: Fields, x: string, name: Name, val: string)
    ensures var g := HandleInterfaceKey(net, f, name, val);
            HandleInterfaceKey(net, f.(privateKey := x), name, val) ==
            (if g.Err? then g else Ok(g.value.(privateKey := if name.PrivateKey? then val else x)))
    ensures var g := HandleInterfaceKey(net, f, name, val); g.Ok? ==> g.value.section == f.section
  {
  }

  lemma {:induction false} KeyFreePeer(net: Net, f: Fields, x: string, name: Name, val: string)
    ensures var g := HandlePeerKey(net, f, name, val);
            HandlePeerKey(net, f.(privateKey := x), name, val) ==
            (if g.Err? then g else Ok(g.value.(privateKey := x)))
    ensures var g := HandlePeerKey(net, f, name, val); g.Ok? ==> g.value.section == f.section
  {
  }

  lemma {:induction false} KeyFreeRead(net: Net, f: Fields, x: string, line: Line)
    ensures var g := HandleRead(net, f, line);
            HandleRead(net, f.(privateKey := x), line) ==
            (if g.Err? then g
              else Ok(g.value.(privateKey := if Sets(f.section, InInterface, PrivateKey, line) then line.value else x)))
    ensures HandleRead(net, f, line).Ok? ==> HandleRead(net, f, line).value.section == SectionAfter(f.section, line)
  {
    if line.Setting? {
      KeyFreeInterface(net, f, x, line.name, line.value);
      KeyFreePeer(net, f, x, line.name, line.value);
    }
  }

  /** The parser never reads the key it holds: starting from another key changes
      the outcome in that field alone, and only if the lines set none. */
  lemma {:induction false} KeyFree(net: Net, f: Fields, x: string, lines: seq<string>)
    ensures var g := HandleLines(net, f, lines);
            HandleLines(net, f.(privateKey := x), lines) ==
            (if g.Err? then g else Ok(WithKey(g.value, LastValue(f.section, InInterface, PrivateKey, lines), x)))
    decreases |lines|
  {
    if lines != [] && !TooLong(lines[0]) {
      var line := ReadLine(lines[0]);
      KeyFreeRead(net, f, x, line);
      var g := HandleRead(net, f, line);
      if g.Ok? {
        var y := if Sets(f.section, InInterface, PrivateKey, line) then line.value else x;
        KeyFree(net, g.value, y, lines[1..]);
      }
    }
  }

  lemma {:induction false} StaysInside(net: Net, f: Fields, last: string)
    requires HandleRead(net, f, ReadLine(last)).Ok?
    requires if IsHeader(last) then IsInterfaceHeader(last) else f.section.InInterface?
    ensures HandleRead(net, f, ReadLine(last)).value.section.InInterface?
  {
    var line := ReadLine(last);
    KeyFreeRead(net, f, "", line);
    if IsHeader(last) {
      InterfaceSeen(last);
    } else if line.Header? {
      HeaderSeen(last);
    }
  }

  /** Where the injector is inside [Interface], so is a parser without an error. */
  lemma {:induction false} InsideSeen(net: Net, f: Fields, lines: seq<string>)
    requires HandleLines(net, f, lines).Ok? && Inside(lines)
    ensures HandleLines(net, f, lines).value.section.InInterface?
    decreases |lines|
  {
    var k := |lines| - 1;
    var before, last := lines[..k], lines[k];
    assert lines == before + [last];
    HandleLinesAppend(net, f, before, [last]);
    var g := HandleLines(net, f, before);
    OneLine(net, g.value, last);
    if !IsHeader(last) { InsideSeen(net, f, before); }
    StaysInside(net, g.value, last);
  }

  /** What follows the written line, from the fields the lines before it leave. */
  lemma {:induction false} ParseAround(
    net: Net, f0: Fields, before: seq<string>, mid: string, tail: seq<string>, x: string)
    requires ReadLine(mid) == Setting(PrivateKey, x)
    requires HandleLines(net, f0, before).Ok? ==> HandleLines(net, f0, before).value.section.InInterface?
    ensures var r := HandleLines(net, f0, before);
            HandleLines(net, f0, before + [mid] + tail) ==
            if r.Err? then r
            else if TooLong(mid) then Err(LineTooLong)
            else
              var g := HandleLines(net, r.value, tail);
              if g.Err? then g else Ok(WithKey(g.value, LastValue(InInterface, InInterface, PrivateKey, tail), x))
  {
    var r := HandleLines(net, f0, before);
    HandleLinesAppend(net, f0, before + [mid], tail);
    HandleLinesAppend(net, f0, before, [mid]);
    if r.Ok? {
      OneLine(net, r.value, mid);
      KeyFree(net, r.value, x, tail);
    }
  }

  /** The parser is in [Interface] wherever the injector writes. */
  lemma {:induction false} PositionSeen(net: Net, f0: Fields, lines: seq<string>)
    requires LastHeader(lines, |lines|).Some?
    ensures var r := HandleLines(net, f0, lines[..Position(lines)]);
            r.Ok? ==> r.value.section.InInterface?
  {
    InsidePosition(lines);
    if HandleLines(net, f0, lines[..Position(lines)]).Ok? { InsideSeen(net, f0, lines[..Position(lines)]); }
  }

  /** The key an untouched body has at the position: the one set there, or before it. */
  function FormerKey(f: Fields, lines: seq<string>): string
    requires LastHeader(lines, |lines|).Some?
  {
    if FirstTarget(lines, 0).None? then f.privateKey
    else
      var line := ReadLine(lines[Position(lines)]);
      if line.Setting? then line.value else ""
  }

  lemma {:induction false} ParseUntouched(net: Net, f0: Fields, lines: seq<string>)
    requires LastHeader(lines, |lines|).Some?
    requires FirstTarget(lines, 0).Some? ==> !TooLong(lines[Position(lines)])
    ensures var r := HandleLines(net, f0, lines[..Position(lines)]);
            HandleLines(net, f0, lines) ==
            if r.Err? then r
            else
              var g := HandleLines(net, r.value, Tail(lines));
              if g.Err? then g
                else Ok(WithKey(g.value, LastValue(InInterface, InInterface, PrivateKey, Tail(lines)),
                  FormerKey(r.value, lines)))
  {
    var p, tail := Position(lines), Tail(lines);
    var r := HandleLines(net, f0, lines[..p]);
    RekeyedShape(lines, "");
    PositionSeen(net, f0, lines);
    if FirstTarget(lines, 0).Some? {
      KeyLineSeen(lines[p]);
      ParseAround(net, f0, lines[..p], lines[p], tail, ReadLine(lines[p]).value);
    } else {
      assert lines == lines[..p] + tail;
      HandleLinesAppend(net, f0, lines[..p], tail);
      if r.Ok? {
        KeyFree(net, r.value, r.value.privateKey, tail);
        assert r.value.(privateKey := r.value.privateKey) == r.value;
      }
    }
  }

  /** Injection preserves what the parser sees: for every body and key, parsing the
      injected lines fails as before or ends in the same fields, with the
      private key being the last one set after the written line, or else the
      injected key as the parser sees it. */
  lemma {:induction false} InjectionPreservesFields(net: Net, f0: Fields, lines: seq<string>, key: string)
    requires LastHeader(lines, |lines|).Some? && !TooLong(KeyLine(key))
    requires FirstTarget(lines, 0).Some? ==> !TooLong(lines[Position(lines)])
    ensures var g := HandleLines(net, f0, lines);
            HandleLines(net, f0, Rekeyed(lines, key).value) ==
            (if g.Err? then g
              else Ok(WithKey(g.value, LastValue(InInterface, InInterface, PrivateKey, Tail(lines)), Seen(key))))
  {
    var p, tail := Position(lines), Tail(lines);
    RekeyedShape(lines, key);
    PositionSeen(net, f0, lines);
    WrittenLineSeen(key);
    ParseAround(net, f0, lines[..p], KeyLine(key), tail, Seen(key));
    ParseUntouched(net, f0, lines);
  }

  lemma {:induction false} BuildWithKey(f: Fields, key: string)
    ensures var g := f.(privateKey := key);
            && (Build(g).Ok? ==> Build(g).value.iface.privateKey == key)
            && (Build(f).Ok? ==> f.privateKey != "")
            && (Build(f).Ok? ==> Build(g) == if key == "" then Err(NoPrivateKey)
                                   else Ok(Build(f).value.(iface := Build(f).value.iface.(privateKey := key))))
  {
  }

  /** When the injected body parses, its private key is the injected one exactly when
      the key has no '#' and the parser meets no other [Interface] PrivateKey
      line after the written one (or meets the same key there). */
  lemma {:induction false} InjectedKeyParses(net: Net, body: string, key: string)
    requires '\n' !in key && Trimmed(key) && Inject(body, key).Some?
    requires Parse(net, Inject(body, key).value).Ok?
    ensures var later := LastValue(InInterface, InInterface, PrivateKey, Tail(Split(body, '\n')));
            var cfg := Parse(net, Inject(body, key).value).value;
            cfg.iface.privateKey == key <==> if later.Some? then later.value == key else '#' !in key
  {
    var lines, f0 := Split(body, '\n'), FRESH;
    var p, tail := Position(lines), Tail(lines);
    RekeyedLines(body, key);
    RekeyedShape(lines, key);
    PositionSeen(net, f0, lines);
    WrittenLineSeen(key);
    ParseAround(net, f0, lines[..p], KeyLine(key), tail, Seen(key));
    SeenIsSelf(key);
    var r := HandleLines(net, f0, Rekeyed(lines, key).value);
    ParseIs(net, Inject(body, key).value, f0, r);
    BuildWithKey(r.value, r.value.privateKey);
    assert r.value.(privateKey := r.value.privateKey) == r.value;
  }

  /** A body that parses still parses after injection, to the same configuration but
      for the private key; it fails only for a key that is blank to the parser
      or makes the line too long to scan. */
  lemma {:induction false} InjectionKeepsConfig(net: Net, body: string, key: string)
    requires '\n' !in key && Inject(body, key).Some? && Parse(net, body).Ok?
    ensures var cfg := Parse(net, body).value;
            var later := LastValue(InInterface, InInterface, PrivateKey, Tail(Split(body, '\n')));
            var last := if later.Some? then later.value else Seen(key);
            Parse(net, Inject(body, key).value) ==
            if TooLong(KeyLine(key)) then Err(LineTooLong)
            else if last == "" then Err(NoPrivateKey)
            else Ok(cfg.(iface := cfg.iface.(privateKey := last)))
  {
    var lines, f0 := Split(body, '\n'), FRESH;
    RekeyedLines(body, key);
    var g := HandleLines(net, f0, lines);
    ParseIs(net, body, f0, g);
    var h := HandleLines(net, f0, Rekeyed(lines, key).value);
    ParseIs(net, Inject(body, key).value, f0, h);
    if FirstTarget(lines, 0).Some? { ShortLine(net, f0, lines, Position(lines)); }
    if TooLong(KeyLine(key)) {
      LongKeyRefused(net, f0, lines, key);
    } else {
      InjectionPreservesFields(net, f0, lines, key);
      BuildWithKey(g.value, h.value.privateKey);
    }
  }

  lemma {:induction false} LongKeyRefused(net: Net, f0: Fields, lines: seq<string>, key: string)
    requires LastHeader(lines, |lines|).Some? && HandleLines(net, f0, lines).Ok? && TooLong(KeyLine(key))
    ensures HandleLines(net, f0, Rekeyed(lines, key).value) == Err(LineTooLong)
  {
    var p, tail := Position(lines), Tail(lines);
    RekeyedShape(lines, key);
    PositionSeen(net, f0, lines);
    WrittenLineSeen(key);
    ParseAround(net, f0, lines[..p], KeyLine(key), tail, Seen(key));
    HandleLinesAppend(net, f0, lines[..p], lines[p..]);
    assert lines == lines[..p] + lines[p..];
  }

  // Bodies on which the injector and the parser agree

  /** A setting of the parser is one, under the same key, to the injector. */
  lemma {:induction false} ParsedSetting(raw: string)
    requires ReadLine(raw).Setting?
    ensures !IsHeader(raw) && Find(raw, '=') < |raw|
    ensures ReadLine(raw).name == NameOf(Lower(Trim(raw[..Find(raw, '=')])))
  {
    var a, line, rest := Uncommented(raw);
    assert line != "" && line[0] != '[' && Find(line, '=') < |line|;
    assert ReadLine(raw).name == NameOf(Lower(Trim(line[..Find(line, '=')])));
    KeyInLine(raw, a, line, rest);
    StartsWith(raw, a, line, rest);
  }

  lemma {:induction false} KeyInLine(raw: string, a: string, line: string, rest: string)
    requires raw == a + line + rest && AllSpace(a) && Find(line, '=') < |line|
    ensures Find(raw, '=') < |raw| && Trim(raw[..Find(raw, '=')]) == Trim(line[..Find(line, '=')])
  {
    var eq := Find(line, '=');
    assert line == line[..eq] + ['='] + line[eq + 1..];
    assert raw == a + line[..eq] + ['='] + (line[eq + 1..] + rest);
    TextBefore(raw, a, line[..eq], line[eq + 1..] + rest);
  }

  /** A PrivateKey line of the parser is one of the injector. */
  lemma {:induction false} ParsedKeyLine(raw: string)
    requires ReadLine(raw).Setting? && ReadLine(raw).name.PrivateKey?
    ensures IsKeyLine(raw) && !IsHeader(raw)
  {
    ParsedSetting(raw);
  }

  lemma {:induction false} TextBefore(raw: string, a: string, key: string, rest: string)
    requires raw == a + key + ['='] + rest && AllSpace(a) && '=' !in key
    ensures Find(raw, '=') == |a + key| && Trim(raw[..|a + key|]) == Trim(key)
  {
    assert '=' !in a by { assert !IsSpace('='); }
    FindIs(a + key, '=', rest);
    TrimPadded(a, key, "");
    assert raw[..|a + key|] == a + key + "";
  }

  /** Every header is spelled exactly and carries no comment. */
  predicate Plain(lines: seq<string>) {
    forall i | 0 <= i < |lines| && IsHeader(lines[i]) :: Trim(lines[i]) == "[Interface]" || Trim(lines[i]) == "[Peer]"
  }

  lemma {:induction false} PlainHeader(raw: string)
    requires Trim(raw) == "[Interface]" || Trim(raw) == "[Peer]"
    ensures ReadLine(raw) == Header(Trim(raw))
    ensures IsInterfaceHeader(raw) <==> Trim(raw) == "[Interface]"
  {
    var a, b := TrimSplits(raw);
    assert '#' !in raw by { assert !IsSpace('#'); }
    assert StripComment(raw) == raw;
  }

  lemma {:induction false} PlainSection(lines: seq<string>, i: nat, section: Section)
    requires i < |lines| && Plain(lines) && (section.InInterface? <==> Inside(lines[..i]))
    ensures SectionAfter(section, ReadLine(lines[i])).InInterface? <==> Inside(lines[..i + 1])
  {
    var raw := lines[i];
    assert lines[..i + 1][..i] == lines[..i];
    if IsHeader(raw) {
      PlainHeader(raw);
    } else if ReadLine(raw).Header? {
      HeaderSeen(raw);
    }
  }

  /** Lines without a target set no key, from any section the two readers agree on. */
  lemma {:induction false} PlainTail(lines: seq<string>, i: nat, section: Section)
    requires i <= |lines| && Plain(lines) && (section.InInterface? <==> Inside(lines[..i]))
    requires forall j | i <= j < |lines| :: !IsTarget(lines, j)
    ensures LastValue(section, InInterface, PrivateKey, lines[i..]).None?
    decreases |lines| - i
  {
    if i < |lines| {
      var line := ReadLine(lines[i]);
      assert lines[i..][1..] == lines[i + 1..];
      PlainSection(lines, i, section);
      PlainTail(lines, i + 1, SectionAfter(section, line));
      PlainLine(lines, i, section);
    }
  }

  lemma {:induction false} PlainLine(lines: seq<string>, i: nat, section: Section)
    requires i < |lines| && !IsTarget(lines, i) && (section.InInterface? ==> Inside(lines[..i]))
    ensures Value(section, InInterface, PrivateKey, ReadLine(lines[i])).None?
  {
    var line := ReadLine(lines[i]);
    if line.Setting? && line.name.PrivateKey? { ParsedKeyLine(lines[i]); }
  }

  predicate OneTarget(lines: seq<string>) {
    forall i, j | 0 <= i < j < |lines| :: !IsTarget(lines, i) || !IsTarget(lines, j)
  }

  lemma {:induction false} PlainTailSetsNoKey(lines: seq<string>)
    requires LastHeader(lines, |lines|).Some? && Plain(lines) && OneTarget(lines)
    ensures LastValue(InInterface, InInterface, PrivateKey, Tail(lines)).None?
  {
    var p := Position(lines);
    InsidePosition(lines);
    FirstTargetFirst(lines, 0);
    if FirstTarget(lines, 0).Some? {
      assert lines[..p + 1][..p] == lines[..p];
      PlainTail(lines, p + 1, InInterface);
    } else {
      PlainTail(lines, p, InInterface);
    }
  }

  /** On a body whose headers are plain and which has at most one [Interface]
      PrivateKey line, a parse that succeeds after injection yields the key. */
  lemma {:induction false} PlainBodyParsesToKey(net: Net, body: string, key: string)
    requires '\n' !in key && Trimmed(key) && '#' !in key && Inject(body, key).Some?
    requires Plain(Split(body, '\n')) && OneTarget(Split(body, '\n'))
    ensures var r := Parse(net, Inject(body, key).value);
            r.Ok? ==> r.value.iface.privateKey == key
  {
    PlainTailSetsNoKey(Split(body, '\n'));
    if Parse(net, Inject(body, key).value).Ok? { InjectedKeyParses(net, body, key); }
  }

  // Headers in another case

  lemma {:induction false} FoldedLineRefused(net: Net, f: Fields, lines: seq<string>, i: nat)
    requires i < |lines| && OpensInterface(lines[i]) && Trim(lines[i]) != "[Interface]"
    ensures HandleLines(net, f, lines).Err?
    decreases |lines|
  {
    if i == 0 {
      InterfaceSeen(lines[0]);
      assert |Trim(lines[0])| == |"[Interface]"|;
    } else if !TooLong(lines[0]) && HandleLine(net, f, lines[0]).Ok? {
      FoldedLineRefused(net, HandleLine(net, f, lines[0]).value, lines[1..], i - 1);
    }
  }

  lemma {:induction false} HeaderKept(lines: seq<string>, key: string, i: nat) returns (j: nat)
    requires LastHeader(lines, |lines|).Some? && i < |lines| && IsHeader(lines[i])
    ensures var out := Rekeyed(lines, key).value; j < |out| && out[j] == lines[i]
  {
    RekeyedShape(lines, key);
    FirstTargetFirst(lines, 0);
    var p := Position(lines);
    j := if i < p || FirstTarget(lines, 0).Some? then i else i + 1;
  }

  /** The injector accepts an [Interface] header in any case; the parser only as spelled.
      So for such a body injection succeeds, and what it returns never parses. */
  lemma {:induction false} FoldedHeaderRefused(net: Net, body: string, key: string, i: nat)
    requires '\n' !in key && i < |Split(body, '\n')|
    requires OpensInterface(Split(body, '\n')[i]) && Trim(Split(body, '\n')[i]) != "[Interface]"
    ensures Inject(body, key).Some? && Parse(net, Inject(body, key).value).Err?
  {
    var lines, f0 := Split(body, '\n'), FRESH;
    LastHeaderIs(lines, |lines|);
    RekeyedLines(body, key);
    var j := HeaderKept(lines, key, i);
    var out := Rekeyed(lines, key).value;
    FoldedLineRefused(net, f0, out, j);
    ParseIs(net, Inject(body, key).value, f0, HandleLines(net, f0, out));
  }

  /** For one, a lower-case header. */
  lemma {:induction false} LowerCaseHeader()
    ensures OpensInterface("[interface]") && Trim("[interface]") != "[Interface]"
  {
    var s := "[interface]";
    TrimIs("", s, "");
    assert "" + s + "" == s;
    assert s[1] != "[Interface]"[1];
  }
}
