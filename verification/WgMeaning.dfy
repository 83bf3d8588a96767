/** What a wg-quick body means, told from its lines, sections and keys alone, and that
    the parser computes exactly that. */
module WgMeaning {
  import opened Logs
  import opened WgConf
  import opened WgText

  // Lines, sections, keys

  function SectionAfter(section: Section, line: Line): Section {
    match line
    case Header(text) => if text == "[Interface]" then InInterface else if text == "[Peer]" then InPeer else section
    case _ => section
  }

  predicate Sets(section: Section, at: Section, name: Name, line: Line) {
    section == at && line.Setting? && line.name == name
  }

  /** The value a line in `section` gives to a key of section `at`, if it does. */
  function Value(section: Section, at: Section, name: Name, line: Line): Option<string> {
    if Sets(section, at, name, line) then Some(line.value) else None
  }

  /** The value of the last line of section `at` that sets the key. */
  function LastValue(section: Section, at: Section, name: Name, lines: seq<string>): Option<string>
    decreases |lines|
  {
    if lines == [] then None
    else
      var line := ReadLine(lines[0]);
      var rest := LastValue(SectionAfter(section, line), at, name, lines[1..]);
      if rest.Some? then rest else Value(section, at, name, line)
  }

  function Parsed<T>(parse: string -> Option<T>, v: Option<string>): seq<T> {
    if v.Some? && ParseList(parse, v.value).Some? then ParseList(parse, v.value).value else []
  }

  /** The lists of all lines of section `at` that set the key, one after the other. */
  function AllValues<T>(
    parse: string -> Option<T>, section: Section, at: Section, name: Name, lines: seq<string>): seq<T>
    decreases |lines|
  {
    if lines == [] then []
    else
      var line := ReadLine(lines[0]);
      Parsed(parse, Value(section, at, name, line)) +
        AllValues(parse, SectionAfter(section, line), at, name, lines[1..])
  }

  function Headers(text: string, lines: seq<string>): nat {
    if lines == [] then 0 else (if ReadLine(lines[0]) == Header(text) then 1 else 0) + Headers(text, lines[1..])
  }

  /** Each known name is spelled in one way. */
  lemma {:induction false} NamesSpelled(lower: string)
    ensures NameOf(lower).PrivateKey? <==> lower == "privatekey"
    ensures NameOf(lower).Address? <==> lower == "address"
    ensures NameOf(lower).Dns? <==> lower == "dns"
    ensures NameOf(lower).Mtu? <==> lower == "mtu"
    ensures NameOf(lower).PublicKey? <==> lower == "publickey"
    ensures NameOf(lower).Endpoint? <==> lower == "endpoint"
    ensures NameOf(lower).AllowedIPs? <==> lower == "allowedips"
    ensures NameOf(lower).Keepalive? <==> lower == "persistentkeepalive"
    ensures NameOf(lower).PresharedKey? <==> lower == "presharedkey"
  {
  }

  /** The parts of a comma-separated list that are not blank, trimmed. */
  function Parts(parts: seq<string>): seq<string> {
    if parts == [] then [] else (if Trim(parts[0]) == "" then [] else [Trim(parts[0])]) + Parts(parts[1..])
  }

  predicate AllParse<T>(parse: string -> Option<T>, ps: seq<string>) { forall i | 0 <= i < |ps| :: parse(ps[i]).Some? }

  lemma {:induction false} AllParseCons<T>(parse: string -> Option<T>, p: string, rest: seq<string>)
    ensures AllParse(parse, [p] + rest) <==> parse(p).Some? && AllParse(parse, rest)
  {
    var ps := [p] + rest;
    assert ps[0] == p;
    assert forall i | 0 <= i < |rest| :: rest[i] == ps[i + 1];
    assert forall i | 0 < i < |ps| :: ps[i] == rest[i - 1];
  }

  /** A list parses exactly if all its parts that are not blank do, and then to what
      they parse to, in order. */
  lemma {:induction false} ListExactly<T>(parse: string -> Option<T>, parts: seq<string>)
    ensures var ps, r := Parts(parts), ParseParts(parse, parts);
            && (r.Some? <==> AllParse(parse, ps))
            && (r.Some? ==> |r.value| == |ps| && forall i | 0 <= i < |ps| :: parse(ps[i]) == Some(r.value[i]))
    decreases |parts|
  {
    if parts != [] {
      var rest := Parts(parts[1..]);
      ListExactly(parse, parts[1..]);
      AllParseCons(parse, Trim(parts[0]), rest);
      assert Parts(parts) == if Trim(parts[0]) == "" then rest else [Trim(parts[0])] + rest;
    }
  }

  // What is said about each key

  datatype Said = Said(
    privateKey: Option<string>,
    addresses: seq<Prefix>,
    dns: seq<Addr>,
    mtu: Option<string>,
    publicKey: Option<string>,
    endpoint: Option<string>,
    allowedIPs: seq<Prefix>,
    keepalive: Option<string>,
    presharedKey: Option<string>,
    interfaces: nat,
    peers: nat)

  function SaidBy(net: Net, section: Section, line: Line): Said {
    Said(
      Value(section, InInterface, PrivateKey, line),
      Parsed(net.prefix, Value(section, InInterface, Address, line)),
      Parsed(net.addr, Value(section, InInterface, Dns, line)),
      Value(section, InInterface, Mtu, line),
      Value(section, InPeer, PublicKey, line),
      Value(section, InPeer, Endpoint, line),
      Parsed(net.prefix, Value(section, InPeer, AllowedIPs, line)),
      Value(section, InPeer, Keepalive, line),
      Value(section, InPeer, PresharedKey, line),
      if line == Header("[Interface]") then 1 else 0,
      if line == Header("[Peer]") then 1 else 0)
  }

  function Or<T>(later: Option<T>, earlier: Option<T>): Option<T> { if later.Some? then later else earlier }

  function Then(a: Said, b: Said): Said {
    Said(Or(b.privateKey, a.privateKey), a.addresses + b.addresses, a.dns + b.dns, Or(b.mtu, a.mtu),
         Or(b.publicKey, a.publicKey), Or(b.endpoint, a.endpoint), a.allowedIPs + b.allowedIPs,
         Or(b.keepalive, a.keepalive), Or(b.presharedKey, a.presharedKey), a.interfaces + b.interfaces, a.peers +
           b.peers)
  }

  const SILENCE := Said(None, [], [], None, None, None, [], None, None, 0, 0)

  function SaidByAll(net: Net, section: Section, lines: seq<string>): Said
    decreases |lines|
  {
    if lines == [] then SILENCE
    else
      var line := ReadLine(lines[0]);
      Then(SaidBy(net, section, line), SaidByAll(net, SectionAfter(section, line), lines[1..]))
  }

  /** Key by key, that is the last value, or all values in order. */
  lemma {:induction false} SaidKeyByKey(net: Net, section: Section, lines: seq<string>)
    ensures SaidByAll(net, section, lines) ==
            Said(LastValue(section, InInterface, PrivateKey, lines),
                 AllValues(net.prefix, section, InInterface, Address, lines),
                 AllValues(net.addr, section, InInterface, Dns, lines),
                 LastValue(section, InInterface, Mtu, lines),
                 LastValue(section, InPeer, PublicKey, lines),
                 LastValue(section, InPeer, Endpoint, lines),
                 AllValues(net.prefix, section, InPeer, AllowedIPs, lines),
                 LastValue(section, InPeer, Keepalive, lines),
                 LastValue(section, InPeer, PresharedKey, lines),
                 Headers("[Interface]", lines), Headers("[Peer]", lines))
    decreases |lines|
  {
    if lines != [] { SaidKeyByKey(net, SectionAfter(section, ReadLine(lines[0])), lines[1..]); }
  }

  // What the parser makes of it

  function TextOr(v: Option<string>, otherwise: string): string { if v.Some? then v.value else otherwise }

  /** A value that is no number is refused before it counts. */
  function NumberOr(net: Net, v: Option<string>, otherwise: int): int {
    if v.None? then otherwise else if net.atoi(v.value).Some? then net.atoi(v.value).value else 0
  }

  function Updated(net: Net, f: Fields, said: Said, section: Section): Fields {
    Fields(section, f.peerCount + said.peers, TextOr(said.privateKey, f.privateKey),
           f.addresses + said.addresses, f.dns + said.dns, NumberOr(net, said.mtu, f.mtu),
           TextOr(said.publicKey, f.publicKey), TextOr(said.endpoint, f.endpoint), f.allowedIPs + said.allowedIPs,
           NumberOr(net, said.keepalive, f.keepalive), TextOr(said.presharedKey, f.presharedKey),
           f.seenInterface || said.interfaces > 0, f.seenPeer || said.peers > 0, f.keepaliveSet || said.keepalive.Some?)
  }

  lemma {:induction false} Unsaid(net: Net, f: Fields)
    ensures Updated(net, f, SILENCE, f.section) == f
  {
    assert f.addresses + [] == f.addresses;
    assert f.dns + [] == f.dns;
    assert f.allowedIPs + [] == f.allowedIPs;
  }

  lemma {:induction false} UpdatedThen(net: Net, f: Fields, a: Said, s: Section, b: Said, t: Section)
    ensures Updated(net, Updated(net, f, a, s), b, t) == Updated(net, f, Then(a, b), t)
  {
    assert (f.addresses + a.addresses) + b.addresses == f.addresses + (a.addresses + b.addresses);
    assert (f.dns + a.dns) + b.dns == f.dns + (a.dns + b.dns);
    assert (f.allowedIPs + a.allowedIPs) + b.allowedIPs == f.allowedIPs + (a.allowedIPs + b.allowedIPs);
  }

  lemma {:induction false} InterfaceKeySays(net: Net, f: Fields, name: Name, v: string)
    requires f.section.InInterface? && HandleInterfaceKey(net, f, name, v).Ok?
    ensures HandleInterfaceKey(net, f, name, v).value ==
              Updated(net, f, SaidBy(net, InInterface, Setting(name, v)), f.section)
  {
    Unsaid(net, f);
  }

  lemma {:induction false} PeerKeySays(net: Net, f: Fields, name: Name, v: string)
    requires f.section.InPeer? && HandlePeerKey(net, f, name, v).Ok?
    ensures HandlePeerKey(net, f, name, v).value == Updated(net, f, SaidBy(net, InPeer, Setting(name, v)), f.section)
  {
    Unsaid(net, f);
  }

  lemma {:induction false} LineSays(net: Net, f: Fields, line: Line)
    requires HandleRead(net, f, line).Ok?
    ensures HandleRead(net, f, line).value ==
              Updated(net, f, SaidBy(net, f.section, line), SectionAfter(f.section, line))
  {
    Unsaid(net, f);
    match line
    case Setting(name, v) =>
      if f.section.InInterface? { InterfaceKeySays(net, f, name, v); }
      if f.section.InPeer? { PeerKeySays(net, f, name, v); }
    case _ =>
  }

  // What is refused

  /** As what a line is refused: told from the section, the peers so far and the line. */
  function Fault(net: Net, section: Section, peers: nat, line: Line): Option<Error> {
    match line
    case Header(text) =>
      if text == "[Interface]" then None
      else if text != "[Peer]" then Some(UnknownSection)
      else if peers > 0 then Some(MultiPeer) else None
    case Setting(_, v) =>
      if Sets(section, InInterface, Address, line) && ParseList(net.prefix, v).None? then Some(BadAddress)
      else if Sets(section, InInterface, Dns, line) && ParseList(net.addr, v).None? then Some(BadDns)
      else if Sets(section, InInterface, Mtu, line) && net.atoi(v).None? then Some(BadMtu)
      else if Sets(section, InPeer, AllowedIPs, line) && ParseList(net.prefix, v).None? then Some(BadAllowedIPs)
      else if Sets(section, InPeer, Keepalive, line) && net.atoi(v).None? then Some(BadKeepalive)
      else None
    case _ => None
  }

  /** The first refused line decides; a line too long to scan is refused unread. */
  function FirstFault(net: Net, section: Section, peers: nat, lines: seq<string>): Option<Error>
    decreases |lines|
  {
    if lines == [] then None
    else if TooLong(lines[0]) then Some(LineTooLong)
    else
      var line := ReadLine(lines[0]);
      var fault := Fault(net, section, peers, line);
      if fault.Some? then fault
      else FirstFault(net, SectionAfter(section, line), peers + SaidBy(net, section, line).peers, lines[1..])
  }

  lemma {:induction false} FaultExactly(net: Net, f: Fields, line: Line)
    ensures var g := HandleRead(net, f, line);
            Fault(net, f.section, f.peerCount, line) == if g.Err? then Some(g.error) else None
  {
  }

  function SectionAtEnd(section: Section, lines: seq<string>): Section
    decreases |lines|
  {
    if lines == [] then section else SectionAtEnd(SectionAfter(section, ReadLine(lines[0])), lines[1..])
  }

  lemma {:induction false} NextState(net: Net, f: Fields, line: Line)
    requires HandleRead(net, f, line).Ok?
    ensures var g := HandleRead(net, f, line).value;
            g.section == SectionAfter(f.section, line)
              && g.peerCount == f.peerCount + SaidBy(net, f.section, line).peers
  {
  }

  lemma {:induction false} HandledNext(net: Net, f: Fields, lines: seq<string>, line: Line)
    requires lines != [] && !TooLong(lines[0]) && line == ReadLine(lines[0])
    ensures HandleLines(net, f, lines) ==
            var g := HandleRead(net, f, line);
            if g.Err? then g else HandleLines(net, g.value, lines[1..])
  {
  }

  /** Over every sequence of lines, from every state of the parser, the first refused
      line decides the error, and without one there is none. */
  lemma {:induction false} FaultsDecide(net: Net, f: Fields, lines: seq<string>)
    ensures var r, fault := HandleLines(net, f, lines), FirstFault(net, f.section, f.peerCount, lines);
            if r.Err? then fault == Some(r.error) else fault.None?
    decreases |lines|
  {
    if lines != [] && !TooLong(lines[0]) {
      var line := ReadLine(lines[0]);
      HandledNext(net, f, lines, line);
      FaultExactly(net, f, line);
      var g := HandleRead(net, f, line);
      if g.Ok? {
        NextState(net, f, line);
        FaultsDecide(net, g.value, lines[1..]);
      }
    }
  }

  lemma {:induction false} SaidNext(
    net: Net, f: Fields, line: Line, rest: Said, end: Section)
    requires HandleRead(net, f, line).Ok?
    ensures Updated(net, HandleRead(net, f, line).value, rest, end) ==
            Updated(net, f, Then(SaidBy(net, f.section, line), rest), end)
  {
    LineSays(net, f, line);
    UpdatedThen(net, f, SaidBy(net, f.section, line), SectionAfter(f.section, line), rest, end);
  }

  /** Without an error, the fields are updated by what the lines say. */
  lemma {:induction false} LinesSay(net: Net, f: Fields, lines: seq<string>)
    requires HandleLines(net, f, lines).Ok?
    ensures HandleLines(net, f, lines).value ==
            Updated(net, f, SaidByAll(net, f.section, lines), SectionAtEnd(f.section, lines))
    decreases |lines|
  {
    if lines == [] {
      Unsaid(net, f);
    } else {
      var line, rest := ReadLine(lines[0]), lines[1..];
      HandledNext(net, f, lines, line);
      var g := HandleRead(net, f, line).value;
      NextState(net, f, line);
      LinesSay(net, g, rest);
      SaidNext(net, f, line, SaidByAll(net, g.section, rest), SectionAtEnd(g.section, rest));
    }
  }

  // The body

  /** The configuration for what is said, with its defaults, or what is missing. */
  function Configured(net: Net, said: Said): Result<ParsedConfig> {
    if said.interfaces == 0 then Err(NoInterface)
    else if said.peers == 0 then Err(NoPeer)
    else if said.privateKey in {None, Some("")} then Err(NoPrivateKey)
    else if said.addresses == [] then Err(NoAddress)
    else if said.publicKey in {None, Some("")} then Err(NoPublicKey)
    else if said.endpoint in {None, Some("")} then Err(NoEndpoint)
    else
      var dns := if said.dns == [] then [Addr("10.64.0.1")] else said.dns;
      var mtu := if NumberOr(net, said.mtu, 0) == 0 then 1420 else NumberOr(net, said.mtu, 0);
      var allowed := if said.allowedIPs == [] then [Prefix("0.0.0.0/0"), Prefix("::/0")] else said.allowedIPs;
      Ok(ParsedConfig(
           Interface(said.privateKey.value, said.addresses, dns, mtu),
           Peer(said.publicKey.value, said.endpoint.value, allowed, NumberOr(net, said.keepalive, 25),
                TextOr(said.presharedKey, ""))))
  }

  /** The configuration a body stands for, by the values of its keys. */
  function Meaning(net: Net, body: string): Result<ParsedConfig> {
    var lines, s := Split(body, '\n'), NoSection;
    var fault := FirstFault(net, s, 0, lines);
    if fault.Some? then Err(fault.value)
    else
      Configured(net, Said(
        LastValue(s, InInterface, PrivateKey, lines),
        AllValues(net.prefix, s, InInterface, Address, lines),
        AllValues(net.addr, s, InInterface, Dns, lines),
        LastValue(s, InInterface, Mtu, lines),
        LastValue(s, InPeer, PublicKey, lines),
        LastValue(s, InPeer, Endpoint, lines),
        AllValues(net.prefix, s, InPeer, AllowedIPs, lines),
        LastValue(s, InPeer, Keepalive, lines),
        LastValue(s, InPeer, PresharedKey, lines),
        Headers("[Interface]", lines),
        Headers("[Peer]", lines)))
  }

  lemma {:induction false} FreshConfigured(net: Net, said: Said, section: Section)
    ensures Build(Updated(net, FRESH, said, section)) == Configured(net, said)
  {
    var f := Updated(net, FRESH, said, section);
    assert f.addresses == said.addresses && f.dns == said.dns && f.allowedIPs == said.allowedIPs;
  }

  /** For every body, parsing yields exactly what the body means: each scalar key the
      value of the last line of its section that sets it, each list key the lists of
      all such lines in order, the defaults for what is not set, and otherwise the
      first refused line or the first missing key. */
  lemma {:induction false} ParseMeans(net: Net, body: string)
    ensures Parse(net, body) == Meaning(net, body)
  {
    var lines, f := Split(body, '\n'), FRESH;
    FaultsDecide(net, f, lines);
    if HandleLines(net, f, lines).Ok? { LinesSay(net, f, lines); }
    SaidKeyByKey(net, NoSection, lines);
    FreshConfigured(net, SaidByAll(net, NoSection, lines), SectionAtEnd(NoSection, lines));
  }
}
