/** The wg-quick body the generator prints, and what the parser makes of it. */
module ConfPrinter {
  import opened Logs
  import opened WgConf
  import opened WgReading
  import opened WgText

  datatype Answers = Answers(
    privateKey: string,
    address: string,
    publicKey: string,
    endpoint: string,
    dns: string,
    allowedIPs: string)

  predicate OneLiners(x: Answers) {
    && '\n' !in x.privateKey && '\n' !in x.address && '\n' !in x.dns
    && '\n' !in x.publicKey && '\n' !in x.allowedIPs && '\n' !in x.endpoint
  }

  // The printed lines

  /** A section header or blank line, or a setting with the name its key spells. */
  datatype Item = Heading(text: string) | Field(key: string, name: Name, value: string)

  function Text(item: Item): string {
    match item
    case Heading(text) => text
    case Field(key, _, value) => SettingText(key, value)
  }

  function Texts(items: seq<Item>): seq<string> { seq(|items|, i requires 0 <= i < |items| => Text(items[i])) }

  function InterfaceItems(x: Answers): seq<Item> {
    [Heading("[Interface]"), Field("PrivateKey", PrivateKey, x.privateKey), Field("Address", Address, x.address),
     Field("DNS", Dns, x.dns), Heading("")]
  }

  function PeerItems(x: Answers): seq<Item> {
    [Heading("[Peer]"), Field("PublicKey", PublicKey, x.publicKey), Field("AllowedIPs", AllowedIPs, x.allowedIPs),
     Field("Endpoint", Endpoint, x.endpoint), Heading("")]
  }

  function Lines(x: Answers): seq<string> { Texts(InterfaceItems(x)) + Texts(PeerItems(x)) }

  /** Nine lines, each ended by a newline: the tenth is empty. */
  function BuildConfBody(x: Answers): string { Join(Lines(x), '\n') }

  function Line(text: string, rest: string): string { text + ['\n'] + rest }

  function Ended(l: seq<string>, i: nat): string
    requires i <= |l|
    decreases |l| - i
  {
    if i == |l| then "" else Line(l[i], Ended(l, i + 1))
  }

  /** The printed text: these nine lines, each ended by a newline. */
  lemma {:induction false} PrintedText(x: Answers)
    ensures BuildConfBody(x) ==
            Ended(["[Interface]", "PrivateKey = " + x.privateKey, "Address = " + x.address, "DNS = " + x.dns, "",
                   "[Peer]", "PublicKey = " + x.publicKey, "AllowedIPs = " + x.allowedIPs, "Endpoint = " +
                     x.endpoint], 0)
  {
    var lines := ["[Interface]", "PrivateKey = " + x.privateKey, "Address = " + x.address, "DNS = " + x.dns, "",
                  "[Peer]", "PublicKey = " + x.publicKey, "AllowedIPs = " + x.allowedIPs, "Endpoint = " + x.endpoint];
    LinesAre(x, lines);
    JoinEnded(lines, 0);
    assert (lines + [""])[0..] == lines + [""];
  }

  lemma {:induction false} LinesAre(x: Answers, lines: seq<string>)
    requires lines == ["[Interface]", "PrivateKey = " + x.privateKey, "Address = " + x.address, "DNS = " + x.dns, "",
                       "[Peer]", "PublicKey = " + x.publicKey, "AllowedIPs = " + x.allowedIPs, "Endpoint = " +
                         x.endpoint]
    ensures Lines(x) == lines + [""]
  {
    assert "PrivateKey" + " = " == "PrivateKey = " && "Address" + " = " == "Address = " && "DNS" + " = " == "DNS = ";
    assert "PublicKey" + " = " == "PublicKey = " && "AllowedIPs" + " = " == "AllowedIPs = ";
    assert "Endpoint" + " = " == "Endpoint = ";
  }

  lemma {:induction false} JoinEnded(l: seq<string>, i: nat)
    requires i <= |l|
    ensures Join((l + [""])[i..], '\n') == Ended(l, i)
    decreases |l| - i
  {
    if i < |l| {
      JoinEnded(l, i + 1);
      JoinFrom(l + [""], i);
    }
  }

  lemma {:induction false} JoinFrom(l: seq<string>, i: nat)
    requires i + 1 < |l|
    ensures Join(l[i..], '\n') == Line(l[i], Join(l[i + 1..], '\n'))
  {
    JoinCons(l[i], l[i + 1..], '\n');
    assert l[i..] == [l[i]] + l[i + 1..];
  }

  // How the parser reads them

  predicate Spells(key: string, name: Name) {
    Trimmed(key) && key != ""
      && key[0] != '[' && '=' !in key && '#' !in key && '\n' !in key && NameOf(Lower(key)) == name
  }

  predicate WellFormed(item: Item) {
    match item
    case Heading(text) => Trimmed(text) && '#' !in text && '\n' !in text && (text != "" ==> text[0] == '[')
    case Field(key, name, value) => Spells(key, name) && '\n' !in value
  }

  function Reading(item: Item): Line {
    match item
    case Heading(text) => if text == "" then Blank else Header(text)
    case Field(_, name, value) => Setting(name, Seen(value))
  }

  lemma {:induction false} ItemRead(item: Item)
    requires WellFormed(item)
    ensures ReadLine(Text(item)) == Reading(item) && '\n' !in Text(item)
  {
    match item
    case Heading(text) =>
      assert StripComment(text) == text;
      TrimIs("", text, "");
      assert "" + text + "" == text;
    case Field(key, _, value) => SettingLine(key, value);
  }

  lemma {:induction false} PrivateKeySpelled()
    ensures Spells("PrivateKey", PrivateKey)
  {
    assert Lower("PrivateKey") == "privatekey";
  }

  lemma {:induction false} AddressSpelled()
    ensures Spells("Address", Address)
  {
    assert Lower("Address") == "address";
  }

  lemma {:induction false} DnsSpelled()
    ensures Spells("DNS", Dns)
  {
    assert Lower("DNS") == "dns";
  }

  lemma {:induction false} PublicKeySpelled()
    ensures Spells("PublicKey", PublicKey)
  {
    assert Lower("PublicKey") == "publickey";
  }

  lemma {:induction false} AllowedIPsSpelled()
    ensures Spells("AllowedIPs", AllowedIPs)
  {
    assert Lower("AllowedIPs") == "allowedips";
  }

  lemma {:induction false} EndpointSpelled()
    ensures Spells("Endpoint", Endpoint)
  {
    assert Lower("Endpoint") == "endpoint";
  }

  predicate AllWellFormed(items: seq<Item>) { forall i | 0 <= i < |items| :: WellFormed(items[i]) }

  lemma {:induction false} ItemsWellFormed(x: Answers)
    requires OneLiners(x)
    ensures AllWellFormed(InterfaceItems(x)) && AllWellFormed(PeerItems(x))
  {
    PrivateKeySpelled();
    AddressSpelled();
    DnsSpelled();
    PublicKeySpelled();
    AllowedIPsSpelled();
    EndpointSpelled();
  }

  lemma {:induction false} PrintedLines(x: Answers)
    requires OneLiners(x)
    ensures Split(BuildConfBody(x), '\n') == Lines(x)
  {
    ItemsWellFormed(x);
    var a, b := InterfaceItems(x), PeerItems(x);
    NoNewlines(a);
    NoNewlines(b);
    SplitJoin(Texts(a) + Texts(b), '\n');
  }

  lemma {:induction false} NoNewlines(items: seq<Item>)
    requires AllWellFormed(items)
    ensures Without(Texts(items), '\n')
  {
    forall i | 0 <= i < |items|
      ensures '\n' !in Texts(items)[i]
    {
      ItemRead(items[i]);
    }
  }

  // What they make of the parser's fields

  predicate Short(lines: seq<string>) { forall i | 0 <= i < |lines| :: !TooLong(lines[i]) }

  function HandleItems(net: Net, f: Fields, items: seq<Item>): Result<Fields>
    decreases |items|
  {
    if items == [] then Ok(f)
    else
      var g := HandleRead(net, f, Reading(items[0]));
      if g.Err? then g else HandleItems(net, g.value, items[1..])
  }

  lemma {:induction false} FirstText(items: seq<Item>)
    requires items != []
    ensures Texts(items) == [Text(items[0])] + Texts(items[1..]) && Texts(items)[1..] == Texts(items[1..])
  {
  }

  lemma {:induction false} ShortParts(a: seq<string>, b: seq<string>)
    requires Short(a + b)
    ensures Short(a) && Short(b)
  {
    assert forall i | 0 <= i < |a| :: a[i] == (a + b)[i];
    assert forall i | 0 <= i < |b| :: b[i] == (a + b)[|a| + i];
  }

  lemma {:induction false} ItemsHandled(net: Net, f: Fields, items: seq<Item>)
    requires AllWellFormed(items) && Short(Texts(items))
    ensures HandleLines(net, f, Texts(items)) == HandleItems(net, f, items)
    decreases |items|
  {
    if items != [] {
      ItemRead(items[0]);
      FirstText(items);
      ShortParts([Text(items[0])], Texts(items[1..]));
      var g := HandleRead(net, f, Reading(items[0]));
      if g.Ok? { ItemsHandled(net, g.value, items[1..]); }
    }
  }

  lemma {:induction false} Step(net: Net, f: Fields, items: seq<Item>, i: nat)
    requires i < |items|
    ensures HandleItems(net, f, items[i..]) ==
            var g := HandleRead(net, f, Reading(items[i]));
            if g.Err? then g else HandleItems(net, g.value, items[i + 1..])
  {
    assert items[i..][1..] == items[i + 1..];
  }

  function AfterInterface(net: Net, f: Fields, privateKey: string, address: string, dns: string): Result<Fields> {
    var addresses := ParseList(net.prefix, address);
    var servers := ParseList(net.addr, dns);
    if addresses.None? then Err(BadAddress)
    else if servers.None? then Err(BadDns)
    else Ok(f.(section := InInterface, seenInterface := true, privateKey := privateKey,
               addresses := f.addresses + addresses.value, dns := f.dns + servers.value))
  }

  function AfterPeer(net: Net, f: Fields, publicKey: string, allowedIPs: string, endpoint: string): Result<Fields> {
    var allowed := ParseList(net.prefix, allowedIPs);
    if f.peerCount > 0 then Err(MultiPeer)
    else if allowed.None? then Err(BadAllowedIPs)
    else Ok(f.(section := InPeer, seenPeer := true, peerCount := 1, publicKey := publicKey,
               allowedIPs := f.allowedIPs + allowed.value, endpoint := endpoint))
  }

  lemma {:induction false} InterfaceHandled(net: Net, f: Fields, b: seq<Item>, k: string, a: string, d: string)
    requires |b| == 5 && Reading(b[0]) == Header("[Interface]") && Reading(b[1]) == Setting(PrivateKey, k)
    requires Reading(b[2]) == Setting(Address, a) && Reading(b[3]) == Setting(Dns, d) && Reading(b[4]) == Blank
    ensures HandleItems(net, f, b) == AfterInterface(net, f, k, a, d)
  {
    assert b[0..] == b;
    Step(net, f, b, 0);
    var f1 := f.(section := InInterface, seenInterface := true);
    Step(net, f1, b, 1);
    var f2 := f1.(privateKey := k);
    Step(net, f2, b, 2);
    var g3 := HandleInterfaceKey(net, f2, Address, a);
    if g3.Ok? {
      Step(net, g3.value, b, 3);
      var g4 := HandleInterfaceKey(net, g3.value, Dns, d);
      if g4.Ok? { Step(net, g4.value, b, 4); }
    }
  }

  lemma {:induction false} PeerHandled(net: Net, f: Fields, b: seq<Item>, k: string, a: string, e: string)
    requires |b| == 5 && Reading(b[0]) == Header("[Peer]") && Reading(b[1]) == Setting(PublicKey, k)
    requires Reading(b[2]) == Setting(AllowedIPs, a) && Reading(b[3]) == Setting(Endpoint, e) && Reading(b[4]) == Blank
    ensures HandleItems(net, f, b) == AfterPeer(net, f, k, a, e)
  {
    assert b[0..] == b;
    Step(net, f, b, 0);
    if f.peerCount == 0 {
      var f1 := f.(section := InPeer, seenPeer := true, peerCount := 1);
      Step(net, f1, b, 1);
      PeerRest(net, f1.(publicKey := k), b, a, e);
    }
  }

  lemma {:induction false} PeerRest(net: Net, f: Fields, b: seq<Item>, a: string, e: string)
    requires |b| == 5 && f.section.InPeer?
    requires Reading(b[2]) == Setting(AllowedIPs, a) && Reading(b[3]) == Setting(Endpoint, e) && Reading(b[4]) == Blank
    ensures var ps := ParseList(net.prefix, a);
            HandleItems(net, f, b[2..]) ==
            if ps.None? then Err(BadAllowedIPs) else Ok(f.(allowedIPs := f.allowedIPs + ps.value, endpoint := e))
  {
    Step(net, f, b, 2);
    var g := HandlePeerKey(net, f, AllowedIPs, a);
    if g.Ok? {
      Step(net, g.value, b, 3);
      Step(net, g.value.(endpoint := e), b, 4);
    }
  }

  // The printed file as a configuration

  /** What the values the parser sees amount to, errors in the parser's order. */
  function Assembled(
    net: Net, k: string, a: string, d: string, pub: string, allowed: string, end: string): Result<ParsedConfig> {
    var addresses, servers, ips := ParseList(net.prefix, a), ParseList(net.addr, d), ParseList(net.prefix, allowed);
    if addresses.None? then Err(BadAddress)
    else if servers.None? then Err(BadDns)
    else if ips.None? then Err(BadAllowedIPs)
    else if k == "" then Err(NoPrivateKey)
    else if addresses.value == [] then Err(NoAddress)
    else if pub == "" then Err(NoPublicKey)
    else if end == "" then Err(NoEndpoint)
    else Ok(ParsedConfig(
              Interface(k, addresses.value, if servers.value == [] then [DEFAULT_DNS] else servers.value, 1420),
              Peer(pub, end, if ips.value == [] then DEFAULT_ALLOWED else ips.value, 25, "")))
  }

  lemma {:induction false} InterfaceLines(net: Net, f: Fields, b: seq<Item>, k: string, a: string, d: string)
    requires AllWellFormed(b) && Short(Texts(b))
    requires |b| == 5 && Reading(b[0]) == Header("[Interface]") && Reading(b[1]) == Setting(PrivateKey, k)
    requires Reading(b[2]) == Setting(Address, a) && Reading(b[3]) == Setting(Dns, d) && Reading(b[4]) == Blank
    ensures HandleLines(net, f, Texts(b)) == AfterInterface(net, f, k, a, d)
  {
    ItemsHandled(net, f, b);
    InterfaceHandled(net, f, b, k, a, d);
  }

  lemma {:induction false} InterfaceParsed(net: Net, f: Fields, x: Answers)
    requires OneLiners(x) && Short(Texts(InterfaceItems(x)))
    ensures HandleLines(net, f, Texts(InterfaceItems(x))) ==
            AfterInterface(net, f, Seen(x.privateKey), Seen(x.address), Seen(x.dns))
  {
    ItemsWellFormed(x);
    InterfaceLines(net, f, InterfaceItems(x), Seen(x.privateKey), Seen(x.address), Seen(x.dns));
  }

  lemma {:induction false} PeerParsed(net: Net, f: Fields, x: Answers)
    requires OneLiners(x) && Short(Texts(PeerItems(x)))
    ensures HandleLines(net, f, Texts(PeerItems(x))) ==
            AfterPeer(net, f, Seen(x.publicKey), Seen(x.allowedIPs), Seen(x.endpoint))
  {
    ItemsWellFormed(x);
    ItemsHandled(net, f, PeerItems(x));
    PeerHandled(net, f, PeerItems(x), Seen(x.publicKey), Seen(x.allowedIPs), Seen(x.endpoint));
  }

  lemma {:induction false} LinesHandled(net: Net, f: Fields, x: Answers)
    requires OneLiners(x) && Short(Lines(x))
    ensures HandleLines(net, f, Lines(x)) ==
            var g := AfterInterface(net, f, Seen(x.privateKey), Seen(x.address), Seen(x.dns));
            if g.Err? then g else AfterPeer(net, g.value, Seen(x.publicKey), Seen(x.allowedIPs), Seen(x.endpoint))
  {
    var a, b := Texts(InterfaceItems(x)), Texts(PeerItems(x));
    ShortParts(a, b);
    HandleLinesAppend(net, f, a, b);
    InterfaceParsed(net, f, x);
    var g := AfterInterface(net, f, Seen(x.privateKey), Seen(x.address), Seen(x.dns));
    if g.Ok? { PeerParsed(net, g.value, x); }
  }

  lemma {:induction false} BuiltBlocks(
    net: Net, k: string, a: string, d: string, pub: string, allowed: string, end: string)
    ensures var g := AfterInterface(net, FRESH, k, a, d);
            var f := if g.Err? then g else AfterPeer(net, g.value, pub, allowed, end);
            (if f.Err? then Err(f.error) else Build(f.value)) == Assembled(net, k, a, d, pub, allowed, end)
  {
    var addresses, servers, ips := ParseList(net.prefix, a), ParseList(net.addr, d), ParseList(net.prefix, allowed);
    assert addresses.Some? ==> [] + addresses.value == addresses.value;
    assert servers.Some? ==> [] + servers.value == servers.value;
    assert ips.Some? ==> [] + ips.value == ips.value;
  }

  /** For all answers without a newline, the printed file parses to what the parser
      sees in each answer; it is refused if a line is too long to scan. */
  lemma {:induction false} PrintedParses(net: Net, x: Answers)
    requires OneLiners(x)
    ensures Short(Lines(x)) ==>
              Parse(net, BuildConfBody(x)) ==
              Assembled(net, Seen(x.privateKey), Seen(x.address), Seen(x.dns), Seen(x.publicKey), Seen(x.allowedIPs),
                Seen(x.endpoint))
    ensures Parse(net, BuildConfBody(x)).Ok? ==> Short(Lines(x))
  {
    var f0, lines := FRESH, Lines(x);
    PrintedLines(x);
    var r := HandleLines(net, f0, lines);
    ParseIs(net, BuildConfBody(x), f0, r);
    if Short(lines) {
      LinesHandled(net, f0, x);
      BuiltBlocks(net, Seen(x.privateKey), Seen(x.address), Seen(x.dns), Seen(x.publicKey), Seen(x.allowedIPs),
        Seen(x.endpoint));
    } else if r.Ok? {
      forall i | 0 <= i < |lines|
        ensures !TooLong(lines[i])
      {
        ShortLine(net, f0, lines, i);
      }
    }
  }

  lemma {:induction false} SingleValue<T>(parse: string -> Option<T>, v: string)
    requires Trimmed(v) && v != "" && ',' !in v && parse(v).Some?
    ensures ParseList(parse, v) == Some([parse(v).value])
  {
    assert Split(v, ',') == [v];
    TrimIs("", v, "");
    assert "" + v + "" == v;
    var parts := [v];
    assert parts[1..] == [];
    var one := [parse(v).value];
    assert ParseParts(parse, parts[1..]) == Some([]);
    assert one + [] == one;
    assert ParseParts(parse, parts) == Some(one + []);
  }

  /** The answers the prompts accept: trimmed, parseable, and present. */
  predicate Accepted(net: Net, x: Answers) {
    && Trimmed(x.privateKey) && Trimmed(x.address) && Trimmed(x.dns)
    && Trimmed(x.publicKey) && Trimmed(x.allowedIPs) && Trimmed(x.endpoint)
    && x.privateKey != "" && x.address != "" && x.dns != "" && x.publicKey != "" && x.endpoint != ""
    && net.prefix(x.address).Some? && net.addr(x.dns).Some?
    && ParseList(net.prefix, x.allowedIPs).Some? && ParseList(net.prefix, x.allowedIPs).value != []
  }

  /** The configuration the answers stand for. */
  function Meant(net: Net, x: Answers): ParsedConfig
    requires Accepted(net, x)
  {
    ParsedConfig(Interface(x.privateKey, [net.prefix(x.address).value], [net.addr(x.dns).value], 1420),
                 Peer(x.publicKey, x.endpoint, ParseList(net.prefix, x.allowedIPs).value, 25, ""))
  }

  // What netip promises about the text it accepts

  /** An address's zone with its percent sign. */
  function Zone(s: string): string { s[Find(s, '%')..] }

  /** netip.ParsePrefix accepts no zone, and netip.ParseAddr keeps a zone as it is
      written; anything goes inside a zone, but not outside one. */
  ghost predicate Lawful(net: Net) {
    && (forall s | net.prefix(s).Some? :: ',' !in s && '#' !in s)
    && (forall s | net.addr(s).Some? :: ',' !in s[..Find(s, '%')] && '#' !in s[..Find(s, '%')])
    && (forall s | net.addr(s).Some? :: Zone(net.addr(s).value.text) == Zone(s))
  }

  lemma {:induction false} PartsClean(net: Net, parts: seq<string>)
    requires Lawful(net) && ParseParts(net.prefix, parts).Some?
    ensures forall i | 0 <= i < |parts| :: '#' !in parts[i]
    decreases |parts|
  {
    if parts != [] {
      var a, b := TrimSplits(parts[0]);
      assert '#' !in parts[0] by { assert !IsSpace('#'); }
      PartsClean(net, parts[1..]);
    }
  }

  lemma {:induction false} NotInJoin(parts: seq<string>, sep: char, c: char)
    requires parts != [] && c != sep && forall i | 0 <= i < |parts| :: c !in parts[i]
    ensures c !in Join(parts, sep)
    decreases |parts|
  {
    if |parts| > 1 { NotInJoin(parts[1..], sep, c); }
  }

  lemma {:induction false} ListClean(net: Net, val: string)
    requires Lawful(net) && ParseList(net.prefix, val).Some?
    ensures '#' !in val
  {
    PartsClean(net, Split(val, ','));
    NotInJoin(Split(val, ','), ',', '#');
    JoinSplit(val, ',');
  }

  /** Trimming a prefix that reaches past a mark at p leaves a prefix that does. */
  lemma {:induction false} TrimPrefix(s: string, p: nat, n: nat) returns (m: nat)
    requires Trimmed(s) && p < n <= |s| && !IsSpace(s[p])
    ensures p < m <= n && Trim(s[..n]) == s[..m]
  {
    var x := s[..n];
    assert x[0] == s[0];
    assert TrimLeft(x) == x;
    var b := TrimRightSplits(x);
    m := |TrimRight(x)|;
    assert x == x[..m] + b;
  }

  /** The first of the comma-separated parts the parser sees in a DNS answer with a '#'
      or a comma: it ends inside the zone. */
  lemma {:induction false} FirstServerCut(dns: string, p: nat) returns (m: nat)
    requires Trimmed(dns) && p == Find(dns, '%') && ',' !in dns[..p] && '#' !in dns[..p]
    requires '#' in dns || ',' in dns
    ensures p < m < |dns| && Trim(Split(Seen(dns), ',')[0]) == dns[..m]
  {
    assert p < |dns| by { assert dns[..|dns|] == dns; }
    assert !IsSpace('%');
    CutAfter(dns, p, '#');
    var k := TrimPrefix(dns, p, Find(dns, '#'));
    if '#' !in dns { SeenIsSelf(dns); }
    m := FirstPartCut(dns, p, k);
  }

  lemma {:induction false} FirstPartCut(dns: string, p: nat, k: nat) returns (m: nat)
    requires Trimmed(dns) && p < k <= |dns| && dns[p] == '%' && ',' !in dns[..p]
    requires k < |dns| || ',' in dns
    ensures p < m < |dns| && Trim(Split(dns[..k], ',')[0]) == dns[..m]
  {
    var v := dns[..k];
    assert v[..p] == dns[..p];
    CutAfter(v, p, ',');
    var f := Find(v, ',');
    FirstPart(v, ',');
    assert v[..f] == dns[..f];
    assert k == |dns| ==> v == dns;
    m := TrimPrefix(dns, p, f);
  }

  lemma {:induction false} FirstPart(v: string, c: char)
    ensures Split(v, c)[0] == v[..Find(v, c)]
  {
    if Find(v, c) == |v| { assert v[..|v|] == v; }
  }

  lemma {:induction false} CutAfter(s: string, p: nat, c: char)
    requires p < |s| && s[p] == '%' && c != '%' && c !in s[..p]
    ensures p < Find(s, c)
  {
    assert forall i | 0 <= i < p :: s[..p][i] == s[i];
  }

  lemma {:induction false} FirstParsed<T>(parse: string -> Option<T>, parts: seq<string>)
    requires parts != [] && Trim(parts[0]) != ""
    ensures var r := ParseParts(parse, parts);
            r.Some? ==> parse(Trim(parts[0])).Some? && r.value != [] && r.value[0] == parse(Trim(parts[0])).value
  {
  }

  lemma {:induction false} ShorterZone(s: string, p: nat, m: nat)
    requires p == Find(s, '%') && p < m < |s|
    ensures Zone(s[..m]) != Zone(s)
  {
    var q := s[..m];
    assert q == s[..p] + ['%'] + s[p + 1..m];
    FindIs(s[..p], '%', s[p + 1..m]);
    assert |Zone(q)| < |Zone(s)|;
  }

  /** Such an answer is not read back as the address it was accepted as. */
  lemma {:induction false} CutServerDiffers(net: Net, dns: string)
    requires Lawful(net) && Trimmed(dns) && net.addr(dns).Some? && ('#' in dns || ',' in dns)
    ensures var l := ParseList(net.addr, Seen(dns));
            l.Some? ==> l.value != [] && l.value[0] != net.addr(dns).value
  {
    var p := Find(dns, '%');
    var m := FirstServerCut(dns, p);
    ShorterZone(dns, p, m);
    FirstParsed(net.addr, Split(Seen(dns), ','));
  }

  /** Round trip: printing answers the prompts accept and parsing the file gives back
      exactly the answers, when and only when no key, endpoint or DNS answer
      holds a '#', the DNS answer holds no comma, and every line can be scanned. */
  lemma {:induction false} RoundTrip(net: Net, x: Answers)
    requires OneLiners(x) && Accepted(net, x) && Lawful(net)
    ensures Parse(net, BuildConfBody(x)) == Ok(Meant(net, x)) <==>
            && Short(Lines(x)) && '#' !in x.privateKey && '#' !in x.publicKey && '#' !in x.endpoint
            && '#' !in x.dns && ',' !in x.dns
  {
    PrintedParses(net, x);
    SeenIsSelf(x.privateKey);
    SeenIsSelf(x.publicKey);
    SeenIsSelf(x.endpoint);
    PrefixesReadBack(net, x);
    ReadsAsMeant(net, x, Seen(x.privateKey), Seen(x.address), Seen(x.dns), Seen(x.publicKey), Seen(x.endpoint));
    if '#' in x.dns || ',' in x.dns {
      CutServerDiffers(net, x.dns);
    } else {
      SeenIsSelf(x.dns);
      SingleValue(net.addr, x.dns);
    }
  }

  /** What has to be seen for the file to stand for the answers. */
  lemma {:induction false} ReadsAsMeant(net: Net, x: Answers, k: string, a: string, d: string, pub: string, end: string)
    requires Accepted(net, x) && ParseList(net.prefix, a) == Some([net.prefix(x.address).value])
    ensures var l := ParseList(net.addr, d);
            Assembled(net, k, a, d, pub, x.allowedIPs, end) == Ok(Meant(net, x)) <==>
            && k == x.privateKey && pub == x.publicKey && end == x.endpoint && l.Some?
            && (if l.value == [] then [DEFAULT_DNS] else l.value) == [net.addr(x.dns).value]
  {
  }

  lemma {:induction false} PrefixesReadBack(net: Net, x: Answers)
    requires Accepted(net, x) && Lawful(net)
    ensures ParseList(net.prefix, Seen(x.address)) == Some([net.prefix(x.address).value])
    ensures Seen(x.allowedIPs) == x.allowedIPs
  {
    ListClean(net, x.allowedIPs);
    SeenIsSelf(x.allowedIPs);
    SeenIsSelf(x.address);
    SingleValue(net.prefix, x.address);
  }

  /** A DNS answer with a comma is validated whole but read in parts: if the part after
      the comma is no address of its own, the printed file is refused although
      every prompt accepted its answer. The input is an IPv6 zone with a comma,
      such as fe80::1%a,b, which netip.ParseAddr accepts whole. */
  lemma {:induction false} CommaInDnsRefused(net: Net, x: Answers, head: string, tail: string)
    requires OneLiners(x) && Accepted(net, x) && Lawful(net) && Short(Lines(x)) && '#' !in x.dns
    requires x.dns == head + "," + tail && ',' !in head && ',' !in tail
    requires Trim(tail) != "" && net.addr(Trim(tail)).None?
    ensures Parse(net, BuildConfBody(x)) == Err(BadDns)
  {
    PrintedParses(net, x);
    SeenIsSelf(x.address);
    SeenIsSelf(x.dns);
    SingleValue(net.prefix, x.address);
    TwoParts(net.addr, head, tail);
  }

  lemma {:induction false} TwoParts<T>(parse: string -> Option<T>, head: string, tail: string)
    requires ',' !in head && ',' !in tail && Trim(tail) != "" && parse(Trim(tail)).None?
    ensures ParseList(parse, head + "," + tail).None?
  {
    SplitJoin([head, tail], ',');
    assert Join([head, tail], ',') == head + "," + tail;
    assert [head, tail][1..] == [tail];
    assert ParseParts(parse, [tail]).None?;
  }
}
