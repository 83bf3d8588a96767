/** The wg-quick parser: what one line says, what a sequence of lines makes of the
    parser's fields, and the class that reads line by line. */
module WgConf {
  import opened Logs
  import opened WgText

  /** Parsed network values, by their canonical text. */
  datatype Prefix = Prefix(text: string)
  datatype Addr = Addr(text: string)

  /** netip.ParsePrefix, netip.ParseAddr and strconv.Atoi, as partial functions. */
  datatype Net = Net(prefix: string -> Option<Prefix>, addr: string -> Option<Addr>, atoi: string -> Option<int>)

  datatype Error =
    | UnknownSection | MultiPeer | BadAddress | BadDns | BadMtu | BadAllowedIPs | BadKeepalive | LineTooLong
    | NoInterface | NoPeer | NoPrivateKey | NoAddress | NoPublicKey | NoEndpoint

  datatype Result<+T> = Ok(value: T) | Err(error: Error)

  datatype Interface = Interface(privateKey: string, addresses: seq<Prefix>, dns: seq<Addr>, mtu: int)

  datatype Peer = Peer(publicKey: string, endpoint: string, allowedIPs: seq<Prefix>, keepalive: int,
    presharedKey: string)

  datatype ParsedConfig = ParsedConfig(iface: Interface, peer: Peer)

  const DEFAULT_MTU := 1420
  const DEFAULT_KEEPALIVE := 25
  const DEFAULT_DNS := Addr("10.64.0.1")
  const DEFAULT_ALLOWED := [Prefix("0.0.0.0/0"), Prefix("::/0")]
  const KEEPALIVE_UNSET := -1

  /** bufio.MaxScanTokenSize: a line this long in bytes ends the scan with an error. */
  const MAX_LINE := 65536

  // One line

  /** The keys the parser knows; comparison is by lower case. */
  datatype Name =
    | PrivateKey | Address | Dns | Mtu
    | PublicKey | Endpoint | AllowedIPs | Keepalive | PresharedKey
    | Other

  /** Keys of wg-quick that are understood and skipped in any section. */
  const SKIPPED_KEYS := {"preup", "postup", "predown", "postdown", "table", "fwmark", "saveconfig", "listenport"}

  function NameOf(lower: string): Name {
    match lower
    case "privatekey" => PrivateKey
    case "address" => Address
    case "dns" => Dns
    case "mtu" => Mtu
    case "publickey" => PublicKey
    case "endpoint" => Endpoint
    case "allowedips" => AllowedIPs
    case "persistentkeepalive" => Keepalive
    case "presharedkey" => PresharedKey
    case _ => Other
  }

  datatype Line = Blank | Header(text: string) | Setting(name: Name, value: string) | Malformed

  function ReadLine(raw: string): Line {
    var line := Trim(StripComment(raw));
    if line == "" then Blank
    else if line[0] == '[' then Header(line)
    else
      var eq := Find(line, '=');
      if eq == |line| then Malformed
      else Setting(NameOf(Lower(Trim(line[..eq]))), Trim(line[eq + 1..]))
  }

  /** How the parser sees a value: without comment and surrounding space. */
  function Seen(v: string): string { Trim(StripComment(v)) }

  // Comma-separated lists

  function ParseParts<T>(parse: string -> Option<T>, parts: seq<string>): Option<seq<T>> {
    if parts == [] then Some([])
    else
      var part := Trim(parts[0]);
      if part == "" then ParseParts(parse, parts[1..])
      else
        var first := parse(part);
        if first.None? then None
        else
          var rest := ParseParts(parse, parts[1..]);
          if rest.None? then None else Some([first.value] + rest.value)
  }

  function ParseList<T>(parse: string -> Option<T>, val: string): Option<seq<T>> {
    ParseParts(parse, Split(val, ','))
  }

  // The parser's fields

  datatype Section = NoSection | InInterface | InPeer

  datatype Fields = Fields(
    section: Section,
    peerCount: nat,
    privateKey: string,
    addresses: seq<Prefix>,
    dns: seq<Addr>,
    mtu: int,
    publicKey: string,
    endpoint: string,
    allowedIPs: seq<Prefix>,
    keepalive: int,
    presharedKey: string,
    seenInterface: bool,
    seenPeer: bool,
    keepaliveSet: bool)

  const FRESH := Fields(NoSection, 0, "", [], [], 0, "", "", [], KEEPALIVE_UNSET, "", false, false, false)

  function HandleSection(f: Fields, line: string): Result<Fields> {
    if line == "[Interface]" then Ok(f.(section := InInterface, seenInterface := true))
    else if line == "[Peer]" then
      if f.peerCount + 1 > 1 then Err(MultiPeer)
      else Ok(f.(peerCount := f.peerCount + 1, section := InPeer, seenPeer := true))
    else Err(UnknownSection)
  }

  function HandleInterfaceKey(net: Net, f: Fields, name: Name, val: string): Result<Fields> {
    match name
    case PrivateKey => Ok(f.(privateKey := val))
    case Address =>
      var ps := ParseList(net.prefix, val);
      if ps.None? then Err(BadAddress) else Ok(f.(addresses := f.addresses + ps.value))
    case Dns =>
      var ds := ParseList(net.addr, val);
      if ds.None? then Err(BadDns) else Ok(f.(dns := f.dns + ds.value))
    case Mtu =>
      var v := net.atoi(val);
      if v.None? then Err(BadMtu) else Ok(f.(mtu := v.value))
    case _ => Ok(f)
  }

  function HandlePeerKey(net: Net, f: Fields, name: Name, val: string): Result<Fields> {
    match name
    case PublicKey => Ok(f.(publicKey := val))
    case Endpoint => Ok(f.(endpoint := val))
    case AllowedIPs =>
      var ps := ParseList(net.prefix, val);
      if ps.None? then Err(BadAllowedIPs) else Ok(f.(allowedIPs := f.allowedIPs + ps.value))
    case Keepalive =>
      var v := net.atoi(val);
      if v.None? then Err(BadKeepalive) else Ok(f.(keepalive := v.value, keepaliveSet := true))
    case PresharedKey => Ok(f.(presharedKey := val))
    case _ => Ok(f)
  }

  function HandleKey(net: Net, f: Fields, name: Name, val: string): Result<Fields> {
    match f.section
    case InInterface => HandleInterfaceKey(net, f, name, val)
    case InPeer => HandlePeerKey(net, f, name, val)
    case NoSection => Ok(f)
  }

  function HandleRead(net: Net, f: Fields, line: Line): Result<Fields> {
    match line
    case Blank => Ok(f)
    case Malformed => Ok(f)
    case Header(text) => HandleSection(f, text)
    case Setting(name, val) => HandleKey(net, f, name, val)
  }

  function HandleLine(net: Net, f: Fields, raw: string): Result<Fields> {
    HandleRead(net, f, ReadLine(raw))
  }

  /** A line of ASCII is too long from 65536 characters on. */
  lemma {:induction false} AsciiTooLong(raw: string)
    requires forall i | 0 <= i < |raw| :: raw[i] as int < 0x80
    ensures TooLong(raw) <==> |raw| >= 65536
  {
    AsciiBytes(raw);
  }

  lemma {:induction false} AsciiBytes(s: string)
    requires forall i | 0 <= i < |s| :: s[i] as int < 0x80
    ensures ByteLen(s) == |s|
  {
    if s != "" { AsciiBytes(s[1..]); }
  }

  predicate TooLong(raw: string) { ByteLen(raw) >= MAX_LINE }

  function HandleLines(net: Net, f: Fields, lines: seq<string>): Result<Fields>
    decreases |lines|
  {
    if lines == [] then Ok(f)
    else if TooLong(lines[0]) then Err(LineTooLong)
    else
      var g := HandleLine(net, f, lines[0]);
      if g.Err? then g else HandleLines(net, g.value, lines[1..])
  }

  function Build(f: Fields): Result<ParsedConfig> {
    if !f.seenInterface then Err(NoInterface)
    else if !f.seenPeer then Err(NoPeer)
    else if f.privateKey == "" then Err(NoPrivateKey)
    else if f.addresses == [] then Err(NoAddress)
    else if f.publicKey == "" then Err(NoPublicKey)
    else if f.endpoint == "" then Err(NoEndpoint)
    else Ok(ParsedConfig(
              Interface(f.privateKey, f.addresses, if f.dns == [] then [DEFAULT_DNS] else f.dns,
                        if f.mtu == 0 then DEFAULT_MTU else f.mtu),
              Peer(f.publicKey, f.endpoint, if f.allowedIPs == [] then DEFAULT_ALLOWED else f.allowedIPs,
                   if f.keepaliveSet then f.keepalive else DEFAULT_KEEPALIVE, f.presharedKey)))
  }

  function Parse(net: Net, body: string): Result<ParsedConfig> {
    var f := HandleLines(net, FRESH, Split(body, '\n'));
    if f.Err? then Err(f.error) else Build(f.value)
  }

  // The scanner

  /** bufio.ScanLines: one trailing carriage return is dropped from each line, and
      no empty last line is delivered. */
  function DropCR(line: string): string {
    if line != "" && line[|line| - 1] == '\r' then line[..|line| - 1] else line
  }

  function ScannedLines(body: string): seq<string> {
    var lines := Split(body, '\n');
    if lines[|lines| - 1] == "" then lines[..|lines| - 1] else lines
  }

  lemma {:induction false} SeenWithoutCR(cut: string)
    ensures Seen(cut + "\r") == Seen(cut)
  {
    var raw := cut + "\r";
    if '#' in cut {
      FindPrefix(cut, "\r", '#');
      assert StripComment(raw) == StripComment(cut);
    } else {
      assert StripComment(raw) == raw && StripComment(cut) == cut;
      TrimPadded("", cut, "\r");
      assert "" + cut + "\r" == raw;
    }
  }

  lemma {:induction false} ReadsWithoutCR(raw: string)
    ensures ReadLine(DropCR(raw)) == ReadLine(raw)
  {
    if raw != "" && raw[|raw| - 1] == '\r' {
      SeenWithoutCR(DropCR(raw));
      assert raw == DropCR(raw) + "\r";
    }
  }

  lemma {:induction false} FindPrefix(a: string, b: string, c: char)
    requires c in a
    ensures Find(a + b, c) == Find(a, c)
  {
    var i := Find(a, c);
    assert a + b == a[..i] + [c] + (a[i + 1..] + b);
    FindIs(a[..i], c, a[i + 1..] + b);
  }

  /** A trailing empty line says nothing. */
  lemma {:induction false} HandleLinesSnocEmpty(net: Net, f: Fields, lines: seq<string>)
    ensures HandleLines(net, f, lines + [""]) == HandleLines(net, f, lines)
    decreases |lines|
  {
    if lines != [] {
      assert (lines + [""])[1..] == lines[1..] + [""];
      var g := HandleLine(net, f, lines[0]);
      if g.Ok? { HandleLinesSnocEmpty(net, g.value, lines[1..]); }
    } else {
      assert ReadLine("") == Blank;
      assert (lines + [""])[1..] == [];
    }
  }

  /** Skipping a key first is the same as not knowing it in any section. */
  lemma {:induction false} SkippedHaveNoName(lower: string)
    ensures lower in SKIPPED_KEYS ==> NameOf(lower).Other?
  {
  }

  // The parser object

  class Parser {
    const net: Net

    var currentSection: Section
    var peerCount: nat
    var privateKey: string
    var addresses: seq<Prefix>
    var dns: seq<Addr>
    var mtu: int
    var publicKey: string
    var endpoint: string
    var allowedIPs: seq<Prefix>
    var keepalive: int
    var presharedKey: string
    var seenInterface: bool
    var seenPeer: bool
    var keepaliveSet: bool

    ghost function View(): Fields
      reads this
    {
      Fields(currentSection, peerCount, privateKey, addresses, dns, mtu, publicKey, endpoint, allowedIPs, keepalive,
             presharedKey, seenInterface, seenPeer, keepaliveSet)
    }

    constructor (net: Net)
      ensures this.net == net && View() == FRESH
    {
      this.net := net;
      currentSection, peerCount, privateKey, addresses, dns, mtu := NoSection, 0, "", [], [], 0;
      publicKey, endpoint, allowedIPs, keepalive, presharedKey := "", "", [], KEEPALIVE_UNSET, "";
      seenInterface, seenPeer, keepaliveSet := false, false, false;
    }

    method OnSection(line: string) returns (err: Option<Error>)
      modifies this
      ensures err.None? ==> HandleSection(old(View()), line) == Ok(View())
      ensures err.Some? ==> HandleSection(old(View()), line) == Err(err.value)
    {
      err := None;
      if line == "[Interface]" {
        currentSection, seenInterface := InInterface, true;
      } else if line == "[Peer]" {
        peerCount := peerCount + 1;
        if peerCount > 1 { return Some(MultiPeer); }
        currentSection, seenPeer := InPeer, true;
      } else {
        return Some(UnknownSection);
      }
    }

    method OnInterfaceKey(name: Name, val: string) returns (err: Option<Error>)
      modifies this
      ensures err.None? ==> HandleInterfaceKey(net, old(View()), name, val) == Ok(View())
      ensures err.Some? ==> HandleInterfaceKey(net, old(View()), name, val) == Err(err.value)
    {
      err := None;
      match name
      case PrivateKey => privateKey := val;
      case Address =>
        var ps := ParseList(net.prefix, val);
        if ps.None? { return Some(BadAddress); }
        addresses := addresses + ps.value;
      case Dns =>
        var ds := ParseList(net.addr, val);
        if ds.None? { return Some(BadDns); }
        dns := dns + ds.value;
      case Mtu =>
        var v := net.atoi(val);
        if v.None? { return Some(BadMtu); }
        mtu := v.value;
      case _ =>
    }

    method OnPeerKey(name: Name, val: string) returns (err: Option<Error>)
      modifies this
      ensures err.None? ==> HandlePeerKey(net, old(View()), name, val) == Ok(View())
      ensures err.Some? ==> HandlePeerKey(net, old(View()), name, val) == Err(err.value)
    {
      err := None;
      match name
      case PublicKey => publicKey := val;
      case Endpoint => endpoint := val;
      case AllowedIPs =>
        var ps := ParseList(net.prefix, val);
        if ps.None? { return Some(BadAllowedIPs); }
        allowedIPs := allowedIPs + ps.value;
      case Keepalive =>
        var v := net.atoi(val);
        if v.None? { return Some(BadKeepalive); }
        keepalive, keepaliveSet := v.value, true;
      case PresharedKey => presharedKey := val;
      case _ =>
    }

    method OnLine(raw: string) returns (err: Option<Error>)
      modifies this
      ensures err.None? ==> HandleLine(net, old(View()), raw) == Ok(View())
      ensures err.Some? ==> HandleLine(net, old(View()), raw) == Err(err.value)
    {
      err := None;
      var line := Trim(StripComment(raw));
      if line == "" { return; }
      if line[0] == '[' {
        err := OnSection(line);
        return;
      }
      var eq := Find(line, '=');
      if eq == |line| { return; }
      err := OnKey(Trim(line[..eq]), Trim(line[eq + 1..]));
    }

    method OnKey(rawKey: string, rawVal: string) returns (err: Option<Error>)
      modifies this
      ensures err.None? ==> HandleKey(net, old(View()), NameOf(Lower(rawKey)), rawVal) == Ok(View())
      ensures err.Some? ==> HandleKey(net, old(View()), NameOf(Lower(rawKey)), rawVal) == Err(err.value)
    {
      err := None;
      var lower := Lower(rawKey);
      SkippedHaveNoName(lower);
      if lower in SKIPPED_KEYS { return; }
      match currentSection
      case InInterface => err := OnInterfaceKey(NameOf(lower), rawVal);
      case InPeer => err := OnPeerKey(NameOf(lower), rawVal);
      case NoSection =>
    }

    /** The scan loop and the final build agree with Parse, for every body. */
    method Run(body: string) returns (r: Result<ParsedConfig>)
      requires View() == FRESH
      modifies this
      ensures r == Parse(net, body)
    {
      var lines := ScannedLines(body);
      ghost var all := Split(body, '\n');
      if all[|all| - 1] == "" {
        HandleLinesSnocEmpty(net, FRESH, lines);
        assert lines + [""] == all;
      }
      var i := 0;
      while i < |lines|
        invariant 0 <= i <= |lines|
        invariant HandleLines(net, FRESH, lines) == HandleLines(net, View(), lines[i..])
      {
        if TooLong(lines[i]) { return Err(LineTooLong); }
        ReadsWithoutCR(lines[i]);
        var err := OnLine(DropCR(lines[i]));
        assert lines[i..][1..] == lines[i + 1..];
        if err.Some? { return Err(err.value); }
        i := i + 1;
      }
      r := Finish();
    }

    method Finish() returns (r: Result<ParsedConfig>)
      ensures r == Build(View())
    {
      if !seenInterface { return Err(NoInterface); }
      if !seenPeer { return Err(NoPeer); }
      if privateKey == "" { return Err(NoPrivateKey); }
      if |addresses| == 0 { return Err(NoAddress); }
      if publicKey == "" { return Err(NoPublicKey); }
      if endpoint == "" { return Err(NoEndpoint); }
      var dns := if |dns| == 0 then [DEFAULT_DNS] else dns;
      var mtu := if mtu == 0 then DEFAULT_MTU else mtu;
      var allowedIPs := if |allowedIPs| == 0 then DEFAULT_ALLOWED else allowedIPs;
      var keepalive := if keepaliveSet then keepalive else DEFAULT_KEEPALIVE;
      return Ok(ParsedConfig(Interface(privateKey, addresses, dns, mtu),
                             Peer(publicKey, endpoint, allowedIPs, keepalive, presharedKey)));
    }
  }
}
