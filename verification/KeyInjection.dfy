/** Writing a private key into a wg-quick body and reading it back, and what the
    real parser makes of the result. */
module KeyInjection {
  import opened Logs
  import opened WgConf
  import opened WgText

  // How the injector classifies lines: it ignores comments and the case of headers

  predicate IsHeader(raw: string) { Trim(raw) != "" && Trim(raw)[0] == '[' }

  predicate IsInterfaceHeader(raw: string) { FoldsTo(Trim(raw), "[Interface]") }

  predicate IsKeyLine(raw: string) {
    var eq := Find(raw, '=');
    eq < |raw| && Lower(Trim(raw[..eq])) == "privatekey"
  }

  function ValueOf(raw: string): string
    requires IsKeyLine(raw)
  {
    Trim(raw[Find(raw, '=') + 1..])
  }

  /** Whether a line after these stands in an [Interface] section. */
  predicate Inside(before: seq<string>) {
    before != [] &&
    var last := before[|before| - 1];
    if IsHeader(last) then IsInterfaceHeader(last) else Inside(before[..|before| - 1])
  }

  /** Line i is a PrivateKey line of an [Interface] section. */
  predicate IsTarget(lines: seq<string>, i: nat) {
    i < |lines| && !IsHeader(lines[i]) && Inside(lines[..i]) && IsKeyLine(lines[i])
  }

  predicate OpensInterface(raw: string) { IsHeader(raw) && IsInterfaceHeader(raw) }

  /** The first target at or after i. */
  function FirstTarget(lines: seq<string>, i: nat): (r: Option<nat>)
    requires i <= |lines|
    ensures r.Some? ==> i <= r.value < |lines| && IsKeyLine(lines[r.value])
    decreases |lines| - i
  {
    if i == |lines| then None
    else if IsTarget(lines, i) then Some(i)
    else FirstTarget(lines, i + 1)
  }

  /** The last [Interface] header before line i. */
  function LastHeader(lines: seq<string>, i: nat): (r: Option<nat>)
    requires i <= |lines|
    ensures r.Some? ==> r.value < i
  {
    if i == 0 then None
    else if OpensInterface(lines[i - 1]) then Some(i - 1)
    else LastHeader(lines, i - 1)
  }

  function KeyLine(key: string): string { SettingText("PrivateKey", key) }

  /** The first target replaced, or a line inserted after the last header. */
  function Rekeyed(lines: seq<string>, key: string): Option<seq<string>> {
    var h := LastHeader(lines, |lines|);
    if h.None? then None
    else
      var t := FirstTarget(lines, 0);
      if t.Some? then Some(lines[t.value := KeyLine(key)])
      else Some(lines[..h.value + 1] + [KeyLine(key)] + lines[h.value + 1..])
  }

  function Inject(body: string, key: string): Option<string> {
    var lines := Rekeyed(Split(body, '\n'), key);
    if lines.None? then None else Some(Join(lines.value, '\n'))
  }

  function Extract(body: string): string {
    var lines := Split(body, '\n');
    var t := FirstTarget(lines, 0);
    if t.None? then "" else ValueOf(lines[t.value])
  }

  // The loops

  method ExtractInterfacePrivateKey(body: string) returns (key: string)
    ensures key == Extract(body)
  {
    var lines := Split(body, '\n');
    var inInterface := false;
    var i := 0;
    while i < |lines|
      invariant 0 <= i <= |lines|
      invariant inInterface == Inside(lines[..i])
      invariant FirstTarget(lines, 0) == FirstTarget(lines, i)
    {
      var raw := lines[i];
      assert lines[..i + 1][..i] == lines[..i];
      if IsHeader(raw) {
        inInterface := IsInterfaceHeader(raw);
      } else if inInterface && IsKeyLine(raw) {
        return ValueOf(raw);
      }
      i := i + 1;
    }
    return "";
  }

  method InjectPrivateKey(body: string, key: string) returns (r: Option<string>)
    ensures r == Inject(body, key)
  {
    var lines := Split(body, '\n');
    var out, header, injected := ReplaceFirst(lines, KeyLine(key));
    if header.None? { return None; }
    if !injected {
      out := out[..header.value + 1] + [KeyLine(key)] + out[header.value + 1..];
    }
    assert Rekeyed(lines, key) == Some(out);
    return Some(Join(out, '\n'));
  }

  /** What one more line adds to the scan. */
  lemma {:induction false} NextLine(lines: seq<string>, i: nat)
    requires i < |lines|
    ensures Inside(lines[..i + 1]) == if IsHeader(lines[i]) then IsInterfaceHeader(lines[i]) else Inside(lines[..i])
    ensures LastHeader(lines, i + 1) == if OpensInterface(lines[i]) then Some(i) else LastHeader(lines, i)
    ensures FirstTarget(lines, i) ==
            if !IsHeader(lines[i]) && Inside(lines[..i]) && IsKeyLine(lines[i]) then Some(i)
            else FirstTarget(lines, i + 1)
  {
    assert lines[..i + 1][..i] == lines[..i];
  }

  /** The scan over all lines, which rewrites the first target in place. */
  method ReplaceFirst(lines: seq<string>, line: string) returns (out: seq<string>, header: Option<nat>, injected: bool)
    ensures header == LastHeader(lines, |lines|) && injected == FirstTarget(lines, 0).Some?
    ensures out == if injected then lines[FirstTarget(lines, 0).value := line] else lines
  {
    ghost var t := FirstTarget(lines, 0);
    var inInterface := false;
    out, header, injected := lines, None, false;
    var i := 0;
    while i < |out|
      invariant 0 <= i <= |out| == |lines|
      invariant inInterface == Inside(lines[..i])
      invariant header == LastHeader(lines, i)
      invariant !injected ==> t == FirstTarget(lines, i) && out == lines
      invariant injected ==> t.Some? && t.value < i && out == lines[t.value := line]
    {
      var raw := out[i];
      assert raw == lines[i];
      NextLine(lines, i);
      var target;
      inInterface, header, target := ScanLine(raw, i, inInterface, header);
      if target && !injected {
        out := out[i := line];
        injected := true;
      }
      i := i + 1;
    }
  }

  /** One line: a header opens or closes the section, and may be the last seen so far;
      any other line may be a target. */
  method ScanLine(raw: string, i: nat, inside: bool, last: Option<nat>)
    returns (inInterface: bool, header: Option<nat>, target: bool)
    ensures inInterface == if IsHeader(raw) then IsInterfaceHeader(raw) else inside
    ensures header == if OpensInterface(raw) then Some(i) else last
    ensures target <==> !IsHeader(raw) && inside && IsKeyLine(raw)
  {
    inInterface, header, target := inside, last, false;
    if IsHeader(raw) {
      inInterface := IsInterfaceHeader(raw);
      if inInterface { header := Some(i); }
    } else if inInterface {
      target := IsKeyLine(raw);
    }
  }
}
