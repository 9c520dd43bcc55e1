/**
 * Default-gateway discovery on Windows: the PowerShell query, and the choice
 * among its output lines of the first IPv4 address, or else the last IPv6 one.
 */
module Gateway {
  import opened Wrappers
  import opened Net
  import opened Command

  const NO_GATEWAY: IoError := IoError("No default gateway found")

  /** The adapter query whose output lists every enabled adapter's default gateways. */
  const DISCOVER: Invocation := Invocation("powershell", [
    "-Command",
    "Get-WmiObject -Class Win32_NetworkAdapterConfiguration -Filter IPEnabled=TRUE | ForEach-Object { $_.DefaultIPGateway }"
  ])

  predicate IsV4(p: Option<IpAddr>) {
    p.Some? && p.value.V4?
  }

  predicate IsV6(p: Option<IpAddr>) {
    p.Some? && p.value.V6?
  }

  /** The address of the first line that parses as IPv4, read from the front. */
  function FirstV4(parse: string -> Option<IpAddr>, lines: seq<string>): Option<IpAddr>
  {
    if lines == [] then None
    else if IsV4(parse(lines[0])) then parse(lines[0])
    else FirstV4(parse, lines[1..])
  }

  /** The address of the last line that parses as IPv6, read from the back. */
  function LastV6(parse: string -> Option<IpAddr>, lines: seq<string>): Option<IpAddr>
  {
    if lines == [] then None
    else if IsV6(parse(lines[|lines| - 1])) then parse(lines[|lines| - 1])
    else LastV6(parse, lines[..|lines| - 1])
  }

  /** The gateway the discovery picks from the lines of the query's output. */
  function SelectGateway(parse: string -> Option<IpAddr>, lines: seq<string>): Result<IpAddr, IoError>
  {
    FirstV4(parse, lines).Or(LastV6(parse, lines)).OkOr(NO_GATEWAY)
  }

  lemma {:induction false} FirstV4At(parse: string -> Option<IpAddr>, lines: seq<string>, i: nat)
    requires i < |lines| && IsV4(parse(lines[i]))
    requires forall j :: 0 <= j < i ==> !IsV4(parse(lines[j]))
    ensures FirstV4(parse, lines) == parse(lines[i])
    decreases i
  {
    if i > 0 {
      assert !IsV4(parse(lines[0]));
      forall j | 0 <= j < i - 1
        ensures !IsV4(parse(lines[1..][j]))
      {
        assert lines[1..][j] == lines[j + 1];
      }
      FirstV4At(parse, lines[1..], i - 1);
    }
  }

  lemma {:induction false} FirstV4Absent(parse: string -> Option<IpAddr>, lines: seq<string>)
    ensures FirstV4(parse, lines) == None <==> forall j :: 0 <= j < |lines| ==> !IsV4(parse(lines[j]))
    ensures FirstV4(parse, lines) == None || IsV4(FirstV4(parse, lines))
    ensures FirstV4(parse, lines).Some? ==> exists i :: 0 <= i < |lines| && parse(lines[i]) == FirstV4(parse, lines)
    decreases |lines|
  {
    if lines != [] {
      FirstV4Absent(parse, lines[1..]);
      assert forall j :: 0 < j < |lines| ==> lines[j] == lines[1..][j - 1];
    }
  }

  lemma {:induction false} LastV6At(parse: string -> Option<IpAddr>, lines: seq<string>, i: nat)
    requires i < |lines| && IsV6(parse(lines[i]))
    requires forall j :: i < j < |lines| ==> !IsV6(parse(lines[j]))
    ensures LastV6(parse, lines) == parse(lines[i])
    decreases |lines| - i
  {
    var n := |lines| - 1;
    if i < n {
      assert !IsV6(parse(lines[n]));
      var front := lines[..n];
      forall j | i < j < |front|
        ensures !IsV6(parse(front[j]))
      {
        assert front[j] == lines[j];
      }
      assert front[i] == lines[i];
      LastV6At(parse, front, i);
    }
  }

  lemma {:induction false} LastV6Absent(parse: string -> Option<IpAddr>, lines: seq<string>)
    ensures LastV6(parse, lines) == None <==> forall j :: 0 <= j < |lines| ==> !IsV6(parse(lines[j]))
    ensures LastV6(parse, lines) == None || IsV6(LastV6(parse, lines))
    ensures LastV6(parse, lines).Some? ==> exists i :: 0 <= i < |lines| && parse(lines[i]) == LastV6(parse, lines)
    decreases |lines|
  {
    if lines != [] {
      var front := lines[..|lines| - 1];
      LastV6Absent(parse, front);
      assert forall j :: 0 <= j < |front| ==> lines[j] == front[j];
    }
  }

  /** A line that parses as IPv4 wins, and it is the first such line; later lines do not matter. */
  lemma {:induction false} SelectPrefersFirstV4(parse: string -> Option<IpAddr>, lines: seq<string>, i: nat)
    requires i < |lines| && IsV4(parse(lines[i]))
    requires forall j :: 0 <= j < i ==> !IsV4(parse(lines[j]))
    ensures SelectGateway(parse, lines) == Ok(parse(lines[i]).value)
  {
    FirstV4At(parse, lines, i);
  }

  /** With no IPv4 line, the last line that parses as IPv6 is chosen. */
  lemma {:induction false} SelectFallsBackToLastV6(parse: string -> Option<IpAddr>, lines: seq<string>, i: nat)
    requires forall j :: 0 <= j < |lines| ==> !IsV4(parse(lines[j]))
    requires i < |lines| && IsV6(parse(lines[i]))
    requires forall j :: i < j < |lines| ==> !IsV6(parse(lines[j]))
    ensures SelectGateway(parse, lines) == Ok(parse(lines[i]).value)
  {
    FirstV4Absent(parse, lines);
    LastV6At(parse, lines, i);
  }

  /** Discovery fails, with "No default gateway found", exactly when no line parses. */
  lemma {:induction false} SelectFailsIffNothingParses(parse: string -> Option<IpAddr>, lines: seq<string>)
    ensures SelectGateway(parse, lines).Err? <==> forall j :: 0 <= j < |lines| ==> parse(lines[j]).None?
    ensures SelectGateway(parse, lines).Err? ==> SelectGateway(parse, lines).error == NO_GATEWAY
  {
    FirstV4Absent(parse, lines);
    LastV6Absent(parse, lines);
    if forall j :: 0 <= j < |lines| ==> !IsV4(parse(lines[j])) && !IsV6(parse(lines[j])) {
      forall j | 0 <= j < |lines|
        ensures parse(lines[j]).None?
      {
        assert !IsV4(parse(lines[j])) && !IsV6(parse(lines[j]));
      }
    }
  }

  /** A chosen gateway is the parse of one of the lines. */
  lemma {:induction false} SelectedComesFromALine(parse: string -> Option<IpAddr>, lines: seq<string>)
    requires SelectGateway(parse, lines).Ok?
    ensures exists i :: 0 <= i < |lines| && parse(lines[i]) == Some(SelectGateway(parse, lines).value)
  {
    FirstV4Absent(parse, lines);
    LastV6Absent(parse, lines);
  }

  /**
   * The scan of `get_default_gateway`: remember the latest IPv6 address,
   * stop at the first IPv4 one, then prefer IPv4.
   */
  method ScanGateways(parse: string -> Option<IpAddr>, lines: seq<string>) returns (r: Result<IpAddr, IoError>)
    ensures r == SelectGateway(parse, lines)
  {
    var ipv4Gateway: Option<IpAddr> := None;
    var ipv6Gateway: Option<IpAddr> := None;
    var i := 0;
    while i < |lines|
      invariant 0 <= i <= |lines|
      invariant ipv4Gateway == None
      invariant FirstV4(parse, lines) == FirstV4(parse, lines[i..])
      invariant ipv6Gateway == LastV6(parse, lines[..i])
    {
      var ip := parse(lines[i]);
      assert lines[..i + 1][..i] == lines[..i];
      assert lines[i..][1..] == lines[i + 1..];
      if ip.Some? {
        match ip.value
        case V4(_, _, _, _) =>
          ipv4Gateway := ip;
          break;
        case V6(_) =>
          ipv6Gateway := ip;
      }
      i := i + 1;
    }
    assert lines[..|lines|] == lines;
    r := ipv4Gateway.Or(ipv6Gateway).OkOr(NO_GATEWAY);
  }

  /** What discovery yields when history `h` ends with the query: its error, or the selection. */
  function DiscoveryResult(host: Host, lib: Lib, h: seq<Invocation>): Result<IpAddr, IoError>
    requires |h| > 0
  {
    match LastResult(host, lib, h)
    case Err(e) => Err(e)
    case Ok(stdout) => SelectGateway(lib.parseIp, lib.lines(lib.decodeLossy(stdout)))
  }

  /** `get_default_gateway` after history `h`: one query, then the selection. */
  function Discover(host: Host, lib: Lib, h: seq<Invocation>): Step<IpAddr>
  {
    Step(h + [DISCOVER], DiscoveryResult(host, lib, h + [DISCOVER]))
  }
}
