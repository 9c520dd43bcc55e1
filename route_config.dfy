/**
 * The Windows route transition: `config_settings` points the tunnel
 * adapter's DNS at a resolver, routes all traffic to the tunnel gateway,
 * records the original default gateway and routes each bypass address
 * through it; `config_restore` puts the original default route back.
 */
module RouteConfig {
  import opened Wrappers
  import opened Net
  import opened Command
  import opened Gateway

  /** `netsh interface ip set dns "<tun>" static <dns>`, the resolver defaulting to TUN_DNS. */
  function DnsCommand(lib: Lib, tunName: string, dns: Option<IpAddr>): Invocation
  {
    Invocation("netsh", ["interface", "ip", "set", "dns", "\"" + tunName + "\"", "static", lib.showIp(dns.GetOr(TUN_DNS))])
  }

  /** `route add 0.0.0.0 mask 0.0.0.0 10.0.0.1 metric 6`: every destination via the tunnel. */
  function TunRouteCommand(lib: Lib): Invocation
  {
    Invocation("route", ["add", lib.showIp(UNSPECIFIED), "mask", lib.showIp(UNSPECIFIED), lib.showIp(TUN_GATEWAY), "metric", "6"])
  }

  /** `route add <ip> <gateway> metric 1`: one bypass address via the original gateway. */
  function BypassCommand(lib: Lib, ip: IpAddr, gateway: IpAddr): Invocation
  {
    Invocation("route", ["add", lib.showIp(ip), lib.showIp(gateway), "metric", "1"])
  }

  /** One bypass route per address, in the order of the list. */
  function BypassCommands(lib: Lib, ips: seq<IpAddr>, gateway: IpAddr): (cs: seq<Invocation>)
    ensures |cs| == |ips|
  {
    if ips == [] then [] else [BypassCommand(lib, ips[0], gateway)] + BypassCommands(lib, ips[1..], gateway)
  }

  /** The `i`-th bypass route is the one for the `i`-th address: N addresses give N routes, in order. */
  lemma {:induction false} BypassCommandsInOrder(lib: Lib, ips: seq<IpAddr>, gateway: IpAddr, i: nat)
    requires i < |ips|
    ensures BypassCommands(lib, ips, gateway)[i] == BypassCommand(lib, ips[i], gateway)
    decreases i
  {
    if i > 0 {
      BypassCommandsInOrder(lib, ips[1..], gateway, i - 1);
    }
  }

  /** `route delete 0.0.0.0 mask 0.0.0.0`: drop the tunnel's default route. */
  function DeleteDefaultCommand(lib: Lib): Invocation
  {
    Invocation("route", ["delete", lib.showIp(UNSPECIFIED), "mask", lib.showIp(UNSPECIFIED)])
  }

  /** `route add 0.0.0.0 mask 0.0.0.0 <gateway> metric 200`: the original default route, low priority. */
  function RestoreDefaultCommand(lib: Lib, gateway: IpAddr): Invocation
  {
    Invocation("route", ["add", lib.showIp(UNSPECIFIED), "mask", lib.showIp(UNSPECIFIED), lib.showIp(gateway), "metric", "200"])
  }

  /** What the transition can observe and change: the commands run so far, and `DEFAULT_GATEWAY`. */
  datatype MachineState = MachineState(trace: seq<Invocation>, defaultGateway: Option<IpAddr>)

  /** `config_settings` from state `s`. */
  function Settings(host: Host, lib: Lib, s: MachineState, bypass: seq<IpAddr>, tunName: string, dns: Option<IpAddr>)
    : (MachineState, Result<(), IoError>)
  {
    var setup := Exec(host, lib, s.trace, [DnsCommand(lib, tunName, dns), TunRouteCommand(lib)]);
    if setup.result.Err? then (MachineState(setup.trace, s.defaultGateway), setup.result)
    else
      var found := Discover(host, lib, setup.trace);
      if found.result.Err? then (MachineState(found.trace, s.defaultGateway), Err(found.result.error))
      else
        var routes := Exec(host, lib, found.trace, BypassCommands(lib, bypass, found.result.value));
        (MachineState(routes.trace, Some(found.result.value)), routes.result)
  }

  /** `config_restore` from state `s`: always leaves the slot empty; with nothing stored it does nothing. */
  function Restore(host: Host, lib: Lib, s: MachineState): (out: (MachineState, Result<(), IoError>))
    ensures out.0.defaultGateway == None
    ensures s.defaultGateway == None ==> out == (s, Ok(()))
  {
    match s.defaultGateway
    case None => (s, Ok(()))
    case Some(gateway) =>
      var st := Exec(host, lib, s.trace, [DeleteDefaultCommand(lib), RestoreDefaultCommand(lib, gateway)]);
      (MachineState(st.trace, None), st.result)
  }

  /** The commands `config_settings` issues when every step succeeds and the gateway found is `gateway`. */
  function SettingsPlan(lib: Lib, bypass: seq<IpAddr>, tunName: string, dns: Option<IpAddr>, gateway: IpAddr): seq<Invocation>
  {
    [DnsCommand(lib, tunName, dns), TunRouteCommand(lib), DISCOVER] + BypassCommands(lib, bypass, gateway)
  }

  /** The gateway discovery reports when the query is the third new command after `h0`. */
  function DiscoveredAfter(host: Host, lib: Lib, h0: seq<Invocation>, t: seq<Invocation>): Result<IpAddr, IoError>
    requires |h0| + 3 <= |t|
  {
    DiscoveryResult(host, lib, t[..|h0| + 3])
  }

  /**
   * After a successful DNS setting and tunnel route from `h0`, the query is
   * the third new command and its answer is what `DiscoveredAfter` reads.
   */
  lemma {:induction false} DiscoveryAfterSetup(host: Host, lib: Lib, h0: seq<Invocation>, setup: Step<()>, tunName: string, dns: Option<IpAddr>)
    requires setup == Exec(host, lib, h0, [DnsCommand(lib, tunName, dns), TunRouteCommand(lib)])
    requires setup.result.Ok?
    ensures setup.trace == h0 + [DnsCommand(lib, tunName, dns), TunRouteCommand(lib)]
    ensures Succeeds(host, lib, h0 + [DnsCommand(lib, tunName, dns)])
    ensures Succeeds(host, lib, setup.trace)
    ensures var found := Discover(host, lib, setup.trace);
      found.trace == h0 + [DnsCommand(lib, tunName, dns), TunRouteCommand(lib), DISCOVER] &&
      found.result == DiscoveredAfter(host, lib, h0, found.trace)
  {
    var cs := [DnsCommand(lib, tunName, dns), TunRouteCommand(lib)];
    ExecIssuesPrefix(host, lib, h0, cs);
    ExecEarlierSucceeded(host, lib, h0, cs);
    assert setup.trace[..|h0| + 1] == h0 + [cs[0]];
    var found := Discover(host, lib, setup.trace);
    assert found.trace[..|h0| + 3] == found.trace;
  }

  /**
   * `t` extends `h0` by a prefix of what `config_settings` plans: the DNS
   * setting, the tunnel default route, the gateway query, and then the
   * bypass routes through the gateway the query reported (`found`).
   */
  ghost predicate FollowsPlan(lib: Lib, h0: seq<Invocation>, t: seq<Invocation>, found: Result<IpAddr, IoError>,
                              bypass: seq<IpAddr>, tunName: string, dns: Option<IpAddr>)
  {
    |h0| < |t| <= |h0| + 3 + |bypass| &&
    (|t| <= |h0| + 3 ==> t == h0 + [DnsCommand(lib, tunName, dns), TunRouteCommand(lib), DISCOVER][..|t| - |h0|]) &&
    (|t| > |h0| + 3 ==> found.Ok? && t == h0 + SettingsPlan(lib, bypass, tunName, dns, found.value)[..|t| - |h0|])
  }

  /**
   * `t` stops at the first failure after `h0`: every new command but the
   * last succeeded; an error is the last command's, or the query's "No
   * default gateway found"; and success means the whole plan ran.
   */
  ghost predicate StopsAtFirstFailure(host: Host, lib: Lib, h0: seq<Invocation>, t: seq<Invocation>, found: Result<IpAddr, IoError>,
                                      r: Result<(), IoError>, bypass: seq<IpAddr>, tunName: string, dns: Option<IpAddr>)
  {
    |t| > |h0| &&
    (forall k :: |h0| < k < |t| ==> Succeeds(host, lib, t[..k])) &&
    (r.Err? ==> (LastResult(host, lib, t) == Err(r.error)) ||
                (|t| == |h0| + 3 && Succeeds(host, lib, t) && r.error == NO_GATEWAY && found == Err(NO_GATEWAY))) &&
    (r.Ok? <==> |t| == |h0| + 3 + |bypass| && Succeeds(host, lib, t) && found.Ok?) &&
    (r.Ok? ==> found.Ok? && t == h0 + SettingsPlan(lib, bypass, tunName, dns, found.value))
  }

  /** The slot holds the gateway the query reported if it reported one, and `slot0` otherwise. */
  ghost predicate ArmsSlot(h0: seq<Invocation>, t: seq<Invocation>, found: Result<IpAddr, IoError>, slot0: Option<IpAddr>, slot: Option<IpAddr>)
  {
    slot == if |t| >= |h0| + 3 && found.Ok? then Some(found.value) else slot0
  }

  /** The bypass stage keeps the three commands before it, and adds a prefix of the bypass routes. */
  lemma {:induction false} BypassTrace(host: Host, lib: Lib, h0: seq<Invocation>, bypass: seq<IpAddr>, tunName: string, dns: Option<IpAddr>, gateway: IpAddr)
    ensures var t3 := h0 + [DnsCommand(lib, tunName, dns), TunRouteCommand(lib), DISCOVER];
      var t := Exec(host, lib, t3, BypassCommands(lib, bypass, gateway)).trace;
      |t3| <= |t| <= |t3| + |bypass| &&
      t[..|h0| + 3] == t3 &&
      t[..|h0| + 2] == h0 + [DnsCommand(lib, tunName, dns), TunRouteCommand(lib)] &&
      t[..|h0| + 1] == h0 + [DnsCommand(lib, tunName, dns)]
  {
    var pre := [DnsCommand(lib, tunName, dns), TunRouteCommand(lib), DISCOVER];
    ExecExtends(host, lib, h0, pre, BypassCommands(lib, bypass, gateway));
    var t := Exec(host, lib, h0 + pre, BypassCommands(lib, bypass, gateway)).trace;
    assert t[..|h0| + 2] == (h0 + pre)[..|h0| + 2];
    assert t[..|h0| + 1] == (h0 + pre)[..|h0| + 1];
  }

  lemma {:induction false} BypassFollowsPlan(host: Host, lib: Lib, h0: seq<Invocation>, bypass: seq<IpAddr>, tunName: string, dns: Option<IpAddr>, gateway: IpAddr)
    ensures var t3 := h0 + [DnsCommand(lib, tunName, dns), TunRouteCommand(lib), DISCOVER];
      FollowsPlan(lib, h0, Exec(host, lib, t3, BypassCommands(lib, bypass, gateway)).trace, Ok(gateway), bypass, tunName, dns)
  {
    var pre := [DnsCommand(lib, tunName, dns), TunRouteCommand(lib), DISCOVER];
    var bs := BypassCommands(lib, bypass, gateway);
    ExecExtends(host, lib, h0, pre, bs);
    var t := Exec(host, lib, h0 + pre, bs).trace;
    assert SettingsPlan(lib, bypass, tunName, dns, gateway) == pre + bs;
    if |t| <= |h0| + 3 {
      assert (pre + bs)[..3] == pre;
    }
  }

  /** Every command before the last one of the bypass stage, setup commands included, succeeded. */
  lemma {:induction false} BypassEarlierSucceeded(host: Host, lib: Lib, h0: seq<Invocation>, bypass: seq<IpAddr>, tunName: string, dns: Option<IpAddr>, gateway: IpAddr)
    requires Succeeds(host, lib, h0 + [DnsCommand(lib, tunName, dns)])
    requires Succeeds(host, lib, h0 + [DnsCommand(lib, tunName, dns), TunRouteCommand(lib)])
    requires Succeeds(host, lib, h0 + [DnsCommand(lib, tunName, dns), TunRouteCommand(lib), DISCOVER])
    ensures var t3 := h0 + [DnsCommand(lib, tunName, dns), TunRouteCommand(lib), DISCOVER];
      var t := Exec(host, lib, t3, BypassCommands(lib, bypass, gateway)).trace;
      |t| > |h0| + 2 &&
      forall k :: |h0| < k < |t| ==> Succeeds(host, lib, t[..k])
  {
    var t3 := h0 + [DnsCommand(lib, tunName, dns), TunRouteCommand(lib), DISCOVER];
    var bs := BypassCommands(lib, bypass, gateway);
    ExecEarlierSucceeded(host, lib, t3, bs);
    BypassTrace(host, lib, h0, bypass, tunName, dns, gateway);
    var t := Exec(host, lib, t3, bs).trace;
    forall k | |h0| < k < |t|
      ensures Succeeds(host, lib, t[..k])
    {
      if k == |h0| + 1 {
      } else if k == |h0| + 2 {
      } else if k == |h0| + 3 {
      }
    }
  }

  /** The bypass stage ends in the first failing route's error, or in success after all of them. */
  lemma {:induction false} BypassResult(host: Host, lib: Lib, h0: seq<Invocation>, bypass: seq<IpAddr>, tunName: string, dns: Option<IpAddr>, gateway: IpAddr)
    requires Succeeds(host, lib, h0 + [DnsCommand(lib, tunName, dns), TunRouteCommand(lib), DISCOVER])
    ensures var t3 := h0 + [DnsCommand(lib, tunName, dns), TunRouteCommand(lib), DISCOVER];
      var routes := Exec(host, lib, t3, BypassCommands(lib, bypass, gateway));
      var t, r := routes.trace, routes.result;
      |t| > |h0| + 2 &&
      (r.Err? ==> LastResult(host, lib, t) == Err(r.error)) &&
      (r.Ok? <==> |t| == |h0| + 3 + |bypass| && Succeeds(host, lib, t)) &&
      (r.Ok? ==> t == h0 + SettingsPlan(lib, bypass, tunName, dns, gateway))
  {
    var pre := [DnsCommand(lib, tunName, dns), TunRouteCommand(lib), DISCOVER];
    var bs := BypassCommands(lib, bypass, gateway);
    ExecOutcome(host, lib, h0, pre, bs);
    assert SettingsPlan(lib, bypass, tunName, dns, gateway) == pre + bs;
  }

  /** The three stages of `config_settings`, each stopping at its first failure. */
  lemma {:induction false} SettingsStages(host: Host, lib: Lib, s: MachineState, bypass: seq<IpAddr>, tunName: string, dns: Option<IpAddr>)
    ensures var (s', r) := Settings(host, lib, s, bypass, tunName, dns);
      var h0, t := s.trace, s'.trace;
      var found := if |t| >= |h0| + 3 then DiscoveredAfter(host, lib, h0, t) else Err(NO_GATEWAY);
      FollowsPlan(lib, h0, t, found, bypass, tunName, dns) &&
      StopsAtFirstFailure(host, lib, h0, t, found, r, bypass, tunName, dns) &&
      ArmsSlot(h0, t, found, s.defaultGateway, s'.defaultGateway)
  {
    var h0 := s.trace;
    var cs := [DnsCommand(lib, tunName, dns), TunRouteCommand(lib)];
    var setup := Exec(host, lib, h0, cs);
    ExecIssuesPrefix(host, lib, h0, cs);
    ExecEarlierSucceeded(host, lib, h0, cs);
    if setup.result.Ok? {
      DiscoveryAfterSetup(host, lib, h0, setup, tunName, dns);
      var found := Discover(host, lib, setup.trace);
      var t3 := found.trace;
      assert t3[..|h0| + 1] == h0 + [cs[0]];
      assert t3[..|h0| + 2] == setup.trace;
      if found.result.Err? {
        var answer := LastResult(host, lib, t3);
        if answer.Ok? {
          SelectFailsIffNothingParses(lib.parseIp, lib.lines(lib.decodeLossy(answer.value)));
        }
        assert t3 == h0 + [cs[0], cs[1], DISCOVER][..3];
      } else {
        var gw := found.result.value;
        assert Succeeds(host, lib, t3);
        BypassTrace(host, lib, h0, bypass, tunName, dns, gw);
        BypassFollowsPlan(host, lib, h0, bypass, tunName, dns, gw);
        BypassEarlierSucceeded(host, lib, h0, bypass, tunName, dns, gw);
        BypassResult(host, lib, h0, bypass, tunName, dns, gw);
        var t := Exec(host, lib, t3, BypassCommands(lib, bypass, gw)).trace;
        assert DiscoveredAfter(host, lib, h0, t) == Ok(gw);
      }
    } else if |setup.trace| == |h0| + 2 {
      assert setup.trace == h0 + [cs[0], cs[1], DISCOVER][..2];
      assert setup.trace[..|h0| + 1] == h0 + [cs[0]];
    } else {
      assert setup.trace == h0 + [cs[0], cs[1], DISCOVER][..1];
    }
  }

  /**
   * `config_settings` only appends; the first three commands are the DNS
   * setting, the tunnel default route and then the gateway query, and
   * whatever follows is a prefix of the bypass routes through the
   * discovered gateway.
   */
  lemma {:induction false} SettingsOrder(host: Host, lib: Lib, s: MachineState, bypass: seq<IpAddr>, tunName: string, dns: Option<IpAddr>)
    ensures var (s', _) := Settings(host, lib, s, bypass, tunName, dns);
      var h0, t := s.trace, s'.trace;
      |h0| < |t| <= |h0| + 3 + |bypass| &&
      t[..|h0|] == h0 &&
      t[|h0|] == DnsCommand(lib, tunName, dns) &&
      (|t| > |h0| + 1 ==> t[|h0| + 1] == TunRouteCommand(lib)) &&
      (|t| > |h0| + 2 ==> t[|h0| + 2] == DISCOVER) &&
      (|t| > |h0| + 3 ==>
        (DiscoveredAfter(host, lib, h0, t).Ok? &&
         t == h0 + SettingsPlan(lib, bypass, tunName, dns, DiscoveredAfter(host, lib, h0, t).value)[..|t| - |h0|]))
  {
    SettingsStages(host, lib, s, bypass, tunName, dns);
  }

  /**
   * No command of `config_settings` follows a failing one: every command but
   * the last succeeded, and an error is either the last command's or the
   * query's "No default gateway found". Success means the whole plan ran.
   */
  lemma {:induction false} SettingsStopsAtFirstFailure(host: Host, lib: Lib, s: MachineState, bypass: seq<IpAddr>, tunName: string, dns: Option<IpAddr>)
    ensures var (s', r) := Settings(host, lib, s, bypass, tunName, dns);
      var h0, t := s.trace, s'.trace;
      |t| > |h0| &&
      (forall k :: |h0| < k < |t| ==> Succeeds(host, lib, t[..k])) &&
      (r.Err? ==> (LastResult(host, lib, t) == Err(r.error)) ||
                  (|t| == |h0| + 3 && Succeeds(host, lib, t) && r.error == NO_GATEWAY &&
                   DiscoveredAfter(host, lib, h0, t) == Err(NO_GATEWAY))) &&
      (r.Ok? <==> |t| == |h0| + 3 + |bypass| && Succeeds(host, lib, t) && DiscoveredAfter(host, lib, h0, t).Ok?) &&
      (r.Ok? ==> t == h0 + SettingsPlan(lib, bypass, tunName, dns, DiscoveredAfter(host, lib, h0, t).value))
  {
    SettingsStages(host, lib, s, bypass, tunName, dns);
  }

  /**
   * `DEFAULT_GATEWAY` is overwritten with the discovered gateway exactly when
   * discovery succeeded, and is left as it was otherwise; in particular a
   * bypass route is only ever issued once it is set.
   */
  lemma {:induction false} SettingsArmsSlot(host: Host, lib: Lib, s: MachineState, bypass: seq<IpAddr>, tunName: string, dns: Option<IpAddr>)
    ensures var (s', _) := Settings(host, lib, s, bypass, tunName, dns);
      var h0, t := s.trace, s'.trace;
      s'.defaultGateway ==
        if |t| >= |h0| + 3 && DiscoveredAfter(host, lib, h0, t).Ok?
        then Some(DiscoveredAfter(host, lib, h0, t).value)
        else s.defaultGateway
  {
    SettingsStages(host, lib, s, bypass, tunName, dns);
  }

  /**
   * With a gateway stored, `config_restore` empties the slot before anything
   * runs, deletes the default route, and only if that succeeded re-adds the
   * stored gateway's default route with metric 200.
   */
  lemma {:induction false} RestoreSequence(host: Host, lib: Lib, s: MachineState, gateway: IpAddr)
    requires s.defaultGateway == Some(gateway)
    ensures var (s', r) := Restore(host, lib, s);
      var del := s.trace + [DeleteDefaultCommand(lib)];
      s'.defaultGateway == None &&
      ((s'.trace == del && !Succeeds(host, lib, del) && r == Err(LastResult(host, lib, del).error)) ||
       (s'.trace == del + [RestoreDefaultCommand(lib, gateway)] && Succeeds(host, lib, del) &&
        (r.Ok? <==> Succeeds(host, lib, s'.trace)) &&
        (r.Err? ==> r.error == LastResult(host, lib, s'.trace).error)))
  {
    var cs := [DeleteDefaultCommand(lib), RestoreDefaultCommand(lib, gateway)];
    ExecIssuesPrefix(host, lib, s.trace, cs);
    ExecEarlierSucceeded(host, lib, s.trace, cs);
    var st := Exec(host, lib, s.trace, cs);
    if |st.trace| == |s.trace| + 2 {
      assert st.trace[..|s.trace| + 1] == s.trace + [DeleteDefaultCommand(lib)];
    }
  }

  /** Restoring twice is the same as restoring once: the second call finds nothing stored. */
  lemma {:induction false} RestoreIdempotent(host: Host, lib: Lib, s: MachineState)
    ensures var (s', _) := Restore(host, lib, s);
      Restore(host, lib, s') == (s', Ok(()))
  {
  }

  /**
   * After a successful `config_settings`, `config_restore` puts back the
   * default route through the gateway discovered before the bypass routes,
   * not one discovered afresh.
   */
  lemma {:induction false} SettingsThenRestore(host: Host, lib: Lib, s: MachineState, bypass: seq<IpAddr>, tunName: string, dns: Option<IpAddr>)
    requires Settings(host, lib, s, bypass, tunName, dns).1.Ok?
    ensures var (s1, _) := Settings(host, lib, s, bypass, tunName, dns);
      |s1.trace| >= |s.trace| + 3 && DiscoveredAfter(host, lib, s.trace, s1.trace).Ok? &&
      var gw := DiscoveredAfter(host, lib, s.trace, s1.trace).value;
      var (s2, _) := Restore(host, lib, s1);
      s1.defaultGateway == Some(gw) &&
      s2.defaultGateway == None &&
      |s1.trace| < |s2.trace| <= |s1.trace| + 2 &&
      s2.trace[..|s1.trace|] == s1.trace &&
      s2.trace[|s1.trace|] == DeleteDefaultCommand(lib) &&
      (|s2.trace| == |s1.trace| + 2 ==> s2.trace[|s1.trace| + 1] == RestoreDefaultCommand(lib, gw))
  {
    SettingsStopsAtFirstFailure(host, lib, s, bypass, tunName, dns);
    SettingsArmsSlot(host, lib, s, bypass, tunName, dns);
    var (s1, _) := Settings(host, lib, s, bypass, tunName, dns);
    RestoreSequence(host, lib, s1, s1.defaultGateway.value);
  }

  /**
   * The Windows machine as the route configuration code sees it: the
   * process-wide `DEFAULT_GATEWAY` slot and the commands run so far, with
   * the host's answers and the standard-library routines fixed.
   */
  class Machine {
    const host: Host
    const lib: Lib
    var defaultGateway: Option<IpAddr>
    var trace: seq<Invocation>

    /** A fresh process: nothing run yet, `DEFAULT_GATEWAY` empty. */
    constructor (host: Host, lib: Lib)
      ensures this.host == host && this.lib == lib
      ensures trace == [] && defaultGateway == None
    {
      this.host := host;
      this.lib := lib;
      trace := [];
      defaultGateway := None;
    }

    function State(): MachineState
      reads this
    {
      MachineState(trace, defaultGateway)
    }

    /** `run_command`: runs one program and reports stdout, or a diagnostic error. */
    method RunCommand(program: string, args: seq<string>) returns (r: Result<seq<byte>, IoError>)
      modifies this
      ensures trace == old(trace) + [Invocation(program, args)]
      ensures defaultGateway == old(defaultGateway)
      ensures r == LastResult(host, lib, trace)
    {
      trace := trace + [Invocation(program, args)];
      r := CommandResult(lib, program, host(trace));
    }

    /** `get_default_gateway`: the adapter query, then the scan of its output lines. */
    method GetDefaultGateway() returns (r: Result<IpAddr, IoError>)
      modifies this
      ensures defaultGateway == old(defaultGateway)
      ensures Step(trace, r) == Discover(host, lib, old(trace))
    {
      var out := RunCommand(DISCOVER.program, DISCOVER.args);
      if out.Err? {
        return Err(out.error);
      }
      var lines := lib.lines(lib.decodeLossy(out.value));
      r := ScanGateways(lib.parseIp, lines);
    }

    /** `config_settings` (Windows). */
    method ConfigSettings(bypass: seq<IpAddr>, tunName: string, dns: Option<IpAddr>) returns (r: Result<(), IoError>)
      modifies this
      ensures (State(), r) == Settings(host, lib, old(State()), bypass, tunName, dns)
    {
      var dnsCommand := DnsCommand(lib, tunName, dns);
      var routeCommand := TunRouteCommand(lib);
      assert [dnsCommand, routeCommand][1..] == [routeCommand];
      ghost var h0 := trace;
      var out := RunCommand(dnsCommand.program, dnsCommand.args);
      assert trace == h0 + [dnsCommand];
      if out.Err? {
        assert Exec(host, lib, h0, [dnsCommand, routeCommand]) == Step(trace, Err(out.error));
        return Err(out.error);
      }
      out := RunCommand(routeCommand.program, routeCommand.args);
      assert trace == h0 + [dnsCommand] + [routeCommand];
      assert Exec(host, lib, h0, [dnsCommand, routeCommand]) == Exec(host, lib, h0 + [dnsCommand], [routeCommand]);
      if out.Err? {
        return Err(out.error);
      }
      assert Exec(host, lib, h0 + [dnsCommand], [routeCommand]) == Exec(host, lib, trace, []);

      var found := GetDefaultGateway();
      if found.Err? {
        return Err(found.error);
      }
      var oldGateway := found.value;
      defaultGateway := Some(oldGateway);

      ghost var start := trace;
      var i := 0;
      while i < |bypass|
        invariant 0 <= i <= |bypass|
        invariant defaultGateway == Some(oldGateway)
        invariant Exec(host, lib, trace, BypassCommands(lib, bypass[i..], oldGateway))
               == Exec(host, lib, start, BypassCommands(lib, bypass, oldGateway))
      {
        var command := BypassCommand(lib, bypass[i], oldGateway);
        assert bypass[i..][1..] == bypass[i + 1..];
        out := RunCommand(command.program, command.args);
        if out.Err? {
          return Err(out.error);
        }
        i := i + 1;
      }
      return Ok(());
    }

    /** `config_restore` (Windows). */
    method ConfigRestore() returns (r: Result<(), IoError>)
      modifies this
      ensures (State(), r) == Restore(host, lib, old(State()))
    {
      match defaultGateway
      case None =>
        return Ok(());
      case Some(oldGateway) =>
        defaultGateway := None;
        var deleteCommand := DeleteDefaultCommand(lib);
        var addCommand := RestoreDefaultCommand(lib, oldGateway);
        assert [deleteCommand, addCommand][1..] == [addCommand];
        ghost var h0 := trace;
        var out := RunCommand(deleteCommand.program, deleteCommand.args);
        assert trace == h0 + [deleteCommand];
        if out.Err? {
          return Err(out.error);
        }
        assert Exec(host, lib, h0, [deleteCommand, addCommand]) == Exec(host, lib, trace, [addCommand]);
        out := RunCommand(addCommand.program, addCommand.args);
        assert trace == h0 + [deleteCommand] + [addCommand];
        if out.Err? {
          return Err(out.error);
        }
        assert Exec(host, lib, h0 + [deleteCommand], [addCommand]) == Exec(host, lib, trace, []);
        return Ok(());
    }
  }
}
