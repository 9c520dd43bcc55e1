# tun2socks5 route configuration (Windows) in Dafny

This project models the host route switching in tun2socks5's
`src/route_config.rs`, in its Windows variant. `config_settings` points the
tunnel adapter's DNS at a resolver. It then installs a default route through
the tunnel gateway `10.0.0.1` with metric 6. Next it asks PowerShell for the
adapters' default gateways and stores the one it picks in the process-wide
`DEFAULT_GATEWAY` slot. Last, it adds one metric-1 route per bypass address
through that original gateway. `config_restore` takes the stored gateway,
deletes the default route, and re-adds one through the stored gateway with
metric 200. With nothing stored it does nothing and succeeds. Every command
goes through `run_command`, so the first failing command ends the operation.

Modules:

- `Wrappers`: `Option` and `Result`.
- `Net`: IP addresses, the `TUN_*` constants, and `Lib`, the standard-library
  routines the code calls (address parsing and formatting, lossy UTF-8
  decoding, line splitting). These are kept as uninterpreted function values.
- `Command`: invocations, process outputs, `run_command`'s result and error
  text, and `Exec`, which runs a list of commands in order and stops at the
  first failure.
- `Gateway`: the gateway query, the line scan of `get_default_gateway`
  (`ScanGateways`, a loop with the source's early exit), and its
  specification `SelectGateway`.
- `RouteConfig`: the command vectors and the specification functions
  `Settings` and `Restore` over a `MachineState`. It also holds the lemmas
  about them, and the class `Machine`. The class keeps the `DEFAULT_GATEWAY`
  slot and the trace of commands run so far as fields. Its methods mirror
  `run_command`, `get_default_gateway`, `config_settings` and
  `config_restore`, and are proved equal to the specification functions.

The host is a function `Host` from the whole command history to the output
of the last command. That leaves every answer open (success with stdout,
failure with stdout and stderr, or a spawn error), and the answer may depend
on everything run before. All properties therefore hold for every host.

The gateway query runs after the DNS command and the tunnel default-route
command, not before any route change. `SettingsOrder` states that order.

## Model

| member | source | states |
|---|---|---|
| Command.Diagnostic | src/route_config.rs:82 | the diagnostic is stderr when stderr is non-empty, stdout otherwise; it is empty exactly when both are |
| Command.FailureMessage | src/route_config.rs:83 | the error text is the program name, then ` failed with: "`, then the diagnostic text, then a closing quote, at exactly those positions |
| Command.CommandResult | src/route_config.rs:79-86 | success exactly when the process ran and exited successfully, returning stdout unchanged; a spawn error is passed through; a failed exit yields the formatted diagnostic message |
| Command.ExecIssuesPrefix | src/route_config.rs:19-27 | a `?` chain issues a prefix of its commands in order and never more; on success all of them; on failure the last issued command's error is the result |
| Command.ExecEarlierSucceeded | src/route_config.rs:37-41 | every command the chain issued before the last succeeded; on a non-empty success the last succeeded too |
| Command.ExecExtends | src/route_config.rs:37-41 | a chain started after earlier commands keeps them and appends a prefix of its own commands |
| Command.ExecOutcome | src/route_config.rs:37-43 | after a successful start, the chain fails with its last command's error, or succeeds exactly when all commands ran and the last succeeded |
| Gateway.FirstV4Absent | src/route_config.rs:105-111 | no IPv4 candidate exactly when no line parses as IPv4; a candidate is IPv4 and is some line's address |
| Gateway.LastV6Absent | src/route_config.rs:112-114 | no IPv6 candidate exactly when no line parses as IPv6; a candidate is IPv6 and is some line's address |
| Gateway.SelectPrefersFirstV4 | src/route_config.rs:105-111 | when line i is the first that parses as IPv4, the gateway is that address, whatever follows |
| Gateway.SelectFallsBackToLastV6 | src/route_config.rs:112-114 | with no IPv4 line, the gateway is the address of the last line that parses as IPv6 |
| Gateway.SelectFailsIffNothingParses | src/route_config.rs:119-120 | selection fails exactly when no line parses, and then with "No default gateway found" |
| Gateway.SelectedComesFromALine | src/route_config.rs:102-120 | a selected gateway is the parse of one of the output lines |
| Gateway.ScanGateways | src/route_config.rs:102-120 | the loop with its early exit on the first IPv4 address computes exactly `SelectGateway` |
| RouteConfig.BypassCommands | src/route_config.rs:37-41 | one bypass command per bypass address |
| RouteConfig.BypassCommandsInOrder | src/route_config.rs:37-38 | the i-th bypass command is `route add <ip i> <gateway> metric 1` |
| RouteConfig.Restore | src/route_config.rs:52-72 | restore always leaves the slot empty; with the slot empty it changes nothing and succeeds |
| RouteConfig.DiscoveryAfterSetup | src/route_config.rs:16-30 | after the DNS and tunnel-route commands succeed, the gateway query is the third command and its answer is what discovery reports |
| RouteConfig.SettingsOrder | src/route_config.rs:16-41 | settings only append; first comes the quoted-name `netsh ... set dns` command, then `route add 0.0.0.0 mask 0.0.0.0 10.0.0.1 metric 6`, then the gateway query; any bypass routes follow only after a successful discovery, in input order through the discovered gateway |
| RouteConfig.SettingsStopsAtFirstFailure | src/route_config.rs:19-43 | every command but the last succeeded; an error is the last command's or discovery's "No default gateway found"; success exactly when all 3+N commands ran, the last succeeded and discovery found a gateway, and then the trace is the planned list |
| RouteConfig.SettingsArmsSlot | src/route_config.rs:30-33 | the slot becomes the discovered gateway exactly when discovery succeeded and is unchanged otherwise |
| RouteConfig.RestoreSequence | src/route_config.rs:57-69 | with a gateway stored, the slot is emptied whatever happens; the delete runs first, and the metric-200 re-add through the stored gateway runs only if the delete succeeded |
| RouteConfig.RestoreIdempotent | src/route_config.rs:53-55 | a second restore finds the slot empty and is a successful no-op |
| RouteConfig.SettingsThenRestore | src/route_config.rs:30-33 | after a successful settings call, restore re-adds the default route through the gateway discovered during settings, not a new query |
| RouteConfig.Machine.constructor | src/route_config.rs:10 | a fresh process has run nothing and its slot is empty |
| RouteConfig.Machine.RunCommand | src/route_config.rs:79-87 | appends exactly one invocation, leaves the slot alone, and returns the command result for it |
| RouteConfig.Machine.GetDefaultGateway | src/route_config.rs:90-121 | issues the PowerShell query, then scans its output; equals `Discover`, slot unchanged |
| RouteConfig.Machine.ConfigSettings | src/route_config.rs:13-44 | the new trace, the slot and the result equal `Settings` of the old state |
| RouteConfig.Machine.ConfigRestore | src/route_config.rs:52-72 | the new trace, the slot and the result equal `Restore` of the old state |

## Left out

- Spawning processes (`std::process::Command`) is replaced by the `Host` oracle. Its answer is any exit status with any stdout and stderr, or a spawn error.
- `IpAddr::from_str`, the address `to_string`, `String::from_utf8_lossy` and `str::lines` are uninterpreted fields of `Lib`. No address grammar or UTF-8 decoding is modelled.
- `std::io::ErrorKind` is not modelled. An error is its message only, so spawn errors keep their text and every other error has kind `Other`.
- `log::info!` is logging only and is left out.
- The unix variants of `config_settings`, `config_restore` and `get_default_gateway` are `unimplemented!()` and are left out.
- `src/main.rs` is not part of this model. It is runtime and command-line plumbing, and its `config_restore` call takes arguments the Windows definition does not have.
- `src/directions.rs` is not part of this model. It holds passive types used by the packet relay, not by route configuration.
- `RouteConfig.Restore`: the second "No default gateway found" error in `config_restore` (the `ok_or` after `take`) cannot be reached, because the slot was just seen to be set. The model reads the slot once with a match.
- `Net.TUN_IPV4` and `Net.TUN_NETMASK` are declared for completeness; the Windows route code does not use them.
- The `DEFAULT_GATEWAY` slot is a `static mut`, so concurrent calls are possible in Rust. The model is sequential and does not cover them.
