# dinghy command orchestrator

A Dafny model of `DinghyCLI` in `cli/cli.rb`, the command layer of dinghy,
and proofs about it. dinghy runs a Docker VM through docker-machine. Next to
the VM it supervises an NFS server (unfs), a DNS server (dnsmasq), an
FS-event forwarder and an HTTP proxy. `DinghyCLI` decides:

- whether a command may run at all (does the VM exist, is it running);
- in which order the VM and the daemons are started and stopped;
- how persisted preferences combine with command-line options;
- what the status report prints.

## Structure

- `ruby_values.dfy` (module `RubyValues`): the Ruby values the command layer
  handles. Ruby truthiness is written out (`nil` and `false` are falsy), and
  `Lookup` returns `nil` for a missing key.
- `preferences.dfy` (module `Preferences`): the preference keys and the
  shallow merge. Also `proxy_disabled?` and `fsevents_disabled?`, which are
  true only for a persisted `true`, and the tri-state decision
  `flag || (flag.nil? && !disabled)`.
- `collaborators.dfy` (module `Collaborators`): everything outside the
  command layer, reduced to a `World` and a trace of `Event`s.
  - The `World` records whether the VM exists and runs, whether each daemon
    runs, and the preference hash.
  - `Step` gives the effect of each call.
  - The class `Environment` holds the world and the trace. Its method
    `Perform` makes one call.
  - `ChannelOf` says whether a message goes to standard output or to
    standard error.
- `cli.dfy` (module `Cli`):
  - A specification function `…Run` for each command. It is written as the
    chain of calls the command makes, with each optional call as a small
    function of its own.
  - The class `DinghyCli`, whose methods (`Create`, `Up`, `Status`, `Ip`,
    `Halt`, `Restart`, `Destroy`, `Nfs`, `VmMustExist`, `StartServices`)
    make the calls one by one on an `Environment`. Each method is proved to
    reach exactly the state of its `…Run` function. `Status` keeps the
    source's `each` loop, with its invariant.
- `cli_properties.dfy` (module `CliProperties`): proofs that state what the
  chains amount to. They compare each chain with reference definitions
  written independently of it: `ReportLines`, `FailureLines`,
  `StatusLines`, `StartLines`, `StartedWorld`, `HaltLines`, `HaltedWorld`.
  They cover the guards, the exact order of calls and lines, the final
  world, what is persisted, and what the next invocation reads back.

## Inputs passed as parameters

What the command layer only observes is a parameter, collected in
`Cli.Oracle`:

- the provider translation of `machine.translate_provider`;
- whether `unfs.wait_for_unfs` succeeds;
- whether NFS, DNS and the FS-event forwarder are running once started
  (`unfsUp`, `dnsUp`, `fseventsUp`), so a start can leave its daemon down
  and the status report then notices it;
- whether the process runs as root (`Process.uid == 0`);
- the answer to the confirmation prompt inside `machine.destroy`.

`exit(1)` becomes an `Exit1` result, and the caller stops there.

## Two behaviours of the code worth knowing

- **`fsevents_disabled` is always persisted as `false`.** Lines 255-258 of
  `cli/cli.rb` write `fsevents_disabled: !fsevents`. Here `fsevents` is the
  private accessor returning a new `FseventsToVm` object, not the local
  `use_fsevents`. Negating an object gives `false`. So `up --no-fsevents`
  is not remembered, unlike `--no-proxy`. The model follows the code
  (`Cli.StartDelta`, `Cli.FseventsHandle`).
  `CliProperties.NextStartDefaults` proves the consequence: the next start
  without flags enables the forwarder again, while a proxy choice sticks.
- **No command calls `http_proxy.halt`.** `halt` stops the forwarder, the
  VM, NFS and DNS only (lines 121-128). The model has a `ProxyHalt` event
  for the proxy's own stop, and `CliProperties.ProxyNeverHalted` proves
  that no command's trace contains it. The proxy is built on the machine
  (line 227) and runs inside the VM, so in the model it ends when the VM is
  stopped or deleted.

## Model

| member | source | states |
|---|---|---|
| Preferences.Enabled | cli/cli.rb:242-247 | an explicit truthy flag enables, an explicit `false` disables, an absent flag enables exactly when the persisted switch is not set |
| Cli.DinghyCli.Create | cli/cli.rb:44-63 | the calls `create` makes and its exit status are exactly those of `CreateRun` |
| Cli.DinghyCli.Up | cli/cli.rb:72-81 | the calls and exit status of `up` are those of `UpRun` |
| Cli.DinghyCli.Status | cli/cli.rb:92-107 | the five report lines, then the `each` loop over NFS, DNS and FS events, the blank line and the environment check, as `StatusRun` |
| Cli.DinghyCli.Ip | cli/cli.rb:110-118 | the calls and exit status of `ip` are those of `IpRun` |
| Cli.DinghyCli.Halt | cli/cli.rb:121-128 | the calls and exit status of `halt` are those of `HaltRun` |
| Cli.DinghyCli.Restart | cli/cli.rb:134-137 | `halt`, then `up` only if `halt` did not exit, as `RestartRun` |
| Cli.DinghyCli.Destroy | cli/cli.rb:144-147 | `halt`, then `machine.destroy` with the force option, as `DestroyRun` |
| Cli.DinghyCli.Nfs | cli/cli.rb:173-189 | the root check, the port and host, then start, stop or the unknown-command message, as `NfsRun` |
| Cli.DinghyCli.VmMustExist | cli/cli.rb:194-200 | without a VM it prints the message and exits 1; otherwise it changes nothing |
| Cli.DinghyCli.StartServices | cli/cli.rb:234-261 | the start calls in source order with both decisions taken on the loaded preferences, then `status`, as `StartServicesRun` |
| Preferences.MergeOverrides | cli/cli.rb:51-51 | a merge keeps the keys of both hashes; a key of the overrides wins, and every other key is inherited |
| Preferences.PersistedCreateFallsBack | cli/cli.rb:51-51 | the persisted create options (`preferences[:create]`, else `{}`) are none when the entry is missing or falsy, and the stored hash when there is one |
| Preferences.SwitchesNeedExactTrue | cli/cli.rb:206-212 | `proxy_disabled?` and `fsevents_disabled?` hold only for a stored truthy value; storing `true` sets them, storing any other value or removing the key clears them |
| CliProperties.StartDecisions | cli/cli.rb:242-247 | `use_fsevents` and `proxy` (`Cli.FseventsWanted`, `Cli.ProxyWanted`): an explicit flag decides whatever is persisted; without one, the daemon is wanted exactly when its switch is not set |
| CliProperties.StartDeltaWrites | cli/cli.rb:255-258 | the update `Cli.StartDelta` writes exactly the two switches, `proxy_disabled` as the negated proxy decision and `fsevents_disabled` as `false` |
| CliProperties.ReportsPrinted | cli/cli.rb:93-97 | the five labelled lines only print, with the VM, NFS, FSEV, DNS and HTTP states in that order |
| CliProperties.FailureNoticesLines | cli/cli.rb:99-104 | the `each` loop over any daemon list leaves the world alone and appends one notice per daemon found down, in list order |
| CliProperties.CheckedNotices | cli/cli.rb:99-104 | over the list `[unfs, dns, fsevents]`, the loop's notices are exactly the reference failure lines |
| CliProperties.FailureLinesExact | cli/cli.rb:99-104 | a notice appears exactly for each checked daemon that is down; the HTTP proxy never gets one; notices come in the order NFS, DNS, FS events |
| CliProperties.StoppedStatus | cli/cli.rb:98-98 | on a stopped VM, `status` prints the five lines and nothing more |
| CliProperties.RunningStatusNotices | cli/cli.rb:98-106 | on a running VM, the five lines are followed by exactly the failure notices, then the blank line and the environment check |
| CliProperties.RunningReportNotices | cli/cli.rb:98-106 | the report of a running VM ends with the environment check and has a notice for a daemon exactly when it is NFS, DNS or the forwarder and is down |
| CliProperties.RunningStatusTail | cli/cli.rb:105-106 | the blank line and the environment check close the running report |
| CliProperties.StatusPrintsReport | cli/cli.rb:92-107 | `status` changes nothing and prints exactly the reference report for the current world |
| CliProperties.StatusLayout | cli/cli.rb:93-106 | the report has five labelled lines carrying the five states; no later line is labelled; every line is output; the report has five lines exactly when the VM is stopped, and a running report ends with the environment check |
| CliProperties.MountStep | cli/cli.rb:237-241 | the mount step mounts when NFS came up, otherwise prints the failure, and changes no modelled state |
| CliProperties.FseventsStep | cli/cli.rb:243-245 | the forwarder is started exactly when wanted |
| CliProperties.ProxyStep | cli/cli.rb:248-253 | when wanted, the grace sleep of 5 seconds then the proxy start; otherwise nothing |
| CliProperties.BootStep | cli/cli.rb:235-236 | `machine.up` marks the VM running and `unfs.up` leaves NFS running exactly when it came up |
| CliProperties.DnsStep | cli/cli.rb:246-246 | `dns.up` leaves DNS running exactly when it came up |
| CliProperties.PrefsStep | cli/cli.rb:255-258 | a preference update merges its hash into the preferences and changes nothing else |
| CliProperties.StartCallsWorldFor | cli/cli.rb:234-258 | after the start calls the VM runs; NFS and DNS run exactly when they came up; a wanted forwarder runs exactly when it came up, an unwanted one is left as it was; the proxy runs if wanted or already up; the start choices are merged into the preferences |
| CliProperties.StartChainAppends | cli/cli.rb:234-258 | the start calls append, one after another, the VM and NFS starts, the mount step, the forwarder step, the DNS start, the proxy step and the update |
| CliProperties.StartCallsTraceFor | cli/cli.rb:234-258 | the start calls are exactly: VM up, NFS up, the mount or its warning, the forwarder if wanted, DNS up, sleep and proxy if wanted, the preference update |
| CliProperties.StartCallsWorld | cli/cli.rb:242-258 | with the decisions read from the loaded preferences and options, the start calls reach the reference started world |
| CliProperties.StartCallsTrace | cli/cli.rb:242-258 | with the decisions read from the loaded preferences and options, the start calls are the reference start lines |
| CliProperties.StartCalls | cli/cli.rb:234-258 | the start calls give both the reference world and the reference lines |
| CliProperties.StartServicesRuns | cli/cli.rb:234-261 | `start_services` makes the start calls, then prints the report of the started world |
| CliProperties.StartedWorldPrefs | cli/cli.rb:255-258 | `proxy_disabled` is persisted as the negated proxy decision and `fsevents_disabled` as `false`; every other preference is kept |
| CliProperties.NextStartDefaults | cli/cli.rb:206-258 | after a start, the next start without flags enables the forwarder and repeats the proxy choice |
| CliProperties.StartedStatus | cli/cli.rb:234-261 | the report after a start ends with the environment check; it has a notice for NFS or DNS exactly when that daemon did not come up, and for the forwarder exactly when a wanted one did not come up or an unwanted one was not running before; never for the proxy |
| CliProperties.MissingVmRefused | cli/cli.rb:194-200 | without a VM, `up`, `halt`, `restart`, `destroy` and `ip` all print the same message, exit 1 and make no call |
| CliProperties.CreateRefusesExistingVm | cli/cli.rb:45-49 | `create` on an existing VM prints the refusal, exits 1 and makes no call |
| CliProperties.CreateOptionsMerge | cli/cli.rb:51-52 | for `Cli.CreateOptions`: every command-line option wins over the persisted create options, which fill in the rest; the provider is the translated merged provider |
| CliProperties.CreateRefusesUnknownProvider | cli/cli.rb:54-57 | a provider that translates to nil is refused with exit 1 before any call |
| CliProperties.VmBuilt | cli/cli.rb:59-60 | the announcement and `machine.create` mark the VM created and change nothing else |
| CliProperties.CreateRunsStart | cli/cli.rb:59-62 | a successful `create` builds the VM, runs `start_services` on it, then records the options |
| CliProperties.CreateBuildsAndStarts | cli/cli.rb:44-63 | the full calls and final world of a successful `create`: the build with the merged options, the complete start and report, then the options recorded |
| CliProperties.CreateTrace | cli/cli.rb:44-63 | a successful `create` makes exactly the announcement, the build, the start lines, the report and the options update |
| CliProperties.CreatedWorld | cli/cli.rb:59-62 | the world after a successful `create` is the started world with the create options merged into the preferences |
| CliProperties.CreateOptionsReadBack | cli/cli.rb:51-62 | preferences whose create entry holds some options give those options back to the next `create` without flags, except that the provider is translated again |
| CliProperties.CreateRemembersOptions | cli/cli.rb:51-62 | after a successful `create` the VM exists and runs, and a later `create` without flags reads back the same options, apart from the provider |
| CliProperties.UpRefusesRunningVm | cli/cli.rb:74-77 | `up` on a running VM prints the refusal, exits 1 and makes no call |
| CliProperties.SayStep | cli/cli.rb:79-79 | printing a message changes no modelled state |
| CliProperties.UpPassesGuards | cli/cli.rb:72-81 | `up` on an existing, stopped VM passes both guards, announces the start and runs `start_services` |
| CliProperties.UpStartsServices | cli/cli.rb:79-80 | `up` on a stopped VM announces the start, runs the start calls and prints the report of the started world |
| CliProperties.UpTwiceRefused | cli/cli.rb:72-81 | a second `up` right after a successful one exits 1 and changes nothing |
| CliProperties.HaltStopsServices | cli/cli.rb:121-128 | `halt` stops the forwarder, announces, stops the VM, NFS, then DNS; every daemon is down afterwards (the proxy with the VM it runs in), and the VM and the preferences stay |
| CliProperties.RestartIsHaltThenUp | cli/cli.rb:134-137 | on an existing VM, `restart` always reaches the full start, because the halt clears the `up` guard |
| CliProperties.DestroyHaltsThenDeletes | cli/cli.rb:144-147 | `destroy` halts, then asks the VM to delete itself; afterwards the VM exists exactly when neither force nor the confirmation was given |
| CliProperties.IpNeedsRunningVm | cli/cli.rb:110-118 | `ip` succeeds exactly on a running VM, prints one line and changes nothing |
| CliProperties.NfsControlsNfsDaemon | cli/cli.rb:173-189 | without root, only the message; as root, the port and host are set, then NFS is started (running exactly when it came up), stopped, or left as it was with the unknown-command message |
| CliProperties.StatusDoesNotHaltProxy | cli/cli.rb:92-107 | `status` never stops the HTTP proxy |
| CliProperties.IpDoesNotHaltProxy | cli/cli.rb:110-118 | `ip` never stops the HTTP proxy |
| CliProperties.UpDoesNotHaltProxy | cli/cli.rb:72-81 | `up` never stops the HTTP proxy, on any path |
| CliProperties.HaltDoesNotHaltProxy | cli/cli.rb:121-128 | `halt` never calls `http_proxy.halt` |
| CliProperties.RestartDoesNotHaltProxy | cli/cli.rb:134-137 | `restart` never stops the HTTP proxy |
| CliProperties.DestroyDoesNotHaltProxy | cli/cli.rb:144-147 | `destroy` never stops the HTTP proxy |
| CliProperties.CreateDoesNotHaltProxy | cli/cli.rb:44-63 | `create` never stops the HTTP proxy, on any path |
| CliProperties.NfsDoesNotHaltProxy | cli/cli.rb:173-189 | the `nfs` command never stops the HTTP proxy |
| CliProperties.ProxyNeverHalted | cli/cli.rb:44-189 | no command of `DinghyCLI` makes the HTTP proxy's own stop call |

## Left out

- Thor plumbing is not modelled: option declarations, `map` aliases, `help`. The options reach the model as a parsed hash.
- `ssh`, `upgrade`, `shellinit` and `version` are not modelled. They delegate to collaborators and have no orchestration logic of their own.
- The internals of Machine, Unfs, Dnsmasq, FseventsToVm, HttpProxy, CheckEnv and the preference store are not modelled. They are reduced to the effect of each call on the `World`.
- `Preferences.load`, `Preferences#update` and the preference file are not modelled. Loading is the initial `World.prefs`. An update is a shallow merge into that hash.
- The provider translation, the NFS readiness poll, whether each started daemon came up, the root check and the destroy confirmation prompt are `Oracle` parameters.
- The five-second sleep is recorded as an event. No time passes.
- The text of the messages is not modelled. The lines of `status` are modelled as their labels and running flags; the words the daemons print are left out. The two-line failure notice with the log path is one event.
- Daemons crashing after they were started are not modelled: whether a daemon runs is decided at its start call. Stops always succeed, and the HTTP proxy's start always succeeds, since `status` never checks it.
- Which stream a message goes to is modelled by `Collaborators.ChannelOf`; the order in which the two streams interleave on a terminal is not modelled.
- `machine.status == 'running'` is modelled as the VM's running flag.
- `port.to_i` is not modelled: the port reaches `Cli.DinghyCli.Nfs` already parsed as an integer.
- A persisted `create` entry that is truthy but not a hash would raise in Ruby. `Preferences.PersistedCreate` reads it as `{}`.
- The memoization of the `preferences`, `machine`, `unfs`, `dns` and `http_proxy` accessors is not modelled. Since every handle stands for the same collaborator, it changes no modelled outcome.
- Concurrent invocations are not modelled.
