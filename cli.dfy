/**
 * The command orchestrator `DinghyCLI`: each user command guards on the VM
 * state, then drives the collaborators in a fixed order.
 *
 * Every command has a specification function `…Run` from the state of the
 * invocation before the command to the state after it (and its exit
 * status), written as the chain of calls the command makes, with each
 * optional call a small function of its own. The methods of `DinghyCli`
 * make those calls one by one on an `Environment` and are proved to reach
 * exactly that state; module `CliProperties` states what the chains amount to.
 */
module Cli {
  import opened RubyValues
  import opened Preferences
  import opened Collaborators

  /** Normal completion, or `exit(1)`, which ends the whole invocation. */
  datatype Exit = Ok | Exit1

  datatype Outcome = Outcome(state: State, exit: Exit)

  /**
   * What the command layer only observes: `machine.translate_provider`,
   * `unfs.wait_for_unfs`, whether each daemon is running once started,
   * whether the process runs as root, and the answer to the confirmation
   * prompt of `machine.destroy`.
   */
  datatype Oracle = Oracle(
    translate: Value -> Value,
    nfsReady: bool,
    unfsUp: bool,
    dnsUp: bool,
    fseventsUp: bool,
    isRoot: bool,
    destroyConfirmed: bool)

  /** Whether a started daemon is running afterwards; the HTTP proxy always is. */
  function ComesUp(o: Oracle, d: Daemon): bool {
    match d
    case Unfs => o.unfsUp
    case Dns => o.dnsUp
    case Fsevents => o.fseventsUp
    case HttpProxy => true
  }

  const STATUS_LABELS: seq<string> := ["  VM:", " NFS:", "FSEV:", " DNS:", "HTTP:"]

  /** The daemons `status` checks when the VM is running, in order; the HTTP proxy is not among them. */
  const CHECKED_DAEMONS: seq<Daemon> := [Unfs, Dns, Fsevents]

  /** The five labelled lines `status` starts with: the VM, then each daemon. */
  function ReportRun(s: State): State {
    var w := s.world;
    var s1 := Do(s, Report(STATUS_LABELS[0], w.running));
    var s2 := Do(s1, Report(STATUS_LABELS[1], w.unfs));
    var s3 := Do(s2, Report(STATUS_LABELS[2], w.fsevents));
    var s4 := Do(s3, Report(STATUS_LABELS[3], w.dns));
    Do(s4, Report(STATUS_LABELS[4], w.proxy))
  }

  /** The `each` loop of `status`: a notice for every daemon of `ds` found not running. */
  function FailureNotices(s: State, ds: seq<Daemon>): State
    decreases |ds|
  {
    if ds == [] then s
    else
      var before := FailureNotices(s, ds[..|ds| - 1]);
      var d := ds[|ds| - 1];
      if Alive(before.world, d) then before else Do(before, FailedToRun(d))
  }

  /** `status`: the report lines, then, only on a running VM, the failure notices and the environment check. */
  function StatusRun(s: State): State {
    var reported := ReportRun(s);
    if !reported.world.running then reported
    else Do(Do(FailureNotices(reported, CHECKED_DAEMONS), Say(Blank)), CheckEnvRun)
  }

  /** `use_fsevents` */
  function FseventsWanted(prefs: Dict, opts: Dict): bool {
    Enabled(Lookup(opts, FSEVENTS_FLAG), FseventsDisabled(prefs))
  }

  /** `proxy` */
  function ProxyWanted(prefs: Dict, opts: Dict): bool {
    Enabled(Lookup(opts, PROXY_FLAG), ProxyDisabled(prefs))
  }

  /** The private accessor `fsevents`: a freshly built `FseventsToVm`, an ordinary truthy object. */
  function FseventsHandle(): Value {
    Object
  }

  /**
   * The update at the end of `start_services`. `fsevents_disabled` negates
   * the handle returned by the accessor `fsevents`, not the decision
   * `use_fsevents`, so it is always written as `false`.
   */
  function StartDelta(proxy: bool): Dict {
    map[PROXY_DISABLED_KEY := Not(Bool(proxy)), FSEVENTS_DISABLED_KEY := Not(FseventsHandle())]
  }

  /** Mount the NFS share when NFS came up, otherwise only say so. */
  function MountRun(s: State, nfsReady: bool): State {
    if nfsReady then Do(s, Mount) else Do(s, Say(NfsMountFailed))
  }

  function FseventsUpRun(s: State, wanted: bool, alive: bool): State {
    if wanted then Do(s, FseventsUp(alive)) else s
  }

  /** The grace sleep, then the proxy. */
  function ProxyUpRun(s: State, wanted: bool): State {
    if wanted then Do(Do(s, Sleep(5)), ProxyUp) else s
  }

  /** The calls of `start_services` before its status report, for given decisions. */
  function StartChain(s: State, o: Oracle, fsevents: bool, proxy: bool): State {
    var mounted := MountRun(Do(Do(s, MachineUp), UnfsUp(o.unfsUp)), o.nfsReady);
    var named := Do(FseventsUpRun(mounted, fsevents, o.fseventsUp), DnsUp(o.dnsUp));
    Do(ProxyUpRun(named, proxy), PrefsUpdate(StartDelta(proxy)))
  }

  /**
   * The two decisions read the preferences as loaded at the start of the
   * invocation; nothing before them changes the preferences.
   */
  function StartCallsRun(s: State, opts: Dict, o: Oracle): State {
    StartChain(s, o, FseventsWanted(s.world.prefs, opts), ProxyWanted(s.world.prefs, opts))
  }

  /** `start_services`: the start calls, then `status`. */
  function StartServicesRun(s: State, opts: Dict, o: Oracle): State {
    StatusRun(StartCallsRun(s, opts, o))
  }

  /**
   * The create options of lines 51-52: the persisted ones overridden key by
   * key by the command line, then `provider` translated.
   */
  function CreateOptions(prefs: Dict, opts: Dict, translate: Value -> Value): Dict {
    var merged := Merge(PersistedCreate(prefs), opts);
    merged[PROVIDER_KEY := translate(Lookup(merged, PROVIDER_KEY))]
  }

  function CreateRun(s: State, opts: Dict, o: Oracle): Outcome {
    if s.world.created then Outcome(Do(s, Say(VmAlreadyExists)), Exit1)
    else
      var options := CreateOptions(s.world.prefs, opts, o.translate);
      if options[PROVIDER_KEY] == Nil then Outcome(Do(s, Say(InvalidProvider)), Exit1)
      else
        var created := Do(Do(s, Say(CreatingVm)), MachineCreate(options));
        var started := StartServicesRun(created, opts, o);
        Outcome(Do(started, PrefsUpdate(map[CREATE_KEY := Hash(options)])), Ok)
  }

  /** `vm_must_exist!` */
  function VmMustExistRun(s: State): Outcome {
    if s.world.created then Outcome(s, Ok) else Outcome(Do(s, Say(VmMissing)), Exit1)
  }

  function UpRun(s: State, opts: Dict, o: Oracle): Outcome {
    var guard := VmMustExistRun(s);
    if guard.exit == Exit1 then guard
    else if s.world.running then Outcome(Do(s, Say(VmAlreadyRunning)), Exit1)
    else Outcome(StartServicesRun(Do(s, Say(StartingVm)), opts, o), Ok)
  }

  function HaltRun(s: State): Outcome {
    var guard := VmMustExistRun(s);
    if guard.exit == Exit1 then guard
    else Outcome(Do(Do(Do(Do(Do(s, FseventsHalt), Say(StoppingVm)), MachineHalt), UnfsHalt), DnsHalt), Ok)
  }

  function RestartRun(s: State, opts: Dict, o: Oracle): Outcome {
    var halt := HaltRun(s);
    if halt.exit == Exit1 then halt else UpRun(halt.state, opts, o)
  }

  /** `machine.destroy(force: options[:force])`, with nil read as false. */
  function DestroyRun(s: State, opts: Dict, o: Oracle): Outcome {
    var halt := HaltRun(s);
    if halt.exit == Exit1 then halt
    else Outcome(Do(halt.state, MachineDestroy(Truthy(Lookup(opts, FORCE_FLAG)), o.destroyConfirmed)), Ok)
  }

  function IpRun(s: State): Outcome {
    var guard := VmMustExistRun(s);
    if guard.exit == Exit1 then guard
    else if s.world.running then Outcome(Do(s, ShowIp), Ok)
    else Outcome(Do(s, Say(VmNotRunning)), Exit1)
  }

  /** The internal `nfs` command, with the port already parsed. */
  function NfsRun(s: State, o: Oracle, command: string, port: int, hostIp: string): State {
    if !o.isRoot then Do(s, Say(NfsNeedsRoot))
    else
      var configured := Do(s, UnfsConfigure(port, hostIp));
      if command == "start" then Do(configured, UnfsUp(o.unfsUp))
      else if command == "stop" then Do(configured, UnfsHalt)
      else Do(configured, Say(UnknownNfsCommand(command)))
  }

  /** One invocation of the command line: the options Thor parsed, over an environment. */
  class DinghyCli {
    const env: Environment
    const options: Dict
    const oracle: Oracle

    constructor (env: Environment, options: Dict, oracle: Oracle)
      ensures this.env == env && this.options == options && this.oracle == oracle
    {
      this.env := env;
      this.options := options;
      this.oracle := oracle;
    }

    method Create() returns (code: Exit)
      modifies env
      ensures env.Snapshot() == CreateRun(old(env.Snapshot()), options, oracle).state
      ensures code == CreateRun(old(env.Snapshot()), options, oracle).exit
    {
      if env.world.created {
        env.Perform(Say(VmAlreadyExists));
        return Exit1;
      }
      var createOptions := Merge(PersistedCreate(env.world.prefs), options);
      createOptions := createOptions[PROVIDER_KEY := oracle.translate(Lookup(createOptions, PROVIDER_KEY))];
      if createOptions[PROVIDER_KEY] == Nil {
        env.Perform(Say(InvalidProvider));
        return Exit1;
      }
      env.Perform(Say(CreatingVm));
      env.Perform(MachineCreate(createOptions));
      StartServices();
      env.Perform(PrefsUpdate(map[CREATE_KEY := Hash(createOptions)]));
      code := Ok;
    }

    method Up() returns (code: Exit)
      modifies env
      ensures env.Snapshot() == UpRun(old(env.Snapshot()), options, oracle).state
      ensures code == UpRun(old(env.Snapshot()), options, oracle).exit
    {
      code := VmMustExist();
      if code == Exit1 {
        return;
      }
      if env.world.running {
        env.Perform(Say(VmAlreadyRunning));
        return Exit1;
      }
      env.Perform(Say(StartingVm));
      StartServices();
    }

    method Status()
      modifies env
      ensures env.Snapshot() == StatusRun(old(env.Snapshot()))
    {
      ghost var start := env.Snapshot();
      var w := env.world;
      env.Perform(Report(STATUS_LABELS[0], w.running));
      env.Perform(Report(STATUS_LABELS[1], w.unfs));
      env.Perform(Report(STATUS_LABELS[2], w.fsevents));
      env.Perform(Report(STATUS_LABELS[3], w.dns));
      env.Perform(Report(STATUS_LABELS[4], w.proxy));
      assert env.Snapshot() == ReportRun(start);
      if !env.world.running {
        return;
      }
      ghost var reported := env.Snapshot();
      var i := 0;
      while i < |CHECKED_DAEMONS|
        invariant 0 <= i <= |CHECKED_DAEMONS|
        invariant env.Snapshot() == FailureNotices(reported, CHECKED_DAEMONS[..i])
      {
        var daemon := CHECKED_DAEMONS[i];
        assert CHECKED_DAEMONS[..i + 1][..i] == CHECKED_DAEMONS[..i];
        if !Alive(env.world, daemon) {
          env.Perform(FailedToRun(daemon));
        }
        i := i + 1;
      }
      assert CHECKED_DAEMONS[..i] == CHECKED_DAEMONS;
      env.Perform(Say(Blank));
      env.Perform(CheckEnvRun);
    }

    method Halt() returns (code: Exit)
      modifies env
      ensures env.Snapshot() == HaltRun(old(env.Snapshot())).state
      ensures code == HaltRun(old(env.Snapshot())).exit
    {
      code := VmMustExist();
      if code == Exit1 {
        return;
      }
      env.Perform(FseventsHalt);
      env.Perform(Say(StoppingVm));
      env.Perform(MachineHalt);
      env.Perform(UnfsHalt);
      env.Perform(DnsHalt);
    }

    method Restart() returns (code: Exit)
      modifies env
      ensures env.Snapshot() == RestartRun(old(env.Snapshot()), options, oracle).state
      ensures code == RestartRun(old(env.Snapshot()), options, oracle).exit
    {
      code := Halt();
      if code == Exit1 {
        return;
      }
      code := Up();
    }

    method Destroy() returns (code: Exit)
      modifies env
      ensures env.Snapshot() == DestroyRun(old(env.Snapshot()), options, oracle).state
      ensures code == DestroyRun(old(env.Snapshot()), options, oracle).exit
    {
      code := Halt();
      if code == Exit1 {
        return;
      }
      env.Perform(MachineDestroy(Truthy(Lookup(options, FORCE_FLAG)), oracle.destroyConfirmed));
    }

    method Ip() returns (code: Exit)
      modifies env
      ensures env.Snapshot() == IpRun(old(env.Snapshot())).state
      ensures code == IpRun(old(env.Snapshot())).exit
    {
      code := VmMustExist();
      if code == Exit1 {
        return;
      }
      if env.world.running {
        env.Perform(ShowIp);
      } else {
        env.Perform(Say(VmNotRunning));
        code := Exit1;
      }
    }

    method Nfs(command: string, port: int, hostIp: string)
      modifies env
      ensures env.Snapshot() == NfsRun(old(env.Snapshot()), oracle, command, port, hostIp)
    {
      if !oracle.isRoot {
        env.Perform(Say(NfsNeedsRoot));
        return;
      }
      env.Perform(UnfsConfigure(port, hostIp));
      if command == "start" {
        env.Perform(UnfsUp(oracle.unfsUp));
      } else if command == "stop" {
        env.Perform(UnfsHalt);
      } else {
        env.Perform(Say(UnknownNfsCommand(command)));
      }
    }

    method VmMustExist() returns (code: Exit)
      modifies env
      ensures env.Snapshot() == VmMustExistRun(old(env.Snapshot())).state
      ensures code == VmMustExistRun(old(env.Snapshot())).exit
    {
      if !env.world.created {
        env.Perform(Say(VmMissing));
        return Exit1;
      }
      code := Ok;
    }

    method StartServices()
      modifies env
      ensures env.Snapshot() == StartServicesRun(old(env.Snapshot()), options, oracle)
    {
      ghost var start := env.Snapshot();
      var prefs := env.world.prefs;
      env.Perform(MachineUp);
      env.Perform(UnfsUp(oracle.unfsUp));
      if oracle.nfsReady {
        env.Perform(Mount);
      } else {
        env.Perform(Say(NfsMountFailed));
      }
      ghost var mounted := env.Snapshot();
      var useFsevents := Enabled(Lookup(options, FSEVENTS_FLAG), FseventsDisabled(prefs));
      if useFsevents {
        env.Perform(FseventsUp(oracle.fseventsUp));
      }
      assert env.Snapshot() == FseventsUpRun(mounted, useFsevents, oracle.fseventsUp);
      env.Perform(DnsUp(oracle.dnsUp));
      ghost var named := env.Snapshot();
      var proxy := Enabled(Lookup(options, PROXY_FLAG), ProxyDisabled(prefs));
      if proxy {
        env.Perform(Sleep(5));
        env.Perform(ProxyUp);
      }
      assert env.Snapshot() == ProxyUpRun(named, proxy);
      env.Perform(PrefsUpdate(StartDelta(proxy)));
      assert env.Snapshot() == StartCallsRun(start, options, oracle);
      Status();
    }
  }
}
