/**
 * The collaborators of the command layer (the docker-machine VM, the NFS,
 * DNS, FS-event and HTTP-proxy daemons, the preference file, `CheckEnv`)
 * seen only through what the command layer asks of them. Their combined
 * state is a `World`; every call the command layer makes, and every line it
 * prints, is an `Event` appended to a trace, and `Step` gives each event's
 * effect on the world.
 */
module Collaborators {
  import opened RubyValues
  import opened Preferences

  datatype Daemon = Unfs | Dns | Fsevents | HttpProxy

  /** VM existence and liveness, one liveness flag per daemon, and the persisted preferences. */
  datatype World = World(
    created: bool,
    running: bool,
    unfs: bool,
    dns: bool,
    fsevents: bool,
    proxy: bool,
    prefs: Dict)

  /** `daemon.running?` */
  function Alive(w: World, d: Daemon): bool {
    match d
    case Unfs => w.unfs
    case Dns => w.dns
    case Fsevents => w.fsevents
    case HttpProxy => w.proxy
  }

  /** The messages the command layer prints, apart from the status report. */
  datatype Message =
    | VmAlreadyExists
    | InvalidProvider
    | CreatingVm
    | VmMissing
    | VmAlreadyRunning
    | StartingVm
    | NfsMountFailed
    | StoppingVm
    | VmNotRunning
    | NfsNeedsRoot
    | UnknownNfsCommand(command: string)
    | Blank

  /** `$stderr.puts` or `puts`. */
  datatype Channel = Stdout | Stderr

  /** Where each message goes: the refusals and the `nfs` errors to standard error, the progress lines to standard output. */
  function ChannelOf(m: Message): Channel {
    match m
    case CreatingVm | StartingVm | NfsMountFailed | StoppingVm | Blank => Stdout
    case _ => Stderr
  }

  datatype Event =
    // calls on the collaborators
    | MachineCreate(options: Dict)
    | MachineUp
    | Mount
    | MachineHalt
    | MachineDestroy(force: bool, confirmed: bool)
    | UnfsConfigure(port: int, hostIp: string)
    // a start records whether its daemon is running afterwards
    | UnfsUp(alive: bool)
    | UnfsHalt
    | FseventsUp(alive: bool)
    | FseventsHalt
    | DnsUp(alive: bool)
    | DnsHalt
    | Sleep(seconds: nat)
    | ProxyUp
    | ProxyHalt
    | PrefsUpdate(delta: Dict)
    // output only
    | Report(title: string, up: bool)
    | FailedToRun(daemon: Daemon)
    | CheckEnvRun
    | ShowIp
    | Say(message: Message)

  /** Printed output, including `CheckEnv#run`, which only inspects and prints. */
  predicate IsOutput(e: Event) {
    e.Report? || e.FailedToRun? || e.CheckEnvRun? || e.ShowIp? || e.Say?
  }

  /**
   * The effect of one event. A daemon start leaves the daemon running or not
   * as it reports; a stop always leaves it stopped. The HTTP proxy is a
   * container inside the VM, so stopping or deleting the VM ends it too.
   * Destroying deletes the VM when forced or when the confirmation prompt is
   * accepted; a preference update is a shallow merge.
   */
  function Step(w: World, e: Event): World {
    var deleted := e.MachineDestroy? && (e.force || e.confirmed);
    World(
      created := if e.MachineCreate? then true else if deleted then false else w.created,
      running := if e.MachineUp? then true else if e.MachineHalt? || deleted then false else w.running,
      unfs := if e.UnfsUp? then e.alive else if e.UnfsHalt? then false else w.unfs,
      dns := if e.DnsUp? then e.alive else if e.DnsHalt? then false else w.dns,
      fsevents := if e.FseventsUp? then e.alive else if e.FseventsHalt? then false else w.fsevents,
      proxy := if e.ProxyUp? then true else if e.ProxyHalt? || e.MachineHalt? || deleted then false else w.proxy,
      prefs := if e.PrefsUpdate? then Merge(w.prefs, e.delta) else w.prefs)
  }

  /** The world together with the trace of one invocation so far. */
  datatype State = State(world: World, trace: seq<Event>)

  /** Making one call, or printing one line: its effect on the world, recorded in the trace. */
  function Do(s: State, e: Event): State {
    State(Step(s.world, e), s.trace + [e])
  }

  /**
   * The collaborators' state as the command layer changes it: the current
   * world and the trace of everything done and printed since the invocation began.
   */
  class Environment {
    var world: World
    var trace: seq<Event>

    function Snapshot(): State
      reads this
    {
      State(world, trace)
    }

    constructor (w: World)
      ensures Snapshot() == State(w, [])
    {
      world := w;
      trace := [];
    }

    /** One call on a collaborator, or one printed line. */
    method Perform(e: Event)
      modifies this
      ensures Snapshot() == Do(old(Snapshot()), e)
    {
      world := Step(world, e);
      trace := trace + [e];
    }
  }
}
