/**
 * What the commands of `DinghyCLI` guarantee, proved about the
 * specification functions of module `Cli` (and hence about the methods of
 * `DinghyCli`): each command's guards, the exact calls and lines it
 * produces in order, and the world it leaves behind, stated against
 * reference definitions written independently of the command chains.
 */
module CliProperties {
  import opened RubyValues
  import opened Preferences
  import opened Collaborators
  import opened Cli

  // ---------------------------------------------------------------- status

  /** A daemon's position in the status checks, the unchecked HTTP proxy last. */
  function Rank(d: Daemon): nat {
    match d
    case Unfs => 0
    case Dns => 1
    case Fsevents => 2
    case HttpProxy => 3
  }

  /** The five labelled lines `status` always prints, in this order. */
  function ReportLines(w: World): seq<Event> {
    [ Report("  VM:", w.running), Report(" NFS:", w.unfs), Report("FSEV:", w.fsevents),
      Report(" DNS:", w.dns), Report("HTTP:", w.proxy) ]
  }

  /** A notice for each of NFS, DNS and the FS-event forwarder that is not running, in that order. */
  function FailureLines(w: World): seq<Event> {
    (if w.unfs then [] else [FailedToRun(Unfs)])
    + (if w.dns then [] else [FailedToRun(Dns)])
    + (if w.fsevents then [] else [FailedToRun(Fsevents)])
  }

  /**
   * The status report as a whole: the labelled lines, then, only on a
   * running VM, the failure notices, a blank line and the environment check.
   */
  function StatusLines(w: World): seq<Event> {
    ReportLines(w) + if w.running then FailureLines(w) + [Say(Blank), CheckEnvRun] else []
  }

  /** The layout of the report: which lines appear, and where. */
  lemma StatusLayout(w: World)
    ensures var r := StatusLines(w);
      && |r| >= 5
      && (forall i :: 0 <= i < 5 ==> r[i].Report? && r[i].title == STATUS_LABELS[i])
      && r[0].up == w.running && r[1].up == w.unfs && r[2].up == w.fsevents
      && r[3].up == w.dns && r[4].up == w.proxy
      && (forall i :: 5 <= i < |r| ==> !r[i].Report?)
      && (forall i :: 0 <= i < |r| ==> IsOutput(r[i]))
      && (!w.running <==> |r| == 5)
      && (w.running ==> r[|r| - 1] == CheckEnvRun)
  {
    var r := StatusLines(w);
    assert r[..5] == ReportLines(w);
    if w.running {
      assert r[5..] == FailureLines(w) + [Say(Blank), CheckEnvRun];
    }
  }

  /**
   * Exactly the checked daemons that are down get a notice, the HTTP proxy
   * never does, and the notices come in the order NFS, DNS, FS events.
   */
  lemma FailureLinesExact(w: World)
    ensures forall d :: FailedToRun(d) in FailureLines(w) <==> d != HttpProxy && !Alive(w, d)
    ensures forall i :: 0 <= i < |FailureLines(w)| ==> FailureLines(w)[i].FailedToRun?
    ensures forall i, j :: 0 <= i < j < |FailureLines(w)| ==>
      Rank(FailureLines(w)[i].daemon) < Rank(FailureLines(w)[j].daemon)
  {
  }

  /** The notices of the `each` loop over `ds`, as a sequence of lines. */
  function Notices(w: World, ds: seq<Daemon>): seq<Event>
    decreases |ds|
  {
    if ds == [] then []
    else Notices(w, ds[..|ds| - 1]) + (if Alive(w, ds[|ds| - 1]) then [] else [FailedToRun(ds[|ds| - 1])])
  }

  /** The `each` loop only prints: it appends its notices and leaves the world alone. */
  lemma {:induction false} FailureNoticesLines(s: State, ds: seq<Daemon>)
    ensures FailureNotices(s, ds) == State(s.world, s.trace + Notices(s.world, ds))
    decreases |ds|
  {
    if ds != [] {
      FailureNoticesLines(s, ds[..|ds| - 1]);
    }
  }

  lemma CheckedNotices(w: World)
    ensures Notices(w, CHECKED_DAEMONS) == FailureLines(w)
  {
    var ds := CHECKED_DAEMONS;
    assert ds[..3] == ds && ds[..3][..2] == ds[..2] && ds[..2][..1] == ds[..1] && ds[..1][..0] == [];
    assert Notices(w, ds[..1]) == (if w.unfs then [] else [FailedToRun(Unfs)]);
    assert Notices(w, ds[..2]) == Notices(w, ds[..1]) + (if w.dns then [] else [FailedToRun(Dns)]);
  }

  /** The labelled lines only print. */
  lemma ReportsPrinted(s: State)
    ensures ReportRun(s) == State(s.world, s.trace + ReportLines(s.world))
  {
    var w := s.world;
    assert ReportRun(s).world == w;
    assert ReportRun(s).trace == s.trace + [ Report(STATUS_LABELS[0], w.running), Report(STATUS_LABELS[1], w.unfs),
      Report(STATUS_LABELS[2], w.fsevents), Report(STATUS_LABELS[3], w.dns), Report(STATUS_LABELS[4], w.proxy) ];
  }

  /** On a stopped VM the report is the labelled lines alone. */
  lemma StoppedStatus(s: State)
    requires !s.world.running
    ensures StatusRun(s) == State(s.world, s.trace + StatusLines(s.world))
  {
    ReportsPrinted(s);
  }

  lemma RunningStatusNotices(s: State)
    requires s.world.running
    ensures StatusRun(s)
      == Do(Do(State(s.world, s.trace + ReportLines(s.world) + FailureLines(s.world)), Say(Blank)), CheckEnvRun)
  {
    ReportsPrinted(s);
    FailureNoticesLines(State(s.world, s.trace + ReportLines(s.world)), CHECKED_DAEMONS);
    CheckedNotices(s.world);
  }

  lemma RunningStatusTail(w: World, t: seq<Event>)
    requires w.running
    ensures Do(Do(State(w, t + ReportLines(w) + FailureLines(w)), Say(Blank)), CheckEnvRun)
      == State(w, t + StatusLines(w))
  {
    assert t + ReportLines(w) + FailureLines(w) + [Say(Blank), CheckEnvRun] == t + StatusLines(w);
  }

  /**
   * On a running VM the report ends with the environment check and notices
   * exactly the checked daemons that are down.
   */
  lemma RunningReportNotices(w: World)
    requires w.running
    ensures var r := StatusLines(w);
      && r[|r| - 1] == CheckEnvRun
      && (forall d :: FailedToRun(d) in r <==> d != HttpProxy && !Alive(w, d))
  {
    var r := StatusLines(w);
    FailureLinesExact(w);
    assert r == ReportLines(w) + FailureLines(w) + [Say(Blank), CheckEnvRun];
    forall d
      ensures FailedToRun(d) in r <==> FailedToRun(d) in FailureLines(w)
    {
      assert FailedToRun(d) !in ReportLines(w);
    }
  }

  /** `status` prints exactly the report and changes nothing. */
  lemma StatusPrintsReport(s: State)
    ensures StatusRun(s) == State(s.world, s.trace + StatusLines(s.world))
  {
    if s.world.running {
      RunningStatusNotices(s);
      RunningStatusTail(s.world, s.trace);
    } else {
      StoppedStatus(s);
    }
  }

  // -------------------------------------------------------- start_services

  /**
   * The calls and lines of `start_services` before its status report: the
   * VM, then NFS, the mount or the mount warning, the FS-event forwarder
   * when enabled, DNS always, the grace sleep and the proxy when enabled,
   * then the preference update. Each daemon start carries whether the
   * daemon came up.
   */
  function StartLines(prefs: Dict, opts: Dict, o: Oracle): seq<Event> {
    var proxy := ProxyWanted(prefs, opts);
    [MachineUp, UnfsUp(o.unfsUp), if o.nfsReady then Mount else Say(NfsMountFailed)]
    + (if FseventsWanted(prefs, opts) then [FseventsUp(o.fseventsUp)] else [])
    + [DnsUp(o.dnsUp)]
    + (if proxy then [Sleep(5), ProxyUp] else [])
    + [PrefsUpdate(StartDelta(proxy))]
  }

  /**
   * The world `start_services` leaves: the VM running; NFS and DNS running
   * exactly when they came up; the forwarder as it came up when enabled and
   * as it was otherwise; the proxy running when enabled or already up; and
   * the start-up choices merged into the preferences.
   */
  function StartedWorld(w: World, opts: Dict, o: Oracle): World {
    var proxy := ProxyWanted(w.prefs, opts);
    w.(running := true, unfs := o.unfsUp, dns := o.dnsUp,
       fsevents := if FseventsWanted(w.prefs, opts) then o.fseventsUp else w.fsevents,
       proxy := w.proxy || proxy,
       prefs := Merge(w.prefs, StartDelta(proxy)))
  }

  /**
   * The two start decisions: an explicit flag decides whatever the
   * preferences say; without a flag the persisted switch decides.
   */
  lemma StartDecisions(prefs: Dict, other: Dict, opts: Dict)
    ensures Lookup(opts, FSEVENTS_FLAG) != Nil ==> FseventsWanted(prefs, opts) == FseventsWanted(other, opts)
    ensures Lookup(opts, PROXY_FLAG) != Nil ==> ProxyWanted(prefs, opts) == ProxyWanted(other, opts)
    ensures Lookup(opts, FSEVENTS_FLAG) == Nil ==> (FseventsWanted(prefs, opts) <==> !FseventsDisabled(prefs))
    ensures Lookup(opts, PROXY_FLAG) == Nil ==> (ProxyWanted(prefs, opts) <==> !ProxyDisabled(prefs))
  {
  }

  /** The update `start_services` persists: exactly the two switches, the proxy one negating the decision. */
  lemma StartDeltaWrites(proxy: bool)
    ensures StartDelta(proxy).Keys == {PROXY_DISABLED_KEY, FSEVENTS_DISABLED_KEY}
    ensures StartDelta(proxy)[PROXY_DISABLED_KEY] == Bool(!proxy)
    ensures StartDelta(proxy)[FSEVENTS_DISABLED_KEY] == Bool(false)
  {
  }

  /** The mount step only prints or mounts; neither changes the modelled world. */
  lemma MountStep(s: State, nfsReady: bool)
    ensures MountRun(s, nfsReady) == State(s.world, s.trace + [if nfsReady then Mount else Say(NfsMountFailed)])
  {
  }

  lemma FseventsStep(s: State, wanted: bool, alive: bool)
    ensures FseventsUpRun(s, wanted, alive)
      == State(s.world.(fsevents := if wanted then alive else s.world.fsevents),
               s.trace + if wanted then [FseventsUp(alive)] else [])
  {
  }

  lemma ProxyStep(s: State, wanted: bool)
    ensures ProxyUpRun(s, wanted)
      == State(s.world.(proxy := s.world.proxy || wanted), s.trace + if wanted then [Sleep(5), ProxyUp] else [])
  {
  }

  /** The VM and NFS starts. */
  lemma BootStep(s: State, alive: bool)
    ensures Do(Do(s, MachineUp), UnfsUp(alive))
      == State(s.world.(running := true, unfs := alive), s.trace + [MachineUp, UnfsUp(alive)])
  {
  }

  lemma DnsStep(s: State, alive: bool)
    ensures Do(s, DnsUp(alive)) == State(s.world.(dns := alive), s.trace + [DnsUp(alive)])
  {
  }

  lemma PrefsStep(s: State, d: Dict)
    ensures Do(s, PrefsUpdate(d)) == State(s.world.(prefs := Merge(s.world.prefs, d)), s.trace + [PrefsUpdate(d)])
  {
  }

  /** The world after the start calls, for given decisions. */
  lemma StartCallsWorldFor(s: State, o: Oracle, fsevents: bool, proxy: bool)
    ensures StartChain(s, o, fsevents, proxy).world
      == s.world.(running := true, unfs := o.unfsUp, dns := o.dnsUp,
                  fsevents := if fsevents then o.fseventsUp else s.world.fsevents,
                  proxy := s.world.proxy || proxy,
                  prefs := Merge(s.world.prefs, StartDelta(proxy)))
  {
    var booted := State(s.world.(running := true, unfs := o.unfsUp), s.trace + [MachineUp, UnfsUp(o.unfsUp)]);
    BootStep(s, o.unfsUp);
    var mounted := MountRun(booted, o.nfsReady);
    MountStep(booted, o.nfsReady);
    var forwarded := FseventsUpRun(mounted, fsevents, o.fseventsUp);
    FseventsStep(mounted, fsevents, o.fseventsUp);
    var named := Do(forwarded, DnsUp(o.dnsUp));
    DnsStep(forwarded, o.dnsUp);
    var proxied := ProxyUpRun(named, proxy);
    ProxyStep(named, proxy);
    PrefsStep(proxied, StartDelta(proxy));
  }

  /** The calls and lines of the start calls, for given decisions, appended one after another. */
  lemma StartChainAppends(s: State, o: Oracle, fsevents: bool, proxy: bool)
    ensures StartChain(s, o, fsevents, proxy).trace
      == s.trace + [MachineUp, UnfsUp(o.unfsUp), if o.nfsReady then Mount else Say(NfsMountFailed)]
         + (if fsevents then [FseventsUp(o.fseventsUp)] else []) + [DnsUp(o.dnsUp)]
         + (if proxy then [Sleep(5), ProxyUp] else []) + [PrefsUpdate(StartDelta(proxy))]
  {
    var m := if o.nfsReady then Mount else Say(NfsMountFailed);
    var booted := s.trace + [MachineUp, UnfsUp(o.unfsUp)];
    BootStep(s, o.unfsUp);
    var mounted := State(s.world.(running := true, unfs := o.unfsUp), booted + [m]);
    MountStep(State(mounted.world, booted), o.nfsReady);
    assert booted + [m] == s.trace + [MachineUp, UnfsUp(o.unfsUp), m];
    FseventsStep(mounted, fsevents, o.fseventsUp);
    var forwarded := FseventsUpRun(mounted, fsevents, o.fseventsUp);
    DnsStep(forwarded, o.dnsUp);
    ProxyStep(Do(forwarded, DnsUp(o.dnsUp)), proxy);
  }

  lemma AppendAssociates(t: seq<Event>, a: seq<Event>, b: seq<Event>, c: seq<Event>, d: seq<Event>, e: seq<Event>)
    ensures t + a + b + c + d + e == t + (a + b + c + d + e)
  {
  }

  /** The calls and lines of the start calls, for given decisions. */
  lemma StartCallsTraceFor(s: State, o: Oracle, fsevents: bool, proxy: bool)
    ensures StartChain(s, o, fsevents, proxy).trace
      == s.trace + ([MachineUp, UnfsUp(o.unfsUp), if o.nfsReady then Mount else Say(NfsMountFailed)]
         + (if fsevents then [FseventsUp(o.fseventsUp)] else []) + [DnsUp(o.dnsUp)]
         + (if proxy then [Sleep(5), ProxyUp] else []) + [PrefsUpdate(StartDelta(proxy))])
  {
    StartChainAppends(s, o, fsevents, proxy);
    AppendAssociates(s.trace, [MachineUp, UnfsUp(o.unfsUp), if o.nfsReady then Mount else Say(NfsMountFailed)],
      if fsevents then [FseventsUp(o.fseventsUp)] else [], [DnsUp(o.dnsUp)],
      if proxy then [Sleep(5), ProxyUp] else [], [PrefsUpdate(StartDelta(proxy))]);
  }

  lemma StartCallsWorld(s: State, opts: Dict, o: Oracle)
    ensures StartCallsRun(s, opts, o).world == StartedWorld(s.world, opts, o)
  {
    StartCallsWorldFor(s, o, FseventsWanted(s.world.prefs, opts), ProxyWanted(s.world.prefs, opts));
  }

  lemma StartCallsTrace(s: State, opts: Dict, o: Oracle)
    ensures StartCallsRun(s, opts, o).trace == s.trace + StartLines(s.world.prefs, opts, o)
  {
    StartCallsTraceFor(s, o, FseventsWanted(s.world.prefs, opts), ProxyWanted(s.world.prefs, opts));
  }

  lemma StartCalls(s: State, opts: Dict, o: Oracle)
    ensures StartCallsRun(s, opts, o) == State(StartedWorld(s.world, opts, o), s.trace + StartLines(s.world.prefs, opts, o))
  {
    StartCallsWorld(s, opts, o);
    StartCallsTrace(s, opts, o);
  }

  /** `start_services` makes exactly the start calls, then prints the report of the started world. */
  lemma StartServicesRuns(s: State, opts: Dict, o: Oracle)
    ensures var started := StartedWorld(s.world, opts, o);
      StartServicesRun(s, opts, o)
        == State(started, s.trace + StartLines(s.world.prefs, opts, o) + StatusLines(started))
  {
    StartCalls(s, opts, o);
    StatusPrintsReport(StartCallsRun(s, opts, o));
  }

  /**
   * What `start_services` persists: the resolved proxy choice, and
   * `fsevents_disabled` as `false` whatever was decided; every other
   * preference is kept.
   */
  lemma StartedWorldPrefs(w: World, opts: Dict, o: Oracle)
    ensures var p := StartedWorld(w, opts, o).prefs;
      && Lookup(p, PROXY_DISABLED_KEY) == Bool(!ProxyWanted(w.prefs, opts))
      && Lookup(p, FSEVENTS_DISABLED_KEY) == Bool(false)
      && (forall k :: k != PROXY_DISABLED_KEY && k != FSEVENTS_DISABLED_KEY ==> Lookup(p, k) == Lookup(w.prefs, k))
  {
    MergeOverrides(w.prefs, StartDelta(ProxyWanted(w.prefs, opts)));
  }

  /**
   * Because of what is persisted, the next start without flags enables the
   * FS-event forwarder even after `--no-fsevents`, while a proxy choice
   * sticks.
   */
  lemma NextStartDefaults(w: World, opts: Dict, o: Oracle)
    ensures var p := StartedWorld(w, opts, o).prefs;
      && FseventsWanted(p, map[])
      && ProxyWanted(p, map[]) == ProxyWanted(w.prefs, opts)
  {
    StartedWorldPrefs(w, opts, o);
  }

  /**
   * The report after the start calls notices exactly each checked daemon
   * that did not come up, and a forwarder that was left off because it
   * was not wanted and was not running before.
   */
  lemma StartedStatus(w: World, opts: Dict, o: Oracle)
    ensures var r := StatusLines(StartedWorld(w, opts, o));
      && r[|r| - 1] == CheckEnvRun
      && (forall d :: FailedToRun(d) in r <==>
            d != HttpProxy && !(if d == Fsevents && !FseventsWanted(w.prefs, opts) then w.fsevents else ComesUp(o, d)))
  {
    var started := StartedWorld(w, opts, o);
    RunningReportNotices(started);
    assert forall d :: d != HttpProxy ==>
      Alive(started, d) == if d == Fsevents && !FseventsWanted(w.prefs, opts) then w.fsevents else ComesUp(o, d);
  }

  // ------------------------------------------------------------ the guards

  /**
   * `vm_must_exist!`: without a VM, every command that needs one prints
   * the same message and exits 1 before making any call.
   */
  lemma MissingVmRefused(s: State, opts: Dict, o: Oracle)
    requires !s.world.created
    ensures var refused := Outcome(State(s.world, s.trace + [Say(VmMissing)]), Exit1);
      && UpRun(s, opts, o) == refused
      && HaltRun(s) == refused
      && RestartRun(s, opts, o) == refused
      && DestroyRun(s, opts, o) == refused
      && IpRun(s) == refused
  {
  }

  // ---------------------------------------------------------------- create

  lemma CreateRefusesExistingVm(s: State, opts: Dict, o: Oracle)
    requires s.world.created
    ensures CreateRun(s, opts, o) == Outcome(State(s.world, s.trace + [Say(VmAlreadyExists)]), Exit1)
  {
  }

  lemma CreateRefusesUnknownProvider(s: State, opts: Dict, o: Oracle)
    requires !s.world.created
    requires CreateOptions(s.world.prefs, opts, o.translate)[PROVIDER_KEY] == Nil
    ensures CreateRun(s, opts, o) == Outcome(State(s.world, s.trace + [Say(InvalidProvider)]), Exit1)
  {
  }

  /** The create options: every command-line option wins, the persisted ones fill in, and the provider is translated. */
  lemma CreateOptionsMerge(prefs: Dict, opts: Dict, translate: Value -> Value)
    ensures var r := CreateOptions(prefs, opts, translate);
      && r.Keys == PersistedCreate(prefs).Keys + opts.Keys + {PROVIDER_KEY}
      && r[PROVIDER_KEY] == translate(if PROVIDER_KEY in opts then opts[PROVIDER_KEY] else Lookup(PersistedCreate(prefs), PROVIDER_KEY))
      && (forall k :: k != PROVIDER_KEY ==>
            Lookup(r, k) == if k in opts then opts[k] else Lookup(PersistedCreate(prefs), k))
  {
    MergeOverrides(PersistedCreate(prefs), opts);
  }

  /** Building the VM marks it created and changes nothing else. */
  lemma VmBuilt(s: State, options: Dict)
    ensures Do(Do(s, Say(CreatingVm)), MachineCreate(options))
      == State(s.world.(created := true), s.trace + [Say(CreatingVm), MachineCreate(options)])
  {
  }

  /** A successful `create`: the two lines, the VM build, the start, then the options recorded. */
  lemma CreateRunsStart(s: State, opts: Dict, o: Oracle)
    requires !s.world.created
    requires CreateOptions(s.world.prefs, opts, o.translate)[PROVIDER_KEY] != Nil
    ensures var options := CreateOptions(s.world.prefs, opts, o.translate);
      var created := State(s.world.(created := true), s.trace + [Say(CreatingVm), MachineCreate(options)]);
      CreateRun(s, opts, o)
        == Outcome(Do(StartServicesRun(created, opts, o), PrefsUpdate(map[CREATE_KEY := Hash(options)])), Ok)
  {
    VmBuilt(s, CreateOptions(s.world.prefs, opts, o.translate));
  }

  /**
   * A successful `create` builds the VM with the merged options, runs the
   * whole start, and only then records the options.
   */
  lemma CreateBuildsAndStarts(s: State, opts: Dict, o: Oracle)
    requires !s.world.created
    requires CreateOptions(s.world.prefs, opts, o.translate)[PROVIDER_KEY] != Nil
    ensures var options := CreateOptions(s.world.prefs, opts, o.translate);
      var started := StartedWorld(s.world.(created := true), opts, o);
      var delta := map[CREATE_KEY := Hash(options)];
      CreateRun(s, opts, o) == Outcome(
        State(started.(prefs := Merge(started.prefs, delta)),
          s.trace + [Say(CreatingVm), MachineCreate(options)] + StartLines(s.world.prefs, opts, o)
            + StatusLines(started) + [PrefsUpdate(delta)]),
        Ok)
  {
    var options := CreateOptions(s.world.prefs, opts, o.translate);
    var created := State(s.world.(created := true), s.trace + [Say(CreatingVm), MachineCreate(options)]);
    CreateRunsStart(s, opts, o);
    StartServicesRuns(created, opts, o);
  }

  lemma CreatedWorld(s: State, opts: Dict, o: Oracle)
    requires !s.world.created
    requires CreateOptions(s.world.prefs, opts, o.translate)[PROVIDER_KEY] != Nil
    ensures var started := StartedWorld(s.world.(created := true), opts, o);
      CreateRun(s, opts, o).state.world
        == started.(prefs := Merge(started.prefs, map[CREATE_KEY := Hash(CreateOptions(s.world.prefs, opts, o.translate))]))
  {
    CreateBuildsAndStarts(s, opts, o);
  }

  /** Preferences whose create entry holds `options` give back `options` on a `create` without flags, the provider translated again. */
  lemma CreateOptionsReadBack(prefs: Dict, options: Dict, translate: Value -> Value)
    requires Lookup(prefs, CREATE_KEY) == Hash(options)
    ensures PersistedCreate(prefs) == options
    ensures forall k :: k != PROVIDER_KEY ==> Lookup(CreateOptions(prefs, map[], translate), k) == Lookup(options, k)
  {
    CreateOptionsMerge(prefs, map[], translate);
  }

  /**
   * The options recorded by `create` are read back as the persisted create
   * options: a later `create` without flags uses the same options, apart
   * from the provider, which it translates again.
   */
  lemma CreateRemembersOptions(s: State, opts: Dict, o: Oracle)
    requires !s.world.created
    requires CreateOptions(s.world.prefs, opts, o.translate)[PROVIDER_KEY] != Nil
    ensures var options := CreateOptions(s.world.prefs, opts, o.translate);
      var w := CreateRun(s, opts, o).state.world;
      && w.created && w.running
      && PersistedCreate(w.prefs) == options
      && (forall k :: k != PROVIDER_KEY ==> Lookup(CreateOptions(w.prefs, map[], o.translate), k) == Lookup(options, k))
  {
    var options := CreateOptions(s.world.prefs, opts, o.translate);
    CreatedWorld(s, opts, o);
    var started := StartedWorld(s.world.(created := true), opts, o);
    var p := Merge(started.prefs, map[CREATE_KEY := Hash(options)]);
    assert Lookup(p, CREATE_KEY) == Hash(options);
    CreateOptionsReadBack(p, options, o.translate);
  }

  // -------------------------------------------------------------------- up

  lemma UpRefusesRunningVm(s: State, opts: Dict, o: Oracle)
    requires s.world.created && s.world.running
    ensures UpRun(s, opts, o) == Outcome(State(s.world, s.trace + [Say(VmAlreadyRunning)]), Exit1)
  {
  }

  /** `up` on a stopped VM passes both guards and announces the start. */
  lemma UpPassesGuards(s: State, opts: Dict, o: Oracle)
    requires s.world.created && !s.world.running
    ensures UpRun(s, opts, o) == Outcome(StartServicesRun(State(s.world, s.trace + [Say(StartingVm)]), opts, o), Ok)
  {
    SayStep(s, StartingVm);
  }

  /** A message only prints. */
  lemma SayStep(s: State, m: Message)
    ensures Do(s, Say(m)) == State(s.world, s.trace + [Say(m)])
  {
  }

  lemma UpStartsServices(s: State, opts: Dict, o: Oracle)
    requires s.world.created && !s.world.running
    ensures var started := StartedWorld(s.world, opts, o);
      UpRun(s, opts, o) == Outcome(
        State(started, s.trace + [Say(StartingVm)] + StartLines(s.world.prefs, opts, o) + StatusLines(started)),
        Ok)
  {
    UpPassesGuards(s, opts, o);
    StartServicesRuns(State(s.world, s.trace + [Say(StartingVm)]), opts, o);
  }

  /** A second `up` in a row is refused and changes nothing. */
  lemma UpTwiceRefused(s: State, opts: Dict, o: Oracle)
    requires s.world.created && !s.world.running
    ensures var first := UpRun(s, opts, o).state;
      && UpRun(first, opts, o).exit == Exit1
      && UpRun(first, opts, o).state.world == first.world
  {
    UpStartsServices(s, opts, o);
  }

  // ------------------------------------------------------ halt and restart

  /** The calls and lines of a halt: the forwarder first, then the VM, NFS and DNS; never the proxy itself. */
  function HaltLines(): seq<Event> {
    [FseventsHalt, Say(StoppingVm), MachineHalt, UnfsHalt, DnsHalt]
  }

  /** The VM and every daemon stopped, the proxy with the VM it runs in; the VM itself and the preferences kept. */
  function HaltedWorld(w: World): World {
    w.(running := false, unfs := false, dns := false, fsevents := false, proxy := false)
  }

  lemma HaltStopsServices(s: State)
    requires s.world.created
    ensures HaltRun(s) == Outcome(State(HaltedWorld(s.world), s.trace + HaltLines()), Ok)
  {
  }

  /** `restart` on an existing VM always reaches the full start: the halt clears the `up` guard. */
  lemma RestartIsHaltThenUp(s: State, opts: Dict, o: Oracle)
    requires s.world.created
    ensures var started := StartedWorld(HaltedWorld(s.world), opts, o);
      RestartRun(s, opts, o) == Outcome(
        State(started, s.trace + HaltLines() + [Say(StartingVm)] + StartLines(s.world.prefs, opts, o)
          + StatusLines(started)),
        Ok)
  {
    var halted := State(HaltedWorld(s.world), s.trace + HaltLines());
    HaltStopsServices(s);
    UpStartsServices(halted, opts, o);
  }

  // --------------------------------------------------------------- destroy

  /**
   * `destroy` halts first, then asks the VM to delete itself; it is gone
   * afterwards exactly when `--force` was given or the prompt was accepted.
   */
  lemma DestroyHaltsThenDeletes(s: State, opts: Dict, o: Oracle)
    requires s.world.created
    ensures var force := Truthy(Lookup(opts, FORCE_FLAG));
      var r := DestroyRun(s, opts, o);
      && r.exit == Ok
      && r.state.trace == s.trace + HaltLines() + [MachineDestroy(force, o.destroyConfirmed)]
      && (r.state.world.created <==> !force && !o.destroyConfirmed)
      && r.state.world == HaltedWorld(s.world).(created := r.state.world.created)
  {
    HaltStopsServices(s);
  }

  // -------------------------------------------------------------- ip, nfs

  /** `ip` succeeds exactly on a running VM, and only prints. */
  lemma IpNeedsRunningVm(s: State)
    ensures var r := IpRun(s);
      && (r.exit == Ok <==> s.world.created && s.world.running)
      && r.state.world == s.world
      && r.state.trace == s.trace + [
        if !s.world.created then Say(VmMissing)
        else if s.world.running then ShowIp
        else Say(VmNotRunning)]
  {
  }

  /**
   * The internal `nfs` command: without root it only prints; as root it
   * sets the port and host, then starts, stops or leaves NFS alone.
   */
  lemma NfsControlsNfsDaemon(s: State, o: Oracle, command: string, port: int, hostIp: string)
    ensures var r := NfsRun(s, o, command, port, hostIp);
      && (!o.isRoot ==> r == State(s.world, s.trace + [Say(NfsNeedsRoot)]))
      && (o.isRoot ==> r.trace == s.trace + [UnfsConfigure(port, hostIp),
            if command == "start" then UnfsUp(o.unfsUp)
            else if command == "stop" then UnfsHalt
            else Say(UnknownNfsCommand(command))])
      && (o.isRoot ==> r.world == s.world.(unfs :=
            if command == "start" then o.unfsUp else if command == "stop" then false else s.world.unfs))
  {
  }

  // ----------------------------------------------------------------- proxy
  //
  // Each lemma below starts from an invocation in which the proxy has not
  // been halted so far (a fresh invocation has an empty trace) and shows
  // that the command does not halt it either.

  lemma ReportHasNoProxyHalt(w: World)
    ensures ProxyHalt !in StatusLines(w)
  {
    StatusLayout(w);
  }

  lemma StartHasNoProxyHalt(prefs: Dict, opts: Dict, o: Oracle)
    ensures ProxyHalt !in StartLines(prefs, opts, o)
  {
  }

  lemma StatusDoesNotHaltProxy(s: State)
    requires ProxyHalt !in s.trace
    ensures ProxyHalt !in StatusRun(s).trace
  {
    StatusPrintsReport(s);
    ReportHasNoProxyHalt(s.world);
  }

  lemma IpDoesNotHaltProxy(s: State)
    requires ProxyHalt !in s.trace
    ensures ProxyHalt !in IpRun(s).state.trace
  {
    IpNeedsRunningVm(s);
  }

  lemma UpDoesNotHaltProxy(s: State, opts: Dict, o: Oracle)
    requires ProxyHalt !in s.trace
    ensures ProxyHalt !in UpRun(s, opts, o).state.trace
  {
    if !s.world.created {
      MissingVmRefused(s, opts, o);
    } else if s.world.running {
      UpRefusesRunningVm(s, opts, o);
    } else {
      UpStartsServices(s, opts, o);
      StartHasNoProxyHalt(s.world.prefs, opts, o);
      ReportHasNoProxyHalt(StartedWorld(s.world, opts, o));
    }
  }

  lemma HaltDoesNotHaltProxy(s: State)
    requires ProxyHalt !in s.trace
    ensures ProxyHalt !in HaltRun(s).state.trace
  {
    if s.world.created {
      HaltStopsServices(s);
    }
  }

  lemma NotInFour(t: seq<Event>, a: seq<Event>, b: seq<Event>, c: seq<Event>, d: seq<Event>)
    requires ProxyHalt !in t && ProxyHalt !in a && ProxyHalt !in b && ProxyHalt !in c && ProxyHalt !in d
    ensures ProxyHalt !in t + a + b + c + d
  {
  }

  lemma RestartLinesHaveNoProxyHalt(s: State, opts: Dict, o: Oracle)
    requires ProxyHalt !in s.trace
    ensures var started := StartedWorld(HaltedWorld(s.world), opts, o);
      ProxyHalt !in s.trace + HaltLines() + [Say(StartingVm)] + StartLines(s.world.prefs, opts, o) + StatusLines(started)
  {
    var started := StartedWorld(HaltedWorld(s.world), opts, o);
    StartHasNoProxyHalt(s.world.prefs, opts, o);
    ReportHasNoProxyHalt(started);
    NotInFour(s.trace, HaltLines(), [Say(StartingVm)], StartLines(s.world.prefs, opts, o), StatusLines(started));
  }

  lemma RestartDoesNotHaltProxy(s: State, opts: Dict, o: Oracle)
    requires ProxyHalt !in s.trace
    ensures ProxyHalt !in RestartRun(s, opts, o).state.trace
  {
    if s.world.created {
      RestartIsHaltThenUp(s, opts, o);
      RestartLinesHaveNoProxyHalt(s, opts, o);
    }
  }

  lemma DestroyDoesNotHaltProxy(s: State, opts: Dict, o: Oracle)
    requires ProxyHalt !in s.trace
    ensures ProxyHalt !in DestroyRun(s, opts, o).state.trace
  {
    if s.world.created {
      DestroyHaltsThenDeletes(s, opts, o);
    }
  }

  lemma NfsDoesNotHaltProxy(s: State, o: Oracle, command: string, port: int, hostIp: string)
    requires ProxyHalt !in s.trace
    ensures ProxyHalt !in NfsRun(s, o, command, port, hostIp).trace
  {
    NfsControlsNfsDaemon(s, o, command, port, hostIp);
  }

  lemma CreateLinesHaveNoProxyHalt(s: State, opts: Dict, o: Oracle)
    requires ProxyHalt !in s.trace
    ensures var options := CreateOptions(s.world.prefs, opts, o.translate);
      var started := StartedWorld(s.world.(created := true), opts, o);
      ProxyHalt !in s.trace + [Say(CreatingVm), MachineCreate(options)] + StartLines(s.world.prefs, opts, o)
        + StatusLines(started) + [PrefsUpdate(map[CREATE_KEY := Hash(options)])]
  {
    var options := CreateOptions(s.world.prefs, opts, o.translate);
    var started := StartedWorld(s.world.(created := true), opts, o);
    StartHasNoProxyHalt(s.world.prefs, opts, o);
    ReportHasNoProxyHalt(started);
    NotInFour(s.trace, [Say(CreatingVm), MachineCreate(options)], StartLines(s.world.prefs, opts, o),
      StatusLines(started), [PrefsUpdate(map[CREATE_KEY := Hash(options)])]);
  }

  /** The calls and lines of a successful `create`, without its world. */
  lemma CreateTrace(s: State, opts: Dict, o: Oracle)
    requires !s.world.created
    requires CreateOptions(s.world.prefs, opts, o.translate)[PROVIDER_KEY] != Nil
    ensures var options := CreateOptions(s.world.prefs, opts, o.translate);
      var started := StartedWorld(s.world.(created := true), opts, o);
      CreateRun(s, opts, o).state.trace == s.trace + [Say(CreatingVm), MachineCreate(options)]
        + StartLines(s.world.prefs, opts, o) + StatusLines(started) + [PrefsUpdate(map[CREATE_KEY := Hash(options)])]
  {
    CreateBuildsAndStarts(s, opts, o);
  }

  lemma BuiltVmDoesNotHaltProxy(s: State, opts: Dict, o: Oracle)
    requires ProxyHalt !in s.trace
    requires !s.world.created
    requires CreateOptions(s.world.prefs, opts, o.translate)[PROVIDER_KEY] != Nil
    ensures ProxyHalt !in CreateRun(s, opts, o).state.trace
  {
    CreateTrace(s, opts, o);
    CreateLinesHaveNoProxyHalt(s, opts, o);
  }

  lemma CreateDoesNotHaltProxy(s: State, opts: Dict, o: Oracle)
    requires ProxyHalt !in s.trace
    ensures ProxyHalt !in CreateRun(s, opts, o).state.trace
  {
    if s.world.created {
      CreateRefusesExistingVm(s, opts, o);
    } else if CreateOptions(s.world.prefs, opts, o.translate)[PROVIDER_KEY] == Nil {
      CreateRefusesUnknownProvider(s, opts, o);
    } else {
      BuiltVmDoesNotHaltProxy(s, opts, o);
    }
  }

  /**
   * No command ever calls `http_proxy.halt`: `halt`, `restart` and
   * `destroy` stop the forwarder, the VM, NFS and DNS, and the proxy only
   * ends with the VM it runs in.
   */
  lemma ProxyNeverHalted(s: State, opts: Dict, o: Oracle, command: string, port: int, hostIp: string)
    requires ProxyHalt !in s.trace
    ensures ProxyHalt !in StatusRun(s).trace
    ensures ProxyHalt !in IpRun(s).state.trace
    ensures ProxyHalt !in HaltRun(s).state.trace
    ensures ProxyHalt !in UpRun(s, opts, o).state.trace
    ensures ProxyHalt !in RestartRun(s, opts, o).state.trace
    ensures ProxyHalt !in DestroyRun(s, opts, o).state.trace
    ensures ProxyHalt !in CreateRun(s, opts, o).state.trace
    ensures ProxyHalt !in NfsRun(s, o, command, port, hostIp).trace
  {
    StatusDoesNotHaltProxy(s);
    IpDoesNotHaltProxy(s);
    HaltDoesNotHaltProxy(s);
    UpDoesNotHaltProxy(s, opts, o);
    RestartDoesNotHaltProxy(s, opts, o);
    DestroyDoesNotHaltProxy(s, opts, o);
    CreateDoesNotHaltProxy(s, opts, o);
    NfsDoesNotHaltProxy(s, o, command, port, hostIp);
  }
}
