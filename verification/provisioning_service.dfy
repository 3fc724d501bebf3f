/**
  The device-owner provisioning service as a functional transition system.

  `Start` is the synchronized block of the service's start command: the first
  call launches provisioning, every later call replays the last status.
  `Advance` is one step of the worker: either the worker thread's body
  (bootstrap, then the first step of the chain) or the callback of the step
  currently running. Which callback is pending is kept in `phase`, a field the
  service holds only implicitly (in which task's callback will fire next).
  Broadcasts to the activity and step launches are appended to an event trace.
 */
module ProvisioningService {
  import opened Common
  import opened Messages
  import opened Steps

  /** The provisioning parameters the service reads from its start intent (the fields the core uses). */
  datatype Params = Params(
    deviceAdminPackageName: string,
    downloadLocation: Option<string>,
    packageChecksum: string,
    wifiSsid: Option<string>,
    timeZone: Option<string>,
    localTime: int,
    locale: Option<string>)

  /** The system settings the bootstrap may change. */
  datatype Settings = Settings(timeZone: string, time: int, locale: string)

  /** Where the worker is: not launched, launched but not yet at the chain, waiting on a step's callback, or stopped. */
  datatype Phase = NotStarted | Launched | Awaiting(task: Task) | Halted

  /** The service's fields; `None` stands for the -1 / null initial values. */
  datatype Service = Service(
    inFlight: bool,
    lastProgress: Option<ProgressId>,
    lastError: Option<ErrorId>,
    done: bool,
    params: Option<Params>,
    phase: Phase)

  datatype World = World(service: Service, settings: Settings)

  /** A broadcast to the activity, or the launch of a step with its inputs. */
  datatype Event =
    | Progress(id: ProgressId)
    | Error(message: ErrorId)
    | Success(params: Params)
    | Run(task: Task)

  datatype Transition = Transition(world: World, events: seq<Event>)

  /** A call into the service: a start command, or the pending callback firing. */
  datatype Command = StartCommand(params: Params) | Callback

  predicate IsTerminal(e: Event) {
    e.Error? || e.Success?
  }

  /** The step launches of a trace, in order. */
  function Runs(evs: seq<Event>): (ts: seq<Task>)
    ensures |ts| <= |evs|
    decreases |evs|
  {
    if |evs| == 0 then []
    else if evs[0].Run? then [evs[0].task] + Runs(evs[1..])
    else Runs(evs[1..])
  }

  /** The broadcasts of a trace, in order. */
  function Broadcasts(evs: seq<Event>): (bs: seq<Event>)
    ensures |bs| <= |evs|
    decreases |evs|
  {
    if |evs| == 0 then []
    else if evs[0].Run? then Broadcasts(evs[1..])
    else [evs[0]] + Broadcasts(evs[1..])
  }

  function Init(settings: Settings): World {
    World(Service(false, None, None, false, None, NotStarted), settings)
  }

  /** The progress message that is current while step `k` runs. */
  function ProgressWhile(k: Kind): ProgressId {
    match k
    case WifiStep => ConnectToWifi
    case DownloadStep => Download
    case InstallStep => Install
    case PolicyStep => SetOwner
    case DeleteStep => SetOwner
  }

  /** Number of worker steps still to come; strictly decreases with every pending callback. */
  function Remaining(ph: Phase): nat {
    match ph
    case NotStarted => 0
    case Launched => 6
    case Awaiting(t) =>
      (match KindOf(t)
       case WifiStep => 5
       case DownloadStep => 4
       case InstallStep => 3
       case PolicyStep => 2
       case DeleteStep => 1)
    case Halted => 0
  }

  predicate Pending(ph: Phase) {
    ph.Launched? || ph.Awaiting?
  }

  /** The rank of the last progress message, -1 when none was sent. */
  function ProgressRank(s: Service): int {
    match s.lastProgress
    case None => -1
    case Some(id) => Rank(id)
  }

  /** The states reachable from `Init` by `Start` and `Advance`. */
  predicate Valid(s: Service) {
    && (!s.inFlight ==> s.phase == NotStarted && s.lastProgress.None? && s.lastError.None? && !s.done && s.params.None?)
    && (s.inFlight ==> s.phase != NotStarted && s.params.Some? && s.lastProgress.Some?)
    && (s.phase != Halted ==> s.lastError.None? && !s.done)
    && (s.phase == Halted ==> (s.lastError.Some? <==> !s.done))
    && (s.phase == Launched ==> s.lastProgress == Some(DataProcess))
    && (s.phase.Awaiting? ==> s.lastProgress == Some(ProgressWhile(KindOf(s.phase.task))))
  }

  /** Setting time zone and time: both sit in one try block, so a throw skips what follows it. */
  function SetTimeAndTimezone(s: Settings, timeZone: Option<string>, localTime: int, f: BootstrapFaults): (r: Settings)
    ensures r.locale == s.locale
    ensures r.timeZone != s.timeZone ==> timeZone == Some(r.timeZone)
    ensures r.time != s.time ==> localTime > 0 && r.time == localTime
    ensures timeZone.Some? && !f.timeZoneThrows ==> r.timeZone == timeZone.value
    ensures localTime > 0 && !f.timeThrows && !(timeZone.Some? && f.timeZoneThrows) ==> r.time == localTime
    ensures timeZone.Some? && f.timeZoneThrows ==> r == s
    ensures f.timeThrows ==> r.time == s.time
  {
    if timeZone.Some? && f.timeZoneThrows then s
    else
      var s1 := if timeZone.Some? then s.(timeZone := timeZone.value) else s;
      if localTime > 0 && !f.timeThrows then s1.(time := localTime) else s1
  }

  /** Setting the locale: skipped when absent or already current; a throw is swallowed. */
  function SetLocale(s: Settings, locale: Option<string>, f: BootstrapFaults): (r: Settings)
    ensures r.timeZone == s.timeZone && r.time == s.time
    ensures r.locale != s.locale ==> locale == Some(r.locale)
    ensures locale.Some? && !f.localeThrows ==> r.locale == locale.value
  {
    if locale.None? || locale.value == s.locale then s
    else if f.localeThrows then s
    else s.(locale := locale.value)
  }

  /**
    The best-effort environment setup run on the worker thread before the
    chain: each setting changes only as its guard allows, and a throw only
    leaves settings unchanged.
   */
  function Bootstrap(s: Settings, p: Params, f: BootstrapFaults): (r: Settings)
    ensures r.timeZone != s.timeZone ==> p.timeZone == Some(r.timeZone)
    ensures r.time != s.time ==> p.localTime > 0 && r.time == p.localTime
    ensures r.locale != s.locale ==> p.locale == Some(r.locale)
    ensures f == BootstrapFaults(false, false, false) ==>
      && (p.timeZone.Some? ==> r.timeZone == p.timeZone.value)
      && (p.localTime > 0 ==> r.time == p.localTime)
      && (p.locale.Some? ==> r.locale == p.locale.value)
  {
    SetLocale(SetTimeAndTimezone(s, p.timeZone, p.localTime, f), p.locale, f)
  }

  /** The status a repeated start command re-sends: last progress, then the error if any, then success if done. */
  function Replay(s: Service): (r: seq<Event>)
    ensures forall i :: 0 <= i < |r| ==> !r[i].Run?
    ensures s.lastProgress.Some? ==> |r| > 0 && r[0] == Progress(s.lastProgress.value)
    ensures forall id :: Error(id) in r <==> s.lastError == Some(id)
    ensures forall q :: Success(q) in r <==> s.done && s.params == Some(q)
    ensures s.done && s.params.Some? ==> r[|r| - 1] == Success(s.params.value)
    ensures forall id :: Progress(id) in r <==> s.lastProgress == Some(id)
    ensures |r| == (if s.lastProgress.Some? then 1 else 0) + (if s.lastError.Some? then 1 else 0)
      + (if s.done && s.params.Some? then 1 else 0)
  {
    (if s.lastProgress.Some? then [Progress(s.lastProgress.value)] else [])
    + (if s.lastError.Some? then [Error(s.lastError.value)] else [])
    + (if s.done && s.params.Some? then [Success(s.params.value)] else [])
  }

  /** The start command, atomic as the synchronized block it models. */
  function Start(w: World, p: Params): (r: Transition)
    ensures Valid(w.service) ==> Valid(r.world.service)
    ensures r.world.service.inFlight
    ensures !w.service.inFlight ==>
      && r.world.service.phase == Launched
      && r.world.service.params == Some(p)
      && r.world.service.lastProgress == Some(DataProcess)
      && r.world.settings == w.settings
      && r.events == [Progress(DataProcess)]
    ensures w.service.inFlight ==> r.world == w && r.events == Replay(w.service) && Runs(r.events) == []
  {
    if w.service.inFlight then
      var evs := Replay(w.service);
      assert Runs(evs) == [] by { RunsOfReplay(evs); }
      Transition(w, evs)
    else
      var s := w.service.(inFlight := true, lastProgress := Some(DataProcess), params := Some(p), phase := Launched);
      Transition(w.(service := s), [Progress(DataProcess)])
  }

  lemma {:induction false} RunsOfReplay(evs: seq<Event>)
    requires forall i :: 0 <= i < |evs| ==> !evs[i].Run?
    ensures Runs(evs) == []
    decreases |evs|
  {
    if |evs| > 0 {
      RunsOfReplay(evs[1..]);
    }
  }

  /** `progressUpdate` followed by running the next task. */
  function ProgressAndRun(w: World, id: ProgressId, t: Task): (r: Transition)
    ensures r.events == [Progress(id), Run(t)]
    ensures r.world.service.lastProgress == Some(id) && r.world.service.phase == Awaiting(t)
    ensures r.world.service.(lastProgress := w.service.lastProgress, phase := w.service.phase) == w.service
    ensures r.world.settings == w.settings
  {
    Transition(w.(service := w.service.(lastProgress := Some(id), phase := Awaiting(t))), [Progress(id), Run(t)])
  }

  /** Running the next task without a progress message. */
  function RunNext(w: World, t: Task): Transition {
    Transition(w.(service := w.service.(phase := Awaiting(t))), [Run(t)])
  }

  /** `error`: records the message, broadcasts it, and starts nothing further. */
  function Fail(w: World, e: ErrorId): (r: Transition)
    ensures r.events == [Error(e)]
    ensures r.world.service.lastError == Some(e) && r.world.service.phase == Halted
    ensures r.world.service.(lastError := w.service.lastError, phase := w.service.phase) == w.service
    ensures r.world.settings == w.settings
  {
    Transition(w.(service := w.service.(lastError := Some(e), phase := Halted)), [Error(e)])
  }

  /** `onProvisioningSuccess`: marks done and broadcasts the parameters. */
  function Succeed(w: World): (r: Transition)
    requires w.service.params.Some?
    ensures r.events == [Success(w.service.params.value)]
    ensures r.world.service.done && r.world.service.phase == Halted
    ensures r.world.service.(done := w.service.done, phase := w.service.phase) == w.service
    ensures r.world.settings == w.settings
  {
    Transition(w.(service := w.service.(done := true, phase := Halted)), [Success(w.service.params.value)])
  }

  /** The branch at the end of `startDeviceOwnerProvisioning`. */
  function StartChain(w: World, p: Params): (r: Transition)
    ensures !IsEmpty(p.downloadLocation) ==> r.events == [Progress(ConnectToWifi), Run(AddWifi(p.wifiSsid))]
    ensures IsEmpty(p.downloadLocation) ==>
      r.events == [Progress(SetOwner), Run(SetDevicePolicy(p.deviceAdminPackageName))]
    ensures r.world.service.lastProgress == Some(r.events[0].id)
    ensures r.world.service.phase == Awaiting(r.events[1].task)
    ensures r.world.settings == w.settings
  {
    if !IsEmpty(p.downloadLocation) then ProgressAndRun(w, ConnectToWifi, AddWifi(p.wifiSsid))
    else ProgressAndRun(w, SetOwner, SetDevicePolicy(p.deviceAdminPackageName))
  }

  /** One step of the worker: the thread body when launched, else the pending step's callback. */
  function Advance(w: World, o: Oracle): (r: Transition)
    requires Valid(w.service)
    ensures Valid(r.world.service)
    ensures !Pending(w.service.phase) ==> r == Transition(w, [])
    ensures Pending(w.service.phase) ==> Remaining(r.world.service.phase) < Remaining(w.service.phase)
    ensures r.world.service.inFlight == w.service.inFlight && r.world.service.params == w.service.params
    ensures !w.service.phase.Launched? ==> r.world.settings == w.settings
    ensures r.world.service.phase == Halted && Pending(w.service.phase) ==> |r.events| == 1 && IsTerminal(r.events[0])
    ensures r.world.service.phase != Halted ==> forall i :: 0 <= i < |r.events| ==> !IsTerminal(r.events[i])
    ensures ProgressRank(r.world.service) >= ProgressRank(w.service)
    ensures forall i :: 0 <= i < |r.events| && r.events[i].Progress? ==>
      && i == 0
      && Rank(r.events[i].id) > ProgressRank(w.service)
      && r.world.service.lastProgress == Some(r.events[i].id)
    ensures forall i :: 0 <= i < |r.events| && r.events[i].Run? ==>
      i == |r.events| - 1 && r.world.service.phase == Awaiting(r.events[i].task)
  {
    var s := w.service;
    match s.phase
    case NotStarted => Transition(w, [])
    case Halted => Transition(w, [])
    case Launched =>
      var p := s.params.value;
      StartChain(w.(settings := Bootstrap(w.settings, p, o.bootstrap)), p)
    case Awaiting(t) =>
      var p := s.params.value;
      match t
      case AddWifi(_) =>
        if o.wifi.Completed? then ProgressAndRun(w, Download, DownloadPackage(p.downloadLocation, p.packageChecksum))
        else Fail(w, WifiError)
      case DownloadPackage(_, _) =>
        (match o.download
         case Completed(location) => ProgressAndRun(w, Install, InstallPackage(p.deviceAdminPackageName, location))
         case Failed(c) => Fail(w, DownloadErrorMessage(c)))
      case InstallPackage(_, _) =>
        (match o.install
         case Completed(_) => ProgressAndRun(w, SetOwner, SetDevicePolicy(p.deviceAdminPackageName))
         case Failed(c) => Fail(w, InstallErrorMessage(c)))
      case SetDevicePolicy(_) =>
        (match o.policy
         case Completed(_) => RunNext(w, DeleteNonRequiredApps(p.deviceAdminPackageName))
         case Failed(c) => Fail(w, PolicyErrorMessage(c)))
      case DeleteNonRequiredApps(_) =>
        if o.delete.Completed? then Succeed(w) else Fail(w, GeneralError)
  }

  /** The worker run to its end: every pending callback fired in turn until none is left. */
  function Chain(w: World, o: Oracle): (r: Transition)
    requires Valid(w.service)
    ensures Valid(r.world.service)
    ensures !Pending(r.world.service.phase)
    ensures Pending(w.service.phase) ==> r.world.service.phase == Halted
    ensures r.world.service.inFlight == w.service.inFlight && r.world.service.params == w.service.params
    decreases Remaining(w.service.phase)
  {
    if !Pending(w.service.phase) then Transition(w, [])
    else
      var t := Advance(w, o);
      var rest := Chain(t.world, o);
      Transition(rest.world, t.events + rest.events)
  }

  /** A fresh service given one start command and then left to run to its end. */
  function Provision(p: Params, settings: Settings, o: Oracle): (r: Transition)
    ensures Valid(r.world.service) && r.world.service.phase == Halted
    ensures r.world.service.params == Some(p)
    ensures |r.events| > 0 && r.events[0] == Progress(DataProcess)
  {
    var t := Start(Init(settings), p);
    var c := Chain(t.world, o);
    Transition(c.world, t.events + c.events)
  }

  /** One call into the service. */
  function Perform(w: World, c: Command, o: Oracle): (r: Transition)
    requires Valid(w.service)
    ensures Valid(r.world.service)
    ensures w.service.inFlight ==> r.world.service.inFlight && r.world.service.params == w.service.params
  {
    match c
    case StartCommand(p) => Start(w, p)
    case Callback => Advance(w, o)
  }

  /** Any interleaving of start commands and callbacks. */
  function Execute(w: World, cmds: seq<Command>, o: Oracle): (r: Transition)
    requires Valid(w.service)
    ensures Valid(r.world.service)
    decreases |cmds|
  {
    if |cmds| == 0 then Transition(w, [])
    else
      var t := Perform(w, cmds[0], o);
      var rest := Execute(t.world, cmds[1..], o);
      Transition(rest.world, t.events + rest.events)
  }
}
