/**
  Properties of the provisioning service: the chain follows an independent
  description of the route, it halts with exactly one terminal broadcast,
  progress never regresses, bootstrap failures are invisible to the chain,
  and repeated start commands never start a step twice.
 */
module ProvisioningProperties {
  import opened Common
  import opened Messages
  import opened Steps
  import opened ProvisioningService
  import SetDevicePolicyTask

  // ---------------------------------------------------------------------------
  // Reference description of the chain
  // ---------------------------------------------------------------------------

  /** The steps provisioning goes through for `p`, in order. */
  function Route(p: Params): seq<Kind> {
    if !IsEmpty(p.downloadLocation) then [WifiStep, DownloadStep, InstallStep, PolicyStep, DeleteStep]
    else [PolicyStep, DeleteStep]
  }

  /** The steps that follow step `k` in the chain. */
  function Successors(k: Kind): seq<Kind> {
    match k
    case WifiStep => [DownloadStep, InstallStep, PolicyStep, DeleteStep]
    case DownloadStep => [InstallStep, PolicyStep, DeleteStep]
    case InstallStep => [PolicyStep, DeleteStep]
    case PolicyStep => [DeleteStep]
    case DeleteStep => []
  }

  /** The steps of `ks` that are started: each in turn, up to and including the first that fails. */
  function Attempted(ks: seq<Kind>, o: Oracle): seq<Kind>
    decreases |ks|
  {
    if |ks| == 0 then []
    else [ks[0]] + (if Fails(ks[0], o) then [] else Attempted(ks[1..], o))
  }

  /** What is broadcast before step `k` is started. */
  function Announcement(k: Kind): seq<Event> {
    if k == DeleteStep then [] else [Progress(ProgressWhile(k))]
  }

  /**
    The broadcasts while working through `ks`: each step's announcement, then
    the first failure's message, or success with `p` once every step passed.
   */
  function Announce(ks: seq<Kind>, o: Oracle, p: Params): seq<Event>
    decreases |ks|
  {
    if |ks| == 0 then [Success(p)]
    else Announcement(ks[0]) + (if Fails(ks[0], o) then [Error(ErrorOf(ks[0], o))] else Announce(ks[1..], o, p))
  }

  function Kinds(ts: seq<Task>): (ks: seq<Kind>)
    ensures |ks| == |ts|
    ensures forall i :: 0 <= i < |ts| ==> ks[i] == KindOf(ts[i])
    decreases |ts|
  {
    if |ts| == 0 then [] else [KindOf(ts[0])] + Kinds(ts[1..])
  }

  function Last(evs: seq<Event>): Event
    requires |evs| > 0
  {
    evs[|evs| - 1]
  }

  // ---------------------------------------------------------------------------
  // Trace algebra
  // ---------------------------------------------------------------------------

  lemma {:induction false} RunsAppend(a: seq<Event>, b: seq<Event>)
    ensures Runs(a + b) == Runs(a) + Runs(b)
    decreases |a|
  {
    if |a| == 0 {
      assert a + b == b;
    } else {
      assert (a + b)[0] == a[0];
      assert (a + b)[1..] == a[1..] + b;
      RunsAppend(a[1..], b);
    }
  }


  lemma {:induction false} BroadcastsAppend(a: seq<Event>, b: seq<Event>)
    ensures Broadcasts(a + b) == Broadcasts(a) + Broadcasts(b)
    decreases |a|
  {
    if |a| == 0 {
      assert a + b == b;
    } else {
      assert (a + b)[0] == a[0];
      assert (a + b)[1..] == a[1..] + b;
      BroadcastsAppend(a[1..], b);
    }
  }


  lemma {:induction false} KindsAppend(a: seq<Task>, b: seq<Task>)
    ensures Kinds(a + b) == Kinds(a) + Kinds(b)
  {
  }

  /** One pending callback followed by the rest of the worker's run. */
  lemma ChainUnfold(w: World, o: Oracle)
    requires Valid(w.service) && Pending(w.service.phase)
    ensures Chain(w, o).events == Advance(w, o).events + Chain(Advance(w, o).world, o).events
    ensures Chain(w, o).world == Chain(Advance(w, o).world, o).world
  {
  }

  lemma TracesOfPair(x: Event, t: Task)
    requires !x.Run?
    ensures Runs([x, Run(t)]) == [t]
    ensures Broadcasts([x, Run(t)]) == [x]
  {
    assert [x, Run(t)][1..] == [Run(t)];
    assert [Run(t)][1..] == [];
  }

  lemma TracesOfSingle(e: Event)
    ensures Runs([e]) == (if e.Run? then [e.task] else [])
    ensures Broadcasts([e]) == (if e.Run? then [] else [e])
  {
    assert [e][1..] == [];
  }

  // ---------------------------------------------------------------------------
  // The chain follows the route
  // ---------------------------------------------------------------------------

  /** One pending callback: a failure reports its message and halts, a success announces and starts the next step. */
  lemma AdvanceFollowsRoute(w: World, o: Oracle)
    requires Valid(w.service) && w.service.phase.Awaiting?
    ensures var k := KindOf(w.service.phase.task);
      var a := Advance(w, o);
      if Fails(k, o) then a.events == [Error(ErrorOf(k, o))] && a.world.service.phase == Halted
      else if k == DeleteStep then a.events == [Success(w.service.params.value)] && a.world.service.phase == Halted
      else
        && a.world.service.phase.Awaiting?
        && Successors(k) == [KindOf(a.world.service.phase.task)] + Successors(KindOf(a.world.service.phase.task))
        && a.events == Announcement(KindOf(a.world.service.phase.task)) + [Run(a.world.service.phase.task)]
  {
  }

  /** The traces of one successful callback: its announcement, and the next step. */
  lemma TracesOfHandOver(k: Kind, t: Task)
    ensures Runs(Announcement(k) + [Run(t)]) == [t]
    ensures Broadcasts(Announcement(k) + [Run(t)]) == Announcement(k)
  {
    if k == DeleteStep {
      assert Announcement(k) + [Run(t)] == [Run(t)];
      TracesOfSingle(Run(t));
    } else {
      TracesOfPair(Progress(ProgressWhile(k)), t);
    }
  }

  /**
    From any pending callback, the steps started and the broadcasts made are
    exactly those of the reference description of the rest of the route.
   */
  lemma {:induction false} ChainFollowsRoute(w: World, o: Oracle)
    requires Valid(w.service) && w.service.phase.Awaiting?
    ensures var k := KindOf(w.service.phase.task);
      Kinds(Runs(Chain(w, o).events)) == (if Fails(k, o) then [] else Attempted(Successors(k), o))
    ensures var k := KindOf(w.service.phase.task);
      Broadcasts(Chain(w, o).events) ==
        if Fails(k, o) then [Error(ErrorOf(k, o))] else Announce(Successors(k), o, w.service.params.value)
    decreases Remaining(w.service.phase)
  {
    var k := KindOf(w.service.phase.task);
    var p := w.service.params.value;
    var a := Advance(w, o);
    var rest := Chain(a.world, o);
    ChainUnfold(w, o);
    RunsAppend(a.events, rest.events);
    BroadcastsAppend(a.events, rest.events);
    AdvanceFollowsRoute(w, o);
    if Fails(k, o) {
      TracesOfSingle(Error(ErrorOf(k, o)));
    } else if k == DeleteStep {
      TracesOfSingle(Success(p));
    } else {
      var t' := a.world.service.phase.task;
      var k' := KindOf(t');
      TracesOfHandOver(k', t');
      ChainFollowsRoute(a.world, o);
      KindsAppend([t'], Runs(rest.events));
      assert Successors(k)[0] == k' && Successors(k)[1..] == Successors(k');
    }
  }

  /**
    A fresh service, started once and run to its end, starts exactly the steps
    of its route up to the first failure, and broadcasts the data-processing
    progress followed by the route's announcements and verdict.
   */
  lemma ProvisionFollowsRoute(p: Params, settings: Settings, o: Oracle)
    ensures Kinds(Runs(Provision(p, settings, o).events)) == Attempted(Route(p), o)
    ensures Broadcasts(Provision(p, settings, o).events) == [Progress(DataProcess)] + Announce(Route(p), o, p)
  {
    var w := Start(Init(settings), p).world;
    var c := Chain(w, o).events;
    assert Provision(p, settings, o).events == [Progress(DataProcess)] + c;
    LaunchedChainFollowsRoute(w, o);
    TracesOfSingle(Progress(DataProcess));
    RunsAppend([Progress(DataProcess)], c);
    BroadcastsAppend([Progress(DataProcess)], c);
  }

  /** From the launched state, the worker follows the whole route of the recorded parameters. */
  lemma LaunchedChainFollowsRoute(w: World, o: Oracle)
    requires Valid(w.service) && w.service.phase == Launched
    ensures Kinds(Runs(Chain(w, o).events)) == Attempted(Route(w.service.params.value), o)
    ensures Broadcasts(Chain(w, o).events) == Announce(Route(w.service.params.value), o, w.service.params.value)
  {
    var p := w.service.params.value;
    var a := Advance(w, o);
    var rest := Chain(a.world, o);
    ChainUnfold(w, o);
    LaunchFollowsRoute(w, o);
    var t := a.world.service.phase.task;
    var k := KindOf(t);
    TracesOfPair(Progress(ProgressWhile(k)), t);
    RunsAppend(a.events, rest.events);
    BroadcastsAppend(a.events, rest.events);
    ChainFollowsRoute(a.world, o);
    KindsAppend([t], Runs(rest.events));
    assert Route(p)[0] == k && Route(p)[1..] == Successors(k);
  }

  /** The worker thread's body announces the first step of the route and starts it. */
  lemma LaunchFollowsRoute(w: World, o: Oracle)
    requires Valid(w.service) && w.service.phase == Launched
    ensures var a := Advance(w, o);
      && a.world.service.phase.Awaiting?
      && Route(w.service.params.value) == [KindOf(a.world.service.phase.task)] + Successors(KindOf(a.world.service.phase.task))
      && a.events == [Progress(ProgressWhile(KindOf(a.world.service.phase.task))), Run(a.world.service.phase.task)]
  {
  }

  // ---------------------------------------------------------------------------
  // Halting, one terminal broadcast, monotone progress
  // ---------------------------------------------------------------------------

  /** Exactly one terminal event, and it ends the trace. */
  predicate EndsWithOnlyTerminal(evs: seq<Event>) {
    && |evs| > 0
    && IsTerminal(evs[|evs| - 1])
    && forall i :: 0 <= i < |evs| - 1 ==> !IsTerminal(evs[i])
  }

  /** Progress messages strictly advance along the chain order. */
  predicate ProgressIncreasing(evs: seq<Event>) {
    forall i, j :: 0 <= i < j < |evs| && evs[i].Progress? && evs[j].Progress? ==> Rank(evs[i].id) < Rank(evs[j].id)
  }

  predicate ProgressAbove(evs: seq<Event>, floor: int) {
    forall i :: 0 <= i < |evs| && evs[i].Progress? ==> Rank(evs[i].id) > floor
  }

  /**
    Once launched, the worker halts with exactly one terminal broadcast as its
    last event; the final state records exactly that outcome.
   */
  lemma {:induction false} ChainEndsWithOneTerminal(w: World, o: Oracle)
    requires Valid(w.service) && Pending(w.service.phase)
    ensures var r := Chain(w, o);
      && EndsWithOnlyTerminal(r.events)
      && (r.world.service.done <==> Last(r.events).Success?)
      && (r.world.service.lastError.Some? <==> Last(r.events).Error?)
      && (Last(r.events).Error? ==> r.world.service.lastError == Some(Last(r.events).message))
      && (Last(r.events).Success? ==>
            Last(r.events).params == w.service.params.value && r.world.service.lastProgress == Some(SetOwner))
    decreases Remaining(w.service.phase)
  {
    var a := Advance(w, o);
    var rest := Chain(a.world, o);
    var evs := a.events + rest.events;
    assert Chain(w, o).events == evs;
    if a.world.service.phase == Halted {
      assert rest.events == [];
      assert evs == a.events;
    } else {
      ChainEndsWithOneTerminal(a.world, o);
      assert Last(evs) == Last(rest.events);
      forall i | 0 <= i < |evs| - 1
        ensures !IsTerminal(evs[i])
      {
        if i >= |a.events| {
          assert evs[i] == rest.events[i - |a.events|];
        }
      }
    }
  }

  /** Every progress message the worker sends is past the last one sent, and they strictly advance. */
  lemma {:induction false} ChainProgressAdvances(w: World, o: Oracle)
    requires Valid(w.service)
    ensures ProgressAbove(Chain(w, o).events, ProgressRank(w.service))
    ensures ProgressIncreasing(Chain(w, o).events)
    decreases Remaining(w.service.phase)
  {
    if Pending(w.service.phase) {
      var a := Advance(w, o);
      var rest := Chain(a.world, o);
      var evs := a.events + rest.events;
      assert Chain(w, o).events == evs;
      ChainProgressAdvances(a.world, o);
      forall i | 0 <= i < |evs| && evs[i].Progress?
        ensures Rank(evs[i].id) > ProgressRank(w.service)
      {
        if i >= |a.events| {
          assert evs[i] == rest.events[i - |a.events|];
        }
      }
      forall i, j | 0 <= i < j < |evs| && evs[i].Progress? && evs[j].Progress?
        ensures Rank(evs[i].id) < Rank(evs[j].id)
      {
        if j < |a.events| {
          assert false;
        } else if i < |a.events| {
          assert evs[j] == rest.events[j - |a.events|];
          assert Rank(evs[i].id) == ProgressRank(a.world.service);
        } else {
          assert evs[i] == rest.events[i - |a.events|];
          assert evs[j] == rest.events[j - |a.events|];
        }
      }
    }
  }

  /**
    A provisioning run sends progress messages in strictly increasing chain
    order, starting with data processing, and ends with exactly one terminal
    broadcast; the service then records success or the reported error, never both.
   */
  lemma ProvisionHalts(p: Params, settings: Settings, o: Oracle)
    ensures var r := Provision(p, settings, o);
      && EndsWithOnlyTerminal(r.events)
      && ProgressIncreasing(r.events)
      && (r.world.service.done <==> Last(r.events) == Success(p))
      && (r.world.service.done <==> r.world.service.lastError.None?)
      && (r.world.service.lastError.Some? ==> Last(r.events) == Error(r.world.service.lastError.value))
      && (r.world.service.done ==> r.world.service.lastProgress == Some(SetOwner))
  {
    var s := Start(Init(settings), p);
    var c := Chain(s.world, o);
    var evs := [Progress(DataProcess)] + c.events;
    assert Provision(p, settings, o).events == evs;
    ChainEndsWithOneTerminal(s.world, o);
    ChainProgressAdvances(s.world, o);
    assert Last(evs) == Last(c.events);
    forall i | 0 <= i < |evs| - 1
      ensures !IsTerminal(evs[i])
    {
      if i > 0 {
        assert evs[i] == c.events[i - 1];
      }
    }
    forall i, j | 0 <= i < j < |evs| && evs[i].Progress? && evs[j].Progress?
      ensures Rank(evs[i].id) < Rank(evs[j].id)
    {
      assert evs[j] == c.events[j - 1];
      if i > 0 {
        assert evs[i] == c.events[i - 1];
      }
    }
  }

  // ---------------------------------------------------------------------------
  // Route corollaries
  // ---------------------------------------------------------------------------

  /** Working through a route stops at its first failing step and reports that step's message. */
  lemma FirstFailureStops(ks: seq<Kind>, o: Oracle, p: Params, i: nat)
    requires i < |ks| && Fails(ks[i], o)
    requires forall j :: 0 <= j < i ==> !Fails(ks[j], o)
    ensures Attempted(ks, o) == ks[..i + 1]
    ensures |Announce(ks, o, p)| > 0 && Last(Announce(ks, o, p)) == Error(ErrorOf(ks[i], o))
  {
    AttemptedStops(ks, o, i);
    AnnounceStops(ks, o, p, i);
  }

  lemma {:induction false} AttemptedStops(ks: seq<Kind>, o: Oracle, i: nat)
    requires i < |ks| && Fails(ks[i], o)
    requires forall j :: 0 <= j < i ==> !Fails(ks[j], o)
    ensures Attempted(ks, o) == ks[..i + 1]
    decreases i
  {
    if i > 0 {
      AttemptedStops(ks[1..], o, i - 1);
      assert !Fails(ks[0], o);
      assert ks[..i + 1] == [ks[0]] + ks[1..][..i];
    }
  }

  lemma {:induction false} AnnounceStops(ks: seq<Kind>, o: Oracle, p: Params, i: nat)
    requires i < |ks| && Fails(ks[i], o)
    requires forall j :: 0 <= j < i ==> !Fails(ks[j], o)
    ensures |Announce(ks, o, p)| > 0 && Last(Announce(ks, o, p)) == Error(ErrorOf(ks[i], o))
    decreases i
  {
    if i > 0 {
      AnnounceStops(ks[1..], o, p, i - 1);
      assert !Fails(ks[0], o);
      var rest := Announce(ks[1..], o, p);
      assert Announce(ks, o, p) == Announcement(ks[0]) + rest;
    }
  }

  /** A route without failures starts every step and ends with success. */
  lemma NoFailureCompletes(ks: seq<Kind>, o: Oracle, p: Params)
    requires forall j :: 0 <= j < |ks| ==> !Fails(ks[j], o)
    ensures Attempted(ks, o) == ks
    ensures |Announce(ks, o, p)| > 0 && Last(Announce(ks, o, p)) == Success(p)
  {
    AttemptedAll(ks, o);
    AnnounceAll(ks, o, p);
  }

  lemma {:induction false} AttemptedAll(ks: seq<Kind>, o: Oracle)
    requires forall j :: 0 <= j < |ks| ==> !Fails(ks[j], o)
    ensures Attempted(ks, o) == ks
    decreases |ks|
  {
    if |ks| > 0 {
      AttemptedAll(ks[1..], o);
      assert !Fails(ks[0], o);
      assert ks == [ks[0]] + ks[1..];
    }
  }

  lemma {:induction false} AnnounceAll(ks: seq<Kind>, o: Oracle, p: Params)
    requires forall j :: 0 <= j < |ks| ==> !Fails(ks[j], o)
    ensures |Announce(ks, o, p)| > 0 && Last(Announce(ks, o, p)) == Success(p)
    decreases |ks|
  {
    if |ks| > 0 {
      AnnounceAll(ks[1..], o, p);
      assert !Fails(ks[0], o);
      var rest := Announce(ks[1..], o, p);
      assert Announce(ks, o, p) == Announcement(ks[0]) + rest;
    }
  }

  /** What is started is always an initial segment of the route. */
  lemma {:induction false} AttemptedIsPrefix(ks: seq<Kind>, o: Oracle)
    ensures Attempted(ks, o) <= ks
    decreases |ks|
  {
    if |ks| > 0 && !Fails(ks[0], o) {
      AttemptedIsPrefix(ks[1..], o);
    }
  }

  /**
    When step `i` of the route is the first to fail, exactly the steps up to it
    are started and the run ends by reporting its mapped error.
   */
  lemma ProvisionStopsAtFirstFailure(p: Params, settings: Settings, o: Oracle, i: nat)
    requires i < |Route(p)| && Fails(Route(p)[i], o)
    requires forall j :: 0 <= j < i ==> !Fails(Route(p)[j], o)
    ensures Kinds(Runs(Provision(p, settings, o).events)) == Route(p)[..i + 1]
    ensures Last(Provision(p, settings, o).events) == Error(ErrorOf(Route(p)[i], o))
    ensures Provision(p, settings, o).world.service.lastError == Some(ErrorOf(Route(p)[i], o))
  {
    var evs := Provision(p, settings, o).events;
    ProvisionFollowsRoute(p, settings, o);
    FirstFailureStops(Route(p), o, p, i);
    ProvisionHalts(p, settings, o);
    LastBroadcast(evs);
  }

  /** When no step of the route fails, every step runs and the run ends in success with the original parameters. */
  lemma ProvisionSucceedsWithoutFailure(p: Params, settings: Settings, o: Oracle)
    requires forall j :: 0 <= j < |Route(p)| ==> !Fails(Route(p)[j], o)
    ensures Kinds(Runs(Provision(p, settings, o).events)) == Route(p)
    ensures Last(Provision(p, settings, o).events) == Success(p)
    ensures Provision(p, settings, o).world.service.done
  {
    var evs := Provision(p, settings, o).events;
    ProvisionFollowsRoute(p, settings, o);
    NoFailureCompletes(Route(p), o, p);
    ProvisionHalts(p, settings, o);
    LastBroadcast(evs);
  }

  /** The last event of a run ends in a broadcast, so it is also the last broadcast. */
  lemma {:induction false} LastBroadcast(evs: seq<Event>)
    requires |evs| > 0 && !Last(evs).Run?
    ensures |Broadcasts(evs)| > 0 && Last(Broadcasts(evs)) == Last(evs)
  {
    var n := |evs| - 1;
    assert evs == evs[..n] + [Last(evs)];
    BroadcastsAppend(evs[..n], [Last(evs)]);
    TracesOfSingle(Last(evs));
  }

  /**
    With a download location and every step succeeding, the progress messages
    are data processing, Wi-Fi, download, install and set-owner in that order,
    followed by one success carrying the original parameters; all five steps run.
   */
  lemma AllStepsSucceed(p: Params, settings: Settings, o: Oracle)
    requires !IsEmpty(p.downloadLocation)
    requires o.wifi.Completed? && o.download.Completed? && o.install.Completed?
    requires o.policy.Completed? && o.delete.Completed?
    ensures Broadcasts(Provision(p, settings, o).events) ==
      [Progress(DataProcess), Progress(ConnectToWifi), Progress(Download), Progress(Install), Progress(SetOwner), Success(p)]
    ensures Kinds(Runs(Provision(p, settings, o).events)) == [WifiStep, DownloadStep, InstallStep, PolicyStep, DeleteStep]
    ensures Provision(p, settings, o).world.service.done
  {
    ProvisionFollowsRoute(p, settings, o);
    RouteWithoutFailures(p, o);
    AnnounceWithoutFailures(o, p);
    ProvisionSucceedsWithoutFailure(p, settings, o);
  }

  lemma RouteWithoutFailures(p: Params, o: Oracle)
    requires !IsEmpty(p.downloadLocation)
    requires o.wifi.Completed? && o.download.Completed? && o.install.Completed?
    requires o.policy.Completed? && o.delete.Completed?
    ensures Route(p) == [WifiStep, DownloadStep, InstallStep, PolicyStep, DeleteStep]
    ensures forall j :: 0 <= j < |Route(p)| ==> !Fails(Route(p)[j], o)
  {
  }

  lemma AnnounceWithoutFailures(o: Oracle, p: Params)
    requires o.wifi.Completed? && o.download.Completed? && o.install.Completed?
    requires o.policy.Completed? && o.delete.Completed?
    ensures Announce([WifiStep, DownloadStep, InstallStep, PolicyStep, DeleteStep], o, p) ==
      [Progress(ConnectToWifi), Progress(Download), Progress(Install), Progress(SetOwner), Success(p)]
  {
    assert Announce([DeleteStep], o, p) == [Success(p)];
    assert Announce([PolicyStep, DeleteStep], o, p) == [Progress(SetOwner), Success(p)];
    assert Announce([InstallStep, PolicyStep, DeleteStep], o, p) == [Progress(Install), Progress(SetOwner), Success(p)];
    assert Announce([DownloadStep, InstallStep, PolicyStep, DeleteStep], o, p) ==
      [Progress(Download), Progress(Install), Progress(SetOwner), Success(p)];
  }

  /** A hash mismatch after Wi-Fi succeeded halts the run with the hash-mismatch message; install, policy and delete never run. */
  lemma DownloadHashMismatchHalts(p: Params, settings: Settings, o: Oracle)
    requires !IsEmpty(p.downloadLocation)
    requires o.wifi.Completed? && o.download == Failed(HashMismatch)
    ensures Kinds(Runs(Provision(p, settings, o).events)) == [WifiStep, DownloadStep]
    ensures Last(Provision(p, settings, o).events) == Error(HashMismatchError)
    ensures Provision(p, settings, o).world.service.lastError == Some(HashMismatchError)
    ensures !Provision(p, settings, o).world.service.done
  {
    ProvisionStopsAtFirstFailure(p, settings, o, 1);
    ProvisionHalts(p, settings, o);
  }

  /**
    With the package already present and the policy step's outcome taken from
    the set-device-owner task run on device `d`: a package missing on `d` is
    reported as "package not installed" after only the policy step ran, and an
    installed one leads to success when deleting apps succeeds.
   */
  lemma PolicyTaskOutcomeReported(p: Params, settings: Settings, o: Oracle,
                                  t: SetDevicePolicyTask.Task, d: SetDevicePolicyTask.DeviceState)
    requires IsEmpty(p.downloadLocation) && t.packageName == p.deviceAdminPackageName
    requires o.policy == PolicyOutcome(SetDevicePolicyTask.Run(t, d).callback)
    ensures !SetDevicePolicyTask.IsPackageInstalled(d, p.deviceAdminPackageName) ==>
      && Kinds(Runs(Provision(p, settings, o).events)) == [PolicyStep]
      && Last(Provision(p, settings, o).events) == Error(PackageNotInstalledError)
    ensures SetDevicePolicyTask.IsPackageInstalled(d, p.deviceAdminPackageName) && o.delete.Completed? ==>
      && Kinds(Runs(Provision(p, settings, o).events)) == [PolicyStep, DeleteStep]
      && Last(Provision(p, settings, o).events) == Success(p)
  {
    assert Route(p) == [PolicyStep, DeleteStep];
    ProvisionHalts(p, settings, o);
    if !SetDevicePolicyTask.IsPackageInstalled(d, p.deviceAdminPackageName) {
      ProvisionStopsAtFirstFailure(p, settings, o, 0);
    } else if o.delete.Completed? {
      ProvisionSucceedsWithoutFailure(p, settings, o);
    }
  }

  /**
    The branch on the download location: with one, the chain opens with the
    Wi-Fi progress message and the Wi-Fi step; without one, it opens with the
    set-owner message and the policy step, and the Wi-Fi, download and install
    steps never run.
   */
  lemma BranchOnDownloadLocation(p: Params, settings: Settings, o: Oracle)
    ensures |Provision(p, settings, o).events| >= 3
    ensures !IsEmpty(p.downloadLocation) ==>
      Provision(p, settings, o).events[1..3] == [Progress(ConnectToWifi), Run(AddWifi(p.wifiSsid))]
    ensures IsEmpty(p.downloadLocation) ==>
      && Provision(p, settings, o).events[1..3] == [Progress(SetOwner), Run(SetDevicePolicy(p.deviceAdminPackageName))]
      && forall t :: t in Runs(Provision(p, settings, o).events) ==> KindOf(t) == PolicyStep || KindOf(t) == DeleteStep
  {
    var s := Start(Init(settings), p);
    var a := Advance(s.world, o);
    var rest := Chain(a.world, o);
    assert Provision(p, settings, o).events == [Progress(DataProcess)] + a.events + rest.events;
    ProvisionFollowsRoute(p, settings, o);
    var ts := Runs(Provision(p, settings, o).events);
    if IsEmpty(p.downloadLocation) {
      AttemptedIsPrefix(Route(p), o);
      forall t | t in ts
        ensures KindOf(t) == PolicyStep || KindOf(t) == DeleteStep
      {
        var i :| 0 <= i < |ts| && ts[i] == t;
        assert Kinds(ts)[i] == Route(p)[i];
      }
    }
  }

  // ---------------------------------------------------------------------------
  // Data flow between steps
  // ---------------------------------------------------------------------------

  /** An install step waiting on its callback was given the download step's reported location. */
  predicate InstallGotDownload(ph: Phase, o: Oracle) {
    ph.Awaiting? && ph.task.InstallPackage? ==> o.download == Completed(ph.task.location)
  }

  lemma AdvanceKeepsInstallLocation(w: World, o: Oracle)
    requires Valid(w.service) && InstallGotDownload(w.service.phase, o)
    ensures InstallGotDownload(Advance(w, o).world.service.phase, o)
  {
  }

  /** Every install step the worker starts gets exactly the location the completed download reported. */
  lemma {:induction false} ChainInstallsDownloadedLocation(w: World, o: Oracle)
    requires Valid(w.service) && InstallGotDownload(w.service.phase, o)
    ensures forall i :: 0 <= i < |Chain(w, o).events| && Chain(w, o).events[i].Run? && Chain(w, o).events[i].task.InstallPackage? ==>
      o.download == Completed(Chain(w, o).events[i].task.location)
    decreases Remaining(w.service.phase)
  {
    if Pending(w.service.phase) {
      var a := Advance(w, o);
      var rest := Chain(a.world, o);
      var evs := a.events + rest.events;
      assert Chain(w, o).events == evs;
      AdvanceKeepsInstallLocation(w, o);
      ChainInstallsDownloadedLocation(a.world, o);
      forall i | 0 <= i < |evs| && evs[i].Run? && evs[i].task.InstallPackage?
        ensures o.download == Completed(evs[i].task.location)
      {
        if i >= |a.events| {
          assert evs[i] == rest.events[i - |a.events|];
        }
      }
    }
  }

  lemma ProvisionInstallsDownloadedLocation(p: Params, settings: Settings, o: Oracle)
    ensures forall t :: t in Runs(Provision(p, settings, o).events) && t.InstallPackage? ==> o.download == Completed(t.location)
  {
    var s := Start(Init(settings), p);
    var c := Chain(s.world, o);
    assert Provision(p, settings, o).events == [Progress(DataProcess)] + c.events;
    ChainInstallsDownloadedLocation(s.world, o);
    RunsAppend([Progress(DataProcess)], c.events);
    TracesOfSingle(Progress(DataProcess));
    RunsMembers(c.events);
  }

  lemma {:induction false} RunsMembers(evs: seq<Event>)
    ensures forall t :: t in Runs(evs) ==> exists i :: 0 <= i < |evs| && evs[i] == Run(t)
    decreases |evs|
  {
    if |evs| > 0 {
      RunsMembers(evs[1..]);
      forall t | t in Runs(evs)
        ensures exists i :: 0 <= i < |evs| && evs[i] == Run(t)
      {
        if evs[0].Run? && t == evs[0].task {
          assert evs[0] == Run(t);
        } else {
          assert t in Runs(evs[1..]);
          var i :| 0 <= i < |evs[1..]| && evs[1..][i] == Run(t);
          assert evs[i + 1] == Run(t);
        }
      }
    }
  }

  // ---------------------------------------------------------------------------
  // Bootstrap failures are swallowed
  // ---------------------------------------------------------------------------

  /** Two oracles that agree on every step and may differ on which bootstrap calls throw. */
  predicate SameSteps(o1: Oracle, o2: Oracle) {
    o1.(bootstrap := o2.bootstrap) == o2
  }

  /** The worker's broadcasts, step launches and service state do not depend on the settings or bootstrap faults. */
  lemma {:induction false} ChainIgnoresBootstrap(w1: World, w2: World, o1: Oracle, o2: Oracle)
    requires Valid(w1.service) && w1.service == w2.service && SameSteps(o1, o2)
    ensures Chain(w1, o1).events == Chain(w2, o2).events
    ensures Chain(w1, o1).world.service == Chain(w2, o2).world.service
    decreases Remaining(w1.service.phase)
  {
    if Pending(w1.service.phase) {
      var a1 := Advance(w1, o1);
      var a2 := Advance(w2, o2);
      assert a1.events == a2.events && a1.world.service == a2.world.service;
      ChainIgnoresBootstrap(a1.world, a2.world, o1, o2);
    }
  }

  /**
    Whatever the bootstrap calls throw and whatever the settings were, the
    run broadcasts the same events, starts the same steps and ends in the same
    service state; the only trace of the bootstrap is in the settings.
   */
  lemma BootstrapFailuresAreSwallowed(p: Params, s1: Settings, s2: Settings, o1: Oracle, o2: Oracle)
    requires SameSteps(o1, o2)
    ensures Provision(p, s1, o1).events == Provision(p, s2, o2).events
    ensures Provision(p, s1, o1).world.service == Provision(p, s2, o2).world.service
  {
    ChainIgnoresBootstrap(Start(Init(s1), p).world, Start(Init(s2), p).world, o1, o2);
  }

  /** The settings after a run are the bootstrap's result; no step changes them. */
  lemma {:induction false} ChainSettings(w: World, o: Oracle)
    requires Valid(w.service) && !w.service.phase.Launched?
    ensures Chain(w, o).world.settings == w.settings
    decreases Remaining(w.service.phase)
  {
    if Pending(w.service.phase) {
      ChainSettings(Advance(w, o).world, o);
    }
  }

  lemma ProvisionSettings(p: Params, settings: Settings, o: Oracle)
    ensures Provision(p, settings, o).world.settings == Bootstrap(settings, p, o.bootstrap)
  {
    var s := Start(Init(settings), p);
    var a := Advance(s.world, o);
    assert a.world.settings == Bootstrap(settings, p, o.bootstrap);
    ChainSettings(a.world, o);
  }

  // ---------------------------------------------------------------------------
  // Repeated start commands: single flight and status replay
  // ---------------------------------------------------------------------------

  /**
    Once launched, any interleaving of start commands and callbacks starts
    exactly the steps the uninterrupted worker would, in the same order:
    what has been started plus what is still to come is the worker's run.
   */
  lemma {:induction false} ExecuteFollowsChain(w: World, cmds: seq<Command>, o: Oracle)
    requires Valid(w.service) && w.service.inFlight
    ensures var e := Execute(w, cmds, o);
      && e.world.service.inFlight
      && e.world.service.params == w.service.params
      && Runs(e.events) + Runs(Chain(e.world, o).events) == Runs(Chain(w, o).events)
    decreases |cmds|
  {
    if |cmds| > 0 {
      var t := Perform(w, cmds[0], o);
      var rest := Execute(t.world, cmds[1..], o);
      assert Execute(w, cmds, o).events == t.events + rest.events;
      PerformFollowsChain(w, cmds[0], o);
      ExecuteFollowsChain(t.world, cmds[1..], o);
      RunsAppend(t.events, rest.events);
    }
  }

  /** One call into a launched service: what it starts plus what is still to come is unchanged. */
  lemma PerformFollowsChain(w: World, c: Command, o: Oracle)
    requires Valid(w.service) && w.service.inFlight
    ensures var t := Perform(w, c, o);
      Runs(t.events) + Runs(Chain(t.world, o).events) == Runs(Chain(w, o).events)
  {
    var t := Perform(w, c, o);
    if c.Callback? && Pending(w.service.phase) {
      assert Chain(w, o).events == t.events + Chain(t.world, o).events;
      RunsAppend(t.events, Chain(t.world, o).events);
    }
  }

  /**
    Single flight: after the first start command, no interleaving of further
    start commands (with any parameters) and callbacks starts a step twice or
    out of order; the steps started are an initial segment of the route of
    the first command's parameters, and those parameters are kept.
   */
  lemma SingleFlight(p: Params, settings: Settings, cmds: seq<Command>, o: Oracle)
    ensures var e := Execute(Init(settings), [StartCommand(p)] + cmds, o);
      && Runs(e.events) <= Runs(Provision(p, settings, o).events)
      && Kinds(Runs(e.events)) <= Route(p)
      && e.world.service.params == Some(p)
  {
    var all := [StartCommand(p)] + cmds;
    var s := Start(Init(settings), p);
    assert all[1..] == cmds;
    var rest := Execute(s.world, cmds, o);
    var e := Execute(Init(settings), all, o);
    assert e.events == [Progress(DataProcess)] + rest.events;
    ExecuteFollowsChain(s.world, cmds, o);
    RunsAppend([Progress(DataProcess)], rest.events);
    TracesOfSingle(Progress(DataProcess));
    var c := Chain(s.world, o);
    assert Provision(p, settings, o).events == [Progress(DataProcess)] + c.events;
    RunsAppend([Progress(DataProcess)], c.events);
    var full := Runs(c.events);
    assert Runs(e.events) <= full;
    ProvisionFollowsRoute(p, settings, o);
    AttemptedIsPrefix(Route(p), o);
    KindsAppend(Runs(e.events), Runs(Chain(rest.world, o).events));
  }

  /**
    A start command after the run has ended starts nothing and changes
    nothing; it re-sends the last progress message followed by the run's
    terminal broadcast, which after success is set-owner and then success
    carrying the original parameters.
   */
  lemma ReplayAfterEnd(p: Params, settings: Settings, o: Oracle, q: Params)
    ensures var r := Provision(p, settings, o);
      var t := Start(r.world, q);
      && t.world == r.world
      && Runs(t.events) == []
      && t.events == [Progress(r.world.service.lastProgress.value), Last(r.events)]
      && (r.world.service.done ==> t.events == [Progress(SetOwner), Success(p)])
  {
    ProvisionHalts(p, settings, o);
  }
}
