/**
  The set-device-owner provisioning step. The package manager and the
  device-policy manager are replaced by one immutable record; every call the
  task makes into them is logged, and `Run` returns the new record, the call
  log and the single callback the task fires.
 */
module SetDevicePolicyTask {
  import opened Common

  /** Error codes declared by the task. */
  const ERROR_PACKAGE_NOT_INSTALLED: int := 0
  const ERROR_OTHER: int := 1

  /** `PackageManager.COMPONENT_ENABLED_STATE_*`. */
  datatype EnabledSetting = Default | Enabled | Disabled | DisabledUser | DisabledUntilUsed

  /** A `ComponentName`: package plus receiver class. */
  datatype Component = Component(packageName: string, className: string)

  /** The device owner as recorded by the policy manager. */
  datatype Owner = Owner(packageName: string, name: string)

  /** What the task can observe of, and change in, the package and policy managers. */
  datatype DeviceState = DeviceState(
    installed: set<string>,
    enabled: map<string, EnabledSetting>,
    activeAdmins: set<Component>,
    deviceOwner: Option<Owner>)

  /** A state-changing call into the platform managers. */
  datatype Call =
    | SetApplicationEnabledSetting(packageName: string, setting: EnabledSetting)
    | SetActiveAdmin(component: Component)
    | SetDeviceOwner(packageName: string, ownerName: string)

  /** The task's callback: exactly one of these fires per `Run`. */
  datatype Callback = OnSuccess | OnError(errorCode: int)

  /** The task's constructor arguments. */
  datatype Task = Task(packageName: string, adminReceiver: string, owner: string)

  datatype RunResult = RunResult(device: DeviceState, calls: seq<Call>, callback: Callback)

  /** A package without an explicit entry is in its default enabled state. */
  function EnabledSettingOf(d: DeviceState, packageName: string): EnabledSetting {
    if packageName in d.enabled then d.enabled[packageName] else Default
  }

  predicate IsPackageInstalled(d: DeviceState, packageName: string) {
    packageName in d.installed
  }

  predicate IsDeviceOwner(d: DeviceState, packageName: string) {
    d.deviceOwner.Some? && d.deviceOwner.value.packageName == packageName
  }

  /** The effect of one manager call on the device: the interpreter the task's log is read against. */
  function Apply(d: DeviceState, c: Call): DeviceState {
    match c
    case SetApplicationEnabledSetting(p, s) => d.(enabled := d.enabled[p := s])
    case SetActiveAdmin(comp) => d.(activeAdmins := d.activeAdmins + {comp})
    case SetDeviceOwner(p, name) => d.(deviceOwner := Some(Owner(p, name)))
  }

  function ApplyAll(d: DeviceState, cs: seq<Call>): DeviceState
    decreases |cs|
  {
    if |cs| == 0 then d else ApplyAll(Apply(d, cs[0]), cs[1..])
  }

  lemma {:induction false} ApplyAllAppend(d: DeviceState, xs: seq<Call>, ys: seq<Call>)
    ensures ApplyAll(d, xs + ys) == ApplyAll(ApplyAll(d, xs), ys)
    decreases |xs|
  {
    if |xs| == 0 {
      assert xs + ys == ys;
    } else {
      assert (xs + ys)[1..] == xs[1..] + ys;
      ApplyAllAppend(Apply(d, xs[0]), xs[1..], ys);
    }
  }

  lemma ApplyAllSingle(d: DeviceState, c: Call)
    ensures ApplyAll(d, [c]) == Apply(d, c)
  {
    assert [c][1..] == [];
  }

  /** `enableDevicePolicyApp`: the setter is called only when the setting is not already DEFAULT. */
  function EnableDevicePolicyApp(t: Task, d: DeviceState): (cs: seq<Call>)
    ensures |cs| <= 1
    ensures EnabledSettingOf(ApplyAll(d, cs), t.packageName) == Default
    ensures cs != [] <==> EnabledSettingOf(d, t.packageName) != Default
  {
    if EnabledSettingOf(d, t.packageName) != Default
    then [SetApplicationEnabledSetting(t.packageName, Default)]
    else []
  }

  /** `setActiveAdmin`: always registers (package, receiver) as an active admin. */
  function SetActiveAdminCalls(t: Task): seq<Call> {
    [SetActiveAdmin(Component(t.packageName, t.adminReceiver))]
  }

  /** On any device, the `setActiveAdmin` call adds exactly (package, receiver) to the admins and nothing else. */
  lemma SetActiveAdminEffect(t: Task, d: DeviceState)
    ensures ApplyAll(d, SetActiveAdminCalls(t)) ==
      d.(activeAdmins := d.activeAdmins + {Component(t.packageName, t.adminReceiver)})
  {
    assert SetActiveAdminCalls(t)[1..] == [];
  }

  /** `setDeviceOwner`: writes only when the package is not already the device owner. */
  function SetDeviceOwnerCalls(t: Task, d: DeviceState): (cs: seq<Call>)
    ensures IsDeviceOwner(ApplyAll(d, cs), t.packageName)
    ensures cs != [] <==> !IsDeviceOwner(d, t.packageName)
  {
    if !IsDeviceOwner(d, t.packageName) then [SetDeviceOwner(t.packageName, t.owner)] else []
  }

  predicate HasEnableCall(cs: seq<Call>) {
    exists i :: 0 <= i < |cs| && cs[i].SetApplicationEnabledSetting?
  }

  predicate HasOwnerCall(cs: seq<Call>) {
    exists i :: 0 <= i < |cs| && cs[i].SetDeviceOwner?
  }

  /**
    `run`: checks the package is installed, then enables it, makes it an active
    admin and the device owner, in that order, each against the state left by
    the previous action, and only then reports success.
   */
  function Run(t: Task, d: DeviceState): (r: RunResult)
    ensures r.device == ApplyAll(d, r.calls)
    ensures r.callback.OnError? <==> !IsPackageInstalled(d, t.packageName)
    ensures r.callback.OnError? ==> r.callback.errorCode == ERROR_PACKAGE_NOT_INSTALLED && r.calls == []
    ensures r.callback != OnError(ERROR_OTHER)
    ensures r.callback == OnSuccess ==>
      && EnabledSettingOf(r.device, t.packageName) == Default
      && Component(t.packageName, t.adminReceiver) in r.device.activeAdmins
      && IsDeviceOwner(r.device, t.packageName)
    ensures HasEnableCall(r.calls) <==>
      IsPackageInstalled(d, t.packageName) && EnabledSettingOf(d, t.packageName) != Default
    ensures HasOwnerCall(r.calls) <==>
      IsPackageInstalled(d, t.packageName) && !IsDeviceOwner(d, t.packageName)
  {
    if !IsPackageInstalled(d, t.packageName) then
      RunResult(d, [], OnError(ERROR_PACKAGE_NOT_INSTALLED))
    else
      var enable := EnableDevicePolicyApp(t, d);
      var d1 := ApplyAll(d, enable);
      var admin := SetActiveAdminCalls(t);
      var d2 := ApplyAll(d1, admin);
      var owner := SetDeviceOwnerCalls(t, d2);
      var d3 := ApplyAll(d2, owner);
      ApplyAllAppend(d, enable, admin);
      ApplyAllAppend(d, enable + admin, owner);
      ApplyAllSingle(d1, admin[0]);
      RunResult(d3, enable + admin + owner, OnSuccess)
  }

  /** `run` changes nothing but the admin package's enabled setting, the admin set and the owner. */
  lemma RunFrame(t: Task, d: DeviceState)
    ensures Run(t, d).device.installed == d.installed
    ensures forall p :: p != t.packageName ==> EnabledSettingOf(Run(t, d).device, p) == EnabledSettingOf(d, p)
    ensures Run(t, d).device.activeAdmins ==
      if IsPackageInstalled(d, t.packageName) then d.activeAdmins + {Component(t.packageName, t.adminReceiver)}
      else d.activeAdmins
    ensures Run(t, d).device.deviceOwner ==
      if IsPackageInstalled(d, t.packageName) && !IsDeviceOwner(d, t.packageName)
      then Some(Owner(t.packageName, t.owner))
      else d.deviceOwner
  {
    var r := Run(t, d);
    if IsPackageInstalled(d, t.packageName) {
      var enable := EnableDevicePolicyApp(t, d);
      var d1 := ApplyAll(d, enable);
      if enable != [] {
        ApplyAllSingle(d, enable[0]);
        assert d1 == d.(enabled := d.enabled[t.packageName := Default]);
      }
      var comp := Component(t.packageName, t.adminReceiver);
      var d2 := ApplyAll(d1, SetActiveAdminCalls(t));
      ApplyAllSingle(d1, SetActiveAdmin(comp));
      var owner := SetDeviceOwnerCalls(t, d2);
      if owner != [] {
        ApplyAllSingle(d2, owner[0]);
      }
      assert r.device == ApplyAll(d2, owner);
    }
  }

  /** Running the task a second time leaves the device as the first run left it and re-reports the same outcome. */
  lemma RunIdempotent(t: Task, d: DeviceState)
    ensures Run(t, Run(t, d).device).device == Run(t, d).device
    ensures Run(t, Run(t, d).device).callback == Run(t, d).callback
    ensures IsPackageInstalled(d, t.packageName) ==> Run(t, Run(t, d).device).calls == SetActiveAdminCalls(t)
  {
    var r1 := Run(t, d);
    RunFrame(t, d);
    if IsPackageInstalled(d, t.packageName) {
      var r2 := Run(t, r1.device);
      RunFrame(t, r1.device);
      assert !HasEnableCall(r2.calls) && !HasOwnerCall(r2.calls);
      assert forall p :: EnabledSettingOf(r2.device, p) == EnabledSettingOf(r1.device, p);
      assert r2.device.enabled == r1.device.enabled by {
        assert r2.calls == SetActiveAdminCalls(t);
      }
    }
  }
}
