/**
  The five provisioning steps as the service sees them: their inputs, their
  outcomes (success or a step-local error code), and the fixed tables that turn
  a step's error code into a user-visible error message.
 */
module Steps {
  import opened Common
  import opened Messages
  import SetDevicePolicyTask

  /** The outcome a step reports through its callback. */
  datatype StepResult<+T, +E> = Completed(value: T) | Failed(code: E)

  /** Error codes the service distinguishes for the download step; any other code is `OtherDownloadCode`. */
  datatype DownloadCode = HashMismatch | DownloadFailed | OtherDownloadCode(code: int)

  /** Error codes the service distinguishes for the install step. */
  datatype InstallCode = PackageInvalid | InstallationFailed | OtherInstallCode(code: int)

  /**
    Error codes the service distinguishes for the policy step. `NoReceiver` is
    named by the service but declared by no task in this model.
   */
  datatype PolicyCode = PackageNotInstalled | NoReceiver | OtherPolicyCode(code: int)

  /** The step kinds, in chain order. */
  datatype Kind = WifiStep | DownloadStep | InstallStep | PolicyStep | DeleteStep

  /** A constructed step together with the inputs it was started with. */
  datatype Task =
    | AddWifi(ssid: Option<string>)
    | DownloadPackage(url: Option<string>, checksum: string)
    | InstallPackage(packageName: string, location: string)
    | SetDevicePolicy(packageName: string)
    | DeleteNonRequiredApps(packageName: string)

  function KindOf(t: Task): Kind {
    match t
    case AddWifi(_) => WifiStep
    case DownloadPackage(_, _) => DownloadStep
    case InstallPackage(_, _) => InstallStep
    case SetDevicePolicy(_) => PolicyStep
    case DeleteNonRequiredApps(_) => DeleteStep
  }

  /** Which bootstrap platform calls throw. */
  datatype BootstrapFaults = BootstrapFaults(timeZoneThrows: bool, timeThrows: bool, localeThrows: bool)

  /**
    The outcome each step will report when it runs. Each step runs at most
    once per service, so one outcome per step suffices; the download step's
    success carries the downloaded package's location.
   */
  datatype Oracle = Oracle(
    bootstrap: BootstrapFaults,
    wifi: StepResult<(), ()>,
    download: StepResult<string, DownloadCode>,
    install: StepResult<(), InstallCode>,
    policy: StepResult<(), PolicyCode>,
    delete: StepResult<(), ()>)

  /** The download step's error table. */
  function DownloadErrorMessage(c: DownloadCode): (e: ErrorId)
    ensures e == HashMismatchError <==> c == HashMismatch
    ensures e == DownloadFailedError <==> c == DownloadFailed
    ensures e == GeneralError <==> c.OtherDownloadCode?
  {
    match c
    case HashMismatch => HashMismatchError
    case DownloadFailed => DownloadFailedError
    case OtherDownloadCode(_) => GeneralError
  }

  /** The install step's error table. */
  function InstallErrorMessage(c: InstallCode): (e: ErrorId)
    ensures e == PackageInvalidError <==> c == PackageInvalid
    ensures e == InstallationFailedError <==> c == InstallationFailed
    ensures e == GeneralError <==> c.OtherInstallCode?
  {
    match c
    case PackageInvalid => PackageInvalidError
    case InstallationFailed => InstallationFailedError
    case OtherInstallCode(_) => GeneralError
  }

  /** The policy step's error table; a missing receiver is reported as an invalid package. */
  function PolicyErrorMessage(c: PolicyCode): (e: ErrorId)
    ensures e == PackageNotInstalledError <==> c == PackageNotInstalled
    ensures e == PackageInvalidError <==> c == NoReceiver
    ensures e == GeneralError <==> c.OtherPolicyCode?
  {
    match c
    case PackageNotInstalled => PackageNotInstalledError
    case NoReceiver => PackageInvalidError
    case OtherPolicyCode(_) => GeneralError
  }

  /** Whether step `k` reports an error under oracle `o`. */
  predicate Fails(k: Kind, o: Oracle) {
    match k
    case WifiStep => o.wifi.Failed?
    case DownloadStep => o.download.Failed?
    case InstallStep => o.install.Failed?
    case PolicyStep => o.policy.Failed?
    case DeleteStep => o.delete.Failed?
  }

  /** The message the service reports when step `k` fails under `o`. */
  function ErrorOf(k: Kind, o: Oracle): ErrorId
    requires Fails(k, o)
  {
    match k
    case WifiStep => WifiError
    case DownloadStep => DownloadErrorMessage(o.download.code)
    case InstallStep => InstallErrorMessage(o.install.code)
    case PolicyStep => PolicyErrorMessage(o.policy.code)
    case DeleteStep => GeneralError
  }

  /**
    Every error message the service can report names the failing step's cause,
    except that an invalid package and a missing admin receiver share one
    message, and every unrecognised code of any step and a delete failure
    share the general message.
   */
  lemma ErrorMessageIdentifiesCause(k: Kind, o: Oracle)
    requires Fails(k, o)
    ensures ErrorOf(k, o) == WifiError <==> k == WifiStep
    ensures ErrorOf(k, o) == HashMismatchError <==> k == DownloadStep && o.download.code == HashMismatch
    ensures ErrorOf(k, o) == DownloadFailedError <==> k == DownloadStep && o.download.code == DownloadFailed
    ensures ErrorOf(k, o) == InstallationFailedError <==> k == InstallStep && o.install.code == InstallationFailed
    ensures ErrorOf(k, o) == PackageNotInstalledError <==> k == PolicyStep && o.policy.code == PackageNotInstalled
    ensures ErrorOf(k, o) == PackageInvalidError <==>
      (k == InstallStep && o.install.code == PackageInvalid) || (k == PolicyStep && o.policy.code == NoReceiver)
    ensures ErrorOf(k, o) == GeneralError <==>
      || k == DeleteStep
      || (k == DownloadStep && o.download.code.OtherDownloadCode?)
      || (k == InstallStep && o.install.code.OtherInstallCode?)
      || (k == PolicyStep && o.policy.code.OtherPolicyCode?)
  {
  }

  /**
    How the service reads the set-device-owner task's callback. The task
    declares only PACKAGE_NOT_INSTALLED and OTHER; every code other than
    PACKAGE_NOT_INSTALLED falls to the default branch of the service's table.
   */
  function PolicyOutcome(cb: SetDevicePolicyTask.Callback): (r: StepResult<(), PolicyCode>)
    ensures r.Completed? <==> cb == SetDevicePolicyTask.OnSuccess
    ensures r.Failed? ==> r.code != NoReceiver
    ensures r == Failed(PackageNotInstalled) <==> cb == SetDevicePolicyTask.OnError(SetDevicePolicyTask.ERROR_PACKAGE_NOT_INSTALLED)
  {
    match cb
    case OnSuccess => Completed(())
    case OnError(c) =>
      if c == SetDevicePolicyTask.ERROR_PACKAGE_NOT_INSTALLED then Failed(PackageNotInstalled)
      else Failed(OtherPolicyCode(c))
  }

  /** A policy failure that comes from `SetDevicePolicyTask` as declared is always reported as "package not installed". */
  lemma PolicyTaskErrorMessage(t: SetDevicePolicyTask.Task, d: SetDevicePolicyTask.DeviceState)
    ensures PolicyOutcome(SetDevicePolicyTask.Run(t, d).callback).Failed? <==>
      !SetDevicePolicyTask.IsPackageInstalled(d, t.packageName)
    ensures PolicyOutcome(SetDevicePolicyTask.Run(t, d).callback).Failed? ==>
      PolicyErrorMessage(PolicyOutcome(SetDevicePolicyTask.Run(t, d).callback).code) == PackageNotInstalledError
  {
  }
}
