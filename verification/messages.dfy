/** The user-visible message ids the provisioning service broadcasts (its `R.string` resources). */
module Messages {

  /** Progress messages, declared in the order the step chain reaches them. */
  datatype ProgressId = DataProcess | ConnectToWifi | Download | Install | SetOwner

  /** Position of a progress message in the chain order. */
  function Rank(id: ProgressId): nat {
    match id
    case DataProcess => 0
    case ConnectToWifi => 1
    case Download => 2
    case Install => 3
    case SetOwner => 4
  }

  /** `device_owner_error_*` messages. */
  datatype ErrorId =
    | WifiError
    | HashMismatchError
    | DownloadFailedError
    | PackageInvalidError
    | InstallationFailedError
    | PackageNotInstalledError
    | GeneralError
}
