/** The custom resource: AlibabaCloudCSIDriver, its spec and its status. */
module DriverTypes {
  import opened Base

  datatype DiskClass = DiskClass(
    name: string, diskType: string, reclaimPolicy: string, allowExpansion: bool,
    virtDefault: bool, encrypted: bool, volumeMode: string)

  // `parameters` stands for the result of nasStorageClassParameters.
  datatype NasClass = NasClass(
    name: string, parameters: map<string, string>, reclaimPolicy: string,
    allowExpansion: bool, virtDefault: bool)

  datatype SnapshotConfig = SnapshotConfig(enabled: bool, className: string)

  datatype ProfileConfig = ProfileConfig(patch: bool, cloneStrategy: string)

  datatype DiskSpec = DiskSpec(
    enabled: bool, defaultStorageClass: bool, classes: seq<DiskClass>,
    snapshot: SnapshotConfig, profile: ProfileConfig)

  datatype NasSpec = NasSpec(enabled: bool, classes: seq<NasClass>, profile: ProfileConfig)

  datatype SecretKey = SecretKey(name: string, key: string)

  datatype EnvSpec = EnvSpec(name: string, value: string, secret: Option<SecretKey>)

  datatype Toleration = Toleration(key: string, operator: string, value: string, effect: string)

  datatype ControllerSpec = ControllerSpec(
    replicas: int, nodeSelector: Option<map<string, string>>, tolerations: seq<Toleration>)

  datatype Spec = Spec(
    disk: DiskSpec, nas: NasSpec, ossEnabled: bool, imageTag: string, ecsEndpoint: string,
    extraEnv: seq<EnvSpec>, ramToken: string, controller: ControllerSpec)

  datatype Error =
    | NotFound
    | AlreadyExists
    | Conflict
    | Invalid        // Create of an object that already carries a resourceVersion
    | NoMatch        // the API group is not served
    | AlreadyOwned   // SetControllerReference met a foreign controller
    | Unavailable    // transport failure: the caller cannot tell whether the call took effect
    | Crashed        // the operator process died during the call

  datatype Condition = Condition(
    ctype: string, status: string, reason: string, cause: Option<Error>, since: nat)

  datatype Status = Status(
    observedGeneration: nat, diskReady: bool, nasReady: bool, ossReady: bool,
    conditions: seq<Condition>)

  const EMPTY_STATUS := Status(0, false, false, false, [])

  datatype Driver = Driver(name: string, uid: nat, generation: nat, spec: Spec, status: Status)
}
