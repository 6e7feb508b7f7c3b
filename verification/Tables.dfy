/** The rows the rollout engine reads and writes, and one value holding all tables. */
module Tables {
  import opened Basics
  import opened CampaignState

  datatype Project = Project(archived: bool, deleted: bool)

  datatype Device = Device(
    project: Id,
    deviceType: Id,
    blocked: bool,
    tokenRevoked: bool,
    pollingDisabled: bool,
    activeToken: Id,
    firmwareVersion: Bytes,
    lastSeen: Option<Time>
  )

  datatype DeviceGroup = DeviceGroup(project: Id, deleted: bool)

  datatype Membership = Membership(group: Id, device: Id)

  datatype Firmware = Firmware(project: Id, version: Bytes, checksum: Bytes, deviceTypes: set<Id>, deleted: bool)

  datatype Campaign = Campaign(
    project: Id,
    firmware: Id,
    kind: RolloutKind,
    percent: Option<int>,
    scheduledStart: Option<Time>,
    status: CampaignStatus,
    target: nat,
    createdAt: Time,
    activatedAt: Option<Time>,
    pausedAt: Option<Time>,
    cancelledAt: Option<Time>,
    completedAt: Option<Time>
  )

  /** Primary key of an assignment. */
  datatype Target = Target(campaign: Id, device: Id)

  datatype Assignment = Assignment(status: AssignmentStatus, reportCode: Option<nat>, reportMsg: Bytes)

  datatype OtaToken = OtaToken(
    project: Id,
    device: Id,
    campaign: Id,
    firmware: Id,
    expiresAt: Time,
    consumedAt: Option<Time>
  )

  datatype AuthToken = AuthToken(device: Id, hash: Bytes, revoked: bool, replacedBy: Option<Id>)

  /** All tables. Primary keys are map keys; the download tokens are keyed by their unique hash. */
  datatype Db = Db(
    projects: map<Id, Project>,
    devices: map<Id, Device>,
    groups: map<Id, DeviceGroup>,
    members: set<Membership>,
    firmwares: map<Id, Firmware>,
    campaigns: map<Id, Campaign>,
    assignments: map<Target, Assignment>,
    otaTokens: map<Bytes, OtaToken>,
    authTokens: map<Id, AuthToken>
  )

  const EMPTY: Db := Db(map[], map[], map[], {}, map[], map[], map[], map[], map[])
}
