/**
 What each repository call reads and writes, as functions on the tables. A guarded UPDATE returns
 the tables unchanged when its WHERE clause matches no row.
 */
module Queries {
  import opened Basics
  import opened CampaignState
  import opened Tables

  // ---------------------------------------------------------------------------
  // Campaign rows (internal/domain/campaign/repository/repository.go)
  // ---------------------------------------------------------------------------

  predicate CampaignIn(db: Db, p: Id, c: Id) {
    c in db.campaigns && db.campaigns[c].project == p
  }

  predicate CampaignIs(db: Db, p: Id, c: Id, statuses: set<CampaignStatus>) {
    CampaignIn(db, p, c) && db.campaigns[c].status in statuses
  }

  function PutCampaign(db: Db, c: Id, row: Campaign): Db {
    db.(campaigns := db.campaigns[c := row])
  }

  function MarkCompleted(db: Db, p: Id, c: Id, now: Time): Db {
    if CampaignIs(db, p, c, {Active})
    then PutCampaign(db, c, db.campaigns[c].(status := Completed, completedAt := Some(now)))
    else db
  }

  function Pause(db: Db, p: Id, c: Id, now: Time): Db {
    if CampaignIs(db, p, c, {Active})
    then PutCampaign(db, c, db.campaigns[c].(status := Paused, pausedAt := Some(now)))
    else db
  }

  function Resume(db: Db, p: Id, c: Id): Db {
    if CampaignIs(db, p, c, {Paused})
    then PutCampaign(db, c, db.campaigns[c].(status := Active, pausedAt := None))
    else db
  }

  const CANCELLABLE: set<CampaignStatus> := {Draft, Scheduled, Active, Paused}

  function Cancel(db: Db, p: Id, c: Id, now: Time): Db {
    if CampaignIs(db, p, c, CANCELLABLE)
    then PutCampaign(db, c, db.campaigns[c].(status := Cancelled, cancelledAt := Some(now)))
    else db
  }

  /** A scheduled campaign whose start time has come. */
  predicate Due(row: Campaign, now: Time) {
    row.status == Scheduled && row.scheduledStart.Some? && row.scheduledStart.value <= now
  }

  function DueCampaigns(db: Db, now: Time): set<Id> {
    set c | c in db.campaigns && Due(db.campaigns[c], now)
  }

  function ActivateDue(db: Db, now: Time): Db {
    db.(campaigns := map c | c in db.campaigns ::
          if Due(db.campaigns[c], now)
          then db.campaigns[c].(status := Active, activatedAt := Some(now))
          else db.campaigns[c])
  }

  // ---------------------------------------------------------------------------
  // Assignment rows
  // ---------------------------------------------------------------------------

  predicate AssignmentIs(db: Db, c: Id, d: Id, statuses: set<AssignmentStatus>) {
    Target(c, d) in db.assignments && db.assignments[Target(c, d)].status in statuses
  }

  function PutAssignment(db: Db, c: Id, d: Id, row: Assignment): Db {
    db.(assignments := db.assignments[Target(c, d) := row])
  }

  /** UpdateAssignmentStatus(pending -> offered). */
  function Offer(db: Db, c: Id, d: Id): Db {
    if AssignmentIs(db, c, d, {Pending})
    then PutAssignment(db, c, d, db.assignments[Target(c, d)].(status := Offered))
    else db
  }

  /** SetAssignmentStatus(installed): no guard on the current status. */
  function ForceInstalled(db: Db, c: Id, d: Id): Db {
    if Target(c, d) in db.assignments
    then PutAssignment(db, c, d, db.assignments[Target(c, d)].(status := Installed))
    else db
  }

  /** The milestones a device may report over the binary protocol. */
  datatype Milestone = ReportDownloaded | ReportInstalled | ReportFailed

  /** The statuses a report may overwrite. */
  function From(m: Milestone): set<AssignmentStatus> {
    match m
    case ReportDownloaded => {Offered, Downloaded}
    case ReportInstalled => {Offered, Downloaded, Installed}
    case ReportFailed => {Pending, Offered, Downloaded, Failed}
  }

  function To(m: Milestone): AssignmentStatus {
    match m
    case ReportDownloaded => Downloaded
    case ReportInstalled => Installed
    case ReportFailed => Failed
  }

  /** The report columns: only a failure carries a code and a message. */
  function ReportRow(m: Milestone, code: Option<nat>, msg: Bytes): Assignment {
    if m.ReportFailed? then Assignment(Failed, code, msg) else Assignment(To(m), None, [])
  }

  /** The UPDATE of applyAssignmentStatus. It no longer looks at the campaign. */
  function WriteReport(db: Db, c: Id, d: Id, m: Milestone, code: Option<nat>, msg: Bytes): Db {
    if AssignmentIs(db, c, d, From(m)) then PutAssignment(db, c, d, ReportRow(m, code, msg)) else db
  }

  /** The assignments of one campaign. */
  function Assigned(db: Db, c: Id): set<Target> {
    set t | t in db.assignments && t.campaign == c
  }

  function NonTerminal(db: Db, c: Id): set<Target> {
    set t | t in db.assignments && t.campaign == c && !TerminalAssignment(db.assignments[t].status)
  }

  predicate AllTerminal(db: Db, c: Id) {
    forall t | t in db.assignments && t.campaign == c :: TerminalAssignment(db.assignments[t].status)
  }

  lemma NoneLeftIsAllTerminal(db: Db, c: Id)
    ensures NonTerminal(db, c) == {} <==> AllTerminal(db, c)
    ensures |NonTerminal(db, c)| == 0 <==> AllTerminal(db, c)
  {
    if !AllTerminal(db, c) {
      var t :| t in db.assignments && t.campaign == c && !TerminalAssignment(db.assignments[t].status);
      assert t in NonTerminal(db, c);
    }
  }

  // ---------------------------------------------------------------------------
  // Offers
  // ---------------------------------------------------------------------------

  predicate FirmwareLive(db: Db, f: Id) {
    f in db.firmwares && !db.firmwares[f].deleted
  }

  /** The joined row of the offer query. */
  datatype OfferRow = OfferRow(campaign: Id, firmware: Id, version: Bytes, checksum: Bytes, status: AssignmentStatus)

  /** Active campaigns of the project, firmware live, in which the device's assignment has one of the statuses. */
  function Candidates(db: Db, p: Id, d: Id, statuses: set<AssignmentStatus>): set<Id> {
    set c | c in db.campaigns && CampaignIs(db, p, c, {Active}) && FirmwareLive(db, db.campaigns[c].firmware)
            && AssignmentIs(db, c, d, statuses)
  }

  /** created_at ASC, id ASC. */
  predicate Older(db: Db, a: Id, b: Id)
    requires a in db.campaigns && b in db.campaigns
  {
    db.campaigns[a].createdAt < db.campaigns[b].createdAt ||
    (db.campaigns[a].createdAt == db.campaigns[b].createdAt && a < b)
  }

  ghost predicate IsOldest(db: Db, s: set<Id>, c: Id)
    requires s <= db.campaigns.Keys
  {
    c in s && forall x | x in s :: x == c || Older(db, c, x)
  }

  lemma {:induction false} OldestExists(db: Db, s: set<Id>)
    requires s <= db.campaigns.Keys && s != {}
    ensures exists c :: IsOldest(db, s, c)
    decreases s
  {
    var c :| c in s;
    if s == {c} {
      assert IsOldest(db, s, c);
    } else {
      OldestExists(db, s - {c});
      var r :| IsOldest(db, s - {c}, r);
      var best := if Older(db, c, r) then c else r;
      assert s == (s - {c}) + {c};
      assert IsOldest(db, s, best);
    }
  }

  ghost function Oldest(db: Db, s: set<Id>): (c: Id)
    requires s <= db.campaigns.Keys && s != {}
    ensures IsOldest(db, s, c)
  {
    OldestExists(db, s);
    var c :| IsOldest(db, s, c);
    c
  }

  lemma OldestIsUnique(db: Db, s: set<Id>, c: Id)
    requires s <= db.campaigns.Keys && IsOldest(db, s, c)
    ensures Oldest(db, s) == c
  {
  }

  function RowFor(db: Db, c: Id, d: Id): OfferRow
    requires c in db.campaigns && db.campaigns[c].firmware in db.firmwares && Target(c, d) in db.assignments
  {
    var f := db.campaigns[c].firmware;
    OfferRow(c, f, db.firmwares[f].version, db.firmwares[f].checksum, db.assignments[Target(c, d)].status)
  }

  /** FindActivePendingOffer: pending before offered, then oldest campaign first. */
  ghost function FindOffer(db: Db, p: Id, d: Id): Option<OfferRow> {
    var pending := Candidates(db, p, d, {Pending});
    var offered := Candidates(db, p, d, {Offered});
    if pending != {} then Some(RowFor(db, Oldest(db, pending), d))
    else if offered != {} then Some(RowFor(db, Oldest(db, offered), d))
    else None
  }

  /** The query of OnDeviceReportFirmware: the oldest campaign the device is in the middle of. */
  ghost function FindInFlight(db: Db, p: Id, d: Id): Option<OfferRow> {
    var s := Candidates(db, p, d, {Offered, Downloaded});
    if s != {} then Some(RowFor(db, Oldest(db, s), d)) else None
  }

  // ---------------------------------------------------------------------------
  // Campaign creation: scope queries and the insert
  // ---------------------------------------------------------------------------

  predicate ProjectOpen(db: Db, p: Id) {
    p in db.projects && !db.projects[p].deleted && !db.projects[p].archived
  }

  predicate DeviceIn(db: Db, p: Id, d: Id) {
    d in db.devices && db.devices[d].project == p
  }

  predicate GroupIn(db: Db, p: Id, g: Id) {
    g in db.groups && db.groups[g].project == p && !db.groups[g].deleted
  }

  /** GetFirmware: soft-deleted rows are invisible. */
  predicate FirmwareIn(db: Db, p: Id, f: Id) {
    FirmwareLive(db, f) && db.firmwares[f].project == p
  }

  function DevicesInGroups(db: Db, p: Id, groups: seq<Id>): set<Id> {
    set m | m in db.members && m.group in groups && DeviceIn(db, p, m.device) :: m.device
  }

  function DevicesExplicit(db: Db, p: Id, ids: seq<Id>): set<Id> {
    set d | d in ids && DeviceIn(db, p, d)
  }

  function CompatibleDevices(db: Db, p: Id, ids: set<Id>, types: set<Id>): set<Id> {
    set d | d in ids && DeviceIn(db, p, d) && db.devices[d].deviceType in types
  }

  const FRESH: Assignment := Assignment(Pending, None, [])

  /** The rows the batch loop inserts. */
  function PendingRows(c: Id, devices: seq<Id>): map<Target, Assignment> {
    map d | d in devices :: Target(c, d) := FRESH
  }

  /** No INSERT of the bundle hits an existing primary key. */
  ghost predicate BundleFits(db: Db, c: Id, groups: seq<Id>, explicit: seq<Id>, devices: seq<Id>) {
    c !in db.campaigns
    && NoDuplicates(groups) && NoDuplicates(explicit) && NoDuplicates(devices)
    && forall d | d in devices :: Target(c, d) !in db.assignments
  }

  function InsertBundle(db: Db, c: Id, row: Campaign, devices: seq<Id>): Db {
    db.(campaigns := db.campaigns[c := row], assignments := db.assignments + PendingRows(c, devices))
  }

  // ---------------------------------------------------------------------------
  // Devices and download tokens
  // ---------------------------------------------------------------------------

  function PutDevice(db: Db, d: Id, row: Device): Db {
    db.(devices := db.devices[d := row])
  }

  function Touched(row: Device, version: Option<Bytes>, now: Time): Device {
    row.(lastSeen := Some(now), firmwareVersion := if version.Some? then version.value else row.firmwareVersion)
  }

  /** UpdateDeviceSeenAndFirmware. */
  function TouchDevice(db: Db, p: Id, d: Id, version: Option<Bytes>, now: Time): Db {
    if DeviceIn(db, p, d) then PutDevice(db, d, Touched(db.devices[d], version, now)) else db
  }

  /** INSERT of a download token; the unique index on the hash rejects a second one. */
  function InsertToken(db: Db, hash: Bytes, row: OtaToken): Db {
    if hash in db.otaTokens then db else PutToken(db, hash, row)
  }

  /** The device condition of a redemption. */
  predicate MayDownload(db: Db, p: Id, d: Id) {
    DeviceIn(db, p, d) && !db.devices[d].blocked
  }

  predicate Unconsumed(db: Db, hash: Bytes) {
    hash in db.otaTokens && db.otaTokens[hash].consumedAt.None?
  }

  function PutToken(db: Db, hash: Bytes, row: OtaToken): Db {
    db.(otaTokens := db.otaTokens[hash := row])
  }

  /** UPDATE ... SET consumed_at WHERE consumed_at IS NULL. */
  function Consume(db: Db, hash: Bytes, now: Time): Db {
    if Unconsumed(db, hash) then PutToken(db, hash, db.otaTokens[hash].(consumedAt := Some(now))) else db
  }

  datatype ConsumeError = TokenNotFound | TokenConsumed | TokenExpired | DeviceBlocked

  /** Which error a redemption ends with, in the order the transaction tests. */
  function ConsumeVerdict(db: Db, hash: Bytes, now: Time): Option<ConsumeError> {
    if hash !in db.otaTokens then Some(TokenNotFound)
    else if db.otaTokens[hash].consumedAt.Some? then Some(TokenConsumed)
    else if now >= db.otaTokens[hash].expiresAt then Some(TokenExpired)
    else if !MayDownload(db, db.otaTokens[hash].project, db.otaTokens[hash].device) then Some(DeviceBlocked)
    else None
  }
}
