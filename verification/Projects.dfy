/**
 Archiving and deleting projects. Deletion is refused while a campaign is unfinished and cuts off
 every device; archiving only stops polling, and unarchiving restores it.
 */
module Projects {
  import opened Basics
  import opened CampaignState
  import opened Tables
  import opened Queries
  import opened Machine
  import opened CampaignOps
  import opened DeviceTokens
  import opened Repositories
  import ServiceLaws

  // ---------------------------------------------------------------------------
  // Operations
  // ---------------------------------------------------------------------------

  predicate ProjectLive(db: Db, p: Id) {
    p in db.projects && !db.projects[p].deleted
  }

  /** UPDATE devices ... WHERE project_id = p, on the two gate columns. */
  function GateDevices(devices: map<Id, Device>, p: Id, revoke: bool, disable: bool): map<Id, Device> {
    map d | d in devices ::
      if devices[d].project == p
      then devices[d].(tokenRevoked := devices[d].tokenRevoked || revoke, pollingDisabled := disable)
      else devices[d]
  }

  function PutProject(db: Db, p: Id, row: Project): Db {
    db.(projects := db.projects[p := row])
  }

  function NewProject(db: Db, p: Id): Db {
    if p in db.projects then db else PutProject(db, p, Project(false, false))
  }

  /** ArchiveProject: a project already in the wanted state is left alone. */
  function Archive(db: Db, p: Id, archived: bool): Db {
    if !ProjectLive(db, p) || db.projects[p].archived == archived then db
    else PutProject(db, p, db.projects[p].(archived := archived)).(devices := GateDevices(db.devices, p, false, archived))
  }

  function BlockingCampaigns(db: Db, p: Id): set<Id> {
    set c | c in db.campaigns && db.campaigns[c].project == p && IsBlockingProjectDelete(db.campaigns[c].status)
  }

  /** DeleteProjectSoft: a project id without a row still gates its devices, if there were any. */
  function Delete(db: Db, p: Id): Db {
    if BlockingCampaigns(db, p) != {} then db
    else Entombed(db, p).(devices := GateDevices(db.devices, p, true, true))
  }

  function Entombed(db: Db, p: Id): Db {
    if p in db.projects then PutProject(db, p, db.projects[p].(deleted := true)) else db
  }

  datatype GateOp =
    | Found(p: Id)
    | ArchiveOp(p: Id, archived: bool)
    | DeleteOp(p: Id)
    | RegisterOp(p: Id, d: Id, deviceType: Id, token: Id, hash: Bytes)
    | RotateOp(p: Id, d: Id, token: Id, hash: Bytes)
    | BlockOp(p: Id, d: Id, blocked: bool)
    | TouchOp(p: Id, d: Id, version: Option<Bytes>)
    | Rollout(op: ServiceLaws.Operation)
    | Catalog(db: Db)

  /** Firmware and group administration writes neither projects, devices, campaigns nor tokens. */
  ghost predicate Possible(db: Db, op: GateOp) {
    && (op.Catalog? ==> op.db.projects == db.projects && op.db.devices == db.devices && op.db.campaigns == db.campaigns
                        && op.db.authTokens == db.authTokens)
    && (op.Rollout? ==> !op.op.OOutside?)
  }

  /**
   The device services refuse archived and deleted projects first. A poll or report also touches its
   device, which is not blocked.
   */
  ghost function Perform(db: Db, op: GateOp, now: Time): Db
    requires Possible(db, op)
  {
    match op
    case Found(p) => NewProject(db, p)
    case ArchiveOp(p, archived) => Archive(db, p, archived)
    case DeleteOp(p) => Delete(db, p)
    case RegisterOp(p, d, deviceType, token, hash) =>
      if ProjectOpen(db, p) then CreateDevice(db, p, d, deviceType, token, hash) else db
    case RotateOp(p, d, token, hash) => if ProjectOpen(db, p) then RotateToken(db, p, d, token, hash) else db
    case BlockOp(p, d, blocked) => if ProjectOpen(db, p) then SetBlocked(db, p, d, blocked) else db
    case TouchOp(p, d, version) => if MayDownload(db, p, d) then TouchDevice(db, p, d, version, now) else db
    case Rollout(op) => ServiceLaws.Perform(db, op, now)
    case Catalog(db') => db'
  }

  // ---------------------------------------------------------------------------
  // The invariant
  // ---------------------------------------------------------------------------

  /** The gates of a device are those of its project. */
  predicate DeviceGated(db: Db, d: Id)
    requires d in db.devices
  {
    var row := db.devices[d];
    row.project in db.projects
    && if db.projects[row.project].deleted then row.tokenRevoked && row.pollingDisabled
       else !row.tokenRevoked && row.pollingDisabled == db.projects[row.project].archived
  }

  predicate CampaignGated(db: Db, c: Id)
    requires c in db.campaigns
  {
    var row := db.campaigns[c];
    row.project in db.projects && (db.projects[row.project].deleted ==> !IsBlockingProjectDelete(row.status))
  }

  ghost predicate Gated(db: Db) {
    && (forall d | d in db.devices :: DeviceGated(db, d))
    && (forall c | c in db.campaigns :: CampaignGated(db, c))
  }

  /** Writes that open no gate: no new campaign or device, finished campaigns stay finished. */
  ghost predicate Quiet(a: Db, b: Db) {
    && a.projects == b.projects
    && (forall d :: d in a.devices <==> d in b.devices)
    && (forall d | d in a.devices :: SameGates(a.devices[d], b.devices[d]))
    && (forall c :: c in a.campaigns <==> c in b.campaigns)
    && (forall c | c in a.campaigns :: QuietCampaign(a.campaigns[c], b.campaigns[c]))
  }

  predicate SameGates(a: Device, b: Device) {
    a.project == b.project && a.tokenRevoked == b.tokenRevoked && a.pollingDisabled == b.pollingDisabled
  }

  predicate QuietCampaign(a: Campaign, b: Campaign) {
    a.project == b.project && (!IsBlockingProjectDelete(a.status) ==> b.status == a.status)
  }

  lemma QuietKeepsGated(a: Db, b: Db)
    requires Gated(a) && Quiet(a, b)
    ensures Gated(b)
  {
    forall d | d in b.devices
      ensures DeviceGated(b, d)
    {
      assert DeviceGated(a, d) && SameGates(a.devices[d], b.devices[d]);
    }
    forall c | c in b.campaigns
      ensures CampaignGated(b, c)
    {
      assert CampaignGated(a, c) && QuietCampaign(a.campaigns[c], b.campaigns[c]);
    }
  }

  lemma QuietTransitive(a: Db, b: Db, c: Db)
    requires Quiet(a, b) && Quiet(b, c)
    ensures Quiet(a, c)
  {
    forall d | d in a.devices
      ensures SameGates(a.devices[d], c.devices[d])
    {
      assert SameGates(a.devices[d], b.devices[d]) && SameGates(b.devices[d], c.devices[d]);
    }
    forall k | k in a.campaigns
      ensures QuietCampaign(a.campaigns[k], c.campaigns[k])
    {
      assert QuietCampaign(a.campaigns[k], b.campaigns[k]) && QuietCampaign(b.campaigns[k], c.campaigns[k]);
    }
  }

  lemma NothingIsQuiet(db: Db)
    ensures Quiet(db, db)
  {
  }

  lemma PutCampaignIsQuiet(db: Db, c: Id, row: Campaign)
    requires c in db.campaigns && QuietCampaign(db.campaigns[c], row)
    ensures Quiet(db, PutCampaign(db, c, row))
  {
  }

  lemma PutAssignmentIsQuiet(db: Db, c: Id, d: Id, row: Assignment)
    ensures Quiet(db, PutAssignment(db, c, d, row))
  {
  }

  lemma PutDeviceIsQuiet(db: Db, d: Id, row: Device)
    requires d in db.devices && SameGates(db.devices[d], row)
    ensures Quiet(db, PutDevice(db, d, row))
  {
  }

  lemma CompletingIsQuiet(db: Db, p: Id, c: Id, now: Time)
    ensures Quiet(db, TryAutoComplete(db, p, c, now))
  {
    NothingIsQuiet(db);
    if CampaignIs(db, p, c, {Active}) {
      PutCampaignIsQuiet(db, c, db.campaigns[c].(status := Completed, completedAt := Some(now)));
    }
  }

  lemma OfferIsQuiet(db: Db, c: Id, d: Id)
    ensures Quiet(db, Offer(db, c, d)) && Quiet(db, ForceInstalled(db, c, d))
  {
    NothingIsQuiet(db);
    if Target(c, d) in db.assignments {
      PutAssignmentIsQuiet(db, c, d, db.assignments[Target(c, d)].(status := Offered));
      PutAssignmentIsQuiet(db, c, d, db.assignments[Target(c, d)].(status := Installed));
    }
  }

  lemma ReportWriteIsQuiet(db: Db, c: Id, d: Id, m: Milestone, code: Option<nat>, msg: Bytes)
    ensures Quiet(db, WriteReport(db, c, d, m, code, msg))
  {
    NothingIsQuiet(db);
    PutAssignmentIsQuiet(db, c, d, ReportRow(m, code, msg));
  }

  lemma TouchingIsQuiet(db: Db, p: Id, d: Id, version: Option<Bytes>, now: Time)
    ensures Quiet(db, TouchDevice(db, p, d, version, now))
  {
    NothingIsQuiet(db);
    if DeviceIn(db, p, d) {
      PutDeviceIsQuiet(db, d, Touched(db.devices[d], version, now));
    }
  }

  lemma OperatorsAreQuiet(db: Db, p: Id, c: Id, now: Time)
    ensures Quiet(db, Pause(db, p, c, now)) && Quiet(db, Resume(db, p, c)) && Quiet(db, Cancel(db, p, c, now))
  {
    NothingIsQuiet(db);
    if CampaignIs(db, p, c, CANCELLABLE) {
      var row := db.campaigns[c];
      PutCampaignIsQuiet(db, c, row.(status := Paused, pausedAt := Some(now)));
      PutCampaignIsQuiet(db, c, row.(status := Active, pausedAt := None));
      PutCampaignIsQuiet(db, c, row.(status := Cancelled, cancelledAt := Some(now)));
    }
  }

  lemma ActivationIsQuiet(db: Db, now: Time)
    ensures Quiet(db, ActivateDue(db, now))
  {
  }

  lemma RotationIsQuiet(db: Db, p: Id, d: Id, token: Id, hash: Bytes)
    ensures Quiet(db, RotateToken(db, p, d, token, hash))
  {
    NothingIsQuiet(db);
    if DeviceIn(db, p, d) {
      PutDeviceIsQuiet(db, d, db.devices[d].(activeToken := token));
    }
  }

  lemma BlockingIsQuiet(db: Db, p: Id, d: Id, blocked: bool)
    ensures Quiet(db, SetBlocked(db, p, d, blocked))
  {
    NothingIsQuiet(db);
    if DeviceIn(db, p, d) {
      PutDeviceIsQuiet(db, d, db.devices[d].(blocked := blocked));
    }
  }

  lemma TokensAreQuiet(db: Db, tokens: map<Bytes, OtaToken>)
    ensures Quiet(db, db.(otaTokens := tokens))
  {
  }

  lemma OfferingIsQuiet(db: Db, p: Id, d: Id, now: Time)
    ensures Quiet(db, BuildPollOffer(db, p, d, now).db)
  {
    NothingIsQuiet(db);
    if FindOffer(db, p, d).Some? {
      var c := FindOffer(db, p, d).value.campaign;
      OfferIsQuiet(db, c, d);
      CompletingIsQuiet(Offer(db, c, d), p, c, now);
      QuietTransitive(db, Offer(db, c, d), BuildPollOffer(db, p, d, now).db);
    }
  }

  lemma PollIsQuiet(db: Db, p: Id, d: Id, plan: Option<TokenPlan>, now: Time)
    ensures Quiet(db, Poll(db, p, d, plan, now).db)
  {
    var polled, r := BuildPollOffer(db, p, d, now).db, Poll(db, p, d, plan, now).db;
    OfferingIsQuiet(db, p, d, now);
    ServiceLaws.PollingIssues(db, p, d, plan, now);
    TokensAreQuiet(polled, r.otaTokens);
    QuietTransitive(db, polled, r);
  }

  lemma RedeemingIsQuiet(db: Db, hash: Bytes, now: Time)
    ensures Quiet(db, Redeem(db, hash, now).db)
  {
    ServiceLaws.RedeemingConsumes(db, hash, now);
    TokensAreQuiet(db, Redeem(db, hash, now).db.otaTokens);
  }

  lemma AfterInstalledIsQuiet(db: Db, p: Id, d: Id, c: Id, now: Time)
    requires c in db.campaigns
    ensures Quiet(db, AfterInstalled(db, p, d, c, now).db)
  {
    var f := db.campaigns[c].firmware;
    if FirmwareIn(db, p, f) {
      var touched := TouchDevice(db, p, d, Some(db.firmwares[f].version), now);
      TouchingIsQuiet(db, p, d, Some(db.firmwares[f].version), now);
      CompletingIsQuiet(touched, p, c, now);
      QuietTransitive(db, touched, TryAutoComplete(touched, p, c, now));
    }
  }

  lemma ReportIsQuiet(db: Db, p: Id, d: Id, c: Id, m: Milestone, code: Option<nat>, msg: Bytes, now: Time)
    ensures Quiet(db, ApplyReport(db, p, d, c, m, code, msg, now).db)
  {
    CompletingIsQuiet(db, p, c, now);
    if ReportAccepted(db, p, d, c, m) {
      var written := WriteReport(db, c, d, m, code, msg);
      ReportWriteIsQuiet(db, c, d, m, code, msg);
      CompletingIsQuiet(written, p, c, now);
      AfterInstalledIsQuiet(written, p, d, c, now);
      QuietTransitive(db, written, ApplyReport(db, p, d, c, m, code, msg, now).db);
    }
  }

  lemma VersionReportIsQuiet(db: Db, p: Id, d: Id, accepts: Bytes -> bool, now: Time)
    ensures Quiet(db, ReportVersion(db, p, d, accepts, now))
  {
    var found := FindInFlight(db, p, d);
    if found.Some? && accepts(found.value.version) {
      var c := found.value.campaign;
      OfferIsQuiet(db, c, d);
      CompletingIsQuiet(ForceInstalled(db, c, d), p, c, now);
      QuietTransitive(db, ForceInstalled(db, c, d), ReportVersion(db, p, d, accepts, now));
    }
  }

  /** A new campaign belongs to an open project. */
  lemma CreationKeepsGated(db: Db, input: CreateInput, c: Id, now: Time)
    requires Gated(db)
    ensures Gated(CreateCampaign(db, input, c, now))
  {
    var db' := CreateCampaign(db, input, c, now);
    forall d | d in db'.devices
      ensures DeviceGated(db', d)
    {
      assert DeviceGated(db, d);
    }
    forall k | k in db'.campaigns
      ensures CampaignGated(db', k)
    {
      assert k in db.campaigns ==> CampaignGated(db, k);
    }
  }

  lemma RolloutKeepsGated(db: Db, op: ServiceLaws.Operation, now: Time)
    requires Gated(db) && !op.OOutside?
    ensures Gated(ServiceLaws.Perform(db, op, now))
  {
    match op
    case OPoll(p, d, plan) => PollIsQuiet(db, p, d, plan, now); QuietKeepsGated(db, Poll(db, p, d, plan, now).db);
    case ODownload(hash) => RedeemingIsQuiet(db, hash, now); QuietKeepsGated(db, Redeem(db, hash, now).db);
    case OReport(p, d, c, m, code, msg) =>
      ReportIsQuiet(db, p, d, c, m, code, msg, now);
      QuietKeepsGated(db, ApplyReport(db, p, d, c, m, code, msg, now).db);
    case OVersion(p, d, accepts) =>
      VersionReportIsQuiet(db, p, d, accepts, now);
      QuietKeepsGated(db, ReportVersion(db, p, d, accepts, now));
    case OPause(p, c) => OperatorsAreQuiet(db, p, c, now); QuietKeepsGated(db, Pause(db, p, c, now));
    case OResume(p, c) => OperatorsAreQuiet(db, p, c, now); QuietKeepsGated(db, Resume(db, p, c));
    case OCancel(p, c) => OperatorsAreQuiet(db, p, c, now); QuietKeepsGated(db, Cancel(db, p, c, now));
    case OActivate => ActivationIsQuiet(db, now); QuietKeepsGated(db, ActivateDue(db, now));
    case OCreate(input, c) => CreationKeepsGated(db, input, c, now);
  }

  lemma GatingKeepsGated(db: Db, p: Id, row: Project, revoke: bool)
    requires Gated(db) && ProjectLive(db, p)
    requires if row.deleted then revoke && BlockingCampaigns(db, p) == {} else !revoke
    ensures Gated(PutProject(db, p, row).(devices := GateDevices(db.devices, p, revoke, row.deleted || row.archived)))
  {
    var db' := PutProject(db, p, row).(devices := GateDevices(db.devices, p, revoke, row.deleted || row.archived));
    forall d | d in db'.devices
      ensures DeviceGated(db', d)
    {
      assert DeviceGated(db, d);
    }
    forall c | c in db'.campaigns
      ensures CampaignGated(db', c)
    {
      assert CampaignGated(db, c);
      assert c !in BlockingCampaigns(db, p) || !row.deleted;
    }
  }

  /** Deleting a deleted project, or one without a row, changes nothing: its devices are closed already. */
  lemma DeletingAgainChangesNothing(db: Db, p: Id)
    requires Gated(db) && (p in db.projects ==> db.projects[p].deleted)
    ensures Delete(db, p) == db
  {
    forall d | d in db.devices
      ensures GateDevices(db.devices, p, true, true)[d] == db.devices[d]
    {
      assert DeviceGated(db, d);
    }
    assert GateDevices(db.devices, p, true, true) == db.devices;
    if p in db.projects {
      assert db.projects[p := db.projects[p].(deleted := true)] == db.projects;
    }
  }

  lemma ProjectsKeepGated(db: Db, p: Id, archived: bool)
    requires Gated(db)
    ensures Gated(NewProject(db, p)) && Gated(Archive(db, p, archived)) && Gated(Delete(db, p))
  {
    NewProjectKeepsGated(db, p);
    if ProjectLive(db, p) {
      GatingKeepsGated(db, p, db.projects[p].(archived := archived), false);
      if BlockingCampaigns(db, p) == {} {
        GatingKeepsGated(db, p, db.projects[p].(deleted := true), true);
      }
    } else {
      DeletingAgainChangesNothing(db, p);
    }
  }

  lemma NewProjectKeepsGated(db: Db, p: Id)
    requires Gated(db)
    ensures Gated(NewProject(db, p))
  {
    var db' := NewProject(db, p);
    forall d | d in db'.devices
      ensures DeviceGated(db', d)
    {
      assert DeviceGated(db, d);
    }
    forall c | c in db'.campaigns
      ensures CampaignGated(db', c)
    {
      assert CampaignGated(db, c);
    }
  }

  lemma RegistrationKeepsGated(db: Db, p: Id, d: Id, deviceType: Id, token: Id, hash: Bytes)
    requires Gated(db) && ProjectOpen(db, p)
    ensures Gated(CreateDevice(db, p, d, deviceType, token, hash))
  {
    var db' := CreateDevice(db, p, d, deviceType, token, hash);
    forall k | k in db'.devices
      ensures DeviceGated(db', k)
    {
      assert k in db.devices ==> DeviceGated(db, k);
    }
    forall c | c in db'.campaigns
      ensures CampaignGated(db', c)
    {
      assert CampaignGated(db, c);
    }
  }

  lemma OperationKeepsGated(db: Db, op: GateOp, now: Time)
    requires Possible(db, op) && Gated(db)
    ensures Gated(Perform(db, op, now))
  {
    match op
    case Found(p) => ProjectsKeepGated(db, p, false);
    case ArchiveOp(p, archived) => ProjectsKeepGated(db, p, archived);
    case DeleteOp(p) => ProjectsKeepGated(db, p, false);
    case RegisterOp(p, d, deviceType, token, hash) =>
      if ProjectOpen(db, p) { RegistrationKeepsGated(db, p, d, deviceType, token, hash); }
    case RotateOp(p, d, token, hash) => RotationIsQuiet(db, p, d, token, hash); QuietKeepsGated(db, RotateToken(db, p, d, token, hash));
    case BlockOp(p, d, blocked) => BlockingIsQuiet(db, p, d, blocked); QuietKeepsGated(db, SetBlocked(db, p, d, blocked));
    case TouchOp(p, d, version) => TouchingIsQuiet(db, p, d, version, now); QuietKeepsGated(db, TouchDevice(db, p, d, version, now));
    case Rollout(op) => RolloutKeepsGated(db, op, now);
    case Catalog(db') => QuietKeepsGated(db, db');
  }

  // ---------------------------------------------------------------------------
  // Histories
  // ---------------------------------------------------------------------------

  datatype Act = Act(op: GateOp, now: Time)

  /** The operations can happen one after the other, starting from db. */
  ghost predicate Follows(db: Db, acts: seq<Act>)
    decreases |acts|
  {
    acts == [] || (Possible(db, acts[0].op) && Follows(Perform(db, acts[0].op, acts[0].now), acts[1..]))
  }

  ghost function After(db: Db, acts: seq<Act>): Db
    requires Follows(db, acts)
    decreases |acts|
  {
    if acts == [] then db else After(Perform(db, acts[0].op, acts[0].now), acts[1..])
  }

  lemma {:induction false} HistoriesAreGated(db: Db, acts: seq<Act>)
    requires Gated(db) && Follows(db, acts)
    ensures Gated(After(db, acts))
    decreases |acts|
  {
    if acts != [] {
      OperationKeepsGated(db, acts[0].op, acts[0].now);
      HistoriesAreGated(Perform(db, acts[0].op, acts[0].now), acts[1..]);
    }
  }

  ghost predicate Buried(db: Db, p: Id) {
    p in db.projects && db.projects[p].deleted
  }

  lemma RolloutKeepsProjects(db: Db, op: ServiceLaws.Operation, now: Time)
    requires !op.OOutside?
    ensures ServiceLaws.Perform(db, op, now).projects == db.projects
  {
    match op
    case OPoll(p, d, plan) => PollIsQuiet(db, p, d, plan, now);
    case ODownload(hash) => RedeemingIsQuiet(db, hash, now);
    case OReport(p, d, c, m, code, msg) => ReportIsQuiet(db, p, d, c, m, code, msg, now);
    case OVersion(p, d, accepts) => VersionReportIsQuiet(db, p, d, accepts, now);
    case _ =>
  }

  lemma OperationKeepsBuried(db: Db, op: GateOp, now: Time, p: Id)
    requires Possible(db, op) && Buried(db, p)
    ensures Buried(Perform(db, op, now), p)
  {
    if op.Rollout? {
      RolloutKeepsProjects(db, op.op, now);
    }
  }

  lemma {:induction false} BuriedForever(db: Db, acts: seq<Act>, p: Id)
    requires Follows(db, acts) && Buried(db, p)
    ensures Buried(After(db, acts), p)
    decreases |acts|
  {
    if acts != [] {
      OperationKeepsBuried(db, acts[0].op, acts[0].now, p);
      BuriedForever(Perform(db, acts[0].op, acts[0].now), acts[1..], p);
    }
  }

  // ---------------------------------------------------------------------------
  // Main results
  // ---------------------------------------------------------------------------

  /** Everything about a deleted project is over. */
  ghost predicate AllOver(db: Db, p: Id) {
    && (forall c | c in db.campaigns && db.campaigns[c].project == p :: !IsBlockingProjectDelete(db.campaigns[c].status))
    && (forall hash, d | Authenticate(db, hash) == Ok(d) :: db.devices[d].project != p)
  }

  lemma GatedProjectsAreOver(db: Db, p: Id)
    requires Gated(db) && Buried(db, p)
    ensures AllOver(db, p)
  {
    forall c | c in db.campaigns && db.campaigns[c].project == p
      ensures !IsBlockingProjectDelete(db.campaigns[c].status)
    {
      assert CampaignGated(db, c);
    }
    forall hash, d | Authenticate(db, hash) == Ok(d)
      ensures db.devices[d].project != p
    {
      assert DeviceGated(db, d);
    }
  }

  /**
   Main result: once a project is deleted it stays deleted, its campaigns are all completed or
   cancelled and no secret ever authenticates one of its devices, whatever operations follow.
   */
  lemma DeletedProjectsStayOver(before: seq<Act>, later: seq<Act>, p: Id)
    requires Follows(EMPTY, before) && Buried(After(EMPTY, before), p)
    requires Follows(After(EMPTY, before), later)
    ensures Buried(After(After(EMPTY, before), later), p) && AllOver(After(After(EMPTY, before), later), p)
  {
    var db := After(EMPTY, before);
    HistoriesAreGated(EMPTY, before);
    HistoriesAreGated(db, later);
    BuriedForever(db, later, p);
    GatedProjectsAreOver(After(db, later), p);
  }

  ghost predicate PollingFollowsArchive(db: Db, d: Id) {
    d in db.devices && ProjectLive(db, db.devices[d].project) ==>
      (db.devices[d].pollingDisabled <==> db.projects[db.devices[d].project].archived)
  }

  /** Main result: in a live project a device's polling is disabled exactly while the project is archived. */
  lemma PollingIsDisabledExactlyWhileArchived(acts: seq<Act>, d: Id)
    requires Follows(EMPTY, acts)
    ensures PollingFollowsArchive(After(EMPTY, acts), d)
  {
    HistoriesAreGated(EMPTY, acts);
    if d in After(EMPTY, acts).devices {
      assert DeviceGated(After(EMPTY, acts), d);
    }
  }

  // ---------------------------------------------------------------------------
  // The service
  // ---------------------------------------------------------------------------

  datatype ProjectError = ProjectNotFound | CampaignsActive

  class ProjectService {
    const repo: Repository

    constructor (repo: Repository)
      ensures this.repo == repo
    {
      this.repo := repo;
    }

    method SetDevicesPollingForArchive(p: Id, disable: bool)
      modifies repo`devices
      ensures repo.devices == GateDevices(old(repo.devices), p, false, disable)
    {
      repo.devices := map d | d in repo.devices ::
        if repo.devices[d].project == p then repo.devices[d].(pollingDisabled := disable) else repo.devices[d];
    }

    method RevokeDevicesAndDisablePolling(p: Id)
      modifies repo`devices
      ensures repo.devices == GateDevices(old(repo.devices), p, true, true)
    {
      repo.devices := map d | d in repo.devices ::
        if repo.devices[d].project == p then repo.devices[d].(tokenRevoked := true, pollingDisabled := true) else repo.devices[d];
    }

    method ArchiveProject(p: Id, archive: bool) returns (error: Option<ProjectError>)
      modifies repo
      ensures error == if ProjectLive(old(repo.Snapshot()), p) then None else Some(ProjectNotFound)
      ensures repo.Snapshot() == Archive(old(repo.Snapshot()), p, archive)
    {
      if !ProjectLive(repo.Snapshot(), p) {
        return Some(ProjectNotFound);
      }
      if archive && repo.projects[p].archived {
        return None;
      }
      if !archive && !repo.projects[p].archived {
        return None;
      }
      repo.projects := repo.projects[p := repo.projects[p].(archived := archive)];
      SetDevicesPollingForArchive(p, archive);
      error := None;
    }

    /** One transaction: count what blocks, revoke the devices, soft-delete the project. */
    method DeleteProject(p: Id) returns (error: Option<ProjectError>)
      modifies repo
      ensures error == if BlockingCampaigns(old(repo.Snapshot()), p) == {} then None else Some(CampaignsActive)
      ensures repo.Snapshot() == Delete(old(repo.Snapshot()), p)
    {
      var n := |BlockingCampaigns(repo.Snapshot(), p)|;
      if n > 0 {
        return Some(CampaignsActive);
      }
      RevokeDevicesAndDisablePolling(p);
      if p in repo.projects {
        repo.projects := repo.projects[p := repo.projects[p].(deleted := true)];
      }
      error := None;
    }
  }
}
