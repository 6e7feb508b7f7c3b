/**
 The rollout engine at the grain the database sees it.

 Only campaign creation's insert, scheduler activation and a few others run in a transaction;
 every service operation is a sequence of single reads and guarded writes, and any number of
 them are in flight at once. Each in-flight operation is a program counter carrying what it has
 read so far, which may be stale. One step of one operation is one repository call.
 */
module Machine {
  import opened Basics
  import opened CampaignState
  import opened Tables
  import opened Queries
  import Selection

  // ---------------------------------------------------------------------------
  // Inputs
  // ---------------------------------------------------------------------------

  datatype CreateInput = CreateInput(
    project: Id,
    nameGiven: bool,
    firmware: Id,
    kind: RolloutKind,
    percent: Option<int>,
    scheduledStart: Option<Time>,
    groups: seq<Id>,
    explicit: seq<Id>
  )

  const NIL: Id := 0

  /** The checks of CreateCampaign that read no table. */
  predicate ValidInput(input: CreateInput) {
    && input.nameGiven
    && input.firmware != NIL
    && (input.groups != [] || input.explicit != [])
    && match input.kind
       case Immediate => true
       case Percentage => input.percent.Some? && 1 <= input.percent.value <= 100
       case TimeScheduled => input.scheduledStart.Some?
       case UnknownKind => false
  }

  lemma {:induction false} ListingExists(s: set<Id>)
    ensures exists r: seq<Id> :: NoDuplicates(r) && ToSet(r) == s
    decreases s
  {
    if s == {} {
      assert NoDuplicates<Id>([]) && ToSet<Id>([]) == s;
    } else {
      var x :| x in s;
      ListingExists(s - {x});
      var r: seq<Id> :| NoDuplicates(r) && ToSet(r) == s - {x};
      assert x !in ToSet(r);
      assert ToSet(r + [x]) == ToSet(r) + {x};
      assert NoDuplicates(r + [x]) && ToSet(r + [x]) == s;
    }
  }

  /** Some order in which a query or a map may list the set. */
  ghost function Listing(s: set<Id>): (r: seq<Id>)
    ensures NoDuplicates(r) && ToSet(r) == s
  {
    ListingExists(s);
    var r: seq<Id> :| NoDuplicates(r) && ToSet(r) == s;
    r
  }

  /** The devices a rollout assigns, out of the compatible ones. */
  function Chosen(input: CreateInput, sorted: seq<Id>): seq<Id> {
    if input.kind.Percentage? && input.percent.Some? then Selection.TakeStable(sorted, input.percent.value) else sorted
  }

  ghost function ChosenFrom(input: CreateInput, compatible: set<Id>): seq<Id> {
    Chosen(input, Selection.Sorted(Listing(compatible)))
  }

  /** The choice is a duplicate-free, non-empty part of the compatible devices. */
  lemma ChosenFromIsSelection(input: CreateInput, compatible: set<Id>)
    ensures NoDuplicates(ChosenFrom(input, compatible))
    ensures ToSet(ChosenFrom(input, compatible)) <= compatible
    ensures compatible != {} && ValidInput(input) ==> ChosenFrom(input, compatible) != []
  {
    var l := Listing(compatible);
    var s := Selection.Sorted(l);
    Selection.SortedKeepsDistinct(l);
    forall x | x in ToSet(ChosenFrom(input, compatible))
      ensures x in compatible
    {
      assert x in ToSet(s);
    }
    if compatible != {} {
      assert l == [] ==> ToSet(l) == {};
      if ValidInput(input) && input.kind.Percentage? {
        Selection.StableCountIsExactCeiling(|s|, input.percent.value);
      }
    }
  }

  function NewCampaign(input: CreateInput, target: nat, now: Time): Campaign {
    var later := input.scheduledStart.Some? && input.scheduledStart.value > now;
    Campaign(input.project, input.firmware, input.kind, input.percent, input.scheduledStart,
             if later then Scheduled else Active, target, now,
             if later then None else Some(now), None, None, None)
  }

  /** A binary-protocol poll also issues a download token: its hash and its lifetime. */
  datatype TokenPlan = TokenPlan(hash: Bytes, ttl: Time)

  // ---------------------------------------------------------------------------
  // Program counters
  // ---------------------------------------------------------------------------

  /** What an operation does once tryAutoComplete returns. */
  datatype Next =
    | AfterPoll(device: Id, row: OfferRow, plan: Option<TokenPlan>)
    | AfterReport(version: Bytes)

  datatype Outcome =
    | Refused
    | Finished
    | NoOffer
    | OfferMade(row: OfferRow)
    | TokenIssued(row: OfferRow, hash: Bytes, expiresAt: Time)
    | Reported(version: Bytes)
    | Created(campaign: Id)
    | Served(hash: Bytes, firmware: Id, at: Time)
    | Burned(hash: Bytes, at: Time)

  datatype Pc =
    // BuildPollOffer, then IssueOtaDownloadToken
    | PollFind(p: Id, d: Id, plan: Option<TokenPlan>)
    | PollOffer(p: Id, d: Id, row: OfferRow, plan: Option<TokenPlan>)
    | IssueCheck(p: Id, d: Id, row: OfferRow, issue: TokenPlan)
    | IssueInsert(p: Id, d: Id, row: OfferRow, hash: Bytes, expiresAt: Time)
    // tryAutoComplete
    | CompleteRead(p: Id, c: Id, next: Next)
    | CompleteCount(p: Id, c: Id, target: nat, next: Next)
    | CompleteMark(p: Id, c: Id, next: Next)
    // ApplyOtaDeviceReport
    | ReportLookup(p: Id, d: Id, c: Id, m: Milestone, code: Option<nat>, msg: Bytes)
    | ReportGate(p: Id, d: Id, c: Id, m: Milestone, code: Option<nat>, msg: Bytes)
    | ReportWrite(p: Id, d: Id, c: Id, m: Milestone, code: Option<nat>, msg: Bytes)
    | ReportCampaign(p: Id, d: Id, c: Id)
    | ReportFirmware(p: Id, d: Id, c: Id, f: Id)
    | ReportTouch(p: Id, d: Id, c: Id, version: Bytes)
    // OnDeviceReportFirmware; accepts is the case-insensitive match with the reported version
    | HttpFind(p: Id, d: Id, accepts: Bytes -> bool)
    | HttpSet(p: Id, d: Id, c: Id)
    // CreateCampaign
    | CreateStart(input: CreateInput, c: Id)
    | CreateGroups(input: CreateInput, c: Id, i: nat)
    | CreateTypes(input: CreateInput, c: Id)
    | CreateFromGroups(input: CreateInput, c: Id, types: set<Id>)
    | CreateFromExplicit(input: CreateInput, c: Id, types: set<Id>, ids: set<Id>)
    | CreateFilter(input: CreateInput, c: Id, types: set<Id>, ids: set<Id>)
    | CreateInsert(input: CreateInput, c: Id, draft: Campaign, chosen: seq<Id>)
    // Operators and the scheduler
    | PauseOp(p: Id, c: Id)
    | ResumeOp(p: Id, c: Id)
    | CancelOp(p: Id, c: Id)
    | SchedulerActivate(now: Time)
    // OpenFirmwareWithOtaDownloadToken, with the three statements of its transaction apart
    | DownloadRow(hash: Bytes, now: Time)
    | DownloadDevice(hash: Bytes, token: OtaToken, now: Time)
    | DownloadConsume(hash: Bytes, token: OtaToken, now: Time)
    | DownloadFirmware(hash: Bytes, token: OtaToken, now: Time)
    | Done(outcome: Outcome)

  // Which operation a counter belongs to.

  predicate Polling(pc: Pc) {
    pc.PollFind? || pc.PollOffer? || pc.IssueCheck? || pc.IssueInsert?
  }

  predicate Completing(pc: Pc) {
    pc.CompleteRead? || pc.CompleteCount? || pc.CompleteMark?
  }

  predicate Reporting(pc: Pc) {
    pc.ReportLookup? || pc.ReportGate? || pc.ReportWrite?
    || pc.ReportCampaign? || pc.ReportFirmware? || pc.ReportTouch?
  }

  predicate HttpReporting(pc: Pc) {
    pc.HttpFind? || pc.HttpSet?
  }

  predicate Creating(pc: Pc) {
    pc.CreateStart? || pc.CreateGroups? || pc.CreateTypes? || pc.CreateFromGroups?
    || pc.CreateFromExplicit? || pc.CreateFilter? || pc.CreateInsert?
  }

  predicate Operating(pc: Pc) {
    pc.PauseOp? || pc.ResumeOp? || pc.CancelOp? || pc.SchedulerActivate?
  }

  predicate Downloading(pc: Pc) {
    pc.DownloadRow? || pc.DownloadDevice? || pc.DownloadConsume? || pc.DownloadFirmware?
  }

  /** Where operations begin. An operation that reads the clock first starts with that reading. */
  predicate IsStart(pc: Pc, clock: Time) {
    match pc
    case PollFind(_, _, _) => true
    case ReportLookup(_, _, _, _, _, _) => true
    case HttpFind(_, _, _) => true
    case CreateStart(_, _) => true
    case PauseOp(_, _) => true
    case ResumeOp(_, _) => true
    case CancelOp(_, _) => true
    case SchedulerActivate(now) => now == clock
    case DownloadRow(_, now) => now == clock
    case _ => false
  }

  // ---------------------------------------------------------------------------
  // Writes
  // ---------------------------------------------------------------------------

  datatype Write =
    | NoWrite
    | WOffer(c: Id, d: Id)
    | WForce(c: Id, d: Id)
    | WReport(c: Id, d: Id, m: Milestone, code: Option<nat>, msg: Bytes)
    | WComplete(p: Id, c: Id, now: Time)
    | WPause(p: Id, c: Id, now: Time)
    | WResume(p: Id, c: Id)
    | WCancel(p: Id, c: Id, now: Time)
    | WActivate(now: Time)
    | WBundle(c: Id, draft: Campaign, groups: seq<Id>, explicit: seq<Id>, chosen: seq<Id>)
    | WTouch(p: Id, d: Id, version: Bytes, now: Time)
    | WToken(hash: Bytes, token: OtaToken)
    | WConsume(hash: Bytes, now: Time)

  ghost function Apply(db: Db, w: Write): Db {
    match w
    case NoWrite => db
    case WOffer(c, d) => Offer(db, c, d)
    case WForce(c, d) => ForceInstalled(db, c, d)
    case WReport(c, d, m, code, msg) => WriteReport(db, c, d, m, code, msg)
    case WComplete(p, c, now) => MarkCompleted(db, p, c, now)
    case WPause(p, c, now) => Pause(db, p, c, now)
    case WResume(p, c) => Resume(db, p, c)
    case WCancel(p, c, now) => Cancel(db, p, c, now)
    case WActivate(now) => ActivateDue(db, now)
    case WBundle(c, draft, groups, explicit, chosen) =>
      if BundleFits(db, c, groups, explicit, chosen) then InsertBundle(db, c, draft, chosen) else db
    case WTouch(p, d, version, now) => TouchDevice(db, p, d, Some(version), now)
    case WToken(hash, token) => InsertToken(db, hash, token)
    case WConsume(hash, now) => Consume(db, hash, now)
  }

  // ---------------------------------------------------------------------------
  // One step of one operation
  // ---------------------------------------------------------------------------

  datatype Move = Move(write: Write, pc: Pc)

  function Continue(p: Id, c: Id, next: Next): Pc {
    match next
    case AfterPoll(d, row, plan) =>
      if plan.Some? then IssueCheck(p, d, row, plan.value) else Done(OfferMade(row))
    case AfterReport(version) => Done(Reported(version))
  }

  ghost function PollMove(db: Db, clock: Time, pc: Pc): Move
    requires Polling(pc)
  {
    match pc
    case PollFind(p, d, plan) =>
      var found := FindOffer(db, p, d);
      if found.None? then Move(NoWrite, Done(NoOffer))
      else if found.value.status == Pending then Move(NoWrite, PollOffer(p, d, found.value, plan))
      else Move(NoWrite, CompleteRead(p, found.value.campaign, AfterPoll(d, found.value, plan)))
    case PollOffer(p, d, row, plan) =>
      if AssignmentIs(db, row.campaign, d, {Pending})
      then Move(WOffer(row.campaign, d), CompleteRead(p, row.campaign, AfterPoll(d, row, plan)))
      else Move(NoWrite, Done(Refused))
    case IssueCheck(p, d, row, issue) =>
      if FirmwareIn(db, p, row.firmware)
      then Move(NoWrite, IssueInsert(p, d, row, issue.hash, clock + issue.ttl))
      else Move(NoWrite, Done(Refused))
    case IssueInsert(p, d, row, hash, expiresAt) =>
      if hash in db.otaTokens then Move(NoWrite, Done(Refused))
      else Move(WToken(hash, OtaToken(p, d, row.campaign, row.firmware, expiresAt, None)),
                Done(TokenIssued(row, hash, expiresAt)))
  }

  ghost function CompleteMove(db: Db, clock: Time, pc: Pc): Move
    requires Completing(pc)
  {
    match pc
    case CompleteRead(p, c, next) =>
      if CampaignIs(db, p, c, {Active})
      then Move(NoWrite, CompleteCount(p, c, db.campaigns[c].target, next))
      else Move(NoWrite, Continue(p, c, next))
    case CompleteCount(p, c, target, next) =>
      if |NonTerminal(db, c)| == 0 && target > 0
      then Move(NoWrite, CompleteMark(p, c, next))
      else Move(NoWrite, Continue(p, c, next))
    case CompleteMark(p, c, next) =>
      Move(WComplete(p, c, clock), Continue(p, c, next))
  }

  ghost function ReportMove(db: Db, clock: Time, pc: Pc): Move
    requires Reporting(pc)
  {
    match pc
    case ReportLookup(p, d, c, m, code, msg) =>
      if Target(c, d) in db.assignments
      then Move(NoWrite, ReportGate(p, d, c, m, code, msg))
      else Move(NoWrite, Done(Refused))
    case ReportGate(p, d, c, m, code, msg) =>
      if CampaignIs(db, p, c, {Active})
      then Move(NoWrite, ReportWrite(p, d, c, m, code, msg))
      else Move(NoWrite, CompleteRead(p, c, AfterReport([])))
    case ReportWrite(p, d, c, m, code, msg) =>
      if !AssignmentIs(db, c, d, From(m)) then Move(NoWrite, CompleteRead(p, c, AfterReport([])))
      else Move(WReport(c, d, m, code, msg),
                if m.ReportInstalled? then ReportCampaign(p, d, c) else CompleteRead(p, c, AfterReport([])))
    case ReportCampaign(p, d, c) =>
      if CampaignIn(db, p, c)
      then Move(NoWrite, ReportFirmware(p, d, c, db.campaigns[c].firmware))
      else Move(NoWrite, Done(Refused))
    case ReportFirmware(p, d, c, f) =>
      if FirmwareIn(db, p, f)
      then Move(NoWrite, ReportTouch(p, d, c, db.firmwares[f].version))
      else Move(NoWrite, Done(Refused))
    case ReportTouch(p, d, c, version) =>
      Move(WTouch(p, d, version, clock), CompleteRead(p, c, AfterReport(version)))
  }

  ghost function HttpMove(db: Db, pc: Pc): Move
    requires HttpReporting(pc)
  {
    match pc
    case HttpFind(p, d, accepts) =>
      var found := FindInFlight(db, p, d);
      if found.Some? && accepts(found.value.version)
      then Move(NoWrite, HttpSet(p, d, found.value.campaign))
      else Move(NoWrite, Done(Finished))
    case HttpSet(p, d, c) =>
      Move(WForce(c, d), CompleteRead(p, c, AfterReport([])))
  }

  ghost function CreateMove(db: Db, clock: Time, pc: Pc): Move
    requires Creating(pc)
  {
    match pc
    case CreateStart(input, c) =>
      if ProjectOpen(db, input.project) && ValidInput(input)
      then Move(NoWrite, CreateGroups(input, c, 0))
      else Move(NoWrite, Done(Refused))
    case CreateGroups(input, c, i) =>
      if i < |input.groups| then
        if GroupIn(db, input.project, input.groups[i])
        then Move(NoWrite, CreateGroups(input, c, i + 1))
        else Move(NoWrite, Done(Refused))
      else if FirmwareIn(db, input.project, input.firmware) then Move(NoWrite, CreateTypes(input, c))
      else Move(NoWrite, Done(Refused))
    case CreateTypes(input, c) =>
      if input.firmware in db.firmwares && db.firmwares[input.firmware].deviceTypes != {}
      then Move(NoWrite, CreateFromGroups(input, c, db.firmwares[input.firmware].deviceTypes))
      else Move(NoWrite, Done(Refused))
    case CreateFromGroups(input, c, types) =>
      Move(NoWrite, CreateFromExplicit(input, c, types, DevicesInGroups(db, input.project, input.groups)))
    case CreateFromExplicit(input, c, types, ids) =>
      Move(NoWrite, CreateFilter(input, c, types, ids + DevicesExplicit(db, input.project, input.explicit)))
    case CreateFilter(input, c, types, ids) =>
      var compatible := CompatibleDevices(db, input.project, ids, types);
      if compatible == {} then Move(NoWrite, Done(Refused))
      else
        var chosen := ChosenFrom(input, compatible);
        Move(NoWrite, CreateInsert(input, c, NewCampaign(input, |chosen|, clock), chosen))
    case CreateInsert(input, c, draft, chosen) =>
      if BundleFits(db, c, input.groups, input.explicit, chosen)
      then Move(WBundle(c, draft, input.groups, input.explicit, chosen), Done(Created(c)))
      else Move(NoWrite, Done(Refused))
  }

  ghost function OperatorMove(db: Db, clock: Time, pc: Pc): Move
    requires Operating(pc)
  {
    match pc
    case PauseOp(p, c) =>
      Move(WPause(p, c, clock), Done(if CampaignIs(db, p, c, {Active}) then Finished else Refused))
    case ResumeOp(p, c) =>
      Move(WResume(p, c), Done(if CampaignIs(db, p, c, {Paused}) then Finished else Refused))
    case CancelOp(p, c) =>
      Move(WCancel(p, c, clock), Done(if CampaignIs(db, p, c, CANCELLABLE) then Finished else Refused))
    case SchedulerActivate(now) =>
      Move(WActivate(now), Done(Finished))
  }

  ghost function DownloadMove(db: Db, pc: Pc): Move
    requires Downloading(pc)
  {
    match pc
    case DownloadRow(hash, now) =>
      if Unconsumed(db, hash) && now < db.otaTokens[hash].expiresAt
      then Move(NoWrite, DownloadDevice(hash, db.otaTokens[hash], now))
      else Move(NoWrite, Done(Refused))
    case DownloadDevice(hash, token, now) =>
      if MayDownload(db, token.project, token.device)
      then Move(NoWrite, DownloadConsume(hash, token, now))
      else Move(NoWrite, Done(Refused))
    case DownloadConsume(hash, token, now) =>
      if Unconsumed(db, hash)
      then Move(WConsume(hash, now), DownloadFirmware(hash, token, now))
      else Move(NoWrite, Done(Refused))
    case DownloadFirmware(hash, token, now) =>
      if FirmwareIn(db, token.project, token.firmware)
      then Move(NoWrite, Done(Served(hash, token.firmware, now)))
      else Move(NoWrite, Done(Burned(hash, now)))
  }

  ghost function StepOf(db: Db, clock: Time, pc: Pc): Move
    requires !pc.Done?
  {
    if Polling(pc) then PollMove(db, clock, pc)
    else if Completing(pc) then CompleteMove(db, clock, pc)
    else if Reporting(pc) then ReportMove(db, clock, pc)
    else if HttpReporting(pc) then HttpMove(db, pc)
    else if Operating(pc) then OperatorMove(db, clock, pc)
    else if Downloading(pc) then DownloadMove(db, pc)
    else CreateMove(db, clock, pc)
  }
}
