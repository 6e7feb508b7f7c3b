/**
 The service operations as wholes: what each does when nothing else runs between its repository
 calls. Each is proved to be the uninterrupted run of the corresponding operation of Machine, so
 the two grains are one model.
 */
module CampaignOps {
  import opened Basics
  import opened CampaignState
  import opened Tables
  import opened Queries
  import opened Machine

  // ---------------------------------------------------------------------------
  // Completion
  // ---------------------------------------------------------------------------

  /** tryAutoComplete: complete an active campaign none of whose assignments is unfinished. */
  function TryAutoComplete(db: Db, p: Id, c: Id, now: Time): Db {
    if CampaignIs(db, p, c, {Active}) && |NonTerminal(db, c)| == 0 && db.campaigns[c].target > 0
    then MarkCompleted(db, p, c, now)
    else db
  }

  // ---------------------------------------------------------------------------
  // Polls
  // ---------------------------------------------------------------------------

  datatype PollResult = PollResult(db: Db, offer: Option<OfferRow>)

  ghost function BuildPollOffer(db: Db, p: Id, d: Id, now: Time): PollResult {
    var found := FindOffer(db, p, d);
    if found.None? then PollResult(db, None)
    else PollResult(TryAutoComplete(Offer(db, found.value.campaign, d), p, found.value.campaign, now), found)
  }

  datatype IssueResult = IssueResult(db: Db, expiresAt: Option<Time>)

  /** IssueOtaDownloadToken: the firmware must still be there and the hash must be new. */
  function IssueToken(db: Db, p: Id, d: Id, row: OfferRow, issue: TokenPlan, now: Time): IssueResult {
    if FirmwareIn(db, p, row.firmware) && issue.hash !in db.otaTokens then
      var expiresAt := now + issue.ttl;
      IssueResult(InsertToken(db, issue.hash, OtaToken(p, d, row.campaign, row.firmware, expiresAt, None)), Some(expiresAt))
    else
      IssueResult(db, None)
  }

  /** What an operation leaves behind when it runs alone. */
  datatype Ended = Ended(db: Db, outcome: Outcome)

  function IssueFor(db: Db, p: Id, d: Id, row: OfferRow, issue: TokenPlan, now: Time): Ended {
    var r := IssueToken(db, p, d, row, issue, now);
    Ended(r.db, if r.expiresAt.Some? then TokenIssued(row, issue.hash, r.expiresAt.value) else Refused)
  }

  /** What follows an offer: with a plan, the token is issued. */
  function AfterOffer(db: Db, p: Id, d: Id, row: OfferRow, plan: Option<TokenPlan>, now: Time): Ended {
    if plan.Some? then IssueFor(db, p, d, row, plan.value, now) else Ended(db, OfferMade(row))
  }

  /** A poll; over the binary protocol it also issues a download token for its offer. */
  ghost function Poll(db: Db, p: Id, d: Id, plan: Option<TokenPlan>, now: Time): Ended {
    var r := BuildPollOffer(db, p, d, now);
    if r.offer.None? then Ended(r.db, NoOffer) else AfterOffer(r.db, p, d, r.offer.value, plan, now)
  }

  // ---------------------------------------------------------------------------
  // Redemptions
  // ---------------------------------------------------------------------------

  function RedemptionOutcome(db: Db, h: Bytes, now: Time): Outcome {
    if ConsumeVerdict(db, h, now).Some? then Refused
    else if FirmwareIn(db, db.otaTokens[h].project, db.otaTokens[h].firmware)
    then Served(h, db.otaTokens[h].firmware, now)
    else Burned(h, now)
  }

  /** Redeeming a hash: a missing firmware is noticed only after the token is spent. */
  function Redeem(db: Db, h: Bytes, now: Time): Ended {
    Ended(if ConsumeVerdict(db, h, now).None? then Consume(db, h, now) else db, RedemptionOutcome(db, h, now))
  }

  // ---------------------------------------------------------------------------
  // Reports
  // ---------------------------------------------------------------------------

  datatype ReportError = UnknownAssignment | FirmwareMissing

  datatype ReportResult = ReportResult(db: Db, version: Result<Bytes, ReportError>)

  /** The failure message is stored in at most 256 octets. */
  function Clip(msg: Bytes): (r: Bytes)
    ensures |r| <= 256 && r <= msg && (|msg| <= 256 ==> r == msg)
  {
    if |msg| > 256 then msg[..256] else msg
  }

  function ReportAccepted(db: Db, p: Id, d: Id, c: Id, m: Milestone): bool {
    CampaignIs(db, p, c, {Active}) && AssignmentIs(db, c, d, From(m))
  }

  /** What follows an accepted `installed` report: without the firmware row it stops before tryAutoComplete. */
  function AfterInstalled(db: Db, p: Id, d: Id, c: Id, now: Time): ReportResult
    requires c in db.campaigns
  {
    var f := db.campaigns[c].firmware;
    if !FirmwareIn(db, p, f) then ReportResult(db, Err(FirmwareMissing))
    else
      var version := db.firmwares[f].version;
      ReportResult(TryAutoComplete(TouchDevice(db, p, d, Some(version), now), p, c, now), Ok(version))
  }

  /** ApplyOtaDeviceReport, the message already trimmed and clipped. */
  function ApplyReport(db: Db, p: Id, d: Id, c: Id, m: Milestone, code: Option<nat>, msg: Bytes, now: Time): ReportResult {
    if Target(c, d) !in db.assignments then ReportResult(db, Err(UnknownAssignment))
    else if !ReportAccepted(db, p, d, c, m) then ReportResult(TryAutoComplete(db, p, c, now), Ok([]))
    else
      var written := WriteReport(db, c, d, m, code, msg);
      if m.ReportInstalled? then AfterInstalled(written, p, d, c, now)
      else ReportResult(TryAutoComplete(written, p, c, now), Ok([]))
  }

  // The service trims the stored version; the upload service has already done so.

  ghost predicate VersionsTrimmed(trim: Bytes -> Bytes, db: Db) {
    forall f | f in db.firmwares :: trim(db.firmwares[f].version) == db.firmwares[f].version
  }

  function AfterTrimmedInstalled(trim: Bytes -> Bytes, db: Db, p: Id, d: Id, c: Id, now: Time): ReportResult
    requires c in db.campaigns
  {
    var f := db.campaigns[c].firmware;
    if !FirmwareIn(db, p, f) then ReportResult(db, Err(FirmwareMissing))
    else
      var version := trim(db.firmwares[f].version);
      ReportResult(TryAutoComplete(TouchDevice(db, p, d, Some(version), now), p, c, now), Ok(version))
  }

  /** ApplyOtaDeviceReport on any stored versions. */
  function TrimmedReport(trim: Bytes -> Bytes, db: Db, p: Id, d: Id, c: Id, m: Milestone, code: Option<nat>, msg: Bytes,
                         now: Time): ReportResult
  {
    if ReportAccepted(db, p, d, c, m) && m.ReportInstalled?
    then AfterTrimmedInstalled(trim, WriteReport(db, c, d, m, code, msg), p, d, c, now)
    else ApplyReport(db, p, d, c, m, code, msg, now)
  }

  /** On versions stored trimmed the two are one. */
  lemma TrimmingStoredVersions(trim: Bytes -> Bytes, db: Db, p: Id, d: Id, c: Id, m: Milestone, code: Option<nat>, msg: Bytes,
                               now: Time)
    requires VersionsTrimmed(trim, db)
    ensures TrimmedReport(trim, db, p, d, c, m, code, msg, now) == ApplyReport(db, p, d, c, m, code, msg, now)
  {
    if ReportAccepted(db, p, d, c, m) && m.ReportInstalled? {
      assert VersionsTrimmed(trim, WriteReport(db, c, d, m, code, msg));
    }
  }

  /** OnDeviceReportFirmware: a reported version that matches installs the oldest update under way. */
  ghost function ReportVersion(db: Db, p: Id, d: Id, accepts: Bytes -> bool, now: Time): Db {
    var found := FindInFlight(db, p, d);
    if found.Some? && accepts(found.value.version)
    then TryAutoComplete(ForceInstalled(db, found.value.campaign, d), p, found.value.campaign, now)
    else db
  }

  // ---------------------------------------------------------------------------
  // Creation
  // ---------------------------------------------------------------------------

  function ScopeOf(db: Db, input: CreateInput): set<Id> {
    DevicesInGroups(db, input.project, input.groups) + DevicesExplicit(db, input.project, input.explicit)
  }

  function CompatibleScope(db: Db, input: CreateInput): set<Id>
    requires input.firmware in db.firmwares
  {
    CompatibleDevices(db, input.project, ScopeOf(db, input), db.firmwares[input.firmware].deviceTypes)
  }

  predicate CreateAllowed(db: Db, input: CreateInput) {
    && ProjectOpen(db, input.project) && ValidInput(input)
    && (forall g | g in input.groups :: GroupIn(db, input.project, g))
    && FirmwareIn(db, input.project, input.firmware)
    && db.firmwares[input.firmware].deviceTypes != {}
    && CompatibleScope(db, input) != {}
  }

  ghost function CreateCampaign(db: Db, input: CreateInput, c: Id, now: Time): Db {
    if !CreateAllowed(db, input) then db
    else
      var chosen := ChosenFrom(input, CompatibleScope(db, input));
      if BundleFits(db, c, input.groups, input.explicit, chosen)
      then InsertBundle(db, c, NewCampaign(input, |chosen|, now), chosen)
      else db
  }

  // ---------------------------------------------------------------------------
  // Each is the uninterrupted run of its operation
  // ---------------------------------------------------------------------------

  datatype Local = Local(db: Db, pc: Pc)

  ghost predicate SoloStep(clock: Time, a: Local, b: Local) {
    !a.pc.Done? && b == Local(Apply(a.db, StepOf(a.db, clock, a.pc).write), StepOf(a.db, clock, a.pc).pc)
  }

  /** One operation running with no interference. */
  ghost predicate Solo(clock: Time, path: seq<Local>) {
    path != [] && forall i :: 0 < i < |path| ==> SoloStep(clock, path[i - 1], path[i])
  }

  /** The operation starting at pc, run alone to its end, leaves db' with the given outcome. */
  ghost predicate RunsTo(clock: Time, db: Db, pc: Pc, db': Db, outcome: Outcome) {
    exists path: seq<Local> :: Solo(clock, path) && path[0] == Local(db, pc)
                               && path[|path| - 1] == Local(db', Done(outcome))
  }

  lemma {:induction false} SoloRunsAgree(clock: Time, a: seq<Local>, b: seq<Local>, i: nat)
    requires Solo(clock, a) && Solo(clock, b) && a[0] == b[0]
    requires i < |a| && i < |b|
    ensures a[i] == b[i]
  {
    if i > 0 {
      SoloRunsAgree(clock, a, b, i - 1);
      assert SoloStep(clock, a[i - 1], a[i]) && SoloStep(clock, b[i - 1], b[i]);
    }
  }

  lemma SoloStepsOn(clock: Time, path: seq<Local>, i: nat)
    requires Solo(clock, path) && i + 1 < |path|
    ensures !path[i].pc.Done?
  {
    assert SoloStep(clock, path[i], path[i + 1]);
  }

  lemma NoLonger(clock: Time, a: seq<Local>, b: seq<Local>)
    requires Solo(clock, a) && Solo(clock, b) && a[0] == b[0] && a[|a| - 1].pc.Done?
    ensures |b| <= |a|
  {
    if |a| < |b| {
      SoloRunsAgree(clock, a, b, |a| - 1);
      SoloStepsOn(clock, b, |a| - 1);
    }
  }

  /** An operation left alone has one result only. */
  lemma RunsToIsDeterministic(clock: Time, db: Db, pc: Pc, db1: Db, out1: Outcome, db2: Db, out2: Outcome)
    requires RunsTo(clock, db, pc, db1, out1) && RunsTo(clock, db, pc, db2, out2)
    ensures db1 == db2 && out1 == out2
  {
    var a: seq<Local> :| Solo(clock, a) && a[0] == Local(db, pc) && a[|a| - 1] == Local(db1, Done(out1));
    var b: seq<Local> :| Solo(clock, b) && b[0] == Local(db, pc) && b[|b| - 1] == Local(db2, Done(out2));
    NoLonger(clock, a, b);
    NoLonger(clock, b, a);
    SoloRunsAgree(clock, a, b, |a| - 1);
  }

  lemma AlreadyDone(clock: Time, db: Db, outcome: Outcome)
    ensures RunsTo(clock, db, Done(outcome), db, outcome)
  {
    assert Solo(clock, [Local(db, Done(outcome))]);
  }

  lemma OneMore(clock: Time, db: Db, pc: Pc, db1: Db, pc1: Pc, db2: Db, outcome: Outcome)
    requires SoloStep(clock, Local(db, pc), Local(db1, pc1))
    requires RunsTo(clock, db1, pc1, db2, outcome)
    ensures RunsTo(clock, db, pc, db2, outcome)
  {
    var path: seq<Local> :| Solo(clock, path) && path[0] == Local(db1, pc1) && path[|path| - 1] == Local(db2, Done(outcome));
    var longer := [Local(db, pc)] + path;
    assert Solo(clock, longer);
    assert longer[0] == Local(db, pc) && longer[|longer| - 1] == Local(db2, Done(outcome));
  }

  /** tryAutoComplete, and then whatever the operation goes on to do. */
  lemma CompleteThen(clock: Time, db: Db, p: Id, c: Id, next: Next, db': Db, outcome: Outcome)
    requires RunsTo(clock, TryAutoComplete(db, p, c, clock), Continue(p, c, next), db', outcome)
    ensures RunsTo(clock, db, CompleteRead(p, c, next), db', outcome)
  {
    var after, go := TryAutoComplete(db, p, c, clock), Continue(p, c, next);
    if CampaignIs(db, p, c, {Active}) {
      var counting := CompleteCount(p, c, db.campaigns[c].target, next);
      if |NonTerminal(db, c)| == 0 && db.campaigns[c].target > 0 {
        OneMore(clock, db, CompleteMark(p, c, next), after, go, db', outcome);
        OneMore(clock, db, counting, db, CompleteMark(p, c, next), db', outcome);
      } else {
        OneMore(clock, db, counting, db, go, db', outcome);
      }
      OneMore(clock, db, CompleteRead(p, c, next), db, counting, db', outcome);
    } else {
      OneMore(clock, db, CompleteRead(p, c, next), db, go, db', outcome);
    }
  }

  lemma CompleteAlone(clock: Time, db: Db, p: Id, c: Id, next: Next, outcome: Outcome)
    requires Continue(p, c, next) == Done(outcome)
    ensures RunsTo(clock, db, CompleteRead(p, c, next), TryAutoComplete(db, p, c, clock), outcome)
  {
    AlreadyDone(clock, TryAutoComplete(db, p, c, clock), outcome);
    CompleteThen(clock, db, p, c, next, TryAutoComplete(db, p, c, clock), outcome);
  }

  /** Issuing is the uninterrupted run of the machine's two issuing steps. */
  lemma IssueAlone(clock: Time, db: Db, p: Id, d: Id, row: OfferRow, issue: TokenPlan)
    ensures var r := IssueFor(db, p, d, row, issue, clock);
            RunsTo(clock, db, IssueCheck(p, d, row, issue), r.db, r.outcome)
  {
    var r := IssueFor(db, p, d, row, issue, clock);
    AlreadyDone(clock, r.db, r.outcome);
    if FirmwareIn(db, p, row.firmware) {
      var insert := IssueInsert(p, d, row, issue.hash, clock + issue.ttl);
      OneMore(clock, db, insert, r.db, Done(r.outcome), r.db, r.outcome);
      OneMore(clock, db, IssueCheck(p, d, row, issue), db, insert, r.db, r.outcome);
    } else {
      OneMore(clock, db, IssueCheck(p, d, row, issue), db, Done(Refused), db, Refused);
    }
  }

  lemma AfterOfferAlone(clock: Time, db: Db, p: Id, d: Id, row: OfferRow, plan: Option<TokenPlan>)
    ensures var r := AfterOffer(db, p, d, row, plan, clock);
            RunsTo(clock, db, Continue(p, row.campaign, AfterPoll(d, row, plan)), r.db, r.outcome)
  {
    if plan.Some? {
      IssueAlone(clock, db, p, d, row, plan.value);
    } else {
      AlreadyDone(clock, db, OfferMade(row));
    }
  }

  lemma FoundAlone(clock: Time, db: Db, p: Id, d: Id, row: OfferRow, plan: Option<TokenPlan>)
    requires FindOffer(db, p, d) == Some(row)
    ensures var r := Poll(db, p, d, plan, clock);
            RunsTo(clock, db, PollFind(p, d, plan), r.db, r.outcome)
  {
    var c, next, r := row.campaign, AfterPoll(d, row, plan), Poll(db, p, d, plan, clock);
    var offered := Offer(db, c, d);
    AfterOfferAlone(clock, BuildPollOffer(db, p, d, clock).db, p, d, row, plan);
    CompleteThen(clock, offered, p, c, next, r.db, r.outcome);
    if row.status == Pending {
      var guarded := PollOffer(p, d, row, plan);
      assert SoloStep(clock, Local(db, guarded), Local(offered, CompleteRead(p, c, next)));
      OneMore(clock, db, guarded, offered, CompleteRead(p, c, next), r.db, r.outcome);
      assert SoloStep(clock, Local(db, PollFind(p, d, plan)), Local(db, guarded));
      OneMore(clock, db, PollFind(p, d, plan), db, guarded, r.db, r.outcome);
    } else {
      assert offered == db;
      OneMore(clock, db, PollFind(p, d, plan), db, CompleteRead(p, c, next), r.db, r.outcome);
    }
  }

  /** The whole poll, with or without a token plan, is the uninterrupted run of the poll operation. */
  lemma PollAlone(clock: Time, db: Db, p: Id, d: Id, plan: Option<TokenPlan>)
    ensures var r := Poll(db, p, d, plan, clock);
            RunsTo(clock, db, PollFind(p, d, plan), r.db, r.outcome)
  {
    var found := FindOffer(db, p, d);
    if found.None? {
      AlreadyDone(clock, db, NoOffer);
      OneMore(clock, db, PollFind(p, d, plan), db, Done(NoOffer), db, NoOffer);
    } else {
      FoundAlone(clock, db, p, d, found.value, plan);
    }
  }

  // Redemptions

  lemma ServeAlone(clock: Time, db: Db, h: Bytes, token: OtaToken)
    ensures RunsTo(clock, db, DownloadFirmware(h, token, clock), db,
                   if FirmwareIn(db, token.project, token.firmware) then Served(h, token.firmware, clock) else Burned(h, clock))
  {
    var outcome := if FirmwareIn(db, token.project, token.firmware) then Served(h, token.firmware, clock) else Burned(h, clock);
    AlreadyDone(clock, db, outcome);
    OneMore(clock, db, DownloadFirmware(h, token, clock), db, Done(outcome), db, outcome);
  }

  lemma SpendAlone(clock: Time, db: Db, h: Bytes)
    requires ConsumeVerdict(db, h, clock).None?
    ensures RunsTo(clock, db, DownloadConsume(h, db.otaTokens[h], clock), Consume(db, h, clock), RedemptionOutcome(db, h, clock))
  {
    var token, spent, outcome := db.otaTokens[h], Consume(db, h, clock), RedemptionOutcome(db, h, clock);
    ServeAlone(clock, spent, h, token);
    OneMore(clock, db, DownloadConsume(h, token, clock), spent, DownloadFirmware(h, token, clock), spent, outcome);
  }

  lemma RedeemAlone(clock: Time, db: Db, h: Bytes)
    ensures var r := Redeem(db, h, clock);
            RunsTo(clock, db, DownloadRow(h, clock), r.db, r.outcome)
  {
    AlreadyDone(clock, db, Refused);
    if Unconsumed(db, h) && clock < db.otaTokens[h].expiresAt {
      var token := db.otaTokens[h];
      if MayDownload(db, token.project, token.device) {
        var spent, outcome := Consume(db, h, clock), RedemptionOutcome(db, h, clock);
        SpendAlone(clock, db, h);
        OneMore(clock, db, DownloadDevice(h, token, clock), db, DownloadConsume(h, token, clock), spent, outcome);
        OneMore(clock, db, DownloadRow(h, clock), db, DownloadDevice(h, token, clock), spent, outcome);
      } else {
        OneMore(clock, db, DownloadDevice(h, token, clock), db, Done(Refused), db, Refused);
        OneMore(clock, db, DownloadRow(h, clock), db, DownloadDevice(h, token, clock), db, Refused);
      }
    } else {
      OneMore(clock, db, DownloadRow(h, clock), db, Done(Refused), db, Refused);
    }
  }

  // Reports

  function ReportOutcome(r: ReportResult): Outcome {
    if r.version.Ok? then Reported(r.version.value) else Refused
  }

  lemma ReportAlone(clock: Time, db: Db, p: Id, d: Id, c: Id, m: Milestone, code: Option<nat>, msg: Bytes)
    ensures var r := ApplyReport(db, p, d, c, m, code, msg, clock);
            RunsTo(clock, db, ReportLookup(p, d, c, m, code, msg), r.db, ReportOutcome(r))
  {
    var r := ApplyReport(db, p, d, c, m, code, msg, clock);
    var start, gate := ReportLookup(p, d, c, m, code, msg), ReportGate(p, d, c, m, code, msg);
    if Target(c, d) !in db.assignments {
      AlreadyDone(clock, db, Refused);
      OneMore(clock, db, start, db, Done(Refused), db, Refused);
    } else {
      if CampaignIs(db, p, c, {Active}) {
        WriteAlone(clock, db, p, d, c, m, code, msg);
        OneMore(clock, db, gate, db, ReportWrite(p, d, c, m, code, msg), r.db, ReportOutcome(r));
      } else {
        CompleteAlone(clock, db, p, c, AfterReport([]), Reported([]));
        OneMore(clock, db, gate, db, CompleteRead(p, c, AfterReport([])), r.db, Reported([]));
      }
      OneMore(clock, db, start, db, gate, r.db, ReportOutcome(r));
    }
  }

  lemma WriteAlone(clock: Time, db: Db, p: Id, d: Id, c: Id, m: Milestone, code: Option<nat>, msg: Bytes)
    requires Target(c, d) in db.assignments && CampaignIs(db, p, c, {Active})
    ensures var r := ApplyReport(db, p, d, c, m, code, msg, clock);
            RunsTo(clock, db, ReportWrite(p, d, c, m, code, msg), r.db, ReportOutcome(r))
  {
    var r := ApplyReport(db, p, d, c, m, code, msg, clock);
    var write := ReportWrite(p, d, c, m, code, msg);
    var written := WriteReport(db, c, d, m, code, msg);
    if !AssignmentIs(db, c, d, From(m)) {
      CompleteAlone(clock, db, p, c, AfterReport([]), Reported([]));
      OneMore(clock, db, write, db, CompleteRead(p, c, AfterReport([])), r.db, Reported([]));
    } else if !m.ReportInstalled? {
      CompleteAlone(clock, written, p, c, AfterReport([]), Reported([]));
      OneMore(clock, db, write, written, CompleteRead(p, c, AfterReport([])), r.db, Reported([]));
    } else {
      InstalledAlone(clock, written, p, d, c);
      OneMore(clock, db, write, written, ReportCampaign(p, d, c), r.db, ReportOutcome(r));
    }
  }

  lemma InstalledAlone(clock: Time, db: Db, p: Id, d: Id, c: Id)
    requires CampaignIn(db, p, c)
    ensures var r := AfterInstalled(db, p, d, c, clock);
            RunsTo(clock, db, ReportCampaign(p, d, c), r.db, ReportOutcome(r))
  {
    var r := AfterInstalled(db, p, d, c, clock);
    var f := db.campaigns[c].firmware;
    if FirmwareIn(db, p, f) {
      var version := db.firmwares[f].version;
      var touched := TouchDevice(db, p, d, Some(version), clock);
      CompleteAlone(clock, touched, p, c, AfterReport(version), Reported(version));
      OneMore(clock, db, ReportTouch(p, d, c, version), touched, CompleteRead(p, c, AfterReport(version)), r.db, Reported(version));
      OneMore(clock, db, ReportFirmware(p, d, c, f), db, ReportTouch(p, d, c, version), r.db, Reported(version));
    } else {
      AlreadyDone(clock, db, Refused);
      OneMore(clock, db, ReportFirmware(p, d, c, f), db, Done(Refused), db, Refused);
    }
    OneMore(clock, db, ReportCampaign(p, d, c), db, ReportFirmware(p, d, c, f), r.db, ReportOutcome(r));
  }

  lemma ForcedAlone(clock: Time, db: Db, p: Id, d: Id, c: Id)
    ensures RunsTo(clock, db, HttpSet(p, d, c), TryAutoComplete(ForceInstalled(db, c, d), p, c, clock), Reported([]))
  {
    var forced := ForceInstalled(db, c, d);
    CompleteAlone(clock, forced, p, c, AfterReport([]), Reported([]));
    OneMore(clock, db, HttpSet(p, d, c), forced, CompleteRead(p, c, AfterReport([])),
            TryAutoComplete(forced, p, c, clock), Reported([]));
  }

  ghost function VersionReportOutcome(db: Db, p: Id, d: Id, accepts: Bytes -> bool): Outcome {
    var found := FindInFlight(db, p, d);
    if found.Some? && accepts(found.value.version) then Reported([]) else Finished
  }

  lemma VersionReportAlone(clock: Time, db: Db, p: Id, d: Id, accepts: Bytes -> bool)
    ensures RunsTo(clock, db, HttpFind(p, d, accepts), ReportVersion(db, p, d, accepts, clock),
                   VersionReportOutcome(db, p, d, accepts))
  {
    var db' := ReportVersion(db, p, d, accepts, clock);
    var found := FindInFlight(db, p, d);
    if found.Some? && accepts(found.value.version) {
      ForcedAlone(clock, db, p, d, found.value.campaign);
      OneMore(clock, db, HttpFind(p, d, accepts), db, HttpSet(p, d, found.value.campaign), db', Reported([]));
    } else {
      AlreadyDone(clock, db, Finished);
      OneMore(clock, db, HttpFind(p, d, accepts), db, Done(Finished), db, Finished);
    }
  }

  // Creation

  predicate GroupsFrom(db: Db, input: CreateInput, i: nat) {
    forall k | i <= k < |input.groups| :: GroupIn(db, input.project, input.groups[k])
  }

  ghost function CreateOutcome(db: Db, db': Db, c: Id): Outcome {
    if c !in db.campaigns && c in db'.campaigns then Created(c) else Refused
  }

  /** From the firmware read on. */
  ghost function CreateScoped(db: Db, input: CreateInput, c: Id, now: Time): Db
    requires input.firmware in db.firmwares
  {
    var chosen := ChosenFrom(input, CompatibleScope(db, input));
    if db.firmwares[input.firmware].deviceTypes != {} && CompatibleScope(db, input) != {}
       && BundleFits(db, c, input.groups, input.explicit, chosen)
    then InsertBundle(db, c, NewCampaign(input, |chosen|, now), chosen)
    else db
  }

  lemma InsertAlone(clock: Time, db: Db, input: CreateInput, c: Id, draft: Campaign, chosen: seq<Id>)
    ensures var db' := if BundleFits(db, c, input.groups, input.explicit, chosen) then InsertBundle(db, c, draft, chosen) else db;
            RunsTo(clock, db, CreateInsert(input, c, draft, chosen), db', CreateOutcome(db, db', c))
  {
    if BundleFits(db, c, input.groups, input.explicit, chosen) {
      var db' := InsertBundle(db, c, draft, chosen);
      AlreadyDone(clock, db', Created(c));
      OneMore(clock, db, CreateInsert(input, c, draft, chosen), db', Done(Created(c)), db', Created(c));
    } else {
      AlreadyDone(clock, db, Refused);
      OneMore(clock, db, CreateInsert(input, c, draft, chosen), db, Done(Refused), db, Refused);
    }
  }

  lemma FilterAlone(clock: Time, db: Db, input: CreateInput, c: Id)
    requires input.firmware in db.firmwares && db.firmwares[input.firmware].deviceTypes != {}
    ensures var db' := CreateScoped(db, input, c, clock);
            RunsTo(clock, db, CreateFilter(input, c, db.firmwares[input.firmware].deviceTypes, ScopeOf(db, input)),
                   db', CreateOutcome(db, db', c))
  {
    var types, db' := db.firmwares[input.firmware].deviceTypes, CreateScoped(db, input, c, clock);
    var filter := CreateFilter(input, c, types, ScopeOf(db, input));
    if CompatibleScope(db, input) != {} {
      var chosen := ChosenFrom(input, CompatibleScope(db, input));
      var draft := NewCampaign(input, |chosen|, clock);
      InsertAlone(clock, db, input, c, draft, chosen);
      OneMore(clock, db, filter, db, CreateInsert(input, c, draft, chosen), db', CreateOutcome(db, db', c));
    } else {
      AlreadyDone(clock, db, Refused);
      OneMore(clock, db, filter, db, Done(Refused), db, Refused);
    }
  }

  lemma ListingAlone(clock: Time, db: Db, input: CreateInput, c: Id)
    requires input.firmware in db.firmwares && db.firmwares[input.firmware].deviceTypes != {}
    ensures var db' := CreateScoped(db, input, c, clock);
            RunsTo(clock, db, CreateFromGroups(input, c, db.firmwares[input.firmware].deviceTypes),
                   db', CreateOutcome(db, db', c))
  {
    var types, db' := db.firmwares[input.firmware].deviceTypes, CreateScoped(db, input, c, clock);
    var out, inGroups := CreateOutcome(db, db', c), DevicesInGroups(db, input.project, input.groups);
    var filter := CreateFilter(input, c, types, ScopeOf(db, input));
    FilterAlone(clock, db, input, c);
    OneMore(clock, db, CreateFromExplicit(input, c, types, inGroups), db, filter, db', out);
    OneMore(clock, db, CreateFromGroups(input, c, types), db, CreateFromExplicit(input, c, types, inGroups), db', out);
  }

  lemma ScopeAlone(clock: Time, db: Db, input: CreateInput, c: Id)
    requires input.firmware in db.firmwares
    ensures var db' := CreateScoped(db, input, c, clock);
            RunsTo(clock, db, CreateTypes(input, c), db', CreateOutcome(db, db', c))
  {
    var types, db' := db.firmwares[input.firmware].deviceTypes, CreateScoped(db, input, c, clock);
    if types != {} {
      ListingAlone(clock, db, input, c);
      OneMore(clock, db, CreateTypes(input, c), db, CreateFromGroups(input, c, types), db', CreateOutcome(db, db', c));
    } else {
      AlreadyDone(clock, db, Refused);
      OneMore(clock, db, CreateTypes(input, c), db, Done(Refused), db, Refused);
    }
  }

  lemma {:induction false} GroupsAlone(clock: Time, db: Db, input: CreateInput, c: Id, i: nat)
    requires i <= |input.groups|
    ensures var db' := if GroupsFrom(db, input, i) && FirmwareIn(db, input.project, input.firmware)
                       then CreateScoped(db, input, c, clock) else db;
            RunsTo(clock, db, CreateGroups(input, c, i), db', CreateOutcome(db, db', c))
    decreases |input.groups| - i
  {
    var ok := FirmwareIn(db, input.project, input.firmware);
    var db' := if GroupsFrom(db, input, i) && ok then CreateScoped(db, input, c, clock) else db;
    var here := CreateGroups(input, c, i);
    if i < |input.groups| && GroupIn(db, input.project, input.groups[i]) {
      GroupsAlone(clock, db, input, c, i + 1);
      assert GroupsFrom(db, input, i) <==> GroupsFrom(db, input, i + 1);
      OneMore(clock, db, here, db, CreateGroups(input, c, i + 1), db', CreateOutcome(db, db', c));
    } else if i == |input.groups| && ok {
      ScopeAlone(clock, db, input, c);
      OneMore(clock, db, here, db, CreateTypes(input, c), db', CreateOutcome(db, db', c));
    } else {
      AlreadyDone(clock, db, Refused);
      OneMore(clock, db, here, db, Done(Refused), db, Refused);
    }
  }

  lemma CreateAlone(clock: Time, db: Db, input: CreateInput, c: Id)
    ensures var db' := CreateCampaign(db, input, c, clock);
            RunsTo(clock, db, CreateStart(input, c), db', CreateOutcome(db, db', c))
  {
    var db' := CreateCampaign(db, input, c, clock);
    if ProjectOpen(db, input.project) && ValidInput(input) {
      GroupsAlone(clock, db, input, c, 0);
      assert GroupsFrom(db, input, 0) <==> forall g | g in input.groups :: GroupIn(db, input.project, g);
      OneMore(clock, db, CreateStart(input, c), db, CreateGroups(input, c, 0), db', CreateOutcome(db, db', c));
    } else {
      AlreadyDone(clock, db, Refused);
      OneMore(clock, db, CreateStart(input, c), db, Done(Refused), db, Refused);
    }
  }
}
