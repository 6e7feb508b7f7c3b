/**
 What each frame of a device comes to: which octets it is answered with and what it leaves in the
 tables. The statements join the payload layouts to the rollout tables and use the numbers of the
 documented protocol; none of the handler's intermediate steps occurs in them.
 */
module SessionEffects {
  import opened Basics
  import opened CampaignState
  import opened Tables
  import opened Queries
  import opened CampaignOps
  import opened Downloads
  import opened DeviceTokens
  import opened Frames
  import opened Payloads
  import opened Session
  import opened RolloutEffects
  import BigEndian

  /** The device is there, in the project, and not blocked. */
  predicate Admitted(db: Db, p: Id, d: Id) {
    d in db.devices && db.devices[d].project == p && !db.devices[d].blocked
  }

  /** An error reply with that code and text. */
  ghost predicate Errs(cfg: Config, a: Answer, code: u32, text: string) {
    && a.msgType == 255 && |a.payload| >= 6
    && U32At(a.payload, 0) == code && FieldAt(a.payload, 4) == Some(cfg.ops.scrub(Ascii(text)))
  }

  lemma ProblemsErr(cfg: Config, code: u32, text: string)
    requires cfg.ops.Shrinks() && |text| <= 512
    ensures Errs(cfg, Problem(cfg, code, text), code, text)
  {
    ErrorsAreReadable(cfg.ops, code, Ascii(text));
  }

  // ---------------------------------------------------------------------------
  // Polls
  // ---------------------------------------------------------------------------

  /** The tables after the sighting that every admitted poll begins with. */
  function Sighted(db: Db, p: Id, d: Id, version: Option<Bytes>, now: Time): Db {
    db.(devices := Seen(db.devices, p, d, version, now))
  }

  lemma SightingsOpenNothing(db: Db, p: Id, d: Id, version: Option<Bytes>, now: Time)
    ensures forall c, status :: Open(Sighted(db, p, d, version, now), p, d, c, status) <==> Open(db, p, d, c, status)
    ensures TouchDevice(db, p, d, version, now) == Sighted(db, p, d, version, now)
  {
    SeenIsTouched(db, p, d, version, now);
  }

  ghost predicate SomethingOpen(db: Db, p: Id, d: Id) {
    exists c :: Open(db, p, d, c, Pending) || Open(db, p, d, c, Offered)
  }

  /** Main result: `no update` is the answer exactly when nothing is open or a service is not wired. */
  lemma NoUpdateExactly(cfg: Config, db: Db, p: Id, d: Id, payload: Bytes, at: Moment)
    requires cfg.ops.Shrinks()
    ensures PollStep(cfg, db, p, d, payload, at).answer == Answer(129, [0]) <==>
            DecodePoll(cfg.ops, payload).Some? && Admitted(db, p, d)
            && (!cfg.campaigns || !cfg.firmware || !SomethingOpen(db, p, d))
  {
    var seen := TouchDevice(db, p, d, None, at.now);
    SightingsOpenNothing(db, p, d, None, at.now);
    PollEffect(seen, p, d, at.now);
    var polled := BuildPollOffer(seen, p, d, at.now);
    if polled.offer.Some? {
      assert Open(db, p, d, polled.offer.value.campaign, polled.offer.value.status);
      LongAnswers(cfg, Prepare(cfg, polled.db, p, d, polled.offer.value, at).delivery);
    }
  }

  /** Whatever becomes of an offer, it is not answered with `no update`. */
  lemma LongAnswers(cfg: Config, delivery: Delivery)
    requires delivery.Deliver? ==> |delivery.update.checksum| == 32
    ensures Announce(cfg, delivery) != Answer(129, [0])
  {
    if delivery.Deliver? && Encodable(delivery.update) {
      assert |Announce(cfg, delivery).payload| >= 73;
    }
  }

  /** The lifetime of a download token: as configured, else fifteen minutes. */
  function Life(cfg: Config): Time {
    if cfg.ttl > 0 then cfg.ttl else 900_000_000_000
  }

  /** What the update must say. */
  predicate SaysRight(cfg: Config, row: OfferRow, at: Moment, u: Update) {
    && u.campaign == row.campaign && u.firmware == row.firmware && u.version == row.version
    && HexDecode(cfg.ops.trim(row.checksum)) == Some(u.checksum)
    && u.url == TrimSlashes(cfg.ops.trim(cfg.base))
                + Ascii("/api/v1/device/firmware-download?token=") + RawToken(at.secret)
    && u.expires == (at.now + Life(cfg)) / 1_000_000_000 % 0x1_0000_0000
  }

  /** How long the URL of an update is. */
  function UrlSize(cfg: Config): nat {
    |TrimSlashes(cfg.ops.trim(cfg.base))| + 39 + 64
  }

  /** Nothing stands in the way of announcing the row. */
  predicate Announceable(cfg: Config, db: Db, p: Id, row: OfferRow, at: Moment) {
    && row.firmware in db.firmwares && db.firmwares[row.firmware].project == p
    && HexDecode(cfg.ops.trim(row.checksum)).Some? && |HexDecode(cfg.ops.trim(row.checksum)).value| == 32
    && cfg.hash(RawToken(at.secret)) !in db.otaTokens
    && |row.version| <= 2048 && UrlSize(cfg) <= 8192 && 73 + |row.version| + UrlSize(cfg) <= 8192
  }

  /** The tables an announcing poll leaves: the device seen, the row offered, the token stored. */
  ghost predicate AnnouncedIn(cfg: Config, db: Db, after: Db, p: Id, d: Id, row: OfferRow, at: Moment) {
    var t, hash := Target(row.campaign, d), cfg.hash(RawToken(at.secret));
    && t in db.assignments
    && after == db.(devices := Seen(db.devices, p, d, None, at.now),
                    assignments := db.assignments[t := db.assignments[t].(status := Offered)],
                    otaTokens := db.otaTokens[hash := OtaToken(p, d, row.campaign, row.firmware, at.now + Life(cfg), None)])
  }

  /** The poll is answered with the update that the row stands for. */
  ghost predicate Announces(cfg: Config, step: Step, row: OfferRow, at: Moment) {
    && step.answer.msgType == 129
    && exists u :: SaysRight(cfg, row, at, u) && DecodeResponse(step.answer.payload) == Some(UpdateAvailable(u))
  }

  lemma PreparedRight(cfg: Config, db: Db, p: Id, d: Id, row: OfferRow, at: Moment)
    requires row.firmware in db.firmwares && !db.firmwares[row.firmware].deleted && Announceable(cfg, db, p, row, at)
    ensures var issue := Prepare(cfg, db, p, d, row, at);
            && issue.delivery.Deliver? && SaysRight(cfg, row, at, issue.delivery.update) && Encodable(issue.delivery.update)
            && issue.db == db.(otaTokens := db.otaTokens[cfg.hash(RawToken(at.secret)) :=
                                 OtaToken(p, d, row.campaign, row.firmware, at.now + Life(cfg), None)])
  {
    var raw := RawToken(at.secret);
    var base := TrimSlashes(cfg.ops.trim(cfg.base));
    assert base + (DOWNLOAD_PATH + raw) == base + DOWNLOAD_PATH + raw;
    assert |DOWNLOAD_PATH| == 39;
  }

  /** The poll reaches the preparation of its row, in tables that differ in the device and the row only. */
  ghost predicate GoesOn(cfg: Config, db: Db, step: Step, met: Db, p: Id, d: Id, row: OfferRow, at: Moment) {
    && OfferedRight(db, p, d, row) && OnlyOffers(Sighted(db, p, d, None, at.now), met, Target(row.campaign, d))
    && step == Step(Prepare(cfg, met, p, d, row, at).db, Announce(cfg, Prepare(cfg, met, p, d, row, at).delivery))
  }

  lemma OpenPollsGoOn(cfg: Config, db: Db, p: Id, d: Id, payload: Bytes, at: Moment) returns (row: OfferRow, met: Db)
    requires DecodePoll(cfg.ops, payload).Some? && Admitted(db, p, d) && cfg.campaigns && cfg.firmware && SomethingOpen(db, p, d)
    ensures GoesOn(cfg, db, PollStep(cfg, db, p, d, payload, at), met, p, d, row, at)
  {
    var seen := TouchDevice(db, p, d, None, at.now);
    SightingsOpenNothing(db, p, d, None, at.now);
    PollEffect(seen, p, d, at.now);
    var polled := BuildPollOffer(seen, p, d, at.now);
    row, met := polled.offer.value, polled.db;
    assert OfferedRight(db, p, d, row);
  }

  lemma GoingOnAnnounces(cfg: Config, db: Db, step: Step, met: Db, p: Id, d: Id, row: OfferRow, at: Moment)
    requires GoesOn(cfg, db, step, met, p, d, row, at) && Announceable(cfg, db, p, row, at)
    ensures Announces(cfg, step, row, at) && AnnouncedIn(cfg, db, step.db, p, d, row, at)
  {
    PreparedRight(cfg, met, p, d, row, at);
    ResponseRoundTrip(Prepare(cfg, met, p, d, row, at).delivery.update);
  }

  /** Why a row cannot be announced, in the order the steps fail; past the first, the token is stored all the same. */
  ghost predicate Hindered(cfg: Config, db: Db, step: Step, p: Id, d: Id, row: OfferRow, at: Moment)
    requires row.firmware in db.firmwares
  {
    var sum := HexDecode(cfg.ops.trim(row.checksum));
    if db.firmwares[row.firmware].project != p || cfg.hash(RawToken(at.secret)) in db.otaTokens
    then Errs(cfg, step.answer, 5, "token issue failed")
         && OnlyOffers(Sighted(db, p, d, None, at.now), step.db, Target(row.campaign, d))
    else AnnouncedIn(cfg, db, step.db, p, d, row, at)
         && if sum.None? || |sum.value| != 32 then Errs(cfg, step.answer, 5, "bad firmware checksum")
            else if |row.version| > 2048 || UrlSize(cfg) > 8192 then Errs(cfg, step.answer, 5, "encode failed")
            else forall reqId :: Wire(reqId, step.answer) == []
  }

  lemma GoingOnIsHindered(cfg: Config, db: Db, step: Step, met: Db, p: Id, d: Id, row: OfferRow, at: Moment)
    requires cfg.ops.Shrinks() && GoesOn(cfg, db, step, met, p, d, row, at) && !Announceable(cfg, db, p, row, at)
    ensures Hindered(cfg, db, step, p, d, row, at)
  {
    HinderedPreparation(cfg, met, p, d, row, at);
  }

  /** The same of the preparation alone, over the tables it meets. */
  ghost predicate Impedes(cfg: Config, met: Db, after: Db, a: Answer, p: Id, d: Id, row: OfferRow, at: Moment)
    requires row.firmware in met.firmwares
  {
    var sum, hash := HexDecode(cfg.ops.trim(row.checksum)), cfg.hash(RawToken(at.secret));
    if met.firmwares[row.firmware].project != p || hash in met.otaTokens
    then Errs(cfg, a, 5, "token issue failed") && after == met
    else after == met.(otaTokens := met.otaTokens[hash := OtaToken(p, d, row.campaign, row.firmware, at.now + Life(cfg), None)])
         && if sum.None? || |sum.value| != 32 then Errs(cfg, a, 5, "bad firmware checksum")
            else if |row.version| > 2048 || UrlSize(cfg) > 8192 then Errs(cfg, a, 5, "encode failed")
            else forall reqId :: Wire(reqId, a) == []
  }

  lemma HinderedPreparation(cfg: Config, met: Db, p: Id, d: Id, row: OfferRow, at: Moment)
    requires row.firmware in met.firmwares && !met.firmwares[row.firmware].deleted
    requires cfg.ops.Shrinks() && !Announceable(cfg, met, p, row, at)
    ensures var issue := Prepare(cfg, met, p, d, row, at);
            Impedes(cfg, met, issue.db, Announce(cfg, issue.delivery), p, d, row, at)
  {
    var delivery := Prepare(cfg, met, p, d, row, at).delivery;
    if delivery.NoToken? {
      ProblemsErr(cfg, 5, "token issue failed");
    } else if delivery.BadChecksum? {
      ProblemsErr(cfg, 5, "bad firmware checksum");
    } else {
      UrlLength(cfg, RawToken(at.secret));
      if !Encodable(delivery.update) {
        ProblemsErr(cfg, 5, "encode failed");
      }
    }
  }

  /**
   Main result: a poll that finds something open is told exactly that update, with a URL that carries
   its token, unless one of four things stands in the way; then it is told which, or nothing.
   */
  lemma OpenPollsAnnounce(cfg: Config, db: Db, p: Id, d: Id, payload: Bytes, at: Moment) returns (row: OfferRow)
    requires cfg.ops.Shrinks()
    requires DecodePoll(cfg.ops, payload).Some? && Admitted(db, p, d) && cfg.campaigns && cfg.firmware && SomethingOpen(db, p, d)
    ensures OfferedRight(db, p, d, row)
    ensures var step := PollStep(cfg, db, p, d, payload, at);
            if Announceable(cfg, db, p, row, at)
            then Announces(cfg, step, row, at) && AnnouncedIn(cfg, db, step.db, p, d, row, at)
            else Hindered(cfg, db, step, p, d, row, at)
  {
    var step := PollStep(cfg, db, p, d, payload, at);
    var met: Db;
    row, met := OpenPollsGoOn(cfg, db, p, d, payload, at);
    if Announceable(cfg, db, p, row, at) {
      GoingOnAnnounces(cfg, db, step, met, p, d, row, at);
    } else {
      GoingOnIsHindered(cfg, db, step, met, p, d, row, at);
    }
  }

  /** What a poll answered with `no update` leaves: the device seen, and an offer made all the same if only the firmware service is missing. */
  ghost predicate LeavesQuietly(cfg: Config, db: Db, after: Db, p: Id, d: Id, now: Time) {
    if cfg.campaigns && SomethingOpen(db, p, d)
    then exists row :: OfferedRight(db, p, d, row) && OnlyOffers(Sighted(db, p, d, None, now), after, Target(row.campaign, d))
    else after == Sighted(db, p, d, None, now)
  }

  lemma QuietPollsLeave(cfg: Config, db: Db, p: Id, d: Id, payload: Bytes, at: Moment)
    requires DecodePoll(cfg.ops, payload).Some? && Admitted(db, p, d)
    requires !cfg.campaigns || !cfg.firmware || !SomethingOpen(db, p, d)
    ensures LeavesQuietly(cfg, db, PollStep(cfg, db, p, d, payload, at).db, p, d, at.now)
  {
    var seen := TouchDevice(db, p, d, None, at.now);
    SightingsOpenNothing(db, p, d, None, at.now);
    PollEffect(seen, p, d, at.now);
    var polled := BuildPollOffer(seen, p, d, at.now);
    if polled.offer.Some? {
      assert OfferedRight(db, p, d, polled.offer.value);
      assert Open(db, p, d, polled.offer.value.campaign, polled.offer.value.status);
    }
  }

  /** The polls that fail: a malformed payload, or a device that may not poll; neither touches the tables. */
  lemma RefusedPolls(cfg: Config, db: Db, p: Id, d: Id, payload: Bytes, at: Moment)
    requires cfg.ops.Shrinks()
    ensures var step := PollStep(cfg, db, p, d, payload, at);
            && (DecodePoll(cfg.ops, payload).None? ==> step.db == db && Errs(cfg, step.answer, 4, "invalid poll payload"))
            && (DecodePoll(cfg.ops, payload).Some? && !Admitted(db, p, d) ==>
                  step.db == db && Errs(cfg, step.answer, 5, "poll failed"))
  {
    ProblemsErr(cfg, 4, "invalid poll payload");
    ProblemsErr(cfg, 5, "poll failed");
  }

  // ---------------------------------------------------------------------------
  // Reports
  // ---------------------------------------------------------------------------

  /** What a status octet stands for. */
  predicate StandsFor(status: byte, m: Milestone) {
    (status == 1 && m == ReportDownloaded) || (status == 2 && m == ReportInstalled) || (status == 3 && m == ReportFailed)
  }

  function CodeOf(r: Report): Option<nat> {
    if r.code == 0 then None else Some(r.code)
  }

  /** The message as stored: trimmed, at most 256 octets. */
  function MessageOf(cfg: Config, r: Report): Bytes {
    var m := cfg.ops.trim(r.msg);
    if |m| <= 256 then m else m[..256]
  }

  /** The version a report writes to its device at the end, after what it may have installed. */
  function VersionWritten(r: Report, installed: Bytes): Option<Bytes> {
    if installed != [] then Some(installed) else if r.version != [] then Some(r.version) else None
  }

  /** The version of the firmware an accepted installed report is about. */
  function InstalledVersion(cfg: Config, db: Db, p: Id, d: Id, r: Report, m: Milestone): Bytes {
    if m.ReportInstalled? && Reportable(db, p, d, r.campaign, m) && FirmwareThere(db, p, r.campaign)
    then cfg.ops.trim(db.firmwares[db.campaigns[r.campaign].firmware].version) else []
  }

  /** The engine's part of a report: the row, the version, the completion. */
  ghost function EngineAfter(cfg: Config, db: Db, p: Id, d: Id, r: Report, m: Milestone, now: Time): Db {
    AfterReport(cfg.ops.trim, db, p, d, r.campaign, m, CodeOf(r), MessageOf(cfg, r), now)
  }

  /** A whole report: what it leaves and how it is answered. */
  ghost predicate ReportedRight(cfg: Config, db: Db, step: Step, p: Id, d: Id, r: Report, m: Milestone, now: Time) {
    var after := EngineAfter(cfg, db, p, d, r, m, now);
    if Stops(db, p, d, r.campaign, m) then step.db == after && Errs(cfg, step.answer, 5, "report apply failed")
    else if !Admitted(db, p, d) then step.db == after && Errs(cfg, step.answer, 5, "report touch failed")
    else step.db == Sighted(after, p, d, VersionWritten(r, InstalledVersion(cfg, db, p, d, r, m)), now)
         && step.answer == Answer(130, [1])
  }

  lemma MilestonesStand(status: byte, m: Milestone)
    ensures MilestoneOf(status) == Some(m) <==> StandsFor(status, m)
  {
  }

  /** The sighting that ends a report, and its answer. */
  lemma TouchedRight(cfg: Config, db: Db, p: Id, d: Id, version: Option<Bytes>, now: Time)
    requires cfg.ops.Shrinks()
    ensures var step := TouchStep(cfg, db, p, d, version, now);
            if Admitted(db, p, d) then step == Step(Sighted(db, p, d, version, now), Answer(130, [1]))
            else step.db == db && Errs(cfg, step.answer, 5, "report touch failed")
  {
    ProblemsErr(cfg, 5, "report touch failed");
    SeenIsTouched(db, p, d, version, now);
  }

  lemma EngineKeepsAdmission(cfg: Config, db: Db, p: Id, d: Id, r: Report, m: Milestone, now: Time)
    ensures Admitted(EngineAfter(cfg, db, p, d, r, m, now), p, d) <==> Admitted(db, p, d)
  {
  }

  /** The service's part of a report is the engine's. */
  lemma EngineRight(cfg: Config, db: Db, p: Id, d: Id, r: Report, m: Milestone, now: Time)
    ensures var applied := TrimmedReport(cfg.ops.trim, db, p, d, r.campaign, m, NonZero(r.code), Clip(cfg.ops.trim(r.msg)), now);
            && applied.db == EngineAfter(cfg, db, p, d, r, m, now)
            && (applied.version.Err? <==> Stops(db, p, d, r.campaign, m))
            && (applied.version.Ok? ==> applied.version.value == InstalledVersion(cfg, db, p, d, r, m))
  {
    assert Clip(cfg.ops.trim(r.msg)) == MessageOf(cfg, r) && NonZero(r.code) == CodeOf(r);
    ReportEffect(cfg.ops.trim, db, p, d, r.campaign, m, CodeOf(r), MessageOf(cfg, r), now);
  }

  lemma AppliedRight(cfg: Config, db: Db, p: Id, d: Id, r: Report, m: Milestone, now: Time)
    requires cfg.ops.Shrinks()
    ensures ReportedRight(cfg, db, AppliedStep(cfg, db, p, d, r, m, now), p, d, r, m, now)
  {
    EngineRight(cfg, db, p, d, r, m, now);
    if Stops(db, p, d, r.campaign, m) {
      ProblemsErr(cfg, 5, "report apply failed");
    } else {
      EngineKeepsAdmission(cfg, db, p, d, r, m, now);
      var installed := InstalledVersion(cfg, db, p, d, r, m);
      assert installed != [] ==> m.ReportInstalled?;
      TouchedRight(cfg, EngineAfter(cfg, db, p, d, r, m, now), p, d, VersionWritten(r, installed), now);
    }
  }

  /**
   Main result: from the octets of a report to the tables. Octet 1 is a download, 2 an installation,
   3 a failure with its code and message; any other octet changes nothing.
   */
  lemma ReportFrameEffect(cfg: Config, db: Db, p: Id, d: Id, payload: Bytes, at: Moment)
    requires cfg.ops.Shrinks() && DecodeReport(cfg.ops, payload).Some? && cfg.campaigns
    ensures var step, r := ReportStep(cfg, db, p, d, payload, at), DecodeReport(cfg.ops, payload).value;
            && (forall m | StandsFor(r.status, m) :: ReportedRight(cfg, db, step, p, d, r, m, at.now))
            && (!(1 <= r.status <= 3) ==> step.db == db && Errs(cfg, step.answer, 4, "invalid status"))
  {
    var r := DecodeReport(cfg.ops, payload).value;
    ProblemsErr(cfg, 4, "invalid status");
    forall m | StandsFor(r.status, m)
      ensures ReportedRight(cfg, db, ReportStep(cfg, db, p, d, payload, at), p, d, r, m, at.now)
    {
      MilestonesStand(r.status, m);
      AppliedRight(cfg, db, p, d, r, m, at.now);
    }
  }

  /** One campaign's row of the device after a report, from the status octet. */
  ghost predicate RowsRight(cfg: Config, db: Db, after: map<Target, Assignment>, p: Id, d: Id, r: Report) {
    var t := Target(r.campaign, d);
    && after.Keys == db.assignments.Keys
    && (forall k | k in db.assignments && k != t :: after[k] == db.assignments[k])
    && (t in db.assignments && r.campaign in db.campaigns && db.campaigns[r.campaign].project == p
        && db.campaigns[r.campaign].status == Active ==>
          var was := db.assignments[t].status;
          && (r.status == 1 && was in {Offered, Downloaded} ==> after[t] == Assignment(Downloaded, None, []))
          && (r.status == 2 && was in {Offered, Downloaded, Installed} ==> after[t] == Assignment(Installed, None, []))
          && (r.status == 3 && was in {Pending, Offered, Downloaded, Failed} ==>
                after[t] == Assignment(Failed, CodeOf(r), MessageOf(cfg, r))))
  }

  lemma EngineRowsRight(cfg: Config, db: Db, p: Id, d: Id, r: Report, m: Milestone, now: Time)
    requires StandsFor(r.status, m)
    ensures RowsRight(cfg, db, EngineAfter(cfg, db, p, d, r, m, now).assignments, p, d, r)
  {
    ReportedRow(cfg.ops.trim, db, p, d, r.campaign, m, CodeOf(r), MessageOf(cfg, r), now);
    WrittenRowsRight(cfg, db, p, d, r, m);
  }

  function RowsWritten(cfg: Config, db: Db, p: Id, d: Id, r: Report, m: Milestone): map<Target, Assignment> {
    if Reportable(db, p, d, r.campaign, m)
    then db.assignments[Target(r.campaign, d) := RowAfter(m, CodeOf(r), MessageOf(cfg, r))] else db.assignments
  }

  lemma WrittenRowsRight(cfg: Config, db: Db, p: Id, d: Id, r: Report, m: Milestone)
    requires StandsFor(r.status, m)
    ensures RowsRight(cfg, db, RowsWritten(cfg, db, p, d, r, m), p, d, r)
  {
  }

  /** The same seen from one assignment: the row each octet leaves in an active campaign, and no other row. */
  lemma ReportedRows(cfg: Config, db: Db, p: Id, d: Id, payload: Bytes, at: Moment, m: Milestone)
    requires cfg.ops.Shrinks() && DecodeReport(cfg.ops, payload).Some? && cfg.campaigns
    requires StandsFor(DecodeReport(cfg.ops, payload).value.status, m)
    ensures RowsRight(cfg, db, ReportStep(cfg, db, p, d, payload, at).db.assignments, p, d, DecodeReport(cfg.ops, payload).value)
  {
    ReportFrameEffect(cfg, db, p, d, payload, at);
    var r := DecodeReport(cfg.ops, payload).value;
    EngineRowsRight(cfg, db, p, d, r, m, at.now);
    assert ReportedRight(cfg, db, ReportStep(cfg, db, p, d, payload, at), p, d, r, m, at.now);
  }

  /** The device after an accepted installed report over live firmware. */
  predicate VersionRight(cfg: Config, db: Db, after: map<Id, Device>, d: Id, r: Report, now: Time)
    requires d in db.devices && r.campaign in db.campaigns && db.campaigns[r.campaign].firmware in db.firmwares
  {
    var version := cfg.ops.trim(db.firmwares[db.campaigns[r.campaign].firmware].version);
    && d in after && after[d].lastSeen == Some(now)
    && after[d].firmwareVersion == if version != [] || r.version == [] || db.devices[d].blocked then version else r.version
  }

  lemma EngineVersionRight(cfg: Config, db: Db, p: Id, d: Id, r: Report, now: Time)
    requires DeviceIn(db, p, d) && Reportable(db, p, d, r.campaign, ReportInstalled) && FirmwareThere(db, p, r.campaign)
    ensures var after := EngineAfter(cfg, db, p, d, r, ReportInstalled, now);
            VersionRight(cfg, db, if Admitted(db, p, d)
                                  then Sighted(after, p, d, VersionWritten(r, InstalledVersion(cfg, db, p, d, r, ReportInstalled)), now).devices
                                  else after.devices, d, r, now)
  {
  }

  /** An accepted installed report leaves the firmware's trimmed version on the device, unless that is empty. */
  lemma InstallingSetsTheVersion(cfg: Config, db: Db, p: Id, d: Id, payload: Bytes, at: Moment)
    requires cfg.ops.Shrinks() && DecodeReport(cfg.ops, payload).Some? && cfg.campaigns && DeviceIn(db, p, d)
    requires var r := DecodeReport(cfg.ops, payload).value;
             r.status == 2 && Reportable(db, p, d, r.campaign, ReportInstalled) && FirmwareThere(db, p, r.campaign)
    ensures VersionRight(cfg, db, ReportStep(cfg, db, p, d, payload, at).db.devices, d, DecodeReport(cfg.ops, payload).value, at.now)
  {
    ReportFrameEffect(cfg, db, p, d, payload, at);
    var r := DecodeReport(cfg.ops, payload).value;
    EngineVersionRight(cfg, db, p, d, r, at.now);
    assert StandsFor(r.status, ReportInstalled);
    assert ReportedRight(cfg, db, ReportStep(cfg, db, p, d, payload, at), p, d, r, ReportInstalled, at.now);
  }

  /** A malformed report changes nothing. */
  lemma MalformedReports(cfg: Config, db: Db, p: Id, d: Id, payload: Bytes, at: Moment)
    requires cfg.ops.Shrinks() && DecodeReport(cfg.ops, payload).None?
    ensures var step := ReportStep(cfg, db, p, d, payload, at); step.db == db && Errs(cfg, step.answer, 4, "invalid report payload")
  {
    ProblemsErr(cfg, 4, "invalid report payload");
  }

  /** A report that is a sighting only: refused for its octet or its device, or recorded. */
  ghost predicate OnlySights(cfg: Config, db: Db, step: Step, p: Id, d: Id, r: Report, now: Time) {
    if r.status != 1 && r.status != 2 && r.status != 3 then step.db == db && Errs(cfg, step.answer, 4, "invalid status")
    else if !Admitted(db, p, d) then step.db == db && Errs(cfg, step.answer, 5, "report touch failed")
    else step == Step(Sighted(db, p, d, VersionWritten(r, []), now), Answer(130, [1]))
  }

  lemma UnservedSteps(cfg: Config, db: Db, p: Id, d: Id, payload: Bytes, at: Moment)
    requires DecodeReport(cfg.ops, payload).Some? && !cfg.campaigns
    ensures var r := DecodeReport(cfg.ops, payload).value;
            ReportStep(cfg, db, p, d, payload, at) ==
            if MilestoneOf(r.status).None? then Step(db, Problem(cfg, 4, "invalid status"))
            else TouchStep(cfg, db, p, d, NonEmpty(r.version), at.now)
  {
  }

  /** Without a campaign service a report only counts as a sighting. */
  lemma UnservedReports(cfg: Config, db: Db, p: Id, d: Id, payload: Bytes, at: Moment)
    requires cfg.ops.Shrinks() && DecodeReport(cfg.ops, payload).Some? && !cfg.campaigns
    ensures OnlySights(cfg, db, ReportStep(cfg, db, p, d, payload, at), p, d, DecodeReport(cfg.ops, payload).value, at.now)
  {
    var r := DecodeReport(cfg.ops, payload).value;
    UnservedSteps(cfg, db, p, d, payload, at);
    ProblemsErr(cfg, 4, "invalid status");
    TouchedRight(cfg, db, p, d, NonEmpty(r.version), at.now);
  }

  /** Frames of type 2 are polls, of type 3 reports; anything else is refused and changes nothing. */
  lemma FramesAreDispatched(cfg: Config, db: Db, p: Id, d: Id, f: Frame, at: Moment)
    requires cfg.ops.Shrinks()
    ensures var step := FrameStep(cfg, db, p, d, f, at);
            if f.msgType == 2 then step == PollStep(cfg, db, p, d, f.payload, at)
            else if f.msgType == 3 then step == ReportStep(cfg, db, p, d, f.payload, at)
            else step.db == db && Errs(cfg, step.answer, 4, "unknown message type")
  {
    ProblemsErr(cfg, 4, "unknown message type");
  }

  // ---------------------------------------------------------------------------
  // Logins
  // ---------------------------------------------------------------------------

  /** The secret an auth frame carries, if it is one and carries any. */
  ghost predicate Presents(cfg: Config, f: Frame, token: Bytes) {
    f.msgType == 1 && DecodeAuth(cfg.ops, f.payload) == Some(token) && token != []
  }

  /** Main result: a device is served if and only if the first frame presents a secret that authenticates it. */
  lemma ServedExactly(cfg: Config, db: Db, input: Bytes, moments: nat -> Moment, d: Id)
    ensures EndingOf(cfg, db, input, moments) == Serving(d) <==>
            Parse(input).Read? && exists token :: Presents(cfg, Parse(input).frame, token)
                                                  && Authenticate(moments(0).world(db), cfg.hash(token)) == Ok(d)
  {
  }

  /** How each refusal is answered. */
  ghost predicate RefusedWith(cfg: Config, a: Answer, e: AuthError) {
    match e
    case NoSuchToken => Errs(cfg, a, 1, "unauthorized")
    case BlockedDevice => Errs(cfg, a, 2, "device blocked")
    case RevokedDevice => Errs(cfg, a, 3, "token revoked")
    case DisabledPolling => Errs(cfg, a, 3, "polling disabled")
  }

  /** Main result: whoever is turned away is told why. */
  lemma RefusalsAreNamed(cfg: Config, db: Db, f: Frame)
    requires cfg.ops.Shrinks()
    ensures var login := LoginStep(cfg, db, f);
            && (f.msgType != 1 ==> login.Rejected? && Errs(cfg, login.answer, 4, "auth frame required"))
            && (f.msgType == 1 && (DecodeAuth(cfg.ops, f.payload).None? || DecodeAuth(cfg.ops, f.payload) == Some([])) ==>
                  login.Rejected? && Errs(cfg, login.answer, 4, "invalid auth payload"))
            && (forall token | Presents(cfg, f, token) ::
                  match Authenticate(db, cfg.hash(token))
                  case Ok(d) => login == Accepted(d)
                  case Err(e) => login.Rejected? && RefusedWith(cfg, login.answer, e))
  {
    ProblemsErr(cfg, 4, "auth frame required");
    ProblemsErr(cfg, 4, "invalid auth payload");
    ProblemsErr(cfg, 1, "unauthorized");
    ProblemsErr(cfg, 2, "device blocked");
    ProblemsErr(cfg, 3, "token revoked");
    ProblemsErr(cfg, 3, "polling disabled");
  }

  /** The gates of a device, and a clean secret whose hash is that of its active token. */
  ghost predicate HoldsSecret(cfg: Config, db: Db, d: Id, secret: Bytes) {
    && d in db.devices && !db.devices[d].blocked && !db.devices[d].tokenRevoked && !db.devices[d].pollingDisabled
    && db.devices[d].activeToken in db.authTokens && db.authTokens[db.devices[d].activeToken].hash == cfg.hash(secret)
    && 0 < |secret| <= 8190 && cfg.ops.IsClean(secret)
  }

  /** Main result: after any history a device with open gates that sends its secret is let in, and told so first. */
  lemma HoldersAreServed(cfg: Config, ops: seq<TokenOp>, db: Db, d: Id, secret: Bytes, reqId: u32, rest: Bytes, moments: nat -> Moment)
    requires IsHistory(ops) && moments(0).world(db) == After(ops) && HoldsSecret(cfg, After(ops), d, secret)
    ensures var login := Frame(1, reqId, Field(secret));
            && Writable(login)
            && EndingOf(cfg, db, Framed(login) + rest, moments) == Serving(d)
            && Framed(Frame(128, reqId, [])) <= Serve(cfg, db, Framed(login) + rest, moments).output
  {
    var login := Frame(1, reqId, Field(secret));
    WrittenFramesParse(login, rest);
    AuthRoundTrip(cfg.ops, secret, []);
    assert Field(secret) + [] == Field(secret);
    assert Presents(cfg, login, secret);
    OnlyTheActiveTokenAuthenticates(ops, cfg.hash(secret), d);
  }

  // ---------------------------------------------------------------------------
  // Connections
  // ---------------------------------------------------------------------------

  /** One frame, met at one moment: the tables before others had their turn, the tables after it, and the reply. */
  ghost predicate Handled(cfg: Config, p: Id, d: Id, f: Frame, at: Moment, before: Db, after: Db, reply: Frame) {
    var step := FrameStep(cfg, at.world(before), p, d, f, at);
    after == step.db && reply == Frame(step.answer.msgType, f.reqId, step.answer.payload)
  }

  /** Tables and replies of a connection, frame by frame: each frame meets what the last one and the others left. */
  ghost predicate FrameByFrame(cfg: Config, p: Id, d: Id, frames: seq<Frame>, i: nat, moments: nat -> Moment,
                               tables: seq<Db>, replies: seq<Frame>) {
    if frames == [] then |tables| == 1 && replies == []
    else |tables| > 1 && replies != []
         && Handled(cfg, p, d, frames[0], moments(i), tables[0], tables[1], replies[0])
         && FrameByFrame(cfg, p, d, frames[1..], i + 1, moments, tables[1..], replies[1..])
  }

  /** Main result: serving handles the frames of the input one after the other, each at its own moment. */
  lemma {:induction false} ServingIsFrameByFrame(cfg: Config, db: Db, p: Id, d: Id, input: Bytes, i: nat, moments: nat -> Moment)
    returns (tables: seq<Db>)
    ensures tables != [] && tables[0] == db
    ensures tables[|tables| - 1] == ServeFrames(cfg, db, p, d, input, i, moments).db
    ensures FrameByFrame(cfg, p, d, ParseAll(input).frames, i, moments, tables, RepliesOf(cfg, db, p, d, input, i, moments))
    decreases |input|
  {
    var r := Parse(input);
    if r.Unread? {
      tables := [db];
    } else {
      var step := FrameStep(cfg, moments(i).world(db), p, d, r.frame, moments(i));
      var later := ServingIsFrameByFrame(cfg, step.db, p, d, r.rest, i + 1, moments);
      tables := [db] + later;
      assert tables[1..] == later && ParseAll(input).frames[1..] == ParseAll(r.rest).frames;
      assert RepliesOf(cfg, db, p, d, input, i, moments)[1..] == RepliesOf(cfg, step.db, p, d, r.rest, i + 1, moments);
    }
  }

  // ---------------------------------------------------------------------------
  // The octets
  // ---------------------------------------------------------------------------

  function Two(b: Bytes, i: nat): int
    requires i + 2 <= |b|
  {
    b[i] as int * 256 + b[i + 1] as int
  }

  function Four(b: Bytes, i: nat): int
    requires i + 4 <= |b|
  {
    Two(b, i) * 0x1_0000 + Two(b, i + 2)
  }

  lemma TwoIsWord(b: Bytes, i: nat)
    requires i + 2 <= |b|
    ensures WordAt(b, i, 2) == Two(b, i)
  {
    var w := b[i..i + 2];
    assert w[..1] == [b[i]] && [b[i]][..0] == [];
    assert BigEndian.Decode([b[i]]) == b[i];
  }

  lemma FourIsWord(b: Bytes, i: nat)
    requires i + 4 <= |b|
    ensures WordAt(b, i, 4) == Four(b, i)
  {
    var w := b[i..i + 4];
    TwoIsWord(b, i);
    assert w[..3][..2] == b[i..i + 2];
    assert BigEndian.Decode(w[..3]) == BigEndian.Decode(w[..3][..2]) * 256 + w[2];
  }

  /** A frame on the wire, octet by octet: "FRM1", version 1, flags 0, then three big-endian numbers. */
  lemma FramesOnTheWire(f: Frame)
    requires Writable(f)
    ensures var b := Framed(f);
            && b[..6] == [0x46, 0x52, 0x4d, 0x31, 1, 0]
            && Two(b, 6) == f.msgType && Four(b, 8) == f.reqId && Four(b, 12) == |f.payload| && b[16..] == f.payload
  {
    var b := Framed(f);
    var h := b[..16];
    assert h == Header(f.msgType, f.reqId, |f.payload|);
    HeaderFields(h, f.msgType, f.reqId, |f.payload|);
    assert b[6..8] == h[6..8] && b[8..12] == h[8..12] && b[12..16] == h[12..16];
    BigEndian.WordsOf(2);
    BigEndian.WordsOf(4);
    WordRoundTrip(b, 6, 2, f.msgType);
    WordRoundTrip(b, 8, 4, f.reqId);
    WordRoundTrip(b, 12, 4, |f.payload|);
    TwoIsWord(b, 6);
    FourIsWord(b, 8);
    FourIsWord(b, 12);
    assert b[..6] == h[..4] + [h[4], h[5]];
  }

  /** What reading makes of any input, by its octets. */
  lemma ReadingByOctets(b: Bytes)
    ensures b == [] ==> Parse(b) == Unread(EndOfInput)
    ensures 0 < |b| < 16 ==> Parse(b) == Unread(UnexpectedEnd)
    ensures |b| >= 16 ==>
              Parse(b) ==
              if b[..5] != [0x46, 0x52, 0x4d, 0x31, 1] then Unread(BadFrame)
              else if Four(b, 12) > 8192 then Unread(PayloadTooBig)
              else if |b| < 16 + Four(b, 12) then Unread(if |b| == 16 then EndOfInput else UnexpectedEnd)
              else Read(Frame(Two(b, 6), Four(b, 8), b[16..16 + Four(b, 12)]), b[16 + Four(b, 12)..])
  {
    if |b| >= 16 {
      TwoIsWord(b, 6);
      FourIsWord(b, 8);
      FourIsWord(b, 12);
      assert b[..5] == b[..4] + [b[4]];
    }
  }

  /** A report's octets: the campaign in the first sixteen, then the status, then the code. */
  lemma ReportsOnTheWire(ops: TextOps, p: Bytes)
    requires DecodeReport(ops, p).Some?
    ensures |p| >= 21
    ensures var r := DecodeReport(ops, p).value;
            r.campaign == BigEndian.Decode(p[..16]) && r.status == p[16] && r.code == Two(p, 17)
  {
    assert p[0..16] == p[..16];
    TwoIsWord(p, 17);
  }
}
