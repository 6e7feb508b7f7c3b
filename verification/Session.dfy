/**
 One device connection (internal/transport/devotcp/handler.go): authenticate, then answer frames
 until the input ends. Between two frames the rest of the product may do anything to the tables.
 */
module Session {
  import opened Basics
  import opened Tables
  import opened Queries
  import opened Machine
  import opened CampaignOps
  import opened Downloads
  import opened DeviceTokens
  import opened Frames
  import opened Payloads

  /** What a handler is built with; the two flags say which services are wired. */
  datatype Config = Config(ops: TextOps, hash: Bytes -> Bytes, base: Bytes, ttl: Time, campaigns: bool, firmware: bool)

  type Secret = s: Bytes | |s| == 32 witness seq(32, _ => 0)

  /** What one frame meets: the clock, the random source, and what others did to the tables before it. */
  datatype Moment = Moment(now: Time, secret: Secret, world: Db -> Db)

  function Ascii(s: string): (b: Bytes)
    ensures |b| == |s|
  {
    seq(|s|, i requires 0 <= i < |s| => s[i] as int % 256)
  }

  // ---------------------------------------------------------------------------
  // Answers
  // ---------------------------------------------------------------------------

  const AUTH_REQ: u16 := 1
  const POLL_REQ: u16 := 2
  const REPORT_REQ: u16 := 3
  const AUTH_OK: u16 := 128
  const POLL_RESP: u16 := 129
  const REPORT_RESP: u16 := 130
  const ERR: u16 := 255

  const UNAUTHORIZED: u32 := 1
  const BLOCKED: u32 := 2
  const REVOKED_OR_DISABLED: u32 := 3
  const BAD_PAYLOAD: u32 := 4
  const INTERNAL: u32 := 5

  datatype Answer = Answer(msgType: u16, payload: Bytes)

  /** What reaches the wire: an answer too long for a frame is dropped without a word. */
  function Wire(reqId: u32, a: Answer): Bytes {
    if |a.payload| <= MAX_PAYLOAD then Framed(Frame(a.msgType, reqId, a.payload)) else []
  }

  function Problem(cfg: Config, code: u32, text: string): Answer {
    Answer(ERR, ErrorOctets(cfg.ops, code, Ascii(text)))
  }

  datatype Step = Step(db: Db, answer: Answer)

  // ---------------------------------------------------------------------------
  // Polls
  // ---------------------------------------------------------------------------

  const SLASH: byte := 47

  /** strings.TrimRight(s, "/") */
  function TrimSlashes(s: Bytes): (r: Bytes)
    ensures |r| <= |s|
  {
    if s != [] && s[|s| - 1] == SLASH then TrimSlashes(s[..|s| - 1]) else s
  }

  /** What is cut off are slashes, and all of them that stand at the end. */
  lemma {:induction false} SlashesAreTrimmed(s: Bytes)
    ensures TrimSlashes(s) <= s && forall i | |TrimSlashes(s)| <= i < |s| :: s[i] == 47
    ensures TrimSlashes(s) != [] ==> TrimSlashes(s)[|TrimSlashes(s)| - 1] != 47
  {
    if s != [] && s[|s| - 1] == 47 {
      SlashesAreTrimmed(s[..|s| - 1]);
    }
  }

  const DOWNLOAD_PATH: Bytes := Ascii("/api/v1/device/firmware-download?token=")

  function DownloadUrl(cfg: Config, raw: Bytes): Bytes {
    TrimSlashes(cfg.ops.trim(cfg.base)) + (DOWNLOAD_PATH + raw)
  }

  function UnixSeconds(t: Time): u32 {
    t / SECOND % 0x1_0000_0000
  }

  function UpdateFor(cfg: Config, row: OfferRow, checksum: Bytes, raw: Bytes, expiresAt: Time): Update {
    Update(row.version, checksum, row.campaign, row.firmware, DownloadUrl(cfg, raw), UnixSeconds(expiresAt))
  }

  /** How far a poll with an offer gets. */
  datatype Delivery = NoToken | BadChecksum | Deliver(update: Update)

  datatype Issue = Issue(db: Db, delivery: Delivery)

  /** Issuing the token and preparing the announcement. */
  function Prepare(cfg: Config, db: Db, p: Id, d: Id, row: OfferRow, at: Moment): Issue {
    var raw := RawToken(at.secret);
    var issued := IssueToken(db, p, d, row, TokenPlan(cfg.hash(raw), EffectiveTtl(cfg.ttl)), at.now);
    if issued.expiresAt.None? then Issue(issued.db, NoToken)
    else if Sha256HexTo32(cfg.ops, row.checksum).None? then Issue(issued.db, BadChecksum)
    else Issue(issued.db, Deliver(UpdateFor(cfg, row, Sha256HexTo32(cfg.ops, row.checksum).value, raw, issued.expiresAt.value)))
  }

  function Announce(cfg: Config, delivery: Delivery): Answer
    requires delivery.Deliver? ==> |delivery.update.checksum| == 32
  {
    match delivery
    case NoToken => Problem(cfg, INTERNAL, "token issue failed")
    case BadChecksum => Problem(cfg, INTERNAL, "bad firmware checksum")
    case Deliver(u) =>
      if Encodable(u) then Answer(POLL_RESP, ResponseOctets(true, u)) else Problem(cfg, INTERNAL, "encode failed")
  }

  ghost function PollStep(cfg: Config, db: Db, p: Id, d: Id, payload: Bytes, at: Moment): Step {
    if DecodePoll(cfg.ops, payload).None? then Step(db, Problem(cfg, BAD_PAYLOAD, "invalid poll payload"))
    else if !MayDownload(db, p, d) then Step(db, Problem(cfg, INTERNAL, "poll failed"))
    else
      var seen := TouchDevice(db, p, d, None, at.now);
      if !cfg.campaigns then Step(seen, Answer(POLL_RESP, [0]))
      else
        var polled := BuildPollOffer(seen, p, d, at.now);
        if polled.offer.None? || !cfg.firmware then Step(polled.db, Answer(POLL_RESP, [0]))
        else
          var issue := Prepare(cfg, polled.db, p, d, polled.offer.value, at);
          Step(issue.db, Announce(cfg, issue.delivery))
  }

  // ---------------------------------------------------------------------------
  // Reports
  // ---------------------------------------------------------------------------

  function MilestoneOf(status: byte): Option<Milestone> {
    if status == 1 then Some(ReportDownloaded)
    else if status == 2 then Some(ReportInstalled)
    else if status == 3 then Some(ReportFailed)
    else None
  }

  function NonZero(code: u16): Option<nat> {
    if code == 0 then None else Some(code)
  }

  function NonEmpty(s: Bytes): Option<Bytes> {
    if s == [] then None else Some(s)
  }

  /** DeviceOtaReportTouch. */
  function TouchStep(cfg: Config, db: Db, p: Id, d: Id, version: Option<Bytes>, now: Time): Step {
    if MayDownload(db, p, d) then Step(TouchDevice(db, p, d, version, now), Answer(REPORT_RESP, [1]))
    else Step(db, Problem(cfg, INTERNAL, "report touch failed"))
  }

  /** A decoded report: apply it to the campaign, then touch the device. */
  function AppliedStep(cfg: Config, db: Db, p: Id, d: Id, r: Report, m: Milestone, now: Time): Step {
    var applied := TrimmedReport(cfg.ops.trim, db, p, d, r.campaign, m, NonZero(r.code), Clip(cfg.ops.trim(r.msg)), now);
    if applied.version.Err? then Step(applied.db, Problem(cfg, INTERNAL, "report apply failed"))
    else
      var installed := applied.version.value;
      var version := if m.ReportInstalled? && installed != [] then Some(installed) else NonEmpty(r.version);
      TouchStep(cfg, applied.db, p, d, version, now)
  }

  function ReportStep(cfg: Config, db: Db, p: Id, d: Id, payload: Bytes, at: Moment): Step {
    if DecodeReport(cfg.ops, payload).None? then Step(db, Problem(cfg, BAD_PAYLOAD, "invalid report payload"))
    else
      var r := DecodeReport(cfg.ops, payload).value;
      if MilestoneOf(r.status).None? then Step(db, Problem(cfg, BAD_PAYLOAD, "invalid status"))
      else if !cfg.campaigns then TouchStep(cfg, db, p, d, NonEmpty(r.version), at.now)
      else AppliedStep(cfg, db, p, d, r, MilestoneOf(r.status).value, at.now)
  }

  // ---------------------------------------------------------------------------
  // The session
  // ---------------------------------------------------------------------------

  ghost function FrameStep(cfg: Config, db: Db, p: Id, d: Id, f: Frame, at: Moment): Step {
    if f.msgType == POLL_REQ then PollStep(cfg, db, p, d, f.payload, at)
    else if f.msgType == REPORT_REQ then ReportStep(cfg, db, p, d, f.payload, at)
    else Step(db, Problem(cfg, BAD_PAYLOAD, "unknown message type"))
  }

  function AuthProblem(cfg: Config, e: AuthError): Answer {
    match e
    case NoSuchToken => Problem(cfg, UNAUTHORIZED, "unauthorized")
    case BlockedDevice => Problem(cfg, BLOCKED, "device blocked")
    case RevokedDevice => Problem(cfg, REVOKED_OR_DISABLED, "token revoked")
    case DisabledPolling => Problem(cfg, REVOKED_OR_DISABLED, "polling disabled")
  }

  datatype Login = Rejected(answer: Answer) | Accepted(device: Id)

  ghost function LoginStep(cfg: Config, db: Db, f: Frame): Login {
    if f.msgType != AUTH_REQ then Rejected(Problem(cfg, BAD_PAYLOAD, "auth frame required"))
    else
      var token := DecodeAuth(cfg.ops, f.payload);
      if token.None? || token.value == [] then Rejected(Problem(cfg, BAD_PAYLOAD, "invalid auth payload"))
      else match Authenticate(db, cfg.hash(token.value))
           case Err(e) => Rejected(AuthProblem(cfg, e))
           case Ok(d) => Accepted(d)
  }

  datatype Trace = Trace(db: Db, output: Bytes)

  /** Serving an authenticated device; i counts the frames read so far. */
  ghost function ServeFrames(cfg: Config, db: Db, p: Id, d: Id, input: Bytes, i: nat, moments: nat -> Moment): Trace
    decreases |input|
  {
    var r := Parse(input);
    if r.Unread? then Trace(db, [])
    else
      var step := FrameStep(cfg, moments(i).world(db), p, d, r.frame, moments(i));
      var more := ServeFrames(cfg, step.db, p, d, r.rest, i + 1, moments);
      Trace(more.db, Wire(r.frame.reqId, step.answer) + more.output)
  }

  /** A whole connection. Only devices that exist are accepted (ServedDevicesAuthenticated). */
  ghost function Serve(cfg: Config, db: Db, input: Bytes, moments: nat -> Moment): Trace {
    var r := Parse(input);
    if r.Unread? then Trace(db, [])
    else
      var seen := moments(0).world(db);
      match LoginStep(cfg, seen, r.frame)
      case Rejected(answer) => Trace(seen, Wire(r.frame.reqId, answer))
      case Accepted(d) =>
        if d !in seen.devices then Trace(seen, [])
        else
          var more := ServeFrames(cfg, seen, seen.devices[d].project, d, r.rest, 1, moments);
          Trace(more.db, Wire(r.frame.reqId, Answer(AUTH_OK, [])) + more.output)
  }

  // ---------------------------------------------------------------------------
  // What is dropped
  // ---------------------------------------------------------------------------

  /** The firmware service bounds versions at 128 octets. */
  ghost predicate StoreOk(db: Db) {
    forall f | f in db.firmwares :: |db.firmwares[f].version| <= 128
  }

  /** Whatever others do, they respect it. */
  ghost predicate WorldKeepsStore(moments: nat -> Moment) {
    forall i: nat, db: Db :: StoreOk(db) ==> StoreOk(moments(i).world(db))
  }

  /** The room left for the base URL: 8192 - 73 - 128 - 39 - 64. */
  const MAX_BASE := 7888

  lemma ProblemsFit(cfg: Config, code: u32, text: string)
    requires cfg.ops.Shrinks()
    ensures |Problem(cfg, code, text).payload| <= MAX_PAYLOAD
  {
    ErrorsAreReadable(cfg.ops, code, Ascii(text));
  }

  lemma UrlLength(cfg: Config, raw: Bytes)
    requires cfg.ops.Shrinks()
    ensures |DownloadUrl(cfg, raw)| == |TrimSlashes(cfg.ops.trim(cfg.base))| + 39 + |raw| <= |cfg.base| + 39 + |raw|
  {
  }

  /** The one way an answer is lost: an announcement each of whose parts is allowed but which is too long as a whole. */
  lemma OnlyLongAnnouncementsAreDropped(cfg: Config, delivery: Delivery)
    requires cfg.ops.Shrinks() && (delivery.Deliver? ==> |delivery.update.checksum| == 32)
    ensures |Announce(cfg, delivery).payload| > MAX_PAYLOAD <==>
            delivery.Deliver? && Encodable(delivery.update)
            && 73 + |delivery.update.version| + |delivery.update.url| > MAX_PAYLOAD
  {
    ProblemsFit(cfg, INTERNAL, "token issue failed");
    ProblemsFit(cfg, INTERNAL, "bad firmware checksum");
    ProblemsFit(cfg, INTERNAL, "encode failed");
  }

  /** The update a poll goes on to announce, if it gets that far. */
  ghost function Announced(cfg: Config, db: Db, p: Id, d: Id, payload: Bytes, at: Moment): Option<Update> {
    var polled := BuildPollOffer(TouchDevice(db, p, d, None, at.now), p, d, at.now);
    if DecodePoll(cfg.ops, payload).Some? && MayDownload(db, p, d) && cfg.campaigns && cfg.firmware && polled.offer.Some? then
      var delivery := Prepare(cfg, polled.db, p, d, polled.offer.value, at).delivery;
      if delivery.Deliver? then Some(delivery.update) else None
    else None
  }

  predicate TooLong(u: Update) {
    Encodable(u) && 73 + |u.version| + |u.url| > MAX_PAYLOAD
  }

  /** A poll is left without a reply exactly when it announces an update that is too long as a whole. */
  lemma PollIsSilentExactly(cfg: Config, db: Db, p: Id, d: Id, payload: Bytes, at: Moment, reqId: u32)
    requires cfg.ops.Shrinks()
    ensures Wire(reqId, PollStep(cfg, db, p, d, payload, at).answer) == [] <==>
            var u := Announced(cfg, db, p, d, payload, at); u.Some? && TooLong(u.value)
  {
    ProblemsFit(cfg, BAD_PAYLOAD, "invalid poll payload");
    ProblemsFit(cfg, INTERNAL, "poll failed");
    var polled := BuildPollOffer(TouchDevice(db, p, d, None, at.now), p, d, at.now);
    if polled.offer.Some? {
      OnlyLongAnnouncementsAreDropped(cfg, Prepare(cfg, polled.db, p, d, polled.offer.value, at).delivery);
    }
  }

  /** With a base URL of more than 8192 - 39 - 64 octets the URL by itself is refused, and the device told so. */
  const LAST_BASE := MAX_PAYLOAD - 103

  /** The same said of the base URL and the version: the two together too long, neither of them by itself. */
  lemma LongAnnouncementsAreSilentExactly(cfg: Config, db: Db, p: Id, d: Id, payload: Bytes, at: Moment, reqId: u32)
    requires cfg.ops.Shrinks()
    ensures Wire(reqId, PollStep(cfg, db, p, d, payload, at).answer) == [] <==>
            var u, base := Announced(cfg, db, p, d, payload, at), TrimSlashes(cfg.ops.trim(cfg.base));
            u.Some? && |u.value.version| <= MAX_PAYLOAD / 4 && MAX_BASE + 128 - |u.value.version| < |base| <= LAST_BASE
  {
    PollIsSilentExactly(cfg, db, p, d, payload, at, reqId);
    UrlLength(cfg, RawToken(at.secret));
  }

  lemma OffersAreOfStoredFirmware(db: Db, p: Id, d: Id, now: Time)
    requires BuildPollOffer(db, p, d, now).offer.Some?
    ensures var row := BuildPollOffer(db, p, d, now).offer.value;
            row.firmware in db.firmwares && row.version == db.firmwares[row.firmware].version
  {
  }

  lemma PreparedFits(cfg: Config, db: Db, p: Id, d: Id, row: OfferRow, at: Moment)
    requires cfg.ops.Shrinks() && |cfg.base| <= MAX_BASE && |row.version| <= 128
    ensures |Announce(cfg, Prepare(cfg, db, p, d, row, at).delivery).payload| <= MAX_PAYLOAD
  {
    UrlLength(cfg, RawToken(at.secret));
    OnlyLongAnnouncementsAreDropped(cfg, Prepare(cfg, db, p, d, row, at).delivery);
  }

  lemma PollAnswersFit(cfg: Config, db: Db, p: Id, d: Id, payload: Bytes, at: Moment)
    requires cfg.ops.Shrinks() && |cfg.base| <= MAX_BASE && StoreOk(db)
    ensures |PollStep(cfg, db, p, d, payload, at).answer.payload| <= MAX_PAYLOAD
  {
    ProblemsFit(cfg, BAD_PAYLOAD, "invalid poll payload");
    ProblemsFit(cfg, INTERNAL, "poll failed");
    var seen := TouchDevice(db, p, d, None, at.now);
    var polled := BuildPollOffer(seen, p, d, at.now);
    if polled.offer.Some? {
      OffersAreOfStoredFirmware(seen, p, d, at.now);
      PreparedFits(cfg, polled.db, p, d, polled.offer.value, at);
    }
  }

  lemma TouchAnswersFit(cfg: Config, db: Db, p: Id, d: Id, version: Option<Bytes>, now: Time)
    requires cfg.ops.Shrinks()
    ensures |TouchStep(cfg, db, p, d, version, now).answer.payload| <= MAX_PAYLOAD
  {
    ProblemsFit(cfg, INTERNAL, "report touch failed");
  }

  lemma AppliedAnswersFit(cfg: Config, db: Db, p: Id, d: Id, r: Report, m: Milestone, now: Time)
    requires cfg.ops.Shrinks()
    ensures |AppliedStep(cfg, db, p, d, r, m, now).answer.payload| <= MAX_PAYLOAD
  {
    ProblemsFit(cfg, INTERNAL, "report apply failed");
    var applied := TrimmedReport(cfg.ops.trim, db, p, d, r.campaign, m, NonZero(r.code), Clip(cfg.ops.trim(r.msg)), now);
    if applied.version.Ok? {
      var installed := applied.version.value;
      var version := if m.ReportInstalled? && installed != [] then Some(installed) else NonEmpty(r.version);
      TouchAnswersFit(cfg, applied.db, p, d, version, now);
    }
  }

  lemma ReportAnswersFit(cfg: Config, db: Db, p: Id, d: Id, payload: Bytes, at: Moment)
    requires cfg.ops.Shrinks()
    ensures |ReportStep(cfg, db, p, d, payload, at).answer.payload| <= MAX_PAYLOAD
  {
    ProblemsFit(cfg, BAD_PAYLOAD, "invalid report payload");
    ProblemsFit(cfg, BAD_PAYLOAD, "invalid status");
    if DecodeReport(cfg.ops, payload).Some? {
      var r := DecodeReport(cfg.ops, payload).value;
      TouchAnswersFit(cfg, db, p, d, NonEmpty(r.version), at.now);
      if MilestoneOf(r.status).Some? {
        AppliedAnswersFit(cfg, db, p, d, r, MilestoneOf(r.status).value, at.now);
      }
    }
  }

  lemma AnswersFit(cfg: Config, db: Db, p: Id, d: Id, f: Frame, at: Moment)
    requires cfg.ops.Shrinks() && |cfg.base| <= MAX_BASE && StoreOk(db)
    ensures |FrameStep(cfg, db, p, d, f, at).answer.payload| <= MAX_PAYLOAD
  {
    PollAnswersFit(cfg, db, p, d, f.payload, at);
    ReportAnswersFit(cfg, db, p, d, f.payload, at);
    ProblemsFit(cfg, BAD_PAYLOAD, "unknown message type");
  }

  // ---------------------------------------------------------------------------
  // What a frame leaves alone
  // ---------------------------------------------------------------------------

  predicate SameCatalog(a: Db, b: Db) {
    a.firmwares == b.firmwares && a.authTokens == b.authTokens
  }

  lemma CompletingKeepsCatalog(db: Db, p: Id, c: Id, now: Time)
    ensures SameCatalog(db, TryAutoComplete(db, p, c, now))
  {
  }

  lemma OfferKeepsCatalog(db: Db, c: Id, d: Id)
    ensures SameCatalog(db, Offer(db, c, d))
  {
  }

  lemma PollKeepsCatalog(db: Db, p: Id, d: Id, now: Time)
    ensures SameCatalog(db, BuildPollOffer(db, p, d, now).db)
  {
    if BuildPollOffer(db, p, d, now).offer.Some? {
      var c := BuildPollOffer(db, p, d, now).offer.value.campaign;
      OfferKeepsCatalog(db, c, d);
      CompletingKeepsCatalog(Offer(db, c, d), p, c, now);
    }
  }

  lemma PrepareKeepsCatalog(cfg: Config, db: Db, p: Id, d: Id, row: OfferRow, at: Moment)
    ensures SameCatalog(db, Prepare(cfg, db, p, d, row, at).db)
  {
  }

  lemma TouchKeepsCatalog(db: Db, p: Id, d: Id, version: Option<Bytes>, now: Time)
    ensures SameCatalog(db, TouchDevice(db, p, d, version, now))
  {
  }

  lemma AfterInstalledKeepsCatalog(trim: Bytes -> Bytes, db: Db, p: Id, d: Id, c: Id, now: Time)
    requires c in db.campaigns
    ensures SameCatalog(db, AfterTrimmedInstalled(trim, db, p, d, c, now).db)
  {
    var f := db.campaigns[c].firmware;
    if FirmwareIn(db, p, f) {
      var version := trim(db.firmwares[f].version);
      TouchKeepsCatalog(db, p, d, Some(version), now);
      CompletingKeepsCatalog(TouchDevice(db, p, d, Some(version), now), p, c, now);
    }
  }

  lemma ReportKeepsCatalog(trim: Bytes -> Bytes, db: Db, p: Id, d: Id, c: Id, m: Milestone, code: Option<nat>, msg: Bytes, now: Time)
    ensures SameCatalog(db, TrimmedReport(trim, db, p, d, c, m, code, msg, now).db)
  {
    CompletingKeepsCatalog(db, p, c, now);
    if ReportAccepted(db, p, d, c, m) {
      var written := WriteReport(db, c, d, m, code, msg);
      assert SameCatalog(db, written);
      CompletingKeepsCatalog(written, p, c, now);
      AfterInstalledKeepsCatalog(trim, written, p, d, c, now);
    }
  }

  lemma PollStepKeepsCatalog(cfg: Config, db: Db, p: Id, d: Id, payload: Bytes, at: Moment)
    ensures SameCatalog(db, PollStep(cfg, db, p, d, payload, at).db)
  {
    var seen := TouchDevice(db, p, d, None, at.now);
    TouchKeepsCatalog(db, p, d, None, at.now);
    PollKeepsCatalog(seen, p, d, at.now);
    var polled := BuildPollOffer(seen, p, d, at.now);
    if polled.offer.Some? {
      PrepareKeepsCatalog(cfg, polled.db, p, d, polled.offer.value, at);
    }
  }

  lemma AppliedStepKeepsCatalog(cfg: Config, db: Db, p: Id, d: Id, r: Report, m: Milestone, now: Time)
    ensures SameCatalog(db, AppliedStep(cfg, db, p, d, r, m, now).db)
  {
    var code, msg := NonZero(r.code), Clip(cfg.ops.trim(r.msg));
    var applied := TrimmedReport(cfg.ops.trim, db, p, d, r.campaign, m, code, msg, now);
    ReportKeepsCatalog(cfg.ops.trim, db, p, d, r.campaign, m, code, msg, now);
    if applied.version.Ok? {
      var installed := applied.version.value;
      var version := if m.ReportInstalled? && installed != [] then Some(installed) else NonEmpty(r.version);
      TouchKeepsCatalog(applied.db, p, d, version, now);
    }
  }

  lemma ReportStepKeepsCatalog(cfg: Config, db: Db, p: Id, d: Id, payload: Bytes, at: Moment)
    ensures SameCatalog(db, ReportStep(cfg, db, p, d, payload, at).db)
  {
    if DecodeReport(cfg.ops, payload).Some? {
      var r := DecodeReport(cfg.ops, payload).value;
      if MilestoneOf(r.status).Some? && !cfg.campaigns {
        TouchKeepsCatalog(db, p, d, NonEmpty(r.version), at.now);
      } else if MilestoneOf(r.status).Some? {
        AppliedStepKeepsCatalog(cfg, db, p, d, r, MilestoneOf(r.status).value, at.now);
      }
    }
  }

  lemma FrameKeepsStore(cfg: Config, db: Db, p: Id, d: Id, f: Frame, at: Moment)
    requires StoreOk(db)
    ensures StoreOk(FrameStep(cfg, db, p, d, f, at).db)
  {
    PollStepKeepsCatalog(cfg, db, p, d, f.payload, at);
    ReportStepKeepsCatalog(cfg, db, p, d, f.payload, at);
  }

  // ---------------------------------------------------------------------------
  // Main results
  // ---------------------------------------------------------------------------

  /** The message types a request may be answered with. */
  function ReplyTypes(msgType: u16): set<u16> {
    if msgType == AUTH_REQ then {AUTH_OK, ERR}
    else if msgType == POLL_REQ then {POLL_RESP, ERR}
    else if msgType == REPORT_REQ then {REPORT_RESP, ERR}
    else {ERR}
  }

  predicate Responds(f: Frame, reply: Frame) {
    reply.reqId == f.reqId && Writable(reply) && reply.msgType in ReplyTypes(f.msgType)
  }

  /** The replies answer the frames one for one, in order, each with the id of its request and a fitting type. */
  ghost predicate AnswersInOrder(frames: seq<Frame>, replies: seq<Frame>) {
    |replies| == |frames| && forall i | 0 <= i < |frames| :: Responds(frames[i], replies[i])
  }

  lemma AnswersHaveFittingTypes(cfg: Config, db: Db, p: Id, d: Id, f: Frame, at: Moment)
    ensures FrameStep(cfg, db, p, d, f, at).answer.msgType in ReplyTypes(f.msgType)
  {
  }

  ghost function RepliesOf(cfg: Config, db: Db, p: Id, d: Id, input: Bytes, i: nat, moments: nat -> Moment): seq<Frame>
    decreases |input|
  {
    var r := Parse(input);
    if r.Unread? then []
    else
      var step := FrameStep(cfg, moments(i).world(db), p, d, r.frame, moments(i));
      [Frame(step.answer.msgType, r.frame.reqId, step.answer.payload)]
      + RepliesOf(cfg, step.db, p, d, r.rest, i + 1, moments)
  }

  lemma OneReplyAhead(frames: seq<Frame>, f: Frame, replies: seq<Frame>, reply: Frame)
    requires AnswersInOrder(frames, replies) && Responds(f, reply)
    ensures AnswersInOrder([f] + frames, [reply] + replies)
    ensures WriteAll([reply] + replies) == Framed(reply) + WriteAll(replies)
  {
    assert ([reply] + replies)[1..] == replies;
  }

  lemma {:induction false} ServingAnswersInOrder(cfg: Config, db: Db, p: Id, d: Id, input: Bytes, i: nat, moments: nat -> Moment)
    requires cfg.ops.Shrinks() && |cfg.base| <= MAX_BASE
    requires StoreOk(db) && WorldKeepsStore(moments)
    ensures AnswersInOrder(ParseAll(input).frames, RepliesOf(cfg, db, p, d, input, i, moments))
    ensures ServeFrames(cfg, db, p, d, input, i, moments).output == WriteAll(RepliesOf(cfg, db, p, d, input, i, moments))
    decreases |input|
  {
    var r := Parse(input);
    if r.Read? {
      var at := moments(i);
      var before := at.world(db);
      var step := FrameStep(cfg, before, p, d, r.frame, at);
      AnswersFit(cfg, before, p, d, r.frame, at);
      AnswersHaveFittingTypes(cfg, before, p, d, r.frame, at);
      FrameKeepsStore(cfg, before, p, d, r.frame, at);
      ServingAnswersInOrder(cfg, step.db, p, d, r.rest, i + 1, moments);
      OneReplyAhead(ParseAll(r.rest).frames, r.frame, RepliesOf(cfg, step.db, p, d, r.rest, i + 1, moments),
                    Frame(step.answer.msgType, r.frame.reqId, step.answer.payload));
    }
  }

  /** How a connection ended up: nobody there, turned away, or served as a device. */
  datatype Ending = Silent | TurnedAway | Serving(device: Id)

  ghost function EndingOf(cfg: Config, db: Db, input: Bytes, moments: nat -> Moment): Ending {
    var r := Parse(input);
    if r.Unread? then Silent
    else
      match LoginStep(cfg, moments(0).world(db), r.frame)
      case Rejected(_) => TurnedAway
      case Accepted(d) => Serving(d)
  }

  /** Every frame sent by the handler, the answer to the login first. */
  ghost function Replies(cfg: Config, db: Db, input: Bytes, moments: nat -> Moment): seq<Frame>
    requires EndingOf(cfg, db, input, moments).Serving?
  {
    var r, seen := Parse(input), moments(0).world(db);
    var d := EndingOf(cfg, db, input, moments).device;
    [Frame(AUTH_OK, r.frame.reqId, [])] + RepliesOf(cfg, seen, seen.devices[d].project, d, r.rest, 1, moments)
  }

  /** Who is served is a device that the secret in the first frame authenticates. */
  lemma ServedDevicesAuthenticated(cfg: Config, db: Db, input: Bytes, moments: nat -> Moment)
    requires EndingOf(cfg, db, input, moments).Serving?
    ensures Parse(input).Read? && Parse(input).frame.msgType == AUTH_REQ
    ensures var seen, d := moments(0).world(db), EndingOf(cfg, db, input, moments).device;
            && d in seen.devices
            && exists token: Bytes :: DecodeAuth(cfg.ops, Parse(input).frame.payload) == Some(token) && token != []
                                      && Authenticate(seen, cfg.hash(token)) == Ok(d)
  {
  }

  /**
   Main result: a served connection is answered frame by frame, in order, with the request ids, the
   login first, whatever the device sends and whatever others do to the tables between its frames.
   What one frame does is one step here: nobody else writes during it.
   */
  lemma ServedConnectionsAreAnsweredInOrder(cfg: Config, db: Db, input: Bytes, moments: nat -> Moment)
    requires cfg.ops.Shrinks() && |cfg.base| <= MAX_BASE
    requires StoreOk(db) && WorldKeepsStore(moments)
    requires EndingOf(cfg, db, input, moments).Serving?
    ensures AnswersInOrder(ParseAll(input).frames, Replies(cfg, db, input, moments))
    ensures Replies(cfg, db, input, moments)[0].msgType == AUTH_OK
    ensures Serve(cfg, db, input, moments).output == WriteAll(Replies(cfg, db, input, moments))
  {
    ServedDevicesAuthenticated(cfg, db, input, moments);
    var r, seen := Parse(input), moments(0).world(db);
    var d := EndingOf(cfg, db, input, moments).device;
    var p := seen.devices[d].project;
    ServingAnswersInOrder(cfg, seen, p, d, r.rest, 1, moments);
    OneReplyAhead(ParseAll(r.rest).frames, r.frame, RepliesOf(cfg, seen, p, d, r.rest, 1, moments), Frame(AUTH_OK, r.frame.reqId, []));
  }

  /**
   Main result: a connection that is not served touches nothing. At most one frame is read and it is
   answered by one error.
   */
  lemma NothingHappensBeforeLogin(cfg: Config, db: Db, input: Bytes, moments: nat -> Moment)
    requires cfg.ops.Shrinks() && !EndingOf(cfg, db, input, moments).Serving?
    ensures var t := Serve(cfg, db, input, moments);
            if Parse(input).Unread? then t == Trace(db, [])
            else t.db == moments(0).world(db)
                 && exists reply: Frame :: Writable(reply) && reply.msgType == ERR && reply.reqId == Parse(input).frame.reqId
                                           && t.output == Framed(reply)
  {
    var r := Parse(input);
    if r.Read? {
      var answer := LoginStep(cfg, moments(0).world(db), r.frame).answer;
      LoginProblemsFit(cfg, moments(0).world(db), r.frame);
      var reply := Frame(ERR, r.frame.reqId, answer.payload);
      assert Serve(cfg, db, input, moments).output == Framed(reply);
    }
  }

  lemma LoginProblemsFit(cfg: Config, db: Db, f: Frame)
    requires cfg.ops.Shrinks() && LoginStep(cfg, db, f).Rejected?
    ensures LoginStep(cfg, db, f).answer.msgType == ERR
    ensures |LoginStep(cfg, db, f).answer.payload| <= MAX_PAYLOAD
  {
    ProblemsFit(cfg, BAD_PAYLOAD, "auth frame required");
    ProblemsFit(cfg, BAD_PAYLOAD, "invalid auth payload");
    ProblemsFit(cfg, UNAUTHORIZED, "unauthorized");
    ProblemsFit(cfg, BLOCKED, "device blocked");
    ProblemsFit(cfg, REVOKED_OR_DISABLED, "token revoked");
    ProblemsFit(cfg, REVOKED_OR_DISABLED, "polling disabled");
  }
}
