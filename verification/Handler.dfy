/** The connection handler as it is written: reads, effects and replies in order, on one connection. */
module Handler {
  import opened Basics
  import opened Tables
  import opened Queries
  import opened Repositories
  import opened DeviceTokens
  import opened Frames
  import opened Payloads
  import opened Session
  import CampaignService
  import Downloads

  class Handler {
    const cfg: Config
    const repo: Repository
    const campaignSvc: CampaignService.Service
    const firmwareSvc: Downloads.FirmwareService

    ghost predicate Valid() {
      && campaignSvc.repo == repo && firmwareSvc.repo == repo
      && campaignSvc.trim == cfg.ops.trim && firmwareSvc.hash == cfg.hash
      && cfg.ops.Shrinks()
    }

    constructor (cfg: Config, repo: Repository, campaignSvc: CampaignService.Service, firmwareSvc: Downloads.FirmwareService)
      requires campaignSvc.repo == repo && firmwareSvc.repo == repo
      requires campaignSvc.trim == cfg.ops.trim && firmwareSvc.hash == cfg.hash && cfg.ops.Shrinks()
      ensures Valid() && this.cfg == cfg && this.repo == repo
    {
      this.cfg, this.repo, this.campaignSvc, this.firmwareSvc := cfg, repo, campaignSvc, firmwareSvc;
    }

    // -------------------------------------------------------------------------
    // Replies
    // -------------------------------------------------------------------------

    method Fail(c: Connection, reqId: u32, code: u32, text: string)
      requires Valid()
      modifies c`output
      ensures c.output == old(c.output) + Wire(reqId, Problem(cfg, code, text))
    {
      ProblemsFit(cfg, code, text);
      WriteErr(c, cfg.ops, reqId, code, Ascii(text));
    }

    /** A write error is ignored: a payload that is too long leaves no trace on the wire. */
    method Reply(c: Connection, reqId: u32, msgType: u16, payload: Bytes)
      modifies c`output
      ensures c.output == old(c.output) + Wire(reqId, Answer(msgType, payload))
    {
      var _ := c.WriteFrame(msgType, reqId, payload);
    }

    // -------------------------------------------------------------------------
    // Device service
    // -------------------------------------------------------------------------

    /** recordDeviceConnection, without its log. */
    method RecordConnection(p: Id, d: Id, version: Option<Bytes>, now: Time) returns (ok: bool)
      modifies repo
      ensures ok == MayDownload(old(repo.Snapshot()), p, d)
      ensures repo.Snapshot() == if ok then TouchDevice(old(repo.Snapshot()), p, d, version, now) else old(repo.Snapshot())
    {
      if !DeviceIn(repo.Snapshot(), p, d) {
        return false;
      }
      if repo.devices[d].blocked {
        return false;
      }
      repo.UpdateDeviceSeenAndFirmware(p, d, version, now);
      ok := true;
    }

    // -------------------------------------------------------------------------
    // Polls
    // -------------------------------------------------------------------------

    /** From the offer on: the token, the checksum, the URL, the announcement. */
    method AnnounceOffer(c: Connection, reqId: u32, p: Id, d: Id, row: OfferRow, at: Moment)
      requires Valid()
      modifies repo, c`output
      ensures repo.Snapshot() == Prepare(cfg, old(repo.Snapshot()), p, d, row, at).db
      ensures c.output == old(c.output) + Wire(reqId, Announce(cfg, Prepare(cfg, old(repo.Snapshot()), p, d, row, at).delivery))
    {
      var ttl := cfg.ttl;
      if ttl <= 0 {
        ttl := Downloads.DEFAULT_TTL;
      }
      var issued := firmwareSvc.IssueOtaDownloadToken(p, d, row, ttl, at.secret, at.now);
      if issued.Err? {
        Fail(c, reqId, INTERNAL, "token issue failed");
        return;
      }
      var (raw, expiresAt) := issued.value;
      var sum := Sha256HexTo32(cfg.ops, row.checksum);
      if sum.None? {
        Fail(c, reqId, INTERNAL, "bad firmware checksum");
        return;
      }
      var base := TrimSlashes(cfg.ops.trim(cfg.base));
      var path := DOWNLOAD_PATH + raw;
      var url := path;
      if base != [] {
        url := base + path;
      }
      assert url == DownloadUrl(cfg, raw);
      var body := EncodePollResponse(true, Update(row.version, sum.value, row.campaign, row.firmware, url, UnixSeconds(expiresAt)));
      if body.None? {
        Fail(c, reqId, INTERNAL, "encode failed");
        return;
      }
      Reply(c, reqId, POLL_RESP, body.value);
    }

    method HandlePoll(c: Connection, reqId: u32, p: Id, d: Id, payload: Bytes, at: Moment)
      requires Valid()
      modifies repo, c`output
      ensures repo.Snapshot() == PollStep(cfg, old(repo.Snapshot()), p, d, payload, at).db
      ensures c.output == old(c.output) + Wire(reqId, PollStep(cfg, old(repo.Snapshot()), p, d, payload, at).answer)
    {
      var request := DecodePollPayload(cfg.ops, payload);
      if request.None? {
        Fail(c, reqId, BAD_PAYLOAD, "invalid poll payload");
        return;
      }
      var ok := RecordConnection(p, d, None, at.now);
      if !ok {
        Fail(c, reqId, INTERNAL, "poll failed");
        return;
      }
      if !cfg.campaigns {
        Reply(c, reqId, POLL_RESP, [0]);
        return;
      }
      var offer := campaignSvc.BuildPollOffer(p, d, at.now);
      if offer.None? {
        Reply(c, reqId, POLL_RESP, [0]);
        return;
      }
      if !cfg.firmware {
        Reply(c, reqId, POLL_RESP, [0]);
        return;
      }
      AnnounceOffer(c, reqId, p, d, offer.value, at);
    }

    // -------------------------------------------------------------------------
    // Reports
    // -------------------------------------------------------------------------

    method TouchAndReply(c: Connection, reqId: u32, p: Id, d: Id, version: Option<Bytes>, now: Time)
      requires Valid()
      modifies repo, c`output
      ensures repo.Snapshot() == TouchStep(cfg, old(repo.Snapshot()), p, d, version, now).db
      ensures c.output == old(c.output) + Wire(reqId, TouchStep(cfg, old(repo.Snapshot()), p, d, version, now).answer)
    {
      var ok := RecordConnection(p, d, version, now);
      if !ok {
        Fail(c, reqId, INTERNAL, "report touch failed");
        return;
      }
      Reply(c, reqId, REPORT_RESP, [1]);
    }

    method ApplyAndReply(c: Connection, reqId: u32, p: Id, d: Id, r: Report, m: Milestone, now: Time)
      requires Valid()
      modifies repo, c`output
      ensures repo.Snapshot() == AppliedStep(cfg, old(repo.Snapshot()), p, d, r, m, now).db
      ensures c.output == old(c.output) + Wire(reqId, AppliedStep(cfg, old(repo.Snapshot()), p, d, r, m, now).answer)
    {
      var code := if r.code != 0 then Some(r.code) else None;
      var installed := campaignSvc.ApplyOtaDeviceReport(p, d, r.campaign, m, code, r.msg, now);
      if installed.Err? {
        Fail(c, reqId, INTERNAL, "report apply failed");
        return;
      }
      var version: Option<Bytes> := None;
      if m.ReportInstalled? {
        if installed.value != [] {
          version := Some(installed.value);
        } else if r.version != [] {
          version := Some(r.version);
        }
      } else if r.version != [] {
        version := Some(r.version);
      }
      TouchAndReply(c, reqId, p, d, version, now);
    }

    method HandleReport(c: Connection, reqId: u32, p: Id, d: Id, payload: Bytes, at: Moment)
      requires Valid()
      modifies repo, c`output
      ensures repo.Snapshot() == ReportStep(cfg, old(repo.Snapshot()), p, d, payload, at).db
      ensures c.output == old(c.output) + Wire(reqId, ReportStep(cfg, old(repo.Snapshot()), p, d, payload, at).answer)
    {
      var report := DecodeReportPayload(cfg.ops, payload);
      if report.None? {
        Fail(c, reqId, BAD_PAYLOAD, "invalid report payload");
        return;
      }
      var r := report.value;
      var m := MilestoneOf(r.status);
      if m.None? {
        Fail(c, reqId, BAD_PAYLOAD, "invalid status");
        return;
      }
      if cfg.campaigns {
        ApplyAndReply(c, reqId, p, d, r, m.value, at.now);
      } else {
        var version: Option<Bytes> := None;
        if r.version != [] {
          version := Some(r.version);
        }
        TouchAndReply(c, reqId, p, d, version, at.now);
      }
    }

    // -------------------------------------------------------------------------
    // The session
    // -------------------------------------------------------------------------

    method HandleFrame(c: Connection, p: Id, d: Id, f: Frame, at: Moment)
      requires Valid()
      modifies repo, c`output
      ensures repo.Snapshot() == FrameStep(cfg, old(repo.Snapshot()), p, d, f, at).db
      ensures c.output == old(c.output) + Wire(f.reqId, FrameStep(cfg, old(repo.Snapshot()), p, d, f, at).answer)
    {
      if f.msgType == POLL_REQ {
        HandlePoll(c, f.reqId, p, d, f.payload, at);
      } else if f.msgType == REPORT_REQ {
        HandleReport(c, f.reqId, p, d, f.payload, at);
      } else {
        Fail(c, f.reqId, BAD_PAYLOAD, "unknown message type");
      }
    }

    /** mapDeviceAuthErr */
    method FailLogin(c: Connection, reqId: u32, e: AuthError)
      requires Valid()
      modifies c`output
      ensures c.output == old(c.output) + Wire(reqId, AuthProblem(cfg, e))
    {
      match e {
        case NoSuchToken => Fail(c, reqId, UNAUTHORIZED, "unauthorized");
        case BlockedDevice => Fail(c, reqId, BLOCKED, "device blocked");
        case RevokedDevice => Fail(c, reqId, REVOKED_OR_DISABLED, "token revoked");
        case DisabledPolling => Fail(c, reqId, REVOKED_OR_DISABLED, "polling disabled");
      }
    }

    method Login(c: Connection, f: Frame) returns (device: Option<Id>)
      requires Valid()
      modifies c`output
      ensures match LoginStep(cfg, repo.Snapshot(), f)
              case Rejected(answer) => device.None? && c.output == old(c.output) + Wire(f.reqId, answer)
              case Accepted(d) => device == Some(d) && d in repo.devices
                                  && c.output == old(c.output) + Wire(f.reqId, Answer(AUTH_OK, []))
    {
      if f.msgType != AUTH_REQ {
        Fail(c, f.reqId, BAD_PAYLOAD, "auth frame required");
        return None;
      }
      var token := DecodeAuthPayload(cfg.ops, f.payload);
      if token.None? || token.value == [] {
        Fail(c, f.reqId, BAD_PAYLOAD, "invalid auth payload");
        return None;
      }
      var found := repo.GetDeviceByActiveTokenHash(cfg.hash(token.value));
      if found.Err? {
        FailLogin(c, f.reqId, found.error);
        return None;
      }
      Reply(c, f.reqId, AUTH_OK, []);
      device := Some(found.value);
    }

    /** One turn of the loop: others have had their turn, then the frame is handled. */
    method Turn(c: Connection, p: Id, d: Id, f: Frame, i: nat, moments: nat -> Moment,
                ghost input: Bytes, ghost whole: Trace, ghost before: Bytes)
      requires Valid() && c.Valid()
      requires Parse(input) == Read(f, c.Pending())
      requires Underway(cfg, p, d, moments, whole, before, repo.Snapshot(), input, i, c.output)
      modifies repo, c`output
      ensures Underway(cfg, p, d, moments, whole, before, repo.Snapshot(), c.Pending(), i + 1, c.output)
    {
      var at := moments(i);
      NextTurn(cfg, p, d, moments, whole, before, repo.Snapshot(), input, i, c.output);
      repo.Become(at.world(repo.Snapshot()));
      HandleFrame(c, p, d, f, at);
    }

    /** The loop after a login: until the input yields no frame. */
    method Loop(c: Connection, p: Id, d: Id, moments: nat -> Moment, ghost whole: Trace, ghost before: Bytes)
      requires Valid() && c.Valid()
      requires Underway(cfg, p, d, moments, whole, before, repo.Snapshot(), c.Pending(), 1, c.output)
      modifies repo, c
      ensures repo.Snapshot() == whole.db && c.output == before + whole.output
    {
      ghost var input := c.Pending();
      var i := 1;
      var r := c.ReadFrame();
      while r.Ok?
        invariant c.Valid() && i >= 1
        invariant HasRead(input, r, c.Pending())
        invariant Underway(cfg, p, d, moments, whole, before, repo.Snapshot(), input, i, c.output)
        decreases |input|
      {
        Turn(c, p, d, r.value, i, moments, input, whole, before);
        input, i := c.Pending(), i + 1;
        r := c.ReadFrame();
      }
      LastTurn(cfg, p, d, moments, whole, before, repo.Snapshot(), input, i, c.output);
    }

    method ServeFrames(c: Connection, p: Id, d: Id, moments: nat -> Moment)
      requires Valid() && c.Valid()
      modifies repo, c
      ensures var t := Session.ServeFrames(cfg, old(repo.Snapshot()), p, d, old(c.Pending()), 1, moments);
              repo.Snapshot() == t.db && c.output == old(c.output) + t.output
    {
      FirstTurn(cfg, p, d, moments, c.output, repo.Snapshot(), c.Pending());
      Loop(c, p, d, moments, Session.ServeFrames(cfg, repo.Snapshot(), p, d, c.Pending(), 1, moments), c.output);
    }

    method ServeConn(c: Connection, moments: nat -> Moment)
      requires Valid() && c.Valid()
      modifies repo, c
      ensures var t := Serve(cfg, old(repo.Snapshot()), old(c.Pending()), moments);
              repo.Snapshot() == t.db && c.output == old(c.output) + t.output
    {
      var r := c.ReadFrame();
      if r.Err? {
        return;
      }
      repo.Become(moments(0).world(repo.Snapshot()));
      var device := Login(c, r.value);
      if device.None? {
        return;
      }
      var p := repo.devices[device.value].project;
      ServeFrames(c, p, device.value, moments);
      SentGrows(old(c.output), Wire(r.value.reqId, Answer(AUTH_OK, [])),
                Session.ServeFrames(cfg, moments(0).world(old(repo.Snapshot())), p, device.value, Parse(old(c.Pending())).rest, 1, moments).output);
    }
  }

  /** The result of reading a frame off the input, and what is left of it. */
  ghost predicate HasRead(input: Bytes, r: Result<Frame, FrameError>, left: Bytes) {
    match Parse(input)
    case Read(f, rest) => r == Ok(f) && left == rest
    case Unread(e) => r == Err(e)
  }

  /** What was sent since the login, continued by the rest of the session, is the whole session. */
  ghost predicate Underway(cfg: Config, p: Id, d: Id, moments: nat -> Moment, whole: Trace, before: Bytes,
                           db: Db, input: Bytes, i: nat, output: Bytes) {
    var rest := Session.ServeFrames(cfg, db, p, d, input, i, moments);
    whole.db == rest.db && before + whole.output == output + rest.output
  }

  lemma FirstTurn(cfg: Config, p: Id, d: Id, moments: nat -> Moment, before: Bytes, db: Db, input: Bytes)
    ensures Underway(cfg, p, d, moments, Session.ServeFrames(cfg, db, p, d, input, 1, moments), before, db, input, 1, before)
  {
  }

  lemma NextTurn(cfg: Config, p: Id, d: Id, moments: nat -> Moment, whole: Trace, before: Bytes,
                 db: Db, input: Bytes, i: nat, output: Bytes)
    requires Parse(input).Read? && Underway(cfg, p, d, moments, whole, before, db, input, i, output)
    ensures var r := Parse(input);
            var step := FrameStep(cfg, moments(i).world(db), p, d, r.frame, moments(i));
            Underway(cfg, p, d, moments, whole, before, step.db, r.rest, i + 1, output + Wire(r.frame.reqId, step.answer))
  {
    var r := Parse(input);
    var step := FrameStep(cfg, moments(i).world(db), p, d, r.frame, moments(i));
    SentGrows(output, Wire(r.frame.reqId, step.answer), Session.ServeFrames(cfg, step.db, p, d, r.rest, i + 1, moments).output);
  }

  lemma LastTurn(cfg: Config, p: Id, d: Id, moments: nat -> Moment, whole: Trace, before: Bytes,
                 db: Db, input: Bytes, i: nat, output: Bytes)
    requires Parse(input).Unread? && Underway(cfg, p, d, moments, whole, before, db, input, i, output)
    ensures db == whole.db && output == before + whole.output
  {
    assert output + [] == output;
  }

  lemma SentGrows(a: Bytes, b: Bytes, c: Bytes)
    ensures (a + b) + c == a + (b + c)
  {
  }
}
