/** What a device may rely on when a poll reply announces an update. */
module Announcements {
  import opened Basics
  import opened CampaignState
  import opened Tables
  import opened Queries
  import opened CampaignOps
  import opened Downloads
  import opened Frames
  import opened Payloads
  import opened Session
  import ServiceLaws

  /** The announced campaign runs, the device is offered its firmware, and a live token stands behind the URL. */
  ghost predicate Backed(cfg: Config, db: Db, p: Id, d: Id, u: Update, raw: Bytes, expiresAt: Time) {
    && CampaignIs(db, p, u.campaign, {Active}) && db.campaigns[u.campaign].firmware == u.firmware
    && AssignmentIs(db, u.campaign, d, {Offered})
    && FirmwareIn(db, p, u.firmware) && db.firmwares[u.firmware].version == u.version
    && Sha256HexTo32(cfg.ops, db.firmwares[u.firmware].checksum) == Some(u.checksum)
    && u.url == DownloadUrl(cfg, raw) && u.expires == UnixSeconds(expiresAt)
    && cfg.hash(raw) in db.otaTokens
    && db.otaTokens[cfg.hash(raw)] == OtaToken(p, d, u.campaign, u.firmware, expiresAt, None)
  }

  /** The offer of a poll, seen in the tables the poll leaves. */
  ghost predicate StandingOffer(db: Db, p: Id, d: Id, row: OfferRow) {
    && CampaignIs(db, p, row.campaign, {Active}) && db.campaigns[row.campaign].firmware == row.firmware
    && AssignmentIs(db, row.campaign, d, {Offered})
    && row.firmware in db.firmwares && db.firmwares[row.firmware].version == row.version
    && db.firmwares[row.firmware].checksum == row.checksum
  }

  lemma FoundOfferFacts(db: Db, p: Id, d: Id)
    requires FindOffer(db, p, d).Some?
    ensures var row := FindOffer(db, p, d).value;
            && CampaignIs(db, p, row.campaign, {Active}) && db.campaigns[row.campaign].firmware == row.firmware
            && AssignmentIs(db, row.campaign, d, {Pending, Offered})
            && row.firmware in db.firmwares && db.firmwares[row.firmware].version == row.version
            && db.firmwares[row.firmware].checksum == row.checksum
  {
  }

  lemma PollLeavesStandingOffer(db: Db, p: Id, d: Id, now: Time)
    requires BuildPollOffer(db, p, d, now).offer.Some?
    ensures StandingOffer(BuildPollOffer(db, p, d, now).db, p, d, BuildPollOffer(db, p, d, now).offer.value)
    ensures BuildPollOffer(db, p, d, now).db.devices == db.devices
  {
    FoundOfferFacts(db, p, d);
    ServiceLaws.PollNeverCompletes(db, p, d, now);
  }

  lemma PreparationBacks(cfg: Config, db: Db, p: Id, d: Id, row: OfferRow, at: Moment)
    requires StandingOffer(db, p, d, row) && Prepare(cfg, db, p, d, row, at).delivery.Deliver?
    ensures Backed(cfg, Prepare(cfg, db, p, d, row, at).db, p, d, Prepare(cfg, db, p, d, row, at).delivery.update,
                   RawToken(at.secret), at.now + EffectiveTtl(cfg.ttl))
    ensures Prepare(cfg, db, p, d, row, at).db.devices == db.devices
  {
  }

  /** Only a delivered update decodes as one. */
  lemma AnnouncedIsDelivered(cfg: Config, delivery: Delivery, u: Update)
    requires delivery.Deliver? ==> |delivery.update.checksum| == 32
    requires Announce(cfg, delivery).msgType == POLL_RESP
    requires DecodeResponse(Announce(cfg, delivery).payload) == Some(UpdateAvailable(u))
    ensures delivery == Deliver(u)
  {
    ResponseRoundTrip(delivery.update);
  }

  lemma BackedTokensOpen(cfg: Config, db: Db, p: Id, d: Id, u: Update, raw: Bytes, expiresAt: Time, now: Time)
    requires Backed(cfg, db, p, d, u, raw, expiresAt) && MayDownload(db, p, d)
    requires WellFormedToken(raw) && now < expiresAt
    ensures OpenFirmware(db, cfg.hash, raw, now).firmware == Ok(u.firmware)
  {
  }

  ghost function Polled(db: Db, p: Id, d: Id, at: Moment): PollResult {
    BuildPollOffer(TouchDevice(db, p, d, None, at.now), p, d, at.now)
  }

  /** An answer that decodes to an update went through the whole poll. */
  lemma OnlyPreparedPollsAnnounce(cfg: Config, db: Db, p: Id, d: Id, payload: Bytes, at: Moment, u: Update)
    requires PollStep(cfg, db, p, d, payload, at).answer.msgType == POLL_RESP
    requires DecodeResponse(PollStep(cfg, db, p, d, payload, at).answer.payload) == Some(UpdateAvailable(u))
    ensures MayDownload(db, p, d) && Polled(db, p, d, at).offer.Some?
    ensures var polled := Polled(db, p, d, at);
            var issue := Prepare(cfg, polled.db, p, d, polled.offer.value, at);
            PollStep(cfg, db, p, d, payload, at) == Step(issue.db, Announce(cfg, issue.delivery))
  {
  }

  lemma TouchingKeepsAccess(db: Db, p: Id, d: Id, version: Option<Bytes>, now: Time)
    ensures MayDownload(TouchDevice(db, p, d, version, now), p, d) <==> MayDownload(db, p, d)
  {
  }

  /** Backed, and the secret in the URL opens the firmware straight away. */
  ghost predicate Redeemable(cfg: Config, db: Db, p: Id, d: Id, u: Update, at: Moment) {
    && Backed(cfg, db, p, d, u, RawToken(at.secret), at.now + EffectiveTtl(cfg.ttl))
    && OpenFirmware(db, cfg.hash, RawToken(at.secret), at.now).firmware == Ok(u.firmware)
  }

  lemma DeliveredIsRedeemable(cfg: Config, db: Db, p: Id, d: Id, row: OfferRow, at: Moment, u: Update)
    requires StandingOffer(db, p, d, row) && MayDownload(db, p, d)
    requires Prepare(cfg, db, p, d, row, at).delivery == Deliver(u)
    ensures Redeemable(cfg, Prepare(cfg, db, p, d, row, at).db, p, d, u, at)
  {
    var after := Prepare(cfg, db, p, d, row, at).db;
    PreparationBacks(cfg, db, p, d, row, at);
    BackedTokensOpen(cfg, after, p, d, u, RawToken(at.secret), at.now + EffectiveTtl(cfg.ttl), at.now);
  }

  lemma PollKeepsAccess(db: Db, p: Id, d: Id, at: Moment)
    requires Polled(db, p, d, at).offer.Some? && MayDownload(db, p, d)
    ensures MayDownload(Polled(db, p, d, at).db, p, d)
    ensures StandingOffer(Polled(db, p, d, at).db, p, d, Polled(db, p, d, at).offer.value)
  {
    TouchingKeepsAccess(db, p, d, None, at.now);
    PollLeavesStandingOffer(TouchDevice(db, p, d, None, at.now), p, d, at.now);
  }

  /**
   Main result: whenever the reply to a poll decodes, by the documented layout, to an update, that
   update is true of the tables at that instant and its URL carries a token that opens its firmware.
   */
  lemma AnnouncementsAreRedeemable(cfg: Config, db: Db, p: Id, d: Id, payload: Bytes, at: Moment, u: Update)
    requires PollStep(cfg, db, p, d, payload, at).answer.msgType == POLL_RESP
    requires DecodeResponse(PollStep(cfg, db, p, d, payload, at).answer.payload) == Some(UpdateAvailable(u))
    ensures Redeemable(cfg, PollStep(cfg, db, p, d, payload, at).db, p, d, u, at)
  {
    OnlyPreparedPollsAnnounce(cfg, db, p, d, payload, at, u);
    PollKeepsAccess(db, p, d, at);
    var polled := Polled(db, p, d, at);
    AnnouncedIsDelivered(cfg, Prepare(cfg, polled.db, p, d, polled.offer.value, at).delivery, u);
    DeliveredIsRedeemable(cfg, polled.db, p, d, polled.offer.value, at, u);
  }
}
