/**
 A poll that is never answered. When the base URL is long enough every part of the announcement is
 allowed but the whole does not fit a frame, and the failed write is ignored.
 */
module Silence {
  import opened Basics
  import opened CampaignState
  import opened Tables
  import opened Queries
  import opened CampaignOps
  import opened Downloads
  import opened Frames
  import opened Payloads
  import opened Session
  import opened Races
  import Selection
  import ServiceLaws

  function Image(version: Bytes, digest: Bytes): Firmware {
    Firmware(P, version, Selection.Hex(digest), {TYPE}, false)
  }

  /** One running campaign over an image, its one device not yet offered it. */
  function Running(version: Bytes, digest: Bytes): Db {
    Holding(CREATED, Image(version, digest))
  }

  /** Both services wired, over text operations that leave the checksum alone. */
  ghost predicate Wired(cfg: Config, digest: Bytes) {
    && cfg.ops.Shrinks() && cfg.campaigns && cfg.firmware
    && |digest| == 32 && cfg.ops.trim(Selection.Hex(digest)) == Selection.Hex(digest)
  }

  /** The row the poll finds. */
  function Row(version: Bytes, digest: Bytes): OfferRow {
    OfferRow(C, F, version, Selection.Hex(digest), Pending)
  }

  /** What the poll would announce. */
  function Due(cfg: Config, version: Bytes, digest: Bytes, at: Moment): Update {
    UpdateFor(cfg, Row(version, digest), digest, RawToken(at.secret), at.now + EffectiveTtl(cfg.ttl))
  }

  /** The device finds the campaign, touched or not. */
  lemma PollFindsIt(db: Db, version: Bytes, digest: Bytes)
    requires db == Running(version, digest).(devices := db.devices)
    ensures FindOffer(db, P, D) == Some(Row(version, digest))
  {
    var pending := Candidates(db, P, D, {Pending});
    assert C in pending;
    assert forall c | c in pending :: c == C;
  }

  lemma PollDelivers(cfg: Config, version: Bytes, digest: Bytes, at: Moment, db: Db)
    requires Wired(cfg, digest) && FirmwareIn(db, P, F) && db.otaTokens == map[]
    ensures Prepare(cfg, db, P, D, Row(version, digest), at).delivery == Deliver(Due(cfg, version, digest, at))
  {
    StoredChecksumsDecode(cfg.ops, digest);
  }

  lemma PollAnnounces(cfg: Config, version: Bytes, digest: Bytes, poll: Bytes, at: Moment)
    requires Wired(cfg, digest) && DecodePoll(cfg.ops, poll).Some?
    ensures Announced(cfg, Running(version, digest), P, D, poll, at) == Some(Due(cfg, version, digest, at))
  {
    var seen := TouchDevice(Running(version, digest), P, D, None, at.now);
    PollFindsIt(seen, version, digest);
    ServiceLaws.PollNeverCompletes(seen, P, D, at.now);
    PollDelivers(cfg, version, digest, at, BuildPollOffer(seen, P, D, at.now).db);
  }

  /**
   Main result: with a campaign over a firmware whose version has 128 octets, any well-formed poll is
   left without a reply if and only if the base URL, trimmed, has between 7889 and 8089 octets; with
   a shorter version the lower end rises by as much.
   */
  lemma LongBasesSilencePollsExactly(cfg: Config, version: Bytes, digest: Bytes, poll: Bytes, at: Moment, reqId: u32)
    requires Wired(cfg, digest) && |version| <= 128 && DecodePoll(cfg.ops, poll).Some?
    ensures Wire(reqId, PollStep(cfg, Running(version, digest), P, D, poll, at).answer) == [] <==>
            MAX_BASE + 128 - |version| < |TrimSlashes(cfg.ops.trim(cfg.base))| <= LAST_BASE
  {
    LongAnnouncementsAreSilentExactly(cfg, Running(version, digest), P, D, poll, at, reqId);
    PollAnnounces(cfg, version, digest, poll, at);
  }

  function Copies(b: byte, n: nat): (s: Bytes)
    ensures |s| == n && forall x | x in s :: x == b
  {
    if n == 0 then [] else [b] + Copies(b, n - 1)
  }

  /** A poll with an empty version text. */
  lemma EmptyPoll(ops: TextOps) returns (poll: Bytes)
    ensures DecodePoll(ops, poll).Some?
  {
    poll := Field([]) + Optional(None) + [];
    PollDecodesLayout(ops, poll, [], None, []);
  }

  lemma BasesOfAnyLengthExist(n: nat) returns (base: Bytes)
    ensures |base| == n && TrimSlashes(base) == base
  {
    base := Copies(97, n);
    assert n > 0 ==> base[n - 1] in base;
  }

  /** Those tables are reached by a history of whole operations, and such polls and configurations exist. */
  lemma SilenceHappens(version: Bytes, digest: Bytes, at: Moment, reqId: u32)
    returns (acts: seq<ServiceLaws.Act>, cfg: Config, poll: Bytes)
    requires |version| == 128 && |digest| == 32
    ensures Leaves(acts, Running(version, digest)) && cfg.ops.Shrinks()
    ensures Wire(reqId, PollStep(cfg, Running(version, digest), P, D, poll, at).answer) == []
  {
    acts := CreationReaches(Image(version, digest));
    var base := BasesOfAnyLengthExist(MAX_BASE + 1);
    cfg := Config(TextOps(s => s, s => s), raw => raw, base, 0, true, true);
    poll := EmptyPoll(cfg.ops);
    LongBasesSilencePollsExactly(cfg, version, digest, poll, at, reqId);
  }
}
