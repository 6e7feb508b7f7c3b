/**
 Download tokens from the firmware service's side: a poll issues a secret, the download endpoint
 redeems it once. Only the hash of the secret is stored, so the hash is a parameter here.
 */
module Downloads {
  import opened Basics
  import opened Tables
  import opened Queries
  import opened Machine
  import opened CampaignOps
  import opened Repositories
  import opened Evolution
  import RolloutEffects
  import Selection

  /** The clock counts nanoseconds. */
  const SECOND: Time := 1_000_000_000
  const DEFAULT_TTL: Time := 15 * 60 * SECOND

  function EffectiveTtl(ttl: Time): (t: Time)
    ensures t > 0
  {
    if ttl <= 0 then DEFAULT_TTL else ttl
  }

  predicate IsHexCharacter(c: byte) {
    48 <= c <= 57 || 97 <= c <= 102 || 65 <= c <= 70
  }

  /** 64 hexadecimal characters, in either case. */
  predicate WellFormedToken(raw: Bytes) {
    |raw| == 64 && forall i | 0 <= i < |raw| :: IsHexCharacter(raw[i])
  }

  /** hex.EncodeToString of 32 random octets. */
  function RawToken(secret: Bytes): (raw: Bytes)
    requires |secret| == 32
    ensures WellFormedToken(raw)
  {
    Selection.Hex(secret)
  }

  datatype IssueError = IssueFirmwareMissing | HashTaken

  datatype OpenError = InvalidToken

  datatype OpenResult = OpenResult(db: Db, firmware: Result<Id, OpenError>)

  /** OpenFirmwareWithOtaDownloadToken: a missing firmware is noticed only after the token is spent. */
  function OpenFirmware(db: Db, hash: Bytes -> Bytes, raw: Bytes, now: Time): OpenResult {
    if !WellFormedToken(raw) || ConsumeVerdict(db, hash(raw), now).Some? then OpenResult(db, Err(InvalidToken))
    else
      var token := db.otaTokens[hash(raw)];
      OpenResult(Consume(db, hash(raw), now),
                 if FirmwareIn(db, token.project, token.firmware) then Ok(token.firmware) else Err(InvalidToken))
  }

  /** Once the form of the token is accepted, opening is the download operation run alone. */
  lemma OpenAlone(clock: Time, db: Db, hash: Bytes -> Bytes, raw: Bytes)
    requires WellFormedToken(raw)
    ensures var r := OpenFirmware(db, hash, raw, clock);
            && RunsTo(clock, db, DownloadRow(hash(raw), clock), r.db, RedemptionOutcome(db, hash(raw), clock))
            && (r.firmware.Ok? <==> RedemptionOutcome(db, hash(raw), clock).Served?)
            && (r.firmware.Ok? ==> RedemptionOutcome(db, hash(raw), clock) == Served(hash(raw), r.firmware.value, clock))
  {
    RedeemAlone(clock, db, hash(raw));
  }

  lemma IssuedTokenSurvives(db: Db, p: Id, d: Id, row: OfferRow, issue: TokenPlan, issued: Time, later: Db)
    requires IssueToken(db, p, d, row, issue, issued).expiresAt.Some?
    requires Evolves(IssueToken(db, p, d, row, issue, issued).db, later)
    ensures issue.hash in later.otaTokens
    ensures SameToken(OtaToken(p, d, row.campaign, row.firmware, issued + issue.ttl, None), later.otaTokens[issue.hash])
  {
  }

  lemma SpentTokenStaysSpent(db: Db, h: Bytes, now: Time, later: Db, again: Time)
    requires Unconsumed(db, h) && Evolves(Consume(db, h, now), later)
    ensures ConsumeVerdict(later, h, again) == Some(TokenConsumed)
  {
    assert later.otaTokens[h].consumedAt == Some(now);
  }

  /** A stored token is honoured exactly when it is unspent and in time, its device may download and its firmware is live. */
  lemma HonouredExactly(db: Db, hash: Bytes -> Bytes, raw: Bytes, token: OtaToken, now: Time)
    requires WellFormedToken(raw) && hash(raw) in db.otaTokens && SameToken(token, db.otaTokens[hash(raw)])
    ensures var r := OpenFirmware(db, hash, raw, now).firmware;
            && (r.Ok? <==> Unconsumed(db, hash(raw)) && now < token.expiresAt && MayDownload(db, token.project, token.device)
                           && FirmwareIn(db, token.project, token.firmware))
            && (r.Ok? ==> r.value == token.firmware)
  {
  }

  /**
   The life of one token: whatever happens between issuing and redeeming, the secret handed to the
   device opens the firmware it was issued for exactly when it is unspent and in time, the device
   unblocked and the firmware live; and after one redemption it opens nothing, ever.
   */
  lemma IssuedTokenOpensOnce(db: Db, hash: Bytes -> Bytes, secret: Bytes, p: Id, d: Id, row: OfferRow, ttl: Time, issued: Time,
                             before: Db, now: Time, later: Db, again: Time)
    requires |secret| == 32
    requires IssueToken(db, p, d, row, TokenPlan(hash(RawToken(secret)), ttl), issued).expiresAt.Some?
    requires Evolves(IssueToken(db, p, d, row, TokenPlan(hash(RawToken(secret)), ttl), issued).db, before)
    requires Evolves(OpenFirmware(before, hash, RawToken(secret), now).db, later)
    ensures var raw := RawToken(secret);
            var r := OpenFirmware(before, hash, raw, now).firmware;
            && (r.Ok? <==> Unconsumed(before, hash(raw)) && now < issued + ttl && MayDownload(before, p, d)
                           && FirmwareIn(before, p, row.firmware))
            && (r.Ok? ==> r.value == row.firmware
                          && OpenFirmware(later, hash, raw, again) == OpenResult(later, Err(InvalidToken)))
  {
    var raw := RawToken(secret);
    IssuedTokenSurvives(db, p, d, row, TokenPlan(hash(raw), ttl), issued, before);
    HonouredExactly(before, hash, raw, OtaToken(p, d, row.campaign, row.firmware, issued + ttl, None), now);
    if OpenFirmware(before, hash, raw, now).firmware.Ok? {
      SpentTokenStaysSpent(before, hash(raw), now, later, again);
    }
  }

  /** Opening in terms of the tables: a well-formed secret whose token is spendable spends it, and nothing else does. */
  lemma OpeningEffect(db: Db, hash: Bytes -> Bytes, raw: Bytes, now: Time)
    ensures var r := OpenFirmware(db, hash, raw, now);
            if WellFormedToken(raw) && RolloutEffects.Spendable(db, hash(raw), now) then
              var t := db.otaTokens[hash(raw)];
              && r.db == db.(otaTokens := db.otaTokens[hash(raw) := t.(consumedAt := Some(now))])
              && r.firmware == if t.firmware in db.firmwares && !db.firmwares[t.firmware].deleted
                                  && db.firmwares[t.firmware].project == t.project then Ok(t.firmware) else Err(InvalidToken)
            else r == OpenResult(db, Err(InvalidToken))
  {
  }

  const DIGITS: string := "0123456789abcdef"

  /** The secret as text: two lower-case digits an octet. */
  lemma TokensAreLowerCase(secret: Bytes, i: nat)
    requires |secret| == 32 && i < 32
    ensures RawToken(secret)[2 * i] == DIGITS[secret[i] / 16] as int
    ensures RawToken(secret)[2 * i + 1] == DIGITS[secret[i] % 16] as int
  {
  }

  class FirmwareService {
    const repo: Repository
    /** security.HashToken */
    const hash: Bytes -> Bytes

    constructor (repo: Repository, hash: Bytes -> Bytes)
      ensures this.repo == repo && this.hash == hash
    {
      this.repo, this.hash := repo, hash;
    }

    method IssueOtaDownloadToken(p: Id, d: Id, row: OfferRow, ttl: Time, secret: Bytes, now: Time)
      returns (r: Result<(Bytes, Time), IssueError>)
      requires |secret| == 32
      modifies repo
      ensures var issue := IssueToken(old(repo.Snapshot()), p, d, row, TokenPlan(hash(RawToken(secret)), EffectiveTtl(ttl)), now);
              && repo.Snapshot() == issue.db
              && (r.Ok? <==> issue.expiresAt.Some?)
              && (r.Ok? ==> r.value == (RawToken(secret), issue.expiresAt.value))
    {
      var life := ttl;
      if life <= 0 {
        life := DEFAULT_TTL;
      }
      if !FirmwareIn(repo.Snapshot(), p, row.firmware) {
        return Err(IssueFirmwareMissing);
      }
      var raw := RawToken(secret);
      var expiresAt := now + life;
      var ok := repo.InsertOtaDownloadToken(hash(raw), OtaToken(p, d, row.campaign, row.firmware, expiresAt, None));
      if !ok {
        return Err(HashTaken);
      }
      r := Ok((raw, expiresAt));
    }

    method OpenFirmwareWithOtaDownloadToken(raw: Bytes, now: Time) returns (r: Result<Id, OpenError>)
      modifies repo
      ensures repo.Snapshot() == OpenFirmware(old(repo.Snapshot()), hash, raw, now).db
      ensures r == OpenFirmware(old(repo.Snapshot()), hash, raw, now).firmware
    {
      if |raw| != 64 {
        return Err(InvalidToken);
      }
      for i := 0 to |raw|
        invariant forall k | 0 <= k < i :: IsHexCharacter(raw[k])
      {
        var c := raw[i];
        if !((c >= 48 && c <= 57) || (c >= 97 && c <= 102) || (c >= 65 && c <= 70)) {
          return Err(InvalidToken);
        }
      }
      var row := repo.ConsumeOtaDownloadTokenTx(hash(raw), now);
      if row.Err? {
        return Err(InvalidToken);
      }
      if !FirmwareIn(repo.Snapshot(), row.value.project, row.value.firmware) {
        return Err(InvalidToken);
      }
      r := Ok(row.value.firmware);
    }
  }
}
