/**
 Serving devices is part of the rollout engine: what a connection does to the tables is what a run
 of Machine does, so every law of runs holds of tables that connections have written to.
 */
module SessionRuns {
  import opened Basics
  import opened Tables
  import opened Queries
  import opened CampaignOps
  import opened Downloads
  import opened Frames
  import opened Payloads
  import opened System
  import opened ServiceLaws
  import opened Refinement
  import opened Session
  import Machine

  /** Tables that some run leaves at an instant at which nothing is under way. */
  ghost predicate Reached(db: Db, now: Time) {
    exists events: seq<Event> :: IsRun(events) && At(events, db, now, EndOf(events).ops) && Idle(EndOf(events).ops)
  }

  lemma OperationsReach(db: Db, now: Time, op: Operation)
    requires Reached(db, now) && Possible(db, op)
    ensures Reached(Perform(db, op, now), now)
  {
    var events: seq<Event> :| IsRun(events) && At(events, db, now, EndOf(events).ops) && Idle(EndOf(events).ops);
    var longer := PerformInRun(events, db, now, EndOf(events).ops, op);
    assert At(longer, Perform(db, op, now), now, EndOf(longer).ops);
  }

  lemma TimePasses(db: Db, since: Time, now: Time)
    requires Reached(db, since) && since <= now
    ensures Reached(db, now)
  {
    var events: seq<Event> :| IsRun(events) && At(events, db, since, EndOf(events).ops) && Idle(EndOf(events).ops);
    var longer := Extend(events, Tick(now));
    assert At(longer, db, now, EndOf(longer).ops);
  }

  lemma TouchesReach(db: Db, p: Id, d: Id, version: Option<Bytes>, now: Time)
    requires Reached(db, now)
    ensures Reached(TouchDevice(db, p, d, version, now), now)
  {
    OperationsReach(db, now, OOutside(TouchDevice(db, p, d, version, now)));
  }

  // ---------------------------------------------------------------------------
  // Frames
  // ---------------------------------------------------------------------------

  /** The token a poll frame asks for: none when no firmware service is wired. */
  function PlanOf(cfg: Config, at: Moment): Option<Machine.TokenPlan> {
    if cfg.firmware then Some(Machine.TokenPlan(cfg.hash(RawToken(at.secret)), EffectiveTtl(cfg.ttl))) else None
  }

  /** A poll frame that gets as far as the campaigns does what one poll operation does. */
  lemma PollFramesPoll(cfg: Config, db: Db, p: Id, d: Id, payload: Bytes, at: Moment)
    requires DecodePoll(cfg.ops, payload).Some? && MayDownload(db, p, d) && cfg.campaigns
    ensures PollStep(cfg, db, p, d, payload, at).db == Poll(TouchDevice(db, p, d, None, at.now), p, d, PlanOf(cfg, at), at.now).db
  {
  }

  lemma PollFramesReach(cfg: Config, db: Db, p: Id, d: Id, payload: Bytes, at: Moment)
    requires Reached(db, at.now)
    ensures Reached(PollStep(cfg, db, p, d, payload, at).db, at.now)
  {
    var seen := TouchDevice(db, p, d, None, at.now);
    TouchesReach(db, p, d, None, at.now);
    if DecodePoll(cfg.ops, payload).Some? && MayDownload(db, p, d) && cfg.campaigns {
      PollFramesPoll(cfg, db, p, d, payload, at);
      OperationsReach(seen, at.now, OPoll(p, d, PlanOf(cfg, at)));
    }
  }

  lemma AppliedReportsReach(cfg: Config, db: Db, p: Id, d: Id, r: Report, m: Milestone, now: Time)
    requires Reached(db, now) && VersionsTrimmed(cfg.ops.trim, db)
    ensures Reached(AppliedStep(cfg, db, p, d, r, m, now).db, now)
  {
    var code, msg := NonZero(r.code), Clip(cfg.ops.trim(r.msg));
    var applied := TrimmedReport(cfg.ops.trim, db, p, d, r.campaign, m, code, msg, now);
    TrimmingStoredVersions(cfg.ops.trim, db, p, d, r.campaign, m, code, msg, now);
    OperationsReach(db, now, OReport(p, d, r.campaign, m, code, msg));
    if applied.version.Ok? {
      var installed := applied.version.value;
      TouchesReach(applied.db, p, d, if m.ReportInstalled? && installed != [] then Some(installed) else NonEmpty(r.version), now);
    }
  }

  lemma ReportFramesReach(cfg: Config, db: Db, p: Id, d: Id, payload: Bytes, at: Moment)
    requires Reached(db, at.now) && VersionsTrimmed(cfg.ops.trim, db)
    ensures Reached(ReportStep(cfg, db, p, d, payload, at).db, at.now)
  {
    if DecodeReport(cfg.ops, payload).Some? {
      var r := DecodeReport(cfg.ops, payload).value;
      TouchesReach(db, p, d, NonEmpty(r.version), at.now);
      if MilestoneOf(r.status).Some? {
        AppliedReportsReach(cfg, db, p, d, r, MilestoneOf(r.status).value, at.now);
      }
    }
  }

  lemma FramesReach(cfg: Config, db: Db, p: Id, d: Id, f: Frame, at: Moment)
    requires Reached(db, at.now) && VersionsTrimmed(cfg.ops.trim, db)
    ensures Reached(FrameStep(cfg, db, p, d, f, at).db, at.now)
    ensures VersionsTrimmed(cfg.ops.trim, FrameStep(cfg, db, p, d, f, at).db)
  {
    PollFramesReach(cfg, db, p, d, f.payload, at);
    ReportFramesReach(cfg, db, p, d, f.payload, at);
    PollStepKeepsCatalog(cfg, db, p, d, f.payload, at);
    ReportStepKeepsCatalog(cfg, db, p, d, f.payload, at);
  }

  // ---------------------------------------------------------------------------
  // Connections
  // ---------------------------------------------------------------------------

  /** What others do between frames is itself part of a run, and stores trimmed versions only. */
  ghost predicate WorldRuns(trim: Bytes -> Bytes, moments: nat -> Moment) {
    && (forall i: nat, j: nat :: i <= j ==> moments(i).now <= moments(j).now)
    && (forall i: nat, db: Db :: Reached(db, moments(i).now) ==> Reached(moments(i).world(db), moments(i).now))
    && (forall i: nat, db: Db :: VersionsTrimmed(trim, db) ==> VersionsTrimmed(trim, moments(i).world(db)))
  }

  lemma {:induction false} ServingReaches(cfg: Config, db: Db, p: Id, d: Id, input: Bytes, i: nat, moments: nat -> Moment)
    returns (last: Time)
    requires WorldRuns(cfg.ops.trim, moments) && VersionsTrimmed(cfg.ops.trim, db)
    requires i > 0 && Reached(db, moments(i - 1).now)
    ensures Reached(ServeFrames(cfg, db, p, d, input, i, moments).db, last)
    decreases |input|
  {
    var r := Parse(input);
    if r.Unread? {
      last := moments(i - 1).now;
    } else {
      var at := moments(i);
      TimePasses(db, moments(i - 1).now, at.now);
      FramesReach(cfg, at.world(db), p, d, r.frame, at);
      last := ServingReaches(cfg, FrameStep(cfg, at.world(db), p, d, r.frame, at).db, p, d, r.rest, i + 1, moments);
    }
  }

  /**
   Main result: whatever a device sends, the tables its connection leaves are the tables of a run of
   the interleaved engine, if those it met were and those around it keep to the engine too.
   */
  lemma ConnectionsAreRuns(cfg: Config, db: Db, input: Bytes, moments: nat -> Moment) returns (last: Time)
    requires WorldRuns(cfg.ops.trim, moments) && VersionsTrimmed(cfg.ops.trim, db)
    requires Reached(db, moments(0).now)
    ensures Reached(Serve(cfg, db, input, moments).db, last)
  {
    var r, seen := Parse(input), moments(0).world(db);
    last := moments(0).now;
    if EndingOf(cfg, db, input, moments).Serving? {
      ServedDevicesAuthenticated(cfg, db, input, moments);
      var d := EndingOf(cfg, db, input, moments).device;
      last := ServingReaches(cfg, seen, seen.devices[d].project, d, r.rest, 1, moments);
    }
  }
}
