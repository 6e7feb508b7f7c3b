/**
 The two grains agree: every history of whole operations is a run of the interleaved engine, so
 whatever holds of all runs holds of all histories, and a history can be used to reach a state
 from which operations then race.
 */
module Refinement {
  import opened Basics
  import opened CampaignState
  import opened Tables
  import opened Queries
  import opened Machine
  import opened System
  import opened CampaignOps
  import opened ServiceLaws

  lemma Extend(events: seq<Event>, e: Event) returns (longer: seq<Event>)
    requires IsRun(events) && Enabled(EndOf(events), e)
    ensures IsRun(longer) && EndOf(longer) == Execute(EndOf(events), e)
  {
    longer := events + [e];
    assert longer[..|longer| - 1] == events;
  }

  /** The state apart from its history. */
  ghost predicate At(events: seq<Event>, db: Db, clock: Time, ops: map<nat, Pc>) {
    IsRun(events) && var s := EndOf(events); s.db == db && s.clock == clock && s.ops == ops
  }

  lemma TakeStep(events: seq<Event>, db: Db, clock: Time, ops: map<nat, Pc>, op: nat) returns (longer: seq<Event>)
    requires At(events, db, clock, ops) && op in ops && !ops[op].Done?
    ensures var move := StepOf(db, clock, ops[op]);
            At(longer, Apply(db, move.write), clock, ops[op := move.pc])
  {
    longer := Extend(events, Run(op));
  }

  /** From the i-th point of a solo path, the operation can be run to the end of the path. */
  lemma {:induction false} FollowPath(events: seq<Event>, clock: Time, ops: map<nat, Pc>, op: nat, path: seq<Local>, i: nat)
    returns (longer: seq<Event>)
    requires Solo(clock, path) && i < |path|
    requires At(events, path[i].db, clock, ops[op := path[i].pc])
    ensures At(longer, path[|path| - 1].db, clock, ops[op := path[|path| - 1].pc])
    decreases |path| - i
  {
    if i + 1 == |path| {
      longer := events;
    } else {
      assert SoloStep(clock, path[i], path[i + 1]);
      var next := TakeStep(events, path[i].db, clock, ops[op := path[i].pc], op);
      assert ops[op := path[i].pc][op := path[i + 1].pc] == ops[op := path[i + 1].pc];
      longer := FollowPath(next, clock, ops, op, path, i + 1);
    }
  }

  /** An operation that runs alone to an outcome can do so inside any run. */
  lemma RunAlone(events: seq<Event>, db: Db, clock: Time, ops: map<nat, Pc>, op: nat, pc: Pc, db': Db, outcome: Outcome)
    returns (longer: seq<Event>)
    requires At(events, db, clock, ops) && op !in ops && IsStart(pc, clock)
    requires RunsTo(clock, db, pc, db', outcome)
    ensures At(longer, db', clock, ops[op := Done(outcome)])
  {
    var path: seq<Local> :| Solo(clock, path) && path[0] == Local(db, pc) && path[|path| - 1] == Local(db', Done(outcome));
    var begun := Extend(events, Begin(op, pc));
    longer := FollowPath(begun, clock, ops, op, path, 0);
  }

  // ---------------------------------------------------------------------------
  // Histories are runs
  // ---------------------------------------------------------------------------

  function StartOf(op: Operation, now: Time): Pc
    requires !op.OOutside?
  {
    match op
    case OPoll(p, d, plan) => PollFind(p, d, plan)
    case ODownload(hash) => DownloadRow(hash, now)
    case OReport(p, d, c, m, code, msg) => ReportLookup(p, d, c, m, code, msg)
    case OVersion(p, d, accepts) => HttpFind(p, d, accepts)
    case OPause(p, c) => PauseOp(p, c)
    case OResume(p, c) => ResumeOp(p, c)
    case OCancel(p, c) => CancelOp(p, c)
    case OActivate => SchedulerActivate(now)
    case OCreate(input, c) => CreateStart(input, c)
  }

  ghost function OutcomeOf(db: Db, op: Operation, now: Time): Outcome
    requires !op.OOutside?
  {
    match op
    case OPoll(p, d, plan) => Poll(db, p, d, plan, now).outcome
    case ODownload(hash) => Redeem(db, hash, now).outcome
    case OReport(p, d, c, m, code, msg) => ReportOutcome(ApplyReport(db, p, d, c, m, code, msg, now))
    case OVersion(p, d, accepts) => VersionReportOutcome(db, p, d, accepts)
    case OPause(p, c) => if CampaignIs(db, p, c, {Active}) then Finished else Refused
    case OResume(p, c) => if CampaignIs(db, p, c, {Paused}) then Finished else Refused
    case OCancel(p, c) => if CampaignIs(db, p, c, CANCELLABLE) then Finished else Refused
    case OActivate => Finished
    case OCreate(input, c) => CreateOutcome(db, CreateCampaign(db, input, c, now), c)
  }

  lemma OperatorsRunAlone(db: Db, op: Operation, now: Time)
    requires op.OPause? || op.OResume? || op.OCancel? || op.OActivate?
    ensures RunsTo(now, db, StartOf(op, now), Perform(db, op, now), OutcomeOf(db, op, now))
  {
    var pc, out := StartOf(op, now), OutcomeOf(db, op, now);
    AlreadyDone(now, Perform(db, op, now), out);
    OneMore(now, db, pc, Perform(db, op, now), Done(out), Perform(db, op, now), out);
  }

  /** Each operation has an outcome, and reaches it when left alone. */
  lemma EveryOperationRunsAlone(db: Db, op: Operation, now: Time)
    requires !op.OOutside?
    ensures RunsTo(now, db, StartOf(op, now), Perform(db, op, now), OutcomeOf(db, op, now))
  {
    match op
    case OPoll(p, d, plan) => PollAlone(now, db, p, d, plan);
    case ODownload(hash) => RedeemAlone(now, db, hash);
    case OReport(p, d, c, m, code, msg) => ReportAlone(now, db, p, d, c, m, code, msg);
    case OVersion(p, d, accepts) => VersionReportAlone(now, db, p, d, accepts);
    case OCreate(input, c) => CreateAlone(now, db, input, c);
    case _ => OperatorsRunAlone(db, op, now);
  }

  ghost predicate TimesRise(acts: seq<Act>) {
    (forall i :: 0 <= i < |acts| ==> acts[i].now >= 0)
    && forall i, j :: 0 <= i < j < |acts| ==> acts[i].now <= acts[j].now
  }

  function LastTime(acts: seq<Act>): Time {
    if acts == [] then 0 else acts[|acts| - 1].now
  }

  lemma FreshOp(ops: map<nat, Pc>) returns (op: nat)
    ensures op !in ops
  {
    op := UpperBound(ops.Keys);
  }

  lemma {:induction false} UpperBound(s: set<nat>) returns (n: nat)
    ensures forall x | x in s :: x < n
    decreases s
  {
    if s == {} {
      n := 0;
    } else {
      var top :| top in s;
      var m := UpperBound(s - {top});
      n := if top < m then m else top + 1;
      assert forall x | x in s :: x == top || x in s - {top};
    }
  }

  ghost predicate Idle(ops: map<nat, Pc>) {
    forall op | op in ops :: ops[op].Done?
  }

  /** Perform one whole operation inside a run in which nothing is in flight. */
  lemma PerformInRun(events: seq<Event>, db: Db, now: Time, ops: map<nat, Pc>, op: Operation) returns (longer: seq<Event>)
    requires At(events, db, now, ops) && Idle(ops) && Possible(db, op)
    ensures IsRun(longer) && EndOf(longer).db == Perform(db, op, now)
    ensures EndOf(longer).clock == now && Idle(EndOf(longer).ops)
  {
    if op.OOutside? {
      longer := Extend(events, Outside(op.db));
    } else {
      EveryOperationRunsAlone(db, op, now);
      var id := FreshOp(ops);
      longer := RunAlone(events, db, now, ops, id, StartOf(op, now), Perform(db, op, now), OutcomeOf(db, op, now));
    }
  }

  /** Main result: a history of whole operations is reproduced, step by step, by some interleaved run. */
  lemma {:induction false} HistoriesAreRuns(acts: seq<Act>) returns (events: seq<Event>)
    requires IsHistory(acts) && TimesRise(acts)
    ensures IsRun(events) && EndOf(events).db == After(acts) && EndOf(events).clock == LastTime(acts)
    ensures Idle(EndOf(events).ops)
  {
    if acts == [] {
      events := [];
    } else {
      var before, last := acts[..|acts| - 1], acts[|acts| - 1];
      var prefix := HistoriesAreRuns(before);
      assert LastTime(before) <= last.now;
      var ticked := Extend(prefix, Tick(last.now));
      events := PerformInRun(ticked, After(before), last.now, EndOf(ticked).ops, last.op);
    }
  }
}
