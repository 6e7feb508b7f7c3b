/**
 What does not survive interleaving, or a missing firmware row: concrete runs.

 Each shows that a law of ServiceLaws or Projects needs the hypothesis it is stated under.
 */
module Races {
  import opened Basics
  import opened CampaignState
  import opened Tables
  import opened Queries
  import opened Machine
  import opened System
  import opened CampaignOps
  import opened ServiceLaws
  import opened Refinement
  import opened Conservation
  import Projects

  const P: Id := 1
  const D: Id := 2
  const TYPE: Id := 3
  const F: Id := 4
  const C: Id := 5

  const IMAGE: Firmware := Firmware(P, [1], [], {TYPE}, false)

  /** One project, one device, one firmware for its type. */
  const STOCKED: Db := EMPTY.(
    projects := map[P := Project(false, false)],
    devices := map[D := Device(P, TYPE, false, false, false, 6, [], None)],
    firmwares := map[F := IMAGE]
  )

  const INPUT: CreateInput := CreateInput(P, true, F, Immediate, None, None, [], [D])

  const CREATED: Db := STOCKED.(
    campaigns := map[C := NewCampaign(INPUT, 1, 0)],
    assignments := map[Target(C, D) := FRESH]
  )

  const OFFERED: Db := CREATED.(assignments := map[Target(C, D) := FRESH.(status := Offered)])

  lemma OneDeviceChosen(chosen: seq<Id>)
    requires NoDuplicates(chosen) && ToSet(chosen) <= {D} && chosen != []
    ensures chosen == [D]
  {
    assert forall i | 0 <= i < |chosen| :: chosen[i] in ToSet(chosen);
    DistinctCardinality(chosen);
    SubsetCardinality(ToSet(chosen), {D});
  }

  /** The same tables with another image for the type. */
  function Holding(db: Db, image: Firmware): Db {
    db.(firmwares := map[F := image])
  }

  predicate Suits(image: Firmware) {
    image.project == P && image.deviceTypes == {TYPE} && !image.deleted
  }

  lemma CreateReaches(image: Firmware)
    requires Suits(image)
    ensures CreateCampaign(Holding(STOCKED, image), INPUT, C, 0) == Holding(CREATED, image)
  {
    var stocked := Holding(STOCKED, image);
    assert D in DevicesExplicit(stocked, P, INPUT.explicit);
    assert DevicesInGroups(stocked, P, INPUT.groups) == {};
    assert CompatibleScope(stocked, INPUT) == {D};
    var chosen := ChosenFrom(INPUT, {D});
    ChosenFromIsSelection(INPUT, {D});
    OneDeviceChosen(chosen);
    assert PendingRows(C, [D]) == map[Target(C, D) := FRESH];
  }

  lemma PollReaches()
    ensures BuildPollOffer(CREATED, P, D, 0).db == OFFERED
  {
    var pending := Candidates(CREATED, P, D, {Pending});
    assert C in pending;
    assert forall c | c in pending :: c == C;
    PollNeverCompletes(CREATED, P, D, 0);
    assert Offer(CREATED, C, D).assignments == OFFERED.assignments;
  }

  /** A history of operations at time 0 that leaves the tables db. */
  ghost predicate Leaves(acts: seq<Act>, db: Db) {
    IsHistory(acts) && After(acts) == db && forall i :: 0 <= i < |acts| ==> acts[i].now == 0
  }

  lemma Then(acts: seq<Act>, db: Db, op: Operation, db': Db) returns (longer: seq<Act>)
    requires Leaves(acts, db) && Possible(db, op) && Perform(db, op, 0) == db'
    ensures Leaves(longer, db')
  {
    longer := acts + [Act(op, 0)];
    assert longer[..|longer| - 1] == acts;
  }

  lemma StockReaches(image: Firmware) returns (acts: seq<Act>)
    ensures Leaves(acts, Holding(STOCKED, image))
  {
    acts := Then([], EMPTY, OOutside(Holding(STOCKED, image)), Holding(STOCKED, image));
  }

  lemma CreationReaches(image: Firmware) returns (acts: seq<Act>)
    requires Suits(image)
    ensures Leaves(acts, Holding(CREATED, image))
  {
    CreateReaches(image);
    acts := StockReaches(image);
    acts := Then(acts, Holding(STOCKED, image), OCreate(INPUT, C), Holding(CREATED, image));
  }

  lemma SetupReaches() returns (acts: seq<Act>)
    ensures Leaves(acts, OFFERED)
  {
    PollReaches();
    acts := CreationReaches(IMAGE);
    acts := Then(acts, CREATED, OPoll(P, D, None), OFFERED);
  }

  /** The failure report completes the one-device campaign. */
  const FAILED: Db := OFFERED.(
    campaigns := map[C := NewCampaign(INPUT, 1, 0).(status := Completed, completedAt := Some(0))],
    assignments := map[Target(C, D) := Assignment(Failed, Some(7), [])]
  )

  const REPORTED: Db := OFFERED.(assignments := map[Target(C, D) := Assignment(Failed, Some(7), [])])

  lemma ReportIsWritten()
    ensures WriteReport(OFFERED, C, D, ReportFailed, Some(7), []) == REPORTED
  {
  }

  lemma ReportCompletes()
    ensures TryAutoComplete(REPORTED, P, C, 0) == FAILED
  {
    NoneLeftIsAllTerminal(REPORTED, C);
  }

  lemma FailureReaches()
    ensures ApplyReport(OFFERED, P, D, C, ReportFailed, Some(7), [], 0).db == FAILED
  {
    ReportIsWritten();
    ReportCompletes();
  }

  lemma VersionReportSees()
    ensures FindInFlight(OFFERED, P, D).Some? && FindInFlight(OFFERED, P, D).value.campaign == C
  {
    var s := Candidates(OFFERED, P, D, {Offered, Downloaded});
    assert C in s;
    assert forall c | c in s :: c == C;
  }

  /** A run in which a version report is about to write, and nothing else is in flight. */
  lemma WaitingVersionReport() returns (events: seq<Event>, ops: map<nat, Pc>, http: nat)
    ensures http in ops && ops[http] == HttpSet(P, D, C)
    ensures At(events, OFFERED, 0, ops)
  {
    var acts := SetupReaches();
    var prefix := HistoriesAreRuns(acts);
    var idle := EndOf(prefix).ops;
    http := FreshOp(idle);
    events := VersionReportReads(prefix, idle, http);
    ops := idle[http := HttpSet(P, D, C)];
  }

  lemma VersionReportReads(prefix: seq<Event>, idle: map<nat, Pc>, http: nat) returns (events: seq<Event>)
    requires At(prefix, OFFERED, 0, idle) && http !in idle
    ensures At(events, OFFERED, 0, idle[http := HttpSet(P, D, C)])
  {
    VersionReportSees();
    var start := HttpFind(P, D, _ => true);
    var begun := Extend(prefix, Begin(http, start));
    events := TakeStep(begun, OFFERED, 0, idle[http := start], http);
    assert idle[http := start][http := HttpSet(P, D, C)] == idle[http := HttpSet(P, D, C)];
  }

  /** Meanwhile a failure report runs from its lookup to its completion. */
  lemma FailureMeanwhile(waiting: seq<Event>, ops: map<nat, Pc>) returns (failed: seq<Event>, later: map<nat, Pc>)
    requires At(waiting, OFFERED, 0, ops)
    ensures At(failed, FAILED, 0, later) && forall op | op in ops :: op in later && later[op] == ops[op]
  {
    FailureReaches();
    var tcp := FreshOp(ops);
    ReportAlone(0, OFFERED, P, D, C, ReportFailed, Some(7), []);
    var out := ReportOutcome(ApplyReport(OFFERED, P, D, C, ReportFailed, Some(7), [], 0));
    failed := RunAlone(waiting, OFFERED, 0, ops, tcp, ReportLookup(P, D, C, ReportFailed, Some(7), []), FAILED, out);
    later := ops[tcp := Done(out)];
  }

  /**
   A version-match report that has read the device as offered writes `installed` after a failure
   report has finished the assignment and completed the campaign: failed becomes installed, in a
   campaign that is no longer active. Neither can happen to whole operations.
   */
  lemma {:induction false} StaleVersionReportOverwritesFailure() returns (events: seq<Event>, i: nat)
    ensures IsRun(events) && i < |EndOf(events).trace|
    ensures var earlier := EndOf(events).trace[i];
            C in earlier.campaigns && earlier.campaigns[C].status.Completed?
            && Target(C, D) in earlier.assignments && earlier.assignments[Target(C, D)].status.Failed?
    ensures var now := EndOf(events).db;
            Target(C, D) in now.assignments && now.assignments[Target(C, D)].status.Installed?
  {
    var waiting, ops, http := WaitingVersionReport();
    var failed, later := FailureMeanwhile(waiting, ops);
    RunsAreTraced(failed);
    i := |EndOf(failed).trace| - 1;
    events := Extend(failed, Run(http));
  }

  // ---------------------------------------------------------------------------
  // A finished campaign that is not completed
  // ---------------------------------------------------------------------------

  const WITHDRAWN: Db := OFFERED.(firmwares := map[F := IMAGE.(deleted := true)])

  /**
   Whole operations only: the firmware is soft-deleted after the offer, the device still reports
   `installed`, and the report stops before tryAutoComplete. Every device is finished and the
   campaign stays active.
   */
  lemma {:induction false} FinishedButNotCompleted() returns (acts: seq<Act>)
    ensures IsHistory(acts)
    ensures var db := After(acts);
            C in db.campaigns && db.campaigns[C].status.Active? && AllTerminal(db, C)
            && Assigned(db, C) != {}
  {
    acts := SetupReaches();
    acts := Then(acts, OFFERED, OOutside(WITHDRAWN), WITHDRAWN);
    var report := OReport(P, D, C, ReportInstalled, None, []);
    acts := Then(acts, WITHDRAWN, report, Perform(WITHDRAWN, report, 0));
    StrandedReport();
  }

  lemma StrandedReport()
    ensures var db := ApplyReport(WITHDRAWN, P, D, C, ReportInstalled, None, [], 0).db;
            C in db.campaigns && db.campaigns[C].status.Active? && AllTerminal(db, C)
            && Assigned(db, C) != {}
  {
    var db := ApplyReport(WITHDRAWN, P, D, C, ReportInstalled, None, [], 0).db;
    assert db == WriteReport(WITHDRAWN, C, D, ReportInstalled, None, []);
    assert Target(C, D) in Assigned(db, C);
  }

  // ---------------------------------------------------------------------------
  // A campaign paused while it is being completed
  // ---------------------------------------------------------------------------

  const PAUSED: Db := REPORTED.(campaigns := map[C := NewCampaign(INPUT, 1, 0).(status := Paused, pausedAt := Some(0))])
  const FAILING: Pc := ReportWrite(P, D, C, ReportFailed, Some(7), [])
  const COMPLETING: Pc := CompleteRead(P, C, AfterReport([]))

  const LOOKING: Pc := ReportLookup(P, D, C, ReportFailed, Some(7), [])
  const GATING: Pc := ReportGate(P, D, C, ReportFailed, Some(7), [])

  lemma FailureIsAccepted()
    ensures StepOf(OFFERED, 0, LOOKING) == Move(NoWrite, GATING)
    ensures StepOf(OFFERED, 0, GATING) == Move(NoWrite, FAILING)
  {
  }

  lemma FailureIsWritten()
    ensures StepOf(OFFERED, 0, FAILING).pc == COMPLETING && Apply(OFFERED, StepOf(OFFERED, 0, FAILING).write) == REPORTED
  {
    ReportIsWritten();
  }

  /** Operation op goes from pc to next. */
  lemma GoesOn(events: seq<Event>, db: Db, ops: map<nat, Pc>, op: nat, pc: Pc, db': Db, next: Pc) returns (longer: seq<Event>)
    requires At(events, db, 0, ops[op := pc]) && !pc.Done?
    requires StepOf(db, 0, pc).pc == next && Apply(db, StepOf(db, 0, pc).write) == db'
    ensures At(longer, db', 0, ops[op := next])
  {
    longer := TakeStep(events, db, 0, ops[op := pc], op);
    assert ops[op := pc][op := next] == ops[op := next];
  }

  lemma FailureGoesOn(events: seq<Event>, ops: map<nat, Pc>, op: nat) returns (longer: seq<Event>)
    requires At(events, OFFERED, 0, ops[op := LOOKING])
    ensures At(longer, REPORTED, 0, ops[op := COMPLETING])
  {
    FailureIsAccepted();
    FailureIsWritten();
    longer := GoesOn(events, OFFERED, ops, op, LOOKING, OFFERED, GATING);
    longer := GoesOn(longer, OFFERED, ops, op, GATING, OFFERED, FAILING);
    longer := GoesOn(longer, OFFERED, ops, op, FAILING, REPORTED, COMPLETING);
  }

  /** A failure report that has finished the one device and is about to try to complete the campaign. */
  lemma FailureWaits() returns (events: seq<Event>, ops: map<nat, Pc>, report: nat)
    ensures At(events, REPORTED, 0, ops) && report in ops && ops[report] == COMPLETING
    ensures forall op | op in ops && op != report :: ops[op].Done?
  {
    var acts := SetupReaches();
    events := HistoriesAreRuns(acts);
    var idle := EndOf(events).ops;
    report := FreshOp(idle);
    events := Extend(events, Begin(report, LOOKING));
    events := FailureGoesOn(events, idle, report);
    ops := idle[report := COMPLETING];
  }

  lemma PauseAndResume()
    ensures Perform(REPORTED, OPause(P, C), 0) == PAUSED && Perform(PAUSED, OResume(P, C), 0) == REPORTED
    ensures StepOf(PAUSED, 0, COMPLETING) == Move(NoWrite, Done(Reported([])))
  {
  }

  /** One whole operation beside whatever is in flight. */
  lemma Beside(events: seq<Event>, db: Db, ops: map<nat, Pc>, act: Operation, db': Db)
    returns (longer: seq<Event>, op: nat, out: Outcome)
    requires At(events, db, 0, ops) && !act.OOutside? && Perform(db, act, 0) == db'
    ensures op !in ops && At(longer, db', 0, ops[op := Done(out)])
  {
    op := FreshOp(ops);
    out := OutcomeOf(db, act, 0);
    EveryOperationRunsAlone(db, act, 0);
    longer := RunAlone(events, db, 0, ops, op, StartOf(act, 0), db', out);
  }

  /**
   The campaign is paused after the write that finishes its last device and resumed after that
   report's attempt to complete it: its firmware row is live, nothing is under way, every device is
   finished, and it stays active.
   */
  lemma {:induction false} FinishedWhilePaused() returns (events: seq<Event>)
    ensures IsRun(events) && Idle(EndOf(events).ops) && EndOf(events).db == REPORTED
    ensures REPORTED.campaigns[C].status.Active? && AllTerminal(REPORTED, C) && Assigned(REPORTED, C) != {}
    ensures FirmwareLive(REPORTED, F) && REPORTED.campaigns[C].firmware == F
  {
    PauseAndResume();
    var waiting, ops, report := FailureWaits();
    var paused, op, out := Beside(waiting, REPORTED, ops, OPause(P, C), PAUSED);
    ops := ops[op := Done(out)];
    var tried := TakeStep(paused, PAUSED, 0, ops, report);
    ops := ops[report := Done(Reported([]))];
    events, op, out := Beside(tried, PAUSED, ops, OResume(P, C), REPORTED);
    assert Target(C, D) in Assigned(REPORTED, C);
  }

  // ---------------------------------------------------------------------------
  // A campaign in a deleted project
  // ---------------------------------------------------------------------------

  const DRAFT: Campaign := NewCampaign(INPUT, 1, 0)

  /** A run in which operation 0 has got as far as pc and nothing has been written. */
  ghost predicate Underway(events: seq<Event>, pc: Pc) {
    IsRun(events) && var s := EndOf(events); s.db == STOCKED && s.clock == 0 && 0 in s.ops && s.ops[0] == pc
  }

  lemma ReadsOn(events: seq<Event>, pc: Pc, next: Pc) returns (longer: seq<Event>)
    requires Underway(events, pc) && !pc.Done? && StepOf(STOCKED, 0, pc) == Move(NoWrite, next)
    ensures Underway(longer, next)
  {
    longer := Extend(events, Run(0));
  }

  lemma ScopeOfStock()
    ensures DevicesInGroups(STOCKED, P, []) == {} && DevicesExplicit(STOCKED, P, [D]) == {D}
    ensures CompatibleDevices(STOCKED, P, {D}, {TYPE}) == {D} && ChosenFrom(INPUT, {D}) == [D]
  {
    ChosenFromIsSelection(INPUT, {D});
    OneDeviceChosen(ChosenFrom(INPUT, {D}));
  }

  const LISTING: Pc := CreateFromGroups(INPUT, C, {TYPE})
  const ADDING: Pc := CreateFromExplicit(INPUT, C, {TYPE}, {})
  const FILTERING: Pc := CreateFilter(INPUT, C, {TYPE}, {D})
  const INSERTING: Pc := CreateInsert(INPUT, C, DRAFT, [D])

  lemma ChecksPass()
    ensures StepOf(STOCKED, 0, CreateStart(INPUT, C)) == Move(NoWrite, CreateGroups(INPUT, C, 0))
    ensures StepOf(STOCKED, 0, CreateGroups(INPUT, C, 0)) == Move(NoWrite, CreateTypes(INPUT, C))
    ensures StepOf(STOCKED, 0, CreateTypes(INPUT, C)) == Move(NoWrite, LISTING)
  {
  }

  lemma DevicesAreFound()
    ensures StepOf(STOCKED, 0, LISTING) == Move(NoWrite, ADDING)
    ensures StepOf(STOCKED, 0, ADDING) == Move(NoWrite, FILTERING)
    ensures StepOf(STOCKED, 0, FILTERING) == Move(NoWrite, INSERTING)
  {
    ScopeOfStock();
    assert {} + DevicesExplicit(STOCKED, P, [D]) == {D};
  }

  lemma CreationBegins() returns (events: seq<Event>)
    ensures Underway(events, CreateStart(INPUT, C))
  {
    events := Extend([], Outside(STOCKED));
    events := Extend(events, Begin(0, CreateStart(INPUT, C)));
  }

  /** A creation that has checked everything and is about to insert. */
  lemma WaitingCreation() returns (events: seq<Event>)
    ensures Underway(events, INSERTING)
  {
    ChecksPass();
    DevicesAreFound();
    events := CreationBegins();
    events := ReadsOn(events, CreateStart(INPUT, C), CreateGroups(INPUT, C, 0));
    events := ReadsOn(events, CreateGroups(INPUT, C, 0), CreateTypes(INPUT, C));
    events := ReadsOn(events, CreateTypes(INPUT, C), LISTING);
    events := ReadsOn(events, LISTING, ADDING);
    events := ReadsOn(events, ADDING, FILTERING);
    events := ReadsOn(events, FILTERING, INSERTING);
  }

  const BURIED: Db := Projects.Delete(STOCKED, P)

  lemma DeletionIsOutside()
    ensures OutsideStep(STOCKED, BURIED) && BURIED.projects == map[P := Project(false, true)]
  {
    assert Projects.BlockingCampaigns(STOCKED, P) == {};
  }

  lemma InsertsIntoBuried()
    ensures StepOf(BURIED, 0, INSERTING).write == WBundle(C, DRAFT, [], [D], [D])
    ensures Apply(BURIED, WBundle(C, DRAFT, [], [D], [D])) == InsertBundle(BURIED, C, DRAFT, [D])
  {
    DeletionIsOutside();
  }

  /**
   A project deleted between a creation's first check and its insert ends up with an active campaign:
   the gating law of Projects needs whole operations.
   */
  lemma ProjectDeletedDuringCreation() returns (events: seq<Event>)
    ensures IsRun(events)
    ensures var db := EndOf(events).db;
            P in db.projects && db.projects[P].deleted
            && C in db.campaigns && db.campaigns[C].project == P && db.campaigns[C].status.Active?
  {
    var waiting := WaitingCreation();
    DeletionIsOutside();
    InsertsIntoBuried();
    var deleted := Extend(waiting, Outside(BURIED));
    events := Extend(deleted, Run(0));
  }
}
