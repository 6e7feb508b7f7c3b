/**
 Finished campaigns that are never completed, exactly.

 Every operation that may finish a device goes on to try to complete the campaign: it reads the
 campaign, counts, and marks. Both the reading and the marking give up when the campaign is not
 active. Operators may pause and resume in between, so a finished campaign can be left uncompleted
 although its firmware row is live. These theorems say, for every run, when that is so.
 */
module Stranding {
  import opened Basics
  import opened CampaignState
  import opened Tables
  import opened Queries
  import opened Evolution
  import opened Machine
  import opened System
  import opened Interference
  import AssignmentHistory
  import CompletionSafety
  import Conservation
  import Provenance
  import Refinement

  /** Every device of an existing campaign is installed or failed. */
  predicate FinishedIn(db: Db, c: Id) {
    c in db.campaigns && AllTerminal(db, c)
  }

  predicate StatusIn(db: Db, c: Id, statuses: set<CampaignStatus>) {
    c in db.campaigns && db.campaigns[c].status in statuses
  }

  // ---------------------------------------------------------------------------
  // Attempts
  // ---------------------------------------------------------------------------

  /** The next step of pc decides on the campaign's status: the first or the last step of tryAutoComplete. */
  predicate Attempts(db: Db, pc: Pc, c: Id) {
    (pc.CompleteRead? || pc.CompleteMark?) && pc.c == c && CampaignIn(db, pc.p, c)
  }

  ghost predicate AttemptAt(events: seq<Event>, k: nat, c: Id)
    requires IsRun(events) && k < |events|
  {
    var s := StateAt(events, k);
    events[k].Run? && events[k].op in s.ops && Attempts(s.db, s.ops[events[k].op], c)
  }

  ghost predicate LastAttempt(events: seq<Event>, n: nat, k: nat, c: Id)
    requires IsRun(events) && n <= |events|
  {
    k < n && AttemptAt(events, k, c) && forall j | k < j < n :: !AttemptAt(events, j, c)
  }

  lemma {:induction false} LastAttemptExists(events: seq<Event>, n: nat, k: nat, c: Id) returns (m: nat)
    requires IsRun(events) && k < n <= |events| && AttemptAt(events, k, c)
    ensures k <= m && LastAttempt(events, n, m, c)
    decreases n
  {
    if AttemptAt(events, n - 1, c) {
      m := n - 1;
    } else {
      m := LastAttemptExists(events, n - 1, k, c);
    }
  }

  lemma {:induction false} FinishedStays(events: seq<Event>, i: nat, j: nat, c: Id)
    requires IsRun(events) && i <= j <= |events| && FinishedIn(StateAt(events, i).db, c)
    ensures FinishedIn(StateAt(events, j).db, c)
  {
    StateAtEvolves(events, i, j);
    CompletionSafety.AllTerminalIsStable(StateAt(events, i).db, StateAt(events, j).db, c);
  }

  lemma {:induction false} CompletedStays(events: seq<Event>, i: nat, j: nat, c: Id)
    requires IsRun(events) && i <= j <= |events| && StatusIn(StateAt(events, i).db, c, {Completed})
    ensures StatusIn(StateAt(events, j).db, c, {Completed})
  {
    StateAtEvolves(events, i, j);
  }

  // ---------------------------------------------------------------------------
  // Completion is always the work of an attempt
  // ---------------------------------------------------------------------------

  lemma {:induction false} SafeAt(events: seq<Event>, n: nat)
    requires IsRun(events) && n <= |events|
    ensures CompletionSafety.Safe(StateAt(events, n))
  {
    PrefixIsRun(events, n);
    CompletionSafety.RunsAreSafe(events[..n]);
  }

  lemma OthersDoNotMark(db: Db, clock: Time, pc: Pc)
    requires !pc.Done? && !Completing(pc)
    ensures !StepOf(db, clock, pc).write.WComplete?
  {
  }

  lemma MarksAreAttempts(db: Db, clock: Time, pc: Pc, c: Id)
    requires !pc.Done? && StepOf(db, clock, pc).write.WComplete? && StepOf(db, clock, pc).write.c == c
    requires StatusIn(Apply(db, StepOf(db, clock, pc).write), c, {Completed}) && !StatusIn(db, c, {Completed})
    ensures pc.CompleteMark? && Attempts(db, pc, c) && StatusIn(db, c, {Active})
  {
    if !Completing(pc) {
      OthersDoNotMark(db, clock, pc);
    }
  }

  lemma CompletionIsAnAttempt(s: Sys, e: Event, c: Id)
    requires Enabled(s, e) && CompletionSafety.Safe(s)
    requires StatusIn(Execute(s, e).db, c, {Completed}) && !StatusIn(s.db, c, {Completed})
    ensures e.Run? && Attempts(s.db, s.ops[e.op], c) && StatusIn(s.db, c, {Active}) && FinishedIn(s.db, c)
  {
    if e.Run? {
      var pc := s.ops[e.op];
      CompletionSafety.DecisionsAreJustified(s.db, s.clock, pc);
      CompletionSafety.OnlyMarkingCompletes(s.db, StepOf(s.db, s.clock, pc).write, c);
      MarksAreAttempts(s.db, s.clock, pc, c);
      assert CompletionSafety.Knows(s.db, pc);
    }
  }

  /** The event is an attempt that meets the campaign active and finished, and completes it. */
  ghost predicate CompletesAt(events: seq<Event>, k: nat, c: Id)
    requires IsRun(events) && k < |events|
  {
    && AttemptAt(events, k, c) && FinishedIn(StateAt(events, k).db, c)
    && StatusIn(StateAt(events, k).db, c, {Active}) && StatusIn(StateAt(events, k + 1).db, c, {Completed})
  }

  lemma {:induction false} TurningCompleted(events: seq<Event>, k: nat, c: Id)
    requires IsRun(events) && k < |events|
    requires StatusIn(StateAt(events, k + 1).db, c, {Completed}) && !StatusIn(StateAt(events, k).db, c, {Completed})
    ensures CompletesAt(events, k, c)
  {
    StateAtSteps(events, k);
    SafeAt(events, k);
    CompletionIsAnAttempt(StateAt(events, k), events[k], c);
  }

  lemma {:induction false} CompletedByAnAttempt(events: seq<Event>, n: nat, c: Id) returns (k: nat)
    requires IsRun(events) && n <= |events| && StatusIn(StateAt(events, n).db, c, {Completed})
    ensures k < n && CompletesAt(events, k, c)
  {
    if n > 0 {
      if StatusIn(StateAt(events, n - 1).db, c, {Completed}) {
        k := CompletedByAnAttempt(events, n - 1, c);
      } else {
        k := n - 1;
        TurningCompleted(events, k, c);
      }
    }
  }

  // ---------------------------------------------------------------------------
  // An attempt that starts on an active, finished campaign goes on to mark it
  // ---------------------------------------------------------------------------

  lemma {:induction false} CountedAt(events: seq<Event>, n: nat)
    requires IsRun(events) && n <= |events|
    ensures Conservation.Counted(StateAt(events, n))
  {
    PrefixIsRun(events, n);
    Conservation.RunsAreCounted(events[..n]);
  }

  /** Past its first reading, and bound to reach the marking. */
  predicate Marking(db: Db, pc: Pc, c: Id) {
    ((pc.CompleteCount? && pc.target > 0) || pc.CompleteMark?) && pc.c == c && CampaignIn(db, pc.p, c)
  }

  lemma ReadingStartsMarking(db: Db, clock: Time, pc: Pc, c: Id)
    requires pc.CompleteRead? && Attempts(db, pc, c) && StatusIn(db, c, {Active}) && db.campaigns[c].target > 0
    ensures Marking(db, CompleteMove(db, clock, pc).pc, c) && CompleteMove(db, clock, pc).write == NoWrite
  {
  }

  lemma CountingGoesOn(db: Db, clock: Time, pc: Pc, c: Id)
    requires Marking(db, pc, c) && pc.CompleteCount? && FinishedIn(db, c)
    ensures Marking(db, CompleteMove(db, clock, pc).pc, c) && CompleteMove(db, clock, pc).write == NoWrite
  {
    Conservation.UnfinishedCounts(db, c);
    assert NonTerminal(db, c) == {};
  }

  ghost predicate MarkingAt(events: seq<Event>, n: nat, op: nat, c: Id)
    requires IsRun(events) && n <= |events|
  {
    op in StateAt(events, n).ops && Marking(StateAt(events, n).db, StateAt(events, n).ops[op], c)
  }

  lemma MarkingIsStable(a: Db, b: Db, pc: Pc, c: Id)
    requires Evolves(a, b) && Marking(a, pc, c)
    ensures Marking(b, pc, c)
  {
  }

  lemma {:induction false} MarkingStaysOn(events: seq<Event>, k: nat, op: nat, c: Id)
    requires IsRun(events) && k < |events| && MarkingAt(events, k, op, c) && FinishedIn(StateAt(events, k).db, c)
    requires !AttemptAt(events, k, c)
    ensures MarkingAt(events, k + 1, op, c)
  {
    StateAtSteps(events, k);
    StateAtEvolves(events, k, k + 1);
    var s, s' := StateAt(events, k), StateAt(events, k + 1);
    if events[k] == Run(op) {
      CountingGoesOn(s.db, s.clock, s.ops[op], c);
    }
    assert op in s'.ops;
    MarkingIsStable(s.db, s'.db, s'.ops[op], c);
  }

  lemma {:induction false} MarkingLasts(events: seq<Event>, i: nat, n: nat, op: nat, c: Id)
    requires IsRun(events) && i <= n <= |events| && MarkingAt(events, i, op, c) && FinishedIn(StateAt(events, i).db, c)
    requires forall j | i <= j < n :: !AttemptAt(events, j, c)
    ensures MarkingAt(events, n, op, c)
    decreases n
  {
    if i < n {
      MarkingLasts(events, i, n - 1, op, c);
      FinishedStays(events, i, n - 1, c);
      MarkingStaysOn(events, n - 1, op, c);
    }
  }

  /** A first reading of an active, finished campaign is followed by another attempt or still under way. */
  lemma {:induction false} ReadingGoesOn(events: seq<Event>, k: nat, n: nat, c: Id)
    requires IsRun(events) && k < n <= |events|
    requires AttemptAt(events, k, c) && StateAt(events, k).ops[events[k].op].CompleteRead?
    requires FinishedIn(StateAt(events, k).db, c) && StatusIn(StateAt(events, k).db, c, {Active})
    requires forall j | k < j < n :: !AttemptAt(events, j, c)
    ensures MarkingAt(events, n, events[k].op, c)
  {
    var s, op := StateAt(events, k), events[k].op;
    StateAtSteps(events, k);
    CountedAt(events, k);
    assert Conservation.TargetCounted(s.db, c);
    ReadingStartsMarking(s.db, s.clock, s.ops[op], c);
    FinishedStays(events, k, k + 1, c);
    MarkingLasts(events, k + 1, n, op, c);
  }

  /** The last attempt before an idle point did not stop at a first reading of an active, finished campaign. */
  lemma {:induction false} LastAttemptsMark(events: seq<Event>, n: nat, k: nat, c: Id)
    requires IsRun(events) && n <= |events| && Refinement.Idle(StateAt(events, n).ops)
    requires LastAttempt(events, n, k, c) && FinishedIn(StateAt(events, k).db, c) && StatusIn(StateAt(events, k).db, c, {Active})
    ensures StatusIn(StateAt(events, k + 1).db, c, {Completed})
  {
    if StateAt(events, k).ops[events[k].op].CompleteRead? {
      ReadingGoesOn(events, k, n, c);
    } else {
      StateAtSteps(events, k);
    }
  }

  // ---------------------------------------------------------------------------
  // Whoever finishes a device owes an attempt
  // ---------------------------------------------------------------------------

  /** The operation will come to its attempt, unless the firmware row is gone. */
  predicate Owes(db: Db, pc: Pc, c: Id) {
    (pc.CompleteRead? || pc.ReportCampaign? || pc.ReportFirmware? || pc.ReportTouch?)
    && pc.c == c && CampaignIn(db, pc.p, c)
    && (pc.ReportFirmware? ==> pc.f == db.campaigns[c].firmware)
  }

  lemma OwingIsStable(a: Db, b: Db, pc: Pc, c: Id)
    requires Evolves(a, b) && Owes(a, pc, c)
    ensures Owes(b, pc, c)
  {
  }

  lemma OwingGoesOn(db: Db, clock: Time, pc: Pc, c: Id)
    requires Owes(db, pc, c) && !pc.CompleteRead? && FirmwareIn(db, pc.p, db.campaigns[c].firmware)
    ensures Owes(db, ReportMove(db, clock, pc).pc, c)
  {
  }

  /** A write that leaves an assignment terminal is followed by an attempt. */
  lemma FinishersOwe(db: Db, clock: Time, pc: Pc, t: Target)
    requires !pc.Done? && t in db.assignments && Overwrites(db, pc, t) && CampaignIn(db, pc.p, t.campaign)
    requires !TerminalAssignment(db.assignments[t].status)
    requires t in Apply(db, StepOf(db, clock, pc).write).assignments
    requires TerminalAssignment(Apply(db, StepOf(db, clock, pc).write).assignments[t].status)
    ensures Owes(db, StepOf(db, clock, pc).pc, t.campaign)
  {
  }

  /** An unfinished campaign becomes finished only by the write of an operation that then owes an attempt. */
  lemma {:induction false} FinishingOwes(events: seq<Event>, k: nat, c: Id)
    requires IsRun(events) && k < |events| && c in StateAt(events, k).db.campaigns
    requires !FinishedIn(StateAt(events, k).db, c) && FinishedIn(StateAt(events, k + 1).db, c)
    ensures Owed(StateAt(events, k + 1), c)
  {
    StateAtSteps(events, k);
    StateAtEvolves(events, k, k + 1);
    var s, e := StateAt(events, k), events[k];
    var t :| t in s.db.assignments && t.campaign == c && !TerminalAssignment(s.db.assignments[t].status);
    RowChangesExactly(s, e, t);
    var i := WritersSawActive(events, k, e.op);
    StateAtEvolves(events, i, k);
    FinishersOwe(s.db, s.clock, s.ops[e.op], t);
    OwingIsStable(s.db, StateAt(events, k + 1).db, StateAt(events, k + 1).ops[e.op], c);
  }

  ghost predicate Owed(s: Sys, c: Id) {
    exists op :: op in s.ops && Owes(s.db, s.ops[op], c)
  }

  lemma AddedRowsArePending(s: Sys, e: Event, t: Target)
    requires Enabled(s, e) && t in Execute(s, e).db.assignments && t !in s.db.assignments
    ensures Execute(s, e).db.assignments[t].status.Pending?
  {
    assert e.Run?;
    var w := StepOf(s.db, s.clock, s.ops[e.op]).write;
    Provenance.NewRows(s.db, w);
    AssignmentHistory.InsertedRowsArePending(s.db, w, t);
  }

  /** A campaign starts out unfinished. */
  lemma {:induction false} NewCampaignsAreUnfinished(events: seq<Event>, k: nat, c: Id)
    requires IsRun(events) && k < |events| && c !in StateAt(events, k).db.campaigns
    ensures !FinishedIn(StateAt(events, k + 1).db, c)
  {
    StateAtSteps(events, k);
    CountedAt(events, k);
    CountedAt(events, k + 1);
    var s, s' := StateAt(events, k), StateAt(events, k + 1);
    if c in s'.db.campaigns {
      assert Conservation.TargetCounted(s'.db, c);
      var t :| t in Assigned(s'.db, c);
      AddedRowsArePending(s, events[k], t);
    }
  }

  // ---------------------------------------------------------------------------
  // With a live firmware row the attempt is made
  // ---------------------------------------------------------------------------

  ghost predicate Attempted(events: seq<Event>, n: nat, c: Id)
    requires IsRun(events) && n <= |events|
  {
    exists k :: 0 <= k < n && AttemptAt(events, k, c) && FinishedIn(StateAt(events, k).db, c)
  }

  /** The firmware of an assigned campaign is of its project, and its row once gone stays gone. */
  lemma {:induction false} FirmwareWasLive(events: seq<Event>, k: nat, n: nat, c: Id)
    requires IsRun(events) && k <= n <= |events| && c in StateAt(events, k).db.campaigns
    requires FirmwareLive(StateAt(events, n).db, StateAt(events, k).db.campaigns[c].firmware)
    ensures var row := StateAt(events, k).db.campaigns[c]; FirmwareIn(StateAt(events, k).db, row.project, row.firmware)
  {
    PrefixIsRun(events, k);
    Provenance.RunsAreTraceable(events[..k]);
    CountedAt(events, k);
    StateAtEvolves(events, k, n);
    var db := StateAt(events, k).db;
    assert Conservation.TargetCounted(db, c);
    var t :| t in Assigned(db, c);
  }

  /** Live firmware at the end: the campaign's row has it, and has had it all along. */
  ghost predicate LiveAt(events: seq<Event>, n: nat, c: Id)
    requires IsRun(events) && n <= |events|
  {
    var db := StateAt(events, n).db;
    c in db.campaigns && FirmwareLive(db, db.campaigns[c].firmware)
  }

  lemma {:induction false} LiveBefore(events: seq<Event>, k: nat, c: Id)
    requires IsRun(events) && k < |events| && c in StateAt(events, k).db.campaigns && LiveAt(events, k + 1, c)
    ensures LiveAt(events, k, c)
    ensures var row := StateAt(events, k).db.campaigns[c]; FirmwareIn(StateAt(events, k).db, row.project, row.firmware)
  {
    StateAtEvolves(events, k, k + 1);
    FirmwareWasLive(events, k, k + 1, c);
  }

  lemma {:induction false} NewlyFinishedIsOwed(events: seq<Event>, k: nat, c: Id)
    requires IsRun(events) && k < |events|
    requires FinishedIn(StateAt(events, k + 1).db, c) && !FinishedIn(StateAt(events, k).db, c)
    ensures Owed(StateAt(events, k + 1), c)
  {
    if c !in StateAt(events, k).db.campaigns {
      NewCampaignsAreUnfinished(events, k, c);
    } else {
      FinishingOwes(events, k, c);
    }
  }

  lemma {:induction false} OwedUntilAttempted(events: seq<Event>, n: nat, c: Id)
    requires IsRun(events) && n <= |events| && FinishedIn(StateAt(events, n).db, c) && LiveAt(events, n, c)
    ensures Owed(StateAt(events, n), c) || Attempted(events, n, c)
  {
    if n > 0 {
      var k := n - 1;
      if FinishedIn(StateAt(events, k).db, c) {
        LiveBefore(events, k, c);
        OwedUntilAttempted(events, k, c);
        StillOwed(events, k, c);
      } else {
        NewlyFinishedIsOwed(events, k, c);
      }
    }
  }

  lemma {:induction false} StillOwed(events: seq<Event>, k: nat, c: Id)
    requires IsRun(events) && k < |events| && FinishedIn(StateAt(events, k).db, c)
    requires var row := StateAt(events, k).db.campaigns[c]; FirmwareIn(StateAt(events, k).db, row.project, row.firmware)
    requires Owed(StateAt(events, k), c) || Attempted(events, k, c)
    ensures Owed(StateAt(events, k + 1), c) || Attempted(events, k + 1, c)
  {
    if Attempted(events, k, c) {
      var i :| 0 <= i < k && AttemptAt(events, i, c) && FinishedIn(StateAt(events, i).db, c);
      assert 0 <= i < k + 1;
    } else {
      var op :| op in StateAt(events, k).ops && Owes(StateAt(events, k).db, StateAt(events, k).ops[op], c);
      if AttemptAt(events, k, c) {
        assert 0 <= k < k + 1;
      } else {
        OwingStaysOn(events, k, op, c);
      }
    }
  }

  lemma {:induction false} OwingStaysOn(events: seq<Event>, k: nat, op: nat, c: Id)
    requires IsRun(events) && k < |events| && FinishedIn(StateAt(events, k).db, c)
    requires var row := StateAt(events, k).db.campaigns[c]; FirmwareIn(StateAt(events, k).db, row.project, row.firmware)
    requires op in StateAt(events, k).ops && Owes(StateAt(events, k).db, StateAt(events, k).ops[op], c)
    requires !AttemptAt(events, k, c)
    ensures Owed(StateAt(events, k + 1), c)
  {
    var s, s' := StateAt(events, k), StateAt(events, k + 1);
    StateAtSteps(events, k);
    StateAtEvolves(events, k, k + 1);
    if events[k] == Run(op) {
      OwingGoesOn(s.db, s.clock, s.ops[op], c);
    }
    assert op in s'.ops;
    OwingIsStable(s.db, s'.db, s'.ops[op], c);
  }

  // ---------------------------------------------------------------------------
  // A touched assignment means a started campaign
  // ---------------------------------------------------------------------------

  /** The statuses an active campaign may lead to. */
  const STARTED: set<CampaignStatus> := {Active, Paused, Completed, Cancelled}

  lemma StartedStays(a: Db, b: Db, c: Id)
    requires Evolves(a, b) && StatusIn(a, c, STARTED)
    ensures StatusIn(b, c, STARTED)
  {
  }

  lemma {:induction false} TouchingMeansStarted(events: seq<Event>, k: nat, t: Target)
    requires IsRun(events) && k < |events|
    requires OverwrittenAt(events, k, t)
    ensures StatusIn(StateAt(events, k + 1).db, t.campaign, STARTED)
  {
    var i := WritersSawActive(events, k, events[k].op);
    StateAtEvolves(events, i, k + 1);
    StartedStays(StateAt(events, i).db, StateAt(events, k + 1).db, t.campaign);
  }

  lemma {:induction false} TouchedRowsStarted(events: seq<Event>, n: nat, t: Target)
    requires IsRun(events) && n <= |events|
    requires t in StateAt(events, n).db.assignments && !StateAt(events, n).db.assignments[t].status.Pending?
    ensures StatusIn(StateAt(events, n).db, t.campaign, STARTED)
  {
    if n > 0 {
      var s := StateAt(events, n - 1);
      if t !in s.db.assignments {
        StateAtSteps(events, n - 1);
        AddedRowsArePending(s, events[n - 1], t);
      } else if s.db.assignments[t].status.Pending? {
        OverwrittenExactly(events, n - 1, t);
        TouchingMeansStarted(events, n - 1, t);
      } else {
        TouchedRowsStarted(events, n - 1, t);
        StateAtEvolves(events, n - 1, n);
        StartedStays(s.db, StateAt(events, n).db, t.campaign);
      }
    }
  }

  lemma {:induction false} FinishedMeansStarted(events: seq<Event>, n: nat, c: Id)
    requires IsRun(events) && n <= |events| && FinishedIn(StateAt(events, n).db, c)
    ensures StatusIn(StateAt(events, n).db, c, STARTED)
  {
    CountedAt(events, n);
    assert Conservation.TargetCounted(StateAt(events, n).db, c);
    var t :| t in Assigned(StateAt(events, n).db, c);
    TouchedRowsStarted(events, n, t);
  }

  // ---------------------------------------------------------------------------
  // Main results
  // ---------------------------------------------------------------------------

  /** The last attempt on the campaign met it finished, in one of the statuses. */
  ghost predicate LastAttemptMet(events: seq<Event>, n: nat, c: Id, statuses: set<CampaignStatus>)
    requires IsRun(events) && n <= |events|
  {
    exists k: nat :: LastAttempt(events, n, k, c) && FinishedIn(StateAt(events, k).db, c) && StatusIn(StateAt(events, k).db, c, statuses)
  }

  lemma {:induction false} CompletedWasMet(events: seq<Event>, n: nat, c: Id)
    requires IsRun(events) && n <= |events| && StatusIn(StateAt(events, n).db, c, {Completed})
    ensures LastAttemptMet(events, n, c, {Active, Completed})
  {
    var k := CompletedByAnAttempt(events, n, c);
    var m := LastAttemptExists(events, n, k, c);
    FinishedStays(events, k, m, c);
    if k < m {
      CompletedStays(events, k + 1, m, c);
    }
  }

  /**
   Main result: whenever nothing is under way, a finished campaign is completed if and only if the
   last attempt on it met it finished and active, or completed already. Its firmware does not matter.
   */
  lemma {:induction false} FinishedIsCompletedExactly(events: seq<Event>, n: nat, c: Id)
    requires IsRun(events) && n <= |events| && Refinement.Idle(StateAt(events, n).ops)
    ensures StatusIn(StateAt(events, n).db, c, {Completed}) <==> LastAttemptMet(events, n, c, {Active, Completed})
  {
    if StatusIn(StateAt(events, n).db, c, {Completed}) {
      CompletedWasMet(events, n, c);
    }
    if LastAttemptMet(events, n, c, {Active, Completed}) {
      var k: nat :| LastAttempt(events, n, k, c) && FinishedIn(StateAt(events, k).db, c)
                    && StatusIn(StateAt(events, k).db, c, {Active, Completed});
      if StatusIn(StateAt(events, k).db, c, {Active}) {
        LastAttemptsMark(events, n, k, c);
        CompletedStays(events, k + 1, n, c);
      } else {
        CompletedStays(events, k, n, c);
      }
    }
  }

  lemma LastAttemptIsUnique(events: seq<Event>, n: nat, j: nat, k: nat, c: Id)
    requires IsRun(events) && n <= |events| && LastAttempt(events, n, j, c) && LastAttempt(events, n, k, c)
    ensures j == k
  {
  }

  lemma {:induction false} AttemptWasMade(events: seq<Event>, n: nat, c: Id) returns (m: nat)
    requires IsRun(events) && n <= |events| && Refinement.Idle(StateAt(events, n).ops)
    requires FinishedIn(StateAt(events, n).db, c)
    requires FirmwareLive(StateAt(events, n).db, StateAt(events, n).db.campaigns[c].firmware)
    ensures LastAttempt(events, n, m, c) && FinishedIn(StateAt(events, m).db, c)
  {
    OwedUntilAttempted(events, n, c);
    var k :| 0 <= k < n && AttemptAt(events, k, c) && FinishedIn(StateAt(events, k).db, c);
    m := LastAttemptExists(events, n, k, c);
    FinishedStays(events, k, m, c);
  }

  /**
   Main result: whenever nothing is under way, a finished campaign whose firmware row is live is left
   uncompleted if and only if the last attempt to complete it met it finished but paused or cancelled.
   */
  lemma {:induction false} StrandedExactly(events: seq<Event>, n: nat, c: Id)
    requires IsRun(events) && n <= |events| && Refinement.Idle(StateAt(events, n).ops)
    requires FinishedIn(StateAt(events, n).db, c)
    requires FirmwareLive(StateAt(events, n).db, StateAt(events, n).db.campaigns[c].firmware)
    ensures !StatusIn(StateAt(events, n).db, c, {Completed}) <==> LastAttemptMet(events, n, c, {Paused, Cancelled})
  {
    FinishedIsCompletedExactly(events, n, c);
    var m := AttemptWasMade(events, n, c);
    FinishedMeansStarted(events, m, c);
    if k: nat :| LastAttempt(events, n, k, c) && StatusIn(StateAt(events, k).db, c, {Paused, Cancelled}) {
      LastAttemptIsUnique(events, n, m, k, c);
    }
    if k: nat :| LastAttempt(events, n, k, c) && StatusIn(StateAt(events, k).db, c, {Active, Completed}) {
      LastAttemptIsUnique(events, n, m, k, c);
    }
  }
}
