/**
 What interleaving breaks, exactly.

 Two laws of whole operations that fail when operations overlap: a finished assignment may be
 rewritten, and a deleted project may gain a campaign. Each theorem here names the one kind of step
 that does it, for every run, and shows that the law holds in the runs without such a step and in no
 other. Stranding does the same for the law that finished campaigns are completed.
 */
module Interference {
  import opened Basics
  import opened CampaignState
  import opened Tables
  import opened Queries
  import opened Evolution
  import opened Machine
  import opened System
  import opened Projects
  import Conservation

  // ---------------------------------------------------------------------------
  // Assignments
  // ---------------------------------------------------------------------------

  /** The next step of pc rewrites the row: a guarded write whose guard holds, or the unguarded one. */
  predicate Overwrites(db: Db, pc: Pc, t: Target)
    requires t in db.assignments
  {
    || (pc.PollOffer? && Target(pc.row.campaign, pc.d) == t && db.assignments[t].status.Pending?)
    || (pc.ReportWrite? && Target(pc.c, pc.d) == t && db.assignments[t].status in From(pc.m)
        && db.assignments[t] != ReportRow(pc.m, pc.code, pc.msg))
    || (pc.HttpSet? && Target(pc.c, pc.d) == t && !db.assignments[t].status.Installed?)
  }

  /** The writes that reach existing assignments. */
  predicate ReachesRows(w: Write) {
    w.WOffer? || w.WReport? || w.WForce?
  }

  lemma OtherWritesLeaveRows(db: Db, w: Write, t: Target)
    requires t in db.assignments && !ReachesRows(w)
    ensures t in Apply(db, w).assignments && Apply(db, w).assignments[t] == db.assignments[t]
  {
    if w.WBundle? && BundleFits(db, w.c, w.groups, w.explicit, w.chosen) {
      assert t !in PendingRows(w.c, w.chosen);
    }
  }

  lemma PollsAndReportsReachRows(db: Db, clock: Time, pc: Pc)
    requires Polling(pc) || Reporting(pc)
    ensures ReachesRows(StepOf(db, clock, pc).write) ==> pc.PollOffer? || pc.ReportWrite?
  {
  }

  lemma OthersReachRows(db: Db, clock: Time, pc: Pc)
    requires Completing(pc) || Operating(pc) || Downloading(pc) || Creating(pc)
    ensures !ReachesRows(StepOf(db, clock, pc).write)
  {
  }

  lemma StepsReachRows(db: Db, clock: Time, pc: Pc)
    requires !pc.Done? && ReachesRows(StepOf(db, clock, pc).write)
    ensures pc.PollOffer? || pc.ReportWrite? || pc.HttpSet?
  {
    if Polling(pc) || Reporting(pc) {
      PollsAndReportsReachRows(db, clock, pc);
    } else if !HttpReporting(pc) {
      OthersReachRows(db, clock, pc);
    }
  }

  ghost predicate WritesExactly(db: Db, w: Write, pc: Pc, t: Target)
    requires t in db.assignments
  {
    t in Apply(db, w).assignments && (Apply(db, w).assignments[t] != db.assignments[t] <==> Overwrites(db, pc, t))
  }

  lemma OffersWriteExactly(db: Db, pc: Pc, t: Target)
    requires t in db.assignments && pc.PollOffer?
    ensures WritesExactly(db, PollMove(db, 0, pc).write, pc, t)
  {
  }

  lemma ReportsWriteExactly(db: Db, pc: Pc, t: Target)
    requires t in db.assignments && pc.ReportWrite?
    ensures WritesExactly(db, ReportMove(db, 0, pc).write, pc, t)
  {
  }

  lemma ForcingWritesExactly(db: Db, pc: Pc, t: Target)
    requires t in db.assignments && pc.HttpSet?
    ensures WritesExactly(db, WForce(pc.c, pc.d), pc, t)
  {
  }

  lemma StepsWriteExactly(db: Db, clock: Time, pc: Pc, t: Target)
    requires !pc.Done? && t in db.assignments
    ensures WritesExactly(db, StepOf(db, clock, pc).write, pc, t)
  {
    if pc.PollOffer? {
      OffersWriteExactly(db, pc, t);
    } else if pc.ReportWrite? {
      ReportsWriteExactly(db, pc, t);
    } else if pc.HttpSet? {
      ForcingWritesExactly(db, pc, t);
    } else {
      if ReachesRows(StepOf(db, clock, pc).write) {
        StepsReachRows(db, clock, pc);
      }
      OtherWritesLeaveRows(db, StepOf(db, clock, pc).write, t);
    }
  }

  /** An event changes an assignment exactly when it is one of the three writes and its guard holds. */
  lemma RowChangesExactly(s: Sys, e: Event, t: Target)
    requires Enabled(s, e) && t in s.db.assignments
    ensures t in Execute(s, e).db.assignments
    ensures Execute(s, e).db.assignments[t] != s.db.assignments[t] <==> e.Run? && Overwrites(s.db, s.ops[e.op], t)
  {
    if e.Run? {
      StepsWriteExactly(s.db, s.clock, s.ops[e.op], t);
    }
  }

  /** The event is the unguarded write of a version report about to install t. */
  predicate Forces(s: Sys, e: Event, t: Target) {
    e.Run? && e.op in s.ops && s.ops[e.op].HttpSet? && Target(s.ops[e.op].c, s.ops[e.op].d) == t
  }

  predicate HasStatus(db: Db, t: Target, status: AssignmentStatus) {
    t in db.assignments && db.assignments[t].status == status
  }

  /** A failed assignment stops being failed exactly when a version report forces it. */
  lemma FailureIsLeftExactlyByForcing(s: Sys, e: Event, t: Target)
    requires Enabled(s, e) && HasStatus(s.db, t, Failed)
    ensures !HasStatus(Execute(s, e).db, t, Failed) <==> Forces(s, e, t)
    ensures Forces(s, e, t) ==> HasStatus(Execute(s, e).db, t, Installed)
  {
    RowChangesExactly(s, e, t);
  }

  lemma InstalledIsNeverLeft(a: Db, b: Db, t: Target)
    requires Evolves(a, b) && HasStatus(a, t, Installed)
    ensures HasStatus(b, t, Installed)
  {
    assert Rank(a.assignments[t].status) <= Rank(b.assignments[t].status);
  }

  ghost predicate ForcedBetween(events: seq<Event>, i: nat, j: nat, t: Target)
    requires IsRun(events) && i <= j <= |events|
  {
    exists k :: i <= k < j && Forces(StateAt(events, k), events[k], t)
  }

  lemma {:induction false} ForcedOneMore(events: seq<Event>, i: nat, j: nat, t: Target)
    requires IsRun(events) && i <= j < |events|
    ensures ForcedBetween(events, i, j + 1, t) <==> ForcedBetween(events, i, j, t) || Forces(StateAt(events, j), events[j], t)
  {
    if ForcedBetween(events, i, j, t) {
      var k :| i <= k < j && Forces(StateAt(events, k), events[k], t);
      assert i <= k < j + 1;
    }
  }

  ghost predicate FailedOrForced(db: Db, t: Target, forced: bool) {
    if forced then HasStatus(db, t, Installed) else HasStatus(db, t, Failed)
  }

  lemma FailedOrForcedStep(s: Sys, e: Event, t: Target, forced: bool)
    requires Enabled(s, e) && FailedOrForced(s.db, t, forced)
    ensures FailedOrForced(Execute(s, e).db, t, forced || Forces(s, e, t))
  {
    if forced {
      EveryStepGuarantees(s, e);
      InstalledIsNeverLeft(s.db, Execute(s, e).db, t);
    } else {
      FailureIsLeftExactlyByForcing(s, e, t);
    }
  }

  /** Failed until forced, installed from then on. */
  ghost predicate FailsUntilForced(events: seq<Event>, i: nat, j: nat, t: Target)
    requires IsRun(events) && i <= j <= |events|
  {
    FailedOrForced(StateAt(events, j).db, t, ForcedBetween(events, i, j, t))
  }

  lemma {:induction false} OneMoreEvent(events: seq<Event>, i: nat, j: nat, t: Target)
    requires IsRun(events) && i <= j < |events| && FailsUntilForced(events, i, j, t)
    ensures FailsUntilForced(events, i, j + 1, t)
  {
    StateAtSteps(events, j);
    FailedOrForcedStep(StateAt(events, j), events[j], t, ForcedBetween(events, i, j, t));
    ForcedOneMore(events, i, j, t);
  }

  lemma {:induction false} FailureLastsUntilForced(events: seq<Event>, i: nat, j: nat, t: Target)
    requires IsRun(events) && i <= j <= |events| && FailsUntilForced(events, i, i, t)
    ensures FailsUntilForced(events, i, j, t)
    decreases j
  {
    if i < j {
      var k := j - 1;
      FailureLastsUntilForced(events, i, k, t);
      assert FailsUntilForced(events, i, k + 1, t) by {
        OneMoreEvent(events, i, k, t);
      }
    }
  }

  /**
   Main result: between any two points of any run an installed or failed assignment keeps its status,
   except exactly when it was failed and a version report, decided before the failure, forced it.
   */
  lemma {:induction false} TerminalStatusIsKeptExactly(events: seq<Event>, i: nat, j: nat, t: Target, status: AssignmentStatus)
    requires IsRun(events) && i <= j <= |events|
    requires TerminalAssignment(status) && HasStatus(StateAt(events, i).db, t, status)
    ensures HasStatus(StateAt(events, j).db, t, status) <==> !(status.Failed? && ForcedBetween(events, i, j, t))
  {
    if status.Failed? {
      FailureLastsUntilForced(events, i, j, t);
    } else {
      StateAtEvolves(events, i, j);
      InstalledIsNeverLeft(StateAt(events, i).db, StateAt(events, j).db, t);
    }
  }

  ghost predicate OverwrittenAt(events: seq<Event>, k: nat, t: Target)
    requires IsRun(events) && k < |events|
  {
    var s := StateAt(events, k);
    t in s.db.assignments && events[k].Run? && events[k].op in s.ops && Overwrites(s.db, s.ops[events[k].op], t)
  }

  predicate SameRow(a: Db, b: Db, t: Target) {
    t in a.assignments && t in b.assignments && a.assignments[t] == b.assignments[t]
  }

  lemma {:induction false} OverwrittenExactly(events: seq<Event>, k: nat, t: Target)
    requires IsRun(events) && k < |events| && t in StateAt(events, k).db.assignments
    ensures SameRow(StateAt(events, k).db, StateAt(events, k + 1).db, t) <==> !OverwrittenAt(events, k, t)
  {
    StateAtSteps(events, k);
    RowChangesExactly(StateAt(events, k), events[k], t);
  }

  /** An assignment stays untouched through a stretch of a run if and only if no such write falls in it. */
  lemma {:induction false} RowIsFrozenExactly(events: seq<Event>, i: nat, j: nat, t: Target)
    requires IsRun(events) && i <= j <= |events| && t in StateAt(events, i).db.assignments
    ensures (forall k | i <= k <= j :: SameRow(StateAt(events, i).db, StateAt(events, k).db, t)) <==>
            (forall k | i <= k < j :: !OverwrittenAt(events, k, t))
  {
    if forall k | i <= k < j :: !OverwrittenAt(events, k, t) {
      forall k | i <= k <= j
        ensures SameRow(StateAt(events, i).db, StateAt(events, k).db, t)
      {
        UnwrittenRowStays(events, i, k, t);
      }
    }
    if forall k | i <= k <= j :: SameRow(StateAt(events, i).db, StateAt(events, k).db, t) {
      forall k | i <= k < j
        ensures !OverwrittenAt(events, k, t)
      {
        assert SameRow(StateAt(events, i).db, StateAt(events, k).db, t);
        assert SameRow(StateAt(events, i).db, StateAt(events, k + 1).db, t);
        OverwrittenExactly(events, k, t);
      }
    }
  }

  lemma {:induction false} UnwrittenRowStays(events: seq<Event>, i: nat, j: nat, t: Target)
    requires IsRun(events) && i <= j <= |events| && t in StateAt(events, i).db.assignments
    requires forall k | i <= k < j :: !OverwrittenAt(events, k, t)
    ensures SameRow(StateAt(events, i).db, StateAt(events, j).db, t)
    decreases j
  {
    if i < j {
      UnwrittenRowStays(events, i, j - 1, t);
      OverwrittenExactly(events, j - 1, t);
    }
  }

  /** Which campaign a waiting write is about. */
  function WritesTo(pc: Pc): Option<Id> {
    if pc.PollOffer? then Some(pc.row.campaign)
    else if pc.ReportWrite? || pc.HttpSet? then Some(pc.c)
    else None
  }

  ghost predicate SawActive(db: Db, pc: Pc) {
    WritesTo(pc).Some? ==> CampaignIs(db, pc.p, WritesTo(pc).value, {Active})
  }

  lemma PollsSawActive(db: Db, clock: Time, pc: Pc)
    requires Polling(pc)
    ensures SawActive(db, PollMove(db, clock, pc).pc)
  {
  }

  lemma HttpSawActive(db: Db, pc: Pc)
    requires HttpReporting(pc)
    ensures SawActive(db, HttpMove(db, pc).pc)
  {
  }

  lemma ReportsSawActive(db: Db, clock: Time, pc: Pc)
    requires Reporting(pc)
    ensures SawActive(db, ReportMove(db, clock, pc).pc)
  {
  }

  lemma CompletionsWaitForNothing(db: Db, clock: Time, pc: Pc)
    requires Completing(pc)
    ensures WritesTo(CompleteMove(db, clock, pc).pc).None?
  {
  }

  lemma CreationsWaitForNothing(db: Db, clock: Time, pc: Pc)
    requires Creating(pc)
    ensures WritesTo(CreateMove(db, clock, pc).pc).None?
  {
  }

  lemma OthersWaitForNothing(db: Db, clock: Time, pc: Pc)
    requires Completing(pc) || Operating(pc) || Downloading(pc) || Creating(pc)
    ensures WritesTo(StepOf(db, clock, pc).pc).None?
  {
    if Completing(pc) {
      CompletionsWaitForNothing(db, clock, pc);
    } else if Creating(pc) {
      CreationsWaitForNothing(db, clock, pc);
    }
  }

  lemma WaitingWritesSawActive(db: Db, clock: Time, pc: Pc)
    requires !pc.Done?
    ensures SawActive(db, StepOf(db, clock, pc).pc)
  {
    if Polling(pc) {
      PollsSawActive(db, clock, pc);
    } else if HttpReporting(pc) {
      HttpSawActive(db, pc);
    } else if Reporting(pc) {
      ReportsSawActive(db, clock, pc);
    } else {
      OthersWaitForNothing(db, clock, pc);
    }
  }

  /** Whoever rewrites an assignment read its campaign, in the right project, as active earlier in the run. */
  lemma {:induction false} WritersSawActive(events: seq<Event>, n: nat, op: nat) returns (k: nat)
    requires IsRun(events) && n <= |events| && op in StateAt(events, n).ops && WritesTo(StateAt(events, n).ops[op]).Some?
    ensures k < n && events[k] == Run(op)
    ensures SawActive(StateAt(events, k).db, StateAt(events, n).ops[op])
  {
    k := LastMove(events, n, op);
    StateAtSteps(events, k);
    var s := StateAt(events, k);
    if events[k].Run? {
      WaitingWritesSawActive(s.db, s.clock, s.ops[op]);
    }
  }

  // ---------------------------------------------------------------------------
  // Deleted projects
  // ---------------------------------------------------------------------------

  /** The event inserts a new campaign of the project. */
  ghost predicate InsertsInto(s: Sys, e: Event, p: Id) {
    e.Run? && e.op in s.ops && s.ops[e.op].CreateInsert? && s.ops[e.op].draft.project == p
    && BundleFits(s.db, s.ops[e.op].c, s.ops[e.op].input.groups, s.ops[e.op].input.explicit, s.ops[e.op].chosen)
  }

  ghost predicate DraftUnfinished(pc: Pc) {
    pc.CreateInsert? ==> IsBlockingProjectDelete(pc.draft.status)
  }

  lemma CreationDraftsAreUnfinished(db: Db, clock: Time, pc: Pc)
    requires Creating(pc)
    ensures DraftUnfinished(CreateMove(db, clock, pc).pc)
  {
  }

  /** Only creations wait to insert, and only they insert. */
  lemma OthersInsertNothing(db: Db, clock: Time, pc: Pc)
    requires !pc.Done? && !Creating(pc)
    ensures !StepOf(db, clock, pc).pc.CreateInsert? && !StepOf(db, clock, pc).write.WBundle?
  {
    if Polling(pc) || Reporting(pc) {
      RolloutInsertsNothing(db, clock, pc);
    }
  }

  lemma RolloutInsertsNothing(db: Db, clock: Time, pc: Pc)
    requires Polling(pc) || Reporting(pc)
    ensures !StepOf(db, clock, pc).pc.CreateInsert? && !StepOf(db, clock, pc).write.WBundle?
  {
  }

  lemma DraftsAreUnfinished(db: Db, clock: Time, pc: Pc)
    requires !pc.Done?
    ensures DraftUnfinished(StepOf(db, clock, pc).pc)
  {
    if Creating(pc) {
      CreationDraftsAreUnfinished(db, clock, pc);
    } else {
      OthersInsertNothing(db, clock, pc);
    }
  }

  lemma InsertsComeFromCreations(db: Db, clock: Time, pc: Pc)
    requires !pc.Done? && StepOf(db, clock, pc).write.WBundle?
    ensures pc.CreateInsert? && StepOf(db, clock, pc).write == WBundle(pc.c, pc.draft, pc.input.groups, pc.input.explicit, pc.chosen)
  {
    if !Creating(pc) {
      OthersInsertNothing(db, clock, pc);
    }
  }

  lemma {:induction false} WaitingDraftsAreUnfinished(events: seq<Event>, n: nat, op: nat)
    requires IsRun(events) && n <= |events| && op in StateAt(events, n).ops && StateAt(events, n).ops[op].CreateInsert?
    ensures IsBlockingProjectDelete(StateAt(events, n).ops[op].draft.status)
  {
    var k := LastMove(events, n, op);
    StateAtSteps(events, k);
    var s := StateAt(events, k);
    if events[k].Run? {
      DraftsAreUnfinished(s.db, s.clock, s.ops[op]);
    }
  }

  lemma NewCampaignsAreInserted(s: Sys, e: Event, c: Id)
    requires Enabled(s, e) && c in Execute(s, e).db.campaigns && c !in s.db.campaigns
    ensures InsertsInto(s, e, Execute(s, e).db.campaigns[c].project)
  {
    assert e.Run?;
    Conservation.OnlyBundlesCreate(s.db, StepOf(s.db, s.clock, s.ops[e.op]).write, c);
    InsertsComeFromCreations(s.db, s.clock, s.ops[e.op]);
  }

  lemma InsertionBlocks(s: Sys, e: Event, p: Id)
    requires Enabled(s, e) && InsertsInto(s, e, p) && IsBlockingProjectDelete(s.ops[e.op].draft.status)
    ensures s.ops[e.op].c in BlockingCampaigns(Execute(s, e).db, p)
  {
  }

  lemma FinishedStaysFinished(a: Db, b: Db, p: Id)
    requires CampaignsStep(a, b) && BlockingCampaigns(a, p) == {}
    ensures forall c | c in BlockingCampaigns(b, p) :: c !in a.campaigns
  {
    forall c | c in BlockingCampaigns(b, p)
      ensures c !in a.campaigns
    {
      assert c !in BlockingCampaigns(a, p);
    }
  }

  /** An unfinished campaign appears in a project that has none exactly when a creation inserts it. */
  lemma {:induction false} BlockingAppearsExactlyByInsertion(events: seq<Event>, n: nat, e: Event, p: Id)
    requires IsRun(events) && n <= |events| && Enabled(StateAt(events, n), e)
    requires BlockingCampaigns(StateAt(events, n).db, p) == {}
    ensures BlockingCampaigns(Execute(StateAt(events, n), e).db, p) != {} <==> InsertsInto(StateAt(events, n), e, p)
  {
    var s := StateAt(events, n);
    EveryStepGuarantees(s, e);
    FinishedStaysFinished(s.db, Execute(s, e).db, p);
    if BlockingCampaigns(Execute(s, e).db, p) != {} {
      var c :| c in BlockingCampaigns(Execute(s, e).db, p);
      NewCampaignsAreInserted(s, e, c);
    }
    if InsertsInto(s, e, p) {
      WaitingDraftsAreUnfinished(events, n, e.op);
      InsertionBlocks(s, e, p);
    }
  }

  /** Deletion is one transaction: it finds no unfinished campaign, and nothing undoes it. */
  ghost predicate DeletesCleanly(a: Db, b: Db) {
    && (forall p | Buried(a, p) :: Buried(b, p))
    && (forall p | Buried(b, p) && !Buried(a, p) :: BlockingCampaigns(a, p) == {})
  }

  /** Delete, the operation of Projects, is such a change. */
  lemma DeletionIsClean(db: Db, p: Id)
    ensures DeletesCleanly(db, Delete(db, p))
  {
  }

  ghost predicate CleanDeletions(events: seq<Event>)
    requires IsRun(events)
  {
    forall k | 0 <= k < |events| && events[k].Outside? :: DeletesCleanly(StateAt(events, k).db, events[k].db)
  }

  lemma WritesKeepProjects(db: Db, w: Write)
    ensures Apply(db, w).projects == db.projects
  {
  }

  lemma ProjectsChangeOutsideOnly(s: Sys, e: Event, p: Id)
    requires Enabled(s, e) && !e.Outside?
    ensures Buried(Execute(s, e).db, p) <==> Buried(s.db, p)
  {
    if e.Run? {
      WritesKeepProjects(s.db, StepOf(s.db, s.clock, s.ops[e.op]).write);
    }
  }

  /** The project is deleted at that point although one of its campaigns is unfinished. */
  ghost predicate Haunted(events: seq<Event>, k: nat, p: Id)
    requires IsRun(events) && k <= |events|
  {
    Buried(StateAt(events, k).db, p) && BlockingCampaigns(StateAt(events, k).db, p) != {}
  }

  /** A creation inserts a campaign of the project after the project's deletion. */
  ghost predicate LateInsertion(events: seq<Event>, k: nat, p: Id)
    requires IsRun(events) && k < |events|
  {
    Buried(StateAt(events, k).db, p) && InsertsInto(StateAt(events, k), events[k], p)
  }

  lemma {:induction false} NextIsHauntedExactly(events: seq<Event>, k: nat, p: Id)
    requires IsRun(events) && CleanDeletions(events) && k < |events| && !Haunted(events, k, p)
    ensures Haunted(events, k + 1, p) <==> LateInsertion(events, k, p)
  {
    StateAtSteps(events, k);
    var s, e := StateAt(events, k), events[k];
    if e.Outside? {
      assert DeletesCleanly(s.db, e.db);
      assert BlockingCampaigns(e.db, p) == BlockingCampaigns(s.db, p);
    } else {
      ProjectsChangeOutsideOnly(s, e, p);
      if Buried(s.db, p) {
        BlockingAppearsExactlyByInsertion(events, k, e, p);
      }
    }
  }

  lemma {:induction false} HauntedOnlyByLateInsertion(events: seq<Event>, n: nat, p: Id)
    requires IsRun(events) && CleanDeletions(events) && n <= |events|
    requires forall k | 0 <= k < |events| :: !LateInsertion(events, k, p)
    ensures !Haunted(events, n, p)
  {
    if n > 0 {
      HauntedOnlyByLateInsertion(events, n - 1, p);
      NextIsHauntedExactly(events, n - 1, p);
    }
  }

  /**
   Main result: in every run a project, once deleted, has only completed or cancelled campaigns at
   every point, if and only if no creation inserts one of its campaigns after the deletion.
   */
  lemma {:induction false} DeletedProjectsStayOverExactly(events: seq<Event>, p: Id)
    requires IsRun(events) && CleanDeletions(events)
    ensures (forall n | 0 <= n <= |events| :: !Haunted(events, n, p)) <==>
            (forall k | 0 <= k < |events| :: !LateInsertion(events, k, p))
  {
    if forall k | 0 <= k < |events| :: !LateInsertion(events, k, p) {
      forall n | 0 <= n <= |events|
        ensures !Haunted(events, n, p)
      {
        HauntedOnlyByLateInsertion(events, n, p);
      }
    }
    if forall n | 0 <= n <= |events| :: !Haunted(events, n, p) {
      forall k | 0 <= k < |events|
        ensures !LateInsertion(events, k, p)
      {
        assert !Haunted(events, k, p) && !Haunted(events, k + 1, p);
        NextIsHauntedExactly(events, k, p);
      }
    }
  }
}
