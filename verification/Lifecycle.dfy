/**
 The SQL guards refine the documented lifecycle.

 No operation calls CanTransition; each update carries its own WHERE clause. Along every run of
 interleaved operations the statuses of a campaign nevertheless form a path of the documented
 state machine, and its timestamps tell the truth about it.
 */
module Lifecycle {
  import opened Basics
  import opened CampaignState
  import opened Tables
  import opened Queries
  import opened Evolution
  import opened Machine
  import opened System

  // ---------------------------------------------------------------------------
  // Statuses
  // ---------------------------------------------------------------------------

  /** The statuses of c from the i-th table value of the run on. */
  ghost function Statuses(s: Sys, c: Id, i: nat): seq<CampaignStatus>
    requires TraceOk(s) && i < |s.trace| && c in s.trace[i].campaigns
  {
    seq(|s.trace| - i, k requires 0 <= k < |s.trace| - i =>
      TraceEvolves(s, i, i + k);
      s.trace[i + k].campaigns[c].status)
  }

  lemma NeighbouringStatuses(s: Sys, c: Id, j: nat)
    requires TraceOk(s) && 0 < j < |s.trace|
    requires c in s.trace[j - 1].campaigns
    ensures c in s.trace[j].campaigns
    ensures CanTransition(s.trace[j - 1].campaigns[c].status, s.trace[j].campaigns[c].status)
  {
    assert Guarantees(s.trace[j - 1], s.trace[j]);
  }

  lemma TraceFollowsTheLifecycle(s: Sys, c: Id, i: nat)
    requires TraceOk(s) && i < |s.trace| && c in s.trace[i].campaigns
    ensures LifecyclePath(Statuses(s, c, i))
  {
    var path := Statuses(s, c, i);
    forall k | 0 < k < |path|
      ensures CanTransition(path[k - 1], path[k])
    {
      TraceEvolves(s, i, i + k - 1);
      NeighbouringStatuses(s, c, i + k);
    }
  }

  /** Main result: the status history of every campaign of every run is a lifecycle path. */
  lemma {:induction false} StatusesFollowTheLifecycle(events: seq<Event>, c: Id, i: nat)
    requires IsRun(events)
    requires i < |EndOf(events).trace| && c in EndOf(events).trace[i].campaigns
    ensures TraceOk(EndOf(events)) && LifecyclePath(Statuses(EndOf(events), c, i))
  {
    RunsAreTraced(events);
    TraceFollowsTheLifecycle(EndOf(events), c, i);
  }

  /** A completed or cancelled campaign keeps that status for the rest of the run. */
  lemma EndStatesAbsorb(events: seq<Event>, c: Id, i: nat, j: nat)
    requires IsRun(events) && i <= j < |EndOf(events).trace|
    requires c in EndOf(events).trace[i].campaigns
    requires !IsBlockingProjectDelete(EndOf(events).trace[i].campaigns[c].status)
    ensures c in EndOf(events).trace[j].campaigns
    ensures EndOf(events).trace[j].campaigns[c].status == EndOf(events).trace[i].campaigns[c].status
  {
    RunsAreTraced(events);
    TraceEvolves(EndOf(events), i, j);
  }

  // ---------------------------------------------------------------------------
  // Timestamps
  // ---------------------------------------------------------------------------

  predicate TruthfulTimes(row: Campaign, clock: Time) {
    && !row.status.Draft?
    && (row.status.Scheduled? ==> row.scheduledStart.Some? && row.activatedAt.None?)
    && (row.status.Active? || row.status.Paused? || row.status.Completed? ==> row.activatedAt.Some?)
    && (row.activatedAt.Some? ==>
          row.activatedAt.value <= clock
          && (row.scheduledStart.Some? ==> row.scheduledStart.value <= row.activatedAt.value))
    && (row.completedAt.Some? <==> row.status.Completed?)
    && (row.cancelledAt.Some? <==> row.status.Cancelled?)
    && (row.status.Paused? ==> row.pausedAt.Some?)
    && (row.pausedAt.Some? ==> row.status.Paused? || row.status.Cancelled?)
  }

  ghost predicate AllTruthful(db: Db, clock: Time) {
    forall c | c in db.campaigns :: TruthfulTimes(db.campaigns[c], clock)
  }

  /** A clock reading carried by an operation may be old, never ahead. */
  ghost predicate Knows(clock: Time, pc: Pc) {
    && (pc.CreateInsert? ==> TruthfulTimes(pc.draft, clock))
    && (pc.SchedulerActivate? ==> pc.now <= clock)
  }

  ghost predicate Justified(clock: Time, w: Write) {
    && (w.WBundle? ==> TruthfulTimes(w.draft, clock))
    && (w.WActivate? ==> w.now <= clock)
    && (w.WComplete? ==> w.now == clock)
    && (w.WPause? ==> w.now == clock)
    && (w.WCancel? ==> w.now == clock)
  }

  /** A campaign is born active, or scheduled for a start still ahead. */
  lemma NewCampaignIsTruthful(input: CreateInput, target: nat, now: Time)
    ensures TruthfulTimes(NewCampaign(input, target, now), now)
    ensures NewCampaign(input, target, now).status.Scheduled? <==>
            input.scheduledStart.Some? && input.scheduledStart.value > now
  {
  }

  lemma RolloutDecisions(db: Db, clock: Time, pc: Pc)
    requires Polling(pc) || Completing(pc) || Reporting(pc)
    ensures Justified(clock, StepOf(db, clock, pc).write) && Knows(clock, StepOf(db, clock, pc).pc)
  {
  }

  lemma DecisionsAreJustified(db: Db, clock: Time, pc: Pc)
    requires !pc.Done? && Knows(clock, pc)
    ensures Justified(clock, StepOf(db, clock, pc).write) && Knows(clock, StepOf(db, clock, pc).pc)
  {
    if Polling(pc) || Completing(pc) || Reporting(pc) {
      RolloutDecisions(db, clock, pc);
    } else if pc.CreateFilter? {
      var chosen := ChosenFrom(pc.input, CompatibleDevices(db, pc.input.project, pc.ids, pc.types));
      NewCampaignIsTruthful(pc.input, |chosen|, clock);
    }
  }

  lemma WritesKeepTruth(db: Db, clock: Time, w: Write)
    requires AllTruthful(db, clock) && Justified(clock, w)
    ensures AllTruthful(Apply(db, w), clock)
  {
  }

  ghost predicate Timely(s: Sys) {
    AllTruthful(s.db, s.clock) && forall op | op in s.ops :: Knows(s.clock, s.ops[op])
  }

  lemma StepIsTimely(s: Sys, e: Event)
    requires Enabled(s, e) && Timely(s)
    ensures Timely(Execute(s, e))
  {
    if e.Run? {
      DecisionsAreJustified(s.db, s.clock, s.ops[e.op]);
      WritesKeepTruth(s.db, s.clock, StepOf(s.db, s.clock, s.ops[e.op]).write);
    }
  }

  /** Main result: in every reachable state every campaign's timestamps are truthful. */
  lemma {:induction false} RunsAreTimely(events: seq<Event>)
    requires IsRun(events)
    ensures Timely(EndOf(events))
  {
    if events != [] {
      RunsAreTimely(events[..|events| - 1]);
      StepIsTimely(EndOf(events[..|events| - 1]), events[|events| - 1]);
    }
  }

  /** No campaign is ever active before its scheduled start. */
  lemma NeverActiveEarly(events: seq<Event>, c: Id)
    requires IsRun(events) && c in EndOf(events).db.campaigns
    requires EndOf(events).db.campaigns[c].status.Active? && EndOf(events).db.campaigns[c].scheduledStart.Some?
    ensures EndOf(events).db.campaigns[c].scheduledStart.value <= EndOf(events).clock
  {
    RunsAreTimely(events);
    assert TruthfulTimes(EndOf(events).db.campaigns[c], EndOf(events).clock);
  }

  // ---------------------------------------------------------------------------
  // The scheduler
  // ---------------------------------------------------------------------------

  /** One tick activates exactly the due campaigns, leaves none due, and a second tick does nothing. */
  lemma TickActivatesExactlyTheDue(db: Db, now: Time)
    ensures var after := ActivateDue(db, now);
            && after.campaigns.Keys == db.campaigns.Keys
            && (forall c | c in db.campaigns ::
                  if c in DueCampaigns(db, now)
                  then after.campaigns[c] == db.campaigns[c].(status := Active, activatedAt := Some(now))
                  else after.campaigns[c] == db.campaigns[c])
            && DueCampaigns(after, now) == {}
            && ActivateDue(after, now) == after
  {
    var after := ActivateDue(db, now);
    assert ActivateDue(after, now).campaigns == after.campaigns;
  }
}
