/**
 The life of an assignment under every interleaving: it only climbs, so it changes at most four
 times, and it is never installed without having been offered.
 */
module AssignmentHistory {
  import opened Basics
  import opened CampaignState
  import opened Tables
  import opened Queries
  import opened Evolution
  import opened Machine
  import opened System

  // ---------------------------------------------------------------------------
  // Bounded change
  // ---------------------------------------------------------------------------

  predicate Changed(a: Db, b: Db, t: Target) {
    t in a.assignments && (t in b.assignments ==> b.assignments[t].status != a.assignments[t].status)
  }

  /** How often the status of t changed along the trace. */
  function Changes(trace: seq<Db>, t: Target): nat {
    if |trace| < 2 then 0
    else Changes(trace[..|trace| - 1], t) + if Changed(trace[|trace| - 2], trace[|trace| - 1], t) then 1 else 0
  }

  function Height(db: Db, t: Target): nat {
    if t in db.assignments then Rank(db.assignments[t].status) else 0
  }

  lemma {:induction false} ChangesClimb(trace: seq<Db>, t: Target)
    requires trace != []
    requires forall i :: 0 < i < |trace| ==> Guarantees(trace[i - 1], trace[i])
    ensures Changes(trace, t) <= Height(trace[|trace| - 1], t)
  {
    if |trace| > 1 {
      ChangesClimb(trace[..|trace| - 1], t);
      var a, b := trace[|trace| - 2], trace[|trace| - 1];
      assert Guarantees(a, b);
      if Changed(a, b, t) && Height(a, t) == Height(b, t) {
        RankIsInjective(a.assignments[t].status, b.assignments[t].status);
      }
    }
  }

  ghost function TotalChanges(trace: seq<Db>, targets: set<Target>): nat
    decreases targets
  {
    if targets == {} then 0 else
      var t :| t in targets;
      Changes(trace, t) + TotalChanges(trace, targets - {t})
  }

  lemma {:induction false} TotalChangesBounded(trace: seq<Db>, targets: set<Target>)
    requires forall t | t in targets :: Changes(trace, t) <= 4
    ensures TotalChanges(trace, targets) <= 4 * |targets|
    decreases targets
  {
    if targets != {} {
      var t :| t in targets && TotalChanges(trace, targets) == Changes(trace, t) + TotalChanges(trace, targets - {t});
      TotalChangesBounded(trace, targets - {t});
    }
  }

  /** Main result: in any run a campaign with n assignments sees at most 4 n status changes. */
  lemma AtMostFourChangesEach(events: seq<Event>, c: Id)
    requires IsRun(events)
    ensures var s := EndOf(events); TotalChanges(s.trace, Assigned(s.db, c)) <= 4 * |Assigned(s.db, c)|
  {
    RunsAreTraced(events);
    var s := EndOf(events);
    forall t | t in Assigned(s.db, c)
      ensures Changes(s.trace, t) <= 4
    {
      ChangesClimb(s.trace, t);
    }
    TotalChangesBounded(s.trace, Assigned(s.db, c));
  }

  // ---------------------------------------------------------------------------
  // Offered before installed
  // ---------------------------------------------------------------------------

  predicate OfferedIn(db: Db, t: Target) {
    t in db.assignments && db.assignments[t].status.Offered?
  }

  ghost predicate WasOffered(s: Sys, t: Target) {
    exists i :: 0 <= i < |s.trace| && OfferedIn(s.trace[i], t)
  }

  ghost predicate ProgressWasOffered(s: Sys) {
    forall t | t in s.db.assignments && s.db.assignments[t].status in {Offered, Downloaded, Installed} :: WasOffered(s, t)
  }

  ghost predicate OfferedFirst(s: Sys) {
    ProgressWasOffered(s) && forall op | op in s.ops && s.ops[op].HttpSet? :: WasOffered(s, Target(s.ops[op].c, s.ops[op].d))
  }

  lemma WasOfferedIsStable(s: Sys, s': Sys, t: Target)
    requires s.trace <= s'.trace && WasOffered(s, t)
    ensures WasOffered(s', t)
  {
    var i :| 0 <= i < |s.trace| && OfferedIn(s.trace[i], t);
    assert s'.trace[i] == s.trace[i];
  }

  lemma InsertedRowsArePending(db: Db, w: Write, t: Target)
    requires w.WBundle? && t in Apply(db, w).assignments
    ensures (t in db.assignments && db.assignments[t] == Apply(db, w).assignments[t]) || Apply(db, w).assignments[t] == FRESH
  {
  }

  /** The only ways up: the poll's offer, a report on an offered device, and the version match. */
  lemma ProgressHasSource(db: Db, w: Write, t: Target)
    requires t in Apply(db, w).assignments && Apply(db, w).assignments[t].status in {Offered, Downloaded, Installed}
    ensures Apply(db, w).assignments[t].status.Offered?
            || (t in db.assignments && db.assignments[t].status in {Offered, Downloaded, Installed})
            || (w.WForce? && t == Target(w.c, w.d))
  {
    if w.WBundle? {
      InsertedRowsArePending(db, w, t);
    }
  }

  lemma ForcingIsPlanned(db: Db, clock: Time, pc: Pc)
    requires !pc.Done? && StepOf(db, clock, pc).write.WForce?
    ensures pc.HttpSet? && StepOf(db, clock, pc).write == WForce(pc.c, pc.d)
  {
  }

  lemma OthersPlanNoForcing(db: Db, clock: Time, pc: Pc)
    requires !pc.Done? && !HttpReporting(pc)
    ensures !StepOf(db, clock, pc).pc.HttpSet?
  {
  }

  lemma ForcingFollowsAReading(db: Db, clock: Time, pc: Pc)
    requires !pc.Done? && StepOf(db, clock, pc).pc.HttpSet?
    ensures AssignmentIs(db, StepOf(db, clock, pc).pc.c, StepOf(db, clock, pc).pc.d, {Offered, Downloaded})
  {
    if !HttpReporting(pc) {
      OthersPlanNoForcing(db, clock, pc);
    }
  }

  lemma StepKeepsProgress(s: Sys, e: Event)
    requires Enabled(s, e) && TraceOk(s) && OfferedFirst(s)
    ensures ProgressWasOffered(Execute(s, e))
  {
    var s' := Execute(s, e);
    forall t | t in s'.db.assignments && s'.db.assignments[t].status in {Offered, Downloaded, Installed}
      ensures WasOffered(s', t)
    {
      if s'.db.assignments[t].status.Offered? {
        assert OfferedIn(s'.trace[|s'.trace| - 1], t);
      } else {
        if e.Run? {
          ProgressHasSource(s.db, StepOf(s.db, s.clock, s.ops[e.op]).write, t);
          if StepOf(s.db, s.clock, s.ops[e.op]).write.WForce? {
            ForcingIsPlanned(s.db, s.clock, s.ops[e.op]);
          }
        }
        WasOfferedIsStable(s, s', t);
      }
    }
  }

  lemma StepKeepsReadings(s: Sys, e: Event, op: nat)
    requires Enabled(s, e) && TraceOk(s) && OfferedFirst(s)
    requires op in Execute(s, e).ops && Execute(s, e).ops[op].HttpSet?
    ensures WasOffered(Execute(s, e), Target(Execute(s, e).ops[op].c, Execute(s, e).ops[op].d))
  {
    var s' := Execute(s, e);
    var t := Target(s'.ops[op].c, s'.ops[op].d);
    if e.Run? && e.op == op {
      ForcingFollowsAReading(s.db, s.clock, s.ops[op]);
    }
    WasOfferedIsStable(s, s', t);
  }

  lemma {:induction false} RunsOfferFirst(events: seq<Event>)
    requires IsRun(events)
    ensures OfferedFirst(EndOf(events))
  {
    if events != [] {
      var s, e := EndOf(events[..|events| - 1]), events[|events| - 1];
      RunsOfferFirst(events[..|events| - 1]);
      RunsAreTraced(events[..|events| - 1]);
      StepKeepsProgress(s, e);
      forall op | op in Execute(s, e).ops && Execute(s, e).ops[op].HttpSet?
        ensures WasOffered(Execute(s, e), Target(Execute(s, e).ops[op].c, Execute(s, e).ops[op].d))
      {
        StepKeepsReadings(s, e, op);
      }
    }
  }

  /** Main result: an installed device was offered the update at some earlier point of the run. */
  lemma InstalledWasOffered(events: seq<Event>, t: Target)
    requires IsRun(events)
    requires t in EndOf(events).db.assignments && EndOf(events).db.assignments[t].status.Installed?
    ensures exists i :: 0 <= i < |EndOf(events).trace| - 1 && OfferedIn(EndOf(events).trace[i], t)
  {
    RunsOfferFirst(events);
    RunsAreTraced(events);
    var s := EndOf(events);
    var i :| 0 <= i < |s.trace| && OfferedIn(s.trace[i], t);
    assert i < |s.trace| - 1;
  }

  /** Leaving `failed` takes the unguarded version-match write; every other write respects it. */
  lemma OnlyForcingLeavesFailed(db: Db, w: Write, t: Target)
    requires t in db.assignments && db.assignments[t].status.Failed?
    requires t in Apply(db, w).assignments && !Apply(db, w).assignments[t].status.Failed?
    ensures w == WForce(t.campaign, t.device) && Apply(db, w).assignments[t].status.Installed?
  {
  }
}
