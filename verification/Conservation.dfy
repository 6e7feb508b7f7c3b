/**
 Nothing is lost between creation and completion: the five status counts of a campaign always sum
 to its target count, and the progress they define only moves forward.
 */
module Conservation {
  import opened Basics
  import opened CampaignState
  import opened Tables
  import opened Queries
  import opened Evolution
  import opened Machine
  import opened System

  // ---------------------------------------------------------------------------
  // Progress (internal/domain/campaign/service/service.go, buildProgress)
  // ---------------------------------------------------------------------------

  function InStatus(db: Db, c: Id, status: AssignmentStatus): set<Target> {
    set t | t in db.assignments && t.campaign == c && db.assignments[t].status == status
  }

  datatype Progress = Progress(
    target: nat, pending: nat, offered: nat, downloaded: nat, installed: nat, failed: nat,
    completionPercent: real, successPercent: real
  )

  function Percent(part: nat, target: nat): real
    requires target > 0
  {
    part as real * 100.0 / target as real
  }

  function BuildProgress(db: Db, c: Id, target: nat): Progress {
    var installed, failed := |InStatus(db, c, Installed)|, |InStatus(db, c, Failed)|;
    Progress(target, |InStatus(db, c, Pending)|, |InStatus(db, c, Offered)|, |InStatus(db, c, Downloaded)|,
             installed, failed,
             if target > 0 then Percent(installed + failed, target) else 0.0,
             if target > 0 then Percent(installed, target) else 0.0)
  }

  lemma UnfinishedCounts(db: Db, c: Id)
    ensures |InStatus(db, c, Pending)| + |InStatus(db, c, Offered)| + |InStatus(db, c, Downloaded)| == |NonTerminal(db, c)|
  {
    var p, o, d := InStatus(db, c, Pending), InStatus(db, c, Offered), InStatus(db, c, Downloaded);
    assert |p + o| == |p| + |o|;
    assert |(p + o) + d| == |p + o| + |d|;
    assert NonTerminal(db, c) == (p + o) + d;
  }

  lemma FinishedCounts(db: Db, c: Id)
    ensures |InStatus(db, c, Installed)| + |InStatus(db, c, Failed)| == |Assigned(db, c) - NonTerminal(db, c)|
  {
    var i, f := InStatus(db, c, Installed), InStatus(db, c, Failed);
    assert |i + f| == |i| + |f|;
    assert i + f == Assigned(db, c) - NonTerminal(db, c);
  }

  /** Every assignment is counted under exactly one status. */
  lemma CountsSum(db: Db, c: Id)
    ensures |InStatus(db, c, Pending)| + |InStatus(db, c, Offered)| + |InStatus(db, c, Downloaded)|
            + |InStatus(db, c, Installed)| + |InStatus(db, c, Failed)| == |Assigned(db, c)|
    ensures |InStatus(db, c, Installed)| + |InStatus(db, c, Failed)| == |Assigned(db, c) - NonTerminal(db, c)|
  {
    UnfinishedCounts(db, c);
    FinishedCounts(db, c);
    var u := NonTerminal(db, c);
    assert u <= Assigned(db, c);
    assert Assigned(db, c) == (Assigned(db, c) - u) + u;
  }

  lemma SubsetCardinality<T>(a: set<T>, b: set<T>)
    requires a <= b
    ensures |a| <= |b|
    ensures |a| == |b| ==> a == b
  {
    assert b == a + (b - a);
    assert |b| == |a| + |b - a|;
  }

  // ---------------------------------------------------------------------------
  // The invariant
  // ---------------------------------------------------------------------------

  predicate TargetCounted(db: Db, c: Id) {
    c in db.campaigns ==> db.campaigns[c].target > 0 && |Assigned(db, c)| == db.campaigns[c].target
  }

  /** Every assignment belongs to a campaign. */
  ghost predicate NoOrphans(db: Db) {
    forall t | t in db.assignments :: t.campaign in db.campaigns
  }

  ghost predicate AllCounted(db: Db) {
    NoOrphans(db) && forall c | c in db.campaigns :: TargetCounted(db, c)
  }

  ghost predicate Draftable(draft: Campaign, chosen: seq<Id>) {
    NoDuplicates(chosen) && chosen != [] && draft.target == |chosen|
  }

  ghost predicate Knows(pc: Pc) {
    && (Creating(pc) && !pc.CreateStart? ==> ValidInput(pc.input))
    && (pc.CreateInsert? ==> Draftable(pc.draft, pc.chosen))
  }

  ghost predicate Justified(w: Write) {
    w.WBundle? ==> Draftable(w.draft, w.chosen)
  }

  lemma RolloutDecisions(db: Db, clock: Time, pc: Pc)
    requires Polling(pc) || Completing(pc) || Reporting(pc)
    ensures Justified(StepOf(db, clock, pc).write) && Knows(StepOf(db, clock, pc).pc)
  {
  }

  lemma DecisionsAreJustified(db: Db, clock: Time, pc: Pc)
    requires !pc.Done? && Knows(pc)
    ensures Justified(StepOf(db, clock, pc).write) && Knows(StepOf(db, clock, pc).pc)
  {
    if Polling(pc) || Completing(pc) || Reporting(pc) {
      RolloutDecisions(db, clock, pc);
    } else if pc.CreateFilter? {
      ChosenFromIsSelection(pc.input, CompatibleDevices(db, pc.input.project, pc.ids, pc.types));
    }
  }

  /** The inserted rows are one per chosen device. */
  lemma BundleIsCounted(db: Db, c: Id, draft: Campaign, groups: seq<Id>, explicit: seq<Id>, chosen: seq<Id>)
    requires BundleFits(db, c, groups, explicit, chosen) && Draftable(draft, chosen)
    requires NoOrphans(db)
    ensures TargetCounted(InsertBundle(db, c, draft, chosen), c)
  {
    var db' := InsertBundle(db, c, draft, chosen);
    var targets := seq(|chosen|, i requires 0 <= i < |chosen| => Target(c, chosen[i]));
    forall t | t in Assigned(db', c)
      ensures t in targets
    {
      assert t in PendingRows(c, chosen);
      var i :| 0 <= i < |chosen| && chosen[i] == t.device;
      assert targets[i] == t;
    }
    forall t | t in targets
      ensures t in Assigned(db', c)
    {
      var i :| 0 <= i < |targets| && targets[i] == t;
      assert chosen[i] in chosen;
      assert t in PendingRows(c, chosen);
    }
    assert Assigned(db', c) == ToSet(targets);
    DistinctCardinality(targets);
  }

  lemma WritesKeepCounts(db: Db, w: Write)
    requires AllCounted(db) && Justified(w)
    ensures AllCounted(Apply(db, w))
  {
    var db' := Apply(db, w);
    EveryWriteGuarantees(db, w);
    OnlyBundlesAssign(db, w);
    forall c | c in db'.campaigns
      ensures TargetCounted(db', c)
    {
      if c in db.campaigns {
        assert Assigned(db', c) == Assigned(db, c);
      } else {
        OnlyBundlesCreate(db, w, c);
        BundleIsCounted(db, c, w.draft, w.groups, w.explicit, w.chosen);
      }
    }
  }

  lemma OnlyBundlesAssign(db: Db, w: Write)
    requires NoOrphans(db)
    ensures NoOrphans(Apply(db, w))
  {
  }

  lemma OnlyBundlesCreate(db: Db, w: Write, c: Id)
    requires c in Apply(db, w).campaigns && c !in db.campaigns
    ensures w.WBundle? && w.c == c && BundleFits(db, c, w.groups, w.explicit, w.chosen)
    ensures Apply(db, w) == InsertBundle(db, c, w.draft, w.chosen)
  {
  }

  ghost predicate Counted(s: Sys) {
    AllCounted(s.db) && forall op | op in s.ops :: Knows(s.ops[op])
  }

  lemma StepIsCounted(s: Sys, e: Event)
    requires Enabled(s, e) && Counted(s)
    ensures Counted(Execute(s, e))
  {
    if e.Run? {
      DecisionsAreJustified(s.db, s.clock, s.ops[e.op]);
      WritesKeepCounts(s.db, StepOf(s.db, s.clock, s.ops[e.op]).write);
    } else {
      var s' := Execute(s, e);
      forall c | c in s'.db.campaigns
        ensures TargetCounted(s'.db, c)
      {
        assert Assigned(s'.db, c) == Assigned(s.db, c);
      }
    }
  }

  lemma {:induction false} RunsAreCounted(events: seq<Event>)
    requires IsRun(events)
    ensures Counted(EndOf(events))
  {
    if events != [] {
      RunsAreCounted(events[..|events| - 1]);
      StepIsCounted(EndOf(events[..|events| - 1]), events[|events| - 1]);
    }
  }

  // ---------------------------------------------------------------------------
  // Main results
  // ---------------------------------------------------------------------------

  /** In every reachable state the counts sum to the target and the percentages are sane. */
  lemma ProgressIsConserved(events: seq<Event>, c: Id)
    requires IsRun(events) && c in EndOf(events).db.campaigns
    ensures var db := EndOf(events).db;
            var p := BuildProgress(db, c, db.campaigns[c].target);
            && p.pending + p.offered + p.downloaded + p.installed + p.failed == p.target
            && 0.0 <= p.successPercent <= p.completionPercent <= 100.0
            && (p.completionPercent == 100.0 <==> AllTerminal(db, c))
  {
    RunsAreCounted(events);
    CountsMakeSense(EndOf(events).db, c);
  }

  lemma CountsMakeSense(db: Db, c: Id)
    requires c in db.campaigns && TargetCounted(db, c)
    ensures var p := BuildProgress(db, c, db.campaigns[c].target);
            && p.pending + p.offered + p.downloaded + p.installed + p.failed == p.target
            && 0.0 <= p.successPercent <= p.completionPercent <= 100.0
            && (p.completionPercent == 100.0 <==> AllTerminal(db, c))
  {
    CountsSum(db, c);
    var target := db.campaigns[c].target;
    var finished := |InStatus(db, c, Installed)| + |InStatus(db, c, Failed)|;
    SubsetCardinality(Assigned(db, c) - NonTerminal(db, c), Assigned(db, c));
    PercentIsMonotone(|InStatus(db, c, Installed)|, finished, target);
    PercentIsMonotone(0, |InStatus(db, c, Installed)|, target);
    PercentIsMonotone(finished, target, target);
    NoneLeftIsAllTerminal(db, c);
    assert Assigned(db, c) - NonTerminal(db, c) == Assigned(db, c) <==> NonTerminal(db, c) == {} by {
      assert NonTerminal(db, c) <= Assigned(db, c);
    }
  }

  lemma PercentIsMonotone(a: nat, b: nat, target: nat)
    requires a <= b && target > 0
    ensures Percent(a, target) <= Percent(b, target)
    ensures Percent(a, target) == Percent(b, target) <==> a == b
    ensures Percent(0, target) == 0.0 && Percent(target, target) == 100.0
  {
    var t := target as real;
    assert (b as real * 100.0) / t - (a as real * 100.0) / t == ((b - a) as real * 100.0) / t;
  }

  /** The terminal assignments of an existing campaign only grow. */
  lemma FinishedGrows(a: Db, b: Db, c: Id)
    requires Evolves(a, b) && c in a.campaigns
    ensures |InStatus(a, c, Installed)| + |InStatus(a, c, Failed)| <= |InStatus(b, c, Installed)| + |InStatus(b, c, Failed)|
  {
    CountsSum(a, c);
    CountsSum(b, c);
    forall t | t in Assigned(a, c) - NonTerminal(a, c)
      ensures t in Assigned(b, c) - NonTerminal(b, c)
    {
      assert Rank(a.assignments[t].status) <= Rank(b.assignments[t].status);
    }
    SubsetCardinality(Assigned(a, c) - NonTerminal(a, c), Assigned(b, c) - NonTerminal(b, c));
  }

  /** The completion percentage of a campaign under the tables as they are. */
  ghost function Completion(db: Db, c: Id): real
    requires c in db.campaigns
  {
    BuildProgress(db, c, db.campaigns[c].target).completionPercent
  }

  lemma CompletionGrows(a: Db, b: Db, c: Id)
    requires Evolves(a, b) && c in a.campaigns && c in b.campaigns && b.campaigns[c].target == a.campaigns[c].target
    ensures Completion(a, c) <= Completion(b, c)
  {
    FinishedGrows(a, b, c);
    if a.campaigns[c].target > 0 {
      PercentIsMonotone(|InStatus(a, c, Installed)| + |InStatus(a, c, Failed)|,
                        |InStatus(b, c, Installed)| + |InStatus(b, c, Failed)|, a.campaigns[c].target);
    }
  }

  /** Main result: along any run the completion percentage of a campaign never decreases. */
  lemma CompletionNeverDecreases(events: seq<Event>, c: Id, i: nat, j: nat)
    requires IsRun(events) && i <= j < |EndOf(events).trace|
    requires c in EndOf(events).trace[i].campaigns
    ensures var a, b := EndOf(events).trace[i], EndOf(events).trace[j];
            c in b.campaigns && b.campaigns[c].target == a.campaigns[c].target
            && Completion(a, c) <= Completion(b, c)
  {
    RunsAreTraced(events);
    var a, b := EndOf(events).trace[i], EndOf(events).trace[j];
    TraceEvolves(EndOf(events), i, j);
    CompletionGrows(a, b, c);
  }
}
