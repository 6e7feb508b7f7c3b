/**
 A completed campaign has no unfinished device, under every interleaving.

 tryAutoComplete counts unfinished assignments, and some time later marks the campaign completed
 without looking again. That is sound because "no assignment of an existing campaign is unfinished"
 is preserved by every step anyone can take in between.
 */
module CompletionSafety {
  import opened Basics
  import opened CampaignState
  import opened Tables
  import opened Queries
  import opened Evolution
  import opened Machine
  import opened System

  ghost predicate CompletedIsTerminal(db: Db) {
    forall c | c in db.campaigns && db.campaigns[c].status.Completed? :: AllTerminal(db, c)
  }

  /** What an in-flight operation may still rely on, however old its reads are. */
  ghost predicate Knows(db: Db, pc: Pc) {
    match pc
    case CompleteCount(_, c, _, _) => c in db.campaigns
    case CompleteMark(_, c, _) => c in db.campaigns && AllTerminal(db, c)
    case CreateInsert(_, _, draft, _) => !draft.status.Completed?
    case _ => true
  }

  /** Finished assignments of an existing campaign stay finished, and it gains no new ones. */
  lemma AllTerminalIsStable(a: Db, b: Db, c: Id)
    requires Evolves(a, b) && c in a.campaigns && AllTerminal(a, c)
    ensures AllTerminal(b, c)
  {
    forall t | t in b.assignments && t.campaign == c
      ensures TerminalAssignment(b.assignments[t].status)
    {
      assert t in a.assignments;
      assert Rank(a.assignments[t].status) <= Rank(b.assignments[t].status);
    }
  }

  lemma KnowledgeIsStable(a: Db, b: Db, pc: Pc)
    requires Evolves(a, b) && Knows(a, pc)
    ensures Knows(b, pc)
  {
    if pc.CompleteMark? {
      AllTerminalIsStable(a, b, pc.c);
    }
  }

  /** What a write must rest on. */
  ghost predicate Justified(db: Db, w: Write) {
    match w
    case WComplete(_, c, _) => c in db.campaigns && AllTerminal(db, c)
    case WBundle(_, draft, _, _, _) => !draft.status.Completed?
    case _ => true
  }

  /** Each step decides only on what the operation knows. */
  lemma DecisionsAreJustified(db: Db, clock: Time, pc: Pc)
    requires !pc.Done? && Knows(db, pc)
    ensures var move := StepOf(db, clock, pc); Justified(db, move.write) && Knows(db, move.pc)
  {
    if pc.CompleteCount? {
      NoneLeftIsAllTerminal(db, pc.c);
    }
  }

  /** No other write completes a campaign. */
  lemma OnlyMarkingCompletes(db: Db, w: Write, c: Id)
    requires Justified(db, w)
    requires c in Apply(db, w).campaigns && Apply(db, w).campaigns[c].status.Completed?
    requires !(c in db.campaigns && db.campaigns[c].status.Completed?)
    ensures w.WComplete? && w.c == c
  {
  }

  lemma WritesKeepCompletion(db: Db, w: Write)
    requires CompletedIsTerminal(db) && Justified(db, w)
    ensures CompletedIsTerminal(Apply(db, w))
  {
    var db' := Apply(db, w);
    EveryWriteGuarantees(db, w);
    GuaranteesEvolves(db, db');
    forall c | c in db'.campaigns && db'.campaigns[c].status.Completed?
      ensures AllTerminal(db', c)
    {
      if !(c in db.campaigns && db.campaigns[c].status.Completed?) {
        OnlyMarkingCompletes(db, w, c);
      }
      AllTerminalIsStable(db, db', c);
    }
  }

  ghost predicate Safe(s: Sys) {
    CompletedIsTerminal(s.db) && forall op | op in s.ops :: Knows(s.db, s.ops[op])
  }

  lemma StepIsSafe(s: Sys, e: Event)
    requires Enabled(s, e) && Safe(s)
    ensures Safe(Execute(s, e))
  {
    var s' := Execute(s, e);
    EveryStepGuarantees(s, e);
    if e.Run? {
      DecisionsAreJustified(s.db, s.clock, s.ops[e.op]);
      WritesKeepCompletion(s.db, StepOf(s.db, s.clock, s.ops[e.op]).write);
    } else {
      assert s'.db.campaigns == s.db.campaigns && s'.db.assignments == s.db.assignments;
    }
    forall op | op in s'.ops
      ensures Knows(s'.db, s'.ops[op])
    {
      KnowledgeIsStable(s.db, s'.db, s'.ops[op]);
    }
  }

  lemma {:induction false} RunsAreSafe(events: seq<Event>)
    requires IsRun(events)
    ensures Safe(EndOf(events))
  {
    if events != [] {
      RunsAreSafe(events[..|events| - 1]);
      StepIsSafe(EndOf(events[..|events| - 1]), events[|events| - 1]);
    }
  }

  /** Main result: in every reachable state, completed means every assignment is installed or failed. */
  lemma {:induction false} CompletedMeansFinished(events: seq<Event>, c: Id, d: Id)
    requires IsRun(events)
    requires var db := EndOf(events).db;
             c in db.campaigns && db.campaigns[c].status.Completed? && Target(c, d) in db.assignments
    ensures EndOf(events).db.assignments[Target(c, d)].status in {Installed, Failed}
  {
    RunsAreSafe(events);
    assert AllTerminal(EndOf(events).db, c);
  }
}
