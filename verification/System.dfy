/**
 Runs of the engine: any number of operations in flight, interleaved in any order, beside
 a clock and the rest of the product.
 */
module System {
  import opened Basics
  import opened Tables
  import opened Queries
  import opened Evolution
  import opened Machine

  /** trace lists every value the tables have had, the current one last. */
  datatype Sys = Sys(db: Db, clock: Time, ops: map<nat, Pc>, trace: seq<Db>)

  const START: Sys := Sys(EMPTY, 0, map[], [EMPTY])

  datatype Event =
    | Begin(op: nat, pc: Pc)
    | Run(op: nat)
    | Tick(now: Time)
    | Outside(db: Db)

  /**
   What the rest of the product may do between two steps: register and block devices, edit groups,
   upload or delete firmware, archive or delete projects. It never writes the rollout tables.
   */
  ghost predicate OutsideStep(a: Db, b: Db) {
    a.campaigns == b.campaigns && a.assignments == b.assignments && a.otaTokens == b.otaTokens && CatalogEvolves(a, b)
  }

  ghost predicate Enabled(s: Sys, e: Event) {
    match e
    case Begin(op, pc) => op !in s.ops && IsStart(pc, s.clock)
    case Run(op) => op in s.ops && !s.ops[op].Done?
    case Tick(now) => s.clock <= now
    case Outside(db) => OutsideStep(s.db, db)
  }

  ghost function Record(s: Sys, db: Db): Sys {
    s.(db := db, trace := s.trace + [db])
  }

  ghost function Execute(s: Sys, e: Event): Sys
    requires Enabled(s, e)
  {
    match e
    case Begin(op, pc) => Record(s.(ops := s.ops[op := pc]), s.db)
    case Run(op) =>
      var move := StepOf(s.db, s.clock, s.ops[op]);
      Record(s.(ops := s.ops[op := move.pc]), Apply(s.db, move.write))
    case Tick(now) => Record(s.(clock := now), s.db)
    case Outside(db) => Record(s, db)
  }

  /** Every event of the run could happen when it did. */
  ghost predicate IsRun(events: seq<Event>)
    decreases |events|, 0
  {
    if events == [] then true
    else IsRun(events[..|events| - 1]) && Enabled(EndOf(events[..|events| - 1]), events[|events| - 1])
  }

  ghost function EndOf(events: seq<Event>): Sys
    requires IsRun(events)
    decreases |events|, 1
  {
    if events == [] then START
    else Execute(EndOf(events[..|events| - 1]), events[|events| - 1])
  }

  /** The writes to assignments and device or token rows. */
  lemma RowWritesGuarantee(db: Db, w: Write)
    requires w.WOffer? || w.WForce? || w.WReport? || w.WTouch? || w.WToken? || w.WConsume?
    ensures Guarantees(db, Apply(db, w))
  {
    match w
    case WOffer(c, d) => OfferGuarantees(db, c, d);
    case WForce(c, d) => ForceInstalledGuarantees(db, c, d);
    case WReport(c, d, m, code, msg) => WriteReportGuarantees(db, c, d, m, code, msg);
    case WTouch(p, d, version, now) => TouchDeviceGuarantees(db, p, d, Some(version), now);
    case WToken(hash, token) => InsertTokenGuarantees(db, hash, token);
    case WConsume(hash, now) => ConsumeGuarantees(db, hash, now);
  }

  /** Whatever an operation decided, its write keeps the guarantee. */
  lemma EveryWriteGuarantees(db: Db, w: Write)
    ensures Guarantees(db, Apply(db, w))
  {
    UnchangedGuarantees(db);
    match w
    case NoWrite =>
    case WComplete(p, c, now) => MarkCompletedGuarantees(db, p, c, now);
    case WPause(p, c, now) => PauseGuarantees(db, p, c, now);
    case WResume(p, c) => ResumeGuarantees(db, p, c);
    case WCancel(p, c, now) => CancelGuarantees(db, p, c, now);
    case WActivate(now) => ActivateDueGuarantees(db, now);
    case WBundle(c, draft, groups, explicit, chosen) =>
      if BundleFits(db, c, groups, explicit, chosen) {
        InsertBundleGuarantees(db, c, draft, groups, explicit, chosen);
      }
    case _ => RowWritesGuarantee(db, w);
  }

  lemma EveryStepGuarantees(s: Sys, e: Event)
    requires Enabled(s, e)
    ensures Guarantees(s.db, Execute(s, e).db)
    ensures Evolves(s.db, Execute(s, e).db)
  {
    UnchangedGuarantees(s.db);
    if e.Run? {
      EveryWriteGuarantees(s.db, StepOf(s.db, s.clock, s.ops[e.op]).write);
    }
    GuaranteesEvolves(s.db, Execute(s, e).db);
  }

  ghost predicate TraceOk(s: Sys) {
    s.trace != [] && s.trace[|s.trace| - 1] == s.db
    && (forall i :: 0 < i < |s.trace| ==> Guarantees(s.trace[i - 1], s.trace[i]))
  }

  lemma {:induction false} RunsAreTraced(events: seq<Event>)
    requires IsRun(events)
    ensures TraceOk(EndOf(events)) && |EndOf(events).trace| == |events| + 1
  {
    if events != [] {
      var before := events[..|events| - 1];
      RunsAreTraced(before);
      EveryStepGuarantees(EndOf(before), events[|events| - 1]);
    }
  }

  /** Along any run, every earlier value of the tables evolves into every later one. */
  lemma {:induction false} TraceEvolves(s: Sys, i: nat, j: nat)
    requires TraceOk(s) && i <= j < |s.trace|
    ensures Evolves(s.trace[i], s.trace[j])
  {
    if i == j {
      EvolvesReflexive(s.trace[i]);
    } else {
      TraceEvolves(s, i, j - 1);
      GuaranteesEvolves(s.trace[j - 1], s.trace[j]);
      EvolvesTransitive(s.trace[i], s.trace[j - 1], s.trace[j]);
    }
  }

  // ---------------------------------------------------------------------------
  // Points of a run
  // ---------------------------------------------------------------------------

  lemma {:induction false} PrefixIsRun(events: seq<Event>, k: nat)
    requires IsRun(events) && k <= |events|
    ensures IsRun(events[..k])
  {
    if k < |events| {
      PrefixIsRun(events[..|events| - 1], k);
      assert events[..|events| - 1][..k] == events[..k];
    } else {
      assert events[..k] == events;
    }
  }

  /** The state before the k-th event. */
  ghost function StateAt(events: seq<Event>, k: nat): Sys
    requires IsRun(events) && k <= |events|
  {
    PrefixIsRun(events, k);
    EndOf(events[..k])
  }

  lemma {:induction false} StateAtSteps(events: seq<Event>, k: nat)
    requires IsRun(events) && k < |events|
    ensures Enabled(StateAt(events, k), events[k])
    ensures StateAt(events, k + 1) == Execute(StateAt(events, k), events[k])
  {
    PrefixIsRun(events, k + 1);
    var p := events[..k + 1];
    assert p[..|p| - 1] == events[..k] && p[|p| - 1] == events[k];
  }

  lemma {:induction false} StateAtEnd(events: seq<Event>)
    requires IsRun(events)
    ensures StateAt(events, |events|) == EndOf(events)
  {
    assert events[..|events|] == events;
  }

  /** Earlier tables evolve into later ones. */
  lemma {:induction false} StateAtEvolves(events: seq<Event>, i: nat, j: nat)
    requires IsRun(events) && i <= j <= |events|
    ensures Evolves(StateAt(events, i).db, StateAt(events, j).db)
    decreases j
  {
    if i == j {
      EvolvesReflexive(StateAt(events, i).db);
    } else {
      StateAtEvolves(events, i, j - 1);
      StateAtSteps(events, j - 1);
      EveryStepGuarantees(StateAt(events, j - 1), events[j - 1]);
      EvolvesTransitive(StateAt(events, i).db, StateAt(events, j - 1).db, StateAt(events, j).db);
    }
  }

  /** The last thing an operation did: it began, or it took the step that led to its counter. */
  lemma {:induction false} LastMove(events: seq<Event>, n: nat, op: nat) returns (k: nat)
    requires IsRun(events) && n <= |events| && op in StateAt(events, n).ops
    ensures k < n
    ensures var pc := StateAt(events, n).ops[op];
            events[k] == Begin(op, pc) || (events[k] == Run(op) && Moved(StateAt(events, k), op, pc))
  {
    if n > 0 {
      k := n - 1;
      StateAtSteps(events, k);
      var s := StateAt(events, k);
      if events[k].Begin? && events[k].op == op {
      } else if events[k].Run? && events[k].op == op {
        assert Moved(s, op, StateAt(events, n).ops[op]);
      } else {
        assert StateAt(events, n).ops[op] == s.ops[op];
        k := LastMove(events, n - 1, op);
      }
    }
  }

  ghost predicate Moved(s: Sys, op: nat, pc: Pc) {
    op in s.ops && !s.ops[op].Done? && StepOf(s.db, s.clock, s.ops[op]).pc == pc
  }
}
