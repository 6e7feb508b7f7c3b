/** Devices retry. What a second copy of a report may and may not change. */
module ReportLaws {
  import opened Basics
  import opened CampaignState
  import opened Tables
  import opened Queries
  import opened CampaignOps

  /** The rollout tables: what progress is computed from. */
  predicate SameRollout(a: Db, b: Db) {
    a.campaigns == b.campaigns && a.assignments == b.assignments
  }

  lemma CompletingTwice(db: Db, p: Id, c: Id, now: Time, again: Time)
    ensures var once := TryAutoComplete(db, p, c, now);
            TryAutoComplete(once, p, c, again) == once
  {
    var once := TryAutoComplete(db, p, c, now);
    assert NonTerminal(once, c) == NonTerminal(db, c);
  }

  /** Completion looks at the campaign and its assignments only. */
  lemma CompletingLooksAtRollout(a: Db, b: Db, p: Id, c: Id, now: Time)
    requires SameRollout(a, b)
    ensures SameRollout(TryAutoComplete(a, p, c, now), TryAutoComplete(b, p, c, now))
  {
    assert NonTerminal(a, c) == NonTerminal(b, c);
  }

  /** Nothing is left for a report to do: its row is written, and the campaign cannot be completed. */
  ghost predicate Absorbed(db: Db, p: Id, d: Id, c: Id, m: Milestone, code: Option<nat>, msg: Bytes, again: Time) {
    && Target(c, d) in db.assignments
    && (ReportAccepted(db, p, d, c, m) ==> db.assignments[Target(c, d)] == ReportRow(m, code, msg))
    && (TryAutoComplete(db, p, c, again) == db
        || (ReportAccepted(db, p, d, c, m) && m.ReportInstalled? && !FirmwareIn(db, p, db.campaigns[c].firmware)))
  }

  lemma AbsorbedReportsChangeNothing(db: Db, p: Id, d: Id, c: Id, m: Milestone, code: Option<nat>, msg: Bytes, again: Time)
    requires Absorbed(db, p, d, c, m, code, msg, again)
    ensures SameRollout(ApplyReport(db, p, d, c, m, code, msg, again).db, db)
  {
    if ReportAccepted(db, p, d, c, m) {
      assert WriteReport(db, c, d, m, code, msg) == db;
      if m.ReportInstalled? && FirmwareIn(db, p, db.campaigns[c].firmware) {
        var touched := TouchDevice(db, p, d, Some(db.firmwares[db.campaigns[c].firmware].version), again);
        CompletingLooksAtRollout(touched, db, p, c, again);
      }
    }
  }

  lemma RefusedReportIsAbsorbed(db: Db, p: Id, d: Id, c: Id, m: Milestone, code: Option<nat>, msg: Bytes, now: Time, again: Time)
    requires Target(c, d) in db.assignments && !ReportAccepted(db, p, d, c, m)
    ensures Absorbed(TryAutoComplete(db, p, c, now), p, d, c, m, code, msg, again)
  {
    CompletingTwice(db, p, c, now, again);
  }

  lemma WrittenReportIsAbsorbed(db: Db, p: Id, d: Id, c: Id, m: Milestone, code: Option<nat>, msg: Bytes, now: Time, again: Time)
    requires Target(c, d) in db.assignments && db.assignments[Target(c, d)] == ReportRow(m, code, msg)
    ensures Absorbed(TryAutoComplete(db, p, c, now), p, d, c, m, code, msg, again)
  {
    CompletingTwice(db, p, c, now, again);
  }

  /** Main result: sending the same report again, at any later time, changes no campaign and no assignment. */
  lemma RepeatedReportChangesNothing(db: Db, p: Id, d: Id, c: Id, m: Milestone, code: Option<nat>, msg: Bytes, now: Time, again: Time)
    ensures var once := ApplyReport(db, p, d, c, m, code, msg, now).db;
            SameRollout(ApplyReport(once, p, d, c, m, code, msg, again).db, once)
  {
    if Target(c, d) in db.assignments {
      if !ReportAccepted(db, p, d, c, m) {
        RefusedReportIsAbsorbed(db, p, d, c, m, code, msg, now, again);
      } else {
        AcceptedReportIsAbsorbed(db, p, d, c, m, code, msg, now, again);
      }
      AbsorbedReportsChangeNothing(ApplyReport(db, p, d, c, m, code, msg, now).db, p, d, c, m, code, msg, again);
    }
  }

  lemma AcceptedReportIsAbsorbed(db: Db, p: Id, d: Id, c: Id, m: Milestone, code: Option<nat>, msg: Bytes, now: Time, again: Time)
    requires ReportAccepted(db, p, d, c, m)
    ensures Absorbed(ApplyReport(db, p, d, c, m, code, msg, now).db, p, d, c, m, code, msg, again)
  {
    var written := WriteReport(db, c, d, m, code, msg);
    if !m.ReportInstalled? {
      WrittenReportIsAbsorbed(written, p, d, c, m, code, msg, now, again);
    } else if FirmwareIn(db, p, db.campaigns[c].firmware) {
      var touched := TouchDevice(written, p, d, Some(db.firmwares[db.campaigns[c].firmware].version), now);
      WrittenReportIsAbsorbed(touched, p, d, c, m, code, msg, now, again);
    }
  }

  /**
   A report that finishes the last device of a campaign completes it exactly when it is not an
   `installed` report about firmware whose row is gone: that one stops before tryAutoComplete.
   */
  lemma FinishingReportCompletesExactly(db: Db, p: Id, d: Id, c: Id, m: Milestone, code: Option<nat>, msg: Bytes, now: Time)
    requires ReportAccepted(db, p, d, c, m) && db.campaigns[c].target > 0
    requires AllTerminal(WriteReport(db, c, d, m, code, msg), c)
    ensures c in ApplyReport(db, p, d, c, m, code, msg, now).db.campaigns
    ensures ApplyReport(db, p, d, c, m, code, msg, now).db.campaigns[c].status.Completed? <==>
            !(m.ReportInstalled? && !FirmwareIn(db, p, db.campaigns[c].firmware))
  {
    var written := WriteReport(db, c, d, m, code, msg);
    NoneLeftIsAllTerminal(written, c);
    if m.ReportInstalled? && FirmwareIn(db, p, db.campaigns[c].firmware) {
      var touched := TouchDevice(written, p, d, Some(db.firmwares[db.campaigns[c].firmware].version), now);
      CompletingLooksAtRollout(touched, written, p, c, now);
    }
  }
}
