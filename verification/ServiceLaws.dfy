/**
 What holds when every service operation runs as a whole, over every history of operations.

 Stronger than under interleaving: completion is exact, campaigns that are not active are frozen,
 and both terminal statuses absorb.
 */
module ServiceLaws {
  import opened Basics
  import opened CampaignState
  import opened Tables
  import opened Queries
  import opened Evolution
  import opened Machine
  import opened System
  import opened CampaignOps
  import Conservation

  datatype Operation =
    | OPoll(p: Id, d: Id, plan: Option<TokenPlan>)
    | ODownload(hash: Bytes)
    | OReport(p: Id, d: Id, c: Id, m: Milestone, code: Option<nat>, msg: Bytes)
    | OVersion(p: Id, d: Id, accepts: Bytes -> bool)
    | OPause(p: Id, c: Id)
    | OResume(p: Id, c: Id)
    | OCancel(p: Id, c: Id)
    | OActivate
    | OCreate(input: CreateInput, c: Id)
    | OOutside(db: Db)

  ghost predicate Possible(db: Db, op: Operation) {
    op.OOutside? ==> OutsideStep(db, op.db)
  }

  ghost function Perform(db: Db, op: Operation, now: Time): Db
    requires Possible(db, op)
  {
    match op
    case OPoll(p, d, plan) => Poll(db, p, d, plan, now).db
    case ODownload(hash) => Redeem(db, hash, now).db
    case OReport(p, d, c, m, code, msg) => ApplyReport(db, p, d, c, m, code, msg, now).db
    case OVersion(p, d, accepts) => ReportVersion(db, p, d, accepts, now)
    case OPause(p, c) => Pause(db, p, c, now)
    case OResume(p, c) => Resume(db, p, c)
    case OCancel(p, c) => Cancel(db, p, c, now)
    case OActivate => ActivateDue(db, now)
    case OCreate(input, c) => CreateCampaign(db, input, c, now)
    case OOutside(db') => db'
  }

  // ---------------------------------------------------------------------------
  // Terminal statuses absorb; inactive campaigns are frozen
  // ---------------------------------------------------------------------------

  predicate SameAssignment(a: Db, b: Db, t: Target) {
    (t in a.assignments <==> t in b.assignments) && (t in a.assignments ==> a.assignments[t] == b.assignments[t])
  }

  /** Assignments are written only in active campaigns, and only while unfinished. */
  ghost predicate WritesOpenOnly(a: Db, b: Db) {
    forall t: Target | t.campaign in a.campaigns ::
      SameAssignment(a, b, t)
      || (a.campaigns[t.campaign].status.Active? && t in a.assignments && t in b.assignments
          && (TerminalAssignment(a.assignments[t].status) ==> a.assignments[t].status == b.assignments[t].status))
  }

  lemma CompletingWritesNoAssignment(db: Db, p: Id, c: Id, now: Time)
    ensures TryAutoComplete(db, p, c, now).assignments == db.assignments
  {
  }

  lemma PollWritesOpenOnly(db: Db, p: Id, d: Id, now: Time)
    ensures WritesOpenOnly(db, BuildPollOffer(db, p, d, now).db)
  {
    var found := FindOffer(db, p, d);
    if found.Some? {
      var c := found.value.campaign;
      assert CampaignIs(db, p, c, {Active}) && AssignmentIs(db, c, d, {Pending, Offered});
      CompletingWritesNoAssignment(Offer(db, c, d), p, c, now);
      OfferWritesOpenOnly(db, c, d);
    }
  }

  /** Two tables that differ in the download tokens at most. */
  predicate TokensApart(a: Db, b: Db) {
    b == a.(otaTokens := b.otaTokens)
  }

  lemma OfferingIssues(db: Db, p: Id, d: Id, row: OfferRow, plan: Option<TokenPlan>, now: Time)
    ensures TokensApart(db, AfterOffer(db, p, d, row, plan, now).db)
  {
  }

  /** Issuing writes download tokens only. */
  lemma PollingIssues(db: Db, p: Id, d: Id, plan: Option<TokenPlan>, now: Time)
    ensures TokensApart(BuildPollOffer(db, p, d, now).db, Poll(db, p, d, plan, now).db)
  {
    var r := BuildPollOffer(db, p, d, now);
    if r.offer.Some? {
      OfferingIssues(r.db, p, d, r.offer.value, plan, now);
    }
  }

  /** So does redeeming. */
  lemma RedeemingConsumes(db: Db, hash: Bytes, now: Time)
    ensures TokensApart(db, Redeem(db, hash, now).db)
  {
  }

  lemma OfferWritesOpenOnly(db: Db, c: Id, d: Id)
    requires c in db.campaigns && db.campaigns[c].status.Active?
    ensures WritesOpenOnly(db, Offer(db, c, d))
  {
  }

  lemma PuttingWritesOpenOnly(db: Db, c: Id, d: Id, row: Assignment)
    requires c in db.campaigns && db.campaigns[c].status.Active?
    requires Target(c, d) in db.assignments
    requires var was := db.assignments[Target(c, d)].status; TerminalAssignment(was) ==> row.status == was
    ensures WritesOpenOnly(db, PutAssignment(db, c, d, row))
  {
  }

  lemma WriteReportWritesOpenOnly(db: Db, c: Id, d: Id, m: Milestone, code: Option<nat>, msg: Bytes)
    requires c in db.campaigns && db.campaigns[c].status.Active?
    ensures WritesOpenOnly(db, WriteReport(db, c, d, m, code, msg))
  {
    if AssignmentIs(db, c, d, From(m)) {
      PuttingWritesOpenOnly(db, c, d, ReportRow(m, code, msg));
    }
  }

  lemma AcceptedReportWrites(db: Db, p: Id, d: Id, c: Id, m: Milestone, code: Option<nat>, msg: Bytes, now: Time)
    requires ReportAccepted(db, p, d, c, m)
    ensures ApplyReport(db, p, d, c, m, code, msg, now).db.assignments == WriteReport(db, c, d, m, code, msg).assignments
  {
    var written := WriteReport(db, c, d, m, code, msg);
    CompletingWritesNoAssignment(written, p, c, now);
    if written.campaigns[c].firmware in written.firmwares {
      var version := written.firmwares[written.campaigns[c].firmware].version;
      CompletingWritesNoAssignment(TouchDevice(written, p, d, Some(version), now), p, c, now);
    }
  }

  lemma ReportWritesOpenOnly(db: Db, p: Id, d: Id, c: Id, m: Milestone, code: Option<nat>, msg: Bytes, now: Time)
    ensures WritesOpenOnly(db, ApplyReport(db, p, d, c, m, code, msg, now).db)
  {
    if ReportAccepted(db, p, d, c, m) {
      AcceptedReportWrites(db, p, d, c, m, code, msg, now);
      WriteReportWritesOpenOnly(db, c, d, m, code, msg);
    } else {
      CompletingWritesNoAssignment(db, p, c, now);
    }
  }

  lemma VersionWritesOpenOnly(db: Db, p: Id, d: Id, accepts: Bytes -> bool, now: Time)
    ensures WritesOpenOnly(db, ReportVersion(db, p, d, accepts, now))
  {
    var found := FindInFlight(db, p, d);
    if found.Some? {
      CompletingWritesNoAssignment(ForceInstalled(db, found.value.campaign, d), p, found.value.campaign, now);
    }
  }

  lemma CreateWritesOpenOnly(db: Db, input: CreateInput, c: Id, now: Time)
    ensures WritesOpenOnly(db, CreateCampaign(db, input, c, now))
  {
    if CreateAllowed(db, input) {
      var chosen := ChosenFrom(input, CompatibleScope(db, input));
      if BundleFits(db, c, input.groups, input.explicit, chosen) {
        forall t: Target | t.campaign in db.campaigns
          ensures SameAssignment(db, CreateCampaign(db, input, c, now), t)
        {
          assert t !in PendingRows(c, chosen);
        }
      }
    }
  }

  lemma EveryOperationWritesOpenOnly(db: Db, op: Operation, now: Time)
    requires Possible(db, op)
    ensures WritesOpenOnly(db, Perform(db, op, now))
  {
    match op
    case OPoll(p, d, plan) => PollWritesOpenOnly(db, p, d, now); PollingIssues(db, p, d, plan, now);
    case ODownload(hash) => RedeemingConsumes(db, hash, now);
    case OReport(p, d, c, m, code, msg) => ReportWritesOpenOnly(db, p, d, c, m, code, msg, now);
    case OVersion(p, d, accepts) => VersionWritesOpenOnly(db, p, d, accepts, now);
    case OCreate(input, c) => CreateWritesOpenOnly(db, input, c, now);
    case _ =>
  }

  /** Main result: an operation changes no assignment of a campaign that is not active. */
  lemma InactiveCampaignsAreFrozen(db: Db, op: Operation, now: Time, t: Target)
    requires Possible(db, op)
    requires t.campaign in db.campaigns && !db.campaigns[t.campaign].status.Active?
    ensures SameAssignment(db, Perform(db, op, now), t)
  {
    EveryOperationWritesOpenOnly(db, op, now);
  }

  /** Main result: an installed or failed assignment keeps that status under every operation. */
  lemma TerminalStatusesAbsorb(db: Db, op: Operation, now: Time, t: Target)
    requires Possible(db, op) && t.campaign in db.campaigns
    requires t in db.assignments && TerminalAssignment(db.assignments[t].status)
    ensures t in Perform(db, op, now).assignments
    ensures Perform(db, op, now).assignments[t].status == db.assignments[t].status
  {
    EveryOperationWritesOpenOnly(db, op, now);
  }

  // ---------------------------------------------------------------------------
  // Completion is exact while the firmware row is live
  // ---------------------------------------------------------------------------

  predicate Rooted(db: Db, c: Id)
    requires c in db.campaigns
  {
    var row := db.campaigns[c];
    row.firmware in db.firmwares && db.firmwares[row.firmware].project == row.project
    && row.target > 0 && |Assigned(db, c)| == row.target
  }

  /** Completed campaigns are finished, and a finished campaign is completed unless its firmware is gone. */
  predicate SettledAt(db: Db, c: Id)
    requires c in db.campaigns
  {
    Rooted(db, c)
    && (db.campaigns[c].status.Completed? ==> AllTerminal(db, c))
    && (AllTerminal(db, c) ==> db.campaigns[c].status.Completed? || db.firmwares[db.campaigns[c].firmware].deleted)
  }

  ghost predicate Settled(db: Db) {
    Conservation.NoOrphans(db) && forall c | c in db.campaigns :: SettledAt(db, c)
  }

  /** b differs from a at most in campaign c and in columns that do not matter here. */
  ghost predicate OnlyAt(a: Db, b: Db, c: Id) {
    && b.campaigns.Keys == a.campaigns.Keys
    && b.firmwares == a.firmwares
    && (forall k | k in a.campaigns && k != c :: b.campaigns[k] == a.campaigns[k])
    && (forall t: Target | t.campaign != c :: SameAssignment(a, b, t))
  }

  lemma OthersStaySettled(a: Db, b: Db, c: Id, k: Id)
    requires OnlyAt(a, b, c) && k in a.campaigns && k != c && SettledAt(a, k)
    ensures SettledAt(b, k)
  {
    assert Assigned(b, k) == Assigned(a, k);
    forall t: Target | t.campaign == k
      ensures SameAssignment(a, b, t)
    {
    }
  }

  lemma OnlyAtKeepsSettled(a: Db, b: Db, c: Id)
    requires Settled(a) && OnlyAt(a, b, c)
    requires c in b.campaigns && SettledAt(b, c)
    ensures Settled(b)
  {
    forall t | t in b.assignments
      ensures t.campaign in b.campaigns
    {
      if t.campaign != c {
        assert SameAssignment(a, b, t);
      }
    }
    forall k | k in b.campaigns
      ensures SettledAt(b, k)
    {
      if k != c {
        OthersStaySettled(a, b, c, k);
      }
    }
  }

  lemma PuttingWritesOneCampaign(db: Db, c: Id, row: Campaign)
    requires c in db.campaigns
    ensures OnlyAt(db, PutCampaign(db, c, row), c)
  {
  }

  lemma CompletingWritesOneCampaign(db: Db, p: Id, c: Id, now: Time)
    requires c in db.campaigns
    ensures OnlyAt(db, TryAutoComplete(db, p, c, now), c)
  {
    PuttingWritesOneCampaign(db, c, db.campaigns[c].(status := Completed, completedAt := Some(now)));
  }

  /** tryAutoComplete settles a campaign of the project whose completed status, if any, is truthful. */
  lemma CompletingSettles(db: Db, p: Id, c: Id, now: Time)
    requires CampaignIn(db, p, c) && Rooted(db, c)
    requires db.campaigns[c].status.Completed? ==> AllTerminal(db, c)
    requires db.campaigns[c].status.Active? || (AllTerminal(db, c) ==> db.campaigns[c].status.Completed? || db.firmwares[db.campaigns[c].firmware].deleted)
    ensures SettledAt(TryAutoComplete(db, p, c, now), c)
    ensures OnlyAt(db, TryAutoComplete(db, p, c, now), c)
  {
    CompletingWritesOneCampaign(db, p, c, now);
    NoneLeftIsAllTerminal(db, c);
    var db' := TryAutoComplete(db, p, c, now);
    assert Assigned(db', c) == Assigned(db, c);
  }

  /** A poll's tryAutoComplete is a no-op: the assignment it has just found is unfinished. */
  lemma PollNeverCompletes(db: Db, p: Id, d: Id, now: Time)
    requires FindOffer(db, p, d).Some?
    ensures var c := FindOffer(db, p, d).value.campaign;
            BuildPollOffer(db, p, d, now).db == Offer(db, c, d)
            && AssignmentIs(Offer(db, c, d), c, d, {Offered})
  {
    var c := FindOffer(db, p, d).value.campaign;
    var offered := Offer(db, c, d);
    assert Target(c, d) in NonTerminal(offered, c);
  }

  lemma RewrittenAssignment(db: Db, c: Id, d: Id, row: Assignment)
    requires Target(c, d) in db.assignments
    ensures OnlyAt(db, PutAssignment(db, c, d, row), c)
    ensures Assigned(PutAssignment(db, c, d, row), c) == Assigned(db, c)
  {
  }

  lemma PollKeepsSettled(db: Db, p: Id, d: Id, now: Time)
    requires Settled(db)
    ensures Settled(BuildPollOffer(db, p, d, now).db)
  {
    var found := FindOffer(db, p, d);
    if found.Some? {
      var c := found.value.campaign;
      PollNeverCompletes(db, p, d, now);
      var db' := Offer(db, c, d);
      if AssignmentIs(db, c, d, {Pending}) {
        RewrittenAssignment(db, c, d, db.assignments[Target(c, d)].(status := Offered));
        assert !AllTerminal(db', c) by { assert Target(c, d) in db'.assignments; }
        OnlyAtKeepsSettled(db, db', c);
      }
    }
  }

  lemma CompletingKeepsSettled(db: Db, p: Id, c: Id, now: Time)
    requires Settled(db)
    ensures Settled(TryAutoComplete(db, p, c, now))
  {
    if CampaignIn(db, p, c) {
      CompletingSettles(db, p, c, now);
      OnlyAtKeepsSettled(db, TryAutoComplete(db, p, c, now), c);
    }
  }

  /** A write to an active campaign's assignment followed by tryAutoComplete. */
  lemma WriteThenCompleteSettles(db: Db, p: Id, c: Id, d: Id, row: Assignment, now: Time)
    requires Settled(db) && CampaignIs(db, p, c, {Active}) && Target(c, d) in db.assignments
    ensures Settled(TryAutoComplete(PutAssignment(db, c, d, row), p, c, now))
  {
    var written := PutAssignment(db, c, d, row);
    var db' := TryAutoComplete(written, p, c, now);
    RewrittenAssignment(db, c, d, row);
    CompletingSettles(written, p, c, now);
    OnlyAtTransitive(db, written, db', c);
    OnlyAtKeepsSettled(db, db', c);
  }

  lemma OnlyAtTransitive(a: Db, b: Db, c: Db, k: Id)
    requires OnlyAt(a, b, k) && OnlyAt(b, c, k)
    ensures OnlyAt(a, c, k)
  {
    forall t: Target | t.campaign != k
      ensures SameAssignment(a, c, t)
    {
      assert SameAssignment(a, b, t) && SameAssignment(b, c, t);
    }
  }

  lemma SettledIgnoresDevices(db: Db, devices: map<Id, Device>)
    requires Settled(db)
    ensures Settled(db.(devices := devices))
  {
    var db' := db.(devices := devices);
    forall k | k in db'.campaigns
      ensures SettledAt(db', k)
    {
      assert SettledAt(db, k);
      assert Assigned(db', k) == Assigned(db, k);
    }
  }

  lemma SettledIgnoresTokens(db: Db, tokens: map<Bytes, OtaToken>)
    requires Settled(db)
    ensures Settled(db.(otaTokens := tokens))
  {
    var db' := db.(otaTokens := tokens);
    forall k | k in db'.campaigns
      ensures SettledAt(db', k)
    {
      assert SettledAt(db, k);
      assert Assigned(db', k) == Assigned(db, k);
    }
  }

  /** Completion neither reads nor writes devices. */
  lemma CompletingIgnoresDevices(db: Db, devices: map<Id, Device>, p: Id, c: Id, now: Time)
    ensures TryAutoComplete(db.(devices := devices), p, c, now) == TryAutoComplete(db, p, c, now).(devices := devices)
  {
    assert NonTerminal(db.(devices := devices), c) == NonTerminal(db, c);
  }

  lemma ReportKeepsSettled(db: Db, p: Id, d: Id, c: Id, m: Milestone, code: Option<nat>, msg: Bytes, now: Time)
    requires Settled(db)
    ensures Settled(ApplyReport(db, p, d, c, m, code, msg, now).db)
  {
    if !ReportAccepted(db, p, d, c, m) {
      CompletingKeepsSettled(db, p, c, now);
    } else {
      var row := ReportRow(m, code, msg);
      var written := PutAssignment(db, c, d, row);
      var f := db.campaigns[c].firmware;
      WriteThenCompleteSettles(db, p, c, d, row, now);
      if m.ReportInstalled? {
        if FirmwareIn(written, p, f) {
          var version := written.firmwares[f].version;
          var touched := TouchDevice(written, p, d, Some(version), now);
          assert touched == written.(devices := touched.devices);
          CompletingIgnoresDevices(written, touched.devices, p, c, now);
          SettledIgnoresDevices(TryAutoComplete(written, p, c, now), touched.devices);
        } else {
          RewrittenAssignment(db, c, d, row);
          OnlyAtKeepsSettled(db, written, c);
        }
      }
    }
  }

  lemma VersionKeepsSettled(db: Db, p: Id, d: Id, accepts: Bytes -> bool, now: Time)
    requires Settled(db)
    ensures Settled(ReportVersion(db, p, d, accepts, now))
  {
    var found := FindInFlight(db, p, d);
    if found.Some? && accepts(found.value.version) {
      var c := found.value.campaign;
      WriteThenCompleteSettles(db, p, c, d, db.assignments[Target(c, d)].(status := Installed), now);
    }
  }

  /** Rewriting a campaign row to another status short of completion. */
  lemma StatusWriteKeepsSettled(db: Db, c: Id, row: Campaign)
    requires Settled(db) && c in db.campaigns && SameCampaign(db.campaigns[c], row)
    requires !db.campaigns[c].status.Completed? && !row.status.Completed?
    ensures Settled(PutCampaign(db, c, row))
  {
    var db' := PutCampaign(db, c, row);
    assert Assigned(db', c) == Assigned(db, c);
    assert SettledAt(db, c);
    OnlyAtKeepsSettled(db, db', c);
  }

  lemma PauseKeepsSettled(db: Db, p: Id, c: Id, now: Time)
    requires Settled(db)
    ensures Settled(Pause(db, p, c, now))
  {
    if CampaignIs(db, p, c, {Active}) {
      StatusWriteKeepsSettled(db, c, db.campaigns[c].(status := Paused, pausedAt := Some(now)));
    }
  }

  lemma ResumeKeepsSettled(db: Db, p: Id, c: Id)
    requires Settled(db)
    ensures Settled(Resume(db, p, c))
  {
    if CampaignIs(db, p, c, {Paused}) {
      StatusWriteKeepsSettled(db, c, db.campaigns[c].(status := Active, pausedAt := None));
    }
  }

  lemma CancelKeepsSettled(db: Db, p: Id, c: Id, now: Time)
    requires Settled(db)
    ensures Settled(Cancel(db, p, c, now))
  {
    if CampaignIs(db, p, c, CANCELLABLE) {
      StatusWriteKeepsSettled(db, c, db.campaigns[c].(status := Cancelled, cancelledAt := Some(now)));
    }
  }

  lemma ActivationKeepsSettled(db: Db, now: Time)
    requires Settled(db)
    ensures Settled(ActivateDue(db, now))
  {
    var db' := ActivateDue(db, now);
    forall k | k in db'.campaigns
      ensures SettledAt(db', k)
    {
      assert SettledAt(db, k);
      assert Assigned(db', k) == Assigned(db, k);
    }
  }

  lemma CreateKeepsSettled(db: Db, input: CreateInput, c: Id, now: Time)
    requires Settled(db)
    ensures Settled(CreateCampaign(db, input, c, now))
  {
    if CreateAllowed(db, input) {
      var chosen := ChosenFrom(input, CompatibleScope(db, input));
      ChosenFromIsSelection(input, CompatibleScope(db, input));
      if BundleFits(db, c, input.groups, input.explicit, chosen) {
        NewCampaignIsSettled(db, input, c, chosen, now);
      }
    }
  }

  lemma NewCampaignIsSettled(db: Db, input: CreateInput, c: Id, chosen: seq<Id>, now: Time)
    requires Settled(db) && FirmwareIn(db, input.project, input.firmware) && chosen != []
    requires BundleFits(db, c, input.groups, input.explicit, chosen)
    ensures Settled(InsertBundle(db, c, NewCampaign(input, |chosen|, now), chosen))
  {
    var draft := NewCampaign(input, |chosen|, now);
    var db' := InsertBundle(db, c, draft, chosen);
    Conservation.BundleIsCounted(db, c, draft, input.groups, input.explicit, chosen);
    assert Target(c, chosen[0]) in PendingRows(c, chosen);
    assert !AllTerminal(db', c) by {
      assert Target(c, chosen[0]) in db'.assignments && db'.assignments[Target(c, chosen[0])] == FRESH;
    }
    forall k | k in db'.campaigns
      ensures SettledAt(db', k)
    {
      if k != c {
        assert SettledAt(db, k);
        OldAssignmentsSurvive(db, c, draft, chosen, k);
      }
    }
  }

  lemma OldAssignmentsSurvive(db: Db, c: Id, draft: Campaign, chosen: seq<Id>, k: Id)
    requires k != c
    ensures Assigned(InsertBundle(db, c, draft, chosen), k) == Assigned(db, k)
    ensures AllTerminal(InsertBundle(db, c, draft, chosen), k) <==> AllTerminal(db, k)
  {
    var db' := InsertBundle(db, c, draft, chosen);
    forall t: Target | t.campaign == k
      ensures SameAssignment(db, db', t)
    {
      assert t !in PendingRows(c, chosen);
    }
  }

  lemma OutsideKeepsSettled(a: Db, b: Db)
    requires Settled(a) && OutsideStep(a, b)
    ensures Settled(b)
  {
    forall k | k in b.campaigns
      ensures SettledAt(b, k)
    {
      assert SettledAt(a, k);
      assert Assigned(a, k) == Assigned(b, k);
    }
  }

  lemma EveryOperationKeepsSettled(db: Db, op: Operation, now: Time)
    requires Possible(db, op) && Settled(db)
    ensures Settled(Perform(db, op, now))
  {
    match op
    case OPoll(p, d, plan) =>
      PollKeepsSettled(db, p, d, now);
      PollingIssues(db, p, d, plan, now);
      SettledIgnoresTokens(BuildPollOffer(db, p, d, now).db, Poll(db, p, d, plan, now).db.otaTokens);
    case ODownload(hash) =>
      RedeemingConsumes(db, hash, now);
      SettledIgnoresTokens(db, Redeem(db, hash, now).db.otaTokens);
    case OReport(p, d, c, m, code, msg) => ReportKeepsSettled(db, p, d, c, m, code, msg, now);
    case OVersion(p, d, accepts) => VersionKeepsSettled(db, p, d, accepts, now);
    case OPause(p, c) => PauseKeepsSettled(db, p, c, now);
    case OResume(p, c) => ResumeKeepsSettled(db, p, c);
    case OCancel(p, c) => CancelKeepsSettled(db, p, c, now);
    case OActivate => ActivationKeepsSettled(db, now);
    case OCreate(input, c) => CreateKeepsSettled(db, input, c, now);
    case OOutside(db') => OutsideKeepsSettled(db, db');
  }

  // ---------------------------------------------------------------------------
  // Histories
  // ---------------------------------------------------------------------------

  datatype Act = Act(op: Operation, now: Time)

  ghost predicate IsHistory(acts: seq<Act>)
    decreases |acts|, 0
  {
    acts == [] || (IsHistory(acts[..|acts| - 1]) && Possible(After(acts[..|acts| - 1]), acts[|acts| - 1].op))
  }

  ghost function After(acts: seq<Act>): Db
    requires IsHistory(acts)
    decreases |acts|, 1
  {
    if acts == [] then EMPTY
    else Perform(After(acts[..|acts| - 1]), acts[|acts| - 1].op, acts[|acts| - 1].now)
  }

  lemma {:induction false} HistoriesAreSettled(acts: seq<Act>)
    requires IsHistory(acts)
    ensures Settled(After(acts))
  {
    if acts != [] {
      HistoriesAreSettled(acts[..|acts| - 1]);
      EveryOperationKeepsSettled(After(acts[..|acts| - 1]), acts[|acts| - 1].op, acts[|acts| - 1].now);
    }
  }

  /**
   Main result: after any history of whole operations, a campaign whose firmware row is live is
   completed if and only if every device it targets is installed or failed.
   */
  lemma {:induction false} CompletedExactlyWhenFinished(acts: seq<Act>, c: Id)
    requires IsHistory(acts) && c in After(acts).campaigns
    ensures var db := After(acts);
            && (db.campaigns[c].status.Completed? ==> AllTerminal(db, c))
            && (FirmwareLive(db, db.campaigns[c].firmware) ==>
                  (db.campaigns[c].status.Completed? <==> AllTerminal(db, c)))
  {
    HistoriesAreSettled(acts);
    assert SettledAt(After(acts), c);
  }
}
