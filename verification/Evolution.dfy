/**
 What every write of the engine keeps, whoever issues it and whatever it was decided on.

 Guarantees relates the tables before and after one repository call; Evolves is its transitive
 closure. Decisions taken on stale reads are sound exactly when they only rely on facts that
 Evolves preserves, so this relation carries every argument about interleavings.
 */
module Evolution {
  import opened Basics
  import opened CampaignState
  import opened Tables
  import opened Queries

  /** The columns of a campaign that no call ever updates. */
  predicate SameCampaign(a: Campaign, b: Campaign) {
    a.project == b.project && a.firmware == b.firmware && a.kind == b.kind && a.percent == b.percent
    && a.scheduledStart == b.scheduledStart && a.target == b.target && a.createdAt == b.createdAt
  }

  /** Campaigns are never dropped and each moves along the documented state machine. */
  ghost predicate CampaignsStep(a: Db, b: Db) {
    forall c | c in a.campaigns ::
      c in b.campaigns && SameCampaign(a.campaigns[c], b.campaigns[c])
      && CanTransition(a.campaigns[c].status, b.campaigns[c].status)
  }

  ghost predicate CampaignsEvolve(a: Db, b: Db) {
    forall c | c in a.campaigns ::
      c in b.campaigns && SameCampaign(a.campaigns[c], b.campaigns[c])
      && LeadsTo(a.campaigns[c].status, b.campaigns[c].status)
  }

  /** Assignments only climb, and a campaign's set of assignments is fixed once it exists. */
  ghost predicate AssignmentsEvolve(a: Db, b: Db) {
    && (forall t | t in a.assignments ::
          t in b.assignments && Rank(a.assignments[t].status) <= Rank(b.assignments[t].status))
    && (forall t | t in b.assignments :: t.campaign in a.campaigns ==> t in a.assignments)
  }

  /** Firmware content and device identity are immutable; firmware may only be soft-deleted. */
  ghost predicate CatalogEvolves(a: Db, b: Db) {
    && (forall f | f in a.firmwares ::
          f in b.firmwares
          && (b.firmwares[f] == a.firmwares[f] || b.firmwares[f] == a.firmwares[f].(deleted := true)))
    && (forall d | d in a.devices ::
          d in b.devices && b.devices[d].project == a.devices[d].project
          && b.devices[d].deviceType == a.devices[d].deviceType)
  }

  predicate SameToken(a: OtaToken, b: OtaToken) {
    a.project == b.project && a.device == b.device && a.campaign == b.campaign && a.firmware == b.firmware
    && a.expiresAt == b.expiresAt
  }

  /** A download token keeps its columns, and once consumed it stays consumed at that instant. */
  ghost predicate TokensEvolve(a: Db, b: Db) {
    forall h | h in a.otaTokens ::
      h in b.otaTokens && SameToken(a.otaTokens[h], b.otaTokens[h])
      && (a.otaTokens[h].consumedAt.Some? ==> b.otaTokens[h].consumedAt == a.otaTokens[h].consumedAt)
  }

  ghost predicate Guarantees(a: Db, b: Db) {
    CampaignsStep(a, b) && AssignmentsEvolve(a, b) && CatalogEvolves(a, b) && TokensEvolve(a, b)
  }

  ghost predicate Evolves(a: Db, b: Db) {
    CampaignsEvolve(a, b) && AssignmentsEvolve(a, b) && CatalogEvolves(a, b) && TokensEvolve(a, b)
  }

  lemma GuaranteesEvolves(a: Db, b: Db)
    requires Guarantees(a, b)
    ensures Evolves(a, b)
  {
    forall c | c in a.campaigns
      ensures c in b.campaigns && SameCampaign(a.campaigns[c], b.campaigns[c])
              && LeadsTo(a.campaigns[c].status, b.campaigns[c].status)
    {
      LeadsToIsReflexiveTransitive(a.campaigns[c].status, b.campaigns[c].status, b.campaigns[c].status);
    }
  }

  lemma EvolvesReflexive(a: Db)
    ensures Evolves(a, a)
  {
    forall c | c in a.campaigns
      ensures LeadsTo(a.campaigns[c].status, a.campaigns[c].status)
    {
      LeadsToIsReflexiveTransitive(a.campaigns[c].status, a.campaigns[c].status, a.campaigns[c].status);
    }
  }

  lemma EvolvesTransitive(a: Db, b: Db, c: Db)
    requires Evolves(a, b) && Evolves(b, c)
    ensures Evolves(a, c)
  {
    forall k | k in a.campaigns
      ensures k in c.campaigns && SameCampaign(a.campaigns[k], c.campaigns[k])
              && LeadsTo(a.campaigns[k].status, c.campaigns[k].status)
    {
      LeadsToIsReflexiveTransitive(a.campaigns[k].status, b.campaigns[k].status, c.campaigns[k].status);
    }
    assert AssignmentsEvolve(a, c) by {
      forall t | t in c.assignments && t.campaign in a.campaigns
        ensures t in a.assignments
      {
        assert t.campaign in b.campaigns;
      }
    }
  }

  // ---------------------------------------------------------------------------
  // Each write keeps the guarantee, with no assumption on the tables
  // ---------------------------------------------------------------------------

  lemma UnchangedGuarantees(db: Db)
    ensures Guarantees(db, db)
  {
  }

  /** Rewriting one campaign row is harmless if it keeps the identity and follows a transition. */
  lemma PutCampaignGuarantees(db: Db, c: Id, row: Campaign)
    requires c in db.campaigns && SameCampaign(db.campaigns[c], row)
    requires CanTransition(db.campaigns[c].status, row.status)
    ensures Guarantees(db, PutCampaign(db, c, row))
  {
  }

  lemma MarkCompletedGuarantees(db: Db, p: Id, c: Id, now: Time)
    ensures Guarantees(db, MarkCompleted(db, p, c, now))
  {
    if CampaignIs(db, p, c, {Active}) {
      PutCampaignGuarantees(db, c, db.campaigns[c].(status := Completed, completedAt := Some(now)));
    }
  }

  lemma PauseGuarantees(db: Db, p: Id, c: Id, now: Time)
    ensures Guarantees(db, Pause(db, p, c, now))
  {
    if CampaignIs(db, p, c, {Active}) {
      PutCampaignGuarantees(db, c, db.campaigns[c].(status := Paused, pausedAt := Some(now)));
    }
  }

  lemma ResumeGuarantees(db: Db, p: Id, c: Id)
    ensures Guarantees(db, Resume(db, p, c))
  {
    if CampaignIs(db, p, c, {Paused}) {
      PutCampaignGuarantees(db, c, db.campaigns[c].(status := Active, pausedAt := None));
    }
  }

  lemma CancelGuarantees(db: Db, p: Id, c: Id, now: Time)
    ensures Guarantees(db, Cancel(db, p, c, now))
  {
    if CampaignIs(db, p, c, CANCELLABLE) {
      PutCampaignGuarantees(db, c, db.campaigns[c].(status := Cancelled, cancelledAt := Some(now)));
    }
  }

  lemma ActivateDueGuarantees(db: Db, now: Time)
    ensures Guarantees(db, ActivateDue(db, now))
  {
  }

  /** Rewriting one assignment row is harmless if the status does not drop. */
  lemma PutAssignmentGuarantees(db: Db, c: Id, d: Id, row: Assignment)
    requires Target(c, d) in db.assignments
    requires Rank(db.assignments[Target(c, d)].status) <= Rank(row.status)
    ensures Guarantees(db, PutAssignment(db, c, d, row))
  {
  }

  lemma OfferGuarantees(db: Db, c: Id, d: Id)
    ensures Guarantees(db, Offer(db, c, d))
  {
    if AssignmentIs(db, c, d, {Pending}) {
      PutAssignmentGuarantees(db, c, d, db.assignments[Target(c, d)].(status := Offered));
    }
  }

  /** Setting `installed` without a guard still only climbs: it is the top status. */
  lemma ForceInstalledGuarantees(db: Db, c: Id, d: Id)
    ensures Guarantees(db, ForceInstalled(db, c, d))
  {
    if Target(c, d) in db.assignments {
      PutAssignmentGuarantees(db, c, d, db.assignments[Target(c, d)].(status := Installed));
    }
  }

  lemma WriteReportGuarantees(db: Db, c: Id, d: Id, m: Milestone, code: Option<nat>, msg: Bytes)
    ensures Guarantees(db, WriteReport(db, c, d, m, code, msg))
  {
    if AssignmentIs(db, c, d, From(m)) {
      PutAssignmentGuarantees(db, c, d, ReportRow(m, code, msg));
    }
  }

  lemma InsertBundleGuarantees(db: Db, c: Id, row: Campaign, groups: seq<Id>, explicit: seq<Id>, devices: seq<Id>)
    requires BundleFits(db, c, groups, explicit, devices)
    ensures Guarantees(db, InsertBundle(db, c, row, devices))
  {
    var db' := InsertBundle(db, c, row, devices);
    forall t | t in db.assignments
      ensures t in db'.assignments && db'.assignments[t] == db.assignments[t]
    {
      assert t !in PendingRows(c, devices);
    }
  }

  lemma PutDeviceGuarantees(db: Db, d: Id, row: Device)
    requires d in db.devices ==> db.devices[d].project == row.project && db.devices[d].deviceType == row.deviceType
    ensures Guarantees(db, PutDevice(db, d, row))
  {
  }

  lemma TouchDeviceGuarantees(db: Db, p: Id, d: Id, version: Option<Bytes>, now: Time)
    ensures Guarantees(db, TouchDevice(db, p, d, version, now))
  {
    if DeviceIn(db, p, d) {
      PutDeviceGuarantees(db, d, Touched(db.devices[d], version, now));
    }
  }

  lemma PutTokenGuarantees(db: Db, hash: Bytes, row: OtaToken)
    requires hash in db.otaTokens ==> SameToken(db.otaTokens[hash], row) && db.otaTokens[hash].consumedAt.None?
    ensures Guarantees(db, PutToken(db, hash, row))
  {
    var db' := PutToken(db, hash, row);
    assert TokensEvolve(db, db');
    assert db'.campaigns == db.campaigns && db'.assignments == db.assignments;
  }

  lemma InsertTokenGuarantees(db: Db, hash: Bytes, row: OtaToken)
    ensures Guarantees(db, InsertToken(db, hash, row))
  {
    if hash !in db.otaTokens {
      PutTokenGuarantees(db, hash, row);
    }
  }

  lemma ConsumeGuarantees(db: Db, hash: Bytes, now: Time)
    ensures Guarantees(db, Consume(db, hash, now))
  {
    if Unconsumed(db, hash) {
      PutTokenGuarantees(db, hash, db.otaTokens[hash].(consumedAt := Some(now)));
    }
  }
}
