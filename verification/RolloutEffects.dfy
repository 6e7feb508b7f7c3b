/**
 What the rollout operations come to, in terms of the tables alone.

 The operations are composed of queries, guards and writes. The statements here use none of those:
 column by column they say when an operation does something, to which rows, and what it leaves there.
 */
module RolloutEffects {
  import opened Basics
  import opened CampaignState
  import opened Tables
  import opened Queries
  import opened Machine
  import opened CampaignOps
  import Conservation
  import Selection
  import ServiceLaws

  // ---------------------------------------------------------------------------
  // Creation
  // ---------------------------------------------------------------------------

  /** A device of the project, listed or in a listed group, of a type the firmware supports. */
  ghost predicate Targetable(db: Db, input: CreateInput, d: Id) {
    && d in db.devices && db.devices[d].project == input.project
    && (d in input.explicit || exists g | g in input.groups :: Membership(g, d) in db.members)
    && input.firmware in db.firmwares && db.devices[d].deviceType in db.firmwares[input.firmware].deviceTypes
  }

  ghost function Targetables(db: Db, input: CreateInput): set<Id> {
    set d | d in db.devices && Targetable(db, input, d)
  }

  /** What a well-formed request looks like. */
  predicate WellFormed(input: CreateInput) {
    && input.nameGiven && input.firmware != 0 && |input.groups| + |input.explicit| > 0
    && (input.kind == Immediate
        || (input.kind == Percentage && input.percent.Some? && 1 <= input.percent.value <= 100)
        || (input.kind == TimeScheduled && input.scheduledStart.Some?))
  }

  /** When a creation goes through. */
  ghost predicate Creatable(db: Db, input: CreateInput, c: Id) {
    && WellFormed(input) && NoDuplicates(input.groups) && NoDuplicates(input.explicit)
    && input.project in db.projects && db.projects[input.project] == Project(false, false)
    && (forall g | g in input.groups :: g in db.groups && db.groups[g] == DeviceGroup(input.project, false))
    && input.firmware in db.firmwares && db.firmwares[input.firmware].project == input.project
    && !db.firmwares[input.firmware].deleted
    && Targetables(db, input) != {} && c !in db.campaigns
  }

  /** How many of the targetable devices a rollout reaches, and which. */
  ghost predicate ReachesRight(input: CreateInput, all: set<Id>, reached: set<Id>) {
    && reached <= all
    && if input.kind == Percentage && input.percent.Some? then
         && 100 * (|reached| - 1) < |all| * input.percent.value <= 100 * |reached|
         && forall a, b | a in reached && b in all && b !in reached :: a < b
       else reached == all
  }

  /** The campaign row a creation stores. */
  predicate StoredRight(row: Campaign, input: CreateInput, reached: nat, now: Time) {
    && row.project == input.project && row.firmware == input.firmware && row.kind == input.kind
    && row.percent == input.percent && row.scheduledStart == input.scheduledStart
    && row.target == reached && row.createdAt == now
    && (if input.scheduledStart.Some? && now < input.scheduledStart.value
        then row.status == Scheduled && row.activatedAt == None
        else row.status == Active && row.activatedAt == Some(now))
    && row.pausedAt == None && row.cancelledAt == None && row.completedAt == None
  }

  ghost predicate CreatedRight(db: Db, after: Db, input: CreateInput, c: Id, reached: set<Id>, now: Time) {
    && after == db.(campaigns := after.campaigns, assignments := after.assignments)
    && c in after.campaigns && after.campaigns == db.campaigns[c := after.campaigns[c]]
    && StoredRight(after.campaigns[c], input, |reached|, now)
    && (forall t :: t in after.assignments <==> t in db.assignments || (t.campaign == c && t.device in reached))
    && (forall t | t in after.assignments ::
          after.assignments[t] == if t.campaign == c then Assignment(Pending, None, []) else db.assignments[t])
  }

  lemma WellFormedInputs(input: CreateInput)
    ensures ValidInput(input) <==> WellFormed(input)
  {
  }

  lemma ScopeIsTargetable(db: Db, input: CreateInput)
    requires input.firmware in db.firmwares
    ensures CompatibleScope(db, input) == Targetables(db, input)
  {
    forall d
      ensures d in ScopeOf(db, input) && d in CompatibleScope(db, input) <==> d in Targetables(db, input)
    {
      if d in Targetables(db, input) && d !in input.explicit {
        var g :| g in input.groups && Membership(g, d) in db.members;
        assert d in DevicesInGroups(db, input.project, input.groups);
      }
    }
  }

  lemma ChosenAreRight(input: CreateInput, all: set<Id>)
    requires ValidInput(input) && all != {}
    ensures var chosen := ChosenFrom(input, all);
            NoDuplicates(chosen) && |ToSet(chosen)| == |chosen| && ReachesRight(input, all, ToSet(chosen))
  {
    var listed, chosen := Listing(all), ChosenFrom(input, all);
    ChosenFromIsSelection(input, all);
    DistinctCardinality(chosen);
    DistinctCardinality(listed);
    Selection.SortedKeepsDistinct(listed);
    if input.kind == Percentage {
      assert |listed| > 0;
      Selection.StableCountIsExactCeiling(|listed|, input.percent.value);
      assert 100 * (|chosen| - 1) < |all| * input.percent.value;
      forall a, b | a in ToSet(chosen) && b in all && b !in ToSet(chosen)
        ensures a < b
      {
        assert b in ToSet(listed);
        Selection.ChosenComeFirst(listed, input.percent.value, a, b);
        Selection.TextOrderIsByteOrder(a, b);
      }
    }
  }

  lemma CreatableExactly(db: Db, input: CreateInput, c: Id)
    requires Conservation.NoOrphans(db)
    ensures Creatable(db, input, c) <==>
            CreateAllowed(db, input)
            && BundleFits(db, c, input.groups, input.explicit, ChosenFrom(input, CompatibleScope(db, input)))
  {
    WellFormedInputs(input);
    if input.firmware in db.firmwares {
      ScopeIsTargetable(db, input);
      if db.firmwares[input.firmware].deviceTypes == {} {
        assert Targetables(db, input) == {};
      }
      if ValidInput(input) && Targetables(db, input) != {} {
        ChosenAreRight(input, Targetables(db, input));
      }
    }
  }

  lemma InsertedRight(db: Db, input: CreateInput, c: Id, chosen: seq<Id>, now: Time)
    requires Conservation.NoOrphans(db) && c !in db.campaigns && |ToSet(chosen)| == |chosen|
    ensures CreatedRight(db, InsertBundle(db, c, NewCampaign(input, |chosen|, now), chosen), input, c, ToSet(chosen), now)
  {
  }

  /**
   Main result: a creation changes the tables if and only if every check holds; then it stores the
   campaign as asked and one fresh assignment for each device it reaches: all that can be targeted,
   or for a percentage rollout the least number of them that makes up the percentage, first ids first.
   */
  lemma CreationEffect(db: Db, input: CreateInput, c: Id, now: Time) returns (reached: set<Id>)
    requires Conservation.NoOrphans(db)
    ensures var after := CreateCampaign(db, input, c, now);
            if Creatable(db, input, c)
            then ReachesRight(input, Targetables(db, input), reached) && CreatedRight(db, after, input, c, reached, now)
            else after == db
  {
    CreatableExactly(db, input, c);
    reached := {};
    if Creatable(db, input, c) {
      ScopeIsTargetable(db, input);
      var chosen := ChosenFrom(input, Targetables(db, input));
      ChosenAreRight(input, Targetables(db, input));
      InsertedRight(db, input, c, chosen, now);
      reached := ToSet(chosen);
    }
  }

  // ---------------------------------------------------------------------------
  // Polls
  // ---------------------------------------------------------------------------

  /** An active campaign of the project with a live firmware row, in which the device has that status. */
  predicate Open(db: Db, p: Id, d: Id, c: Id, status: AssignmentStatus) {
    && c in db.campaigns && db.campaigns[c].project == p && db.campaigns[c].status == Active
    && db.campaigns[c].firmware in db.firmwares && !db.firmwares[db.campaigns[c].firmware].deleted
    && Target(c, d) in db.assignments && db.assignments[Target(c, d)].status == status
  }

  /** The earlier creation comes first, and of two at the same instant the smaller id. */
  predicate ComesFirst(db: Db, a: Id, b: Id)
    requires a in db.campaigns && b in db.campaigns
  {
    db.campaigns[a].createdAt < db.campaigns[b].createdAt
    || (db.campaigns[a].createdAt == db.campaigns[b].createdAt && a <= b)
  }

  /** The offer of a poll: a pending campaign if there is one, else an offered one, the first of its kind. */
  ghost predicate OfferedRight(db: Db, p: Id, d: Id, row: OfferRow) {
    && (row.status == Pending || (row.status == Offered && forall c :: !Open(db, p, d, c, Pending)))
    && Open(db, p, d, row.campaign, row.status)
    && (forall c | Open(db, p, d, c, row.status) :: ComesFirst(db, row.campaign, c))
    && row.firmware == db.campaigns[row.campaign].firmware
    && row.version == db.firmwares[row.firmware].version && row.checksum == db.firmwares[row.firmware].checksum
  }

  lemma CandidatesAreOpen(db: Db, p: Id, d: Id, status: AssignmentStatus)
    ensures forall c :: c in Candidates(db, p, d, {status}) <==> Open(db, p, d, c, status)
  {
  }

  lemma FoundRight(db: Db, p: Id, d: Id)
    ensures match FindOffer(db, p, d)
            case None => forall c :: !Open(db, p, d, c, Pending) && !Open(db, p, d, c, Offered)
            case Some(row) => OfferedRight(db, p, d, row)
  {
    CandidatesAreOpen(db, p, d, Pending);
    CandidatesAreOpen(db, p, d, Offered);
    var pending, offered := Candidates(db, p, d, {Pending}), Candidates(db, p, d, {Offered});
    if pending != {} {
      assert IsOldest(db, pending, Oldest(db, pending));
    } else if offered != {} {
      assert IsOldest(db, offered, Oldest(db, offered));
    }
  }

  /** The offered row, and nothing else, becomes offered. */
  predicate OnlyOffers(db: Db, after: Db, t: Target) {
    t in db.assignments
    && after == db.(assignments := db.assignments[t := db.assignments[t].(status := Offered)])
  }

  /** Main result: what a poll answers and writes, without a campaign being open and with one. */
  lemma PollEffect(db: Db, p: Id, d: Id, now: Time)
    ensures var r := BuildPollOffer(db, p, d, now);
            match r.offer
            case None => r.db == db && forall c :: !Open(db, p, d, c, Pending) && !Open(db, p, d, c, Offered)
            case Some(row) => OfferedRight(db, p, d, row) && OnlyOffers(db, r.db, Target(row.campaign, d))
  {
    FoundRight(db, p, d);
    if FindOffer(db, p, d).Some? {
      var row := FindOffer(db, p, d).value;
      ServiceLaws.PollNeverCompletes(db, p, d, now);
      if row.status == Offered {
        assert db.assignments[Target(row.campaign, d) := db.assignments[Target(row.campaign, d)]] == db.assignments;
      }
    }
  }

  // ---------------------------------------------------------------------------
  // Completion
  // ---------------------------------------------------------------------------

  predicate CanComplete(db: Db, p: Id, c: Id) {
    && c in db.campaigns && db.campaigns[c].project == p && db.campaigns[c].status == Active && db.campaigns[c].target > 0
    && forall t | t in db.assignments && t.campaign == c :: db.assignments[t].status == Installed || db.assignments[t].status == Failed
  }

  function CompletedRow(db: Db, c: Id, now: Time): map<Id, Campaign>
    requires c in db.campaigns
  {
    db.campaigns[c := db.campaigns[c].(status := Completed, completedAt := Some(now))]
  }

  /** The tables once a finished campaign has been completed. */
  function Finish(db: Db, p: Id, c: Id, now: Time): (after: Db)
    ensures after == db.(campaigns := after.campaigns)
  {
    if CanComplete(db, p, c) then db.(campaigns := CompletedRow(db, c, now)) else db
  }

  lemma CompletionEffect(db: Db, p: Id, c: Id, now: Time)
    ensures TryAutoComplete(db, p, c, now) == Finish(db, p, c, now)
  {
    NoneLeftIsAllTerminal(db, c);
  }

  // ---------------------------------------------------------------------------
  // Reports
  // ---------------------------------------------------------------------------

  /** The statuses each report may meet. */
  predicate Meets(m: Milestone, status: AssignmentStatus) {
    match m
    case ReportDownloaded => status == Offered || status == Downloaded
    case ReportInstalled => status == Offered || status == Downloaded || status == Installed
    case ReportFailed => status == Pending || status == Offered || status == Downloaded || status == Failed
  }

  predicate Reportable(db: Db, p: Id, d: Id, c: Id, m: Milestone) {
    && c in db.campaigns && db.campaigns[c].project == p && db.campaigns[c].status == Active
    && Target(c, d) in db.assignments && Meets(m, db.assignments[Target(c, d)].status)
  }

  /** The row a report leaves: only a failure keeps a code and a message. */
  function RowAfter(m: Milestone, code: Option<nat>, msg: Bytes): Assignment {
    match m
    case ReportDownloaded => Assignment(Downloaded, None, [])
    case ReportInstalled => Assignment(Installed, None, [])
    case ReportFailed => Assignment(Failed, code, msg)
  }

  /** The campaign's firmware row, if it is still there. */
  predicate FirmwareThere(db: Db, p: Id, c: Id)
    requires c in db.campaigns
  {
    var f := db.campaigns[c].firmware;
    f in db.firmwares && !db.firmwares[f].deleted && db.firmwares[f].project == p
  }

  /** The device row after a sighting. */
  function Seen(devices: map<Id, Device>, p: Id, d: Id, version: Option<Bytes>, now: Time): map<Id, Device> {
    if d !in devices || devices[d].project != p then devices
    else devices[d := devices[d].(lastSeen := Some(now),
                                  firmwareVersion := if version.Some? then version.value else devices[d].firmwareVersion)]
  }

  lemma SeenIsTouched(db: Db, p: Id, d: Id, version: Option<Bytes>, now: Time)
    ensures TouchDevice(db, p, d, version, now) == db.(devices := Seen(db.devices, p, d, version, now))
  {
  }

  /** The tables a report has written before it tries to complete the campaign. */
  function Reported(trim: Bytes -> Bytes, db: Db, p: Id, d: Id, c: Id, m: Milestone, code: Option<nat>, msg: Bytes, now: Time): Db {
    if !Reportable(db, p, d, c, m) then db
    else
      var written := db.(assignments := db.assignments[Target(c, d) := RowAfter(m, code, msg)]);
      if m.ReportInstalled? && FirmwareThere(db, p, c)
      then written.(devices := Seen(db.devices, p, d, Some(trim(db.firmwares[db.campaigns[c].firmware].version)), now))
      else written
  }

  predicate Stops(db: Db, p: Id, d: Id, c: Id, m: Milestone) {
    Target(c, d) !in db.assignments || (Reportable(db, p, d, c, m) && m.ReportInstalled? && !FirmwareThere(db, p, c))
  }

  /** The tables a report leaves. */
  function AfterReport(trim: Bytes -> Bytes, db: Db, p: Id, d: Id, c: Id, m: Milestone, code: Option<nat>, msg: Bytes, now: Time): Db {
    var written := Reported(trim, db, p, d, c, m, code, msg, now);
    if Stops(db, p, d, c, m) then written else Finish(written, p, c, now)
  }

  lemma ReportedWrites(trim: Bytes -> Bytes, db: Db, p: Id, d: Id, c: Id, m: Milestone, code: Option<nat>, msg: Bytes, now: Time)
    ensures Reported(trim, db, p, d, c, m, code, msg, now).assignments ==
            if Reportable(db, p, d, c, m) then db.assignments[Target(c, d) := RowAfter(m, code, msg)] else db.assignments
  {
  }

  lemma ReportedRow(trim: Bytes -> Bytes, db: Db, p: Id, d: Id, c: Id, m: Milestone, code: Option<nat>, msg: Bytes, now: Time)
    ensures AfterReport(trim, db, p, d, c, m, code, msg, now).assignments ==
            if Reportable(db, p, d, c, m) then db.assignments[Target(c, d) := RowAfter(m, code, msg)] else db.assignments
  {
    ReportedWrites(trim, db, p, d, c, m, code, msg, now);
  }

  lemma AcceptedExactly(db: Db, p: Id, d: Id, c: Id, m: Milestone, code: Option<nat>, msg: Bytes)
    ensures ReportAccepted(db, p, d, c, m) <==> Reportable(db, p, d, c, m)
    ensures Reportable(db, p, d, c, m) ==>
              WriteReport(db, c, d, m, code, msg) == db.(assignments := db.assignments[Target(c, d) := RowAfter(m, code, msg)])
  {
  }

  /**
   Main result: a report rewrites its one assignment exactly when the campaign of the project is
   active and the status fits, an installed one also the device's version; then the campaign is
   completed if that finished it, unless the report had to stop.
   */
  lemma ReportEffect(trim: Bytes -> Bytes, db: Db, p: Id, d: Id, c: Id, m: Milestone, code: Option<nat>, msg: Bytes, now: Time)
    ensures var r := TrimmedReport(trim, db, p, d, c, m, code, msg, now);
            && r.db == AfterReport(trim, db, p, d, c, m, code, msg, now)
            && (r.version.Err? <==> Stops(db, p, d, c, m))
            && (r.version.Ok? ==>
                  r.version.value == if m.ReportInstalled? && Reportable(db, p, d, c, m)
                                     then trim(db.firmwares[db.campaigns[c].firmware].version) else [])
  {
    AcceptedExactly(db, p, d, c, m, code, msg);
    var written := Reported(trim, db, p, d, c, m, code, msg, now);
    CompletionEffect(written, p, c, now);
    if Reportable(db, p, d, c, m) && m.ReportInstalled? && FirmwareThere(db, p, c) {
      var row := db.(assignments := db.assignments[Target(c, d) := RowAfter(m, code, msg)]);
      SeenIsTouched(row, p, d, Some(trim(db.firmwares[db.campaigns[c].firmware].version)), now);
    }
  }

  /** The update a version report may complete: the first campaign the device is in the middle of. */
  ghost predicate InTheMiddle(db: Db, p: Id, d: Id, c: Id) {
    Open(db, p, d, c, Offered) || Open(db, p, d, c, Downloaded)
  }

  lemma MiddleFound(db: Db, p: Id, d: Id)
    ensures match FindInFlight(db, p, d)
            case None => forall c :: !InTheMiddle(db, p, d, c)
            case Some(row) => InTheMiddle(db, p, d, row.campaign) && row.version == db.firmwares[db.campaigns[row.campaign].firmware].version
                              && forall c | InTheMiddle(db, p, d, c) :: ComesFirst(db, row.campaign, c)
  {
    var s := Candidates(db, p, d, {Offered, Downloaded});
    assert forall c :: c in s <==> InTheMiddle(db, p, d, c);
    if s != {} {
      assert IsOldest(db, s, Oldest(db, s));
    }
  }

  /** What a version report leaves: its campaign's row installed, if the version is the one on its way. */
  ghost predicate VersionReported(db: Db, after: Db, p: Id, d: Id, c: Id, accepts: Bytes -> bool, now: Time) {
    && InTheMiddle(db, p, d, c) && (forall k | InTheMiddle(db, p, d, k) :: ComesFirst(db, c, k))
    && if !accepts(db.firmwares[db.campaigns[c].firmware].version) then after == db
       else
         var t := Target(c, d);
         var written := db.(assignments := db.assignments[t := db.assignments[t].(status := Installed)]);
         after == Finish(written, p, c, now)
  }

  /** Main result: a version report installs the first update under way if and only if it names its version. */
  lemma VersionReportEffect(db: Db, p: Id, d: Id, accepts: Bytes -> bool, now: Time)
    ensures var after := ReportVersion(db, p, d, accepts, now);
            if exists c :: InTheMiddle(db, p, d, c) then exists c :: VersionReported(db, after, p, d, c, accepts, now)
            else after == db
  {
    MiddleFound(db, p, d);
    if FindInFlight(db, p, d).Some? {
      var c := FindInFlight(db, p, d).value.campaign;
      CompletionEffect(ForceInstalled(db, c, d), p, c, now);
      assert VersionReported(db, ReportVersion(db, p, d, accepts, now), p, d, c, accepts, now);
    }
  }

  // ---------------------------------------------------------------------------
  // Operators, the scheduler, progress
  // ---------------------------------------------------------------------------

  predicate InProjectWith(db: Db, p: Id, c: Id, status: CampaignStatus) {
    c in db.campaigns && db.campaigns[c].project == p && db.campaigns[c].status == status
  }

  /** Pausing, resuming and cancelling, and what each undoes. */
  lemma OperatorEffects(db: Db, p: Id, c: Id, now: Time)
    ensures Pause(db, p, c, now) == if InProjectWith(db, p, c, Active)
              then db.(campaigns := db.campaigns[c := db.campaigns[c].(status := Paused, pausedAt := Some(now))]) else db
    ensures Resume(db, p, c) == if InProjectWith(db, p, c, Paused)
              then db.(campaigns := db.campaigns[c := db.campaigns[c].(status := Active, pausedAt := None)]) else db
    ensures Cancel(db, p, c, now) ==
              if InProjectWith(db, p, c, Draft) || InProjectWith(db, p, c, Scheduled) || InProjectWith(db, p, c, Active)
                 || InProjectWith(db, p, c, Paused)
              then db.(campaigns := db.campaigns[c := db.campaigns[c].(status := Cancelled, cancelledAt := Some(now))]) else db
    ensures InProjectWith(db, p, c, Active) && db.campaigns[c].pausedAt == None ==> Resume(Pause(db, p, c, now), p, c) == db
  {
    if InProjectWith(db, p, c, Active) && db.campaigns[c].pausedAt == None {
      assert Resume(Pause(db, p, c, now), p, c).campaigns == db.campaigns;
    }
  }

  /** One scheduler tick, row by row. */
  lemma TickEffect(db: Db, now: Time)
    ensures var after := ActivateDue(db, now);
            && after == db.(campaigns := after.campaigns) && after.campaigns.Keys == db.campaigns.Keys
            && forall c | c in db.campaigns ::
                 var row := db.campaigns[c];
                 after.campaigns[c] == if row.status == Scheduled && row.scheduledStart.Some? && row.scheduledStart.value <= now
                                       then row.(status := Active, activatedAt := Some(now)) else row
  {
  }

  function HowMany(db: Db, c: Id, status: AssignmentStatus): nat {
    |set t | t in db.assignments && t.campaign == c && db.assignments[t].status == status|
  }

  /** Each count is of its own status, and the percentages are of the target. */
  lemma ProgressIsRight(db: Db, c: Id, target: nat)
    ensures var p := Conservation.BuildProgress(db, c, target);
            && p.pending == HowMany(db, c, Pending) && p.offered == HowMany(db, c, Offered)
            && p.downloaded == HowMany(db, c, Downloaded) && p.installed == HowMany(db, c, Installed)
            && p.failed == HowMany(db, c, Failed) && p.target == target
            && (target > 0 ==> p.successPercent * target as real == 100.0 * p.installed as real
                               && p.completionPercent * target as real == 100.0 * (p.installed + p.failed) as real)
            && (target == 0 ==> p.successPercent == p.completionPercent == 0.0)
  {
    var p := Conservation.BuildProgress(db, c, target);
    if target > 0 {
      DividesBack(p.installed, target);
      DividesBack(p.installed + p.failed, target);
    }
  }

  lemma DividesBack(part: nat, target: nat)
    requires target > 0
    ensures Conservation.Percent(part, target) * target as real == 100.0 * part as real
  {
  }

  // ---------------------------------------------------------------------------
  // Download tokens
  // ---------------------------------------------------------------------------

  /** A token is issued exactly for live firmware of the project under a new hash, and stored as asked. */
  lemma IssueEffect(db: Db, p: Id, d: Id, row: OfferRow, issue: TokenPlan, now: Time)
    ensures var r := IssueToken(db, p, d, row, issue, now);
            if row.firmware in db.firmwares && !db.firmwares[row.firmware].deleted && db.firmwares[row.firmware].project == p
               && issue.hash !in db.otaTokens
            then r.expiresAt == Some(now + issue.ttl)
                 && r.db == db.(otaTokens := db.otaTokens[issue.hash :=
                              OtaToken(p, d, row.campaign, row.firmware, now + issue.ttl, None)])
            else r.expiresAt == None && r.db == db
  {
  }

  /** A token may be redeemed: unspent, in time, its device in its project and not blocked. */
  predicate Spendable(db: Db, hash: Bytes, now: Time) {
    hash in db.otaTokens
    && var t := db.otaTokens[hash];
       t.consumedAt == None && now < t.expiresAt
       && t.device in db.devices && db.devices[t.device].project == t.project && !db.devices[t.device].blocked
  }

  /** Redeeming spends exactly the spendable tokens, and serves the firmware if its row is live. */
  lemma RedemptionEffect(db: Db, hash: Bytes, now: Time)
    ensures var r := Redeem(db, hash, now);
            if Spendable(db, hash, now) then
              var t := db.otaTokens[hash];
              && r.db == db.(otaTokens := db.otaTokens[hash := t.(consumedAt := Some(now))])
              && r.outcome == if t.firmware in db.firmwares && !db.firmwares[t.firmware].deleted
                                 && db.firmwares[t.firmware].project == t.project
                              then Served(hash, t.firmware, now) else Burned(hash, now)
            else r.db == db && r.outcome == Refused
  {
  }
}
