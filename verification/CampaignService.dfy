/**
 The campaign service as it is written: a sequence of repository calls with early returns. Each
 method is shown to compute the whole operation of CampaignOps, which is where its laws are proved.
 */
module CampaignService {
  import opened Basics
  import opened CampaignState
  import opened Tables
  import opened Queries
  import opened Machine
  import opened CampaignOps
  import opened Repositories
  import Conservation
  import RolloutEffects
  import Selection

  datatype CreateError =
    | ProjectMissing
    | ProjectArchived
    | NameRequired
    | FirmwareRequired
    | ScopeRequired
    | PercentOutOfRange
    | StartRequired
    | UnknownRollout
    | UnknownGroup
    | CreateFirmwareMissing
    | NoDeviceTypes
    | NoCompatibleDevices
    | InsertConflict

  /** The first check an input fails, in the order the service makes them. */
  function InputVerdict(input: CreateInput): (r: Option<CreateError>)
    ensures r.None? <==> ValidInput(input)
  {
    if !input.nameGiven then Some(NameRequired)
    else if input.firmware == NIL then Some(FirmwareRequired)
    else if input.groups == [] && input.explicit == [] then Some(ScopeRequired)
    else match input.kind
         case Immediate => None
         case Percentage =>
           if input.percent.None? || input.percent.value < 1 || input.percent.value > 100
           then Some(PercentOutOfRange) else None
         case TimeScheduled => if input.scheduledStart.None? then Some(StartRequired) else None
         case UnknownKind => Some(UnknownRollout)
  }

  /** The error a creation ends with; None exactly when it may go on to the insert. */
  function CreateVerdict(db: Db, input: CreateInput): (r: Option<CreateError>)
    ensures r.None? <==> CreateAllowed(db, input)
  {
    if input.project !in db.projects || db.projects[input.project].deleted then Some(ProjectMissing)
    else if db.projects[input.project].archived then Some(ProjectArchived)
    else if InputVerdict(input).Some? then InputVerdict(input)
    else if exists g | g in input.groups :: !GroupIn(db, input.project, g) then Some(UnknownGroup)
    else if !FirmwareIn(db, input.project, input.firmware) then Some(CreateFirmwareMissing)
    else if db.firmwares[input.firmware].deviceTypes == {} then Some(NoDeviceTypes)
    else if CompatibleScope(db, input) == {} then Some(NoCompatibleDevices)
    else None
  }

  /** What each refusal of a creation is about. */
  ghost predicate Lacks(db: Db, input: CreateInput, e: CreateError) {
    match e
    case ProjectMissing => input.project !in db.projects || db.projects[input.project].deleted
    case ProjectArchived => input.project in db.projects && db.projects[input.project].archived
    case NameRequired => !input.nameGiven
    case FirmwareRequired => input.firmware == 0
    case ScopeRequired => |input.groups| + |input.explicit| == 0
    case PercentOutOfRange => input.kind == Percentage && !(input.percent.Some? && 1 <= input.percent.value <= 100)
    case StartRequired => input.kind == TimeScheduled && input.scheduledStart == None
    case UnknownRollout => input.kind == UnknownKind
    case UnknownGroup =>
      exists g | g in input.groups :: g !in db.groups || db.groups[g] != DeviceGroup(input.project, false)
    case CreateFirmwareMissing =>
      input.firmware !in db.firmwares || db.firmwares[input.firmware].deleted || db.firmwares[input.firmware].project != input.project
    case NoDeviceTypes => input.firmware in db.firmwares && db.firmwares[input.firmware].deviceTypes == {}
    case NoCompatibleDevices => RolloutEffects.Targetables(db, input) == {}
    case InsertConflict => false
  }

  /** The order of the checks; the three about the kind exclude each other. */
  function Turn(e: CreateError): nat {
    match e
    case ProjectMissing => 0
    case ProjectArchived => 1
    case NameRequired => 2
    case FirmwareRequired => 3
    case ScopeRequired => 4
    case PercentOutOfRange => 5
    case StartRequired => 5
    case UnknownRollout => 5
    case UnknownGroup => 6
    case CreateFirmwareMissing => 7
    case NoDeviceTypes => 8
    case NoCompatibleDevices => 9
    case InsertConflict => 10
  }

  /** A creation is refused exactly when something is lacking, and for the first thing that is. */
  lemma RefusedForTheFirstLack(db: Db, input: CreateInput)
    ensures match CreateVerdict(db, input)
            case None => forall e :: !Lacks(db, input, e)
            case Some(e) => Lacks(db, input, e) && forall e' | Turn(e') < Turn(e) :: !Lacks(db, input, e')
  {
    if input.firmware in db.firmwares {
      RolloutEffects.ScopeIsTargetable(db, input);
    }
  }

  /** Whatever order a set is listed in, sorting gives the same list. */
  lemma SortIgnoresListingOrder(listed: seq<Id>)
    requires NoDuplicates(listed)
    ensures Selection.Sorted(listed) == Selection.Sorted(Listing(ToSet(listed)))
    ensures Selection.Sorted(listed) == [] <==> ToSet(listed) == {}
  {
    var other := Listing(ToSet(listed));
    Selection.DistinctMultisets(listed, other);
    Selection.SortedIsAscending(listed);
    Selection.SortedIsAscending(other);
    Selection.AscendingIsUnique(Selection.Sorted(listed), Selection.Sorted(other));
    Selection.SortedKeepsDistinct(listed);
    assert listed != [] ==> listed[0] in ToSet(listed);
    assert Selection.Sorted(listed) != [] ==> Selection.Sorted(listed)[0] in ToSet(listed);
  }

  /** The elements of a list, gathered one by one into a map used as a set. */
  method Gather(into: set<Id>, ids: seq<Id>) returns (all: set<Id>)
    ensures all == into + ToSet(ids)
  {
    all := into;
    for i := 0 to |ids|
      invariant all == into + ToSet(ids[..i])
    {
      assert ids[..i + 1] == ids[..i] + [ids[i]];
      all := all + {ids[i]};
    }
    assert ids[..|ids|] == ids;
  }

  class Service {
    const repo: Repository
    /** strings.TrimSpace */
    const trim: Bytes -> Bytes
    /** strings.EqualFold */
    const sameFolded: (Bytes, Bytes) -> bool

    constructor (repo: Repository, trim: Bytes -> Bytes, sameFolded: (Bytes, Bytes) -> bool)
      ensures this.repo == repo && this.trim == trim && this.sameFolded == sameFolded
    {
      this.repo, this.trim, this.sameFolded := repo, trim, sameFolded;
    }

    // -------------------------------------------------------------------------
    // Completion and progress
    // -------------------------------------------------------------------------

    method TryAutoComplete(p: Id, c: Id, now: Time)
      modifies repo
      ensures repo.Snapshot() == CampaignOps.TryAutoComplete(old(repo.Snapshot()), p, c, now)
    {
      if !CampaignIn(repo.Snapshot(), p, c) {
        return;
      }
      var row := repo.campaigns[c];
      if row.status != Active {
        return;
      }
      var n := |NonTerminal(repo.Snapshot(), c)|;
      if n == 0 && row.target > 0 {
        var _ := repo.MarkCampaignCompleted(p, c, now);
      }
    }

    /** A status without rows counts as zero. */
    method BuildProgress(c: Id, target: nat) returns (p: Conservation.Progress)
      ensures p == Conservation.BuildProgress(repo.Snapshot(), c, target)
    {
      var counts := repo.CountAssignmentsByStatus(c);
      var pending := if Pending in counts then counts[Pending] else 0;
      var offered := if Offered in counts then counts[Offered] else 0;
      var downloaded := if Downloaded in counts then counts[Downloaded] else 0;
      var installed := if Installed in counts then counts[Installed] else 0;
      var failed := if Failed in counts then counts[Failed] else 0;
      var completion, success := 0.0, 0.0;
      if target > 0 {
        completion := (installed + failed) as real * 100.0 / target as real;
        success := installed as real * 100.0 / target as real;
      }
      p := Conservation.Progress.Progress(target, pending, offered, downloaded, installed, failed, completion, success);
    }

    // -------------------------------------------------------------------------
    // Polls and reports
    // -------------------------------------------------------------------------

    method BuildPollOffer(p: Id, d: Id, now: Time) returns (offer: Option<OfferRow>)
      modifies repo
      ensures repo.Snapshot() == CampaignOps.BuildPollOffer(old(repo.Snapshot()), p, d, now).db
      ensures offer == CampaignOps.BuildPollOffer(old(repo.Snapshot()), p, d, now).offer
    {
      var row := repo.FindActivePendingOffer(p, d);
      if row.None? {
        return None;
      }
      if row.value.status == Pending {
        var ok := repo.UpdateAssignmentStatus(row.value.campaign, d, Pending, Offered);
        // Nothing ran since the read, so the guarded update finds its row.
        assert ok;
      }
      TryAutoComplete(p, row.value.campaign, now);
      offer := row;
    }

    method ApplyOtaDeviceReport(p: Id, d: Id, c: Id, m: Milestone, code: Option<nat>, errMsg: Bytes, now: Time)
      returns (installed: Result<Bytes, ReportError>)
      modifies repo
      ensures repo.Snapshot() == TrimmedReport(trim, old(repo.Snapshot()), p, d, c, m, code, Clip(trim(errMsg)), now).db
      ensures installed == TrimmedReport(trim, old(repo.Snapshot()), p, d, c, m, code, Clip(trim(errMsg)), now).version
    {
      var msg := trim(errMsg);
      if |msg| > 256 {
        msg := msg[..256];
      }
      if Target(c, d) !in repo.assignments {
        return Err(UnknownAssignment);
      }
      var version: Bytes := [];
      match m {
        case ReportDownloaded =>
          var _ := repo.ApplyOtaDownloaded(p, c, d);
        case ReportInstalled =>
          var rows := repo.ApplyOtaInstalled(p, c, d);
          if rows > 0 {
            var f := repo.campaigns[c].firmware;
            if !FirmwareIn(repo.Snapshot(), p, f) {
              return Err(FirmwareMissing);
            }
            version := trim(repo.firmwares[f].version);
            repo.UpdateDeviceSeenAndFirmware(p, d, Some(version), now);
          }
        case ReportFailed =>
          var _ := repo.ApplyOtaFailed(p, c, d, code, msg);
      }
      TryAutoComplete(p, c, now);
      installed := Ok(version);
    }

    method OnDeviceReportFirmware(p: Id, d: Id, reported: Bytes, now: Time)
      modifies repo
      ensures repo.Snapshot() ==
              ReportVersion(old(repo.Snapshot()), p, d, v => sameFolded(trim(reported), trim(v)), now)
    {
      var row := repo.FindOldestInFlight(p, d);
      if row.None? {
        return;
      }
      if !sameFolded(trim(reported), trim(row.value.version)) {
        return;
      }
      var _ := repo.SetAssignmentStatus(row.value.campaign, d, Installed);
      TryAutoComplete(p, row.value.campaign, now);
    }

    // -------------------------------------------------------------------------
    // Creation
    // -------------------------------------------------------------------------

    method GroupsExist(p: Id, groupIds: seq<Id>) returns (ok: bool)
      ensures ok <==> forall g | g in groupIds :: GroupIn(repo.Snapshot(), p, g)
    {
      for i := 0 to |groupIds|
        invariant forall k | 0 <= k < i :: GroupIn(repo.Snapshot(), p, groupIds[k])
      {
        if !GroupIn(repo.Snapshot(), p, groupIds[i]) {
          return false;
        }
      }
      ok := true;
    }

    method AllowedTypes(f: Id) returns (allowed: set<Id>)
      requires f in repo.firmwares
      ensures allowed == repo.firmwares[f].deviceTypes
    {
      var types := repo.ListDeviceTypeIDsForFirmware(f);
      allowed := Gather({}, types);
    }

    /** The devices in scope, as one list without repetitions. */
    method ListScope(input: CreateInput) returns (all: seq<Id>)
      ensures NoDuplicates(all) && ToSet(all) == ScopeOf(repo.Snapshot(), input)
    {
      var fromGroups := repo.ListDeviceIDsInGroupsForProject(input.project, input.groups);
      var fromExplicit := repo.ListDeviceIDsExplicitInProject(input.project, input.explicit);
      var union := Gather({}, fromGroups);
      union := Gather(union, fromExplicit);
      all := Enumerate(union);
    }

    /** The compatible devices in scope, by the text of their ids. */
    method ListCompatible(input: CreateInput, types: set<Id>) returns (sorted: seq<Id>)
      ensures var found := CompatibleDevices(repo.Snapshot(), input.project, ScopeOf(repo.Snapshot(), input), types);
              sorted == Selection.Sorted(Listing(found)) && (sorted == [] <==> found == {})
    {
      var all := ListScope(input);
      var compatible := repo.FilterDeviceIDsByCompatibleTypes(input.project, all, types);
      SortIgnoresListingOrder(compatible);
      sorted := Selection.SortUuids(compatible);
    }

    /** The draft, its insertion, and the detail view of the result. */
    method Launch(input: CreateInput, c: Id, chosen: seq<Id>, now: Time) returns (r: Result<Conservation.Progress, CreateError>)
      requires chosen != []
      modifies repo
      ensures repo.Snapshot() == if BundleFits(old(repo.Snapshot()), c, input.groups, input.explicit, chosen)
                                 then InsertBundle(old(repo.Snapshot()), c, NewCampaign(input, |chosen|, now), chosen)
                                 else old(repo.Snapshot())
      ensures r.Ok? <==> BundleFits(old(repo.Snapshot()), c, input.groups, input.explicit, chosen)
      ensures r.Err? ==> r.error == InsertConflict
      ensures r.Ok? ==> c in repo.campaigns && repo.campaigns[c].target == |chosen|
                        && r.value == Conservation.BuildProgress(repo.Snapshot(), c, |chosen|)
    {
      var status, activatedAt := Active, Some(now);
      if input.scheduledStart.Some? && input.scheduledStart.value > now {
        status, activatedAt := Scheduled, None;
      }
      var row := Campaign(input.project, input.firmware, input.kind, input.percent, input.scheduledStart,
                          status, |chosen|, now, activatedAt, None, None, None);
      var ok := repo.CreateCampaignBundle(c, row, input.groups, input.explicit, chosen);
      if !ok {
        return Err(InsertConflict);
      }
      var progress := BuildProgress(c, |chosen|);
      r := Ok(progress);
    }

    method CreateCampaign(input: CreateInput, c: Id, now: Time) returns (r: Result<Conservation.Progress, CreateError>)
      modifies repo
      ensures repo.Snapshot() == CampaignOps.CreateCampaign(old(repo.Snapshot()), input, c, now)
      ensures CreateVerdict(old(repo.Snapshot()), input).Some? ==>
                r == Err(CreateVerdict(old(repo.Snapshot()), input).value)
      ensures r.Ok? ==> c !in old(repo.campaigns) && c in repo.campaigns && repo.campaigns[c].target > 0
                        && r.value == Conservation.BuildProgress(repo.Snapshot(), c, repo.campaigns[c].target)
      ensures r.Err? ==> repo.Snapshot() == old(repo.Snapshot())
                         && (CreateVerdict(old(repo.Snapshot()), input).None? ==> r.error == InsertConflict)
    {
      if input.project !in repo.projects || repo.projects[input.project].deleted {
        return Err(ProjectMissing);
      }
      if repo.projects[input.project].archived {
        return Err(ProjectArchived);
      }
      var refused := InputVerdict(input);
      if refused.Some? {
        return Err(refused.value);
      }
      var known := GroupsExist(input.project, input.groups);
      if !known {
        return Err(UnknownGroup);
      }
      if !FirmwareIn(repo.Snapshot(), input.project, input.firmware) {
        return Err(CreateFirmwareMissing);
      }
      var allowed := AllowedTypes(input.firmware);
      if |allowed| == 0 {
        return Err(NoDeviceTypes);
      }
      var compatible := ListCompatible(input, allowed);
      if |compatible| == 0 {
        return Err(NoCompatibleDevices);
      }
      ChosenFromIsSelection(input, CompatibleScope(repo.Snapshot(), input));
      var chosen := compatible;
      if input.kind.Percentage? {
        chosen := Selection.TakeStablePercentage(compatible, input.percent.value);
      }
      r := Launch(input, c, chosen, now);
    }

    // -------------------------------------------------------------------------
    // Operators and the scheduler
    // -------------------------------------------------------------------------

    method PauseCampaign(p: Id, c: Id, now: Time) returns (ok: bool)
      modifies repo
      ensures ok == CampaignIs(old(repo.Snapshot()), p, c, {Active})
      ensures repo.Snapshot() == Pause(old(repo.Snapshot()), p, c, now)
    {
      ok := repo.PauseCampaign(p, c, now);
    }

    method ResumeCampaign(p: Id, c: Id) returns (ok: bool)
      modifies repo
      ensures ok == CampaignIs(old(repo.Snapshot()), p, c, {Paused})
      ensures repo.Snapshot() == Resume(old(repo.Snapshot()), p, c)
    {
      ok := repo.ResumeCampaign(p, c);
    }

    method CancelCampaign(p: Id, c: Id, now: Time) returns (ok: bool)
      modifies repo
      ensures ok == CampaignIs(old(repo.Snapshot()), p, c, CANCELLABLE)
      ensures repo.Snapshot() == Cancel(old(repo.Snapshot()), p, c, now)
    {
      ok := repo.CancelCampaign(p, c, now);
    }

    method ActivateDueCampaigns(now: Time) returns (ids: seq<Id>)
      modifies repo
      ensures NoDuplicates(ids) && ToSet(ids) == DueCampaigns(old(repo.Snapshot()), now)
      ensures repo.Snapshot() == ActivateDue(old(repo.Snapshot()), now)
    {
      ids := repo.ActivateDueScheduledCampaigns(now);
    }
  }
}
