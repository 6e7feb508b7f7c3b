/**
 The repositories: tables changed in place, one call at a time. Every method is tied to the function
 of Queries that the interleaved machine and the service operations are built from.
 */
module Repositories {
  import opened Basics
  import opened CampaignState
  import opened Tables
  import opened Queries
  import Conservation
  import DeviceTokens

  // ---------------------------------------------------------------------------
  // Query results as lists
  // ---------------------------------------------------------------------------

  /** The rows of a query come in some order, each once. */
  method Enumerate<T(==)>(s: set<T>) returns (r: seq<T>)
    ensures NoDuplicates(r) && ToSet(r) == s
  {
    r := [];
    var rest := s;
    while rest != {}
      invariant rest <= s && NoDuplicates(r) && ToSet(r) == s - rest
      decreases |rest|
    {
      var x :| x in rest;
      assert x !in ToSet(r);
      assert ToSet(r + [x]) == ToSet(r) + {x};
      r := r + [x];
      rest := rest - {x};
    }
  }

  /** Inserting these assignments hits no existing key and repeats none. */
  ghost predicate RowsFit(table: map<Target, Assignment>, c: Id, ids: seq<Id>) {
    NoDuplicates(ids) && forall d | d in ids :: Target(c, d) !in table
  }

  lemma PendingRowsConcat(c: Id, a: seq<Id>, b: seq<Id>)
    ensures PendingRows(c, a + b) == PendingRows(c, a) + PendingRows(c, b)
  {
  }

  /** Inserting a list is inserting its front, then its back. */
  lemma RowsFitConcat(table: map<Target, Assignment>, c: Id, a: seq<Id>, b: seq<Id>)
    ensures RowsFit(table, c, a + b) <==> RowsFit(table, c, a) && RowsFit(table + PendingRows(c, a), c, b)
  {
    var ab := a + b;
    if RowsFit(table, c, a) && RowsFit(table + PendingRows(c, a), c, b) {
      forall i, j | 0 <= i < j < |ab|
        ensures ab[i] != ab[j]
      {
        if i < |a| <= j {
          assert Target(c, ab[i]) in PendingRows(c, a);
          assert ab[j] in b;
        }
      }
    }
    if RowsFit(table, c, ab) {
      forall d | d in b
        ensures Target(c, d) !in table + PendingRows(c, a)
      {
        var j :| 0 <= j < |b| && b[j] == d;
        assert ab[|a| + j] == d;
        forall i | 0 <= i < |a|
          ensures a[i] != d
        {
          assert ab[i] == a[i];
        }
      }
      forall i, j | 0 <= i < j < |b|
        ensures b[i] != b[j]
      {
        assert ab[|a| + i] != ab[|a| + j];
      }
      assert ab[..|a|] == a;
    }
  }

  /** One more row. */
  lemma ExtendRows(table: map<Target, Assignment>, c: Id, a: seq<Id>, x: Id)
    requires RowsFit(table, c, a)
    ensures RowsFit(table, c, a + [x]) <==> Target(c, x) !in table + PendingRows(c, a)
    ensures table + PendingRows(c, a + [x]) == (table + PendingRows(c, a))[Target(c, x) := FRESH]
  {
    RowsFitConcat(table, c, a, [x]);
    PendingRowsConcat(c, a, [x]);
    SingleRow(table + PendingRows(c, a), c, x);
    AppendMaps(table, PendingRows(c, a), PendingRows(c, [x]));
  }

  lemma SingleRow(table: map<Target, Assignment>, c: Id, x: Id)
    ensures RowsFit(table, c, [x]) <==> Target(c, x) !in table
    ensures table + PendingRows(c, [x]) == table[Target(c, x) := FRESH]
  {
    assert [x][0] in [x];
  }

  lemma AppendMaps<K, V>(a: map<K, V>, b: map<K, V>, c: map<K, V>)
    ensures (a + b) + c == a + (b + c)
  {
  }

  lemma RowStep(table: map<Target, Assignment>, c: Id, chunk: seq<Id>, k: nat, out: map<Target, Assignment>)
    requires k < |chunk| && RowsFit(table, c, chunk[..k]) && out == table + PendingRows(c, chunk[..k])
    ensures Target(c, chunk[k]) in out ==> !RowsFit(table, c, chunk)
    ensures Target(c, chunk[k]) !in out ==>
              RowsFit(table, c, chunk[..k + 1])
              && out[Target(c, chunk[k]) := FRESH] == table + PendingRows(c, chunk[..k + 1])
  {
    ExtendRows(table, c, chunk[..k], chunk[k]);
    assert chunk[..k + 1] == chunk[..k] + [chunk[k]];
    RowsFitConcat(table, c, chunk[..k + 1], chunk[k + 1..]);
    assert chunk == chunk[..k + 1] + chunk[k + 1..];
  }

  /** One multi-row INSERT of pending assignments: it fails as a whole on any duplicate key. */
  method InsertRows(table: map<Target, Assignment>, c: Id, chunk: seq<Id>)
    returns (ok: bool, out: map<Target, Assignment>)
    ensures ok <==> RowsFit(table, c, chunk)
    ensures ok ==> out == table + PendingRows(c, chunk)
  {
    ok, out := true, table;
    for k := 0 to |chunk|
      invariant ok && RowsFit(table, c, chunk[..k]) && out == table + PendingRows(c, chunk[..k])
    {
      RowStep(table, c, chunk, k, out);
      if Target(c, chunk[k]) in out {
        return false, table;
      }
      out := out[Target(c, chunk[k]) := FRESH];
    }
    assert chunk[..|chunk|] == chunk;
  }

  /** The keys of campaign_target_groups and campaign_target_devices for a new campaign. */
  method InsertTargets(ids: seq<Id>) returns (ok: bool)
    ensures ok <==> NoDuplicates(ids)
  {
    var rows: set<Id> := {};
    for k := 0 to |ids|
      invariant rows == ToSet(ids[..k]) && NoDuplicates(ids[..k])
    {
      if ids[k] in rows {
        return false;
      }
      assert ids[..k + 1] == ids[..k] + [ids[k]];
      rows := rows + {ids[k]};
    }
    assert ids[..|ids|] == ids;
    ok := true;
  }

  /** What one batch b adds to the batches a before it, c being still to come. */
  lemma BatchExtends(table: map<Target, Assignment>, c: Id, a: seq<Id>, b: seq<Id>, rest: seq<Id>)
    requires RowsFit(table, c, a)
    ensures RowsFit(table + PendingRows(c, a), c, b) <==> RowsFit(table, c, a + b)
    ensures RowsFit(table, c, a + b + rest) ==> RowsFit(table, c, a + b)
    ensures (table + PendingRows(c, a)) + PendingRows(c, b) == table + PendingRows(c, a + b)
  {
    RowsFitConcat(table, c, a, b);
    RowsFitConcat(table, c, a + b, rest);
    PendingRowsConcat(c, a, b);
    AppendMaps(table, PendingRows(c, a), PendingRows(c, b));
  }

  /** The assignments go in 200 at a time. */
  method InsertInBatches(before: map<Target, Assignment>, c: Id, targets: seq<Id>)
    returns (ok: bool, table: map<Target, Assignment>)
    ensures ok <==> RowsFit(before, c, targets)
    ensures ok ==> table == before + PendingRows(c, targets)
  {
    ok, table := true, before;
    var i := 0;
    while i < |targets|
      invariant i <= |targets| && ok && RowsFit(before, c, targets[..i])
      invariant table == before + PendingRows(c, targets[..i])
    {
      var j := i + 200;
      if j > |targets| {
        j := |targets|;
      }
      BatchExtends(before, c, targets[..i], targets[i..j], targets[j..]);
      assert targets[..j] == targets[..i] + targets[i..j];
      assert targets == targets[..i] + targets[i..j] + targets[j..];
      ok, table := InsertRows(table, c, targets[i..j]);
      if !ok {
        return;
      }
      i := j;
    }
    assert targets[..|targets|] == targets;
  }

  /** ORDER BY CASE WHEN status IN first THEN 0 ELSE 1 END, created_at ASC, id ASC. */
  predicate SortsBefore(db: Db, d: Id, first: set<AssignmentStatus>, a: Id, b: Id)
    requires a in db.campaigns && b in db.campaigns
  {
    var x, y := AssignmentIs(db, a, d, first), AssignmentIs(db, b, d, first);
    (x && !y) || (x == y && Older(db, a, b))
  }

  ghost predicate SortsFirst(db: Db, d: Id, first: set<AssignmentStatus>, s: set<Id>, c: Id)
    requires s <= db.campaigns.Keys
  {
    c in s && forall x | x in s :: x == c || SortsBefore(db, d, first, c, x)
  }

  ghost predicate FirstIfAny(db: Db, d: Id, first: set<AssignmentStatus>, s: set<Id>, best: Option<Id>)
    requires s <= db.campaigns.Keys
  {
    (best.None? <==> s == {}) && (best.Some? ==> SortsFirst(db, d, first, s, best.value))
  }

  /** The better of the first row so far and the next one. */
  function Better(db: Db, d: Id, first: set<AssignmentStatus>, best: Option<Id>, c: Id): Option<Id>
    requires c in db.campaigns && (best.Some? ==> best.value in db.campaigns)
  {
    if best.None? || SortsBefore(db, d, first, c, best.value) then Some(c) else best
  }

  lemma BetterIsFirst(db: Db, d: Id, first: set<AssignmentStatus>, s: set<Id>, best: Option<Id>, c: Id)
    requires s <= db.campaigns.Keys && c in db.campaigns && FirstIfAny(db, d, first, s, best)
    ensures FirstIfAny(db, d, first, s + {c}, Better(db, d, first, best, c))
  {
    assert c in s + {c};
  }

  /** ORDER BY ... LIMIT 1 over the joined rows of one device. */
  method FirstRow(db: Db, d: Id, first: set<AssignmentStatus>, matching: set<Id>) returns (best: Option<Id>)
    requires matching <= db.campaigns.Keys
    ensures FirstIfAny(db, d, first, matching, best)
  {
    best := None;
    var rest := matching;
    ghost var seen: set<Id> := {};
    while rest != {}
      invariant seen + rest == matching
      invariant FirstIfAny(db, d, first, seen, best)
      decreases |rest|
    {
      var c :| c in rest;
      BetterIsFirst(db, d, first, seen, best, c);
      best := Better(db, d, first, best, c);
      rest, seen := rest - {c}, seen + {c};
    }
    assert seen == matching;
  }

  /** With pending rows first, the first row is the oldest pending one if any, else the oldest offered one. */
  lemma FirstOfferIsFindOffer(db: Db, p: Id, d: Id, c: Id)
    requires SortsFirst(db, d, {Pending}, Candidates(db, p, d, {Pending, Offered}), c)
    ensures FindOffer(db, p, d) == Some(RowFor(db, c, d))
  {
    var pending, offered := Candidates(db, p, d, {Pending}), Candidates(db, p, d, {Offered});
    assert Candidates(db, p, d, {Pending, Offered}) == pending + offered;
    assert pending !! offered;
    if c in pending {
      OldestIsUnique(db, pending, c);
    } else {
      OldestIsUnique(db, offered, c);
    }
  }

  lemma FirstInFlightIsFindInFlight(db: Db, p: Id, d: Id, c: Id)
    requires SortsFirst(db, d, {}, Candidates(db, p, d, {Offered, Downloaded}), c)
    ensures FindInFlight(db, p, d) == Some(RowFor(db, c, d))
  {
    OldestIsUnique(db, Candidates(db, p, d, {Offered, Downloaded}), c);
  }

  /** UPDATE ... WHERE id IN ids AND status = 'scheduled'. */
  function ActivateListed(table: map<Id, Campaign>, ids: seq<Id>, now: Time): map<Id, Campaign> {
    map c | c in table ::
      if c in ids && table[c].status == Scheduled
      then table[c].(status := Active, activatedAt := Some(now))
      else table[c]
  }

  lemma PluckedAreActivated(db: Db, ids: seq<Id>, now: Time)
    requires ToSet(ids) == DueCampaigns(db, now)
    ensures ActivateListed(db.campaigns, ids, now) == ActivateDue(db, now).campaigns
    ensures ids == [] ==> ActivateDue(db, now).campaigns == db.campaigns
  {
    forall c | c in db.campaigns
      ensures c in ids <==> Due(db.campaigns[c], now)
    {
      assert c in ids <==> c in ToSet(ids);
    }
  }

  /** ORDER BY id LIMIT 1 */
  method FirstKey(found: set<Id>) returns (key: Id)
    requires found != {}
    ensures key == DeviceTokens.Least(found)
  {
    key :| key in found;
    var rest := found - {key};
    while rest != {}
      invariant rest <= found && key in found && forall x | x in found - rest :: key <= x
      decreases |rest|
    {
      var x :| x in rest;
      if x < key {
        key := x;
      }
      rest := rest - {x};
    }
    assert found - rest == found;
  }

  class Repository {
    var projects: map<Id, Project>
    var devices: map<Id, Device>
    var groups: map<Id, DeviceGroup>
    var members: set<Membership>
    var firmwares: map<Id, Firmware>
    var campaigns: map<Id, Campaign>
    var assignments: map<Target, Assignment>
    var otaTokens: map<Bytes, OtaToken>
    var authTokens: map<Id, AuthToken>

    /** The tables as one value. */
    function Snapshot(): Db
      reads this
    {
      Db(projects, devices, groups, members, firmwares, campaigns, assignments, otaTokens, authTokens)
    }

    constructor ()
      ensures Snapshot() == EMPTY
    {
      projects, devices, groups, members := map[], map[], map[], {};
      firmwares, campaigns, assignments, otaTokens, authTokens := map[], map[], map[], map[], map[];
    }

    // -------------------------------------------------------------------------
    // Campaigns
    // -------------------------------------------------------------------------

    /** One transaction: the campaign, its scope rows, then its assignments 200 at a time. */
    method CreateCampaignBundle(c: Id, row: Campaign, groupIds: seq<Id>, explicit: seq<Id>, targets: seq<Id>)
      returns (ok: bool)
      modifies this`campaigns, this`assignments
      ensures ok == BundleFits(old(Snapshot()), c, groupIds, explicit, targets)
      ensures Snapshot() == if ok then InsertBundle(old(Snapshot()), c, row, targets) else old(Snapshot())
    {
      if c in campaigns {
        return false;
      }
      var fits := InsertTargets(groupIds);
      if !fits {
        return false;
      }
      fits := InsertTargets(explicit);
      if !fits {
        return false;
      }
      var table: map<Target, Assignment>;
      fits, table := InsertInBatches(assignments, c, targets);
      if !fits {
        return false;
      }
      campaigns := campaigns[c := row];
      assignments := table;
      ok := true;
    }

    method MarkCampaignCompleted(p: Id, c: Id, now: Time) returns (ok: bool)
      modifies this`campaigns
      ensures ok == CampaignIs(old(Snapshot()), p, c, {Active})
      ensures Snapshot() == MarkCompleted(old(Snapshot()), p, c, now)
    {
      ok := CampaignIs(Snapshot(), p, c, {Active});
      if ok {
        campaigns := campaigns[c := campaigns[c].(status := Completed, completedAt := Some(now))];
      }
    }

    method PauseCampaign(p: Id, c: Id, now: Time) returns (ok: bool)
      modifies this`campaigns
      ensures ok == CampaignIs(old(Snapshot()), p, c, {Active})
      ensures Snapshot() == Pause(old(Snapshot()), p, c, now)
    {
      ok := CampaignIs(Snapshot(), p, c, {Active});
      if ok {
        campaigns := campaigns[c := campaigns[c].(status := Paused, pausedAt := Some(now))];
      }
    }

    method ResumeCampaign(p: Id, c: Id) returns (ok: bool)
      modifies this`campaigns
      ensures ok == CampaignIs(old(Snapshot()), p, c, {Paused})
      ensures Snapshot() == Resume(old(Snapshot()), p, c)
    {
      ok := CampaignIs(Snapshot(), p, c, {Paused});
      if ok {
        campaigns := campaigns[c := campaigns[c].(status := Active, pausedAt := None)];
      }
    }

    method CancelCampaign(p: Id, c: Id, now: Time) returns (ok: bool)
      modifies this`campaigns
      ensures ok == CampaignIs(old(Snapshot()), p, c, CANCELLABLE)
      ensures Snapshot() == Cancel(old(Snapshot()), p, c, now)
    {
      ok := CampaignIs(Snapshot(), p, c, CANCELLABLE);
      if ok {
        campaigns := campaigns[c := campaigns[c].(status := Cancelled, cancelledAt := Some(now))];
      }
    }

    /** One transaction: pluck the due ids, then update exactly those. */
    method ActivateDueScheduledCampaigns(now: Time) returns (ids: seq<Id>)
      modifies this`campaigns
      ensures NoDuplicates(ids) && ToSet(ids) == DueCampaigns(old(Snapshot()), now)
      ensures Snapshot() == ActivateDue(old(Snapshot()), now)
    {
      ids := Enumerate(DueCampaigns(Snapshot(), now));
      PluckedAreActivated(Snapshot(), ids, now);
      if |ids| == 0 {
        return;
      }
      campaigns := ActivateListed(campaigns, ids, now);
    }

    // -------------------------------------------------------------------------
    // Assignments
    // -------------------------------------------------------------------------

    method UpdateAssignmentStatus(c: Id, d: Id, expectFrom: AssignmentStatus, to: AssignmentStatus) returns (ok: bool)
      modifies this`assignments
      ensures ok == AssignmentIs(old(Snapshot()), c, d, {expectFrom})
      ensures Snapshot() == if ok
                            then PutAssignment(old(Snapshot()), c, d, old(assignments)[Target(c, d)].(status := to))
                            else old(Snapshot())
      ensures expectFrom == Pending && to == Offered ==> Snapshot() == Offer(old(Snapshot()), c, d)
    {
      ok := AssignmentIs(Snapshot(), c, d, {expectFrom});
      if ok {
        assignments := assignments[Target(c, d) := assignments[Target(c, d)].(status := to)];
      }
    }

    method SetAssignmentStatus(c: Id, d: Id, to: AssignmentStatus) returns (ok: bool)
      modifies this`assignments
      ensures ok == (Target(c, d) in old(assignments))
      ensures Snapshot() == if ok
                            then PutAssignment(old(Snapshot()), c, d, old(assignments)[Target(c, d)].(status := to))
                            else old(Snapshot())
      ensures to == Installed ==> Snapshot() == ForceInstalled(old(Snapshot()), c, d)
    {
      ok := Target(c, d) in assignments;
      if ok {
        assignments := assignments[Target(c, d) := assignments[Target(c, d)].(status := to)];
      }
    }

    /** The number of rows changed: none unless the campaign is active and the status is in from. */
    method ApplyAssignmentStatus(p: Id, c: Id, d: Id, from: set<AssignmentStatus>, to: AssignmentStatus,
                                 code: Option<nat>, msg: Bytes)
      returns (rows: nat)
      modifies this`assignments
      ensures rows == if CampaignIs(old(Snapshot()), p, c, {Active}) && AssignmentIs(old(Snapshot()), c, d, from) then 1 else 0
      ensures Snapshot() == if rows == 1 then PutAssignment(old(Snapshot()), c, d, Assignment(to, code, msg)) else old(Snapshot())
    {
      if !CampaignIs(Snapshot(), p, c, {Active}) {
        return 0;
      }
      if !AssignmentIs(Snapshot(), c, d, from) {
        return 0;
      }
      assignments := assignments[Target(c, d) := Assignment(to, code, msg)];
      rows := 1;
    }

    method ApplyOtaDownloaded(p: Id, c: Id, d: Id) returns (rows: nat)
      modifies this`assignments
      ensures rows == if CampaignIs(old(Snapshot()), p, c, {Active})
                         && AssignmentIs(old(Snapshot()), c, d, From(ReportDownloaded)) then 1 else 0
      ensures Snapshot() == if rows == 1 then WriteReport(old(Snapshot()), c, d, ReportDownloaded, None, []) else old(Snapshot())
    {
      rows := ApplyAssignmentStatus(p, c, d, {Offered, Downloaded}, Downloaded, None, []);
    }

    method ApplyOtaInstalled(p: Id, c: Id, d: Id) returns (rows: nat)
      modifies this`assignments
      ensures rows == if CampaignIs(old(Snapshot()), p, c, {Active})
                         && AssignmentIs(old(Snapshot()), c, d, From(ReportInstalled)) then 1 else 0
      ensures Snapshot() == if rows == 1 then WriteReport(old(Snapshot()), c, d, ReportInstalled, None, []) else old(Snapshot())
    {
      rows := ApplyAssignmentStatus(p, c, d, {Offered, Downloaded, Installed}, Installed, None, []);
    }

    method ApplyOtaFailed(p: Id, c: Id, d: Id, code: Option<nat>, msg: Bytes) returns (rows: nat)
      modifies this`assignments
      ensures rows == if CampaignIs(old(Snapshot()), p, c, {Active})
                         && AssignmentIs(old(Snapshot()), c, d, From(ReportFailed)) then 1 else 0
      ensures Snapshot() == if rows == 1 then WriteReport(old(Snapshot()), c, d, ReportFailed, code, msg) else old(Snapshot())
    {
      rows := ApplyAssignmentStatus(p, c, d, {Pending, Offered, Downloaded, Failed}, Failed, code, msg);
    }

    /** GROUP BY status: statuses without rows are absent. */
    method CountAssignmentsByStatus(c: Id) returns (out: map<AssignmentStatus, nat>)
      ensures forall st :: st in out <==> Conservation.InStatus(Snapshot(), c, st) != {}
      ensures forall st | st in out :: out[st] == |Conservation.InStatus(Snapshot(), c, st)|
    {
      var present := set t | t in assignments && t.campaign == c :: assignments[t].status;
      var rows := Enumerate(present);
      out := map[];
      for i := 0 to |rows|
        invariant out.Keys == ToSet(rows[..i])
        invariant forall st | st in out :: out[st] == |Conservation.InStatus(Snapshot(), c, st)|
      {
        assert rows[..i + 1] == rows[..i] + [rows[i]];
        out := out[rows[i] := |Conservation.InStatus(Snapshot(), c, rows[i])|];
      }
      assert rows[..|rows|] == rows;
      forall st: AssignmentStatus
        ensures st in present <==> Conservation.InStatus(Snapshot(), c, st) != {}
      {
        if st in present {
          var t :| t in assignments && t.campaign == c && assignments[t].status == st;
          assert t in Conservation.InStatus(Snapshot(), c, st);
        }
        if Conservation.InStatus(Snapshot(), c, st) != {} {
          var t :| t in Conservation.InStatus(Snapshot(), c, st);
        }
      }
    }

    // -------------------------------------------------------------------------
    // Offers
    // -------------------------------------------------------------------------

    method FindActivePendingOffer(p: Id, d: Id) returns (row: Option<OfferRow>)
      ensures row == FindOffer(Snapshot(), p, d)
    {
      var best := FirstRow(Snapshot(), d, {Pending}, Candidates(Snapshot(), p, d, {Pending, Offered}));
      if best.None? {
        assert Candidates(Snapshot(), p, d, {Pending}) <= Candidates(Snapshot(), p, d, {Pending, Offered});
        assert Candidates(Snapshot(), p, d, {Offered}) <= Candidates(Snapshot(), p, d, {Pending, Offered});
        return None;
      }
      FirstOfferIsFindOffer(Snapshot(), p, d, best.value);
      row := Some(RowFor(Snapshot(), best.value, d));
    }

    method FindOldestInFlight(p: Id, d: Id) returns (row: Option<OfferRow>)
      ensures row == FindInFlight(Snapshot(), p, d)
    {
      var best := FirstRow(Snapshot(), d, {}, Candidates(Snapshot(), p, d, {Offered, Downloaded}));
      if best.None? {
        return None;
      }
      FirstInFlightIsFindInFlight(Snapshot(), p, d, best.value);
      row := Some(RowFor(Snapshot(), best.value, d));
    }

    // -------------------------------------------------------------------------
    // Scope of a new campaign
    // -------------------------------------------------------------------------

    method ListDeviceTypeIDsForFirmware(f: Id) returns (ids: seq<Id>)
      requires f in firmwares
      ensures NoDuplicates(ids) && ToSet(ids) == firmwares[f].deviceTypes
    {
      ids := Enumerate(firmwares[f].deviceTypes);
    }

    method ListDeviceIDsInGroupsForProject(p: Id, groupIds: seq<Id>) returns (ids: seq<Id>)
      ensures NoDuplicates(ids) && ToSet(ids) == DevicesInGroups(Snapshot(), p, groupIds)
    {
      if |groupIds| == 0 {
        return [];
      }
      ids := Enumerate(DevicesInGroups(Snapshot(), p, groupIds));
    }

    method ListDeviceIDsExplicitInProject(p: Id, deviceIds: seq<Id>) returns (ids: seq<Id>)
      ensures NoDuplicates(ids) && ToSet(ids) == DevicesExplicit(Snapshot(), p, deviceIds)
    {
      if |deviceIds| == 0 {
        return [];
      }
      ids := Enumerate(DevicesExplicit(Snapshot(), p, deviceIds));
    }

    method FilterDeviceIDsByCompatibleTypes(p: Id, deviceIds: seq<Id>, allowed: set<Id>) returns (out: seq<Id>)
      ensures NoDuplicates(out) && ToSet(out) == CompatibleDevices(Snapshot(), p, ToSet(deviceIds), allowed)
    {
      if |deviceIds| == 0 || |allowed| == 0 {
        return [];
      }
      out := Enumerate(CompatibleDevices(Snapshot(), p, ToSet(deviceIds), allowed));
    }

    // -------------------------------------------------------------------------
    // Devices and download tokens
    // -------------------------------------------------------------------------

    method UpdateDeviceSeenAndFirmware(p: Id, d: Id, version: Option<Bytes>, now: Time)
      modifies this`devices
      ensures Snapshot() == TouchDevice(old(Snapshot()), p, d, version, now)
    {
      if DeviceIn(Snapshot(), p, d) {
        devices := devices[d := Touched(devices[d], version, now)];
      }
    }

    /** The unique index on the hash refuses a second row. */
    method InsertOtaDownloadToken(hash: Bytes, row: OtaToken) returns (ok: bool)
      modifies this`otaTokens
      ensures ok == (hash !in old(otaTokens))
      ensures Snapshot() == InsertToken(old(Snapshot()), hash, row)
    {
      ok := hash !in otaTokens;
      if ok {
        otaTokens := otaTokens[hash := row];
      }
    }

    /** One transaction: read the row, test it and the device, then set consumed_at where it is null. */
    method ConsumeOtaDownloadTokenTx(hash: Bytes, now: Time) returns (out: Result<OtaToken, ConsumeError>)
      modifies this`otaTokens
      ensures out.Ok? <==> ConsumeVerdict(old(Snapshot()), hash, now).None?
      ensures out.Err? ==> ConsumeVerdict(old(Snapshot()), hash, now) == Some(out.error) && Snapshot() == old(Snapshot())
      ensures out.Ok? ==> Unconsumed(old(Snapshot()), hash) && Snapshot() == Consume(old(Snapshot()), hash, now)
                          && out.value == otaTokens[hash] && otaTokens[hash].consumedAt == Some(now)
    {
      if hash !in otaTokens {
        return Err(TokenNotFound);
      }
      var row := otaTokens[hash];
      if row.consumedAt.Some? {
        return Err(TokenConsumed);
      }
      if !(now < row.expiresAt) {
        return Err(TokenExpired);
      }
      if !MayDownload(Snapshot(), row.project, row.device) {
        return Err(DeviceBlocked);
      }
      otaTokens := otaTokens[hash := otaTokens[hash].(consumedAt := Some(now))];
      row := row.(consumedAt := Some(now));
      out := Ok(row);
    }

    // -------------------------------------------------------------------------
    // Session tokens
    // -------------------------------------------------------------------------

    method CreateDeviceAndAuthTokenTx(p: Id, d: Id, deviceType: Id, token: Id, hash: Bytes) returns (ok: bool)
      modifies this`devices, this`authTokens
      ensures ok == DeviceTokens.MayCreate(old(Snapshot()), d, token, hash)
      ensures Snapshot() == DeviceTokens.CreateDevice(old(Snapshot()), p, d, deviceType, token, hash)
    {
      if d in devices || token in authTokens || DeviceTokens.HashUsed(Snapshot(), hash) {
        return false;
      }
      devices := devices[d := DeviceTokens.NewDevice(p, deviceType, token)];
      authTokens := authTokens[token := AuthToken(d, hash, false, None)];
      ok := true;
    }

    method RotateDeviceAuthTokenTx(p: Id, d: Id, hash: Bytes, token: Id) returns (ok: bool)
      modifies this`devices, this`authTokens
      ensures ok == DeviceTokens.MayRotate(old(Snapshot()), p, d, token, hash)
      ensures Snapshot() == DeviceTokens.RotateToken(old(Snapshot()), p, d, token, hash)
    {
      if !DeviceIn(Snapshot(), p, d) {
        return false;
      }
      if token in authTokens || DeviceTokens.HashUsed(Snapshot(), hash) {
        return false;
      }
      authTokens := DeviceTokens.RevokeAll(authTokens, d, token);
      authTokens := authTokens[token := AuthToken(d, hash, false, None)];
      devices := devices[d := devices[d].(activeToken := token)];
      ok := true;
    }

    method SetDeviceBlockedTx(p: Id, d: Id, blocked: bool) returns (ok: bool)
      modifies this`devices
      ensures ok == DeviceIn(old(Snapshot()), p, d)
      ensures Snapshot() == DeviceTokens.SetBlocked(old(Snapshot()), p, d, blocked)
    {
      ok := DeviceIn(Snapshot(), p, d);
      if ok {
        devices := devices[d := devices[d].(blocked := blocked)];
      }
    }

    method GetDeviceByActiveTokenHash(hash: Bytes) returns (r: Result<Id, DeviceTokens.AuthError>)
      ensures r == DeviceTokens.Authenticate(Snapshot(), hash)
    {
      var found := DeviceTokens.LiveTokens(Snapshot(), hash);
      if found == {} {
        return Err(DeviceTokens.NoSuchToken);
      }
      var token := FirstKey(found);
      var d := authTokens[token].device;
      if d !in devices {
        return Err(DeviceTokens.NoSuchToken);
      }
      if devices[d].blocked {
        return Err(DeviceTokens.BlockedDevice);
      }
      if devices[d].tokenRevoked {
        return Err(DeviceTokens.RevokedDevice);
      }
      if devices[d].pollingDisabled {
        return Err(DeviceTokens.DisabledPolling);
      }
      r := Ok(d);
    }

    /** Other clients of the database may have changed any table. */
    method Become(db: Db)
      modifies this
      ensures Snapshot() == db
    {
      projects, devices, groups, members := db.projects, db.devices, db.groups, db.members;
      firmwares, campaigns, assignments := db.firmwares, db.campaigns, db.assignments;
      otaTokens, authTokens := db.otaTokens, db.authTokens;
    }
  }
}
