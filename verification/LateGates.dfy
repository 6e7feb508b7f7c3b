/**
 What the gating laws of Projects owe to whole operations.

 Archiving writes the project row and then sweeps its devices; a registration inserts a device after
 checking that the project is open. When other operations write in between, devices may end up out of
 step with their project. Here the single writes happen in any order, after whatever checks, and the
 theorems say exactly when the laws survive.
 */
module LateGates {
  import opened Basics
  import opened Tables
  import opened Queries
  import opened DeviceTokens
  import opened Projects

  /** One write of one of the project operations. */
  datatype GateWrite =
    | Mark(archived: bool)
    | Sweep(disable: bool)
    | Insert(d: Id, deviceType: Id, token: Id, hash: Bytes)
    | Bury

  /** The write as it happens, on the tables as they have become. A deleted project row is not updated. */
  function Late(db: Db, p: Id, w: GateWrite): Db {
    match w
    case Mark(archived) => if ProjectLive(db, p) then PutProject(db, p, db.projects[p].(archived := archived)) else db
    case Sweep(disable) => db.(devices := GateDevices(db.devices, p, false, disable))
    case Insert(d, deviceType, token, hash) => CreateDevice(db, p, d, deviceType, token, hash)
    case Bury => Delete(db, p)
  }

  function LateAll(db: Db, p: Id, ws: seq<GateWrite>): Db
    decreases |ws|
  {
    if ws == [] then db else LateAll(Late(db, p, ws[0]), p, ws[1..])
  }

  lemma {:induction false} LateAllConcat(db: Db, p: Id, ws: seq<GateWrite>, more: seq<GateWrite>)
    ensures LateAll(db, p, ws + more) == LateAll(LateAll(db, p, ws), p, more)
    decreases |ws|
  {
    if ws == [] {
      assert ws + more == more;
    } else {
      assert (ws + more)[1..] == ws[1..] + more;
      LateAllConcat(Late(db, p, ws[0]), p, ws[1..], more);
    }
  }

  lemma LateOne(db: Db, p: Id, w: GateWrite)
    ensures LateAll(db, p, [w]) == Late(db, p, w)
  {
    assert [w][1..] == [];
  }

  /** With nothing in between, the writes are the whole operations. */
  lemma WritesMakeOperations(db: Db, p: Id, archived: bool)
    requires ProjectLive(db, p) && db.projects[p].archived != archived
    ensures LateAll(db, p, [Mark(archived), Sweep(archived)]) == Archive(db, p, archived)
    ensures LateAll(db, p, [Bury]) == Delete(db, p)
  {
    var marked := Late(db, p, Mark(archived));
    assert [Mark(archived), Sweep(archived)][1..] == [Sweep(archived)];
    LateOne(marked, p, Sweep(archived));
    LateOne(db, p, Bury);
  }

  // ---------------------------------------------------------------------------
  // Archiving
  // ---------------------------------------------------------------------------

  /** The flag written to the project row last. */
  function LastMark(ws: seq<GateWrite>, was: bool): bool {
    if ws == [] then was
    else if ws[|ws| - 1].Mark? then ws[|ws| - 1].archived
    else LastMark(ws[..|ws| - 1], was)
  }

  /** The flag swept over the devices last. */
  function LastSweep(ws: seq<GateWrite>, was: bool): bool {
    if ws == [] then was
    else if ws[|ws| - 1].Sweep? then ws[|ws| - 1].disable
    else LastSweep(ws[..|ws| - 1], was)
  }

  predicate Flags(db: Db, p: Id, d: Id, archived: bool, disabled: bool) {
    && ProjectLive(db, p) && db.projects[p].archived == archived
    && DeviceIn(db, p, d) && db.devices[d].pollingDisabled == disabled
  }

  lemma OneWriteFlags(db: Db, p: Id, d: Id, w: GateWrite, archived: bool, disabled: bool)
    requires Flags(db, p, d, archived, disabled) && !w.Bury?
    ensures Flags(Late(db, p, w), p, d, if w.Mark? then w.archived else archived, if w.Sweep? then w.disable else disabled)
  {
  }

  lemma {:induction false} WritesFlag(db: Db, p: Id, d: Id, ws: seq<GateWrite>, archived: bool, disabled: bool)
    requires Flags(db, p, d, archived, disabled) && Bury !in ws
    ensures Flags(LateAll(db, p, ws), p, d, LastMark(ws, archived), LastSweep(ws, disabled))
  {
    if ws != [] {
      var init, last := ws[..|ws| - 1], ws[|ws| - 1];
      WritesFlag(db, p, d, init, archived, disabled);
      assert ws == init + [last] && [last][1..] == [];
      LateAllConcat(db, p, init, [last]);
      OneWriteFlags(LateAll(db, p, init), p, d, last, LastMark(init, archived), LastSweep(init, disabled));
    }
  }

  /**
   Main result: however the two writes of any number of archivings and unarchivings fall, polling of a
   device of the project ends up following the project's archiving if and only if the last sweep
   carried the flag that was marked last.
   */
  lemma PollingFollowsExactly(db: Db, p: Id, d: Id, ws: seq<GateWrite>)
    requires ProjectLive(db, p) && DeviceIn(db, p, d) && Bury !in ws
    ensures PollingFollowsArchive(LateAll(db, p, ws), d) <==>
            LastSweep(ws, db.devices[d].pollingDisabled) == LastMark(ws, db.projects[p].archived)
  {
    WritesFlag(db, p, d, ws, db.projects[p].archived, db.devices[d].pollingDisabled);
  }

  /** The same for a device registered on the way, which starts out enabled and misses the earlier sweeps. */
  lemma InsertedPollingFollowsExactly(db: Db, p: Id, before: seq<GateWrite>, w: GateWrite, later: seq<GateWrite>)
    requires ProjectLive(db, p) && Bury !in before && Bury !in later
    requires w.Insert? && MayCreate(LateAll(db, p, before), w.d, w.token, w.hash) && ProjectLive(LateAll(db, p, before), p)
    ensures PollingFollowsArchive(LateAll(db, p, before + ([w] + later)), w.d) <==>
            LastSweep(later, false) == LastMark(later, LateAll(db, p, before).projects[p].archived)
  {
    var met := LateAll(db, p, before);
    LateAllConcat(db, p, before, [w] + later);
    assert ([w] + later)[1..] == later;
    PollingFollowsExactly(Late(met, p, w), p, w.d, later);
  }

  /** An archiving overtaken by an unarchiving: each passes its check, and the project ends open with its devices shut. */
  lemma CrossedArchivingShutsDevices(db: Db, p: Id, d: Id)
    requires ProjectOpen(db, p) && DeviceIn(db, p, d)
    ensures db.projects[p].archived != true && Late(db, p, Mark(true)).projects[p].archived != false
    ensures var after := LateAll(db, p, [Mark(true), Mark(false), Sweep(false), Sweep(true)]);
            ProjectOpen(after, p) && d in after.devices && after.devices[d].pollingDisabled
            && !PollingFollowsArchive(after, d)
  {
    var ws := [Mark(true), Mark(false), Sweep(false), Sweep(true)];
    assert ws[..3] == [Mark(true), Mark(false), Sweep(false)];
    assert ws[..3][..2] == [Mark(true), Mark(false)];
    assert LastMark(ws[..3][..2], false) == false;
    assert LastMark(ws[..3], false) == false;
    WritesFlag(db, p, d, ws, false, db.devices[d].pollingDisabled);
  }

  // ---------------------------------------------------------------------------
  // Deletion
  // ---------------------------------------------------------------------------

  /** A late registration is in step with its project exactly when the project is still open. */
  lemma LateInsertionIsGatedExactly(db: Db, p: Id, w: GateWrite)
    requires p in db.projects && w.Insert? && MayCreate(db, w.d, w.token, w.hash)
    ensures DeviceGated(Late(db, p, w), w.d) <==> ProjectOpen(db, p)
  {
  }

  /** And its secret authenticates, whatever has become of the project. */
  lemma LateDevicesAuthenticate(db: Db, p: Id, w: GateWrite)
    requires w.Insert? && MayCreate(db, w.d, w.token, w.hash)
    ensures Authenticate(Late(db, p, w), w.hash) == Ok(w.d)
  {
    var after := Late(db, p, w);
    assert LiveTokens(after, w.hash) == {w.token} by {
      forall t | t in LiveTokens(after, w.hash)
        ensures t == w.token
      {
        assert !HashUsed(db, w.hash);
      }
    }
    assert IsLeast({w.token}, Least(LiveTokens(after, w.hash)));
  }

  /** The project is deleted, with no unfinished campaign. */
  ghost predicate Closed(db: Db, p: Id) {
    Buried(db, p) && BlockingCampaigns(db, p) == {}
  }

  lemma GatedDeletionsClose(db: Db, p: Id)
    requires Gated(db) && Buried(db, p)
    ensures Closed(db, p) && forall d | DeviceIn(db, p, d) :: db.devices[d].tokenRevoked
  {
    forall c | c in db.campaigns
      ensures c !in BlockingCampaigns(db, p)
    {
      assert CampaignGated(db, c);
    }
    forall d | DeviceIn(db, p, d)
      ensures db.devices[d].tokenRevoked
    {
      assert DeviceGated(db, d);
    }
  }

  /** The write registers d after all. */
  predicate Inserts(db: Db, w: GateWrite, d: Id) {
    w.Insert? && w.d == d && MayCreate(db, d, w.token, w.hash)
  }

  predicate CutOff(db: Db, p: Id, d: Id) {
    DeviceIn(db, p, d) ==> db.devices[d].tokenRevoked
  }

  /** In a deleted project one write leaves a device cut off exactly unless it registers it. */
  lemma CutOffStep(db: Db, p: Id, w: GateWrite, d: Id)
    requires Closed(db, p)
    ensures Closed(Late(db, p, w), p)
    ensures CutOff(Late(db, p, w), p, d) <==> w.Bury? || (CutOff(db, p, d) && !Inserts(db, w, d))
  {
    assert BlockingCampaigns(Late(db, p, w), p) == BlockingCampaigns(db, p);
  }

  /** The k-th write registers d, and no deletion follows. */
  predicate OutlivesFrom(db: Db, p: Id, ws: seq<GateWrite>, d: Id, k: nat) {
    k < |ws| && Inserts(LateAll(db, p, ws[..k]), ws[k], d) && Bury !in ws[k + 1..]
  }

  lemma {:induction false} CutOffExactly(db: Db, p: Id, ws: seq<GateWrite>, d: Id)
    requires Closed(db, p) && CutOff(db, p, d)
    ensures Closed(LateAll(db, p, ws), p)
    ensures CutOff(LateAll(db, p, ws), p, d) <==> !exists k: nat :: OutlivesFrom(db, p, ws, d, k)
  {
    if ws != [] {
      var init, last := ws[..|ws| - 1], ws[|ws| - 1];
      CutOffExactly(db, p, init, d);
      assert ws == init + [last] && [last][1..] == [];
      LateAllConcat(db, p, init, [last]);
      CutOffStep(LateAll(db, p, init), p, last, d);
      OutlivesOneMore(db, p, init, last, d);
    }
  }

  lemma OutlivesOneMore(db: Db, p: Id, ws: seq<GateWrite>, w: GateWrite, d: Id)
    ensures (exists k: nat :: OutlivesFrom(db, p, ws + [w], d, k)) <==>
            Inserts(LateAll(db, p, ws), w, d) || (!w.Bury? && exists k: nat :: OutlivesFrom(db, p, ws, d, k))
  {
    var all := ws + [w];
    assert all[..|ws|] == ws && all[|ws| + 1..] == [];
    assert Inserts(LateAll(db, p, ws), w, d) ==> OutlivesFrom(db, p, all, d, |ws|);
    forall k: nat | k < |ws|
      ensures OutlivesFrom(db, p, all, d, k) <==> !w.Bury? && OutlivesFrom(db, p, ws, d, k)
    {
      assert all[..k] == ws[..k] && all[k + 1..] == ws[k + 1..] + [w];
    }
  }

  /**
   Main result: after a project's deletion its devices stay cut off, through any late writes, with
   exactly the exception of those a late registration inserts without another deletion after it.
   */
  lemma DevicesOutliveDeletionExactly(db: Db, p: Id, ws: seq<GateWrite>, d: Id)
    requires Gated(db) && Buried(db, p)
    ensures Buried(LateAll(db, p, ws), p)
    ensures CutOff(LateAll(db, p, ws), p, d) <==> !exists k: nat :: OutlivesFrom(db, p, ws, d, k)
  {
    GatedDeletionsClose(db, p);
    CutOffExactly(db, p, ws, d);
  }
}
