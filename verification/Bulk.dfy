/**
 Bulk device operations (internal/domain/device/service/device_groups_bulk.go): up to 500 devices,
 listed or matched by a filter, possibly repeated and possibly foreign to the project.
 */
module Bulk {
  import opened Basics
  import opened Tables
  import opened Queries
  import opened DeviceTokens
  import opened Repositories
  import Machine

  const MAX_SYNC := 500

  // ---------------------------------------------------------------------------
  // Splitting a list by project
  // ---------------------------------------------------------------------------

  function Kept(db: Db, p: Id, ids: seq<Id>, present: bool): seq<Id> {
    if ids == [] then []
    else
      var init, last := Kept(db, p, ids[..|ids| - 1], present), ids[|ids| - 1];
      if DeviceIn(db, p, last) == present then init + [last] else init
  }

  /** The split loses nothing, repeats nothing and puts every id on its side. */
  lemma {:induction false} SplitKeepsEverything(db: Db, p: Id, ids: seq<Id>)
    ensures |Kept(db, p, ids, true)| + |Kept(db, p, ids, false)| == |ids|
    ensures multiset(Kept(db, p, ids, true)) + multiset(Kept(db, p, ids, false)) == multiset(ids)
    ensures forall d :: d in Kept(db, p, ids, true) <==> d in ids && DeviceIn(db, p, d)
    ensures forall d :: d in Kept(db, p, ids, false) <==> d in ids && !DeviceIn(db, p, d)
  {
    if ids != [] {
      var init := ids[..|ids| - 1];
      SplitKeepsEverything(db, p, init);
      assert ids == init + [ids[|ids| - 1]];
    }
  }

  // ---------------------------------------------------------------------------
  // Groups
  // ---------------------------------------------------------------------------

  function Links(g: Id, ids: seq<Id>): set<Membership> {
    set d | d in ids :: Membership(g, d)
  }

  function Joined(db: Db, g: Id, ids: seq<Id>): Db {
    db.(members := db.members + Links(g, ids))
  }

  function Parted(db: Db, g: Id, ids: seq<Id>): Db {
    db.(members := db.members - Links(g, ids))
  }

  /** Adding then removing the same devices leaves exactly the members that were not listed. */
  lemma PartingUndoesJoining(db: Db, g: Id, ids: seq<Id>)
    ensures Parted(Joined(db, g, ids), g, ids) == Parted(db, g, ids)
    ensures (forall d | d in ids :: Membership(g, d) !in db.members) ==> Parted(Joined(db, g, ids), g, ids) == db
  {
    AddThenRemove(db.members, Links(g, ids));
    if forall d | d in ids :: Membership(g, d) !in db.members {
      assert db.members !! Links(g, ids);
    }
  }

  lemma AddThenRemove(a: set<Membership>, b: set<Membership>)
    ensures (a + b) - b == a - b
    ensures a !! b ==> a - b == a
  {
  }

  // ---------------------------------------------------------------------------
  // Device by device
  // ---------------------------------------------------------------------------

  datatype FailureCode = NotFound | OtherError

  datatype Failure = Failure(device: Id, code: FailureCode)

  datatype BulkRun = BulkRun(db: Db, succeeded: nat, failed: seq<Failure>, tokens: map<Id, Bytes>)

  /** A rotation's new token id and secret. */
  datatype Minted = Minted(id: Id, raw: Bytes)

  function BlockRun(db: Db, p: Id, ids: seq<Id>, blocked: bool): BulkRun {
    if ids == [] then BulkRun(db, 0, [], map[])
    else
      var r, d := BlockRun(db, p, ids[..|ids| - 1], blocked), ids[|ids| - 1];
      if DeviceIn(r.db, p, d) then r.(db := SetBlocked(r.db, p, d, blocked), succeeded := r.succeeded + 1)
      else r.(failed := r.failed + [Failure(d, OtherError)])
  }

  function RotateRun(db: Db, p: Id, ids: seq<Id>, minted: nat -> Minted, hash: Bytes -> Bytes): BulkRun {
    if ids == [] then BulkRun(db, 0, [], map[])
    else
      RotateOne(RotateRun(db, p, ids[..|ids| - 1], minted, hash), p, ids[|ids| - 1], minted(|ids| - 1), hash)
  }

  function RotateOne(r: BulkRun, p: Id, d: Id, f: Minted, hash: Bytes -> Bytes): BulkRun {
    if !DeviceIn(r.db, p, d) then r.(failed := r.failed + [Failure(d, NotFound)])
    else if !MayRotate(r.db, p, d, f.id, hash(f.raw)) then r.(failed := r.failed + [Failure(d, OtherError)])
    else r.(db := RotateToken(r.db, p, d, f.id, hash(f.raw)), succeeded := r.succeeded + 1, tokens := r.tokens[d := f.raw])
  }

  lemma {:induction false} BlockRunAccounts(db: Db, p: Id, ids: seq<Id>, blocked: bool)
    ensures var r := BlockRun(db, p, ids, blocked);
            r.succeeded + |r.failed| == |ids| && r.tokens == map[]
  {
    if ids != [] {
      BlockRunAccounts(db, p, ids[..|ids| - 1], blocked);
    }
  }

  lemma {:induction false} RotateRunAccounts(db: Db, p: Id, ids: seq<Id>, minted: nat -> Minted, hash: Bytes -> Bytes)
    ensures var r := RotateRun(db, p, ids, minted, hash);
            r.succeeded + |r.failed| == |ids|
  {
    if ids != [] {
      RotateRunAccounts(db, p, ids[..|ids| - 1], minted, hash);
    }
  }

  predicate BlockedAsAsked(before: Db, after: Db, p: Id, ids: seq<Id>, blocked: bool, d: Id)
    requires d in before.devices
  {
    d in after.devices
    && after.devices[d] == if d in ids && DeviceIn(before, p, d) then before.devices[d].(blocked := blocked) else before.devices[d]
  }

  /** Every listed device of the project ends up as asked, every other device as it was. */
  lemma {:induction false} BlockRunBlocksExactly(db: Db, p: Id, ids: seq<Id>, blocked: bool)
    ensures var after := BlockRun(db, p, ids, blocked).db;
            (forall d | d in db.devices :: BlockedAsAsked(db, after, p, ids, blocked, d))
            && (forall d | d in after.devices :: d in db.devices)
  {
    if ids != [] {
      var init, k := ids[..|ids| - 1], ids[|ids| - 1];
      BlockRunBlocksExactly(db, p, init, blocked);
      var mid, after := BlockRun(db, p, init, blocked).db, BlockRun(db, p, ids, blocked).db;
      assert ids == init + [k];
      assert k in db.devices ==> BlockedAsAsked(db, mid, p, init, blocked, k);
      forall d | d in db.devices
        ensures BlockedAsAsked(db, after, p, ids, blocked, d)
      {
        assert BlockedAsAsked(db, mid, p, init, blocked, d);
      }
    }
  }

  // ---------------------------------------------------------------------------
  // Rotation
  // ---------------------------------------------------------------------------

  ghost predicate AllHaveOneLiveToken(db: Db) {
    (forall d | d in db.devices :: OneLiveToken(db, d))
    && forall t | t in db.authTokens :: db.authTokens[t].device in db.devices
  }

  lemma RotationKeepsOneLive(db: Db, p: Id, d: Id, token: Id, hash: Bytes)
    requires AllHaveOneLiveToken(db)
    ensures AllHaveOneLiveToken(RotateToken(db, p, d, token, hash))
  {
    var db' := RotateToken(db, p, d, token, hash);
    if MayRotate(db, p, d, token, hash) {
      forall k | k in db'.devices
        ensures OneLiveToken(db', k)
      {
        assert OneLiveToken(db, k);
        forall t
          ensures LiveTokenOf(db', k, t) <==> t == db'.devices[k].activeToken
        {
          assert LiveTokenOf(db, k, t) <==> t == db.devices[k].activeToken;
          assert LiveTokenOf(db, k, db.devices[k].activeToken);
        }
      }
    }
  }

  /** The secret handed out for a device is the one its only live token was made from. */
  predicate Current(db: Db, d: Id, raw: Bytes, hash: Bytes -> Bytes) {
    && d in db.devices
    && LiveTokenOf(db, d, db.devices[d].activeToken)
    && db.authTokens[db.devices[d].activeToken].hash == hash(raw)
  }

  ghost predicate AllCurrent(db: Db, tokens: map<Id, Bytes>, hash: Bytes -> Bytes) {
    forall d | d in tokens :: Current(db, d, tokens[d], hash)
  }

  lemma RotationKeepsCurrent(db: Db, p: Id, d: Id, f: Minted, hash: Bytes -> Bytes, tokens: map<Id, Bytes>)
    requires AllCurrent(db, tokens, hash) && MayRotate(db, p, d, f.id, hash(f.raw))
    ensures AllCurrent(RotateToken(db, p, d, f.id, hash(f.raw)), tokens[d := f.raw], hash)
  {
    var db' := RotateToken(db, p, d, f.id, hash(f.raw));
    forall k | k in tokens && k != d
      ensures Current(db', k, tokens[k], hash)
    {
      assert Current(db, k, tokens[k], hash);
    }
    assert Current(db', d, f.raw, hash);
  }

  lemma {:induction false} RotateRunIsCurrent(db: Db, p: Id, ids: seq<Id>, minted: nat -> Minted, hash: Bytes -> Bytes)
    requires AllHaveOneLiveToken(db)
    ensures AllHaveOneLiveToken(RotateRun(db, p, ids, minted, hash).db)
    ensures AllCurrent(RotateRun(db, p, ids, minted, hash).db, RotateRun(db, p, ids, minted, hash).tokens, hash)
  {
    if ids != [] {
      var init, d, f := ids[..|ids| - 1], ids[|ids| - 1], minted(|ids| - 1);
      RotateRunIsCurrent(db, p, init, minted, hash);
      var before := RotateRun(db, p, init, minted, hash);
      RotationKeepsOneLive(before.db, p, d, f.id, hash(f.raw));
      if MayRotate(before.db, p, d, f.id, hash(f.raw)) {
        RotationKeepsCurrent(before.db, p, d, f, hash, before.tokens);
      }
    }
  }

  /**
   Main result: after a bulk rotation each secret in the result belongs to the device's only live
   token, even if the device was listed several times.
   */
  lemma RotatedSecretsAreTheOnlyLiveOnes(ops: seq<TokenOp>, p: Id, ids: seq<Id>, minted: nat -> Minted, hash: Bytes -> Bytes, d: Id)
    requires IsHistory(ops)
    requires d in RotateRun(After(ops), p, ids, minted, hash).tokens
    ensures var r := RotateRun(After(ops), p, ids, minted, hash);
            OneLiveToken(r.db, d) && Current(r.db, d, r.tokens[d], hash)
  {
    HistoriesHaveOneLive(ops);
    RotateRunIsCurrent(After(ops), p, ids, minted, hash);
  }

  lemma TokenOwnersExist(db: Db, t: Id, issued: seq<Id>)
    requires t in db.authTokens && Chain(db, db.authTokens[t].device, issued)
    ensures db.authTokens[t].device in db.devices
  {
  }

  lemma HistoriesHaveOneLive(ops: seq<TokenOp>)
    requires IsHistory(ops)
    ensures AllHaveOneLiveToken(After(ops))
  {
    forall d | d in After(ops).devices
      ensures OneLiveToken(After(ops), d)
    {
      ExactlyOneLiveToken(ops, d);
    }
    forall t | t in After(ops).authTokens
      ensures After(ops).authTokens[t].device in After(ops).devices
    {
      var d := After(ops).authTokens[t].device;
      HistoriesAreChained(ops, d);
      TokenOwnersExist(After(ops), t, Issued(ops, d));
    }
  }

  // ---------------------------------------------------------------------------
  // The service
  // ---------------------------------------------------------------------------

  datatype Action = AddToGroup | RemoveFromGroup | Block | Unblock | RotateTokens | Unsupported

  /** The devices asked for: those a filter matches, or a list. */
  datatype Selection = ByFilter(matches: Device -> bool) | ByIds(ids: seq<Id>)

  datatype BulkError = UnsupportedAction | BulkProjectMissing | BulkProjectArchived | GroupRequired | GroupMissing | TooLarge | IdsRequired

  datatype BulkResult = BulkResult(matched: nat, processed: nat, succeeded: nat, failed: seq<Failure>, tokens: map<Id, Bytes>)

  function Matching(db: Db, p: Id, matches: Device -> bool): set<Id> {
    set d | d in db.devices && DeviceIn(db, p, d) && matches(db.devices[d])
  }

  function Grouped(action: Action): bool {
    action.AddToGroup? || action.RemoveFromGroup?
  }

  function BulkVerdict(db: Db, p: Id, action: Action, sel: Selection, group: Option<Id>): Option<BulkError> {
    if action.Unsupported? then Some(UnsupportedAction)
    else if p !in db.projects || db.projects[p].deleted then Some(BulkProjectMissing)
    else if db.projects[p].archived then Some(BulkProjectArchived)
    else if Grouped(action) && (group.None? || group.value == Machine.NIL) then Some(GroupRequired)
    else if group.Some? && group.value != Machine.NIL && !GroupIn(db, p, group.value) then Some(GroupMissing)
    else match sel
         case ByFilter(matches) => if |Matching(db, p, matches)| > MAX_SYNC then Some(TooLarge) else None
         case ByIds(ids) => if ids == [] then Some(IdsRequired) else if |ids| > MAX_SYNC then Some(TooLarge) else None
  }

  /** The list a selection stands for: the ids as given, or the matches in some order. */
  ghost predicate Stands(db: Db, p: Id, sel: Selection, ids: seq<Id>) {
    match sel
    case ByFilter(matches) =>
      NoDuplicates(ids) && forall d :: d in ids <==> d in db.devices && db.devices[d].project == p && matches(db.devices[d])
    case ByIds(given) => ids == given
  }

  /** What the action does to a list of devices. */
  function BulkEffect(db: Db, p: Id, action: Action, group: Id, ids: seq<Id>, minted: nat -> Minted, hash: Bytes -> Bytes): BulkRun {
    match action
    case AddToGroup =>
      BulkRun(Joined(db, group, Kept(db, p, ids, true)), |Kept(db, p, ids, true)|, Missing(Kept(db, p, ids, false)), map[])
    case RemoveFromGroup =>
      BulkRun(Parted(db, group, Kept(db, p, ids, true)), |Kept(db, p, ids, true)|, Missing(Kept(db, p, ids, false)), map[])
    case Block => BlockRun(db, p, ids, true)
    case Unblock => BlockRun(db, p, ids, false)
    case RotateTokens => RotateRun(db, p, ids, minted, hash)
    case Unsupported => BulkRun(db, 0, [], map[])
  }

  function Missing(ids: seq<Id>): (r: seq<Failure>)
    ensures |r| == |ids|
  {
    seq(|ids|, i requires 0 <= i < |ids| => Failure(ids[i], NotFound))
  }

  /** Main result: every device asked for is either counted as done or listed as failed, for all five actions. */
  lemma EveryDeviceIsAccountedFor(db: Db, p: Id, action: Action, group: Id, ids: seq<Id>, minted: nat -> Minted, hash: Bytes -> Bytes)
    requires !action.Unsupported?
    ensures var r := BulkEffect(db, p, action, group, ids, minted, hash);
            r.succeeded + |r.failed| == |ids|
  {
    SplitKeepsEverything(db, p, ids);
    BlockRunAccounts(db, p, ids, action.Block?);
    RotateRunAccounts(db, p, ids, minted, hash);
  }

  // ---------------------------------------------------------------------------
  // What each action does, row by row
  // ---------------------------------------------------------------------------

  /** The device is asked for and belongs to the project. */
  predicate Picked(db: Db, p: Id, ids: seq<Id>, d: Id) {
    d in ids && d in db.devices && db.devices[d].project == p
  }

  /** The picked devices end up blocked or not, the others as they were. */
  predicate SetsBlocked(db: Db, after: Db, p: Id, ids: seq<Id>, blocked: bool) {
    && after == db.(devices := after.devices) && after.devices.Keys == db.devices.Keys
    && forall d | d in db.devices ::
         after.devices[d] == if Picked(db, p, ids, d) then db.devices[d].(blocked := blocked) else db.devices[d]
  }

  /** The group gains (or loses) the picked devices, and no other membership changes. */
  ghost predicate SetsMembers(db: Db, after: Db, p: Id, group: Id, ids: seq<Id>, joins: bool) {
    && after == db.(members := after.members)
    && forall m: Membership ::
         m in after.members <==> if m.group == group && Picked(db, p, ids, m.device) then joins else m in db.members
  }

  /** Whoever got a secret is let in by it, as far as the gates of the device are open. */
  ghost predicate LetsIn(after: Db, d: Id, raw: Bytes, hash: Bytes -> Bytes) {
    && d in after.devices
    && (Authenticate(after, hash(raw)) == Ok(d) <==>
          !after.devices[d].blocked && !after.devices[d].tokenRevoked && !after.devices[d].pollingDisabled)
  }

  /** Only picked devices get secrets, and of all rows only their active token and their tokens change. */
  ghost predicate RotatesOnly(db: Db, after: Db, p: Id, ids: seq<Id>, tokens: map<Id, Bytes>) {
    && after == db.(devices := after.devices, authTokens := after.authTokens)
    && (forall d | d in tokens :: Picked(db, p, ids, d))
    && ActivatesOnly(db.devices, after.devices, tokens) && ReplacesOnly(db.authTokens, after.authTokens, tokens)
  }

  ghost predicate ActivatesOnly(before: map<Id, Device>, after: map<Id, Device>, tokens: map<Id, Bytes>) {
    && after.Keys == before.Keys
    && forall d | d in before ::
         after[d] == if d in tokens then before[d].(activeToken := after[d].activeToken) else before[d]
  }

  ghost predicate ReplacesOnly(before: map<Id, AuthToken>, after: map<Id, AuthToken>, tokens: map<Id, Bytes>) {
    && (forall t | t in before :: t in after && after[t].device == before[t].device
                                  && (before[t].device !in tokens ==> after[t] == before[t]))
    && (forall t | t in after && t !in before :: after[t].device in tokens)
  }

  ghost predicate ActsRight(db: Db, after: Db, p: Id, action: Action, group: Id, ids: seq<Id>, hash: Bytes -> Bytes, tokens: map<Id, Bytes>) {
    match action
    case Block => SetsBlocked(db, after, p, ids, true) && tokens == map[]
    case Unblock => SetsBlocked(db, after, p, ids, false) && tokens == map[]
    case AddToGroup => SetsMembers(db, after, p, group, ids, true) && tokens == map[]
    case RemoveFromGroup => SetsMembers(db, after, p, group, ids, false) && tokens == map[]
    case RotateTokens =>
      RotatesOnly(db, after, p, ids, tokens)
      && (AllHaveOneLiveToken(db) && HashesUnique(db) ==> forall d | d in tokens :: LetsIn(after, d, tokens[d], hash))
    case Unsupported => after == db && tokens == map[]
  }

  lemma {:induction false} BlockRunSets(db: Db, p: Id, ids: seq<Id>, blocked: bool)
    ensures SetsBlocked(db, BlockRun(db, p, ids, blocked).db, p, ids, blocked)
  {
    BlockRunBlocksExactly(db, p, ids, blocked);
    var after := BlockRun(db, p, ids, blocked).db;
    forall d | d in db.devices
      ensures after.devices[d] == if Picked(db, p, ids, d) then db.devices[d].(blocked := blocked) else db.devices[d]
    {
      assert BlockedAsAsked(db, after, p, ids, blocked, d);
    }
    BlockRunTouchesDevices(db, p, ids, blocked);
  }

  lemma {:induction false} BlockRunTouchesDevices(db: Db, p: Id, ids: seq<Id>, blocked: bool)
    ensures BlockRun(db, p, ids, blocked).db == db.(devices := BlockRun(db, p, ids, blocked).db.devices)
  {
    if ids != [] {
      BlockRunTouchesDevices(db, p, ids[..|ids| - 1], blocked);
    }
  }

  lemma MembersSet(db: Db, p: Id, group: Id, ids: seq<Id>)
    ensures SetsMembers(db, Joined(db, group, Kept(db, p, ids, true)), p, group, ids, true)
    ensures SetsMembers(db, Parted(db, group, Kept(db, p, ids, true)), p, group, ids, false)
  {
    SplitKeepsEverything(db, p, ids);
    var kept := Kept(db, p, ids, true);
    forall m: Membership
      ensures m in Links(group, kept) <==> m.group == group && Picked(db, p, ids, m.device)
    {
      assert m.device in kept <==> Picked(db, p, ids, m.device);
    }
  }

  lemma {:induction false} RotateRunKeepsUnique(db: Db, p: Id, ids: seq<Id>, minted: nat -> Minted, hash: Bytes -> Bytes)
    requires HashesUnique(db)
    ensures HashesUnique(RotateRun(db, p, ids, minted, hash).db)
  {
    if ids != [] {
      RotateRunKeepsUnique(db, p, ids[..|ids| - 1], minted, hash);
      var r, f := RotateRun(db, p, ids[..|ids| - 1], minted, hash), minted(|ids| - 1);
      OperationKeepsHashesUnique(r.db, Rotate(p, ids[|ids| - 1], f.id, hash(f.raw)));
    }
  }

  lemma OneRotationMore(db: Db, mid: Db, p: Id, ids: seq<Id>, d: Id, f: Minted, hash: Bytes -> Bytes, tokens: map<Id, Bytes>)
    requires RotatesOnly(db, mid, p, ids, tokens) && MayRotate(mid, p, d, f.id, hash(f.raw))
    ensures RotatesOnly(db, RotateToken(mid, p, d, f.id, hash(f.raw)), p, ids + [d], tokens[d := f.raw])
  {
    var after := RotateToken(mid, p, d, f.id, hash(f.raw));
    OneActivationMore(db.devices, mid.devices, d, f.id, tokens, f.raw);
    OneReplacementMore(db.authTokens, mid.authTokens, d, f.id, hash(f.raw), tokens, f.raw);
    assert after == mid.(devices := after.devices, authTokens := after.authTokens);
  }

  lemma OneActivationMore(before: map<Id, Device>, mid: map<Id, Device>, d: Id, token: Id, tokens: map<Id, Bytes>, raw: Bytes)
    requires ActivatesOnly(before, mid, tokens) && d in mid
    ensures ActivatesOnly(before, mid[d := mid[d].(activeToken := token)], tokens[d := raw])
  {
  }

  lemma OneReplacementMore(before: map<Id, AuthToken>, mid: map<Id, AuthToken>, d: Id, token: Id, hash: Bytes,
                           tokens: map<Id, Bytes>, raw: Bytes)
    requires ReplacesOnly(before, mid, tokens) && token !in mid
    ensures ReplacesOnly(before, RevokeAll(mid, d, token)[token := AuthToken(d, hash, false, None)], tokens[d := raw])
  {
  }

  lemma {:induction false} RotateRunRotatesOnly(db: Db, p: Id, ids: seq<Id>, minted: nat -> Minted, hash: Bytes -> Bytes)
    ensures var r := RotateRun(db, p, ids, minted, hash); RotatesOnly(db, r.db, p, ids, r.tokens)
  {
    if ids != [] {
      var init, d, f := ids[..|ids| - 1], ids[|ids| - 1], minted(|ids| - 1);
      RotateRunRotatesOnly(db, p, init, minted, hash);
      assert ids == init + [d];
      var mid := RotateRun(db, p, init, minted, hash);
      if MayRotate(mid.db, p, d, f.id, hash(f.raw)) {
        OneRotationMore(db, mid.db, p, init, d, f, hash, mid.tokens);
      }
    }
  }

  lemma RotateRunLetsIn(db: Db, p: Id, ids: seq<Id>, minted: nat -> Minted, hash: Bytes -> Bytes, d: Id)
    requires AllHaveOneLiveToken(db) && HashesUnique(db) && d in RotateRun(db, p, ids, minted, hash).tokens
    ensures var r := RotateRun(db, p, ids, minted, hash); LetsIn(r.db, d, r.tokens[d], hash)
  {
    RotateRunIsCurrent(db, p, ids, minted, hash);
    RotateRunKeepsUnique(db, p, ids, minted, hash);
    var r := RotateRun(db, p, ids, minted, hash);
    assert Current(r.db, d, r.tokens[d], hash);
    AuthenticateByToken(r.db, r.db.devices[d].activeToken);
  }

  /** Main result: what each action leaves, for any list of devices, repeated or foreign ones included. */
  lemma ActionsActRight(db: Db, p: Id, action: Action, group: Id, ids: seq<Id>, minted: nat -> Minted, hash: Bytes -> Bytes)
    ensures var r := BulkEffect(db, p, action, group, ids, minted, hash); ActsRight(db, r.db, p, action, group, ids, hash, r.tokens)
  {
    BlockRunSets(db, p, ids, true);
    BlockRunSets(db, p, ids, false);
    BlockRunAccounts(db, p, ids, true);
    BlockRunAccounts(db, p, ids, false);
    MembersSet(db, p, group, ids);
    RotateRunRotatesOnly(db, p, ids, minted, hash);
    if action.RotateTokens? && AllHaveOneLiveToken(db) && HashesUnique(db) {
      var r := RotateRun(db, p, ids, minted, hash);
      forall d | d in r.tokens
        ensures LetsIn(r.db, d, r.tokens[d], hash)
      {
        RotateRunLetsIn(db, p, ids, minted, hash, d);
      }
    }
  }

  /** Main result: after any history, every device a rotation names is let in by the secret given for it, its gates allowing. */
  lemma RotatedDevicesAreLetIn(ops: seq<TokenOp>, p: Id, group: Id, ids: seq<Id>, minted: nat -> Minted, hash: Bytes -> Bytes, d: Id)
    requires IsHistory(ops) && d in BulkEffect(After(ops), p, RotateTokens, group, ids, minted, hash).tokens
    ensures var r := BulkEffect(After(ops), p, RotateTokens, group, ids, minted, hash); LetsIn(r.db, d, r.tokens[d], hash)
  {
    HistoriesHaveOneLive(ops);
    HistoriesKeepHashesUnique(ops);
    RotateRunLetsIn(After(ops), p, ids, minted, hash, d);
  }

  // ---------------------------------------------------------------------------
  // Who fails
  // ---------------------------------------------------------------------------

  /** The code a foreign or unknown device is listed with. */
  function ForeignCode(action: Action): FailureCode {
    if action.Block? || action.Unblock? then OtherError else NotFound
  }

  /** The ids that are not picked, in order, each with the code. */
  function Foreigners(db: Db, p: Id, ids: seq<Id>, code: FailureCode): seq<Failure> {
    if ids == [] then []
    else
      var init, last := Foreigners(db, p, ids[..|ids| - 1], code), ids[|ids| - 1];
      if last in db.devices && db.devices[last].project == p then init else init + [Failure(last, code)]
  }

  /** New tokens that meet no conflict: neither among themselves nor with the stored ones. */
  ghost predicate FreshlyMinted(db: Db, n: nat, minted: nat -> Minted, hash: Bytes -> Bytes) {
    && (forall i | 0 <= i < n :: minted(i).id !in db.authTokens && !HashUsed(db, hash(minted(i).raw)))
    && (forall i, j | 0 <= i < j < n :: minted(i).id != minted(j).id && hash(minted(i).raw) != hash(minted(j).raw))
  }

  lemma {:induction false} MissingAreForeigners(db: Db, p: Id, ids: seq<Id>)
    ensures Missing(Kept(db, p, ids, false)) == Foreigners(db, p, ids, NotFound)
  {
    if ids != [] {
      MissingAreForeigners(db, p, ids[..|ids| - 1]);
    }
  }

  lemma {:induction false} BlockRunFailures(db: Db, p: Id, ids: seq<Id>, blocked: bool)
    ensures BlockRun(db, p, ids, blocked).failed == Foreigners(db, p, ids, OtherError)
  {
    if ids != [] {
      var init := ids[..|ids| - 1];
      BlockRunFailures(db, p, init, blocked);
      BlockRunSets(db, p, init, blocked);
    }
  }

  /** The tokens stored by the first n rotations are those minted for them. */
  ghost predicate OnlyMinted(db: Db, after: Db, n: nat, minted: nat -> Minted, hash: Bytes -> Bytes) {
    forall t | t in after.authTokens ::
      || (t in db.authTokens && after.authTokens[t].hash == db.authTokens[t].hash)
      || exists i: nat :: i < n && MintedAs(after, t, i, minted, hash)
  }

  lemma MintedMayRotate(db: Db, mid: Db, p: Id, d: Id, n: nat, minted: nat -> Minted, hash: Bytes -> Bytes)
    requires FreshlyMinted(db, n + 1, minted, hash) && OnlyMinted(db, mid, n, minted, hash) && DeviceIn(mid, p, d)
    ensures MayRotate(mid, p, d, minted(n).id, hash(minted(n).raw))
  {
    var f := minted(n);
    assert !HashUsed(db, hash(f.raw));
    forall t | t in mid.authTokens
      ensures t != f.id && mid.authTokens[t].hash != hash(f.raw)
    {
      if t in db.authTokens && mid.authTokens[t].hash == db.authTokens[t].hash {
        assert db.authTokens[t].hash != hash(f.raw);
      }
    }
  }

  predicate MintedAs(after: Db, t: Id, i: nat, minted: nat -> Minted, hash: Bytes -> Bytes)
    requires t in after.authTokens
  {
    t == minted(i).id && after.authTokens[t].hash == hash(minted(i).raw)
  }

  lemma RotationStoresMinted(db: Db, mid: Db, p: Id, d: Id, n: nat, minted: nat -> Minted, hash: Bytes -> Bytes)
    requires OnlyMinted(db, mid, n, minted, hash) && MayRotate(mid, p, d, minted(n).id, hash(minted(n).raw))
    ensures OnlyMinted(db, RotateToken(mid, p, d, minted(n).id, hash(minted(n).raw)), n + 1, minted, hash)
  {
    var after := RotateToken(mid, p, d, minted(n).id, hash(minted(n).raw));
    forall t | t in after.authTokens && !(t in db.authTokens && after.authTokens[t].hash == db.authTokens[t].hash)
      ensures exists i: nat :: i < n + 1 && MintedAs(after, t, i, minted, hash)
    {
      if t == minted(n).id {
        assert MintedAs(after, t, n, minted, hash);
      } else {
        var i: nat :| i < n && MintedAs(mid, t, i, minted, hash);
        assert MintedAs(after, t, i, minted, hash);
      }
    }
  }

  ghost predicate ReachesAll(db: Db, p: Id, ids: seq<Id>, tokens: map<Id, Bytes>) {
    forall d :: d in tokens <==> Picked(db, p, ids, d)
  }

  lemma ReachesOneMore(db: Db, p: Id, ids: seq<Id>, d: Id, tokens: map<Id, Bytes>, raw: Bytes)
    requires ReachesAll(db, p, ids, tokens)
    ensures ReachesAll(db, p, ids + [d], if DeviceIn(db, p, d) then tokens[d := raw] else tokens)
  {
    forall k
      ensures Picked(db, p, ids + [d], k) <==> Picked(db, p, ids, k) || (k == d && DeviceIn(db, p, d))
    {
    }
  }

  /** What is so of a rotation so far, if every new token is fresh. */
  ghost predicate FreshSoFar(db: Db, r: BulkRun, p: Id, ids: seq<Id>, minted: nat -> Minted, hash: Bytes -> Bytes) {
    && OnlyMinted(db, r.db, |ids|, minted, hash)
    && r.failed == Foreigners(db, p, ids, NotFound)
    && ReachesAll(db, p, ids, r.tokens)
  }

  lemma OneFreshRotation(db: Db, r: BulkRun, p: Id, ids: seq<Id>, d: Id, minted: nat -> Minted, hash: Bytes -> Bytes)
    requires FreshlyMinted(db, |ids| + 1, minted, hash) && FreshSoFar(db, r, p, ids, minted, hash)
    requires DeviceIn(r.db, p, d) <==> DeviceIn(db, p, d)
    ensures FreshSoFar(db, RotateOne(r, p, d, minted(|ids|), hash), p, ids + [d], minted, hash)
  {
    var n := |ids|;
    ReachesOneMore(db, p, ids, d, r.tokens, minted(n).raw);
    assert (ids + [d])[..n] == ids;
    if DeviceIn(db, p, d) {
      MintedMayRotate(db, r.db, p, d, n, minted, hash);
      RotationStoresMinted(db, r.db, p, d, n, minted, hash);
    } else {
      OneMoreMinted(db, r.db, n, minted, hash);
    }
  }

  lemma FewerMinted(db: Db, n: nat, minted: nat -> Minted, hash: Bytes -> Bytes)
    requires FreshlyMinted(db, n + 1, minted, hash)
    ensures FreshlyMinted(db, n, minted, hash)
  {
  }

  lemma RotationKeepsPresence(db: Db, p: Id, ids: seq<Id>, minted: nat -> Minted, hash: Bytes -> Bytes, d: Id)
    ensures DeviceIn(RotateRun(db, p, ids, minted, hash).db, p, d) <==> DeviceIn(db, p, d)
  {
    RotateRunRotatesOnly(db, p, ids, minted, hash);
  }

  lemma {:induction false} FreshRotationsReachAll(db: Db, p: Id, ids: seq<Id>, minted: nat -> Minted, hash: Bytes -> Bytes)
    requires FreshlyMinted(db, |ids|, minted, hash)
    ensures FreshSoFar(db, RotateRun(db, p, ids, minted, hash), p, ids, minted, hash)
  {
    if ids != [] {
      var init, d := ids[..|ids| - 1], ids[|ids| - 1];
      FewerMinted(db, |init|, minted, hash);
      FreshRotationsReachAll(db, p, init, minted, hash);
      RotationKeepsPresence(db, p, init, minted, hash, d);
      assert ids == init + [d];
      OneFreshRotation(db, RotateRun(db, p, init, minted, hash), p, init, d, minted, hash);
    }
  }

  lemma OneMoreMinted(db: Db, mid: Db, n: nat, minted: nat -> Minted, hash: Bytes -> Bytes)
    requires OnlyMinted(db, mid, n, minted, hash)
    ensures OnlyMinted(db, mid, n + 1, minted, hash)
  {
    forall t | t in mid.authTokens && !(t in db.authTokens && mid.authTokens[t].hash == db.authTokens[t].hash)
      ensures exists i: nat :: i < n + 1 && MintedAs(mid, t, i, minted, hash)
    {
      var i: nat :| i < n && MintedAs(mid, t, i, minted, hash);
    }
  }

  /**
   Main result: exactly the ids that are not devices of the project fail, in order, and a rotation
   gives every other device a secret, as long as the new tokens meet no conflict.
   */
  lemma OnlyForeignersFail(db: Db, p: Id, action: Action, group: Id, ids: seq<Id>, minted: nat -> Minted, hash: Bytes -> Bytes)
    requires !action.Unsupported? && (action.RotateTokens? ==> FreshlyMinted(db, |ids|, minted, hash))
    ensures var r := BulkEffect(db, p, action, group, ids, minted, hash);
            && r.failed == Foreigners(db, p, ids, ForeignCode(action))
            && (action.RotateTokens? ==> ReachesAll(db, p, ids, r.tokens))
  {
    MissingAreForeigners(db, p, ids);
    BlockRunFailures(db, p, ids, true);
    BlockRunFailures(db, p, ids, false);
    if action.RotateTokens? {
      FreshRotationsReachAll(db, p, ids, minted, hash);
    }
  }

  // ---------------------------------------------------------------------------
  // Refusals
  // ---------------------------------------------------------------------------

  /** The devices of the project that a filter matches. */
  ghost predicate MatchesTooMany(db: Db, p: Id, matches: Device -> bool) {
    |set d | d in db.devices && db.devices[d].project == p && matches(db.devices[d])| > 500
  }

  /** Each refusal by what is wrong. */
  ghost predicate Wrong(db: Db, p: Id, action: Action, sel: Selection, group: Option<Id>, e: BulkError) {
    var named := group.Some? && group.value != 0;
    match e
    case UnsupportedAction => action.Unsupported?
    case BulkProjectMissing => p !in db.projects || db.projects[p].deleted
    case BulkProjectArchived => p in db.projects && db.projects[p].archived
    case GroupRequired => (action.AddToGroup? || action.RemoveFromGroup?) && !named
    case GroupMissing => named && (group.value !in db.groups || db.groups[group.value] != DeviceGroup(p, false))
    case IdsRequired => sel.ByIds? && sel.ids == []
    case TooLarge => if sel.ByIds? then |sel.ids| > 500 else MatchesTooMany(db, p, sel.matches)
  }

  function Turn(e: BulkError): nat {
    match e
    case UnsupportedAction => 0
    case BulkProjectMissing => 1
    case BulkProjectArchived => 2
    case GroupRequired => 3
    case GroupMissing => 4
    case IdsRequired => 5
    case TooLarge => 6
  }

  /** A bulk request is refused exactly when something is wrong, and with the first thing that is. */
  lemma RefusedForTheFirstWrong(db: Db, p: Id, action: Action, sel: Selection, group: Option<Id>)
    ensures match BulkVerdict(db, p, action, sel, group)
            case None => forall e :: !Wrong(db, p, action, sel, group, e)
            case Some(e) => Wrong(db, p, action, sel, group, e)
                            && forall e' | Turn(e') < Turn(e) :: !Wrong(db, p, action, sel, group, e')
  {
    if sel.ByFilter? {
      assert Matching(db, p, sel.matches) == set d | d in db.devices && db.devices[d].project == p && sel.matches(db.devices[d]);
    }
  }

  class BulkService {
    const repo: Repository
    /** security.HashToken */
    const hash: Bytes -> Bytes

    constructor (repo: Repository, hash: Bytes -> Bytes)
      ensures this.repo == repo && this.hash == hash
    {
      this.repo, this.hash := repo, hash;
    }

    /** Order and repetitions are kept on both sides. */
    method FilterDevicesInProject(p: Id, ids: seq<Id>) returns (valid: seq<Id>, missing: seq<Id>)
      ensures valid == Kept(repo.Snapshot(), p, ids, true) && missing == Kept(repo.Snapshot(), p, ids, false)
    {
      valid, missing := [], [];
      var found := set d | d in ids && DeviceIn(repo.Snapshot(), p, d);
      for i := 0 to |ids|
        invariant valid == Kept(repo.Snapshot(), p, ids[..i], true) && missing == Kept(repo.Snapshot(), p, ids[..i], false)
      {
        assert ids[..i + 1][..i] == ids[..i];
        if ids[i] in found {
          valid := valid + [ids[i]];
        } else {
          missing := missing + [ids[i]];
        }
      }
      assert ids[..|ids|] == ids;
    }

    /** Inserts that do nothing on a conflict. */
    method AddDevicesToGroup(g: Id, ids: seq<Id>) returns (inserted: nat)
      modifies repo`members
      ensures repo.Snapshot() == Joined(old(repo.Snapshot()), g, ids)
      ensures inserted == |repo.members| - |old(repo.members)|
    {
      inserted := 0;
      for i := 0 to |ids|
        invariant repo.members == Joined(old(repo.Snapshot()), g, ids[..i]).members
        invariant inserted == |repo.members| - |old(repo.members)|
      {
        var m := Membership(g, ids[i]);
        assert ids[..i + 1] == ids[..i] + [ids[i]];
        if m !in repo.members {
          repo.members := repo.members + {m};
          inserted := inserted + 1;
        }
      }
      assert ids[..|ids|] == ids;
    }

    method RemoveDevicesFromGroup(g: Id, ids: seq<Id>)
      modifies repo`members
      ensures repo.Snapshot() == Parted(old(repo.Snapshot()), g, ids)
    {
      repo.members := repo.members - Links(g, ids);
    }

    method FailMissing(missing: seq<Id>) returns (failed: seq<Failure>)
      ensures failed == Missing(missing)
    {
      failed := [];
      for i := 0 to |missing|
        invariant failed == Missing(missing[..i])
      {
        failed := failed + [Failure(missing[i], NotFound)];
        assert missing[..i + 1] == missing[..i] + [missing[i]];
      }
      assert missing[..|missing|] == missing;
    }

    method BlockEach(p: Id, ids: seq<Id>, blocked: bool) returns (succeeded: nat, failed: seq<Failure>)
      modifies repo`devices
      ensures var r := BlockRun(old(repo.Snapshot()), p, ids, blocked);
              repo.Snapshot() == r.db && succeeded == r.succeeded && failed == r.failed
    {
      succeeded, failed := 0, [];
      for i := 0 to |ids|
        invariant var r := BlockRun(old(repo.Snapshot()), p, ids[..i], blocked);
                  repo.Snapshot() == r.db && succeeded == r.succeeded && failed == r.failed
      {
        assert ids[..i + 1][..i] == ids[..i];
        var ok := repo.SetDeviceBlockedTx(p, ids[i], blocked);
        if ok {
          succeeded := succeeded + 1;
        } else {
          failed := failed + [Failure(ids[i], OtherError)];
        }
      }
      assert ids[..|ids|] == ids;
    }

    /** The last secret issued for a device replaces the earlier ones. */
    method RotateEach(p: Id, ids: seq<Id>, minted: nat -> Minted)
      returns (succeeded: nat, failed: seq<Failure>, tokens: map<Id, Bytes>)
      modifies repo`devices, repo`authTokens
      ensures var r := RotateRun(old(repo.Snapshot()), p, ids, minted, hash);
              repo.Snapshot() == r.db && succeeded == r.succeeded && failed == r.failed && tokens == r.tokens
    {
      succeeded, failed, tokens := 0, [], map[];
      for i := 0 to |ids|
        invariant var r := RotateRun(old(repo.Snapshot()), p, ids[..i], minted, hash);
                  repo.Snapshot() == r.db && succeeded == r.succeeded && failed == r.failed && tokens == r.tokens
      {
        assert ids[..i + 1][..i] == ids[..i];
        if !DeviceIn(repo.Snapshot(), p, ids[i]) {
          failed := failed + [Failure(ids[i], NotFound)];
        } else {
          var ok := repo.RotateDeviceAuthTokenTx(p, ids[i], hash(minted(i).raw), minted(i).id);
          if ok {
            tokens := tokens[ids[i] := minted(i).raw];
            succeeded := succeeded + 1;
          } else {
            failed := failed + [Failure(ids[i], OtherError)];
          }
        }
      }
      assert ids[..|ids|] == ids;
    }

    /** The devices asked for, or why there are none to work on. */
    method Select(p: Id, sel: Selection) returns (matched: nat, ids: Result<seq<Id>, BulkError>)
      ensures match sel
              case ByFilter(matches) =>
                matched == |Matching(repo.Snapshot(), p, matches)| && (ids == Err(TooLarge) <==> matched > MAX_SYNC)
                && (matched <= MAX_SYNC ==> ids.Ok?) && (ids.Ok? ==> |ids.value| == matched)
              case ByIds(given) =>
                matched == 0 && (ids == Err(IdsRequired) <==> given == []) && (ids == Err(TooLarge) <==> |given| > MAX_SYNC)
                && (0 < |given| <= MAX_SYNC ==> ids.Ok?)
      ensures ids.Ok? ==> Stands(repo.Snapshot(), p, sel, ids.value)
    {
      match sel {
        case ByFilter(matches) =>
          var found := Matching(repo.Snapshot(), p, matches);
          if |found| > MAX_SYNC {
            return |found|, Err(TooLarge);
          }
          var listed := Enumerate(found);
          assert forall d :: d in listed <==> d in ToSet(listed);
          DistinctCardinality(listed);
          return |found|, Ok(listed);
        case ByIds(given) =>
          if |given| == 0 {
            return 0, Err(IdsRequired);
          }
          if |given| > MAX_SYNC {
            return 0, Err(TooLarge);
          }
          return 0, Ok(given);
      }
    }

    /** The action on the devices selected. */
    method Act(p: Id, action: Action, group: Id, ids: seq<Id>, minted: nat -> Minted) returns (r: BulkResult)
      requires !action.Unsupported?
      modifies repo
      ensures var e := BulkEffect(old(repo.Snapshot()), p, action, group, ids, minted, hash);
              repo.Snapshot() == e.db && r == BulkResult(r.matched, |ids|, e.succeeded, e.failed, e.tokens)
    {
      var succeeded, failed, tokens := 0, [], map[];
      BlockRunAccounts(repo.Snapshot(), p, ids, action.Block?);
      match action {
        case AddToGroup =>
          var valid, missing := FilterDevicesInProject(p, ids);
          failed := FailMissing(missing);
          assert Joined(repo.Snapshot(), group, []).members == repo.members;
          if |valid| > 0 {
            var _ := AddDevicesToGroup(group, valid);
          }
          succeeded := |valid|;
        case RemoveFromGroup =>
          var valid, missing := FilterDevicesInProject(p, ids);
          failed := FailMissing(missing);
          assert Parted(repo.Snapshot(), group, []).members == repo.members;
          if |valid| > 0 {
            RemoveDevicesFromGroup(group, valid);
          }
          succeeded := |valid|;
        case Block => succeeded, failed := BlockEach(p, ids, true);
        case Unblock => succeeded, failed := BlockEach(p, ids, false);
        case RotateTokens => succeeded, failed, tokens := RotateEach(p, ids, minted);
      }
      r := BulkResult(0, |ids|, succeeded, failed, tokens);
    }

    method BulkDevices(p: Id, action: Action, sel: Selection, group: Option<Id>, minted: nat -> Minted)
      returns (r: Result<BulkResult, BulkError>, ghost ids: seq<Id>)
      modifies repo
      ensures r.Err? <==> BulkVerdict(old(repo.Snapshot()), p, action, sel, group).Some?
      ensures r.Err? ==> Some(r.error) == BulkVerdict(old(repo.Snapshot()), p, action, sel, group)
                         && repo.Snapshot() == old(repo.Snapshot())
      ensures r.Ok? ==> Stands(old(repo.Snapshot()), p, sel, ids)
      ensures r.Ok? ==>
                var e := BulkEffect(old(repo.Snapshot()), p, action, if group.Some? then group.value else Machine.NIL, ids, minted, hash);
                repo.Snapshot() == e.db && r.value == BulkResult(r.value.matched, |ids|, e.succeeded, e.failed, e.tokens)
      ensures r.Ok? ==> r.value.processed == r.value.succeeded + |r.value.failed|
      ensures r.Ok? ==> r.value.matched == if sel.ByFilter? then |ids| else 0
      ensures r.Ok? ==> ActsRight(old(repo.Snapshot()), repo.Snapshot(), p, action,
                                  if group.Some? then group.value else Machine.NIL, ids, hash, r.value.tokens)
    {
      ids := [];
      if action.Unsupported? {
        r := Err(UnsupportedAction);
        return;
      }
      if p !in repo.projects || repo.projects[p].deleted {
        r := Err(BulkProjectMissing);
        return;
      }
      if repo.projects[p].archived {
        r := Err(BulkProjectArchived);
        return;
      }
      if Grouped(action) && (group.None? || group.value == Machine.NIL) {
        r := Err(GroupRequired);
        return;
      }
      if group.Some? && group.value != Machine.NIL {
        if !GroupIn(repo.Snapshot(), p, group.value) {
          r := Err(GroupMissing);
          return;
        }
      }
      var matched, selected := Select(p, sel);
      if selected.Err? {
        r := Err(selected.error);
        return;
      }
      ids := selected.value;
      var g := if group.Some? then group.value else Machine.NIL;
      EveryDeviceIsAccountedFor(repo.Snapshot(), p, action, g, ids, minted, hash);
      ActionsActRight(repo.Snapshot(), p, action, g, ids, minted, hash);
      var done := Act(p, action, g, selected.value, minted);
      r := Ok(done.(matched := matched));
    }
  }
}
