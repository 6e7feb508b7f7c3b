/**
 Device session tokens. A rotation revokes whatever is live, points it at the new token and makes
 the new one active; over any history the tokens of a device form one chain that ends in the only
 token that still authenticates.
 */
module DeviceTokens {
  import opened Basics
  import opened Tables
  import opened Queries

  // ---------------------------------------------------------------------------
  // Operations (internal/domain/device/repository/repository.go)
  // ---------------------------------------------------------------------------

  predicate HashUsed(db: Db, hash: Bytes) {
    exists t | t in db.authTokens :: db.authTokens[t].hash == hash
  }

  /** The unique index on device_auth_tokens.token_hash. */
  ghost predicate HashesUnique(db: Db) {
    forall s, t | s in db.authTokens && t in db.authTokens :: db.authTokens[s].hash == db.authTokens[t].hash ==> s == t
  }

  predicate MayCreate(db: Db, d: Id, token: Id, hash: Bytes) {
    d !in db.devices && token !in db.authTokens && !HashUsed(db, hash)
  }

  function NewDevice(p: Id, deviceType: Id, token: Id): Device {
    Device(p, deviceType, false, false, false, token, [], None)
  }

  /** CreateDeviceAndAuthTokenTx: a key conflict aborts the transaction. */
  function CreateDevice(db: Db, p: Id, d: Id, deviceType: Id, token: Id, hash: Bytes): Db {
    if MayCreate(db, d, token, hash)
    then db.(devices := db.devices[d := NewDevice(p, deviceType, token)],
             authTokens := db.authTokens[token := AuthToken(d, hash, false, None)])
    else db
  }

  /** Revokes every live token of the device. */
  function RevokedBy(row: AuthToken, d: Id, successor: Id): AuthToken {
    if row.device == d && !row.revoked then row.(revoked := true, replacedBy := Some(successor)) else row
  }

  function RevokeAll(tokens: map<Id, AuthToken>, d: Id, successor: Id): map<Id, AuthToken> {
    map t | t in tokens :: RevokedBy(tokens[t], d, successor)
  }

  predicate MayRotate(db: Db, p: Id, d: Id, token: Id, hash: Bytes) {
    DeviceIn(db, p, d) && token !in db.authTokens && !HashUsed(db, hash)
  }

  /** RotateDeviceAuthTokenTx. */
  function RotateToken(db: Db, p: Id, d: Id, token: Id, hash: Bytes): Db {
    if MayRotate(db, p, d, token, hash) then
      db.(devices := db.devices[d := db.devices[d].(activeToken := token)],
          authTokens := RevokeAll(db.authTokens, d, token)[token := AuthToken(d, hash, false, None)])
    else db
  }

  function SetBlocked(db: Db, p: Id, d: Id, blocked: bool): Db {
    if DeviceIn(db, p, d) then PutDevice(db, d, db.devices[d].(blocked := blocked)) else db
  }

  datatype AuthError = NoSuchToken | BlockedDevice | RevokedDevice | DisabledPolling

  predicate LiveWithHash(db: Db, t: Id, hash: Bytes) {
    t in db.authTokens && db.authTokens[t].hash == hash && !db.authTokens[t].revoked
  }

  /** The gates of GetDeviceByActiveTokenHash, in its order. */
  function Gate(db: Db, d: Id): Result<Id, AuthError> {
    if d !in db.devices then Err(NoSuchToken)
    else if db.devices[d].blocked then Err(BlockedDevice)
    else if db.devices[d].tokenRevoked then Err(RevokedDevice)
    else if db.devices[d].pollingDisabled then Err(DisabledPolling)
    else Ok(d)
  }

  function LiveTokens(db: Db, hash: Bytes): set<Id> {
    set t | t in db.authTokens && LiveWithHash(db, t, hash)
  }

  ghost predicate IsLeast(s: set<Id>, t: Id) {
    t in s && forall x | x in s :: t <= x
  }

  lemma {:induction false} LeastExists(s: set<Id>)
    requires s != {}
    ensures exists t :: IsLeast(s, t)
    decreases s
  {
    var x :| x in s;
    if s == {x} {
      assert IsLeast(s, x);
    } else {
      LeastExists(s - {x});
      var t :| IsLeast(s - {x}, t);
      var least := if t < x then t else x;
      assert s == (s - {x}) + {x};
      assert IsLeast(s, least);
    }
  }

  ghost function Least(s: set<Id>): (t: Id)
    requires s != {}
    ensures IsLeast(s, t)
  {
    LeastExists(s);
    var t :| IsLeast(s, t);
    t
  }

  /** The lookup takes the first row in key order. */
  ghost function Authenticate(db: Db, hash: Bytes): Result<Id, AuthError> {
    var live := LiveTokens(db, hash);
    if live == {} then Err(NoSuchToken) else Gate(db, db.authTokens[Least(live)].device)
  }

  lemma AuthenticateByToken(db: Db, t: Id)
    requires HashesUnique(db) && t in db.authTokens && !db.authTokens[t].revoked
    ensures Authenticate(db, db.authTokens[t].hash) == Gate(db, db.authTokens[t].device)
  {
    assert t in LiveTokens(db, db.authTokens[t].hash);
  }

  // ---------------------------------------------------------------------------
  // Histories
  // ---------------------------------------------------------------------------

  /** Everything else leaves the tokens and each device's active token alone. */
  ghost predicate TokensUntouched(a: Db, b: Db) {
    && a.authTokens == b.authTokens && (forall d :: d in a.devices <==> d in b.devices)
    && forall d | d in a.devices ::
         a.devices[d].activeToken == b.devices[d].activeToken && a.devices[d].project == b.devices[d].project
  }

  datatype TokenOp =
    | Register(p: Id, d: Id, deviceType: Id, token: Id, hash: Bytes)
    | Rotate(p: Id, d: Id, token: Id, hash: Bytes)
    | Block(p: Id, d: Id, blocked: bool)
    | Elsewhere(db: Db)

  ghost predicate Possible(db: Db, op: TokenOp) {
    op.Elsewhere? ==> TokensUntouched(db, op.db)
  }

  ghost function Perform(db: Db, op: TokenOp): Db
    requires Possible(db, op)
  {
    match op
    case Register(p, d, deviceType, token, hash) => CreateDevice(db, p, d, deviceType, token, hash)
    case Rotate(p, d, token, hash) => RotateToken(db, p, d, token, hash)
    case Block(p, d, blocked) => SetBlocked(db, p, d, blocked)
    case Elsewhere(db') => db'
  }

  ghost predicate IsHistory(ops: seq<TokenOp>)
    decreases |ops|, 0
  {
    ops == [] || (IsHistory(ops[..|ops| - 1]) && Possible(After(ops[..|ops| - 1]), ops[|ops| - 1]))
  }

  ghost function After(ops: seq<TokenOp>): Db
    requires IsHistory(ops)
    decreases |ops|, 1
  {
    if ops == [] then EMPTY else Perform(After(ops[..|ops| - 1]), ops[|ops| - 1])
  }

  /** The token an operation issues to a device, if it goes through. */
  function IssuedBy(db: Db, op: TokenOp, d: Id): seq<Id> {
    match op
    case Register(p, d', _, token, hash) => if d' == d && MayCreate(db, d, token, hash) then [token] else []
    case Rotate(p, d', token, hash) => if d' == d && MayRotate(db, p, d, token, hash) then [token] else []
    case _ => []
  }

  /** Every token the history issued to a device, oldest first. */
  ghost function Issued(ops: seq<TokenOp>, d: Id): seq<Id>
    requires IsHistory(ops)
  {
    if ops == [] then []
    else
      var before := ops[..|ops| - 1];
      Issued(before, d) + IssuedBy(After(before), ops[|ops| - 1], d)
  }

  // ---------------------------------------------------------------------------
  // The chain
  // ---------------------------------------------------------------------------

  predicate Link(db: Db, d: Id, issued: seq<Id>, i: nat)
    requires i < |issued|
  {
    issued[i] in db.authTokens && db.authTokens[issued[i]].device == d
    && if i + 1 < |issued|
       then db.authTokens[issued[i]].revoked && db.authTokens[issued[i]].replacedBy == Some(issued[i + 1])
       else !db.authTokens[issued[i]].revoked && db.authTokens[issued[i]].replacedBy.None?
  }

  /** The tokens of a device are those issued to it, each replaced by the next, the last one active. */
  ghost predicate Chain(db: Db, d: Id, issued: seq<Id>) {
    && (forall t | t in db.authTokens && db.authTokens[t].device == d :: t in issued)
    && (forall i | 0 <= i < |issued| :: Link(db, d, issued, i))
    && (d in db.devices <==> issued != [])
    && (d in db.devices ==> db.devices[d].activeToken == issued[|issued| - 1])
  }

  lemma UntouchedKeepsChain(a: Db, b: Db, d: Id, issued: seq<Id>)
    requires Chain(a, d, issued) && TokensUntouched(a, b)
    ensures Chain(b, d, issued)
  {
    forall i | 0 <= i < |issued|
      ensures Link(b, d, issued, i)
    {
      assert Link(a, d, issued, i);
    }
  }

  lemma OthersKeepChain(a: Db, b: Db, d: Id, issued: seq<Id>)
    requires Chain(a, d, issued)
    requires d in a.devices <==> d in b.devices
    requires d in a.devices ==> b.devices[d].activeToken == a.devices[d].activeToken
    requires forall t | t in a.authTokens && a.authTokens[t].device == d :: t in b.authTokens && b.authTokens[t] == a.authTokens[t]
    requires forall t | t in b.authTokens && b.authTokens[t].device == d :: t in a.authTokens && b.authTokens[t] == a.authTokens[t]
    ensures Chain(b, d, issued)
  {
    forall i | 0 <= i < |issued|
      ensures Link(b, d, issued, i)
    {
      assert Link(a, d, issued, i);
    }
  }

  lemma RegisterKeepsChain(db: Db, p: Id, k: Id, deviceType: Id, token: Id, hash: Bytes, d: Id, issued: seq<Id>)
    requires Chain(db, d, issued)
    ensures Chain(CreateDevice(db, p, k, deviceType, token, hash), d,
                  issued + IssuedBy(db, Register(p, k, deviceType, token, hash), d))
  {
    var db' := CreateDevice(db, p, k, deviceType, token, hash);
    if !MayCreate(db, k, token, hash) {
      assert issued + [] == issued;
    } else if k != d {
      assert issued + [] == issued;
      OthersKeepChain(db, db', d, issued);
    } else {
      assert issued == [] && issued + [token] == [token];
      assert Link(db', d, [token], 0);
    }
  }

  lemma RotationRelinks(db: Db, p: Id, d: Id, token: Id, hash: Bytes, issued: seq<Id>, i: nat)
    requires Chain(db, d, issued) && MayRotate(db, p, d, token, hash) && i <= |issued|
    ensures Link(RotateToken(db, p, d, token, hash), d, issued + [token], i)
  {
    if i < |issued| {
      assert Link(db, d, issued, i);
      assert issued[i] != token;
    }
  }

  lemma RotateKeepsChain(db: Db, p: Id, k: Id, token: Id, hash: Bytes, d: Id, issued: seq<Id>)
    requires Chain(db, d, issued)
    ensures Chain(RotateToken(db, p, k, token, hash), d, issued + IssuedBy(db, Rotate(p, k, token, hash), d))
  {
    var db' := RotateToken(db, p, k, token, hash);
    if !MayRotate(db, p, k, token, hash) {
      assert issued + [] == issued;
    } else if k != d {
      assert issued + [] == issued;
      OthersKeepChain(db, db', d, issued);
    } else {
      forall i | 0 <= i < |issued + [token]|
        ensures Link(db', d, issued + [token], i)
      {
        RotationRelinks(db, p, d, token, hash, issued, i);
      }
    }
  }

  lemma BlockingTouchesNoToken(db: Db, p: Id, k: Id, blocked: bool)
    ensures TokensUntouched(db, SetBlocked(db, p, k, blocked))
  {
  }

  lemma OperationKeepsChain(db: Db, op: TokenOp, d: Id, issued: seq<Id>)
    requires Possible(db, op) && Chain(db, d, issued)
    ensures Chain(Perform(db, op), d, issued + IssuedBy(db, op, d))
  {
    if op.Register? {
      RegisterKeepsChain(db, op.p, op.d, op.deviceType, op.token, op.hash, d, issued);
    } else if op.Rotate? {
      RotateKeepsChain(db, op.p, op.d, op.token, op.hash, d, issued);
    } else {
      assert issued + [] == issued;
      if op.Block? {
        BlockingTouchesNoToken(db, op.p, op.d, op.blocked);
      }
      UntouchedKeepsChain(db, Perform(db, op), d, issued);
    }
  }

  lemma {:induction false} HistoriesAreChained(ops: seq<TokenOp>, d: Id)
    requires IsHistory(ops)
    ensures Chain(After(ops), d, Issued(ops, d))
  {
    if ops != [] {
      HistoriesAreChained(ops[..|ops| - 1], d);
      OperationKeepsChain(After(ops[..|ops| - 1]), ops[|ops| - 1], d, Issued(ops[..|ops| - 1], d));
    }
  }

  lemma OperationKeepsHashesUnique(db: Db, op: TokenOp)
    requires Possible(db, op) && HashesUnique(db)
    ensures HashesUnique(Perform(db, op))
  {
    var db' := Perform(db, op);
    forall s, t | s in db'.authTokens && t in db'.authTokens && db'.authTokens[s].hash == db'.authTokens[t].hash
      ensures s == t
    {
      assert s in db.authTokens ==> db.authTokens[s].hash == db'.authTokens[s].hash;
      assert t in db.authTokens ==> db.authTokens[t].hash == db'.authTokens[t].hash;
    }
  }

  lemma {:induction false} HistoriesKeepHashesUnique(ops: seq<TokenOp>)
    requires IsHistory(ops)
    ensures HashesUnique(After(ops))
  {
    if ops != [] {
      HistoriesKeepHashesUnique(ops[..|ops| - 1]);
      OperationKeepsHashesUnique(After(ops[..|ops| - 1]), ops[|ops| - 1]);
    }
  }

  // ---------------------------------------------------------------------------
  // Main results
  // ---------------------------------------------------------------------------

  /** Following replaced_by_token_id a number of times. */
  function Follow(db: Db, t: Id, hops: nat): Option<Id>
    decreases hops
  {
    if t !in db.authTokens then None
    else if hops == 0 then Some(t)
    else if db.authTokens[t].replacedBy.None? then None
    else Follow(db, db.authTokens[t].replacedBy.value, hops - 1)
  }

  /** The token belongs to the device and is not revoked. */
  predicate LiveTokenOf(db: Db, d: Id, t: Id) {
    t in db.authTokens && db.authTokens[t].device == d && !db.authTokens[t].revoked
  }

  ghost predicate OneLiveToken(db: Db, d: Id) {
    d in db.devices ==> forall t :: LiveTokenOf(db, d, t) <==> t == db.devices[d].activeToken
  }

  lemma ChainsHaveOneLiveToken(db: Db, d: Id, issued: seq<Id>)
    requires Chain(db, d, issued)
    ensures OneLiveToken(db, d)
  {
    if d in db.devices {
      assert Link(db, d, issued, |issued| - 1);
      forall t
        ensures LiveTokenOf(db, d, t) <==> t == issued[|issued| - 1]
      {
        if t in db.authTokens && db.authTokens[t].device == d {
          var i :| 0 <= i < |issued| && issued[i] == t;
          assert Link(db, d, issued, i);
        }
      }
    }
  }

  /** A device always has exactly one token that is not revoked, and it is the active one. */
  lemma ExactlyOneLiveToken(ops: seq<TokenOp>, d: Id)
    requires IsHistory(ops)
    ensures OneLiveToken(After(ops), d)
  {
    HistoriesAreChained(ops, d);
    ChainsHaveOneLiveToken(After(ops), d, Issued(ops, d));
  }

  lemma {:induction false} FollowAlongChain(db: Db, d: Id, issued: seq<Id>, i: nat, hops: nat)
    requires Chain(db, d, issued) && i + hops < |issued|
    ensures Follow(db, issued[i], hops) == Some(issued[i + hops])
    decreases hops
  {
    assert Link(db, d, issued, i);
    if hops > 0 {
      FollowAlongChain(db, d, issued, i + 1, hops - 1);
    }
  }

  lemma RevokedOnTheWay(db: Db, d: Id, issued: seq<Id>, i: nat, hops: nat)
    requires Chain(db, d, issued) && i + hops + 1 < |issued|
    ensures Follow(db, issued[i], hops).Some? && LinkRevoked(db, Follow(db, issued[i], hops).value)
  {
    FollowAlongChain(db, d, issued, i, hops);
    assert Link(db, d, issued, i + hops);
  }

  ghost predicate LeadsToEnd(db: Db, issued: seq<Id>, i: nat)
    requires i < |issued|
  {
    var last := |issued| - 1;
    && Follow(db, issued[i], last - i) == Some(issued[last])
    && Follow(db, issued[i], last - i + 1) == None
    && forall hops: nat | hops < last - i ::
         Follow(db, issued[i], hops).Some? && LinkRevoked(db, Follow(db, issued[i], hops).value)
  }

  lemma ChainsLeadToTheEnd(db: Db, d: Id, issued: seq<Id>, i: nat)
    requires Chain(db, d, issued) && i < |issued|
    ensures LeadsToEnd(db, issued, i)
  {
    var last := |issued| - 1;
    FollowAlongChain(db, d, issued, i, last - i);
    ChainEnds(db, d, issued, i);
    forall hops: nat | hops < last - i
      ensures Follow(db, issued[i], hops).Some? && LinkRevoked(db, Follow(db, issued[i], hops).value)
    {
      RevokedOnTheWay(db, d, issued, i, hops);
    }
  }

  ghost predicate LeadsToActive(db: Db, d: Id, issued: seq<Id>, i: nat)
    requires i < |issued|
  {
    d in db.devices && db.devices[d].activeToken == issued[|issued| - 1] && LeadsToEnd(db, issued, i)
  }

  lemma ChainsLeadToTheActive(db: Db, d: Id, issued: seq<Id>, i: nat)
    requires Chain(db, d, issued) && i < |issued|
    ensures LeadsToActive(db, d, issued, i)
  {
    ChainsLeadToTheEnd(db, d, issued, i);
  }

  /** The i-th token issued leads to the active one in exactly as many hops as tokens were issued after it. */
  lemma ChainLeadsToTheActiveToken(ops: seq<TokenOp>, d: Id, i: nat)
    requires IsHistory(ops) && i < |Issued(ops, d)|
    ensures LeadsToActive(After(ops), d, Issued(ops, d), i)
  {
    HistoriesAreChained(ops, d);
    ChainsLeadToTheActive(After(ops), d, Issued(ops, d), i);
  }

  predicate LinkRevoked(db: Db, t: Id) {
    t in db.authTokens && db.authTokens[t].revoked
  }

  lemma {:induction false} ChainEnds(db: Db, d: Id, issued: seq<Id>, i: nat)
    requires Chain(db, d, issued) && i < |issued|
    ensures Follow(db, issued[i], |issued| - i) == None
    decreases |issued| - i
  {
    assert Link(db, d, issued, i);
    if i + 1 < |issued| {
      ChainEnds(db, d, issued, i + 1);
    }
  }

  lemma OnlyTheLiveTokenAuthenticates(db: Db, hash: Bytes, d: Id)
    requires HashesUnique(db) && OneLiveToken(db, d)
    ensures Authenticate(db, hash) == Ok(d) <==>
            && d in db.devices && db.devices[d].activeToken in db.authTokens
            && db.authTokens[db.devices[d].activeToken].hash == hash
            && !db.devices[d].blocked && !db.devices[d].tokenRevoked && !db.devices[d].pollingDisabled
  {
    if Authenticate(db, hash) == Ok(d) {
      var t := Least(LiveTokens(db, hash));
      assert LiveTokenOf(db, d, t);
    }
    if d in db.devices && db.devices[d].activeToken in db.authTokens
       && db.authTokens[db.devices[d].activeToken].hash == hash {
      assert LiveTokenOf(db, d, db.devices[d].activeToken);
      AuthenticateByToken(db, db.devices[d].activeToken);
    }
  }

  /** A secret authenticates a device exactly when its hash is the active token's and no gate is closed. */
  lemma OnlyTheActiveTokenAuthenticates(ops: seq<TokenOp>, hash: Bytes, d: Id)
    requires IsHistory(ops)
    ensures var db := After(ops);
            Authenticate(db, hash) == Ok(d) <==>
            && d in db.devices && db.devices[d].activeToken in db.authTokens
            && db.authTokens[db.devices[d].activeToken].hash == hash
            && !db.devices[d].blocked && !db.devices[d].tokenRevoked && !db.devices[d].pollingDisabled
  {
    HistoriesKeepHashesUnique(ops);
    ExactlyOneLiveToken(ops, d);
    OnlyTheLiveTokenAuthenticates(After(ops), hash, d);
  }
}
