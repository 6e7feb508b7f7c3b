/**
 What the operations on devices, their tokens and projects come to, in terms of the tables alone.
 */
module AccessEffects {
  import opened Basics
  import opened CampaignState
  import opened Tables
  import opened Queries
  import opened DeviceTokens
  import opened Projects

  // ---------------------------------------------------------------------------
  // Devices and their tokens
  // ---------------------------------------------------------------------------

  predicate IsNew(db: Db, token: Id, hash: Bytes) {
    token !in db.authTokens && forall t | t in db.authTokens :: db.authTokens[t].hash != hash
  }

  /** Registering stores one device, never seen, with every gate open, and its one token. */
  lemma RegistrationEffect(db: Db, p: Id, d: Id, deviceType: Id, token: Id, hash: Bytes)
    ensures CreateDevice(db, p, d, deviceType, token, hash) ==
            if d !in db.devices && IsNew(db, token, hash)
            then db.(devices := db.devices[d := Device(p, deviceType, false, false, false, token, [], None)],
                     authTokens := db.authTokens[token := AuthToken(d, hash, false, None)])
            else db
  {
  }

  /** The token rows after a rotation: the live ones of the device revoked and pointed at the new one. */
  ghost predicate RotatedRows(before: map<Id, AuthToken>, after: map<Id, AuthToken>, d: Id, token: Id, hash: Bytes) {
    && after.Keys == before.Keys + {token} && after[token] == AuthToken(d, hash, false, None)
    && forall t | t in before ::
         after[t] == if before[t].device == d && !before[t].revoked then AuthToken(d, before[t].hash, true, Some(token)) else before[t]
  }

  lemma RotationEffect(db: Db, p: Id, d: Id, token: Id, hash: Bytes)
    ensures var after := RotateToken(db, p, d, token, hash);
            if d in db.devices && db.devices[d].project == p && IsNew(db, token, hash)
            then after == db.(devices := db.devices[d := db.devices[d].(activeToken := token)], authTokens := after.authTokens)
                 && RotatedRows(db.authTokens, after.authTokens, d, token, hash)
            else after == db
  {
  }

  lemma BlockingEffect(db: Db, p: Id, d: Id, blocked: bool)
    ensures SetBlocked(db, p, d, blocked) ==
            if d in db.devices && db.devices[d].project == p
            then db.(devices := db.devices[d := db.devices[d].(blocked := blocked)]) else db
  {
  }

  /** A sighting of a device: when, and which version if one is known. */
  lemma SightingEffect(db: Db, p: Id, d: Id, version: Option<Bytes>, now: Time)
    ensures var after := TouchDevice(db, p, d, version, now);
            if d in db.devices && db.devices[d].project == p
            then after == db.(devices := after.devices) && after.devices == db.devices[d := after.devices[d]]
                 && after.devices[d] == db.devices[d].(lastSeen := Some(now), firmwareVersion := after.devices[d].firmwareVersion)
                 && after.devices[d].firmwareVersion == if version.Some? then version.value else db.devices[d].firmwareVersion
            else after == db
  {
  }

  /** The token that speaks for a secret's hash: the live one with the least id. */
  ghost predicate Speaks(db: Db, t: Id, hash: Bytes) {
    && t in db.authTokens && db.authTokens[t].hash == hash && !db.authTokens[t].revoked
    && forall k | k in db.authTokens && db.authTokens[k].hash == hash && !db.authTokens[k].revoked :: t <= k
  }

  /** Main result: the outcome of an authentication, gate by gate in their order. */
  lemma AuthenticationEffect(db: Db, hash: Bytes)
    ensures (forall t :: !Speaks(db, t, hash)) ==> Authenticate(db, hash) == Err(NoSuchToken)
    ensures forall t | Speaks(db, t, hash) ::
              var d := db.authTokens[t].device;
              if d !in db.devices then Authenticate(db, hash) == Err(NoSuchToken)
              else var row := db.devices[d];
                   Authenticate(db, hash) ==
                   if row.blocked then Err(BlockedDevice) else if row.tokenRevoked then Err(RevokedDevice)
                   else if row.pollingDisabled then Err(DisabledPolling) else Ok(d)
  {
    var live := LiveTokens(db, hash);
    if live != {} {
      assert IsLeast(live, Least(live));
      forall k | k in db.authTokens && db.authTokens[k].hash == hash && !db.authTokens[k].revoked
        ensures Least(live) <= k
      {
        assert k in live;
      }
      assert Speaks(db, Least(live), hash);
      forall t | Speaks(db, t, hash)
        ensures t == Least(live)
      {
        assert t in live;
      }
    } else {
      forall t
        ensures !Speaks(db, t, hash)
      {
        assert t !in live;
      }
    }
  }

  // ---------------------------------------------------------------------------
  // Projects
  // ---------------------------------------------------------------------------

  /** The device rows of the project get these gates, the others stay. */
  ghost predicate GatesSet(before: map<Id, Device>, after: map<Id, Device>, p: Id, revoke: bool, disable: bool) {
    && after.Keys == before.Keys
    && forall d | d in before ::
         var row := before[d];
         after[d] == if row.project == p then row.(tokenRevoked := revoke || row.tokenRevoked, pollingDisabled := disable) else row
  }

  /** Archiving: a live project in the other state changes its flag and its devices' polling, nothing else. */
  lemma ArchivingEffect(db: Db, p: Id, archived: bool)
    ensures var after := Archive(db, p, archived);
            if p in db.projects && !db.projects[p].deleted && db.projects[p].archived != archived
            then after == db.(projects := db.projects[p := Project(archived, false)], devices := after.devices)
                 && GatesSet(db.devices, after.devices, p, false, archived)
            else after == db
  {
  }

  /** An unfinished campaign of the project. */
  predicate Unfinished(db: Db, p: Id, c: Id) {
    && c in db.campaigns && db.campaigns[c].project == p
    && db.campaigns[c].status != Completed && db.campaigns[c].status != Cancelled
  }

  /** Deleting: refused while a campaign is unfinished; else the row is buried and every device shut out for good. */
  lemma DeletionEffect(db: Db, p: Id)
    ensures var after := Delete(db, p);
            if exists c :: Unfinished(db, p, c) then after == db
            else after == db.(projects := after.projects, devices := after.devices)
                 && after.projects == (if p in db.projects
                                       then db.projects[p := Project(db.projects[p].archived, true)] else db.projects)
                 && GatesSet(db.devices, after.devices, p, true, true)
  {
    assert forall c :: c in BlockingCampaigns(db, p) <==> Unfinished(db, p, c);
  }

  lemma FoundingEffect(db: Db, p: Id)
    ensures NewProject(db, p) == if p in db.projects then db else db.(projects := db.projects[p := Project(false, false)])
  {
  }
}
