/**
 Memberships, roles and ownership. Every project keeps an owner and every membership a usable role,
 through invitations, role changes, removals, transfers and the deletion of roles.
 */
module Ownership {
  import opened Basics
  import opened Tables

  // ---------------------------------------------------------------------------
  // Rows
  // ---------------------------------------------------------------------------

  datatype Slug = OwnerSlug | AdminSlug | DeveloperSlug | ViewerSlug | NoSlug

  datatype Permission =
    | ProjectUpdate | ProjectDelete | MemberInvite | MemberUpdateRole | MemberRemove
    | RoleCreate | RoleUpdate | RoleDelete | OtherPermission(key: Bytes)

  datatype Role = Role(project: Option<Id>, slug: Slug, predefined: bool, permissions: set<Permission>, deleted: bool)

  /** One user has at most one membership in a project. */
  datatype Seat = Seat(project: Id, user: Id)

  datatype Rbac = Rbac(projects: map<Id, Project>, roles: map<Id, Role>, seats: map<Seat, Id>)

  // The seeded role rows.
  const OWNER: Id := 1
  const ADMIN: Id := 2
  const DEVELOPER: Id := 3
  const VIEWER: Id := 4

  predicate Seeded(roles: map<Id, Role>) {
    && OWNER in roles && roles[OWNER].slug == OwnerSlug && ADMIN in roles && roles[ADMIN].slug == AdminSlug
    && DEVELOPER in roles && roles[DEVELOPER].slug == DeveloperSlug && VIEWER in roles && roles[VIEWER].slug == ViewerSlug
    && forall r | r in roles :: roles[r].predefined && roles[r].project.None? && !roles[r].deleted
                                && (r == OWNER || r == ADMIN || r == DEVELOPER || r == VIEWER)
  }

  // ---------------------------------------------------------------------------
  // Reads
  // ---------------------------------------------------------------------------

  /** GetRole: soft-deleted roles are invisible. */
  predicate RoleLive(db: Rbac, r: Id) {
    r in db.roles && !db.roles[r].deleted
  }

  predicate Member(db: Rbac, p: Id, user: Id) {
    Seat(p, user) in db.seats
  }

  predicate IsOwnerRole(db: Rbac, r: Id) {
    RoleLive(db, r) && db.roles[r].predefined && db.roles[r].slug == OwnerSlug
  }

  predicate IsOwner(db: Rbac, p: Id, user: Id) {
    Member(db, p, user) && IsOwnerRole(db, db.seats[Seat(p, user)])
  }

  /** CountOwners counts these. */
  function Owners(db: Rbac, p: Id): set<Seat> {
    set s | s in db.seats && s.project == p && db.seats[s] == OWNER
  }

  predicate Authorized(db: Rbac, p: Id, user: Id, permission: Permission) {
    Member(db, p, user) && RoleLive(db, db.seats[Seat(p, user)]) && permission in db.roles[db.seats[Seat(p, user)]].permissions
  }

  /** ValidateAssignableRole. */
  predicate Assignable(db: Rbac, p: Id, r: Id) {
    r in db.roles
    && var role := db.roles[r];
       (role.predefined && role.project.None?) || (!role.predefined && role.project == Some(p))
  }

  // ---------------------------------------------------------------------------
  // Operations (internal/domain/rbac/service/project_service.go)
  // ---------------------------------------------------------------------------

  datatype RbacError =
    | Forbidden
    | NoProject
    | Archived
    | InvalidRole
    | ForeignRole
    | NoMember
    | AlreadyMember
    | NoUser
    | LastOwner
    | NotAMember
    | SelfTransfer
    | NoRole
    | SystemRole
    | RoleAssigned
    | PermissionRequired
    | Conflict

  function ProjectVerdict(db: Rbac, p: Id): Option<RbacError> {
    if p !in db.projects || db.projects[p].deleted then Some(NoProject)
    else if db.projects[p].archived then Some(Archived)
    else None
  }

  function Guarded(db: Rbac, p: Id, actor: Id, permission: Permission, rest: Option<RbacError>): Option<RbacError> {
    if !Authorized(db, p, actor, permission) then Some(Forbidden)
    else if ProjectVerdict(db, p).Some? then ProjectVerdict(db, p)
    else rest
  }

  /** Giving somebody a role: it must be usable here, its holder must be found, and only an owner makes owners. */
  function RoleVerdict(db: Rbac, p: Id, actor: Id, r: Id, holder: Option<RbacError>, rest: Option<RbacError>): Option<RbacError> {
    if !RoleLive(db, r) then Some(InvalidRole)
    else if !Assignable(db, p, r) then Some(ForeignRole)
    else if holder.Some? then holder
    else if IsOwnerRole(db, r) && !IsOwner(db, p, actor) then Some(Forbidden)
    else rest
  }

  function InviteVerdict(db: Rbac, actor: Id, p: Id, user: Option<Id>, r: Id): Option<RbacError> {
    Guarded(db, p, actor, MemberInvite, RoleVerdict(db, p, actor, r, None,
      if user.None? then Some(NoUser) else if Member(db, p, user.value) then Some(AlreadyMember) else None))
  }

  /** The member and the member's present role, both of which must be found. */
  function HolderVerdict(db: Rbac, p: Id, user: Id): Option<RbacError> {
    if !Member(db, p, user) then Some(NoMember)
    else if !RoleLive(db, db.seats[Seat(p, user)]) then Some(NoRole)
    else None
  }

  predicate GivesUpLastOwner(db: Rbac, p: Id, user: Id) {
    IsOwner(db, p, user) && |Owners(db, p)| <= 1
  }

  function UpdateVerdict(db: Rbac, actor: Id, p: Id, user: Id, r: Id): Option<RbacError> {
    Guarded(db, p, actor, MemberUpdateRole, RoleVerdict(db, p, actor, r, HolderVerdict(db, p, user),
      if !IsOwnerRole(db, r) && GivesUpLastOwner(db, p, user) then Some(LastOwner) else None))
  }

  function RemoveVerdict(db: Rbac, actor: Id, p: Id, user: Id): Option<RbacError> {
    Guarded(db, p, actor, MemberRemove,
      if HolderVerdict(db, p, user).Some? then HolderVerdict(db, p, user)
      else if GivesUpLastOwner(db, p, user) then Some(LastOwner)
      else None)
  }

  function TransferVerdict(db: Rbac, actor: Id, p: Id, to: Id): Option<RbacError> {
    if ProjectVerdict(db, p).Some? then ProjectVerdict(db, p)
    else if !Member(db, p, actor) then Some(NoMember)
    else if !IsOwner(db, p, actor) then Some(Forbidden)
    else if !Member(db, p, to) then Some(NotAMember)
    else if actor == to then Some(SelfTransfer)
    else None
  }

  function CreateRoleVerdict(db: Rbac, actor: Id, p: Id, r: Id, permissions: set<Permission>): Option<RbacError> {
    Guarded(db, p, actor, RoleCreate,
      if permissions == {} then Some(PermissionRequired) else if r in db.roles then Some(Conflict) else None)
  }

  predicate RoleUnused(db: Rbac, r: Id) {
    forall s | s in db.seats :: db.seats[s] != r
  }

  /** validateMutableCustomRole. */
  function MutableVerdict(db: Rbac, p: Id, r: Id): Option<RbacError> {
    if !RoleLive(db, r) then Some(NoRole)
    else if db.roles[r].predefined then Some(SystemRole)
    else if db.roles[r].project != Some(p) then Some(ForeignRole)
    else None
  }

  function DeleteRoleVerdict(db: Rbac, actor: Id, p: Id, r: Id): Option<RbacError> {
    Guarded(db, p, actor, RoleDelete,
      if MutableVerdict(db, p, r).Some? then MutableVerdict(db, p, r)
      else if !RoleUnused(db, r) then Some(RoleAssigned)
      else None)
  }

  /** UpdateCustomRole. */
  function EditRoleVerdict(db: Rbac, actor: Id, p: Id, r: Id): Option<RbacError> {
    Guarded(db, p, actor, RoleUpdate, MutableVerdict(db, p, r))
  }

  function PutSeat(db: Rbac, p: Id, user: Id, r: Id): Rbac {
    db.(seats := db.seats[Seat(p, user) := r])
  }

  function DropSeat(db: Rbac, p: Id, user: Id): Rbac {
    db.(seats := db.seats - {Seat(p, user)})
  }

  /** A given permission list replaces the old one, even when it is empty. */
  function Regranted(role: Role, granted: Option<set<Permission>>): Role {
    if granted.Some? then role.(permissions := granted.value) else role
  }

  function PutRole(db: Rbac, r: Id, role: Role): Rbac {
    db.(roles := db.roles[r := role])
  }

  datatype RbacOp =
    | CreateProject(actor: Id, p: Id)
    | Invite(actor: Id, p: Id, found: Option<Id>, r: Id)
    | UpdateRole(actor: Id, p: Id, user: Id, r: Id)
    | Remove(actor: Id, p: Id, user: Id)
    | Transfer(actor: Id, p: Id, to: Id)
    | CreateRole(actor: Id, p: Id, r: Id, permissions: set<Permission>)
    | EditRole(actor: Id, p: Id, r: Id, granted: Option<set<Permission>>)
    | DeleteRole(actor: Id, p: Id, r: Id)
    | SetProject(p: Id, row: Project)

  function Verdict(db: Rbac, op: RbacOp): Option<RbacError> {
    match op
    case CreateProject(_, p) => if p in db.projects then Some(Conflict) else None
    case Invite(actor, p, user, r) => InviteVerdict(db, actor, p, user, r)
    case UpdateRole(actor, p, user, r) => UpdateVerdict(db, actor, p, user, r)
    case Remove(actor, p, user) => RemoveVerdict(db, actor, p, user)
    case Transfer(actor, p, to) => TransferVerdict(db, actor, p, to)
    case CreateRole(actor, p, r, permissions) => CreateRoleVerdict(db, actor, p, r, permissions)
    case EditRole(actor, p, r, _) => EditRoleVerdict(db, actor, p, r)
    case DeleteRole(actor, p, r) => DeleteRoleVerdict(db, actor, p, r)
    case SetProject(p, _) => if p in db.projects then None else Some(NoProject)
  }

  /** Archiving and deleting rewrite the project row and leave memberships and roles alone. */
  function Perform(db: Rbac, op: RbacOp): Rbac {
    if Verdict(db, op).Some? then db
    else
      match op
      case CreateProject(actor, p) => PutSeat(db.(projects := db.projects[p := Project(false, false)]), p, actor, OWNER)
      case Invite(_, p, user, r) => PutSeat(db, p, user.value, r)
      case UpdateRole(_, p, user, r) => PutSeat(db, p, user, r)
      case Remove(_, p, user) => DropSeat(db, p, user)
      case Transfer(actor, p, to) => PutSeat(PutSeat(db, p, actor, ADMIN), p, to, OWNER)
      case CreateRole(_, p, r, permissions) => PutRole(db, r, Role(Some(p), NoSlug, false, permissions, false))
      case EditRole(_, _, r, granted) => PutRole(db, r, Regranted(db.roles[r], granted))
      case DeleteRole(_, _, r) => PutRole(db, r, db.roles[r].(deleted := true))
      case SetProject(p, row) => db.(projects := db.projects[p := row])
  }

  // ---------------------------------------------------------------------------
  // The invariant
  // ---------------------------------------------------------------------------

  predicate SeatSound(db: Rbac, s: Seat)
    requires s in db.seats
  {
    s.project in db.projects && RoleLive(db, db.seats[s]) && Assignable(db, s.project, db.seats[s])
  }

  ghost predicate RolesSound(db: Rbac) {
    && OWNER in db.roles && ADMIN in db.roles && db.roles[OWNER].slug == OwnerSlug && db.roles[ADMIN].slug == AdminSlug
    && (forall r | r in db.roles && db.roles[r].predefined :: db.roles[r].project.None? && !db.roles[r].deleted)
    && db.roles[OWNER].predefined && db.roles[ADMIN].predefined
    && (forall r | r in db.roles && db.roles[r].predefined && db.roles[r].slug == OwnerSlug :: r == OWNER)
  }

  ghost predicate Sound(db: Rbac) {
    && RolesSound(db)
    && (forall s | s in db.seats :: SeatSound(db, s))
    && (forall p | p in db.projects :: Owners(db, p) != {})
  }

  lemma OwnersAreOwners(db: Rbac, p: Id, user: Id)
    requires RolesSound(db)
    ensures Seat(p, user) in Owners(db, p) <==> IsOwner(db, p, user)
  {
  }

  /** Another owner than the given member is left when the count is above one. */
  lemma AnotherOwner(db: Rbac, p: Id, s: Seat) returns (other: Seat)
    requires |Owners(db, p)| > 1
    ensures other in Owners(db, p) && other != s
  {
    if Owners(db, p) - {s} == {} {
      assert Owners(db, p) <= {s};
      SubsetOfOne(Owners(db, p), s);
    }
    other :| other in Owners(db, p) - {s};
  }

  lemma SubsetOfOne(a: set<Seat>, s: Seat)
    requires a <= {s}
    ensures |a| <= 1
  {
    if s in a {
      assert a == {s};
    } else {
      assert a == {};
    }
  }

  /** Someone other than the member whose seat changes still owns the project, or its new role does. */
  lemma OwnerRemains(db: Rbac, p: Id, user: Id)
    requires Sound(db) && p in db.projects && !GivesUpLastOwner(db, p, user)
    ensures exists s :: s in Owners(db, p) && s != Seat(p, user)
  {
    OwnersAreOwners(db, p, user);
    if IsOwner(db, p, user) {
      var other := AnotherOwner(db, p, Seat(p, user));
    } else {
      var s :| s in Owners(db, p);
    }
  }

  lemma SeatKeepsSound(db: Rbac, p: Id, user: Id, r: Id)
    requires Sound(db) && p in db.projects && RoleLive(db, r) && Assignable(db, p, r)
    requires r == OWNER || exists s :: s in Owners(db, p) && s != Seat(p, user)
    ensures Sound(PutSeat(db, p, user, r))
  {
    var db' := PutSeat(db, p, user, r);
    forall s | s in db'.seats
      ensures SeatSound(db', s)
    {
      assert s in db.seats ==> SeatSound(db, s);
    }
    forall q | q in db'.projects
      ensures Owners(db', q) != {}
    {
      if q == p && r == OWNER {
        assert Seat(p, user) in Owners(db', p);
      } else {
        var s :| s in Owners(db, q) && s != Seat(p, user);
        assert s in Owners(db', q);
      }
    }
  }

  lemma DropKeepsSound(db: Rbac, p: Id, user: Id)
    requires Sound(db) && p in db.projects
    requires exists s :: s in Owners(db, p) && s != Seat(p, user)
    ensures Sound(DropSeat(db, p, user))
  {
    var db' := DropSeat(db, p, user);
    forall s | s in db'.seats
      ensures SeatSound(db', s)
    {
      assert SeatSound(db, s);
    }
    forall q | q in db'.projects
      ensures Owners(db', q) != {}
    {
      var s :| s in Owners(db, q) && s != Seat(p, user);
      assert s in Owners(db', q);
    }
  }

  lemma SeatsCommute(db: Rbac, p: Id, a: Id, r: Id, b: Id, q: Id)
    requires a != b
    ensures PutSeat(PutSeat(db, p, a, r), p, b, q) == PutSeat(PutSeat(db, p, b, q), p, a, r)
  {
  }

  lemma TransferKeepsSound(db: Rbac, actor: Id, p: Id, to: Id)
    requires Sound(db) && TransferVerdict(db, actor, p, to).None?
    ensures Sound(Perform(db, Transfer(actor, p, to)))
  {
    SeatKeepsSound(db, p, to, OWNER);
    var promoted := PutSeat(db, p, to, OWNER);
    assert Seat(p, to) in Owners(promoted, p);
    SeatKeepsSound(promoted, p, actor, ADMIN);
    SeatsCommute(db, p, actor, ADMIN, to, OWNER);
  }

  lemma FoundingKeepsSound(db: Rbac, actor: Id, p: Id)
    requires Sound(db) && p !in db.projects
    ensures Sound(Perform(db, CreateProject(actor, p)))
  {
    var db' := Perform(db, CreateProject(actor, p));
    forall s | s in db'.seats
      ensures SeatSound(db', s)
    {
      assert s in db.seats ==> SeatSound(db, s);
    }
    forall q | q in db'.projects
      ensures Owners(db', q) != {}
    {
      if q == p {
        assert Seat(p, actor) in Owners(db', p);
      } else {
        var s :| s in Owners(db, q);
        assert s in Owners(db', q);
      }
    }
  }

  lemma RoleWriteKeepsSound(db: Rbac, r: Id, role: Role)
    requires Sound(db) && !role.predefined
    requires r in db.roles ==>
               !db.roles[r].predefined
               && (RoleUnused(db, r) || (role.project == db.roles[r].project && role.deleted == db.roles[r].deleted))
    ensures Sound(PutRole(db, r, role))
  {
    var db' := PutRole(db, r, role);
    forall s | s in db'.seats
      ensures SeatSound(db', s)
    {
      assert SeatSound(db, s);
    }
    forall q | q in db'.projects
      ensures Owners(db', q) != {}
    {
      assert Owners(db', q) == Owners(db, q);
    }
  }

  lemma ProjectWriteKeepsSound(db: Rbac, p: Id, row: Project)
    requires Sound(db) && p in db.projects
    ensures Sound(db.(projects := db.projects[p := row]))
  {
    var db' := db.(projects := db.projects[p := row]);
    forall s | s in db'.seats
      ensures SeatSound(db', s)
    {
      assert SeatSound(db, s);
    }
    forall q | q in db'.projects
      ensures Owners(db', q) != {}
    {
      assert Owners(db', q) == Owners(db, q);
    }
  }

  lemma UpdateKeepsSound(db: Rbac, actor: Id, p: Id, user: Id, r: Id)
    requires Sound(db) && UpdateVerdict(db, actor, p, user, r).None?
    ensures Sound(PutSeat(db, p, user, r))
  {
    if !IsOwnerRole(db, r) {
      OwnerRemains(db, p, user);
    }
    SeatKeepsSound(db, p, user, r);
  }

  lemma InviteKeepsSound(db: Rbac, actor: Id, p: Id, user: Id, r: Id)
    requires Sound(db) && InviteVerdict(db, actor, p, Some(user), r).None?
    ensures Sound(PutSeat(db, p, user, r))
  {
    OwnersAreOwners(db, p, user);
    OwnerRemains(db, p, user);
    SeatKeepsSound(db, p, user, r);
  }

  lemma OperationKeepsSound(db: Rbac, op: RbacOp)
    requires Sound(db)
    ensures Sound(Perform(db, op))
  {
    if Verdict(db, op).None? {
      match op
      case CreateProject(actor, p) => FoundingKeepsSound(db, actor, p);
      case Invite(actor, p, user, r) => InviteKeepsSound(db, actor, p, user.value, r);
      case UpdateRole(actor, p, user, r) => UpdateKeepsSound(db, actor, p, user, r);
      case Remove(actor, p, user) => OwnerRemains(db, p, user); DropKeepsSound(db, p, user);
      case Transfer(actor, p, to) => TransferKeepsSound(db, actor, p, to);
      case CreateRole(_, p, r, permissions) => RoleWriteKeepsSound(db, r, Role(Some(p), NoSlug, false, permissions, false));
      case EditRole(_, _, r, granted) => RoleWriteKeepsSound(db, r, Regranted(db.roles[r], granted));
      case DeleteRole(_, _, r) => RoleWriteKeepsSound(db, r, db.roles[r].(deleted := true));
      case SetProject(p, row) => ProjectWriteKeepsSound(db, p, row);
    }
  }

  function After(roles: map<Id, Role>, ops: seq<RbacOp>): Rbac {
    if ops == [] then Rbac(map[], roles, map[]) else Perform(After(roles, ops[..|ops| - 1]), ops[|ops| - 1])
  }

  lemma {:induction false} HistoriesAreSound(roles: map<Id, Role>, ops: seq<RbacOp>)
    requires Seeded(roles)
    ensures Sound(After(roles, ops))
  {
    if ops != [] {
      HistoriesAreSound(roles, ops[..|ops| - 1]);
      OperationKeepsSound(After(roles, ops[..|ops| - 1]), ops[|ops| - 1]);
    }
  }

  // ---------------------------------------------------------------------------
  // Main results
  // ---------------------------------------------------------------------------

  ghost predicate HasOwner(db: Rbac, p: Id) {
    exists user :: IsOwner(db, p, user)
  }

  /** Main result: after any history every project ever created has an owner. */
  lemma EveryProjectHasAnOwner(roles: map<Id, Role>, ops: seq<RbacOp>, p: Id)
    requires Seeded(roles) && p in After(roles, ops).projects
    ensures HasOwner(After(roles, ops), p)
  {
    HistoriesAreSound(roles, ops);
    SoundProjectsHaveOwners(After(roles, ops), p);
  }

  lemma SoundProjectsHaveOwners(db: Rbac, p: Id)
    requires Sound(db) && p in db.projects
    ensures HasOwner(db, p)
  {
    var s :| s in Owners(db, p);
    assert s == Seat(p, s.user);
    OwnersAreOwners(db, p, s.user);
  }

  /** Main result: after any history every membership's role is live, and is a template or of the same project. */
  lemma EveryMembershipHasAUsableRole(roles: map<Id, Role>, ops: seq<RbacOp>, s: Seat)
    requires Seeded(roles) && s in After(roles, ops).seats
    ensures SeatSound(After(roles, ops), s)
  {
    HistoriesAreSound(roles, ops);
  }

  /** Nobody becomes an owner of an existing project except by the hand of an owner. */
  lemma OnlyOwnersMakeOwners(db: Rbac, op: RbacOp, p: Id, user: Id)
    requires Sound(db) && p in db.projects
    requires !IsOwner(db, p, user) && IsOwner(Perform(db, op), p, user)
    ensures (op.Invite? || op.UpdateRole? || op.Transfer?) && op.p == p && IsOwner(db, p, op.actor)
  {
    assert Seat(p, user) in db.seats ==> SeatSound(db, Seat(p, user));
  }

  /** A transfer hands over one ownership: the giver becomes an admin, the receiver an owner, nobody else changes. */
  lemma TransferHandsOver(db: Rbac, actor: Id, p: Id, to: Id)
    requires Sound(db) && TransferVerdict(db, actor, p, to).None?
    ensures var after := Perform(db, Transfer(actor, p, to));
            && IsOwner(after, p, to) && !IsOwner(after, p, actor) && after.seats[Seat(p, actor)] == ADMIN
            && (forall s: Seat | s != Seat(p, actor) && s != Seat(p, to) ::
                  (s in db.seats <==> s in after.seats) && (s in db.seats ==> after.seats[s] == db.seats[s]))
            && |Owners(after, p)| == if IsOwner(db, p, to) then |Owners(db, p)| - 1 else |Owners(db, p)|
  {
    var after := Perform(db, Transfer(actor, p, to));
    OwnersAreOwners(db, p, actor);
    OwnersAreOwners(db, p, to);
    assert Owners(after, p) == (Owners(db, p) - {Seat(p, actor)}) + {Seat(p, to)};
  }

  // ---------------------------------------------------------------------------
  // Why whole operations are needed
  // ---------------------------------------------------------------------------

  /** A write that was allowed by an earlier count: a member leaves, or is moved to another role. */
  datatype Surrender = Leave(user: Id) | Demote(user: Id, role: Id)

  /** The write as it happens, possibly much later: an UPDATE of a membership that is gone changes nothing. */
  function GiveUp(db: Rbac, p: Id, m: Surrender): Rbac {
    match m
    case Leave(user) => DropSeat(db, p, user)
    case Demote(user, role) => if Member(db, p, user) then PutSeat(db, p, user, role) else db
  }

  function GiveUpAll(db: Rbac, p: Id, ms: seq<Surrender>): Rbac {
    if ms == [] then db else GiveUp(GiveUpAll(db, p, ms[..|ms| - 1]), p, ms[|ms| - 1])
  }

  function Leaving(p: Id, ms: seq<Surrender>): set<Seat> {
    set m | m in ms :: Seat(p, m.user)
  }

  lemma {:induction false} OwnersLeft(db: Rbac, p: Id, ms: seq<Surrender>)
    requires forall m | m in ms && m.Demote? :: m.role != OWNER
    ensures var after := GiveUpAll(db, p, ms);
            after.roles == db.roles && after.projects == db.projects && Owners(after, p) == Owners(db, p) - Leaving(p, ms)
  {
    if ms != [] {
      var init, last := ms[..|ms| - 1], ms[|ms| - 1];
      OwnersLeft(db, p, init);
      assert ms == init + [last];
      assert Leaving(p, ms) == Leaving(p, init) + {Seat(p, last.user)};
      var before := GiveUpAll(db, p, init);
      assert Owners(GiveUp(before, p, last), p) == Owners(before, p) - {Seat(p, last.user)};
    }
  }

  /**
   Main result: however many removals and demotions write after their checks, in whatever order and
   whatever became of the new roles meanwhile, the project is left without an owner if and only if
   every one of its owners is among those written.
   */
  lemma LateSurrendersLoseTheLastOwnerExactly(db: Rbac, p: Id, ms: seq<Surrender>)
    requires RolesSound(db) && forall m | m in ms && m.Demote? :: m.role != OWNER
    ensures !HasOwner(GiveUpAll(db, p, ms), p) <==> Owners(db, p) <= Leaving(p, ms)
  {
    var after := GiveUpAll(db, p, ms);
    OwnersLeft(db, p, ms);
    assert RolesSound(after);
    OwnedExactly(after, p);
    NothingLeft(Owners(db, p), Leaving(p, ms));
  }

  lemma NothingLeft(a: set<Seat>, b: set<Seat>)
    ensures a - b == {} <==> a <= b
  {
    if a - b == {} {
      forall s | s in a
        ensures s in b
      {
        assert s !in a - b;
      }
    }
  }

  lemma OwnedExactly(db: Rbac, p: Id)
    requires RolesSound(db)
    ensures HasOwner(db, p) <==> Owners(db, p) != {}
  {
    if HasOwner(db, p) {
      var user :| IsOwner(db, p, user);
      OwnersAreOwners(db, p, user);
    }
    if s :| s in Owners(db, p) {
      assert s == Seat(p, s.user);
      OwnersAreOwners(db, p, s.user);
    }
  }

  lemma PairCovers(a: set<Seat>, x: Seat, y: Seat)
    requires |a| >= 2
    ensures a <= {x, y} <==> x != y && x in a && y in a && |a| == 2
  {
    if a <= {x, y} {
      Cardinality(a, {x, y});
      Cardinality({x, y}, {x});
      Cardinality({x, y}, {y});
    } else if x != y && x in a && y in a {
      Cardinality({x, y}, a);
    }
  }

  /** A subset is no larger, and equal only when it is everything. */
  lemma Cardinality(a: set<Seat>, b: set<Seat>)
    ensures a <= b ==> |a| <= |b| && (|a| == |b| ==> a == b)
  {
    if a <= b {
      assert b == a + (b - a);
    }
  }

  /**
   Two removals that both passed their checks leave the project without an owner if and only if they
   remove two different owners and there are no others.
   */
  lemma CrossedRemovalsLoseTheLastOwnerExactly(db: Rbac, p: Id, a: Id, u: Id, b: Id, v: Id)
    requires Sound(db) && RemoveVerdict(db, a, p, u).None? && RemoveVerdict(db, b, p, v).None?
    ensures !HasOwner(DropSeat(DropSeat(db, p, u), p, v), p) <==>
            u != v && IsOwner(db, p, u) && IsOwner(db, p, v) && |Owners(db, p)| == 2
  {
    var ms := [Leave(u), Leave(v)];
    assert ms[..1] == [Leave(u)] && ms[..1][..0] == [];
    assert GiveUpAll(db, p, ms[..1]) == DropSeat(db, p, u);
    assert GiveUpAll(db, p, ms) == DropSeat(DropSeat(db, p, u), p, v);
    LateSurrendersLoseTheLastOwnerExactly(db, p, ms);
    assert Leaving(p, ms) == {Seat(p, u), Seat(p, v)} by {
      assert ms[0] in ms && ms[1] in ms;
    }
    OwnersAreOwners(db, p, u);
    OwnersAreOwners(db, p, v);
    if |Owners(db, p)| >= 2 {
      PairCovers(Owners(db, p), Seat(p, u), Seat(p, v));
    } else {
      assert Owners(db, p) != {} && Seat(p, u) !in Owners(db, p) && Seat(p, v) !in Owners(db, p);
    }
  }

  /**
   Two owners remove each other at once: each removal is allowed by what it read, and the two
   deletes together leave the project without an owner.
   */
  lemma CrossedRemovalsLoseTheLastOwner(roles: map<Id, Role>)
    requires Seeded(roles) && MemberRemove in roles[OWNER].permissions && MemberInvite in roles[OWNER].permissions
    ensures var db := After(roles, [CreateProject(7, 9), Invite(7, 9, Some(8), OWNER)]);
            && RemoveVerdict(db, 7, 9, 8).None? && RemoveVerdict(db, 8, 9, 7).None?
            && !HasOwner(DropSeat(DropSeat(db, 9, 8), 9, 7), 9)
  {
    var first := [CreateProject(7, 9)];
    var both := first + [Invite(7, 9, Some(8), OWNER)];
    assert both[..1] == first && first[..0] == [];
    var start := After(roles, []);
    assert After(roles, first) == Perform(start, CreateProject(7, 9));
    var founded := After(roles, first);
    assert founded.projects == map[9 := Project(false, false)] && founded.seats == map[Seat(9, 7) := OWNER];
    assert founded == Rbac(map[9 := Project(false, false)], roles, map[Seat(9, 7) := OWNER]);
    var db := After(roles, both);
    assert db == PutSeat(founded, 9, 8, OWNER);
    assert Owners(db, 9) == {Seat(9, 7), Seat(9, 8)};
    assert both == [CreateProject(7, 9), Invite(7, 9, Some(8), OWNER)];
  }

  // ---------------------------------------------------------------------------
  // Roles deleted while they are being given
  // ---------------------------------------------------------------------------

  ghost predicate SeatsSound(db: Rbac) {
    forall s | s in db.seats :: SeatSound(db, s)
  }

  /** A write allowed by earlier checks: a role is given to a user, or deleted after nobody was counted in it. */
  datatype RoleWrite = Give(user: Id, role: Id) | Retire(role: Id)

  /** The write as it happens. Inviting and changing a role write the same row. */
  function LateRole(db: Rbac, p: Id, w: RoleWrite): Rbac {
    match w
    case Give(user, role) => PutSeat(db, p, user, role)
    case Retire(role) => if role in db.roles then PutRole(db, role, db.roles[role].(deleted := true)) else db
  }

  function LateRoles(db: Rbac, p: Id, ws: seq<RoleWrite>): Rbac {
    if ws == [] then db else LateRole(LateRoles(db, p, ws[..|ws| - 1]), p, ws[|ws| - 1])
  }

  /** Deleting a role late does harm exactly when somebody holds it by then. */
  lemma LateDeletionBreaksSeatsExactly(db: Rbac, p: Id, r: Id)
    requires SeatsSound(db) && RoleLive(db, r)
    ensures SeatsSound(LateRole(db, p, Retire(r))) <==> RoleUnused(db, r)
  {
    var after := LateRole(db, p, Retire(r));
    forall s | s in db.seats
      ensures SeatSound(after, s) <==> db.seats[s] != r
    {
      assert SeatSound(db, s);
    }
  }

  /** Giving a role late does harm exactly when it has been deleted by then. */
  lemma LateGiftIsSoundExactly(db: Rbac, p: Id, user: Id, r: Id)
    requires p in db.projects && Assignable(db, p, r)
    ensures SeatSound(LateRole(db, p, Give(user, r)), Seat(p, user)) <==> RoleLive(db, r)
  {
  }

  function Retired(ws: seq<RoleWrite>): set<Id> {
    set w | w in ws && w.Retire? :: w.role
  }

  /** What the writes leave of the roles: the same rows, some of them deleted. */
  ghost predicate RolesAfter(db: Rbac, after: Rbac, retired: set<Id>) {
    && after.projects == db.projects && after.roles.Keys == db.roles.Keys
    && forall r | r in db.roles ::
         after.roles[r] == if r in retired then db.roles[r].(deleted := true) else db.roles[r]
  }

  lemma {:induction false} LateRolesRetire(db: Rbac, p: Id, ws: seq<RoleWrite>)
    ensures RolesAfter(db, LateRoles(db, p, ws), Retired(ws))
  {
    if ws != [] {
      var init, last := ws[..|ws| - 1], ws[|ws| - 1];
      LateRolesRetire(db, p, init);
      assert ws == init + [last];
      assert Retired(ws) == Retired(init) + if last.Retire? then {last.role} else {};
    }
  }

  ghost predicate Gifts(db: Rbac, p: Id, ws: seq<RoleWrite>) {
    p in db.projects && forall w | w in ws && w.Give? :: Assignable(db, p, w.role) && RoleLive(db, w.role)
  }

  /** Whoever sits anywhere afterwards has a role that was sound to give before. */
  lemma {:induction false} LateSeatsWereSound(db: Rbac, p: Id, ws: seq<RoleWrite>)
    requires SeatsSound(db) && Gifts(db, p, ws)
    ensures forall s | s in LateRoles(db, p, ws).seats ::
              var r := LateRoles(db, p, ws).seats[s]; s.project in db.projects && Assignable(db, s.project, r) && RoleLive(db, r)
  {
    if ws == [] {
      forall s | s in db.seats
        ensures SeatSound(db, s)
      {
      }
    } else {
      var init, last := ws[..|ws| - 1], ws[|ws| - 1];
      assert last in ws && forall w | w in init :: w in ws;
      LateSeatsWereSound(db, p, init);
    }
  }

  /**
   Main result: however many late gifts and deletions of roles write, in whatever order, every
   membership ends with a usable role if and only if none ends with a role deleted among them.
   */
  lemma LateRolesBreakSeatsExactly(db: Rbac, p: Id, ws: seq<RoleWrite>)
    requires SeatsSound(db) && Gifts(db, p, ws)
    ensures var after := LateRoles(db, p, ws);
            SeatsSound(after) <==> forall s | s in after.seats :: after.seats[s] !in Retired(ws)
  {
    var after := LateRoles(db, p, ws);
    LateRolesRetire(db, p, ws);
    LateSeatsWereSound(db, p, ws);
    forall s | s in after.seats
      ensures SeatSound(after, s) <==> after.seats[s] !in Retired(ws)
    {
    }
  }

  /**
   An invitation or role change and a role deletion, each allowed by what it read, leave an unusable
   membership, in either order of their writes, if and only if they are about the same role.
   */
  lemma CrossedGiftAndDeletionExactly(db: Rbac, a: Id, p: Id, user: Id, r: Id, b: Id, q: Id, role: Id)
    requires Sound(db) && DeleteRoleVerdict(db, b, q, role).None?
    requires InviteVerdict(db, a, p, Some(user), r).None? || UpdateVerdict(db, a, p, user, r).None?
    ensures LateRoles(db, p, [Give(user, r), Retire(role)]) == LateRoles(db, p, [Retire(role), Give(user, r)])
    ensures !SeatsSound(LateRoles(db, p, [Give(user, r), Retire(role)])) <==> r == role
  {
    var given, retired := LateRole(db, p, Give(user, r)), LateRole(db, p, Retire(role));
    TwoWrites(db, p, Give(user, r), Retire(role));
    TwoWrites(db, p, Retire(role), Give(user, r));
    forall s | s in given.seats
      ensures SeatSound(given, s)
    {
      assert s in db.seats ==> SeatSound(db, s);
    }
    LateDeletionBreaksSeatsExactly(given, p, role);
    assert given.seats[Seat(p, user)] == r;
  }

  lemma TwoWrites(db: Rbac, p: Id, v: RoleWrite, w: RoleWrite)
    ensures LateRoles(db, p, [v, w]) == LateRole(LateRole(db, p, v), p, w)
  {
    assert [v, w][..1] == [v] && [v][..0] == [];
    assert LateRoles(db, p, [v]) == LateRole(db, p, v);
  }

  /** Such a pair: an owner deletes a custom role while inviting somebody into it. */
  lemma CrossedGiftLeavesADeadRole(roles: map<Id, Role>)
    requires Seeded(roles) && {MemberInvite, RoleCreate, RoleDelete} <= roles[OWNER].permissions
    ensures var db := After(roles, [CreateProject(7, 9), CreateRole(7, 9, 50, {MemberInvite})]);
            && InviteVerdict(db, 7, 9, Some(8), 50).None? && DeleteRoleVerdict(db, 7, 9, 50).None?
            && !SeatsSound(LateRoles(db, 9, [Give(8, 50), Retire(50)]))
  {
    var first := [CreateProject(7, 9)];
    var both := first + [CreateRole(7, 9, 50, {MemberInvite})];
    assert both[..1] == first && first[..0] == [];
    assert After(roles, first) == Perform(After(roles, []), CreateProject(7, 9));
    var founded := After(roles, first);
    assert founded == Rbac(map[9 := Project(false, false)], roles, map[Seat(9, 7) := OWNER]);
    var db := After(roles, both);
    assert db == PutRole(founded, 50, Role(Some(9), NoSlug, false, {MemberInvite}, false));
    HistoriesAreSound(roles, both);
    assert both == [CreateProject(7, 9), CreateRole(7, 9, 50, {MemberInvite})];
    CrossedGiftAndDeletionExactly(db, 7, 9, 8, 50, 7, 9, 50);
  }

  // ---------------------------------------------------------------------------
  // The service
  // ---------------------------------------------------------------------------

  class ProjectService {
    var projects: map<Id, Project>
    var roles: map<Id, Role>
    var seats: map<Seat, Id>

    function State(): Rbac
      reads this
    {
      Rbac(projects, roles, seats)
    }

    constructor (roles: map<Id, Role>)
      ensures State() == Rbac(map[], roles, map[])
    {
      projects, this.roles, seats := map[], roles, map[];
    }

    method CreateProject(actor: Id, p: Id) returns (error: Option<RbacError>)
      modifies this
      ensures error == Verdict(old(State()), RbacOp.CreateProject(actor, p))
      ensures State() == Perform(old(State()), RbacOp.CreateProject(actor, p))
    {
      if p in projects {
        return Some(Conflict);
      }
      projects := projects[p := Project(false, false)];
      seats := seats[Seat(p, actor) := OWNER];
      error := None;
    }

    method EnsureNotArchived(p: Id) returns (error: Option<RbacError>)
      ensures error == ProjectVerdict(State(), p)
    {
      if p !in projects || projects[p].deleted {
        return Some(NoProject);
      }
      if projects[p].archived {
        return Some(Archived);
      }
      error := None;
    }

    method InviteMember(actor: Id, p: Id, user: Option<Id>, r: Id) returns (error: Option<RbacError>)
      modifies this`seats
      ensures error == Verdict(old(State()), Invite(actor, p, user, r))
      ensures State() == Perform(old(State()), Invite(actor, p, user, r))
    {
      if !Authorized(State(), p, actor, MemberInvite) {
        return Some(Forbidden);
      }
      error := EnsureNotArchived(p);
      if error.Some? {
        return;
      }
      if !RoleLive(State(), r) {
        return Some(InvalidRole);
      }
      if !Assignable(State(), p, r) {
        return Some(ForeignRole);
      }
      if roles[r].predefined && roles[r].slug == OwnerSlug {
        if !IsOwner(State(), p, actor) {
          return Some(Forbidden);
        }
      }
      if user.None? {
        return Some(NoUser);
      }
      if Seat(p, user.value) in seats {
        return Some(AlreadyMember);
      }
      seats := seats[Seat(p, user.value) := r];
    }

    method UpdateMemberRole(actor: Id, p: Id, user: Id, r: Id) returns (error: Option<RbacError>)
      modifies this`seats
      ensures error == Verdict(old(State()), UpdateRole(actor, p, user, r))
      ensures State() == Perform(old(State()), UpdateRole(actor, p, user, r))
    {
      if !Authorized(State(), p, actor, MemberUpdateRole) {
        return Some(Forbidden);
      }
      error := EnsureNotArchived(p);
      if error.Some? {
        return;
      }
      if !RoleLive(State(), r) {
        return Some(InvalidRole);
      }
      if !Assignable(State(), p, r) {
        return Some(ForeignRole);
      }
      if Seat(p, user) !in seats {
        return Some(NoMember);
      }
      if !RoleLive(State(), seats[Seat(p, user)]) {
        return Some(NoRole);
      }
      var oldRole, newRole := roles[seats[Seat(p, user)]], roles[r];
      if newRole.predefined && newRole.slug == OwnerSlug {
        if !IsOwner(State(), p, actor) {
          return Some(Forbidden);
        }
      }
      if oldRole.predefined && oldRole.slug == OwnerSlug && !(newRole.predefined && newRole.slug == OwnerSlug) {
        if |Owners(State(), p)| <= 1 {
          return Some(LastOwner);
        }
      }
      seats := seats[Seat(p, user) := r];
    }

    method RemoveMember(actor: Id, p: Id, user: Id) returns (error: Option<RbacError>)
      modifies this`seats
      ensures error == Verdict(old(State()), Remove(actor, p, user))
      ensures State() == Perform(old(State()), Remove(actor, p, user))
    {
      if !Authorized(State(), p, actor, MemberRemove) {
        return Some(Forbidden);
      }
      error := EnsureNotArchived(p);
      if error.Some? {
        return;
      }
      if Seat(p, user) !in seats {
        return Some(NoMember);
      }
      if !RoleLive(State(), seats[Seat(p, user)]) {
        return Some(NoRole);
      }
      var role := roles[seats[Seat(p, user)]];
      if role.predefined && role.slug == OwnerSlug {
        if |Owners(State(), p)| <= 1 {
          return Some(LastOwner);
        }
      }
      seats := seats - {Seat(p, user)};
    }

    method TransferOwnership(actor: Id, p: Id, to: Id) returns (error: Option<RbacError>)
      modifies this`seats
      ensures error == Verdict(old(State()), Transfer(actor, p, to))
      ensures State() == Perform(old(State()), Transfer(actor, p, to))
    {
      error := EnsureNotArchived(p);
      if error.Some? {
        return;
      }
      if Seat(p, actor) !in seats {
        return Some(NoMember);
      }
      if !IsOwner(State(), p, actor) {
        return Some(Forbidden);
      }
      if Seat(p, to) !in seats {
        return Some(NotAMember);
      }
      if actor == to {
        return Some(SelfTransfer);
      }
      seats := seats[Seat(p, actor) := ADMIN];
      seats := seats[Seat(p, to) := OWNER];
    }

    method CreateCustomRole(actor: Id, p: Id, r: Id, permissions: set<Permission>) returns (error: Option<RbacError>)
      modifies this`roles
      ensures error == Verdict(old(State()), CreateRole(actor, p, r, permissions))
      ensures State() == Perform(old(State()), CreateRole(actor, p, r, permissions))
    {
      if !Authorized(State(), p, actor, RoleCreate) {
        return Some(Forbidden);
      }
      error := EnsureNotArchived(p);
      if error.Some? {
        return;
      }
      if permissions == {} {
        return Some(PermissionRequired);
      }
      if r in roles {
        return Some(Conflict);
      }
      roles := roles[r := Role(Some(p), NoSlug, false, permissions, false)];
    }

    method UpdateCustomRole(actor: Id, p: Id, r: Id, granted: Option<set<Permission>>) returns (error: Option<RbacError>)
      modifies this`roles
      ensures error == Verdict(old(State()), EditRole(actor, p, r, granted))
      ensures State() == Perform(old(State()), EditRole(actor, p, r, granted))
    {
      if !Authorized(State(), p, actor, RoleUpdate) {
        return Some(Forbidden);
      }
      error := EnsureNotArchived(p);
      if error.Some? {
        return;
      }
      if !RoleLive(State(), r) {
        return Some(NoRole);
      }
      if roles[r].predefined {
        return Some(SystemRole);
      }
      if roles[r].project != Some(p) {
        return Some(ForeignRole);
      }
      if granted.Some? {
        roles := roles[r := roles[r].(permissions := granted.value)];
      }
      assert old(roles)[r := Regranted(old(roles)[r], granted)] == roles;
    }

    method DeleteCustomRole(actor: Id, p: Id, r: Id) returns (error: Option<RbacError>)
      modifies this`roles
      ensures error == Verdict(old(State()), DeleteRole(actor, p, r))
      ensures State() == Perform(old(State()), DeleteRole(actor, p, r))
    {
      if !Authorized(State(), p, actor, RoleDelete) {
        return Some(Forbidden);
      }
      error := EnsureNotArchived(p);
      if error.Some? {
        return;
      }
      if !RoleLive(State(), r) {
        return Some(NoRole);
      }
      if roles[r].predefined {
        return Some(SystemRole);
      }
      if roles[r].project != Some(p) {
        return Some(ForeignRole);
      }
      if !RoleUnused(State(), r) {
        return Some(RoleAssigned);
      }
      roles := roles[r := roles[r].(deleted := true)];
    }
  }
}
