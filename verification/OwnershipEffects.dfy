/**
 Who may do what in a project, and what it changes: each operation on memberships and roles against a
 description in terms of the rows alone.
 */
module OwnershipEffects {
  import opened Basics
  import opened Tables
  import opened Ownership

  /** The member's live role. */
  predicate Holds(db: Rbac, p: Id, user: Id, permission: Permission) {
    && Seat(p, user) in db.seats && db.seats[Seat(p, user)] in db.roles
    && !db.roles[db.seats[Seat(p, user)]].deleted && permission in db.roles[db.seats[Seat(p, user)]].permissions
  }

  predicate OpenProject(db: Rbac, p: Id) {
    p in db.projects && db.projects[p] == Project(false, false)
  }

  /** A role row that stands for ownership. */
  predicate MakesOwner(db: Rbac, r: Id) {
    r in db.roles && !db.roles[r].deleted && db.roles[r].predefined && db.roles[r].slug == OwnerSlug
  }

  predicate Owns(db: Rbac, p: Id, user: Id) {
    Seat(p, user) in db.seats && MakesOwner(db, db.seats[Seat(p, user)])
  }

  /** A live template, or a live custom role of the project. */
  predicate Givable(db: Rbac, p: Id, r: Id) {
    && r in db.roles && !db.roles[r].deleted
    && if db.roles[r].predefined then db.roles[r].project == None else db.roles[r].project == Some(p)
  }

  predicate MayGive(db: Rbac, actor: Id, p: Id, r: Id) {
    Givable(db, p, r) && (MakesOwner(db, r) ==> Owns(db, p, actor))
  }

  /** A member whose role is live. */
  predicate Seated(db: Rbac, p: Id, user: Id) {
    Seat(p, user) in db.seats && db.seats[Seat(p, user)] in db.roles && !db.roles[db.seats[Seat(p, user)]].deleted
  }

  /** The user is an owner and at most one membership of the project has the owner role. */
  ghost predicate TheLastOwner(db: Rbac, p: Id, user: Id) {
    Owns(db, p, user) && |set s | s in db.seats && s.project == p && db.seats[s] == 1| <= 1
  }

  predicate OwnRole(db: Rbac, p: Id, r: Id) {
    r in db.roles && !db.roles[r].deleted && !db.roles[r].predefined && db.roles[r].project == Some(p)
  }

  /** When an operation goes through. */
  ghost predicate MayDo(db: Rbac, op: RbacOp) {
    match op
    case CreateProject(_, p) => p !in db.projects
    case Invite(actor, p, found, r) =>
      && Holds(db, p, actor, MemberInvite) && OpenProject(db, p) && MayGive(db, actor, p, r)
      && found.Some? && Seat(p, found.value) !in db.seats
    case UpdateRole(actor, p, user, r) =>
      && Holds(db, p, actor, MemberUpdateRole) && OpenProject(db, p) && MayGive(db, actor, p, r) && Seated(db, p, user)
      && (TheLastOwner(db, p, user) ==> MakesOwner(db, r))
    case Remove(actor, p, user) =>
      Holds(db, p, actor, MemberRemove) && OpenProject(db, p) && Seated(db, p, user) && !TheLastOwner(db, p, user)
    case Transfer(actor, p, to) =>
      OpenProject(db, p) && Owns(db, p, actor) && Seat(p, to) in db.seats && actor != to
    case CreateRole(actor, p, r, permissions) =>
      Holds(db, p, actor, RoleCreate) && OpenProject(db, p) && permissions != {} && r !in db.roles
    case EditRole(actor, p, r, _) => Holds(db, p, actor, RoleUpdate) && OpenProject(db, p) && OwnRole(db, p, r)
    case DeleteRole(actor, p, r) =>
      Holds(db, p, actor, RoleDelete) && OpenProject(db, p) && OwnRole(db, p, r) && forall s | s in db.seats :: db.seats[s] != r
    case SetProject(p, _) => p in db.projects
  }

  /** What it then changes. The owner and admin templates are the seeded rows 1 and 2. */
  ghost function Does(db: Rbac, op: RbacOp): Rbac
    requires MayDo(db, op)
  {
    match op
    case CreateProject(actor, p) => db.(projects := db.projects[p := Project(false, false)], seats := db.seats[Seat(p, actor) := 1])
    case Invite(_, p, found, r) => db.(seats := db.seats[Seat(p, found.value) := r])
    case UpdateRole(_, p, user, r) => db.(seats := db.seats[Seat(p, user) := r])
    case Remove(_, p, user) => db.(seats := map s | s in db.seats && s != Seat(p, user) :: db.seats[s])
    case Transfer(actor, p, to) => db.(seats := db.seats[Seat(p, actor) := 2][Seat(p, to) := 1])
    case CreateRole(_, p, r, permissions) => db.(roles := db.roles[r := Role(Some(p), NoSlug, false, permissions, false)])
    case EditRole(_, _, r, granted) =>
      if granted.None? then db else db.(roles := db.roles[r := db.roles[r].(permissions := granted.value)])
    case DeleteRole(_, _, r) => db.(roles := db.roles[r := db.roles[r].(deleted := true)])
    case SetProject(p, row) => db.(projects := db.projects[p := row])
  }

  /** Main result: every operation does exactly what the rows allow, and otherwise nothing. */
  lemma OperationsDoAsAllowed(db: Rbac, op: RbacOp)
    ensures Verdict(db, op).None? <==> MayDo(db, op)
    ensures Perform(db, op) == if MayDo(db, op) then Does(db, op) else db
  {
    if op.EditRole? && MayDo(db, op) && op.granted.None? {
      assert db.roles[op.r := db.roles[op.r]] == db.roles;
    }
    if op.UpdateRole? || op.Remove? {
      assert Owners(db, op.p) == set s | s in db.seats && s.project == op.p && db.seats[s] == 1;
    }
  }

  /** The permission an operation needs of its actor, if it needs one. */
  function Needs(op: RbacOp): Option<Permission> {
    match op
    case Invite(_, _, _, _) => Some(MemberInvite)
    case UpdateRole(_, _, _, _) => Some(MemberUpdateRole)
    case Remove(_, _, _) => Some(MemberRemove)
    case CreateRole(_, _, _, _) => Some(RoleCreate)
    case EditRole(_, _, _, _) => Some(RoleUpdate)
    case DeleteRole(_, _, _) => Some(RoleDelete)
    case _ => None
  }

  /** What each refusal tells about the rows. */
  ghost predicate Truthful(db: Rbac, op: RbacOp, e: RbacError) {
    match e
    case Forbidden =>
      || (Needs(op).Some? && !Holds(db, op.p, op.actor, Needs(op).value))
      || ((op.Invite? || op.UpdateRole?) && MakesOwner(db, op.r) && !Owns(db, op.p, op.actor))
      || (op.Transfer? && !Owns(db, op.p, op.actor))
    case NoProject => op.p !in db.projects || db.projects[op.p].deleted
    case Archived => op.p in db.projects && db.projects[op.p].archived
    case InvalidRole => (op.Invite? || op.UpdateRole?) && (op.r !in db.roles || db.roles[op.r].deleted)
    case ForeignRole =>
      (op.Invite? || op.UpdateRole? || op.EditRole? || op.DeleteRole?) && op.r in db.roles && !OwnRole(db, op.p, op.r)
    case NoMember =>
      || ((op.UpdateRole? || op.Remove?) && Seat(op.p, op.user) !in db.seats)
      || (op.Transfer? && Seat(op.p, op.actor) !in db.seats)
    case AlreadyMember => op.Invite? && op.found.Some? && Seat(op.p, op.found.value) in db.seats
    case NoUser => op.Invite? && op.found.None?
    case LastOwner => (op.UpdateRole? || op.Remove?) && TheLastOwner(db, op.p, op.user)
    case NotAMember => op.Transfer? && Seat(op.p, op.to) !in db.seats
    case SelfTransfer => op.Transfer? && op.actor == op.to
    case NoRole =>
      || ((op.UpdateRole? || op.Remove?) && !Seated(db, op.p, op.user))
      || ((op.EditRole? || op.DeleteRole?) && (op.r !in db.roles || db.roles[op.r].deleted))
    case SystemRole => (op.EditRole? || op.DeleteRole?) && op.r in db.roles && db.roles[op.r].predefined
    case RoleAssigned => op.DeleteRole? && exists s | s in db.seats :: db.seats[s] == op.r
    case PermissionRequired => op.CreateRole? && op.permissions == {}
    case Conflict => (op.CreateProject? && op.p in db.projects) || (op.CreateRole? && op.r in db.roles)
  }

  /** A refusal never misleads: what it names is so. */
  lemma RefusalsAreTruthful(db: Rbac, op: RbacOp)
    ensures Verdict(db, op).Some? ==> Truthful(db, op, Verdict(db, op).value)
  {
    if op.UpdateRole? || op.Remove? {
      assert Owners(db, op.p) == set s | s in db.seats && s.project == op.p && db.seats[s] == 1;
    }
  }
}
