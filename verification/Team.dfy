/** One workspace: departments, roles, invitations, tasks and their assignees.

    Every operation of the four services runs under the workspace's team lock, so each is one step. */
module Team {
  import opened Options

  type UserId = nat
  type DepartmentId = nat

  datatype Role = Chief | Admin | Worker

  datatype Invitation = Invitation(
    email: string, department: DepartmentId, role: Role, invitedBy: UserId, expiresAt: int,
    accepted: bool, revoked: bool)

  /** Assignee rows by department and email; the value is the linked user, None while an invitation is open. */
  type Assignees = map<(DepartmentId, string), Option<UserId>>

  type Members = map<(DepartmentId, UserId), Role>

  datatype Task = Task(departments: set<DepartmentId>, assignees: Assignees)

  /** `users` holds the email of each user, `staff` the workspace memberships. */
  datatype Workspace = Workspace(
    owner: UserId,
    users: seq<string>,
    departments: set<DepartmentId>,
    members: Members,
    staff: set<UserId>,
    invitations: seq<Invitation>,
    tasks: map<nat, Task>)

  // ---------------------------------------------------------------------------
  // Access
  // ---------------------------------------------------------------------------

  predicate HasRole(w: Workspace, user: UserId, d: DepartmentId, role: Role) {
    (d, user) in w.members && w.members[(d, user)] == role
  }

  predicate IsOwner(w: Workspace, user: UserId) {
    user == w.owner
  }

  predicate Sees(w: Workspace, user: UserId) {
    IsOwner(w, user) || user in w.staff
  }

  predicate CanManage(w: Workspace, user: UserId, d: DepartmentId) {
    Sees(w, user) && d in w.departments
      && (IsOwner(w, user) || HasRole(w, user, d, Chief) || HasRole(w, user, d, Admin))
  }

  predicate CanAssignChief(w: Workspace, user: UserId, d: DepartmentId) {
    IsOwner(w, user) || HasRole(w, user, d, Chief)
  }

  function UserByEmail(users: seq<string>, email: string): (r: Option<UserId>)
    ensures r.Some? ==> r.value < |users| && users[r.value] == email
    ensures r.None? ==> email !in users
  {
    if users == [] then None
    else
      var n := |users| - 1;
      if users[n] == email then Some(n) else UserByEmail(users[..n], email)
  }

  predicate Open(i: Invitation, now: int) {
    !i.accepted && !i.revoked && now < i.expiresAt
  }

  predicate OpenFor(i: Invitation, d: DepartmentId, email: string, now: int) {
    Open(i, now) && i.department == d && i.email == email
  }

  // ---------------------------------------------------------------------------
  // Changes of several rows
  // ---------------------------------------------------------------------------

  /** `demoteChief` */
  function Demote(members: Members, d: DepartmentId, except: UserId): Members {
    map k | k in members :: if k.0 == d && k.1 != except && members[k] == Chief then Admin else members[k]
  }

  function Unassigned(a: Assignees, user: UserId, ds: set<DepartmentId>): Assignees {
    map k | k in a && !(a[k] == Some(user) && k.0 in ds) :: a[k]
  }

  /** The linked rows of a user in some departments are deleted. */
  function Unassign(tasks: map<nat, Task>, user: UserId, ds: set<DepartmentId>): map<nat, Task> {
    map t | t in tasks :: tasks[t].(assignees := Unassigned(tasks[t].assignees, user, ds))
  }

  function Bound(a: Assignees, email: string, user: UserId, ds: set<DepartmentId>): Assignees {
    map k | k in a :: if a[k].None? && k.1 == email && k.0 in ds then Some(user) else a[k]
  }

  /** `bindPending` */
  function BindPending(tasks: map<nat, Task>, email: string, user: UserId, ds: set<DepartmentId>): map<nat, Task> {
    map t | t in tasks :: tasks[t].(assignees := Bound(tasks[t].assignees, email, user, ds))
  }

  function Forgotten(a: Assignees, d: DepartmentId, email: string): Assignees {
    map k | k in a && !(a[k].None? && k == (d, email)) :: a[k]
  }

  /** The pending rows of an email in one department are deleted. */
  function Forget(tasks: map<nat, Task>, d: DepartmentId, email: string): map<nat, Task> {
    map t | t in tasks :: tasks[t].(assignees := Forgotten(tasks[t].assignees, d, email))
  }

  function DepartmentsOf(w: Workspace, user: UserId): set<DepartmentId> {
    set d | d in w.departments && (d, user) in w.members
  }

  function Managed(w: Workspace, user: UserId): set<DepartmentId> {
    set d | d in w.departments && (IsOwner(w, user) || HasRole(w, user, d, Chief) || HasRole(w, user, d, Admin))
  }

  // ---------------------------------------------------------------------------
  // The team
  // ---------------------------------------------------------------------------

  function CreateDepartment(w: Workspace, user: UserId, d: DepartmentId, allowed: bool): Workspace {
    if IsOwner(w, user) && allowed && d !in w.departments then w.(departments := w.departments + {d}) else w
  }

  predicate MayInvite(w: Workspace, user: UserId, d: DepartmentId, email: string, role: Role, now: int)
    requires w.owner < |w.users|
  {
    && CanManage(w, user, d)
    && w.users[w.owner] != email
    && (role == Chief ==> CanAssignChief(w, user, d))
    && !(exists k | k in w.members :: k.0 == d && k.1 < |w.users| && w.users[k.1] == email)
    && (CanAssignChief(w, user, d) || !(exists i | i in w.invitations :: OpenFor(i, d, email, now) && i.role == Chief))
    && (role == Chief ==>
          !(exists i | i in w.invitations :: Open(i, now) && i.department == d && i.role == Chief && i.email != email))
  }

  /** The open invitations of the same email are revoked. */
  function RevokeAll(invitations: seq<Invitation>, d: DepartmentId, email: string, now: int): (r: seq<Invitation>)
    ensures |r| == |invitations|
  {
    seq(|invitations|, i requires 0 <= i < |invitations| =>
      if OpenFor(invitations[i], d, email, now) then invitations[i].(revoked := true) else invitations[i])
  }

  /** `allowed` stands for an active workspace. */
  function Invite(w: Workspace, user: UserId, d: DepartmentId, email: string, role: Role, now: int, allowed: bool,
      lasts: nat): Workspace
    requires w.owner < |w.users|
  {
    if allowed && MayInvite(w, user, d, email, role, now)
    then
      var invitation := Invitation(email, d, role, user, now + lasts, false, false);
      w.(invitations := RevokeAll(w.invitations, d, email, now) + [invitation])
    else w
  }

  predicate MayRevoke(w: Workspace, user: UserId, i: nat) {
    && i < |w.invitations| && CanManage(w, user, w.invitations[i].department)
    && (w.invitations[i].role == Chief ==> CanAssignChief(w, user, w.invitations[i].department))
    && !w.invitations[i].accepted
  }

  /** With the last open invitation of an email its pending assignments go too. */
  function Revoke(w: Workspace, user: UserId, i: nat, now: int): Workspace {
    if !MayRevoke(w, user, i) then w
    else
      var Invitation(email, d, _, _, _, _, _) := w.invitations[i];
      var invitations := w.invitations[i := w.invitations[i].(revoked := true)];
      w.(invitations := invitations,
         tasks := if exists other | other in invitations :: OpenFor(other, d, email, now) then w.tasks
           else Forget(w.tasks, d, email))
  }

  predicate MaySetRole(w: Workspace, user: UserId, d: DepartmentId, target: UserId, role: Role) {
    && CanManage(w, user, d) && target != w.owner && (d, target) in w.members
    && (role == Chief || w.members[(d, target)] == Chief ==> CanAssignChief(w, user, d))
    && (w.members[(d, target)] == Chief && role != Chief ==> IsOwner(w, user))
  }

  function SetRole(w: Workspace, user: UserId, d: DepartmentId, target: UserId, role: Role): Workspace {
    if MaySetRole(w, user, d, target, role)
    then w.(members := (if role == Chief then Demote(w.members, d, target) else w.members)[(d, target) := role])
    else w
  }

  predicate MayRemove(w: Workspace, user: UserId, d: DepartmentId, target: UserId) {
    && CanManage(w, user, d) && target != w.owner && (d, target) in w.members
    && (w.members[(d, target)] == Chief ==> IsOwner(w, user))
  }

  function RemoveMember(w: Workspace, user: UserId, d: DepartmentId, target: UserId): Workspace {
    if !MayRemove(w, user, d, target) then w
    else
      var left := w.(members := w.members - {(d, target)}, tasks := Unassign(w.tasks, target, {d}));
      if DepartmentsOf(left, target) == {} then left.(staff := w.staff - {target}) else left
  }

  predicate MaySetDepartments(w: Workspace, user: UserId, target: UserId, chosen: set<DepartmentId>) {
    && Sees(w, user) && target != w.owner
    && Managed(w, user) * DepartmentsOf(w, target) != {}
    && chosen <= Managed(w, user) + DepartmentsOf(w, target)
    && (!IsOwner(w, user) ==>
          forall d | d in DepartmentsOf(w, target) * Managed(w, user) - chosen :: w.members[(d, target)] != Chief)
  }

  /** `chosen` is not empty: the request is validated before. */
  function SetDepartments(w: Workspace, user: UserId, target: UserId, chosen: set<DepartmentId>): Workspace
    requires chosen != {}
  {
    if !MaySetDepartments(w, user, target, chosen) || |w.users| <= target then w
    else
      var current := DepartmentsOf(w, target);
      var removed, added := current * Managed(w, user) - chosen, chosen - current;
      w.(members := (map k | k in w.members && !(k.1 == target && k.0 in removed) :: w.members[k])
                    + (map d | d in added :: (d, target) := Worker),
         tasks := BindPending(Unassign(w.tasks, target, removed), w.users[target], target, added))
  }

  /** The invitation is open, and who sent it still has the right to. */
  predicate MayAccept(w: Workspace, i: nat, now: int) {
    && i < |w.invitations| && Open(w.invitations[i], now)
    && CanManage(w, w.invitations[i].invitedBy, w.invitations[i].department)
    && (w.invitations[i].role == Chief ==> CanAssignChief(w, w.invitations[i].invitedBy, w.invitations[i].department))
    && var user := UserByEmail(w.users, w.invitations[i].email);
       user.Some? ==> user.value != w.owner && (w.invitations[i].department, user.value) !in w.members
  }

  /** A first-time user gets an account; `allowed` stands for the password and an active workspace. */
  function Accept(w: Workspace, i: nat, now: int, allowed: bool): Workspace {
    if !allowed || !MayAccept(w, i, now) then w
    else
      var Invitation(email, d, role, _, _, _, _) := w.invitations[i];
      var known := UserByEmail(w.users, email);
      var user := known.Or(|w.users|);
      w.(users := if known.Some? then w.users else w.users + [email],
         invitations := w.invitations[i := w.invitations[i].(accepted := true)],
         staff := w.staff + {user},
         members := (if role == Chief then Demote(w.members, d, user) else w.members)[(d, user) := role],
         tasks := BindPending(w.tasks, email, user, {d}))
  }

  function Register(w: Workspace, email: string): Workspace {
    if email in w.users then w else w.(users := w.users + [email])
  }

  // ---------------------------------------------------------------------------
  // Tasks
  // ---------------------------------------------------------------------------

  type Requested = seq<(DepartmentId, string)>

  /** Whom a requested assignee means; None if nobody. */
  function Resolve(w: Workspace, current: Assignees, d: DepartmentId, email: string, now: int): Option<Option<UserId>>
    requires w.owner < |w.users|
  {
    if email == w.users[w.owner] then Some(Some(w.owner))
    else
      var user := UserByEmail(w.users, email);
      if user.Some? && (d, user.value) in w.members then Some(user)
      else if exists i | i in w.invitations :: OpenFor(i, d, email, now) then Some(None)
      else if (d, email) in current && current[(d, email)].None? then Some(None)
      else None
  }

  function Departments(requested: Requested): set<DepartmentId> {
    set r | r in requested :: r.0
  }

  predicate Distinct(requested: Requested) {
    forall i, j | 0 <= i < j < |requested| :: requested[i] != requested[j]
  }

  predicate TaskAllowed(w: Workspace, user: UserId, d: DepartmentId, current: Assignees, requested: Requested, now: int)
    requires w.owner < |w.users|
  {
    && Distinct(requested)
    && d in Departments(requested)
    && (IsOwner(w, user) || Departments(requested) == {d})
    && Departments(requested) <= w.departments
    && forall r | r in requested :: Resolve(w, current, r.0, r.1, now).Some?
  }

  /** `taskData` for the relations: the departments and the assignees, or None for a refusal. */
  function TaskData(w: Workspace, user: UserId, d: DepartmentId, current: Assignees, requested: Requested,
      now: int): Option<Task>
    requires w.owner < |w.users|
  {
    if !TaskAllowed(w, user, d, current, requested, now) then None
    else Some(Task(Departments(requested), map r | r in requested :: Resolve(w, current, r.0, r.1, now).value))
  }

  /** A task proposed by a meeting may have no assignee. */
  function CreateTask(w: Workspace, user: UserId, d: DepartmentId, requested: Requested, meeting: bool, now: int,
      id: nat): Workspace
    requires w.owner < |w.users|
  {
    var data := if meeting && requested == [] then Some(Task({d}, map[]))
      else TaskData(w, user, d, map[], requested, now);
    if CanManage(w, user, d) && data.Some? && id !in w.tasks then w.(tasks := w.tasks[id := data.value]) else w
  }

  predicate MayEdit(w: Workspace, user: UserId, d: DepartmentId, id: nat) {
    CanManage(w, user, d) && id in w.tasks && d in w.tasks[id].departments
  }

  /** `allowed` stands for the rank of whoever assigned the task. */
  function UpdateTask(w: Workspace, user: UserId, d: DepartmentId, id: nat, requested: Requested, now: int,
      allowed: bool): Workspace
    requires w.owner < |w.users|
  {
    if !allowed || !MayEdit(w, user, d, id) then w
    else
      var data := TaskData(w, user, d, w.tasks[id].assignees, requested, now);
      if data.Some? then w.(tasks := w.tasks[id := data.value]) else w
  }

  function RemoveTask(w: Workspace, user: UserId, d: DepartmentId, id: nat, allowed: bool): Workspace {
    if allowed && MayEdit(w, user, d, id) then w.(tasks := w.tasks - {id}) else w
  }

  /** The scheduler copies departments and assignees as they are. */
  function RepeatTask(w: Workspace, source: nat, id: nat): Workspace {
    if source in w.tasks && w.tasks[source].departments != {} && id !in w.tasks
    then w.(tasks := w.tasks[id := w.tasks[source]])
    else w
  }

  // ---------------------------------------------------------------------------
  // Runs
  // ---------------------------------------------------------------------------

  datatype Event =
    | NewUser(email: string)
    | NewDepartment(user: UserId, d: DepartmentId, allowed: bool)
    | Inviting(user: UserId, d: DepartmentId, email: string, role: Role, now: int, allowed: bool,
               lasts: nat)
    | Revoking(user: UserId, i: nat, now: int)
    | Accepting(i: nat, now: int, allowed: bool)
    | SettingRole(user: UserId, d: DepartmentId, target: UserId, role: Role)
    | Removing(user: UserId, d: DepartmentId, target: UserId)
    | SettingDepartments(user: UserId, target: UserId, chosen: set<DepartmentId>)
    | Creating(user: UserId, d: DepartmentId, requested: Requested, meeting: bool, now: int, id: nat)
    | Updating(user: UserId, d: DepartmentId, id: nat, requested: Requested, now: int, allowed: bool)
    | Deleting(user: UserId, d: DepartmentId, id: nat, allowed: bool)
    | Repeating(source: nat, id: nat)

  function Step(w: Workspace, e: Event): Workspace
    requires w.owner < |w.users|
  {
    match e
    case NewUser(email) => Register(w, email)
    case NewDepartment(user, d, allowed) => CreateDepartment(w, user, d, allowed)
    case Inviting(user, d, email, role, now, allowed, lasts) => Invite(w, user, d, email, role, now, allowed, lasts)
    case Revoking(user, i, now) => Revoke(w, user, i, now)
    case Accepting(i, now, allowed) => Accept(w, i, now, allowed)
    case SettingRole(user, d, target, role) => SetRole(w, user, d, target, role)
    case Removing(user, d, target) => RemoveMember(w, user, d, target)
    case SettingDepartments(user, target, chosen) => if chosen == {} then w else SetDepartments(w, user, target, chosen)
    case Creating(user, d, requested, meeting, now, id) => CreateTask(w, user, d, requested, meeting, now, id)
    case Updating(user, d, id, requested, now, allowed) => UpdateTask(w, user, d, id, requested, now, allowed)
    case Deleting(user, d, id, allowed) => RemoveTask(w, user, d, id, allowed)
    case Repeating(source, id) => RepeatTask(w, source, id)
  }

  // ---------------------------------------------------------------------------
  // Invariants
  // ---------------------------------------------------------------------------

  predicate UsersOk(w: Workspace) {
    w.owner < |w.users| && forall i, j | 0 <= i < j < |w.users| :: w.users[i] != w.users[j]
  }

  /** Members are users of existing departments. The owner is chief of none, but may have been left an
      administrator of some, because creators of departments were once their chiefs. */
  ghost predicate MembersOk(w: Workspace) {
    forall k | k in w.members ::
      && k.0 in w.departments && k.1 < |w.users|
      && (k.1 == w.owner ==> w.members[k] != Chief)
  }

  /** Apart from the owner, exactly the members of some department belong to the workspace. */
  ghost predicate StaffOk(w: Workspace) {
    forall u: UserId | u != w.owner :: u in w.staff <==> exists d :: (d, u) in w.members
  }

  ghost predicate OneChief(w: Workspace) {
    forall d, u, v | HasRole(w, u, d, Chief) && HasRole(w, v, d, Chief) :: u == v
  }

  /** A linked row belongs to the owner or to a member of its department with its email; a pending row to
      nobody who is a member there. */
  ghost predicate AssigneeOk(w: Workspace, d: DepartmentId, email: string, user: Option<UserId>) {
    && (user.Some? ==>
          && user.value < |w.users| && w.users[user.value] == email
          && (user.value == w.owner || (d, user.value) in w.members))
    && (user.None? ==> forall u: UserId | (d, u) in w.members && u < |w.users| :: w.users[u] != email)
  }

  ghost predicate TaskOk(w: Workspace, t: Task) {
    && t.departments <= w.departments
    && forall k | k in t.assignees :: k.0 in t.departments && AssigneeOk(w, k.0, k.1, t.assignees[k])
  }

  ghost predicate TasksOk(w: Workspace) {
    forall id | id in w.tasks :: TaskOk(w, w.tasks[id])
  }

  ghost predicate Inv(w: Workspace) {
    UsersOk(w) && MembersOk(w) && StaffOk(w) && OneChief(w) && TasksOk(w)
  }

  // ---------------------------------------------------------------------------
  // Users, members and workspace memberships
  // ---------------------------------------------------------------------------

  lemma StepKeepsUsers(w: Workspace, e: Event)
    requires UsersOk(w)
    ensures UsersOk(Step(w, e)) && Step(w, e).owner == w.owner && w.users <= Step(w, e).users
  {
    hide CanManage, MayInvite, MayRevoke, MaySetRole, MayRemove, MaySetDepartments, TaskAllowed, Demote, Unassign,
         BindPending, Forget;
  }

  lemma StepKeepsMembers(w: Workspace, e: Event)
    requires UsersOk(w) && MembersOk(w)
    ensures MembersOk(Step(w, e)) && w.departments <= Step(w, e).departments
  {
    hide MayInvite, MayRevoke, TaskAllowed, Unassign, BindPending, Forget;
  }

  lemma RemoveKeepsStaff(w: Workspace, user: UserId, d: DepartmentId, target: UserId)
    requires MembersOk(w) && StaffOk(w)
    ensures StaffOk(RemoveMember(w, user, d, target))
  {
    hide Unassign, CanManage;
    var w' := RemoveMember(w, user, d, target);
    if MayRemove(w, user, d, target) {
      var left := w.(members := w.members - {(d, target)}, tasks := Unassign(w.tasks, target, {d}));
      forall u: UserId | u != w.owner ensures u in w'.staff <==> exists other :: (other, u) in w'.members {
        if u == target {
          assert DepartmentsOf(left, target) == {} <==> !exists other :: (other, u) in w'.members by {
            assert forall other | (other, u) in w'.members :: other in DepartmentsOf(left, target);
          }
          assert (d, target) in w.members;
        } else {
          assert forall other :: (other, u) in w'.members <==> (other, u) in w.members;
        }
      }
    }
  }

  lemma SetDepartmentsKeepsStaff(w: Workspace, user: UserId, target: UserId, chosen: set<DepartmentId>)
    requires MembersOk(w) && StaffOk(w) && chosen != {}
    ensures StaffOk(SetDepartments(w, user, target, chosen))
  {
    hide Unassign, BindPending;
    var w' := SetDepartments(w, user, target, chosen);
    if MaySetDepartments(w, user, target, chosen) && target < |w.users| {
      var d :| d in chosen;
      assert (d, target) in w'.members;
      var before :| before in Managed(w, user) * DepartmentsOf(w, target);
      assert (before, target) in w.members;
      forall u: UserId | u != w.owner ensures u in w'.staff <==> exists other :: (other, u) in w'.members {
        if u != target {
          assert forall other :: (other, u) in w'.members <==> (other, u) in w.members;
        }
      }
    }
  }

  lemma AcceptKeepsStaff(w: Workspace, i: nat, now: int, allowed: bool)
    requires UsersOk(w) && MembersOk(w) && StaffOk(w)
    ensures StaffOk(Accept(w, i, now, allowed))
  {
    hide BindPending;
    var w' := Accept(w, i, now, allowed);
    if allowed && MayAccept(w, i, now) {
      var d := w.invitations[i].department;
      var user := UserByEmail(w.users, w.invitations[i].email).Or(|w.users|);
      assert (d, user) in w'.members && user in w'.staff;
      forall u: UserId | u != w.owner ensures u in w'.staff <==> exists other :: (other, u) in w'.members {
        if u != user {
          assert forall other :: (other, u) in w'.members <==> (other, u) in w.members;
        }
      }
    }
  }

  lemma SetRoleKeepsStaff(w: Workspace, user: UserId, d: DepartmentId, target: UserId, role: Role)
    requires StaffOk(w)
    ensures StaffOk(SetRole(w, user, d, target, role))
  {
    hide CanManage, CanAssignChief;
    var w' := SetRole(w, user, d, target, role);
    assert w'.members.Keys == w.members.Keys;
    assert forall other, u: UserId :: (other, u) in w'.members <==> (other, u) in w.members;
  }

  lemma StepKeepsStaff(w: Workspace, e: Event)
    requires UsersOk(w) && MembersOk(w) && StaffOk(w)
    ensures StaffOk(Step(w, e))
  {
    hide MayInvite, MayRevoke, MayRemove, MaySetRole, MaySetDepartments, MayAccept, TaskAllowed, StaffOk;
    match e
    case Removing(user, d, target) => RemoveKeepsStaff(w, user, d, target);
    case SettingDepartments(user, target, chosen) =>
      if chosen != {} { SetDepartmentsKeepsStaff(w, user, target, chosen); }
    case Accepting(i, now, allowed) => AcceptKeepsStaff(w, i, now, allowed);
    case SettingRole(user, d, target, role) => SetRoleKeepsStaff(w, user, d, target, role);
    case _ =>
      assert Step(w, e).members == w.members && Step(w, e).staff == w.staff && Step(w, e).owner == w.owner;
      SameStaffOk(w, Step(w, e));
  }

  lemma SameStaffOk(w: Workspace, w': Workspace)
    requires StaffOk(w) && w'.members == w.members && w'.staff == w.staff && w'.owner == w.owner
    ensures StaffOk(w')
  {
  }

  // ---------------------------------------------------------------------------
  // Chiefs
  // ---------------------------------------------------------------------------

  lemma StepKeepsOneChief(w: Workspace, e: Event)
    requires UsersOk(w) && MembersOk(w) && OneChief(w)
    ensures OneChief(Step(w, e))
  {
    hide CanManage, CanAssignChief, MayInvite, MayRevoke, TaskAllowed, Unassign, BindPending, Forget, Managed,
         DepartmentsOf;
    var w' := Step(w, e);
    forall d, u, v | HasRole(w', u, d, Chief) && HasRole(w', v, d, Chief) ensures u == v {
      if HasRole(w, u, d, Chief) && HasRole(w, v, d, Chief) {
        assert u == v;
      }
    }
  }

  /** Whose right a change rests on: the caller's, or that of whoever sent the accepted invitation. */
  function Actor(w: Workspace, e: Event): Option<UserId> {
    match e
    case NewDepartment(user, _, _) => Some(user)
    case Inviting(user, _, _, _, _, _, _) => Some(user)
    case Revoking(user, _, _) => Some(user)
    case Accepting(i, _, _) => if i < |w.invitations| then Some(w.invitations[i].invitedBy) else None
    case SettingRole(user, _, _, _) => Some(user)
    case Removing(user, _, _) => Some(user)
    case SettingDepartments(user, _, _) => Some(user)
    case Creating(user, _, _, _, _, _) => Some(user)
    case Updating(user, _, _, _, _, _) => Some(user)
    case Deleting(user, _, _, _) => Some(user)
    case NewUser(_) => None
    case Repeating(_, _) => None
  }

  ghost predicate HasChief(w: Workspace, d: DepartmentId) {
    exists u :: HasRole(w, u, d, Chief)
  }

  /** The owner removes the chief of the department, gives the chief another role, or chooses departments of the
      company for the chief that do not include it. */
  predicate TakesChief(w: Workspace, e: Event, d: DepartmentId) {
    match e
    case Removing(user, from, target) => IsOwner(w, user) && from == d && HasRole(w, target, d, Chief)
    case SettingRole(user, at, target, role) =>
      IsOwner(w, user) && at == d && role != Chief && HasRole(w, target, d, Chief)
    case SettingDepartments(user, target, chosen) =>
      IsOwner(w, user) && HasRole(w, target, d, Chief) && chosen != {} && d !in chosen && chosen <= w.departments
    case _ => false
  }

  lemma ChoiceKeepsChief(w: Workspace, e: Event, d: DepartmentId, u: UserId)
    requires UsersOk(w) && MembersOk(w) && HasRole(w, u, d, Chief) && e.SettingDepartments? && !TakesChief(w, e, d)
    ensures HasRole(Step(w, e), u, d, Chief)
  {
    hide Unassign, BindPending;
    if e.chosen != {} && MaySetDepartments(w, e.user, e.target, e.chosen) && u == e.target {
      assert d in DepartmentsOf(w, u);
    }
  }

  lemma ChiefKept(w: Workspace, e: Event, d: DepartmentId)
    requires UsersOk(w) && MembersOk(w) && HasChief(w, d) && !TakesChief(w, e, d)
    ensures HasChief(Step(w, e), d)
  {
    hide MayInvite, MayRevoke, TaskAllowed, Unassign, BindPending, Forget, SetDepartments, CanManage;
    var w' := Step(w, e);
    var u :| HasRole(w, u, d, Chief);
    match e
    case SettingRole(_, _, target, _) => assert HasRole(w', u, d, Chief) || HasRole(w', target, d, Chief);
    case Accepting(i, _, _) =>
      if i < |w.invitations| {
        var user := UserByEmail(w.users, w.invitations[i].email).Or(|w.users|);
        assert HasRole(w', u, d, Chief) || HasRole(w', user, d, Chief);
      }
    case SettingDepartments(_, _, _) =>
      ChoiceKeepsChief(w, e, d, u);
      assert HasRole(w', u, d, Chief);
    case _ => assert HasRole(w', u, d, Chief);
  }

  lemma OwnerTakesChief(w: Workspace, e: Event, d: DepartmentId, v: UserId)
    requires UsersOk(w) && MembersOk(w) && OneChief(w) && TakesChief(w, e, d)
    ensures !HasRole(Step(w, e), v, d, Chief)
  {
    hide Unassign, BindPending;
    assert HasRole(w, e.target, d, Chief);
    if HasRole(w, v, d, Chief) {
      assert v == e.target;
    }
    if e.SettingDepartments? {
      assert d in Managed(w, e.user) * DepartmentsOf(w, e.target);
    }
  }

  /** In every consistent state a step leaves a department that has a chief without one exactly if it is the
      owner taking the chief away. */
  lemma LosesChiefExactly(w: Workspace, e: Event, d: DepartmentId)
    requires Inv(w) && HasChief(w, d)
    ensures !HasChief(Step(w, e), d) <==> TakesChief(w, e, d)
  {
    hide Step, TakesChief, MembersOk, StaffOk, OneChief, TasksOk;
    if TakesChief(w, e, d) {
      forall v ensures !HasRole(Step(w, e), v, d, Chief) {
        OwnerTakesChief(w, e, d, v);
      }
    } else {
      ChiefKept(w, e, d);
    }
  }

  /** The three ways in which the owner does leave a department without a chief. */
  lemma OwnerMayLeaveNoChief(w: Workspace, d: DepartmentId, u: UserId, role: Role, chosen: set<DepartmentId>)
    requires Inv(w) && HasRole(w, u, d, Chief) && role != Chief
    ensures !HasChief(RemoveMember(w, w.owner, d, u), d)
    ensures !HasChief(SetRole(w, w.owner, d, u, role), d)
    ensures chosen != {} && chosen <= w.departments && d !in chosen ==>
              !HasChief(SetDepartments(w, w.owner, u, chosen), d)
  {
    hide RemoveMember, SetRole, SetDepartments, StaffOk, TasksOk;
    LosesChiefExactly(w, Removing(w.owner, d, u), d);
    LosesChiefExactly(w, SettingRole(w.owner, d, u, role), d);
    LosesChiefExactly(w, SettingDepartments(w.owner, u, chosen), d);
  }

  /** A department that has a chief keeps one through everything that is not the owner's own doing. */
  lemma ChiefStays(w: Workspace, e: Event, d: DepartmentId)
    requires UsersOk(w) && MembersOk(w) && HasChief(w, d) && (Actor(w, e) == Some(w.owner) ==> e.Accepting?)
    ensures HasChief(Step(w, e), d)
  {
    hide Step, HasChief, MembersOk;
    ChiefKept(w, e, d);
  }

  /** A new department has no members, so no chief either. */
  lemma NewDepartmentHasNoChief(w: Workspace, user: UserId, d: DepartmentId, allowed: bool)
    requires MembersOk(w) && d !in w.departments
    ensures var w' := CreateDepartment(w, user, d, allowed);
            && (d in w'.departments <==> IsOwner(w, user) && allowed)
            && (forall u: UserId :: (d, u) !in w'.members)
            && !HasChief(w', d)
  {
    forall u: UserId ensures (d, u) !in w.members {
      assert d !in w.departments;
    }
  }

  /** Who is chief of a department changes only by the right of the owner or of the chief there, never of an
      administrator. */
  lemma ChiefChangesByRight(w: Workspace, e: Event, d: DepartmentId, u: UserId)
    requires UsersOk(w) && MembersOk(w) && HasRole(w, u, d, Chief) != HasRole(Step(w, e), u, d, Chief)
    ensures Actor(w, e).Some? && CanAssignChief(w, Actor(w, e).value, d)
  {
    hide MayInvite, MayRevoke, TaskAllowed, Unassign, BindPending, Forget, CanManage;
  }

  // ---------------------------------------------------------------------------
  // Assignees
  // ---------------------------------------------------------------------------

  /** One user gains and loses memberships; everybody else keeps theirs. */
  ghost predicate Moves(w: Workspace, w': Workspace, target: UserId, gained: set<DepartmentId>,
      lost: set<DepartmentId>) {
    && w.users <= w'.users && w'.owner == w.owner && w.departments <= w'.departments && target < |w'.users|
    && (forall d, u: UserId | u != target :: (d, u) in w'.members <==> (d, u) in w.members)
    && (forall d :: (d, target) in w'.members <==> ((d, target) in w.members && d !in lost) || d in gained)
  }

  lemma RowMoves(w: Workspace, w': Workspace, target: UserId, gained: set<DepartmentId>, lost: set<DepartmentId>,
                 d: DepartmentId, email: string, user: Option<UserId>)
    requires MembersOk(w) && Moves(w, w', target, gained, lost) && AssigneeOk(w, d, email, user)
    requires !(user == Some(target) && d in lost)
    ensures AssigneeOk(w', d, email,
                       if user.None? && email == w'.users[target] && d in gained then Some(target) else user)
  {
  }

  lemma TasksMove(w: Workspace, w': Workspace, target: UserId, gained: set<DepartmentId>, lost: set<DepartmentId>)
    requires MembersOk(w) && TasksOk(w) && Moves(w, w', target, gained, lost)
    requires w'.tasks == BindPending(Unassign(w.tasks, target, lost), w'.users[target], target, gained)
    ensures TasksOk(w')
  {
    hide Moves, AssigneeOk, MembersOk;
    forall id, k | id in w'.tasks && k in w'.tasks[id].assignees
      ensures AssigneeOk(w', k.0, k.1, w'.tasks[id].assignees[k])
    {
      assert TaskOk(w, w.tasks[id]);
      RowMoves(w, w', target, gained, lost, k.0, k.1, w.tasks[id].assignees[k]);
    }
    forall id | id in w'.tasks ensures w'.tasks[id].departments <= w'.departments {
      assert TaskOk(w, w.tasks[id]);
      MoveKeepsDepartments(w, w', target, gained, lost);
    }
  }

  lemma MoveKeepsDepartments(w: Workspace, w': Workspace, target: UserId, gained: set<DepartmentId>,
      lost: set<DepartmentId>)
    requires Moves(w, w', target, gained, lost)
    ensures w.departments <= w'.departments
  {
  }

  lemma NothingToUnassign(tasks: map<nat, Task>, user: UserId)
    ensures Unassign(tasks, user, {}) == tasks
  {
    forall t | t in tasks ensures Unassigned(tasks[t].assignees, user, {}) == tasks[t].assignees {
    }
  }

  lemma NothingToBind(tasks: map<nat, Task>, email: string, user: UserId)
    ensures BindPending(tasks, email, user, {}) == tasks
  {
    forall t | t in tasks ensures Bound(tasks[t].assignees, email, user, {}) == tasks[t].assignees {
    }
  }

  lemma RemoveKeepsTasks(w: Workspace, user: UserId, d: DepartmentId, target: UserId)
    requires UsersOk(w) && MembersOk(w) && TasksOk(w)
    ensures TasksOk(RemoveMember(w, user, d, target))
  {
    hide CanManage, Unassign, TasksOk;
    var w' := RemoveMember(w, user, d, target);
    if MayRemove(w, user, d, target) {
      NothingToBind(Unassign(w.tasks, target, {d}), w.users[target], target);
      TasksMove(w, w', target, {}, {d});
    }
  }

  lemma SetDepartmentsKeepsTasks(w: Workspace, user: UserId, target: UserId, chosen: set<DepartmentId>)
    requires UsersOk(w) && MembersOk(w) && TasksOk(w) && chosen != {}
    ensures TasksOk(SetDepartments(w, user, target, chosen))
  {
    hide Unassign, BindPending, TasksOk;
    if MaySetDepartments(w, user, target, chosen) && target < |w.users| {
      var current := DepartmentsOf(w, target);
      var removed, added := current * Managed(w, user) - chosen, chosen - current;
      TasksMove(w, SetDepartments(w, user, target, chosen), target, added, removed);
    }
  }

  lemma AcceptKeepsTasks(w: Workspace, i: nat, now: int, allowed: bool)
    requires UsersOk(w) && MembersOk(w) && TasksOk(w)
    ensures TasksOk(Accept(w, i, now, allowed))
  {
    hide BindPending, Unassign, TasksOk, CanManage, CanAssignChief;
    if allowed && MayAccept(w, i, now) {
      var user := UserByEmail(w.users, w.invitations[i].email).Or(|w.users|);
      NothingToUnassign(w.tasks, user);
      TasksMove(w, Accept(w, i, now, allowed), user, {w.invitations[i].department}, {});
    }
  }

  lemma SameMembersKeepTasks(w: Workspace, w': Workspace)
    requires UsersOk(w) && MembersOk(w) && TasksOk(w)
    requires w'.members.Keys == w.members.Keys && w'.tasks == w.tasks && w.users <= w'.users && w'.owner == w.owner
    requires w.departments <= w'.departments
    ensures TasksOk(w')
  {
    hide TasksOk;
    assert forall k :: k in w'.members <==> k in w.members;
    NothingToUnassign(w.tasks, w.owner);
    NothingToBind(w.tasks, w'.users[w.owner], w.owner);
    TasksMove(w, w', w.owner, {}, {});
  }

  lemma EmailsDiffer(users: seq<string>, u: UserId, email: string)
    requires u < |users| && users[u] == email && forall i, j | 0 <= i < j < |users| :: users[i] != users[j]
    ensures UserByEmail(users, email) == Some(u)
  {
    var found := UserByEmail(users, email);
    assert users[u] in users;
  }

  lemma ResolvedOk(w: Workspace, current: Assignees, d: DepartmentId, email: string, now: int)
    requires UsersOk(w) && Resolve(w, current, d, email, now).Some?
    ensures AssigneeOk(w, d, email, Resolve(w, current, d, email, now).value)
  {
    if Resolve(w, current, d, email, now).value.None? {
      forall u: UserId | (d, u) in w.members && u < |w.users| ensures w.users[u] != email {
        if w.users[u] == email {
          EmailsDiffer(w.users, u, email);
        }
      }
    }
  }

  /** An accepted request gives exactly the requested rows, each of them right; only the owner reaches several
      departments. */
  lemma TaskDataOk(w: Workspace, user: UserId, d: DepartmentId, current: Assignees, requested: Requested, now: int)
    requires UsersOk(w) && TaskData(w, user, d, current, requested, now).Some?
    ensures var t := TaskData(w, user, d, current, requested, now).value;
            && TaskOk(w, t)
            && d in t.departments && (IsOwner(w, user) || t.departments == {d})
            && (forall r :: r in t.assignees <==> r in requested)
            && (forall other <- t.departments :: exists r <- requested :: r.0 == other)
  {
    hide AssigneeOk, Resolve;
    var t := TaskData(w, user, d, current, requested, now).value;
    forall k | k in t.assignees ensures AssigneeOk(w, k.0, k.1, t.assignees[k]) && k.0 in t.departments {
      ResolvedOk(w, current, k.0, k.1, now);
    }
  }

  lemma OnlyTasksChange(w: Workspace, w': Workspace, t: Task)
    requires TaskOk(w, t) && w' == w.(tasks := w'.tasks)
    ensures TaskOk(w', t)
  {
  }

  lemma TaskChangesKeepTasks(w: Workspace, e: Event)
    requires UsersOk(w) && TasksOk(w)
    requires e.Creating? || e.Updating? || e.Deleting? || e.Repeating?
    ensures TasksOk(Step(w, e))
  {
    hide AssigneeOk, TaskData;
    var w' := Step(w, e);
    if e.Creating? && TaskData(w, e.user, e.d, map[], e.requested, e.now).Some? {
      TaskDataOk(w, e.user, e.d, map[], e.requested, e.now);
    }
    if e.Updating? && e.id in w.tasks && TaskData(w, e.user, e.d, w.tasks[e.id].assignees, e.requested, e.now).Some? {
      TaskDataOk(w, e.user, e.d, w.tasks[e.id].assignees, e.requested, e.now);
    }
    forall id | id in w'.tasks ensures TaskOk(w', w'.tasks[id]) {
      assert TaskOk(w, w'.tasks[id]);
      OnlyTasksChange(w, w', w'.tasks[id]);
    }
  }

  lemma RevokeKeepsTasks(w: Workspace, user: UserId, i: nat, now: int)
    requires UsersOk(w) && TasksOk(w)
    ensures TasksOk(Revoke(w, user, i, now))
  {
    hide MayRevoke;
    var w' := Revoke(w, user, i, now);
    assert w'.users == w.users && w'.members == w.members && w'.departments == w.departments && w'.owner == w.owner;
    forall id | id in w'.tasks ensures TaskOk(w', w'.tasks[id]) {
      assert TaskOk(w, w.tasks[id]);
    }
  }

  lemma StepKeepsTasks(w: Workspace, e: Event)
    requires UsersOk(w) && MembersOk(w) && TasksOk(w)
    ensures TasksOk(Step(w, e))
  {
    hide TasksOk, MembersOk, RemoveMember, SetDepartments, Accept, Revoke, CreateTask, UpdateTask, RemoveTask,
         RepeatTask, MayInvite, MaySetRole;
    match e
    case Removing(user, d, target) => RemoveKeepsTasks(w, user, d, target);
    case SettingDepartments(user, target, chosen) =>
      if chosen != {} { SetDepartmentsKeepsTasks(w, user, target, chosen); }
    case Accepting(i, now, allowed) => AcceptKeepsTasks(w, i, now, allowed);
    case Revoking(user, i, now) => RevokeKeepsTasks(w, user, i, now);
    case Creating(_, _, _, _, _, _) => TaskChangesKeepTasks(w, e);
    case Updating(_, _, _, _, _, _) => TaskChangesKeepTasks(w, e);
    case Deleting(_, _, _, _) => TaskChangesKeepTasks(w, e);
    case Repeating(_, _) => TaskChangesKeepTasks(w, e);
    case SettingRole(user, d, target, role) =>
      RoleKeepsKeys(w, user, d, target, role);
      SameMembersKeepTasks(w, Step(w, e));
    case _ => SameMembersKeepTasks(w, Step(w, e));
  }

  lemma RoleKeepsKeys(w: Workspace, user: UserId, d: DepartmentId, target: UserId, role: Role)
    ensures SetRole(w, user, d, target, role).members.Keys == w.members.Keys
  {
    hide CanManage, CanAssignChief;
  }

  // ---------------------------------------------------------------------------
  // Whole runs
  // ---------------------------------------------------------------------------

  lemma StepKeepsInv(w: Workspace, e: Event)
    requires Inv(w)
    ensures Inv(Step(w, e)) && Step(w, e).owner == w.owner
  {
    hide UsersOk, MembersOk, StaffOk, OneChief, TasksOk, Step;
    StepKeepsUsers(w, e);
    StepKeepsMembers(w, e);
    StepKeepsStaff(w, e);
    StepKeepsOneChief(w, e);
    StepKeepsTasks(w, e);
  }

  /** The state after some events of a workspace that was in order. */
  function Run(w: Workspace, events: seq<Event>): (r: Workspace)
    requires w.owner < |w.users|
    ensures r.owner < |r.users|
    decreases |events|
  {
    if events == [] then w
    else
      var before := Run(w, events[..|events| - 1]);
      UsersGrow(before, events[|events| - 1]);
      Step(before, events[|events| - 1])
  }

  lemma UsersGrow(w: Workspace, e: Event)
    requires w.owner < |w.users|
    ensures Step(w, e).owner == w.owner && |w.users| <= |Step(w, e).users|
  {
    hide CanManage, MayInvite, MayRevoke, MaySetRole, MayRemove, MaySetDepartments, MayAccept, TaskAllowed, Demote,
         Unassign, BindPending, Forget;
  }

  lemma {:induction false} RunKeepsInv(w: Workspace, events: seq<Event>)
    requires Inv(w)
    ensures Inv(Run(w, events)) && Run(w, events).owner == w.owner
    decreases |events|
  {
    hide MembersOk, StaffOk, OneChief, TasksOk, Step;
    if events == [] {
    } else {
      var shorter := events[..|events| - 1];
      RunKeepsInv(w, shorter);
      StepKeepsInv(Run(w, shorter), events[|events| - 1]);
    }
  }

  /** A new workspace: its owner, a membership for the owner, nothing else. */
  lemma NewWorkspaceInv(owner: UserId, users: seq<string>)
    requires owner < |users| && forall i, j | 0 <= i < j < |users| :: users[i] != users[j]
    ensures Inv(Workspace(owner, users, {}, map[], {owner}, [], map[]))
  {
  }

  /** A workspace from the time when the owner became chief of each department it created, as the migration
      leaves it: the owner an administrator of any of the departments. */
  lemma OwnerMayBeAdministrator(owner: UserId, users: seq<string>, departments: set<DepartmentId>,
                                administered: set<DepartmentId>)
    requires owner < |users| && forall i, j | 0 <= i < j < |users| :: users[i] != users[j]
    requires administered <= departments
    ensures var members := map d | d in administered :: (d, owner) := Admin;
            Inv(Workspace(owner, users, departments, members, {owner}, [], map[]))
  {
    var members := map d | d in administered :: (d, owner) := Admin;
    var w := Workspace(owner, users, departments, members, {owner}, [], map[]);
    assert MembersOk(w);
    assert forall u: UserId, d | u != owner :: (d, u) !in members;
  }

  /** In every reachable state: an assignee with an account is the owner or a current member of the row's
      department, under the row's email; that department is one of the task's; and whoever is a member
      somewhere has no pending row there. */
  lemma AssigneesFitTheTeam(w: Workspace, events: seq<Event>, id: nat, d: DepartmentId, email: string)
    requires Inv(w) && id in Run(w, events).tasks && (d, email) in Run(w, events).tasks[id].assignees
    ensures var after := Run(w, events); var user := after.tasks[id].assignees[(d, email)];
            && d in after.tasks[id].departments && after.tasks[id].departments <= after.departments
            && (user.Some? ==> user.value < |after.users| && after.users[user.value] == email
                               && (user.value == w.owner || (d, user.value) in after.members))
            && (user.None? ==> forall u: UserId | (d, u) in after.members ::
                 u < |after.users| && after.users[u] != email)
  {
    hide Step, StaffOk, OneChief;
    RunKeepsInv(w, events);
    assert TaskOk(Run(w, events), Run(w, events).tasks[id]);
  }

  /** In every reachable state a department has at most one chief, the owner is the chief of none, and apart from
      the owner exactly the members of some department belong to the workspace. */
  lemma RolesAreConsistent(w: Workspace, events: seq<Event>)
    requires Inv(w)
    ensures var after := Run(w, events);
            && (forall d, u, v | HasRole(after, u, d, Chief) && HasRole(after, v, d, Chief) :: u == v)
            && (forall u: UserId | u != w.owner :: u in after.staff <==> exists d :: (d, u) in after.members)
            && (forall d: DepartmentId :: !HasRole(after, w.owner, d, Chief))
  {
    hide Step, TasksOk;
    RunKeepsInv(w, events);
  }

  /** Over whole runs: as long as the owner does not take the chief of a department away, it has one. */
  lemma {:induction false} ChiefStaysUnlessTaken(w: Workspace, events: seq<Event>, d: DepartmentId)
    requires Inv(w) && HasChief(w, d) && forall k: nat | k < |events| :: !TakesChief(Run(w, events[..k]), events[k], d)
    ensures HasChief(Run(w, events), d)
    decreases |events|
  {
    hide Step, HasChief, TakesChief, MembersOk, StaffOk, OneChief, TasksOk;
    if events == [] {
    } else {
      var n := |events| - 1;
      var shorter := events[..n];
      forall k: nat | k < n ensures !TakesChief(Run(w, shorter[..k]), shorter[k], d) {
        assert shorter[..k] == events[..k];
      }
      ChiefStaysUnlessTaken(w, shorter, d);
      RunKeepsInv(w, shorter);
      LosesChiefExactly(Run(w, shorter), events[n], d);
    }
  }

  /** Event `k` is not the owner's doing; accepting an invitation is the guest's. */
  ghost predicate NotByOwner(w: Workspace, events: seq<Event>, k: nat)
    requires w.owner < |w.users| && k < |events|
  {
    Actor(Run(w, events[..k]), events[k]) == Some(w.owner) ==> events[k].Accepting?
  }

  lemma OthersTakeNoChief(w: Workspace, e: Event, d: DepartmentId)
    requires Actor(w, e) == Some(w.owner) ==> e.Accepting?
    ensures !TakesChief(w, e, d)
  {
  }

  /** Without the owner's doing, a department that had a chief never ends without one. */
  lemma ChiefStaysWithoutOwner(w: Workspace, events: seq<Event>, d: DepartmentId)
    requires Inv(w) && HasChief(w, d) && forall k: nat | k < |events| :: NotByOwner(w, events, k)
    ensures HasChief(Run(w, events), d)
  {
    hide Step, HasChief, TakesChief, MembersOk, StaffOk, OneChief, TasksOk;
    forall k: nat | k < |events| ensures !TakesChief(Run(w, events[..k]), events[k], d) {
      assert NotByOwner(w, events, k);
      RunKeepsInv(w, events[..k]);
      OthersTakeNoChief(Run(w, events[..k]), events[k], d);
    }
    ChiefStaysUnlessTaken(w, events, d);
  }

  // ---------------------------------------------------------------------------
  // Invitations
  // ---------------------------------------------------------------------------

  predicate Closed(w: Workspace, i: nat) {
    i < |w.invitations| && (w.invitations[i].accepted || w.invitations[i].revoked)
  }

  lemma StepKeepsClosed(w: Workspace, e: Event, i: nat)
    requires w.owner < |w.users| && Closed(w, i)
    ensures Closed(Step(w, e), i)
  {
    hide CanManage, MayInvite, MaySetRole, MayRemove, MaySetDepartments, TaskAllowed, Demote, Unassign, BindPending,
         Forget;
  }

  lemma {:induction false} ClosedForever(w: Workspace, events: seq<Event>, i: nat)
    requires w.owner < |w.users| && Closed(w, i)
    ensures Closed(Run(w, events), i)
    decreases |events|
  {
    hide Step, Closed;
    if events == [] {
    } else {
      ClosedForever(w, events[..|events| - 1], i);
      StepKeepsClosed(Run(w, events[..|events| - 1]), events[|events| - 1], i);
    }
  }

  /** An invitation that was accepted can never be accepted again. */
  lemma InvitationIsSingleUse(w: Workspace, events: seq<Event>, i: nat, now: int, later: int)
    requires w.owner < |w.users| && MayAccept(w, i, now)
    ensures !MayAccept(Run(Accept(w, i, now, true), events), i, later)
  {
    hide CanManage, CanAssignChief, BindPending, Demote;
    ClosedForever(Accept(w, i, now, true), events, i);
  }

  /** An invitation that was revoked can never be accepted. */
  lemma RevokedIsNeverAccepted(w: Workspace, user: UserId, events: seq<Event>, i: nat, now: int, later: int)
    requires w.owner < |w.users| && MayRevoke(w, user, i)
    ensures !MayAccept(Run(Revoke(w, user, i, now), events), i, later)
  {
    hide CanManage, CanAssignChief, Forget;
    ClosedForever(Revoke(w, user, i, now), events, i);
  }

  /** Revoking the last open invitation of an email leaves no pending assignment of it in the department. */
  lemma RevokedLeavesNoPending(w: Workspace, user: UserId, i: nat, now: int)
    requires MayRevoke(w, user, i)
    ensures var w' := Revoke(w, user, i, now); var d, email := w.invitations[i].department, w.invitations[i].email;
            && Closed(w', i)
            && ((exists other | other in w'.invitations :: OpenFor(other, d, email, now)) ||
                forall id | id in w'.tasks ::
                  (d, email) in w'.tasks[id].assignees ==> w'.tasks[id].assignees[(d, email)].Some?)
  {
    hide CanManage, CanAssignChief;
  }

  /** The guest gets the invited role, belongs to the workspace, and is linked to everything that was waiting. */
  lemma AcceptGivesInvitedRole(w: Workspace, i: nat, now: int)
    requires UsersOk(w) && MembersOk(w) && MayAccept(w, i, now)
    ensures var w' := Accept(w, i, now, true);
            var d, email := w.invitations[i].department, w.invitations[i].email;
            && UserByEmail(w'.users, email).Some?
            && var user := UserByEmail(w'.users, email).value;
               && HasRole(w', user, d, w.invitations[i].role) && user in w'.staff
               && forall id | id in w'.tasks ::
                    (d, email) in w'.tasks[id].assignees ==> w'.tasks[id].assignees[(d, email)].Some?
  {
    hide CanManage, CanAssignChief, Demote;
    var email := w.invitations[i].email;
    if UserByEmail(w.users, email).None? {
      assert (w.users + [email])[|w.users|] == email;
    }
  }

  /** The member ends up in exactly the chosen departments and those the caller does not manage. Kept
      memberships keep their role, new ones start as workers. */
  lemma SetDepartmentsIsExact(w: Workspace, user: UserId, target: UserId, chosen: set<DepartmentId>)
    requires MembersOk(w) && target < |w.users| && chosen != {} && MaySetDepartments(w, user, target, chosen)
    ensures var w' := SetDepartments(w, user, target, chosen);
            && DepartmentsOf(w', target) == chosen + (DepartmentsOf(w, target) - Managed(w, user))
            && (forall d: DepartmentId | (d, target) in w'.members ::
                  w'.members[(d, target)] == if (d, target) in w.members then w.members[(d, target)] else Worker)
            && (forall d: DepartmentId, u: UserId | u != target ::
                  ((d, u) in w'.members <==> (d, u) in w.members)
                  && ((d, u) in w.members ==> w'.members[(d, u)] == w.members[(d, u)]))
  {
    hide Unassign, BindPending;
    var w' := SetDepartments(w, user, target, chosen);
    forall d ensures d in DepartmentsOf(w', target) <==> d in chosen + (DepartmentsOf(w, target) - Managed(w, user)) {
      if d in chosen {
        assert d in w.departments;
      }
    }
  }

  /** Open invitations of one department differ in email, and at most one of them is for a chief. */
  predicate Separate(a: Invitation, b: Invitation, t: int) {
    Open(a, t) && Open(b, t) && a.department == b.department ==>
      a.email != b.email && !(a.role == Chief && b.role == Chief)
  }

  ghost predicate OpenSeparate(w: Workspace, since: int) {
    forall a, b, t: int | 0 <= a < b < |w.invitations| && since <= t :: Separate(w.invitations[a], w.invitations[b], t)
  }

  /** Times of invitations do not go backwards. */
  function Latest(e: Event, since: int): int {
    if e.Inviting? && since < e.now then e.now else since
  }

  predicate Later(i: Invitation, j: Invitation) {
    j == i.(accepted := j.accepted, revoked := j.revoked) && (i.accepted ==> j.accepted) && (i.revoked ==> j.revoked)
  }

  lemma StepClosesOnly(w: Workspace, e: Event, i: nat)
    requires w.owner < |w.users| && i < |w.invitations|
    ensures i < |Step(w, e).invitations| && Later(w.invitations[i], Step(w, e).invitations[i])
  {
    hide CanManage, MayInvite, MaySetRole, MayRemove, MaySetDepartments, TaskAllowed, Demote, Unassign, BindPending,
         Forget;
  }

  lemma InvitationsAreKept(w: Workspace, e: Event)
    requires w.owner < |w.users|
    ensures |w.invitations| <= |Step(w, e).invitations| <= |w.invitations| + 1
    ensures |Step(w, e).invitations| > |w.invitations| ==>
              e.Inviting? && Step(w, e) == Invite(w, e.user, e.d, e.email, e.role, e.now, e.allowed, e.lasts)
              && e.allowed && MayInvite(w, e.user, e.d, e.email, e.role, e.now)
  {
    hide CanManage, MayInvite, MaySetRole, MayRemove, MaySetDepartments, TaskAllowed, Demote, Unassign, BindPending,
         Forget;
  }

  lemma NewInvitationIsSeparate(w: Workspace, e: Event, i: nat, t: int)
    requires w.owner < |w.users| && e.Inviting? && e.allowed && e.now <= t
    requires MayInvite(w, e.user, e.d, e.email, e.role, e.now)
    requires i < |w.invitations|
    ensures Separate(Step(w, e).invitations[i],
            Invitation(e.email, e.d, e.role, e.user, e.now + e.lasts, false, false), t)
  {
    assert w.invitations[i] in w.invitations;
  }

  lemma StepKeepsOpenSeparate(w: Workspace, e: Event, since: int)
    requires w.owner < |w.users| && OpenSeparate(w, since) && (e.Inviting? ==> since <= e.now)
    ensures OpenSeparate(Step(w, e), Latest(e, since))
  {
    hide Step, MayInvite;
    var w' := Step(w, e);
    InvitationsAreKept(w, e);
    forall a, b, t: int | 0 <= a < b < |w'.invitations| && Latest(e, since) <= t
      ensures Separate(w'.invitations[a], w'.invitations[b], t)
    {
      StepClosesOnly(w, e, a);
      if b < |w.invitations| {
        StepClosesOnly(w, e, b);
        assert Separate(w.invitations[a], w.invitations[b], t);
      } else {
        NewInvitationIsSeparate(w, e, a, t);
      }
    }
  }

  function LatestOf(events: seq<Event>, since: int): int {
    if events == [] then since else Latest(events[|events| - 1], LatestOf(events[..|events| - 1], since))
  }

  predicate InTime(events: seq<Event>, since: int) {
    events == [] ||
    (InTime(events[..|events| - 1], since) &&
     (events[|events| - 1].Inviting? ==> LatestOf(events[..|events| - 1], since) <= events[|events| - 1].now))
  }

  /** However invitations are sent, reissued, revoked and accepted: from the time of the last one on, an email has
      at most one open invitation to a department, and a department at most one for a chief. */
  lemma {:induction false} OpenInvitationsStaySeparate(w: Workspace, events: seq<Event>, since: int)
    requires w.owner < |w.users| && OpenSeparate(w, since) && InTime(events, since)
    ensures OpenSeparate(Run(w, events), LatestOf(events, since))
    decreases |events|
  {
    hide Step, OpenSeparate;
    if events == [] {
    } else {
      var shorter := events[..|events| - 1];
      OpenInvitationsStaySeparate(w, shorter, since);
      StepKeepsOpenSeparate(Run(w, shorter), events[|events| - 1], LatestOf(shorter, since));
    }
  }

  /** Invitations for a chief are sent, reissued and revoked only by the right of the owner or of the chief. */
  lemma ChiefInvitationByRight(w: Workspace, e: Event, i: nat)
    requires w.owner < |w.users| && i < |Step(w, e).invitations| && Step(w, e).invitations[i].role == Chief
    requires i < |w.invitations| ==> w.invitations[i].revoked != Step(w, e).invitations[i].revoked
    ensures Actor(w, e).Some? && CanAssignChief(w, Actor(w, e).value, Step(w, e).invitations[i].department)
  {
    hide CanManage, CanAssignChief, MaySetRole, MayRemove, MaySetDepartments, TaskAllowed, Demote, Unassign,
         BindPending, Forget;
    InvitationsAreKept(w, e);
    if i < |w.invitations| {
      StepClosesOnly(w, e, i);
      assert w.invitations[i] in w.invitations;
    }
  }
}
