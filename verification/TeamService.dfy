/** The team, task and notification services as methods that change the rows of one workspace in sequence. */
module TeamService {
  import opened Options
  import opened Team

  class TeamRows {
    const owner: UserId
    var users: seq<string>
    var departments: set<DepartmentId>
    var members: Members
    var staff: set<UserId>
    var invitations: seq<Invitation>
    var tasks: map<nat, Task>

    function Rows(): Workspace
      reads this
    {
      Workspace(owner, users, departments, members, staff, invitations, tasks)
    }

    constructor (owner: UserId, users: seq<string>)
      requires owner < |users| && forall i, j | 0 <= i < j < |users| :: users[i] != users[j]
      ensures Rows() == Workspace(owner, users, {}, map[], {owner}, [], map[]) && Inv(Rows())
    {
      this.owner, this.users := owner, users;
      departments, members, staff, invitations, tasks := {}, map[], {owner}, [], map[];
      new;
      NewWorkspaceInv(owner, users);
    }

    method CreateDepartment(user: UserId, d: DepartmentId, allowed: bool) returns (done: bool)
      requires Inv(Rows())
      modifies `departments
      ensures Inv(Rows())
      ensures done == (IsOwner(old(Rows()), user) && allowed && d !in old(departments))
      ensures Rows() == Team.CreateDepartment(old(Rows()), user, d, allowed)
    {
      hide Inv;
      ghost var before := Rows();
      done := user == owner && allowed && d !in departments;
      if done {
        departments := departments + {d};
      }
      Kept(before, NewDepartment(user, d, allowed));
    }

    method Invite(user: UserId, d: DepartmentId, email: string, role: Role, now: int, allowed: bool, lasts: nat)
      returns (done: bool)
      requires Inv(Rows())
      modifies `invitations
      ensures Inv(Rows())
      ensures done == (allowed && MayInvite(old(Rows()), user, d, email, role, now))
      ensures Rows() == Team.Invite(old(Rows()), user, d, email, role, now, allowed, lasts)
    {
      hide Inv, CanManage, CanAssignChief, RevokeAll;
      ghost var before := Rows();
      OwnerIsUser(before);
      Kept(before, Inviting(user, d, email, role, now, allowed, lasts));
      if !CanManage(Rows(), user, d) || !allowed || users[owner] == email ||
         (role == Chief && !CanAssignChief(Rows(), user, d)) {
        return false;
      }
      if exists k | k in members.Keys :: k.0 == d && k.1 < |users| && users[k.1] == email {
        return false;
      }
      if !CanAssignChief(Rows(), user, d) &&
         exists i | i in invitations :: OpenFor(i, d, email, now) && i.role == Chief {
        return false;
      }
      if role == Chief &&
         exists i | i in invitations :: Open(i, now) && i.department == d && i.role == Chief && i.email != email {
        return false;
      }
      invitations := RevokeAll(invitations, d, email, now);
      invitations := invitations + [Invitation(email, d, role, user, now + lasts, false, false)];
      done := true;
    }

    method Revoke(user: UserId, i: nat, now: int) returns (done: bool)
      requires Inv(Rows())
      modifies `invitations, `tasks
      ensures Inv(Rows())
      ensures done == MayRevoke(old(Rows()), user, i)
      ensures Rows() == Team.Revoke(old(Rows()), user, i, now)
    {
      hide Inv, CanManage, CanAssignChief, Forget;
      ghost var before := Rows();
      Kept(before, Revoking(user, i, now));
      if |invitations| <= i {
        return false;
      }
      var invitation := invitations[i];
      var d, email := invitation.department, invitation.email;
      if !CanManage(Rows(), user, d) || (invitation.role == Chief && !CanAssignChief(Rows(), user, d))
         || invitation.accepted {
        return false;
      }
      invitations := invitations[i := invitation.(revoked := true)];
      if !exists other | other in invitations :: OpenFor(other, d, email, now) {
        tasks := Forget(tasks, d, email);
      }
      done := true;
    }

    method DemoteChief(d: DepartmentId, except: UserId)
      modifies `members
      ensures members == Demote(old(members), d, except)
      ensures forall u: UserId | u != except && (d, u) in members :: members[(d, u)] != Chief
    {
      members := map k | k in members ::
        if k.0 == d && k.1 != except && members[k] == Chief then Admin else members[k];
    }

    method SetRole(user: UserId, d: DepartmentId, target: UserId, role: Role) returns (done: bool)
      requires Inv(Rows())
      modifies `members
      ensures Inv(Rows())
      ensures done == MaySetRole(old(Rows()), user, d, target, role)
      ensures Rows() == Team.SetRole(old(Rows()), user, d, target, role)
    {
      hide Inv, CanManage, Demote;
      ghost var before := Rows();
      Kept(before, SettingRole(user, d, target, role));
      if !CanManage(Rows(), user, d) || target == owner || (d, target) !in members {
        return false;
      }
      var current := members[(d, target)];
      if (role == Chief || current == Chief) && !CanAssignChief(Rows(), user, d) {
        return false;
      }
      if current == Chief && role != Chief && user != owner {
        return false;
      }
      if role == Chief {
        DemoteChief(d, target);
      }
      members := members[(d, target) := role];
      done := true;
    }

    method RemoveMember(user: UserId, d: DepartmentId, target: UserId) returns (done: bool)
      requires Inv(Rows())
      modifies `members, `tasks, `staff
      ensures Inv(Rows())
      ensures done == MayRemove(old(Rows()), user, d, target)
      ensures Rows() == Team.RemoveMember(old(Rows()), user, d, target)
    {
      hide Inv, CanManage, Unassign;
      ghost var before := Rows();
      Kept(before, Removing(user, d, target));
      if !CanManage(Rows(), user, d) || target == owner || (d, target) !in members {
        return false;
      }
      if members[(d, target)] == Chief && user != owner {
        return false;
      }
      members := members - {(d, target)};
      tasks := Unassign(tasks, target, {d});
      if DepartmentsOf(Rows(), target) == {} {
        staff := staff - {target};
      }
      done := true;
    }

    method SetDepartments(user: UserId, target: UserId, chosen: set<DepartmentId>) returns (done: bool)
      requires Inv(Rows()) && chosen != {}
      modifies `members, `tasks
      ensures Inv(Rows())
      ensures done == (MaySetDepartments(old(Rows()), user, target, chosen) && target < |users|)
      ensures Rows() == Team.SetDepartments(old(Rows()), user, target, chosen)
    {
      hide Inv, Managed, Unassign, Team.BindPending;
      ghost var before := Rows();
      Kept(before, SettingDepartments(user, target, chosen));
      if !Sees(Rows(), user) || target == owner || |users| <= target {
        return false;
      }
      var managed, current := Managed(Rows(), user), DepartmentsOf(Rows(), target);
      if managed * current == {} || !(chosen <= managed + current) {
        return false;
      }
      var removed, added := current * managed - chosen, chosen - current;
      if user != owner && exists d | d in removed :: (d, target) in members && members[(d, target)] == Chief {
        return false;
      }
      members := map k | k in members && !(k.1 == target && k.0 in removed) :: members[k];
      tasks := Unassign(tasks, target, removed);
      members := members + map d | d in added :: (d, target) := Worker;
      BindPending(users[target], target, added);
      done := true;
    }

    method BindPending(email: string, user: UserId, ds: set<DepartmentId>)
      modifies `tasks
      ensures tasks == Team.BindPending(old(tasks), email, user, ds)
      ensures forall t, d: DepartmentId | t in tasks && d in ds && (d, email) in tasks[t].assignees ::
                tasks[t].assignees[(d, email)].Some?
    {
      if ds == {} {
        NothingToBind(tasks, email, user);
        return;
      }
      tasks := map t | t in tasks :: tasks[t].(assignees := Bound(tasks[t].assignees, email, user, ds));
    }

    method Accept(i: nat, now: int, allowed: bool) returns (done: bool)
      requires Inv(Rows())
      modifies `users, `invitations, `staff, `members, `tasks
      ensures Inv(Rows())
      ensures done == (allowed && MayAccept(old(Rows()), i, now))
      ensures Rows() == Team.Accept(old(Rows()), i, now, allowed)
    {
      hide Inv, CanManage, CanAssignChief, Demote, Team.BindPending, UserByEmail;
      ghost var before := Rows();
      Kept(before, Accepting(i, now, allowed));
      if !allowed || |invitations| <= i || !Open(invitations[i], now) {
        return false;
      }
      var Invitation(email, d, role, invitedBy, _, _, _) := invitations[i];
      if !CanManage(Rows(), invitedBy, d) || (role == Chief && !CanAssignChief(Rows(), invitedBy, d)) {
        return false;
      }
      var known := UserByEmail(users, email);
      if known.Some? && (known.value == owner || (d, known.value) in members) {
        return false;
      }
      var user := known.Or(|users|);
      if known.None? {
        users := users + [email];
      }
      invitations := invitations[i := invitations[i].(accepted := true)];
      staff := staff + {user};
      if role == Chief {
        DemoteChief(d, user);
      }
      members := members[(d, user) := role];
      BindPending(email, user, {d});
      done := true;
    }

    method CreateTask(user: UserId, d: DepartmentId, requested: Requested, meeting: bool, now: int, id: nat)
      returns (done: bool)
      requires Inv(Rows())
      modifies `tasks
      ensures Inv(Rows())
      ensures done == (CanManage(old(Rows()), user, d) && id !in old(tasks) &&
                       ((meeting && requested == []) || TaskAllowed(old(Rows()), user, d, map[], requested, now)))
      ensures Rows() == Team.CreateTask(old(Rows()), user, d, requested, meeting, now, id)
    {
      hide Inv, CanManage, TaskAllowed;
      ghost var before := Rows();
      OwnerIsUser(before);
      Kept(before, Creating(user, d, requested, meeting, now, id));
      if !CanManage(Rows(), user, d) || id in tasks {
        return false;
      }
      if meeting && requested == [] {
        tasks := tasks[id := Task({d}, map[])];
        return true;
      }
      var data := TaskData(Rows(), user, d, map[], requested, now);
      if data.Some? {
        tasks := tasks[id := data.value];
      }
      done := data.Some?;
    }

    method UpdateTask(user: UserId, d: DepartmentId, id: nat, requested: Requested, now: int, allowed: bool)
      returns (done: bool)
      requires Inv(Rows())
      modifies `tasks
      ensures Inv(Rows())
      ensures done == (allowed && MayEdit(old(Rows()), user, d, id) &&
                       TaskAllowed(old(Rows()), user, d, old(tasks)[id].assignees, requested, now))
      ensures Rows() == Team.UpdateTask(old(Rows()), user, d, id, requested, now, allowed)
    {
      hide Inv, CanManage, TaskAllowed;
      ghost var before := Rows();
      OwnerIsUser(before);
      Kept(before, Updating(user, d, id, requested, now, allowed));
      if !CanManage(Rows(), user, d) || id !in tasks || d !in tasks[id].departments || !allowed {
        return false;
      }
      var data := TaskData(Rows(), user, d, tasks[id].assignees, requested, now);
      if data.Some? {
        tasks := tasks[id := data.value];
      }
      done := data.Some?;
    }

    method RemoveTask(user: UserId, d: DepartmentId, id: nat, allowed: bool) returns (done: bool)
      requires Inv(Rows())
      modifies `tasks
      ensures Inv(Rows())
      ensures done == (allowed && MayEdit(old(Rows()), user, d, id))
      ensures Rows() == Team.RemoveTask(old(Rows()), user, d, id, allowed)
    {
      hide Inv, CanManage;
      ghost var before := Rows();
      Kept(before, Deleting(user, d, id, allowed));
      done := CanManage(Rows(), user, d) && id in tasks && d in tasks[id].departments && allowed;
      if done {
        tasks := tasks - {id};
      }
    }
  }

  lemma OwnerIsUser(w: Workspace)
    requires Inv(w)
    ensures w.owner < |w.users|
  {
  }

  lemma Kept(w: Workspace, e: Event)
    requires Inv(w)
    ensures w.owner < |w.users| && Inv(Step(w, e))
  {
    OwnerIsUser(w);
    StepKeepsInv(w, e);
  }

  // ---------------------------------------------------------------------------
  // Who is notified of an assignment
  // ---------------------------------------------------------------------------

  datatype Assignee = Assignee(department: DepartmentId, email: string, user: Option<UserId>)

  /** Linked, and not among the rows before the change. */
  predicate IsNew(a: Assignee, previous: seq<Assignee>) {
    a.user.Some? && forall p | p in previous :: p.department != a.department || p.email != a.email
  }

  /** A row is new if it is linked and its department and email were not a row before. */
  lemma NewExactly(a: Assignee, previous: seq<Assignee>)
    ensures IsNew(a, previous) <==>
            a.user != None && (a.department, a.email) !in (set p | p in previous :: (p.department, p.email))
  {
  }

  /** The department a user is told about: that of the last new row. */
  function ToldAbout(assignees: seq<Assignee>, previous: seq<Assignee>, user: UserId): Option<DepartmentId> {
    if assignees == [] then None
    else
      var a := assignees[|assignees| - 1];
      if IsNew(a, previous) && a.user == Some(user) then Some(a.department)
      else ToldAbout(assignees[..|assignees| - 1], previous, user)
  }

  lemma {:induction false} ToldExactlyIfNew(assignees: seq<Assignee>, previous: seq<Assignee>, user: UserId)
    ensures ToldAbout(assignees, previous, user).Some? <==>
            exists a | a in assignees :: IsNew(a, previous) && a.user == Some(user)
    ensures ToldAbout(assignees, previous, user).Some? ==>
              exists k | 0 <= k < |assignees| ::
                && IsNew(assignees[k], previous) && assignees[k].user == Some(user)
                && assignees[k].department == ToldAbout(assignees, previous, user).value
                && forall later | k < later < |assignees| ::
                     !(IsNew(assignees[later], previous) && assignees[later].user == Some(user))
    decreases |assignees|
  {
    if assignees != [] {
      var shorter, last := assignees[..|assignees| - 1], assignees[|assignees| - 1];
      assert assignees == shorter + [last];
      ToldExactlyIfNew(shorter, previous, user);
    }
  }

  /** Everybody newly assigned is told once, whatever the number of departments. */
  method Assigned(assignees: seq<Assignee>, previous: seq<Assignee>) returns (recipients: map<UserId, DepartmentId>)
    ensures forall u: UserId :: u in recipients <==> ToldAbout(assignees, previous, u).Some?
    ensures forall u: UserId | u in recipients :: ToldAbout(assignees, previous, u) == Some(recipients[u])
  {
    recipients := map[];
    for i := 0 to |assignees|
      invariant forall u: UserId :: u in recipients <==> ToldAbout(assignees[..i], previous, u).Some?
      invariant forall u: UserId | u in recipients :: ToldAbout(assignees[..i], previous, u) == Some(recipients[u])
    {
      var a := assignees[i];
      assert assignees[..i + 1][..i] == assignees[..i];
      if a.user.Some? && forall p | p in previous :: p.department != a.department || p.email != a.email {
        recipients := recipients[a.user.value := a.department];
      }
    }
    assert assignees[..|assignees|] == assignees;
  }
}
