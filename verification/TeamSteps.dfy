/** What each operation of the team and task services leaves in the rows of a consistent workspace, and to whom. */
module TeamSteps {
  import opened Options
  import opened Team

  // ---------------------------------------------------------------------------
  // Rights
  // ---------------------------------------------------------------------------

  /** The owner, or the chief or an administrator of the department. */
  predicate Leads(w: Workspace, user: UserId, d: DepartmentId) {
    if user == w.owner then d in w.departments
    else (d, user) in w.members && w.members[(d, user)] != Worker
  }

  /** The owner, or the chief of the department. */
  predicate IsHead(w: Workspace, user: UserId, d: DepartmentId) {
    user == w.owner || ((d, user) in w.members && w.members[(d, user)] == Chief)
  }

  /** In a consistent workspace departments are managed exactly by those who lead them. */
  lemma ManagersExactly(w: Workspace, user: UserId, d: DepartmentId)
    requires Inv(w)
    ensures CanManage(w, user, d) <==> Leads(w, user, d)
    ensures d in w.departments ==> (CanAssignChief(w, user, d) <==> IsHead(w, user, d))
    ensures d in Managed(w, user) <==> Leads(w, user, d)
    ensures d in DepartmentsOf(w, user) <==> (d, user) in w.members
  {
    hide UsersOk, OneChief, TasksOk;
    if (d, user) in w.members {
      assert (d, user).0 in w.departments;
    }
  }

  /** Who leads no department cannot change anything, nor can their invitations be accepted. */
  lemma WithoutRightNothingChanges(w: Workspace, e: Event, user: UserId)
    requires Inv(w) && Actor(w, e) == Some(user) && user != w.owner
    requires forall d: DepartmentId :: !Leads(w, user, d)
    ensures Step(w, e) == w
  {
    hide UsersOk, MembersOk, StaffOk, OneChief, TasksOk, Leads, CanManage, CanAssignChief, TaskAllowed, Open, OpenFor,
         Resolve, Forget, BindPending, Unassign, Demote;
    forall d: DepartmentId ensures !CanManage(w, user, d) && d !in Managed(w, user) {
      ManagersExactly(w, user, d);
      assert !Leads(w, user, d);
    }
  }

  /** The role of a member; None for somebody who is none. */
  function RoleOf(w: Workspace, user: UserId, d: DepartmentId): Option<Role> {
    if (d, user) in w.members then Some(w.members[(d, user)]) else None
  }

  lemma StepLeavesOwner(w: Workspace, e: Event, d: DepartmentId)
    requires UsersOk(w) && MembersOk(w)
    ensures RoleOf(Step(w, e), w.owner, d) == RoleOf(w, w.owner, d)
  {
    hide CanManage, CanAssignChief, MayInvite, MayRevoke, TaskAllowed, Unassign, BindPending, Forget, Managed,
         DepartmentsOf;
  }

  /** Over every run: nobody, not even the owner, changes the owner's own memberships. */
  lemma {:induction false} OwnerIsProtected(w: Workspace, events: seq<Event>, d: DepartmentId)
    requires Inv(w)
    ensures RoleOf(Run(w, events), w.owner, d) == RoleOf(w, w.owner, d)
    decreases |events|
  {
    hide Step, MembersOk, StaffOk, OneChief, TasksOk, RoleOf;
    if events == [] {
    } else {
      var shorter := events[..|events| - 1];
      OwnerIsProtected(w, shorter, d);
      RunKeepsInv(w, shorter);
      StepLeavesOwner(Run(w, shorter), events[|events| - 1], d);
    }
  }

  // ---------------------------------------------------------------------------
  // Members
  // ---------------------------------------------------------------------------

  /** What setting a role asks for. */
  predicate RoleAllowed(w: Workspace, user: UserId, d: DepartmentId, target: UserId, role: Role) {
    && Leads(w, user, d) && target != w.owner && (d, target) in w.members
    && (role == Chief || w.members[(d, target)] == Chief ==> IsHead(w, user, d))
    && (w.members[(d, target)] == Chief && role != Chief ==> user == w.owner)
  }

  /** The member gets exactly the role asked for; a new chief makes the old one an administrator, and nobody else's
      role changes. */
  lemma RoleIsSet(w: Workspace, user: UserId, d: DepartmentId, target: UserId, role: Role)
    requires Inv(w)
    ensures var w' := Step(w, SettingRole(user, d, target, role));
            if RoleAllowed(w, user, d, target, role)
            then && w' == w.(members := w'.members) && w'.members.Keys == w.members.Keys
                 && forall k | k in w.members ::
                      w'.members[k] == (if k == (d, target) then role
                                        else if role == Chief && k.0 == d && w.members[k] == Chief then Admin
                                        else w.members[k])
            else w' == w
  {
    hide UsersOk, StaffOk, OneChief, TasksOk, CanManage, CanAssignChief, Leads, IsHead;
    ManagersExactly(w, user, d);
    assert (d, target) in w.members ==> (d, target).0 in w.departments;
  }

  /** A row is the user's linked row in one of some departments. */
  predicate LinkedIn(a: Assignees, k: (DepartmentId, string), user: UserId, ds: set<DepartmentId>)
    requires k in a
  {
    a[k] == Some(user) && k.0 in ds
  }

  /** The tasks without the user's linked rows in some departments, and nothing else changed. */
  predicate Released(tasks: map<nat, Task>, tasks': map<nat, Task>, user: UserId, ds: set<DepartmentId>) {
    && tasks'.Keys == tasks.Keys
    && forall t | t in tasks ::
         var a, a' := tasks[t].assignees, tasks'[t].assignees;
         && tasks'[t].departments == tasks[t].departments
         && (forall k | k in a :: k in a' <==> !LinkedIn(a, k, user, ds))
         && (forall k | k in a' :: k in a && a'[k] == a[k])
  }

  /** What removing a member asks for. */
  predicate RemovalAllowed(w: Workspace, user: UserId, d: DepartmentId, target: UserId) {
    && Leads(w, user, d) && target != w.owner && (d, target) in w.members
    && (w.members[(d, target)] == Chief ==> user == w.owner)
  }

  /** The member loses exactly this membership and the assignments there, and belongs to the workspace as long as
      another membership is left. */
  lemma MemberIsRemoved(w: Workspace, user: UserId, d: DepartmentId, target: UserId)
    requires Inv(w)
    ensures var w' := Step(w, Removing(user, d, target));
            if RemovalAllowed(w, user, d, target)
            then && w' == w.(members := w.members - {(d, target)}, staff := w'.staff, tasks := w'.tasks)
                 && w'.staff == (if exists other :: other != d && (other, target) in w.members then w.staff
                                 else w.staff - {target})
                 && Released(w.tasks, w'.tasks, target, {d})
            else w' == w
  {
    hide UsersOk, StaffOk, OneChief, TasksOk, CanManage, Leads;
    ManagersExactly(w, user, d);
    var left := w.(members := w.members - {(d, target)}, tasks := Unassign(w.tasks, target, {d}));
    if exists other :: other != d && (other, target) in w.members {
      var other :| other != d && (other, target) in w.members;
      assert (other, target).0 in w.departments && other in DepartmentsOf(left, target);
    } else {
      assert DepartmentsOf(left, target) == {};
    }
  }

  /** Rows that waited for an email in some departments are linked to its user, and nothing else changed. */
  predicate Linked(tasks: map<nat, Task>, tasks': map<nat, Task>, email: string, user: UserId, ds: set<DepartmentId>) {
    && tasks'.Keys == tasks.Keys
    && forall t | t in tasks ::
         var a, a' := tasks[t].assignees, tasks'[t].assignees;
         && tasks'[t].departments == tasks[t].departments && a'.Keys == a.Keys
         && forall k | k in a :: a'[k] == if a[k] == None && k.0 in ds && k.1 == email then Some(user) else a[k]
  }

  /** What choosing a member's departments asks for: a common department, none that is neither led nor the member's,
      and no loss of a chief except by the owner. */
  ghost predicate ChoiceAllowed(w: Workspace, user: UserId, target: UserId, chosen: set<DepartmentId>) {
    && (user == w.owner || user in w.staff) && target != w.owner && target < |w.users|
    && (exists d: DepartmentId :: Leads(w, user, d) && (d, target) in w.members)
    && (forall d | d in chosen :: Leads(w, user, d) || (d, target) in w.members)
    && (user == w.owner || forall d: DepartmentId | Leads(w, user, d) && d !in chosen && (d, target) in w.members ::
          w.members[(d, target)] != Chief)
  }

  /** The roles after the choice: in the chosen departments and in those the caller does not lead. Kept memberships
      keep their role, new ones are a worker's, and nobody else's change. */
  ghost predicate Chosen(w: Workspace, w': Workspace, user: UserId, target: UserId, chosen: set<DepartmentId>) {
    && (forall d: DepartmentId ::
          RoleOf(w', target, d) ==
          if d in chosen then Some(RoleOf(w, target, d).Or(Worker))
          else if Leads(w, user, d) then None
          else RoleOf(w, target, d))
    && (forall d: DepartmentId, u: UserId | u != target :: RoleOf(w', u, d) == RoleOf(w, u, d))
  }

  /** What was lost is unassigned, and then what waited in what was gained is linked. */
  ghost predicate Handed(w: Workspace, w': Workspace, target: UserId, lost: set<DepartmentId>,
      gained: set<DepartmentId>)
    requires target < |w.users|
  {
    exists between ::
      && Released(w.tasks, between, target, lost)
      && Linked(between, w'.tasks, w.users[target], target, gained)
  }

  /** The member's departments are set exactly as chosen and allowed. */
  lemma DepartmentsAreSet(w: Workspace, user: UserId, target: UserId, chosen: set<DepartmentId>)
    requires Inv(w) && chosen != {}
    ensures var w' := Step(w, SettingDepartments(user, target, chosen));
            if ChoiceAllowed(w, user, target, chosen)
            then && w' == w.(members := w'.members, tasks := w'.tasks)
                 && Chosen(w, w', user, target, chosen)
                 && exists lost ::
                      && (forall d :: d in lost <==> Leads(w, user, d) && (d, target) in w.members && d !in chosen)
                      && Handed(w, w', target, lost, chosen - DepartmentsOf(w, target))
            else w' == w
  {
    hide Inv, CanManage, Leads, IsHead, Managed, DepartmentsOf, Unassign, BindPending, Chosen, Handed, ChoiceAllowed,
         MaySetDepartments;
    forall d: DepartmentId
      ensures d in Managed(w, user) <==> Leads(w, user, d)
      ensures d in DepartmentsOf(w, target) <==> (d, target) in w.members
    {
      ManagersExactly(w, user, d);
      ManagersExactly(w, target, d);
    }
    ChoiceExactly(w, user, target, chosen);
    if ChoiceAllowed(w, user, target, chosen) {
      ChoiceMoves(w, user, target, chosen);
      var lost := DepartmentsOf(w, target) * Managed(w, user) - chosen;
      assert forall d :: d in lost <==> Leads(w, user, d) && (d, target) in w.members && d !in chosen;
    }
  }

  lemma ChoiceMoves(w: Workspace, user: UserId, target: UserId, chosen: set<DepartmentId>)
    requires MaySetDepartments(w, user, target, chosen) && target < |w.users| && chosen != {}
    requires forall d: DepartmentId :: d in Managed(w, user) <==> Leads(w, user, d)
    requires forall d: DepartmentId :: d in DepartmentsOf(w, target) <==> (d, target) in w.members
    ensures var w' := SetDepartments(w, user, target, chosen);
            Chosen(w, w', user, target, chosen)
            && Handed(w, w', target, DepartmentsOf(w, target) * Managed(w, user) - chosen,
                      chosen - DepartmentsOf(w, target))
  {
    hide MaySetDepartments, Leads, Managed, DepartmentsOf, Unassign, BindPending;
    var current := DepartmentsOf(w, target);
    var lost, gained := current * Managed(w, user) - chosen, chosen - current;
    var between := Unassign(w.tasks, target, lost);
    UnassignReleases(w.tasks, target, lost);
    BindLinks(between, w.users[target], target, gained);
  }

  lemma ChoiceExactly(w: Workspace, user: UserId, target: UserId, chosen: set<DepartmentId>)
    requires forall d: DepartmentId :: d in Managed(w, user) <==> Leads(w, user, d)
    requires forall d: DepartmentId :: d in DepartmentsOf(w, target) <==> (d, target) in w.members
    ensures MaySetDepartments(w, user, target, chosen) && target < |w.users| <==>
            ChoiceAllowed(w, user, target, chosen)
  {
    hide Leads, Managed, DepartmentsOf;
    var common := Managed(w, user) * DepartmentsOf(w, target);
    assert common != {} <==> exists d: DepartmentId :: Leads(w, user, d) && (d, target) in w.members by {
      if common != {} {
        var d :| d in common;
      }
      if d: DepartmentId :| Leads(w, user, d) && (d, target) in w.members {
        assert d in common;
      }
    }
  }

  lemma UnassignReleases(tasks: map<nat, Task>, user: UserId, ds: set<DepartmentId>)
    ensures Released(tasks, Unassign(tasks, user, ds), user, ds)
  {
  }

  lemma BindLinks(tasks: map<nat, Task>, email: string, user: UserId, ds: set<DepartmentId>)
    ensures Linked(tasks, BindPending(tasks, email, user, ds), email, user, ds)
  {
  }

  // ---------------------------------------------------------------------------
  // Departments and invitations
  // ---------------------------------------------------------------------------

  /** The owner of an active company adds a department; a user who registers is added once. */
  lemma DepartmentsAndUsersAreAdded(w: Workspace, user: UserId, d: DepartmentId, allowed: bool, email: string)
    requires Inv(w)
    ensures Step(w, NewDepartment(user, d, allowed)) ==
            if user == w.owner && allowed then w.(departments := w.departments + {d}) else w
    ensures Step(w, NewUser(email)) == if email in w.users then w else w.(users := w.users + [email])
  {
    assert d in w.departments ==> w.departments + {d} == w.departments;
  }

  /** An invitation that could still be accepted at `now`. */
  predicate Pends(i: Invitation, d: DepartmentId, now: int) {
    i.department == d && !i.accepted && !i.revoked && now < i.expiresAt
  }

  /** What inviting asks for: nobody who is the owner or a member there; chiefs only by a head, who alone may also
      replace an open invitation of a chief; and no second person as chief. */
  ghost predicate InvitingAllowed(w: Workspace, user: UserId, d: DepartmentId, email: string, role: Role, now: int)
    requires w.owner < |w.users|
  {
    && Leads(w, user, d) && email != w.users[w.owner]
    && (forall u: UserId | (d, u) in w.members && u < |w.users| :: w.users[u] != email)
    && (!IsHead(w, user, d) ==>
          role != Chief && forall i | i in w.invitations && Pends(i, d, now) && i.email == email :: i.role != Chief)
    && (role == Chief ==>
          forall i | i in w.invitations && Pends(i, d, now) && i.role == Chief :: i.email == email)
  }

  /** A new open invitation as asked for, which replaces the open ones of the same email there; all others stay. */
  lemma InvitationIsSent(w: Workspace, user: UserId, d: DepartmentId, email: string, role: Role, now: int,
                         allowed: bool, lasts: nat)
    requires Inv(w)
    ensures var w' := Step(w, Inviting(user, d, email, role, now, allowed, lasts));
            if allowed && InvitingAllowed(w, user, d, email, role, now)
            then var n := |w.invitations|;
                 && w' == w.(invitations := w'.invitations) && |w'.invitations| == n + 1
                 && w'.invitations[n] == Invitation(email, d, role, user, now + lasts, false, false)
                 && forall i | 0 <= i < n ::
                      w'.invitations[i] ==
                      if Pends(w.invitations[i], d, now) && w.invitations[i].email == email
                      then w.invitations[i].(revoked := true)
                      else w.invitations[i]
            else w' == w
  {
    hide StaffOk, OneChief, TasksOk, CanManage, CanAssignChief, Leads, IsHead, MembersOk;
    ManagersExactly(w, user, d);
    InvMembers(w);
    LedExists(w, user, d);
    InvitingExactly(w, user, d, email, role, now);
  }

  lemma InvMembers(w: Workspace)
    requires Inv(w)
    ensures UsersOk(w) && MembersOk(w)
  {
  }

  lemma LedExists(w: Workspace, user: UserId, d: DepartmentId)
    requires MembersOk(w)
    ensures Leads(w, user, d) ==> d in w.departments
  {
    assert (d, user) in w.members ==> (d, user).0 in w.departments;
  }

  lemma InvitingExactly(w: Workspace, user: UserId, d: DepartmentId, email: string, role: Role, now: int)
    requires w.owner < |w.users|
    requires CanManage(w, user, d) <==> Leads(w, user, d)
    requires Leads(w, user, d) ==> (CanAssignChief(w, user, d) <==> IsHead(w, user, d))
    ensures MayInvite(w, user, d, email, role, now) <==> InvitingAllowed(w, user, d, email, role, now)
  {
    hide CanManage, CanAssignChief, Leads, IsHead;
    forall u: UserId | (d, u) in w.members && u < |w.users| && w.users[u] == email
      ensures exists k | k in w.members :: k.0 == d && k.1 < |w.users| && w.users[k.1] == email
    {
      assert (d, u).1 == u;
    }
  }

  /** Rows that wait for an email in a department are deleted, and nothing else changed. */
  predicate Dropped(tasks: map<nat, Task>, tasks': map<nat, Task>, d: DepartmentId, email: string) {
    && tasks'.Keys == tasks.Keys
    && forall t | t in tasks ::
         var a, a' := tasks[t].assignees, tasks'[t].assignees;
         && tasks'[t].departments == tasks[t].departments
         && (forall k | k in a :: k in a' <==> !(k == (d, email) && a[k] == None))
         && (forall k | k in a' :: k in a && a'[k] == a[k])
  }

  /** Whoever leads the department revokes an invitation that was not accepted, a chief's only as a head; with the last
      open one of the email what waited for it there is dropped. */
  lemma InvitationIsRevoked(w: Workspace, user: UserId, i: nat, now: int)
    requires Inv(w) && i < |w.invitations|
    ensures var w', invitation := Step(w, Revoking(user, i, now)), w.invitations[i];
            var d := invitation.department;
            if Leads(w, user, d) && (invitation.role == Chief ==> IsHead(w, user, d)) && !invitation.accepted
            then && w' == w.(invitations := w.invitations[i := invitation.(revoked := true)], tasks := w'.tasks)
                 && if exists j | 0 <= j < |w.invitations| ::
                        j != i && Pends(w.invitations[j], d, now) && w.invitations[j].email == invitation.email
                    then w'.tasks == w.tasks
                    else Dropped(w.tasks, w'.tasks, d, invitation.email)
            else w' == w
  {
    hide StaffOk, OneChief, TasksOk, CanManage, CanAssignChief, Leads, IsHead, MembersOk, Forget;
    var invitation := w.invitations[i];
    var d := invitation.department;
    ManagersExactly(w, user, d);
    InvMembers(w);
    LedExists(w, user, d);
    ForgetDrops(w.tasks, d, invitation.email);
    OthersPend(w.invitations, i, d, invitation.email, now);
  }

  lemma ForgetDrops(tasks: map<nat, Task>, d: DepartmentId, email: string)
    ensures Dropped(tasks, Forget(tasks, d, email), d, email)
  {
  }

  lemma OthersPend(invitations: seq<Invitation>, i: nat, d: DepartmentId, email: string, now: int)
    requires i < |invitations|
    ensures var after := invitations[i := invitations[i].(revoked := true)];
            (exists other | other in after :: OpenFor(other, d, email, now))
            <==> exists j | 0 <= j < |invitations| ::
              j != i && Pends(invitations[j], d, now) && invitations[j].email == email
  {
    var after := invitations[i := invitations[i].(revoked := true)];
    if j :| 0 <= j < |invitations| && j != i && Pends(invitations[j], d, now) && invitations[j].email == email {
      assert after[j] in after && OpenFor(after[j], d, email, now);
    }
    if other :| other in after && OpenFor(other, d, email, now) {
      var k :| 0 <= k < |after| && after[k] == other;
      assert Pends(invitations[k], d, now);
    }
  }

  /** Who accepts: the user with the email of the invitation, or a new one. */
  function Guest(w: Workspace, email: string): (u: UserId)
    ensures u <= |w.users|
  {
    if email in w.users then UserByEmail(w.users, email).value else |w.users|
  }

  /** What accepting asks for: an open invitation whose sender still has the right to send it, and a guest who is not
      the owner and no member there. */
  predicate AcceptingAllowed(w: Workspace, i: nat, now: int)
    requires i < |w.invitations|
  {
    var invitation := w.invitations[i];
    var d, sender, guest := invitation.department, invitation.invitedBy, Guest(w, invitation.email);
    && Pends(invitation, d, now) && Leads(w, sender, d) && (invitation.role == Chief ==> IsHead(w, sender, d))
    && guest != w.owner && (d, guest) !in w.members
  }

  /** The guest becomes a user if need be, a member in the invited role and one of the workspace; a new chief makes the
      old one an administrator; what waited for the email there is linked; and nothing else changes. */
  lemma InvitationIsAccepted(w: Workspace, i: nat, now: int, allowed: bool)
    requires Inv(w) && i < |w.invitations|
    ensures var w', Invitation(email, d, role, _, _, _, _) := Step(w, Accepting(i, now, allowed)), w.invitations[i];
            if allowed && AcceptingAllowed(w, i, now)
            then var guest := Guest(w, email);
                 && w'.users == (if email in w.users then w.users else w.users + [email])
                 && w'.users[guest] == email
                 && w' == w.(users := w'.users, invitations := w.invitations[i := w.invitations[i].(accepted := true)],
                             staff := w.staff + {guest}, members := w'.members, tasks := w'.tasks)
                 && w'.members.Keys == w.members.Keys + {(d, guest)}
                 && (forall k | k in w'.members ::
                       w'.members[k] == (if k == (d, guest) then role
                                         else if role == Chief && k.0 == d && w.members[k] == Chief then Admin
                                         else w.members[k]))
                 && Linked(w.tasks, w'.tasks, email, guest, {d})
            else w' == w
  {
    hide StaffOk, OneChief, TasksOk, CanManage, CanAssignChief, Leads, IsHead, BindPending;
    var Invitation(email, d, role, sender, _, _, _) := w.invitations[i];
    ManagersExactly(w, sender, d);
    InvMembers(w);
    LedExists(w, sender, d);
    NewUserIsNoMember(w, d);
    BindLinks(w.tasks, email, Guest(w, email), {d});
  }

  lemma NewUserIsNoMember(w: Workspace, d: DepartmentId)
    requires UsersOk(w) && MembersOk(w)
    ensures (d, |w.users|) !in w.members && w.owner != |w.users|
  {
    assert (d, |w.users|) in w.members ==> (d, |w.users|).1 < |w.users|;
  }

  // ---------------------------------------------------------------------------
  // Tasks
  // ---------------------------------------------------------------------------

  /** The user is meant by this email in this department: the owner, or a member there. */
  predicate Means(w: Workspace, d: DepartmentId, email: string, user: UserId) {
    user < |w.users| && w.users[user] == email && (user == w.owner || (d, user) in w.members)
  }

  /** Somebody with this email is expected in this department: by an open invitation, or by a row that waits already. */
  ghost predicate Expected(w: Workspace, current: Assignees, d: DepartmentId, email: string, now: int) {
    || (exists i | i in w.invitations :: Pends(i, d, now) && i.email == email)
    || ((d, email) in current && current[(d, email)] == None)
  }

  /** An email is resolved to the user it means, to nobody yet if somebody is only expected, and is refused
      otherwise. */
  lemma EmailIsResolved(w: Workspace, current: Assignees, d: DepartmentId, email: string, now: int)
    requires Inv(w)
    ensures var resolved := Resolve(w, current, d, email, now);
            && (forall user: UserId :: resolved == Some(Some(user)) <==> Means(w, d, email, user))
            && (resolved == Some(None) <==>
                  (forall user: UserId :: !Means(w, d, email, user)) && Expected(w, current, d, email, now))
  {
    hide MembersOk, StaffOk, OneChief, TasksOk;
    forall user: UserId | user < |w.users| && w.users[user] == email ensures UserByEmail(w.users, email) == Some(user) {
      EmailsDiffer(w.users, user, email);
    }
    var resolved := Resolve(w, current, d, email, now);
    if resolved.Some? && resolved.value.Some? {
      assert Means(w, d, email, resolved.value.value);
    }
  }

  /** What a task's relations ask for: different rows, the department itself among theirs, other departments only for
      the owner, all of them existing, and every email resolved. */
  ghost predicate RowsAllowed(w: Workspace, user: UserId, d: DepartmentId, current: Assignees, requested: Requested,
      now: int) {
    && (forall i, j | 0 <= i < j < |requested| :: requested[i] != requested[j])
    && (exists r | r in requested :: r.0 == d)
    && (forall r | r in requested :: r.0 in w.departments && (user == w.owner || r.0 == d))
    && (forall r | r in requested ::
          (exists u: UserId :: Means(w, r.0, r.1, u)) || Expected(w, current, r.0, r.1, now))
  }

  /** Exactly the requested rows, each linked to whom its email means, or waiting. */
  ghost predicate HasRows(w: Workspace, t: Task, requested: Requested) {
    && (forall d :: d in t.departments <==> exists r | r in requested :: r.0 == d)
    && (forall r :: r in t.assignees <==> r in requested)
    && (forall r | r in requested ::
          match t.assignees[r]
          case Some(u) => Means(w, r.0, r.1, u)
          case None => forall u: UserId :: !Means(w, r.0, r.1, u))
  }

  lemma RowsExactly(w: Workspace, user: UserId, d: DepartmentId, current: Assignees, requested: Requested, now: int)
    requires Inv(w)
    ensures TaskData(w, user, d, current, requested, now).Some? <==>
            RowsAllowed(w, user, d, current, requested, now)
    ensures TaskData(w, user, d, current, requested, now).Some? ==>
              HasRows(w, TaskData(w, user, d, current, requested, now).value, requested)
  {
    hide UsersOk, MembersOk, StaffOk, OneChief, TasksOk, Resolve, Means, Expected;
    InvMembers(w);
    forall r | r in requested
      ensures Resolve(w, current, r.0, r.1, now).Some? <==>
              (exists u: UserId :: Means(w, r.0, r.1, u)) || Expected(w, current, r.0, r.1, now)
      ensures var resolved := Resolve(w, current, r.0, r.1, now);
              resolved.Some? ==>
                match resolved.value
                case Some(u) => Means(w, r.0, r.1, u)
                case None => forall u: UserId :: !Means(w, r.0, r.1, u)
    {
      ResolvedExactly(w, current, r.0, r.1, now);
    }
    DepartmentsExactly(user, w.owner, d, requested, w.departments);
  }

  lemma ResolvedExactly(w: Workspace, current: Assignees, d: DepartmentId, email: string, now: int)
    requires Inv(w)
    ensures var resolved := Resolve(w, current, d, email, now);
            && (resolved.Some? <==> (exists u: UserId :: Means(w, d, email, u)) || Expected(w, current, d, email, now))
            && (resolved.Some? && resolved.value.Some? ==> Means(w, d, email, resolved.value.value))
            && (resolved.Some? && resolved.value.None? ==> forall u: UserId :: !Means(w, d, email, u))
  {
    hide UsersOk, MembersOk, StaffOk, OneChief, TasksOk, Resolve, Means, Expected;
    InvMembers(w);
    EmailIsResolved(w, current, d, email, now);
    var resolved := Resolve(w, current, d, email, now);
    if u: UserId :| Means(w, d, email, u) {
      assert resolved == Some(Some(u));
    }
    if resolved.Some? && resolved.value.Some? {
      assert resolved == Some(Some(resolved.value.value));
    } else if resolved.Some? {
      assert resolved == Some(None);
    }
  }

  lemma DepartmentsExactly(user: UserId, owner: UserId, d: DepartmentId, requested: Requested, all: set<DepartmentId>)
    ensures d in Departments(requested) && (user == owner || Departments(requested) == {d})
              && Departments(requested) <= all
            <==>
            (exists r | r in requested :: r.0 == d)
              && forall r | r in requested :: r.0 in all && (user == owner || r.0 == d)
  {
    var ds := Departments(requested);
    assert forall r | r in requested :: r.0 in ds;
    if d in ds && forall r | r in requested :: r.0 == d {
      assert ds == {d};
    }
  }

  /** A task is created by whoever leads its department, with exactly the requested rows; a meeting's task may have
      none. */
  lemma TaskIsCreated(w: Workspace, user: UserId, d: DepartmentId, requested: Requested, meeting: bool, now: int,
                      id: nat)
    requires Inv(w)
    ensures var w' := Step(w, Creating(user, d, requested, meeting, now, id));
            if Leads(w, user, d) && id !in w.tasks && meeting && requested == []
            then w' == w.(tasks := w.tasks[id := Task({d}, map[])])
            else if Leads(w, user, d) && id !in w.tasks && RowsAllowed(w, user, d, map[], requested, now)
            then id in w'.tasks && w' == w.(tasks := w.tasks[id := w'.tasks[id]]) && HasRows(w, w'.tasks[id], requested)
            else w' == w
  {
    hide UsersOk, MembersOk, StaffOk, OneChief, TasksOk, CanManage, Leads, TaskData, HasRows, RowsAllowed;
    InvMembers(w);
    ManagersExactly(w, user, d);
    RowsExactly(w, user, d, map[], requested, now);
  }

  /** A task is edited and deleted by whoever leads one of its departments and has the rank; an edit replaces its
      rows by exactly the requested ones. */
  lemma TaskIsEdited(w: Workspace, user: UserId, d: DepartmentId, id: nat, requested: Requested, now: int,
                     allowed: bool)
    requires Inv(w)
    ensures var w' := Step(w, Updating(user, d, id, requested, now, allowed));
            if allowed && Leads(w, user, d) && id in w.tasks && d in w.tasks[id].departments
               && RowsAllowed(w, user, d, w.tasks[id].assignees, requested, now)
            then id in w'.tasks && w' == w.(tasks := w.tasks[id := w'.tasks[id]]) && HasRows(w, w'.tasks[id], requested)
            else w' == w
    ensures Step(w, Deleting(user, d, id, allowed)) ==
            if allowed && Leads(w, user, d) && id in w.tasks && d in w.tasks[id].departments
            then w.(tasks := w.tasks - {id})
            else w
  {
    hide UsersOk, MembersOk, StaffOk, OneChief, TasksOk, CanManage, Leads, TaskData, HasRows, RowsAllowed;
    InvMembers(w);
    ManagersExactly(w, user, d);
    if id in w.tasks {
      RowsExactly(w, user, d, w.tasks[id].assignees, requested, now);
    }
  }

  /** The scheduler's copy has the departments and assignees of its source. */
  lemma TaskIsRepeated(w: Workspace, source: nat, id: nat)
    requires Inv(w)
    ensures Step(w, Repeating(source, id)) ==
            if source in w.tasks && w.tasks[source].departments != {} && id !in w.tasks
            then w.(tasks := w.tasks[id := w.tasks[source]])
            else w
  {
  }
}
