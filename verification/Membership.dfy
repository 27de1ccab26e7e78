/** Projects, members and invitations: `ProjectsService` and `InvitationsService`.  Emails are already
    trimmed and lower-cased, invite tokens are fresh and name their invite, users are never deleted, and
    each handler is atomic. */
module Membership {
  import opened Common
  import opened Permissions

  type ProjectId = nat
  type UserId = nat
  type Email = nat
  type InviteToken = nat

  const INVITE_TTL_MS := 7 * 24 * 60 * 60 * 1000

  datatype Seat = Seat(projectId: ProjectId, userId: UserId)

  /** A row of `project_members`.  `via` is the invite that created it; it is book-keeping of the model. */
  datatype Member = Member(role: Role, extras: seq<Permission>, revoked: seq<Permission>, via: Option<InviteToken>)

  /** A row of `project_invites`.  `issuer`, who created it, is book-keeping of the model. */
  datatype Invite = Invite(projectId: ProjectId, email: Email, role: Role, extras: seq<Permission>,
                           revoked: seq<Permission>, expiresAt: int, acceptedAt: Option<int>, issuer: UserId)

  datatype Db = Db(emails: map<UserId, Email>, projects: map<ProjectId, UserId>,
                   members: map<Seat, Member>, invites: map<InviteToken, Invite>)

  datatype Reply = Ok | Forbidden | NotFound | BadRequest | Conflict

  datatype Answer = Answer(db: Db, reply: Reply)

  // ---------------------------------------------------------------- handlers as functions

  /** `assertPermission` passes. */
  predicate May(db: Db, p: ProjectId, u: UserId, permission: Permission) {
    && Seat(p, u) in db.members
    && (var m := db.members[Seat(p, u)]; Holds(m.role, m.extras, m.revoked, permission))
  }

  function ProjectCreated(db: Db, p: ProjectId, owner: UserId): Db {
    db.(projects := db.projects[p := owner], members := db.members[Seat(p, owner) := Member(OWNER, [], [], None)])
  }

  function ProjectDeleted(db: Db, p: ProjectId, actor: UserId): Answer {
    if !May(db, p, actor, PROJECT_DELETE) then Answer(db, Forbidden)
    else Answer(db.(projects := db.projects - {p},
                    members := map s | s in db.members && s.projectId != p :: db.members[s],
                    invites := map t | t in db.invites && db.invites[t].projectId != p :: db.invites[t]), Ok)
  }

  function MemberRemoved(db: Db, p: ProjectId, target: UserId, actor: UserId): Answer {
    if !May(db, p, actor, MEMBERS_REMOVE) || target == actor then Answer(db, Forbidden)
    else if Seat(p, target) !in db.members then Answer(db, NotFound)
    else if db.members[Seat(p, target)].role == OWNER then Answer(db, Forbidden)
    else Answer(db.(members := db.members - {Seat(p, target)}), Ok)
  }

  /** Overrides left out of the request are replaced by empty ones. */
  function MemberUpdated(db: Db, p: ProjectId, target: UserId, actor: UserId, role: Option<Role>,
                         extras: seq<Permission>, revoked: seq<Permission>): Answer {
    if !May(db, p, actor, MEMBERS_INVITE) then Answer(db, Forbidden)
    else if Seat(p, target) !in db.members then Answer(db, NotFound)
    else
      var m := db.members[Seat(p, target)];
      if m.role == OWNER then Answer(db, Forbidden)
      else
        var newRole := if role.Some? then role.value else m.role;
        if newRole == OWNER || !ValidOverrides(newRole, extras, revoked) then Answer(db, BadRequest)
        else Answer(db.(members := db.members[Seat(p, target) := Member(newRole, extras, revoked, m.via)]), Ok)
  }

  predicate Pending(db: Db, p: ProjectId, email: Email) {
    exists t | t in db.invites ::
      db.invites[t].projectId == p && db.invites[t].email == email && db.invites[t].acceptedAt.None?
  }

  predicate SeatedEmail(db: Db, p: ProjectId, email: Email) {
    exists s | s in db.members :: s.projectId == p && s.userId in db.emails && db.emails[s.userId] == email
  }

  function Invited(db: Db, p: ProjectId, actor: UserId, email: Email, role: Role, extras: seq<Permission>,
                   revoked: seq<Permission>, now: int, token: InviteToken): Answer {
    if !May(db, p, actor, MEMBERS_INVITE) then Answer(db, Forbidden)
    else if role == OWNER || !ValidOverrides(role, extras, revoked) then Answer(db, BadRequest)
    else if Pending(db, p, email) || SeatedEmail(db, p, email) then Answer(db, Conflict)
    else Answer(db.(invites :=
      db.invites[token := Invite(p, email, role, extras, revoked, now + INVITE_TTL_MS, None, actor)]), Ok)
  }

  function InviteRevoked(db: Db, p: ProjectId, actor: UserId, token: InviteToken): Answer {
    if !May(db, p, actor, MEMBERS_INVITE) then Answer(db, Forbidden)
    else if token !in db.invites || db.invites[token].projectId != p || db.invites[token].acceptedAt.Some? then
      Answer(db, NotFound)
    else Answer(db.(invites := db.invites - {token}), Ok)
  }

  /** `addMember`: `onConflictDoNothing` leaves an existing member alone. */
  function MemberAdded(db: Db, p: ProjectId, u: UserId, role: Role, extras: seq<Permission>, revoked: seq<Permission>,
                       via: InviteToken): Answer {
    if role == OWNER || !ValidOverrides(role, extras, revoked) then Answer(db, BadRequest)
    else if Seat(p, u) in db.members then Answer(db, Ok)
    else Answer(db.(members := db.members[Seat(p, u) := Member(role, extras, revoked, Some(via))]), Ok)
  }

  predicate LiveInvite(db: Db, token: InviteToken, now: int) {
    token in db.invites && db.invites[token].acceptedAt.None? && now < db.invites[token].expiresAt
  }

  function InviteAccepted(db: Db, actor: UserId, token: InviteToken, now: int): Answer {
    if !LiveInvite(db, token, now) || actor !in db.emails then Answer(db, NotFound)
    else
      var i := db.invites[token];
      if db.emails[actor] != i.email then Answer(db, Forbidden)
      else
        var added := MemberAdded(db, i.projectId, actor, i.role, i.extras, i.revoked, token);
        if added.reply != Ok then added
        else Answer(added.db.(invites := added.db.invites[token := i.(acceptedAt := Some(now))]), Ok)
  }

  // ---------------------------------------------------------------- the services

  class ProjectService {
    const emails: map<UserId, Email>
    var projects: map<ProjectId, UserId>
    var members: map<Seat, Member>
    var invites: map<InviteToken, Invite>

    function View(): Db
      reads this
    {
      Db(emails, projects, members, invites)
    }

    constructor (emails: map<UserId, Email>)
      ensures View() == Db(emails, map[], map[], map[])
    {
      this.emails := emails;
      projects, members, invites := map[], map[], map[];
    }

    method CreateProject(p: ProjectId, owner: UserId)
      requires p !in projects
      modifies this
      ensures View() == ProjectCreated(old(View()), p, owner)
    {
      projects := projects[p := owner];
      members := members[Seat(p, owner) := Member(OWNER, [], [], None)];
    }

    method AssertPermission(p: ProjectId, u: UserId, permission: Permission) returns (granted: bool)
      ensures granted == May(View(), p, u, permission)
    {
      if Seat(p, u) !in members {
        return false;
      }
      var m := members[Seat(p, u)];
      var held := ComputeEffectivePermissions(m.role, m.extras, m.revoked);
      EffectiveExact(m.role, m.extras, m.revoked, permission);
      granted := permission in held;
    }

    /** The members and invites of the project go with its row. */
    method DeleteProject(p: ProjectId, actor: UserId) returns (reply: Reply)
      modifies this
      ensures Answer(View(), reply) == ProjectDeleted(old(View()), p, actor)
    {
      var granted := AssertPermission(p, actor, PROJECT_DELETE);
      if !granted {
        return Forbidden;
      }
      projects := projects - {p};
      members := map s | s in members && s.projectId != p :: members[s];
      invites := map t | t in invites && invites[t].projectId != p :: invites[t];
      reply := Ok;
    }

    method RemoveMember(p: ProjectId, target: UserId, actor: UserId) returns (reply: Reply)
      modifies this
      ensures Answer(View(), reply) == MemberRemoved(old(View()), p, target, actor)
    {
      var granted := AssertPermission(p, actor, MEMBERS_REMOVE);
      if !granted || target == actor {
        return Forbidden;
      }
      if Seat(p, target) !in members {
        return NotFound;
      }
      if members[Seat(p, target)].role == OWNER {
        return Forbidden;
      }
      members := members - {Seat(p, target)};
      reply := Ok;
    }

    method UpdateMemberPermissions(p: ProjectId, target: UserId, actor: UserId, role: Option<Role>,
                                   extras: seq<Permission>, revoked: seq<Permission>) returns (reply: Reply)
      modifies this
      ensures Answer(View(), reply) == MemberUpdated(old(View()), p, target, actor, role, extras, revoked)
    {
      var granted := AssertPermission(p, actor, MEMBERS_INVITE);
      if !granted {
        return Forbidden;
      }
      if Seat(p, target) !in members {
        return NotFound;
      }
      var m := members[Seat(p, target)];
      if m.role == OWNER {
        return Forbidden;
      }
      var newRole := if role.Some? then role.value else m.role;
      if newRole == OWNER {
        return BadRequest;
      }
      var validation := ValidateOverrides(newRole, extras, revoked);
      if !validation.Valid? {
        return BadRequest;
      }
      members := members[Seat(p, target) := Member(newRole, extras, revoked, m.via)];
      reply := Ok;
    }

    method CreateInvite(p: ProjectId, actor: UserId, email: Email, role: Role, extras: seq<Permission>,
                        revoked: seq<Permission>, now: int, token: InviteToken) returns (reply: Reply)
      requires token !in invites
      modifies this
      ensures Answer(View(), reply) == Invited(old(View()), p, actor, email, role, extras, revoked, now, token)
    {
      var granted := AssertPermission(p, actor, MEMBERS_INVITE);
      if !granted {
        return Forbidden;
      }
      if role == OWNER {
        return BadRequest;
      }
      var validation := ValidateOverrides(role, extras, revoked);
      if !validation.Valid? {
        return BadRequest;
      }
      if Pending(View(), p, email) || SeatedEmail(View(), p, email) {
        return Conflict;
      }
      invites := invites[token := Invite(p, email, role, extras, revoked, now + INVITE_TTL_MS, None, actor)];
      reply := Ok;
    }

    method RevokeInvite(p: ProjectId, actor: UserId, token: InviteToken) returns (reply: Reply)
      modifies this
      ensures Answer(View(), reply) == InviteRevoked(old(View()), p, actor, token)
    {
      var granted := AssertPermission(p, actor, MEMBERS_INVITE);
      if !granted {
        return Forbidden;
      }
      if token !in invites || invites[token].projectId != p || invites[token].acceptedAt.Some? {
        return NotFound;
      }
      invites := invites - {token};
      reply := Ok;
    }

    method AddMember(p: ProjectId, u: UserId, role: Role, extras: seq<Permission>, revoked: seq<Permission>,
                     via: InviteToken) returns (reply: Reply)
      modifies this
      ensures Answer(View(), reply) == MemberAdded(old(View()), p, u, role, extras, revoked, via)
    {
      if role == OWNER {
        return BadRequest;
      }
      var validation := ValidateOverrides(role, extras, revoked);
      if !validation.Valid? {
        return BadRequest;
      }
      if Seat(p, u) !in members {
        members := members[Seat(p, u) := Member(role, extras, revoked, Some(via))];
      }
      reply := Ok;
    }

    method AcceptInvite(actor: UserId, token: InviteToken, now: int) returns (reply: Reply)
      modifies this
      ensures Answer(View(), reply) == InviteAccepted(old(View()), actor, token, now)
    {
      if token !in invites || invites[token].acceptedAt.Some? || invites[token].expiresAt <= now {
        return NotFound;
      }
      var i := invites[token];
      if actor !in emails {
        return NotFound;
      }
      if emails[actor] != i.email {
        return Forbidden;
      }
      reply := AddMember(i.projectId, actor, i.role, i.extras, i.revoked, token);
      if reply == Ok {
        invites := invites[token := i.(acceptedAt := Some(now))];
      }
    }
  }

  // ---------------------------------------------------------------- runs

  datatype Event =
    | CreateProject(p: ProjectId, owner: UserId)
    | DeleteProject(p: ProjectId, actor: UserId)
    | RemoveMember(p: ProjectId, target: UserId, actor: UserId)
    | UpdateMember(p: ProjectId, target: UserId, actor: UserId, role: Option<Role>, extras: seq<Permission>,
                   revoked: seq<Permission>)
    | CreateInvite(p: ProjectId, actor: UserId, email: Email, inviteRole: Role, extras: seq<Permission>,
                   revoked: seq<Permission>, now: int, token: InviteToken)
    | RevokeInvite(p: ProjectId, actor: UserId, token: InviteToken)
    | AcceptInvite(actor: UserId, token: InviteToken, now: int)

  predicate Fresh(db: Db, e: Event) {
    && (e.CreateProject? ==> e.p !in db.projects && e.owner in db.emails)
    && (e.CreateInvite? ==> e.token !in db.invites)
  }

  function Handle(db: Db, e: Event): Answer {
    match e
    case CreateProject(p, owner) => Answer(ProjectCreated(db, p, owner), Ok)
    case DeleteProject(p, actor) => ProjectDeleted(db, p, actor)
    case RemoveMember(p, target, actor) => MemberRemoved(db, p, target, actor)
    case UpdateMember(p, target, actor, role, extras, revoked) =>
      MemberUpdated(db, p, target, actor, role, extras, revoked)
    case CreateInvite(p, actor, email, role, extras, revoked, now, token) =>
      Invited(db, p, actor, email, role, extras, revoked, now, token)
    case RevokeInvite(p, actor, token) => InviteRevoked(db, p, actor, token)
    case AcceptInvite(actor, token, now) => InviteAccepted(db, actor, token, now)
  }

  predicate Legal(db: Db, run: seq<Event>)
    decreases |run|
  {
    run == [] || (Fresh(db, run[0]) && Legal(Handle(db, run[0]).db, run[1..]))
  }

  function After(db: Db, run: seq<Event>): Db
    decreases |run|
  {
    if run == [] then db else After(Handle(db, run[0]).db, run[1..])
  }

  // ---------------------------------------------------------------- the membership invariant

  predicate SeatOk(db: Db, s: Seat, m: Member) {
    && s.projectId in db.projects && s.userId in db.emails
    && (m.role == OWNER <==> s.userId == db.projects[s.projectId])
    && ValidOverrides(m.role, m.extras, m.revoked)
    && (m.role != OWNER ==>
          && m.via.Some? && m.via.value in db.invites
          && (var i := db.invites[m.via.value];
              i.projectId == s.projectId && i.email == db.emails[s.userId] && i.acceptedAt.Some?))
  }

  predicate InviteOk(db: Db, i: Invite) {
    && i.projectId in db.projects && i.issuer == db.projects[i.projectId]
    && i.role != OWNER && ValidOverrides(i.role, i.extras, i.revoked)
  }

  /** Each project has exactly one OWNER, its creator; every stored override is valid; every other member
      came through an accepted invite to their own email; every invite was issued by the owner. */
  predicate Sound(db: Db) {
    && (forall p | p in db.projects :: Seat(p, db.projects[p]) in db.members)
    && (forall s | s in db.members :: SeatOk(db, s, db.members[s]))
    && (forall t | t in db.invites :: InviteOk(db, db.invites[t]))
  }

  /** Only the owner passes a check for an owner-exclusive permission. */
  lemma OnlyOwnersMay(db: Db, p: ProjectId, u: UserId, permission: Permission)
    requires Sound(db) && IsOwnerExclusive(permission)
    ensures May(db, p, u, permission) <==> p in db.projects && db.projects[p] == u
  {
    if Seat(p, u) in db.members {
      var m := db.members[Seat(p, u)];
      assert SeatOk(db, Seat(p, u), m);
      ExclusiveStaysWithOwners(m.role, m.extras, m.revoked, permission);
    }
  }

  lemma CreateKeepsSound(db: Db, p: ProjectId, owner: UserId)
    requires Sound(db) && p !in db.projects && owner in db.emails
    ensures Sound(ProjectCreated(db, p, owner))
  {
    var after := ProjectCreated(db, p, owner);
    forall s | s in after.members
      ensures SeatOk(after, s, after.members[s])
    {
      assert s in db.members ==> SeatOk(db, s, db.members[s]);
    }
    forall t | t in after.invites
      ensures InviteOk(after, after.invites[t])
    {
      assert InviteOk(db, db.invites[t]);
    }
  }

  lemma DeleteKeepsSound(db: Db, p: ProjectId, actor: UserId)
    requires Sound(db)
    ensures Sound(ProjectDeleted(db, p, actor).db)
  {
    var after := ProjectDeleted(db, p, actor).db;
    forall s | s in after.members
      ensures SeatOk(after, s, after.members[s])
    {
      assert SeatOk(db, s, db.members[s]);
    }
    forall t | t in after.invites
      ensures InviteOk(after, after.invites[t])
    {
      assert InviteOk(db, db.invites[t]);
    }
  }

  lemma MembersKeepSound(db: Db, members: map<Seat, Member>)
    requires Sound(db)
    requires forall p | p in db.projects :: Seat(p, db.projects[p]) in members
    requires forall s | s in members :: SeatOk(db, s, members[s])
    ensures Sound(db.(members := members))
  {
    var after := db.(members := members);
    forall s | s in after.members
      ensures SeatOk(after, s, after.members[s])
    {
      assert SeatOk(db, s, members[s]);
    }
    forall t | t in after.invites
      ensures InviteOk(after, after.invites[t])
    {
      assert InviteOk(db, db.invites[t]);
    }
  }

  lemma RemoveKeepsSound(db: Db, p: ProjectId, target: UserId, actor: UserId)
    requires Sound(db)
    ensures Sound(MemberRemoved(db, p, target, actor).db)
  {
    var after := MemberRemoved(db, p, target, actor).db;
    forall q | q in db.projects
      ensures Seat(q, db.projects[q]) in after.members
    {
      assert SeatOk(db, Seat(q, db.projects[q]), db.members[Seat(q, db.projects[q])]);
    }
    MembersKeepSound(db, after.members);
  }

  lemma UpdateKeepsSound(db: Db, e: Event)
    requires Sound(db) && e.UpdateMember?
    ensures Sound(Handle(db, e).db)
  {
    MembersKeepSound(db, Handle(db, e).db.members);
  }

  /** Accepting an invite leaves its acceptance date set, so the seats that came through it stay explained. */
  lemma InvitesKeepSound(db: Db, invites: map<InviteToken, Invite>)
    requires Sound(db)
    requires forall t | t in db.invites && db.invites[t].acceptedAt.Some? ::
               t in invites && invites[t].acceptedAt.Some?
               && invites[t].projectId == db.invites[t].projectId && invites[t].email == db.invites[t].email
    requires forall t | t in invites :: InviteOk(db, invites[t])
    ensures Sound(db.(invites := invites))
  {
    var after := db.(invites := invites);
    forall s | s in after.members
      ensures SeatOk(after, s, after.members[s])
    {
      assert SeatOk(db, s, db.members[s]);
    }
    forall t | t in after.invites
      ensures InviteOk(after, after.invites[t])
    {
      assert InviteOk(db, invites[t]);
    }
  }

  lemma InviteKeepsSound(db: Db, e: Event)
    requires Sound(db) && e.CreateInvite? && Fresh(db, e)
    ensures Sound(Handle(db, e).db)
  {
    OnlyOwnersMay(db, e.p, e.actor, MEMBERS_INVITE);
    InvitesKeepSound(db, Handle(db, e).db.invites);
  }

  lemma RevokeKeepsSound(db: Db, e: Event)
    requires Sound(db) && e.RevokeInvite?
    ensures Sound(Handle(db, e).db)
  {
    InvitesKeepSound(db, Handle(db, e).db.invites);
  }

  lemma AcceptedInviteKeepsSound(db: Db, token: InviteToken, now: int)
    requires Sound(db) && token in db.invites && db.invites[token].acceptedAt.None?
    ensures Sound(db.(invites := db.invites[token := db.invites[token].(acceptedAt := Some(now))]))
  {
    InvitesKeepSound(db, db.invites[token := db.invites[token].(acceptedAt := Some(now))]);
  }

  lemma SeatThroughInviteKeepsSound(db: Db, token: InviteToken, u: UserId)
    requires Sound(db) && token in db.invites && db.invites[token].acceptedAt.Some?
    requires u in db.emails && db.emails[u] == db.invites[token].email
    requires Seat(db.invites[token].projectId, u) !in db.members
    ensures var i := db.invites[token];
            Sound(db.(members := db.members[Seat(i.projectId, u) := Member(i.role, i.extras, i.revoked, Some(token))]))
  {
    var i := db.invites[token];
    assert InviteOk(db, i);
    assert SeatOk(db, Seat(i.projectId, u), Member(i.role, i.extras, i.revoked, Some(token)));
    MembersKeepSound(db, db.members[Seat(i.projectId, u) := Member(i.role, i.extras, i.revoked, Some(token))]);
  }

  lemma AcceptKeepsSound(db: Db, actor: UserId, token: InviteToken, now: int)
    requires Sound(db)
    ensures Sound(InviteAccepted(db, actor, token, now).db)
  {
    if LiveInvite(db, token, now) && actor in db.emails && db.emails[actor] == db.invites[token].email {
      AcceptedInviteKeepsSound(db, token, now);
      var accepted := db.(invites := db.invites[token := db.invites[token].(acceptedAt := Some(now))]);
      if Seat(db.invites[token].projectId, actor) !in db.members {
        SeatThroughInviteKeepsSound(accepted, token, actor);
      }
    }
  }

  lemma HandleKeepsSound(db: Db, e: Event)
    requires Sound(db) && Fresh(db, e)
    ensures Sound(Handle(db, e).db)
  {
    match e
    case CreateProject(p, owner) => CreateKeepsSound(db, p, owner);
    case DeleteProject(p, actor) => DeleteKeepsSound(db, p, actor);
    case RemoveMember(p, target, actor) => RemoveKeepsSound(db, p, target, actor);
    case UpdateMember(_, _, _, _, _, _) => UpdateKeepsSound(db, e);
    case CreateInvite(_, _, _, _, _, _, _, _) => InviteKeepsSound(db, e);
    case RevokeInvite(_, _, _) => RevokeKeepsSound(db, e);
    case AcceptInvite(actor, token, now) => AcceptKeepsSound(db, actor, token, now);
  }

  lemma {:induction false} RunKeepsSound(db: Db, run: seq<Event>)
    requires Sound(db) && Legal(db, run)
    ensures Sound(After(db, run))
    decreases |run|
  {
    if run != [] {
      HandleKeepsSound(db, run[0]);
      RunKeepsSound(Handle(db, run[0]).db, run[1..]);
    }
  }

  /** Over every run from an empty database the membership invariant holds, owners keep every permission
      and nobody else holds an owner-exclusive one. */
  lemma MembershipInvariant(emails: map<UserId, Email>, run: seq<Event>, p: ProjectId, u: UserId,
                            permission: Permission)
    requires Legal(Db(emails, map[], map[], map[]), run)
    ensures var db := After(Db(emails, map[], map[], map[]), run);
            && Sound(db)
            && (p in db.projects && db.projects[p] == u && !permission.Other? ==> May(db, p, u, permission))
            && (IsOwnerExclusive(permission) && May(db, p, u, permission) ==> p in db.projects && db.projects[p] == u)
  {
    RunKeepsSound(Db(emails, map[], map[], map[]), run);
    var db := After(Db(emails, map[], map[], map[]), run);
    if IsOwnerExclusive(permission) {
      OnlyOwnersMay(db, p, u, permission);
    }
    if p in db.projects && db.projects[p] == u && !permission.Other? {
      OwnerHoldsAll(db, p, permission);
    }
  }

  /** Nobody but the owner can delete the project, invite, revoke an invite, remove or change a member: for
      any other actor those handlers refuse and change nothing. */
  lemma OthersChangeNothing(db: Db, e: Event)
    requires Sound(db) && !e.CreateProject? && !e.AcceptInvite?
    requires e.p !in db.projects || db.projects[e.p] != e.actor
    ensures Handle(db, e) == Answer(db, Forbidden)
  {
    OnlyOwnersMay(db, e.p, e.actor, PROJECT_DELETE);
    OnlyOwnersMay(db, e.p, e.actor, MEMBERS_INVITE);
    OnlyOwnersMay(db, e.p, e.actor, MEMBERS_REMOVE);
  }

  lemma ProjectsOnlyDeleted(db: Db, e: Event, p: ProjectId)
    requires Fresh(db, e) && p in db.projects && !(e.DeleteProject? && e.p == p)
    ensures p in Handle(db, e).db.projects && Handle(db, e).db.projects[p] == db.projects[p]
  {
  }

  /** The creator stays the owner, with every permission, under every handler but the deletion of the
      project. */
  lemma OwnerIsPermanent(db: Db, e: Event, p: ProjectId, permission: Permission)
    requires Sound(db) && Fresh(db, e) && p in db.projects && !permission.Other?
    requires !(e.DeleteProject? && e.p == p)
    ensures May(Handle(db, e).db, p, db.projects[p], permission)
  {
    HandleKeepsSound(db, e);
    ProjectsOnlyDeleted(db, e, p);
    OwnerHoldsAll(Handle(db, e).db, p, permission);
  }

  lemma OwnerHoldsAll(db: Db, p: ProjectId, permission: Permission)
    requires Sound(db) && p in db.projects && !permission.Other?
    ensures May(db, p, db.projects[p], permission)
  {
    assert SeatOk(db, Seat(p, db.projects[p]), db.members[Seat(p, db.projects[p])]);
  }

  /** Accepting one's own live invite always succeeds, seats the user exactly as invited, and never alters
      somebody who is already a member. */
  lemma AcceptNeverFailsNorOverwrites(db: Db, actor: UserId, token: InviteToken, now: int)
    requires Sound(db) && LiveInvite(db, token, now)
    requires actor in db.emails && db.emails[actor] == db.invites[token].email
    ensures var (i, a) := (db.invites[token], InviteAccepted(db, actor, token, now));
            && a.reply == Ok
            && (forall s | s in db.members :: s in a.db.members && a.db.members[s] == db.members[s])
            && (Seat(i.projectId, actor) !in db.members ==>
                  a.db.members == db.members[Seat(i.projectId, actor) :=
                    Member(i.role, i.extras, i.revoked, Some(token))])
            && !LiveInvite(a.db, token, now)
  {
    assert InviteOk(db, db.invites[token]);
  }

  // ---------------------------------------------------------------- what each handler does

  predicate Owns(db: Db, p: ProjectId, u: UserId) {
    p in db.projects && db.projects[p] == u
  }

  /** A refusal changes nothing. */
  lemma RefusalsChangeNothing(db: Db, e: Event)
    ensures Handle(db, e).reply != Ok ==> Handle(db, e).db == db
  {
  }

  /** The creator of a project gets it and one seat, the owner's, without overrides. */
  lemma CreationSeatsTheOwner(db: Db, p: ProjectId, owner: UserId)
    ensures var after := Handle(db, CreateProject(p, owner)).db;
            && Owns(after, p, owner) && after.projects.Keys == db.projects.Keys + {p}
            && after.members.Keys == db.members.Keys + {Seat(p, owner)}
            && after.members[Seat(p, owner)].role == OWNER
            && after.members[Seat(p, owner)].extras == after.members[Seat(p, owner)].revoked == []
            && (forall q | q in db.projects && q != p :: after.projects[q] == db.projects[q])
            && (forall s | s in db.members && s != Seat(p, owner) :: after.members[s] == db.members[s])
            && after.invites == db.invites
  {
  }

  /** The owner alone deletes a project; its seats and invites go with it and those of other projects stay. */
  lemma DeletionWorksIff(db: Db, p: ProjectId, actor: UserId)
    requires Sound(db)
    ensures var (a, after) := (Handle(db, DeleteProject(p, actor)), Handle(db, DeleteProject(p, actor)).db);
            && (a.reply == Ok <==> Owns(db, p, actor))
            && (a.reply == Ok ==>
                  && p !in after.projects
                  && (forall s | s in db.members :: s in after.members <==> s.projectId != p)
                  && (forall s | s in after.members :: s in db.members && after.members[s] == db.members[s])
                  && (forall t | t in db.invites :: t in after.invites <==> db.invites[t].projectId != p)
                  && (forall t | t in after.invites :: t in db.invites && after.invites[t] == db.invites[t])
                  && (forall q | q in db.projects && q != p ::
                        q in after.projects && after.projects[q] == db.projects[q]))
  {
    OnlyOwnersMay(db, p, actor, PROJECT_DELETE);
  }

  /** The owner can remove every member but themselves: exactly that seat goes. */
  lemma RemovalWorksIff(db: Db, p: ProjectId, target: UserId, actor: UserId)
    requires Sound(db)
    ensures var a := Handle(db, RemoveMember(p, target, actor));
            var after := a.db;
            && (a.reply == Ok <==> Owns(db, p, actor) && target != actor && Seat(p, target) in db.members)
            && (a.reply == Ok ==>
                  && Seat(p, target) !in after.members
                  && (forall s | s != Seat(p, target) ::
                        (s in after.members <==> s in db.members)
                        && (s in db.members ==> after.members[s] == db.members[s]))
                  && after.projects == db.projects && after.invites == db.invites && after.emails == db.emails)
  {
    OnlyOwnersMay(db, p, actor, MEMBERS_REMOVE);
    if Seat(p, target) in db.members {
      assert SeatOk(db, Seat(p, target), db.members[Seat(p, target)]);
    }
  }

  /** The owner can change the role and overrides of every other member, but not to OWNER and not to overrides the
      role does not allow; a request without a role keeps the role. */
  lemma UpdateWorksIff(db: Db, e: Event)
    requires Sound(db) && e.UpdateMember?
    ensures var (a, after, seat) := (Handle(db, e), Handle(db, e).db, Seat(e.p, e.target));
            && (a.reply == Ok <==>
                  && Owns(db, e.p, e.actor) && e.target != e.actor && seat in db.members && e.role != Some(OWNER)
                  && ValidOverrides(if e.role.Some? then e.role.value else db.members[seat].role, e.extras, e.revoked))
            && (a.reply == Ok ==>
                  && after.members.Keys == db.members.Keys
                  && after.members[seat].role == (if e.role.Some? then e.role.value else db.members[seat].role)
                  && after.members[seat].extras == e.extras && after.members[seat].revoked == e.revoked
                  && (forall s | s in db.members && s != seat :: after.members[s] == db.members[s])
                  && after.projects == db.projects && after.invites == db.invites && after.emails == db.emails)
  {
    OnlyOwnersMay(db, e.p, e.actor, MEMBERS_INVITE);
    if Seat(e.p, e.target) in db.members {
      assert SeatOk(db, Seat(e.p, e.target), db.members[Seat(e.p, e.target)]);
    }
  }

  /** The owner can invite an address that has neither a pending invite nor a seat in the project; the invite carries
      what was asked for and is live for exactly seven days. */
  lemma InvitationWorksIff(db: Db, e: Event, at: int)
    requires Sound(db) && e.CreateInvite? && Fresh(db, e)
    ensures var (a, after) := (Handle(db, e), Handle(db, e).db);
            && (a.reply == Ok <==>
                  && Owns(db, e.p, e.actor) && e.inviteRole != OWNER
                  && ValidOverrides(e.inviteRole, e.extras, e.revoked)
                  && (forall t | t in db.invites ::
                        !(db.invites[t].projectId == e.p && db.invites[t].email == e.email
                          && db.invites[t].acceptedAt.None?))
                  && (forall s | s in db.members && s.projectId == e.p :: db.emails[s.userId] != e.email))
            && (a.reply == Ok ==>
                  && after.invites.Keys == db.invites.Keys + {e.token}
                  && (forall t | t in db.invites :: after.invites[t] == db.invites[t])
                  && (var i := after.invites[e.token];
                      i.projectId == e.p && i.email == e.email && i.role == e.inviteRole
                      && i.extras == e.extras && i.revoked == e.revoked)
                  && (LiveInvite(after, e.token, at) <==> at < e.now + 604_800_000)
                  && after.projects == db.projects && after.members == db.members && after.emails == db.emails)
  {
    OnlyOwnersMay(db, e.p, e.actor, MEMBERS_INVITE);
    forall s | s in db.members
      ensures s.userId in db.emails
    {
      assert SeatOk(db, s, db.members[s]);
    }
  }

  /** The owner can revoke the project's own invites until they are accepted: exactly that invite goes. */
  lemma RevocationWorksIff(db: Db, p: ProjectId, actor: UserId, token: InviteToken)
    requires Sound(db)
    ensures var (a, after) := (Handle(db, RevokeInvite(p, actor, token)), Handle(db, RevokeInvite(p, actor, token)).db);
            && (a.reply == Ok <==>
                  && Owns(db, p, actor) && token in db.invites && db.invites[token].projectId == p
                  && db.invites[token].acceptedAt.None?)
            && (a.reply == Ok ==>
                  && after.invites.Keys == db.invites.Keys - {token}
                  && (forall t | t in after.invites :: after.invites[t] == db.invites[t])
                  && after.projects == db.projects && after.members == db.members && after.emails == db.emails)
  {
    OnlyOwnersMay(db, p, actor, MEMBERS_INVITE);
  }

  /** An invite can be accepted exactly while it is live and by a user with its address. */
  lemma AcceptanceWorksIff(db: Db, actor: UserId, token: InviteToken, now: int)
    requires Sound(db)
    ensures Handle(db, AcceptInvite(actor, token, now)).reply == Ok <==>
            && token in db.invites && db.invites[token].acceptedAt.None? && now < db.invites[token].expiresAt
            && actor in db.emails && db.emails[actor] == db.invites[token].email
  {
    if token in db.invites {
      assert InviteOk(db, db.invites[token]);
    }
  }

  /** It is then spent and dated, its user has a seat, and no other invite, seat or project changes. */
  lemma AcceptanceSpendsOneInvite(db: Db, actor: UserId, token: InviteToken, now: int)
    requires Sound(db) && Handle(db, AcceptInvite(actor, token, now)).reply == Ok
    ensures token in db.invites
    ensures var (i, after) := (db.invites[token], Handle(db, AcceptInvite(actor, token, now)).db);
            && after.members.Keys == db.members.Keys + {Seat(i.projectId, actor)}
            && after.invites.Keys == db.invites.Keys
            && after.invites[token] == i.(acceptedAt := Some(now))
            && (forall t | t in db.invites && t != token :: after.invites[t] == db.invites[t])
            && after.projects == db.projects && after.emails == db.emails
  {
  }

  /** Adding a member is refused exactly for the OWNER role or overrides the role does not allow; otherwise the user
      has a seat, as asked for unless there was one, and no other seat changes. */
  lemma AddingWorksIff(db: Db, p: ProjectId, u: UserId, role: Role, extras: seq<Permission>, revoked: seq<Permission>,
                       via: InviteToken)
    ensures var (a, seat) := (MemberAdded(db, p, u, role, extras, revoked, via), Seat(p, u));
            && (a.reply == BadRequest <==> role == OWNER || !ValidOverrides(role, extras, revoked))
            && (a.reply == BadRequest ==> a.db == db)
            && (a.reply != BadRequest ==>
                  && a.reply == Ok && seat in a.db.members && a.db == db.(members := a.db.members)
                  && (forall s | s != seat || s in db.members ::
                        (s in a.db.members <==> s in db.members)
                        && (s in db.members ==> a.db.members[s] == db.members[s]))
                  && (seat !in db.members ==>
                        var m := a.db.members[seat]; m.role == role && m.extras == extras && m.revoked == revoked))
  {
  }
}
