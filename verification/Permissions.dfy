/** Who may do what: the precedence rule as one function, and the three SQL predicates that spell it out over the
    authorisation tables. A predicate is true here when the SQL yields TRUE; NULL authorises nothing. */
module Permissions {
  import opened Support

  datatype Effect = Grant | Deny

  /** resolveEffectivePermission */
  function Resolve(roleDefault: bool, activeOverride: Option<Effect>): bool {
    if activeOverride == Some(Deny) then false
    else if activeOverride == Some(Grant) then true
    else roleDefault
  }

  // ---- the tables -----------------------------------------------------------------------------------

  datatype User = User(id: Id, active: bool, emailVerifiedAt: Option<Time>)
  datatype Session = Session(
    id: Id, user: Id, org: Org, member: Id, active: bool, expiresAt: Time, lastActivityAt: Time, mfaVerifiedAt: Option<Time>)
  datatype Factor = Factor(user: Id, active: bool)
  datatype Organization = Organization(id: Org, active: bool, owner: Id)
  datatype Membership = Membership(id: Id, org: Org, user: Id, role: Id, active: bool)
  datatype Account = Account(id: Id, org: Org, active: bool)
  datatype Entity = Entity(id: Id, org: Org, account: Id, active: bool)
  datatype Assignment = Assignment(org: Org, member: Id, account: Id, active: bool)
  datatype Permission = Permission(id: Id, key: string, active: bool)
  datatype Override = Override(id: Id, org: Org, member: Id, permission: Id, effect: Effect, revokedAt: Option<Time>)
  datatype RolePermission = RolePermission(role: Id, permission: Id, enabled: bool, validFrom: Option<Time>, validUntil: Option<Time>)
  datatype SatJob = SatJob(id: Id, org: Org, account: Id, entity: Id, user: Id, member: Id,
                           terminalAt: Option<Time>, cancelRequestedAt: Option<Time>, filterVersion: int)

  datatype Db = Db(
    users: set<User>, sessions: set<Session>, factors: set<Factor>, organizations: set<Organization>, memberships: set<Membership>,
    accounts: set<Account>, entities: set<Entity>, assignments: set<Assignment>, permissions: set<Permission>,
    overrides: set<Override>, rolePermissions: set<RolePermission>, satJobs: set<SatJob>)

  /** At most one override of a membership and permission is active. */
  predicate OneActiveOverride(overrides: set<Override>) {
    forall x, y | x in overrides && y in overrides && x.revokedAt.None? && y.revokedAt.None?
               && x.org == y.org && x.member == y.member && x.permission == y.permission :: x == y
  }

  /** The unique keys the queries join on. */
  predicate Constraints(db: Db) {
    && OneActiveOverride(db.overrides)
    && (forall x, y | x in db.permissions && y in db.permissions && x.key == y.key :: x == y)
    && (forall x, y | x in db.organizations && y in db.organizations && x.id == y.id :: x == y)
    && (forall x, y | x in db.memberships && y in db.memberships && x.id == y.id :: x == y)
  }

  // ---- the fragment every predicate repeats ------------------------------------------------------------

  predicate HasOverride(db: Db, o: Org, m: Id, permission: Id, effect: Effect) {
    exists x | x in db.overrides :: x.org == o && x.member == m && x.permission == permission && x.revokedAt.None? && x.effect == effect
  }

  predicate RoleDefault(db: Db, role: Id, permission: Id, now: Time) {
    exists rp | rp in db.rolePermissions ::
      && rp.role == role && rp.permission == permission && rp.enabled
      && (rp.validFrom.None? || rp.validFrom.value <= now) && (rp.validUntil.None? || rp.validUntil.value > now)
  }

  /** NOT EXISTS(deny) AND (EXISTS(grant) OR role path) */
  predicate Allowed(db: Db, o: Org, m: Id, permission: Id, rolePath: bool) {
    !HasOverride(db, o, m, permission, Deny) && (HasOverride(db, o, m, permission, Grant) || rolePath)
  }

  predicate IsActiveOverride(db: Db, o: Org, m: Id, permission: Id, effect: Option<Effect>) {
    if effect.Some? then HasOverride(db, o, m, permission, effect.value)
    else !HasOverride(db, o, m, permission, Grant) && !HasOverride(db, o, m, permission, Deny)
  }

  /** The effect of the active override, read from the table. */
  function ActiveOverride(db: Db, o: Org, m: Id, permission: Id): (effect: Option<Effect>)
    ensures IsActiveOverride(db, o, m, permission, effect)
  {
    if HasOverride(db, o, m, permission, Deny) then Some(Deny)
    else if HasOverride(db, o, m, permission, Grant) then Some(Grant)
    else None
  }

  /** With the unique index there is only one effect to read, and the SQL fragment decides exactly as the precedence function. */
  lemma FragmentIsResolve(db: Db, o: Org, m: Id, permission: Id, rolePath: bool, effect: Option<Effect>)
    requires OneActiveOverride(db.overrides) && IsActiveOverride(db, o, m, permission, effect)
    ensures effect == ActiveOverride(db, o, m, permission)
    ensures Allowed(db, o, m, permission, rolePath) <==> Resolve(rolePath, effect)
  {
  }

  /** The index is needed exactly for that: an override that is read as `grant` decides as the fragment does if and only if no
      active `deny` stands beside it. */
  lemma TwoOverridesDisagree(db: Db, o: Org, m: Id, permission: Id, rolePath: bool)
    requires HasOverride(db, o, m, permission, Grant)
    ensures Allowed(db, o, m, permission, rolePath) == Resolve(rolePath, Some(Grant)) <==> !HasOverride(db, o, m, permission, Deny)
  {
  }

  // ---- the three predicates -------------------------------------------------------------------------------

  /** The transaction's settings; `None` for a setting that is unset or empty. */
  datatype Settings = Settings(org: Option<Org>, member: Option<Id>)

  /** The nil uuid: the settings of a worker. */
  const NIL: Id := 0

  /** The arguments of efirma_authorized. */
  datatype Subject = Subject(user: Id, session: Id, org: Org, member: Id, account: Id, entity: Id, idleSeconds: int)

  /** One row of the join. */
  datatype EfirmaRow = EfirmaRow(
    session: Session, user: User, org: Organization, member: Membership, account: Account, entity: Entity, permission: Permission)

  const CREDENTIALS := "credentials.manage"
  const SAT_DOWNLOAD := "sat.download"
  const CATEGORIES := "cfdi.categories.manage"

  function IdleLimit(seconds: int): Time {
    (if seconds < 1 then 1 else if seconds > 86400 then 86400 else seconds) * SECOND
  }

  predicate LiveSession(x: Session, c: Subject, now: Time) {
    && x.id == c.session && x.user == c.user && x.org == c.org && x.member == c.member
    && x.active && x.expiresAt > now && x.mfaVerifiedAt.Some? && x.lastActivityAt + IdleLimit(c.idleSeconds) > now
  }

  predicate HasFactor(db: Db, user: Id) {
    exists f | f in db.factors :: f.user == user && f.active
  }

  predicate Assigned(db: Db, c: Subject) {
    exists x | x in db.assignments :: x.org == c.org && x.member == c.member && x.account == c.account && x.active
  }

  predicate EfirmaJoin(db: Db, c: Subject, r: EfirmaRow, now: Time) {
    && r.session in db.sessions && LiveSession(r.session, c, now)
    && r.user in db.users && r.user.id == r.session.user && r.user.active && r.user.emailVerifiedAt.Some?
    && r.org in db.organizations && r.org.id == c.org && r.org.active
    && r.member in db.memberships && r.member.id == c.member && r.member.org == c.org && r.member.user == c.user && r.member.active
    && r.account in db.accounts && r.account.id == c.account && r.account.org == c.org && r.account.active
    && r.entity in db.entities && r.entity.id == c.entity && r.entity.org == c.org && r.entity.account == c.account && r.entity.active
    && r.permission in db.permissions && r.permission.key == CREDENTIALS && r.permission.active
    && HasFactor(db, c.user)
    && (r.org.owner == c.user || Assigned(db, c))
    && Allowed(db, c.org, c.member, r.permission.id, RoleDefault(db, r.member.role, r.permission.id, now))
  }

  ghost predicate EfirmaAuthorized(db: Db, s: Settings, c: Subject, now: Time) {
    && s.org == Some(c.org) && (s.member == Some(c.member) || s.member == Some(NIL))
    && exists r: EfirmaRow :: EfirmaJoin(db, c, r, now)
  }

  datatype SatRow = SatRow(job: SatJob, member: Membership, permission: Permission)

  predicate SatJoin(db: Db, c: Subject, job: Id, purpose: string, r: SatRow, now: Time) {
    && r.job in db.satJobs && r.job.id == job && r.job.org == c.org && r.job.account == c.account && r.job.entity == c.entity
    && r.job.user == c.user && r.job.member == c.member
    && r.job.terminalAt.None? && r.job.cancelRequestedAt.None? && r.job.filterVersion == 1
    && (purpose == "sat.submit" || purpose == "sat.recover")
    && r.member in db.memberships && r.member.id == c.member && r.member.org == c.org
    && r.permission in db.permissions && r.permission.key == SAT_DOWNLOAD && r.permission.active
    && Allowed(db, c.org, c.member, r.permission.id, RoleDefault(db, r.member.role, r.permission.id, now))
  }

  ghost predicate SatAuthorized(db: Db, s: Settings, c: Subject, job: Id, purpose: string, now: Time) {
    EfirmaAuthorized(db, s, c, now) && exists r: SatRow :: SatJoin(db, c, job, purpose, r, now)
  }

  datatype MonthlyRow = MonthlyRow(member: Membership, org: Organization, permission: Permission)

  predicate MonthlyJoin(db: Db, s: Settings, o: Org, key: string, r: MonthlyRow, now: Time) {
    && r.member in db.memberships && s.member == Some(r.member.id) && r.member.org == o && r.member.active
    && r.org in db.organizations && r.org.id == r.member.org && r.org.active
    && r.permission in db.permissions && r.permission.key == key && r.permission.active
    && Allowed(db, o, r.member.id, r.permission.id,
               (key != CATEGORIES || r.org.owner == r.member.user) && RoleDefault(db, r.member.role, r.permission.id, now))
  }

  ghost predicate MonthlyPermission(db: Db, s: Settings, o: Org, key: string, now: Time) {
    exists r: MonthlyRow :: MonthlyJoin(db, s, o, key, r, now)
  }

  // ---- each predicate is its conditions and the precedence function ------------------------------------------

  /** The subject's session is open and unexpired, was verified with a second factor and was used within the idle limit, which is
      between a second and a day. */
  predicate OpenSession(x: Session, c: Subject, now: Time) {
    && x.id == c.session && x.user == c.user && x.org == c.org && x.member == c.member
    && x.active && x.mfaVerifiedAt.Some? && now < x.expiresAt
    && (c.idleSeconds <= 1 ==> now < x.lastActivityAt + 1_000_000)
    && (1 < c.idleSeconds < 86400 ==> now < x.lastActivityAt + c.idleSeconds * 1_000_000)
    && (c.idleSeconds >= 86400 ==> now < x.lastActivityAt + 86_400_000_000)
  }

  lemma LiveIsOpen(x: Session, c: Subject, now: Time)
    ensures LiveSession(x, c, now) <==> OpenSession(x, c, now)
  {
  }

  /** Everything efirma_authorized asks besides the permission. */
  predicate MayActFor(db: Db, s: Settings, c: Subject, org: Organization, member: Membership, now: Time) {
    && s.org == Some(c.org) && (s.member == Some(c.member) || s.member == Some(0))
    && (exists x | x in db.sessions :: OpenSession(x, c, now))
    && (exists f | f in db.factors :: f.user == c.user && f.active)
    && (exists x | x in db.users :: x.id == c.user && x.active && x.emailVerifiedAt.Some?)
    && (exists x | x in db.accounts :: x.id == c.account && x.org == c.org && x.active)
    && (exists x | x in db.entities :: x.id == c.entity && x.org == c.org && x.account == c.account && x.active)
    && org.active && member.org == c.org && member.user == c.user && member.active
    && (org.owner == c.user
        || exists x | x in db.assignments :: x.org == c.org && x.member == c.member && x.account == c.account && x.active)
  }

  /** The role holds the permission today: an enabled row whose window has begun and is not over. */
  predicate RoleHolds(db: Db, role: Id, permission: Id, now: Time) {
    exists rp | rp in db.rolePermissions ::
      rp.role == role && rp.permission == permission && rp.enabled
      && !(rp.validFrom.Some? && now < rp.validFrom.value) && !(rp.validUntil.Some? && rp.validUntil.value <= now)
  }

  /** The membership has an override of that effect that was not revoked. */
  predicate Overridden(db: Db, o: Org, m: Id, permission: Id, effect: Effect) {
    exists x | x in db.overrides :: x.org == o && x.member == m && x.permission == permission && x.effect == effect && x.revokedAt == None
  }

  /** No deny, and a grant or the role. */
  predicate Holds(db: Db, o: Org, m: Id, permission: Id, byRole: bool) {
    !Overridden(db, o, m, permission, Deny) && (Overridden(db, o, m, permission, Grant) || byRole)
  }

  lemma DefaultIsHeld(db: Db, role: Id, permission: Id, now: Time)
    ensures RoleDefault(db, role, permission, now) <==> RoleHolds(db, role, permission, now)
  {
  }

  lemma ResolveIsHolds(db: Db, o: Org, m: Id, permission: Id, byRole: bool)
    requires OneActiveOverride(db.overrides)
    ensures Resolve(byRole, ActiveOverride(db, o, m, permission)) <==> Holds(db, o, m, permission, byRole)
    ensures Allowed(db, o, m, permission, byRole) <==> Holds(db, o, m, permission, byRole)
  {
    FragmentIsResolve(db, o, m, permission, byRole, ActiveOverride(db, o, m, permission));
    forall effect ensures HasOverride(db, o, m, permission, effect) <==> Overridden(db, o, m, permission, effect) {
    }
  }

  lemma EfirmaMatchesResolve(db: Db, s: Settings, c: Subject, now: Time, org: Organization, member: Membership, permission: Permission)
    requires Constraints(db)
    requires org in db.organizations && org.id == c.org && member in db.memberships && member.id == c.member
    requires permission in db.permissions && permission.key == "credentials.manage"
    ensures EfirmaAuthorized(db, s, c, now)
       <==> MayActFor(db, s, c, org, member, now) && permission.active
            && Resolve(RoleHolds(db, member.role, permission.id, now), ActiveOverride(db, c.org, c.member, permission.id))
    ensures EfirmaAuthorized(db, s, c, now)
       <==> MayActFor(db, s, c, org, member, now) && permission.active
            && Holds(db, c.org, c.member, permission.id, RoleHolds(db, member.role, permission.id, now))
  {
    DefaultIsHeld(db, member.role, permission.id, now);
    ResolveIsHolds(db, c.org, c.member, permission.id, RoleHolds(db, member.role, permission.id, now));
    forall x ensures LiveSession(x, c, now) <==> OpenSession(x, c, now) {
      LiveIsOpen(x, c, now);
    }
    FragmentIsResolve(db, c.org, c.member, permission.id, RoleDefault(db, member.role, permission.id, now),
                      ActiveOverride(db, c.org, c.member, permission.id));
    if EfirmaAuthorized(db, s, c, now) {
      var r: EfirmaRow :| EfirmaJoin(db, c, r, now);
      assert r.org == org && r.member == member && r.permission == permission;
    }
    if MayActFor(db, s, c, org, member, now) && permission.active
       && Allowed(db, c.org, c.member, permission.id, RoleDefault(db, member.role, permission.id, now))
    {
      var session :| session in db.sessions && OpenSession(session, c, now);
      var user :| user in db.users && user.id == c.user && user.active && user.emailVerifiedAt.Some?;
      var account :| account in db.accounts && account.id == c.account && account.org == c.org && account.active;
      var entity :| entity in db.entities && entity.id == c.entity && entity.org == c.org && entity.account == c.account && entity.active;
      assert EfirmaJoin(db, c, EfirmaRow(session, user, org, member, account, entity, permission), now);
    }
  }

  /** sat_authorized implies efirma_authorized, and on top of it is the precedence function for its own permission, for an
      open job of the same subject. */
  lemma SatMatchesResolve(db: Db, s: Settings, c: Subject, job: Id, purpose: string, now: Time, member: Membership, permission: Permission)
    requires Constraints(db)
    requires member in db.memberships && member.id == c.member && permission in db.permissions && permission.key == "sat.download"
    ensures SatAuthorized(db, s, c, job, purpose, now)
       <==> && EfirmaAuthorized(db, s, c, now)
            && (purpose == "sat.submit" || purpose == "sat.recover")
            && (exists x | x in db.satJobs :: x.id == job && x.org == c.org && x.account == c.account && x.entity == c.entity && x.user == c.user
                                           && x.member == c.member && x.terminalAt.None? && x.cancelRequestedAt.None? && x.filterVersion == 1)
            && member.org == c.org && permission.active
            && Holds(db, c.org, c.member, permission.id, RoleHolds(db, member.role, permission.id, now))
    ensures Holds(db, c.org, c.member, permission.id, RoleHolds(db, member.role, permission.id, now))
         == Resolve(RoleHolds(db, member.role, permission.id, now), ActiveOverride(db, c.org, c.member, permission.id))
  {
    DefaultIsHeld(db, member.role, permission.id, now);
    ResolveIsHolds(db, c.org, c.member, permission.id, RoleHolds(db, member.role, permission.id, now));
    FragmentIsResolve(db, c.org, c.member, permission.id, RoleDefault(db, member.role, permission.id, now),
                      ActiveOverride(db, c.org, c.member, permission.id));
    if SatAuthorized(db, s, c, job, purpose, now) {
      var r: SatRow :| SatJoin(db, c, job, purpose, r, now);
      assert r.member == member && r.permission == permission;
    }
    if x :| x in db.satJobs && SatJoin(db, c, job, purpose, SatRow(x, member, permission), now) {
    }
  }

  /** monthly_permission is the precedence function of the settings' membership, where the role default of
      `cfdi.categories.manage` counts for the owner only. */
  lemma MonthlyMatchesResolve(db: Db, s: Settings, o: Org, key: string, now: Time, org: Organization, member: Membership, permission: Permission)
    requires Constraints(db)
    requires org in db.organizations && org.id == o && member in db.memberships && s.member == Some(member.id)
    requires permission in db.permissions && permission.key == key
    ensures MonthlyPermission(db, s, o, key, now)
       <==> member.org == o && member.active && org.active && permission.active
            && Resolve(RoleHolds(db, member.role, permission.id, now) && (key == "cfdi.categories.manage" ==> org.owner == member.user),
                       ActiveOverride(db, o, member.id, permission.id))
    ensures MonthlyPermission(db, s, o, key, now)
       <==> member.org == o && member.active && org.active && permission.active
            && Holds(db, o, member.id, permission.id,
                     RoleHolds(db, member.role, permission.id, now) && (key == "cfdi.categories.manage" ==> org.owner == member.user))
  {
    DefaultIsHeld(db, member.role, permission.id, now);
    ResolveIsHolds(db, o, member.id, permission.id,
                   RoleHolds(db, member.role, permission.id, now) && (key == "cfdi.categories.manage" ==> org.owner == member.user));
    FragmentIsResolve(db, o, member.id, permission.id,
                      (key != CATEGORIES || org.owner == member.user) && RoleDefault(db, member.role, permission.id, now),
                      ActiveOverride(db, o, member.id, permission.id));
    if MonthlyPermission(db, s, o, key, now) {
      var r: MonthlyRow :| MonthlyJoin(db, s, o, key, r, now);
      assert r.org == org && r.member == member && r.permission == permission;
    }
    if MonthlyJoin(db, s, o, key, MonthlyRow(member, org, permission), now) {
    }
  }

  /** For a membership acting as itself, custody of its own credentials implies the monthly permission of the same name. */
  lemma EfirmaImpliesMonthly(db: Db, s: Settings, c: Subject, now: Time)
    requires EfirmaAuthorized(db, s, c, now) && s.member == Some(c.member)
    ensures MonthlyPermission(db, s, c.org, "credentials.manage", now)
  {
    var r: EfirmaRow :| EfirmaJoin(db, c, r, now);
    assert CREDENTIALS[1] != CATEGORIES[1];
    assert MonthlyJoin(db, s, c.org, CREDENTIALS, MonthlyRow(r.member, r.org, r.permission), now);
  }

  /** Whoever is authorised for a credential has an unexpired session verified by a second factor, an active factor and a verified
      address, and is the owner of the active organisation or assigned to the account. */
  lemma AuthorisedHasSession(db: Db, s: Settings, c: Subject, now: Time)
    requires EfirmaAuthorized(db, s, c, now)
    ensures exists x | x in db.sessions ::
              && x.id == c.session && x.user == c.user && x.org == c.org && x.member == c.member && x.active
              && x.expiresAt > now && x.mfaVerifiedAt.Some? && x.lastActivityAt + 86_400_000_000 > now
              && (c.idleSeconds >= 1 ==> x.lastActivityAt + c.idleSeconds * 1_000_000 > now)
    ensures exists f | f in db.factors :: f.user == c.user && f.active
    ensures exists x | x in db.users :: x.id == c.user && x.active && x.emailVerifiedAt.Some?
    ensures exists o, m | o in db.organizations && m in db.memberships ::
              && o.id == c.org && o.active && m.id == c.member && m.org == c.org && m.user == c.user && m.active
              && (o.owner == c.user
                  || exists x | x in db.assignments :: x.org == c.org && x.member == c.member && x.account == c.account && x.active)
  {
    var r: EfirmaRow :| EfirmaJoin(db, c, r, now);
    LiveIsOpen(r.session, c, now);
  }

  // ---- deny ------------------------------------------------------------------------------------------------------

  function WithOverride(db: Db, x: Override): Db {
    db.(overrides := db.overrides + {x})
  }

  lemma DenyOnlyRemoves(db: Db, x: Override, o: Org, m: Id, permission: Id, rolePath: bool)
    requires x.effect.Deny? && Allowed(WithOverride(db, x), o, m, permission, rolePath)
    ensures Allowed(db, o, m, permission, rolePath)
    ensures !(x.revokedAt.None? && x.org == o && x.member == m && x.permission == permission)
  {
    var after := WithOverride(db, x);
    assert x in after.overrides;
    assert forall y | y in db.overrides :: y in after.overrides;
    if HasOverride(after, o, m, permission, Grant) {
      var y :| y in after.overrides && y.org == o && y.member == m && y.permission == permission && y.revokedAt.None? && y.effect.Grant?;
      assert y in db.overrides;
    }
  }

  /** A deny row, whoever it is for, never enables any of the three. */
  lemma DenyNeverEnables(db: Db, x: Override, s: Settings, c: Subject, job: Id, purpose: string, key: string, now: Time)
    requires x.effect.Deny?
    ensures EfirmaAuthorized(WithOverride(db, x), s, c, now) ==> EfirmaAuthorized(db, s, c, now)
    ensures SatAuthorized(WithOverride(db, x), s, c, job, purpose, now) ==> SatAuthorized(db, s, c, job, purpose, now)
    ensures MonthlyPermission(WithOverride(db, x), s, c.org, key, now) ==> MonthlyPermission(db, s, c.org, key, now)
  {
    if EfirmaAuthorized(WithOverride(db, x), s, c, now) {
      EfirmaSurvives(db, x, s, c, now);
    }
    if SatAuthorized(WithOverride(db, x), s, c, job, purpose, now) {
      EfirmaSurvives(db, x, s, c, now);
      var r: SatRow :| SatJoin(WithOverride(db, x), c, job, purpose, r, now);
      DenyOnlyRemoves(db, x, c.org, c.member, r.permission.id, RoleDefault(db, r.member.role, r.permission.id, now));
      assert SatJoin(db, c, job, purpose, r, now);
    }
    if MonthlyPermission(WithOverride(db, x), s, c.org, key, now) {
      var r: MonthlyRow :| MonthlyJoin(WithOverride(db, x), s, c.org, key, r, now);
      DenyOnlyRemoves(db, x, c.org, r.member.id, r.permission.id,
                      (key != CATEGORIES || r.org.owner == r.member.user) && RoleDefault(db, r.member.role, r.permission.id, now));
      assert MonthlyJoin(db, s, c.org, key, r, now);
    }
  }

  lemma EfirmaSurvives(db: Db, x: Override, s: Settings, c: Subject, now: Time)
    requires x.effect.Deny? && EfirmaAuthorized(WithOverride(db, x), s, c, now)
    ensures EfirmaAuthorized(db, s, c, now)
  {
    var r: EfirmaRow :| EfirmaJoin(WithOverride(db, x), c, r, now);
    DenyOnlyRemoves(db, x, c.org, c.member, r.permission.id, RoleDefault(db, r.member.role, r.permission.id, now));
    assert EfirmaJoin(db, c, r, now);
  }

  /** An active deny row disables what it names, whatever grants and roles say. */
  lemma DenyDisables(db: Db, x: Override, p: Permission, s: Settings, c: Subject, job: Id, purpose: string, now: Time)
    requires Constraints(db) && p in db.permissions
    requires x in db.overrides && x.effect.Deny? && x.revokedAt.None? && x.org == c.org && x.member == c.member && x.permission == p.id
    ensures p.key == "credentials.manage" ==> !EfirmaAuthorized(db, s, c, now)
    ensures p.key == "credentials.manage" || p.key == "sat.download" ==> !SatAuthorized(db, s, c, job, purpose, now)
    ensures s.member == Some(c.member) ==> !MonthlyPermission(db, s, c.org, p.key, now)
  {
    assert HasOverride(db, c.org, c.member, p.id, Deny);
  }
}
