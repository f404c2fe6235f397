/**
 * The registration engine (RegisterUser, handleCreateReferralLink and
 * handleAddContribution in usecase/user_usecase.go).
 *
 * RegisterUserSpec states the whole outcome of one registration as a
 * function of the committed tables, the input and the environment;
 * UserUsecase.RegisterUser performs it step by step against a Database and
 * is proved to produce exactly that outcome. The lemmas below state what the
 * outcome guarantees.
 */
module Registration {
  import opened Wrappers
  import opened Errors
  import opened Util
  import opened Store
  import opened Effects
  import opened Validation

  /** The created user with its role attached, and the new referral link for a generator. */
  datatype RegisterUserResponse = RegisterUserResponse(user: User, role: Role, referralLink: Option<ReferralLink>)

  /** What a registration leaves behind: its result, the committed tables, whether it opened a transaction. */
  datatype Outcome = Outcome(result: Result<RegisterUserResponse, Error>, tables: Tables, openedTx: bool)

  /** The row handleAddContribution inserts: `userId` redeemed `link` at `now`. */
  function NewContribution(link: ReferralLink, userId: string, env: Env): (c: Contribution)
    ensures c.referralLinkId == link.id && c.contributorId == userId && c.accessedAt == env.now
    ensures c.deletedAt.None?
  {
    Contribution(env.contributionId, link.id, userId, env.now, env.now, env.now, None)
  }

  /**
   * The role-specific write inside the open transaction: the staged tables
   * after it and the link to report, or the error that aborts the
   * transaction. The referral code is looked up in the committed tables `t`.
   */
  function RoleWrite(kind: RoleKind, t: Tables, staged: Tables, userId: string, req: RegisterUserInput, env: Env)
    : (r: Result<(Tables, Option<ReferralLink>), Error>)
    ensures kind == Generator ==>
      if env.faults.createLink.Some? then r == Err(env.faults.createLink.value)
      else
        var link := NewReferralLink(userId, env);
        r == Ok((staged.(links := staged.links + [link]), Some(link)))
    ensures kind == Contributor && env.faults.linkLookup.Some? ==> r == Err(env.faults.linkLookup.value)
    ensures kind == Contributor && env.faults.linkLookup.None? ==>
      var lookup := GetReferralLinkByCode(t, req.referralCode, None);
      && (lookup.NotFound? ==> r == Err(ReferralCodeNotFound))
      && (lookup.Found? && env.faults.createContribution.Some? ==> r == Err(env.faults.createContribution.value))
      && (lookup.Found? && env.faults.createContribution.None? ==>
            r == Ok((staged.(contributions := staged.contributions + [NewContribution(lookup.row, userId, env)]), None)))
  {
    match kind
    case Generator =>
      if env.faults.createLink.Some? then Err(env.faults.createLink.value)
      else
        var link := NewReferralLink(userId, env);
        Ok((staged.(links := staged.links + [link]), Some(link)))
    case Contributor =>
      match GetReferralLinkByCode(t, req.referralCode, env.faults.linkLookup)
      case Failed(e) => Err(e)
      case NotFound => Err(ReferralCodeNotFound)
      case Found(link) =>
        if env.faults.createContribution.Some? then Err(env.faults.createContribution.value)
        else Ok((staged.(contributions := staged.contributions + [NewContribution(link, userId, env)]), None))
  }

  /**
   * One registration from committed tables `t`. Either every row of the
   * operation is committed (a user and a link for a generator, a user and a
   * contribution for a contributor) or the tables are left exactly as they
   * were.
   */
  function RegisterUserSpec(t: Tables, req: RegisterUserInput, env: Env): (o: Outcome)
    ensures o.result.Err? ==> o.tables == t
    ensures o.result.Ok? ==> o.openedTx && ValidateRegisterUserInput(req).Ok? && env.hashed.Ok?
    ensures o.result.Ok? ==>
      var resp := o.result.value;
      && GetUserByEmailAndRole(t, req.email, req.role, None).NotFound?
      && GetRoleByName(t, req.role, None) == Found(resp.role)
      && resp.user == User(env.userId, req.email, env.hashed.value, resp.role.id, env.now, env.now, None)
    ensures o.result.Ok? && req.role == GeneratorRole ==>
      var resp := o.result.value;
      && resp.referralLink == Some(NewReferralLink(env.userId, env))
      && o.tables == t.(users := t.users + [resp.user], links := t.links + [resp.referralLink.value])
    ensures o.result.Ok? && req.role == ContributorRole ==>
      var resp := o.result.value;
      && resp.referralLink.None?
      && GetReferralLinkByCode(t, req.referralCode, None).Found?
      && o.tables == t.(users := t.users + [resp.user],
                        contributions := t.contributions +
                          [NewContribution(GetReferralLinkByCode(t, req.referralCode, None).row, env.userId, env)])
  {
    match ValidateRegisterUserInput(req)
    case Err(e) => Outcome(Err(e), t, false)
    case Ok(kind) =>
      match env.hashed
      case Err(e) => Outcome(Err(e), t, false)
      case Ok(hash) =>
        match GetUserByEmailAndRole(t, req.email, req.role, env.faults.userLookup)
        case Failed(e) => Outcome(Err(e), t, false)
        case Found(_) => Outcome(Err(EmailAlreadyExist), t, false)
        case NotFound =>
          match GetRoleByName(t, req.role, env.faults.roleLookup)
          case Failed(e) => Outcome(Err(e), t, false)
          case NotFound => Outcome(Err(InvalidRole), t, false)
          case Found(role) =>
            var user := User(env.userId, req.email, hash, role.id, env.now, env.now, None);
            if env.faults.begin.Some? then Outcome(Err(env.faults.begin.value), t, false)
            else if env.faults.createUser.Some? then Outcome(Err(env.faults.createUser.value), t, true)
            else
              match RoleWrite(kind, t, t.(users := t.users + [user]), user.id, req, env)
              case Err(e) => Outcome(Err(e), t, true)
              case Ok((staged, link)) =>
                if env.faults.commit.Some? then Outcome(Err(env.faults.commit.value), t, true)
                else Outcome(Ok(RegisterUserResponse(user, role, link)), staged, true)
  }

  // ---------------------------------------------------------------------------
  // What a registration guarantees
  // ---------------------------------------------------------------------------

  /** The registration passes every check before BeginTx: valid, hashed, unduplicated, with a live role. */
  ghost predicate ReachesTransaction(t: Tables, req: RegisterUserInput, env: Env)
  {
    && ValidateRegisterUserInput(req).Ok? && env.hashed.Ok?
    && GetUserByEmailAndRole(t, req.email, req.role, env.faults.userLookup).NotFound?
    && GetRoleByName(t, req.role, env.faults.roleLookup).Found?
  }

  /**
   * A valid registration with a free (email, role) pair and a live role, in
   * which no call fails, succeeds; a contributor also needs a live link for
   * the code.
   */
  lemma RegisterUserSucceeds(t: Tables, req: RegisterUserInput, env: Env)
    requires ValidateRegisterUserInput(req).Ok? && env.hashed.Ok? && NoFaults(env.faults)
    requires GetUserByEmailAndRole(t, req.email, req.role, None).NotFound?
    requires GetRoleByName(t, req.role, None).Found?
    requires req.role == ContributorRole ==> GetReferralLinkByCode(t, req.referralCode, None).Found?
    ensures RegisterUserSpec(t, req, env).result.Ok?
  {
  }

  /** Each failing step surfaces its own error, in the order the steps run. */
  lemma RegisterUserSurfacesFirstFailure(t: Tables, req: RegisterUserInput, env: Env)
    ensures var o := RegisterUserSpec(t, req, env);
      && (ValidateRegisterUserInput(req).Ok? && env.hashed.Err? ==> o == Outcome(Err(env.hashed.error), t, false))
      && (ValidateRegisterUserInput(req).Ok? && env.hashed.Ok? && env.faults.userLookup.Some? ==>
            o == Outcome(Err(env.faults.userLookup.value), t, false))
      && (ValidateRegisterUserInput(req).Ok? && env.hashed.Ok? &&
          GetUserByEmailAndRole(t, req.email, req.role, env.faults.userLookup).NotFound? &&
          env.faults.roleLookup.Some? ==>
            o == Outcome(Err(env.faults.roleLookup.value), t, false))
    ensures var o := RegisterUserSpec(t, req, env);
      ReachesTransaction(t, req, env) ==>
      && (env.faults.begin.Some? ==> o == Outcome(Err(env.faults.begin.value), t, false))
      && (env.faults.begin.None? && env.faults.createUser.Some? ==>
            o == Outcome(Err(env.faults.createUser.value), t, true))
      && (env.faults.begin.None? && env.faults.createUser.None? && req.role == GeneratorRole &&
          env.faults.createLink.Some? ==>
            o == Outcome(Err(env.faults.createLink.value), t, true))
      && (env.faults.begin.None? && env.faults.createUser.None? && req.role == ContributorRole &&
          env.faults.linkLookup.Some? ==>
            o == Outcome(Err(env.faults.linkLookup.value), t, true))
      && (env.faults.begin.None? && env.faults.createUser.None? && req.role == ContributorRole &&
          GetReferralLinkByCode(t, req.referralCode, env.faults.linkLookup).Found? &&
          env.faults.createContribution.Some? ==>
            o == Outcome(Err(env.faults.createContribution.value), t, true))
    ensures var o := RegisterUserSpec(t, req, env);
      ReachesTransaction(t, req, env) && env.faults.begin.None? && env.faults.createUser.None? &&
      (req.role == GeneratorRole ==> env.faults.createLink.None?) &&
      (req.role == ContributorRole ==>
        GetReferralLinkByCode(t, req.referralCode, env.faults.linkLookup).Found? &&
        env.faults.createContribution.None?) &&
      env.faults.commit.Some? ==>
        o == Outcome(Err(env.faults.commit.value), t, true)
  {
  }

  /** A rejected input is reported before any repository call: nothing is read, written or begun. */
  lemma ValidationFailureTouchesNothing(t: Tables, req: RegisterUserInput, env: Env)
    requires ValidateRegisterUserInput(req).Err?
    ensures RegisterUserSpec(t, req, env) == Outcome(Err(ValidateRegisterUserInput(req).error), t, false)
  {
  }

  /** Registering "bad-email" fails with InvalidEmail and writes no row. */
  lemma BadEmailWritesNothing(t: Tables, password: string, env: Env)
    requires password != ""
    ensures RegisterUserSpec(t, RegisterUserInput("bad-email", password, GeneratorRole, ""), env)
      == Outcome(Err(InvalidEmail), t, false)
  {
    BadEmailIsRejected();
    FirstFailingCheckDecides(RegisterUserInput("bad-email", password, GeneratorRole, ""));
  }

  /** A live user with the same email and role blocks the registration before any transaction. */
  lemma DuplicateEmailRejected(t: Tables, req: RegisterUserInput, env: Env, u: User)
    requires ValidateRegisterUserInput(req).Ok? && env.hashed.Ok? && env.faults.userLookup.None?
    requires u in t.users && UserMatches(t.roles, u, req.email, req.role)
    ensures RegisterUserSpec(t, req, env) == Outcome(Err(EmailAlreadyExist), t, false)
  {
  }

  /** With no live role row of the requested name the result is InvalidRole, before any transaction. */
  lemma MissingRoleRejected(t: Tables, req: RegisterUserInput, env: Env)
    requires ValidateRegisterUserInput(req).Ok? && env.hashed.Ok?
    requires env.faults.userLookup.None? && env.faults.roleLookup.None?
    requires GetUserByEmailAndRole(t, req.email, req.role, None).NotFound?
    requires forall r :: r in t.roles ==> !(r.name == req.role && r.deletedAt.None?)
    ensures RegisterUserSpec(t, req, env) == Outcome(Err(InvalidRole), t, false)
  {
  }

  /**
   * A contributor naming a code with no live link (unknown, or soft-deleted
   * by a rotation) gets ReferralCodeNotFound; the transaction that had
   * already inserted the user is rolled back.
   */
  lemma UnknownReferralCodeWritesNothing(t: Tables, req: RegisterUserInput, env: Env)
    requires ValidateRegisterUserInput(req) == Ok(Contributor) && env.hashed.Ok?
    requires env.faults.userLookup.None? && env.faults.roleLookup.None? && env.faults.linkLookup.None?
    requires env.faults.begin.None? && env.faults.createUser.None?
    requires GetUserByEmailAndRole(t, req.email, req.role, None).NotFound?
    requires GetRoleByName(t, req.role, None).Found?
    requires forall l :: l in t.links && l.code == req.referralCode ==> !IsActive(l)
    ensures RegisterUserSpec(t, req, env) == Outcome(Err(ReferralCodeNotFound), t, true)
  {
  }

  /** Among live users, no two share both an email and a role. */
  ghost predicate EmailRoleUnique(users: seq<User>)
  {
    forall i, j ::
      0 <= i < |users| && 0 <= j < |users| &&
      users[i].deletedAt.None? && users[j].deletedAt.None? &&
      users[i].email == users[j].email && users[i].roleId == users[j].roleId
      ==> i == j
  }

  /** The duplicate check keeps (email, role) unique among live users. */
  lemma RegistrationKeepsEmailRoleUnique(t: Tables, req: RegisterUserInput, env: Env)
    requires EmailRoleUnique(t.users)
    ensures EmailRoleUnique(RegisterUserSpec(t, req, env).tables.users)
  {
    var o := RegisterUserSpec(t, req, env);
    if o.result.Ok? {
      var u := o.result.value.user;
      var role := o.result.value.role;
      var us := o.tables.users;
      assert us == t.users + [u];
      assert role in t.roles && role.name == req.role;
      forall k | 0 <= k < |t.users| && t.users[k].deletedAt.None? && t.users[k].email == u.email
        ensures t.users[k].roleId != u.roleId
      {
        assert t.users[k] in t.users;
        assert !UserMatches(t.roles, t.users[k], req.email, req.role);
      }
      assert forall k :: 0 <= k < |t.users| ==> us[k] == t.users[k];
      forall i, j |
        0 <= i < |us| && 0 <= j < |us| &&
        us[i].deletedAt.None? && us[j].deletedAt.None? &&
        us[i].email == us[j].email && us[i].roleId == us[j].roleId
        ensures i == j
      {
      }
    }
  }

  /** Role ids are keys: one id, one role row. */
  ghost predicate RoleIdsAreKeys(roles: seq<Role>)
  {
    forall r1, r2 :: r1 in roles && r2 in roles && r1.id == r2.id ==> r1 == r2
  }

  /**
   * Duplicates are looked up by email and role together: a registration
   * under one role leaves the same email free under any other role name.
   */
  lemma RegistrationLeavesOtherRolesFree(t: Tables, req: RegisterUserInput, env: Env, other: string)
    requires RoleIdsAreKeys(t.roles)
    requires other != req.role && RegisterUserSpec(t, req, env).result.Ok?
    requires GetUserByEmailAndRole(t, req.email, other, None).NotFound?
    ensures GetUserByEmailAndRole(RegisterUserSpec(t, req, env).tables, req.email, other, None).NotFound?
  {
    var o := RegisterUserSpec(t, req, env);
    var u := o.result.value.user;
    assert o.tables.roles == t.roles && o.tables.users == t.users + [u];
    assert !UserMatches(t.roles, u, req.email, other) by {
      var role := o.result.value.role;
      assert role in t.roles && role.id == u.roleId && role.name == req.role;
    }
  }

  /** Registering an email as a generator leaves it free for the contributor role. */
  lemma GeneratorDoesNotBlockContributor(t: Tables, req: RegisterUserInput, env: Env)
    requires RoleIdsAreKeys(t.roles)
    requires req.role == GeneratorRole && RegisterUserSpec(t, req, env).result.Ok?
    requires GetUserByEmailAndRole(t, req.email, ContributorRole, None).NotFound?
    ensures GetUserByEmailAndRole(RegisterUserSpec(t, req, env).tables, req.email, ContributorRole, None).NotFound?
  {
    RegistrationLeavesOtherRolesFree(t, req, env, ContributorRole);
  }

  /** Registering an email as a contributor leaves it free for the generator role. */
  lemma ContributorDoesNotBlockGenerator(t: Tables, req: RegisterUserInput, env: Env)
    requires RoleIdsAreKeys(t.roles)
    requires req.role == ContributorRole && RegisterUserSpec(t, req, env).result.Ok?
    requires GetUserByEmailAndRole(t, req.email, GeneratorRole, None).NotFound?
    ensures GetUserByEmailAndRole(RegisterUserSpec(t, req, env).tables, req.email, GeneratorRole, None).NotFound?
  {
    RegistrationLeavesOtherRolesFree(t, req, env, GeneratorRole);
  }

  /**
   * A generator registration under a fresh user id keeps every generator at
   * most one live referral link.
   */
  lemma RegistrationKeepsOneActiveLink(t: Tables, req: RegisterUserInput, env: Env)
    requires AtMostOneActiveLink(t.links)
    requires forall l :: l in t.links ==> l.generatorId != env.userId
    ensures AtMostOneActiveLink(RegisterUserSpec(t, req, env).tables.links)
  {
    var o := RegisterUserSpec(t, req, env);
    if o.result.Ok? && req.role == GeneratorRole {
      InsertForNewGeneratorKeepsOneActiveLink(t.links, NewReferralLink(env.userId, env));
    }
  }

  class UserUsecase {
    const db: Database

    constructor(db: Database)
      ensures this.db == db
    {
      this.db := db;
    }

    /**
     * Validates, hashes, checks the (email, role) pair and the role, then
     * in one transaction inserts the user and either a referral link or a
     * contribution; every failure after BeginTx rolls back. The transaction
     * is always closed on return.
     */
    method RegisterUser(req: RegisterUserInput, env: Env) returns (r: Result<RegisterUserResponse, Error>)
      modifies db
      ensures var o := RegisterUserSpec(old(db.tables), req, env);
        && r == o.result
        && db.tables == o.tables
        && db.begun == old(db.begun) + (if o.openedTx then 1 else 0)
      ensures db.openTx == old(db.openTx)
    {
      var valid := ValidateRegisterUserInput(req);
      if valid.Err? {
        return Err(valid.error);
      }

      if env.hashed.Err? {
        return Err(env.hashed.error);
      }
      var hashedPassword := env.hashed.value;

      var existing := GetUserByEmailAndRole(db.tables, req.email, req.role, env.faults.userLookup);
      if existing.Failed? {
        return Err(existing.error);
      }
      if existing.Found? {
        return Err(EmailAlreadyExist);
      }

      var role := GetRoleByName(db.tables, req.role, env.faults.roleLookup);
      if role.Failed? {
        return Err(role.error);
      }
      if role.NotFound? {
        return Err(InvalidRole);
      }

      var newUser := User(env.userId, req.email, hashedPassword, role.row.id, env.now, env.now, None);

      var begun := db.BeginTx(env.faults.begin);
      if begun.Err? {
        return Err(begun.error);
      }
      var tx := begun.value;

      var err := tx.CreateUser(newUser, env.faults.createUser);
      if err.Some? {
        tx.Rollback();
        return Err(err.value);
      }

      var written := WriteForRole(tx, valid.value, newUser.id, req, env);
      if written.Err? {
        tx.Rollback();
        return Err(written.error);
      }
      var referralLink := written.value;

      err := tx.Commit(env.faults.commit);
      if err.Some? {
        return Err(err.value);
      }

      return Ok(RegisterUserResponse(newUser, role.row, referralLink));
    }

    /**
     * The switch on the role inside the open transaction: a generator gets a
     * referral link, a contributor's code is redeemed. Stages exactly what
     * RoleWrite says and reports the link, or the error with nothing staged.
     */
    method WriteForRole(tx: Tx, kind: RoleKind, userId: string, req: RegisterUserInput, env: Env)
      returns (r: Result<Option<ReferralLink>, Error>)
      requires !tx.done
      modifies tx
      ensures !tx.done
      ensures var w := RoleWrite(kind, db.tables, old(tx.staged), userId, req, env);
        && (w.Err? ==> r == Err(w.error) && tx.staged == old(tx.staged))
        && (w.Ok? ==> r == Ok(w.value.1) && tx.staged == w.value.0)
    {
      match kind {
        case Generator =>
          var created := HandleCreateReferralLink(tx, userId, env);
          if created.Err? {
            return Err(created.error);
          }
          return Ok(Some(created.value));
        case Contributor =>
          var added := HandleAddContribution(tx, userId, req.referralCode, env);
          if added.Err? {
            return Err(added.error);
          }
          return Ok(None);
      }
    }

    /** Inserts a fresh referral link for `userId` through the open transaction. */
    method HandleCreateReferralLink(tx: Tx, userId: string, env: Env) returns (r: Result<ReferralLink, Error>)
      requires !tx.done
      modifies tx
      ensures !tx.done
      ensures env.faults.createLink.Some? ==>
        r == Err(env.faults.createLink.value) && tx.staged == old(tx.staged)
      ensures env.faults.createLink.None? ==>
        r == Ok(NewReferralLink(userId, env)) && tx.staged == old(tx.staged).(links := old(tx.staged).links + [r.value])
    {
      var code := GenerateUniqueCode(env.intn);
      var referralLink := ReferralLink(env.linkId, userId, code, env.now + LinkLifetime, env.now, env.now, None);
      var err := tx.CreateReferralLink(referralLink, env.faults.createLink);
      if err.Some? {
        return Err(err.value);
      }
      return Ok(referralLink);
    }

    /**
     * Resolves the referral code among the committed live links and inserts
     * the contribution through the open transaction.
     */
    method HandleAddContribution(tx: Tx, userId: string, referralCode: string, env: Env)
      returns (r: Result<Contribution, Error>)
      requires !tx.done
      modifies tx
      ensures !tx.done
      ensures match GetReferralLinkByCode(db.tables, referralCode, env.faults.linkLookup)
        case Failed(e) => r == Err(e) && tx.staged == old(tx.staged)
        case NotFound => r == Err(ReferralCodeNotFound) && tx.staged == old(tx.staged)
        case Found(link) =>
          if env.faults.createContribution.Some? then
            r == Err(env.faults.createContribution.value) && tx.staged == old(tx.staged)
          else
            r == Ok(NewContribution(link, userId, env)) &&
            tx.staged == old(tx.staged).(contributions := old(tx.staged).contributions + [r.value])
    {
      var ref := GetReferralLinkByCode(db.tables, referralCode, env.faults.linkLookup);
      if ref.Failed? {
        return Err(ref.error);
      }
      if ref.NotFound? {
        return Err(ReferralCodeNotFound);
      }
      var contribution := NewContribution(ref.row, userId, env);
      var err := tx.CreateContribution(contribution, env.faults.createContribution);
      if err.Some? {
        return Err(err.value);
      }
      return Ok(contribution);
    }
  }
}
