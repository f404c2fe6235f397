/**
 * What the use cases take from outside the model: the clock, the UUIDs
 * handed out by uuid.NewString, the outcome of bcrypt hashing, the draws of
 * the random source behind the referral code, and whether each repository
 * or transaction call fails (and with which driver error).
 */
module Effects {
  import opened Wrappers
  import opened Errors
  import opened Util
  import opened Store

  /** For each repository and transaction call, the driver error it returns, if any. */
  datatype Faults = Faults(
    userLookup: Option<Error>,
    roleLookup: Option<Error>,
    linkLookup: Option<Error>,
    begin: Option<Error>,
    createUser: Option<Error>,
    createLink: Option<Error>,
    createContribution: Option<Error>,
    deleteLinks: Option<Error>,
    commit: Option<Error>)

  /** No repository or transaction call fails. */
  predicate NoFaults(f: Faults)
  {
    && f.userLookup.None? && f.roleLookup.None? && f.linkLookup.None?
    && f.begin.None? && f.createUser.None? && f.createLink.None?
    && f.createContribution.None? && f.deleteLinks.None? && f.commit.None?
  }

  datatype Env = Env(
    now: int,
    hashed: Result<string, Error>,
    userId: string,
    linkId: string,
    contributionId: string,
    intn: nat -> CharIndex,
    faults: Faults)

  /** Referral links expire seven days after they are issued. */
  const LinkLifetime: int := 7 * Day

  /** The link both use cases insert for `generatorId`: a fresh id, a generated code, expiry in seven days. */
  function NewReferralLink(generatorId: string, env: Env): (l: ReferralLink)
    ensures l.generatorId == generatorId && IsActive(l)
    ensures IsCode(l.code) && l.expiredAt == env.now + LinkLifetime
  {
    ReferralLink(env.linkId, generatorId, CodeFromDraws(env.intn), env.now + LinkLifetime, env.now, env.now, None)
  }
}
