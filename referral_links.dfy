/**
 * Referral-link rotation (GenerateReferralLink in
 * usecase/referral_link_usecase.go): inside one transaction, soft-delete the
 * user's links, then insert a fresh one, then commit.
 */
module ReferralLinks {
  import opened Wrappers
  import opened Errors
  import opened Util
  import opened Store
  import opened Effects

  /** What a rotation leaves behind: its result, the committed tables, whether it opened a transaction. */
  datatype RotationOutcome = RotationOutcome(result: Result<ReferralLink, Error>, tables: Tables, openedTx: bool)

  /**
   * One rotation for `userId` from committed tables `t`. A failure at any
   * step leaves the tables as they were; success soft-deletes the user's
   * links and appends the new one, and touches no other table.
   */
  function GenerateReferralLinkSpec(t: Tables, userId: string, env: Env): (o: RotationOutcome)
    ensures o.result.Err? ==> o.tables == t
    ensures env.faults.begin.Some? ==> o == RotationOutcome(Err(env.faults.begin.value), t, false)
    ensures o.result.Ok? ==>
      && o.openedTx
      && o.result.value.generatorId == userId
      && IsCode(o.result.value.code)
      && o.result.value.expiredAt == env.now + 7 * Day
      && o.tables == t.(links := SoftDeleteLinks(t.links, userId, env.now) + [o.result.value])
  {
    if env.faults.begin.Some? then RotationOutcome(Err(env.faults.begin.value), t, false)
    else if env.faults.deleteLinks.Some? then RotationOutcome(Err(env.faults.deleteLinks.value), t, true)
    else if env.faults.createLink.Some? then RotationOutcome(Err(env.faults.createLink.value), t, true)
    else if env.faults.commit.Some? then RotationOutcome(Err(env.faults.commit.value), t, true)
    else
      var link := NewReferralLink(userId, env);
      RotationOutcome(Ok(link), t.(links := SoftDeleteLinks(t.links, userId, env.now) + [link]), true)
  }

  /** A rotation in which no call fails succeeds and returns the new link. */
  lemma RotationSucceeds(t: Tables, userId: string, env: Env)
    requires env.faults.begin.None? && env.faults.deleteLinks.None?
    requires env.faults.createLink.None? && env.faults.commit.None?
    ensures GenerateReferralLinkSpec(t, userId, env).result == Ok(NewReferralLink(userId, env))
  {
  }

  /** Each failing step surfaces its own error, in the order begin, delete, insert, commit. */
  lemma RotationSurfacesFirstFailure(t: Tables, userId: string, env: Env)
    ensures var o := GenerateReferralLinkSpec(t, userId, env);
      && (env.faults.begin.None? && env.faults.deleteLinks.Some? ==>
            o == RotationOutcome(Err(env.faults.deleteLinks.value), t, true))
      && (env.faults.begin.None? && env.faults.deleteLinks.None? && env.faults.createLink.Some? ==>
            o == RotationOutcome(Err(env.faults.createLink.value), t, true))
      && (env.faults.begin.None? && env.faults.deleteLinks.None? && env.faults.createLink.None? &&
          env.faults.commit.Some? ==>
            o == RotationOutcome(Err(env.faults.commit.value), t, true))
  {
  }

  /** After a committed rotation the new link is the user's only live link. */
  lemma RotationLeavesOnlyTheNewLink(t: Tables, userId: string, env: Env)
    requires GenerateReferralLinkSpec(t, userId, env).result.Ok?
    ensures var o := GenerateReferralLinkSpec(t, userId, env);
      forall i :: 0 <= i < |o.tables.links| && IsActive(o.tables.links[i]) && o.tables.links[i].generatorId == userId
        ==> o.tables.links[i] == o.result.value
  {
    RotationLeavesOnlyNewLink(t.links, userId, env.now, NewReferralLink(userId, env));
  }

  /** Every rotation, committed or not, keeps each generator at most one live link. */
  lemma RotationKeepsInvariant(t: Tables, userId: string, env: Env)
    requires AtMostOneActiveLink(t.links)
    ensures AtMostOneActiveLink(GenerateReferralLinkSpec(t, userId, env).tables.links)
  {
    if GenerateReferralLinkSpec(t, userId, env).result.Ok? {
      RotationKeepsOneActiveLink(t.links, userId, env.now, NewReferralLink(userId, env));
    }
  }

  /** Deletion is keyed by the user: another generator's links are exactly as they were. */
  lemma RotationLeavesOtherUsersAlone(t: Tables, userId: string, env: Env, i: nat)
    requires i < |t.links| && t.links[i].generatorId != userId
    ensures var links := GenerateReferralLinkSpec(t, userId, env).tables.links;
      i < |links| && links[i] == t.links[i]
  {
  }

  /** A failed insert rolls back: the link that was live before is still live. */
  lemma FailedInsertKeepsPreviousLink(t: Tables, userId: string, env: Env, i: nat)
    requires env.faults.createLink.Some?
    requires i < |t.links| && IsActive(t.links[i])
    ensures var links := GenerateReferralLinkSpec(t, userId, env).tables.links;
      i < |links| && links[i] == t.links[i] && IsActive(links[i])
  {
  }

  class ReferralLinkUsecase {
    const db: Database

    constructor(db: Database)
      ensures this.db == db
    {
      this.db := db;
    }

    /**
     * Begins a transaction, soft-deletes the user's links through it,
     * inserts a fresh link through it and commits; a failure after BeginTx
     * rolls back. The transaction is always closed on return.
     */
    method GenerateReferralLink(userId: string, env: Env) returns (r: Result<ReferralLink, Error>)
      modifies db
      ensures r == GenerateReferralLinkSpec(old(db.tables), userId, env).result
      ensures db.tables == GenerateReferralLinkSpec(old(db.tables), userId, env).tables
      ensures db.begun == old(db.begun) + if GenerateReferralLinkSpec(old(db.tables), userId, env).openedTx then 1 else 0
      ensures db.openTx == old(db.openTx)
    {
      var begun := db.BeginTx(env.faults.begin);
      if begun.Err? {
        return Err(begun.error);
      }
      var tx := begun.value;

      var err := tx.DeleteReferralLinkByUserID(userId, env.now, env.faults.deleteLinks);
      if err.Some? {
        tx.Rollback();
        return Err(err.value);
      }

      var code := GenerateUniqueCode(env.intn);
      var newReferralLink := ReferralLink(env.linkId, userId, code, env.now + LinkLifetime, env.now, env.now, None);
      err := tx.CreateReferralLink(newReferralLink, env.faults.createLink);
      if err.Some? {
        tx.Rollback();
        return Err(err.value);
      }

      err := tx.Commit(env.faults.commit);
      if err.Some? {
        return Err(err.value);
      }
      return Ok(newReferralLink);
    }
  }
}
