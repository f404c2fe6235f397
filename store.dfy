/**
 * The persistence gateway behind the use cases: the users, roles,
 * referral_links and contributions tables, their point lookups, and
 * transactions.
 *
 * Tables are sequences of rows in insertion order. A row whose `deletedAt`
 * is set is soft-deleted: it stays in the table and lookups skip it. A
 * lookup answers with the first matching row in table order (the queries
 * have no ORDER BY, so this is the model's choice when several rows match)
 * or one of two other states, so that "no such row" is never
 * confused with a failed query; a query fault is an explicit parameter.
 * A transaction holds a staged copy of the tables: writes go to the copy,
 * commit publishes it, rollback drops it.
 */
module Store {
  import opened Wrappers
  import opened Errors
  import opened Seqs

  datatype User = User(
    id: string, email: string, password: string, roleId: string,
    createdAt: int, updatedAt: int, deletedAt: Option<int>)

  datatype Role = Role(id: string, name: string, deletedAt: Option<int>)

  datatype ReferralLink = ReferralLink(
    id: string, generatorId: string, code: string, expiredAt: int,
    createdAt: int, updatedAt: int, deletedAt: Option<int>)

  datatype Contribution = Contribution(
    id: string, referralLinkId: string, contributorId: string, accessedAt: int,
    createdAt: int, updatedAt: int, deletedAt: Option<int>)

  datatype Tables = Tables(
    users: seq<User>, roles: seq<Role>, links: seq<ReferralLink>, contributions: seq<Contribution>)

  /** Answer of a point lookup: the row, no row, or a failed query. */
  datatype Lookup<T> = Found(row: T) | NotFound | Failed(error: Error)

  // ---------------------------------------------------------------------------
  // Lookups (each reads the committed tables)
  // ---------------------------------------------------------------------------

  /**
   * The row GetUserByEmailAndRole selects: a live user with this email whose
   * role_id joins a role row of this name (the join does not filter the
   * role's own deleted_at).
   */
  predicate UserMatches(roles: seq<Role>, u: User, email: string, roleName: string)
  {
    u.deletedAt.None? && u.email == email &&
    exists r :: r in roles && r.id == u.roleId && r.name == roleName
  }

  function GetUserByEmailAndRole(t: Tables, email: string, roleName: string, fault: Option<Error>): (r: Lookup<User>)
    ensures fault.Some? ==> r == Failed(fault.value)
    ensures fault.None? ==> !r.Failed?
    ensures r.Found? ==> r.row in t.users && UserMatches(t.roles, r.row, email, roleName)
    ensures r.NotFound? <==> fault.None? && forall u :: u in t.users ==> !UserMatches(t.roles, u, email, roleName)
  {
    if fault.Some? then Failed(fault.value)
    else match FirstIndex(t.users, u => UserMatches(t.roles, u, email, roleName))
      case None => NotFound
      case Some(i) => Found(t.users[i])
  }

  function GetRoleByName(t: Tables, name: string, fault: Option<Error>): (r: Lookup<Role>)
    ensures fault.Some? ==> r == Failed(fault.value)
    ensures fault.None? ==> !r.Failed?
    ensures r.Found? ==> r.row in t.roles && r.row.name == name && r.row.deletedAt.None?
    ensures r.NotFound? <==> fault.None? && forall x :: x in t.roles ==> !(x.name == name && x.deletedAt.None?)
  {
    if fault.Some? then Failed(fault.value)
    else match FirstIndex(t.roles, (x: Role) => x.name == name && x.deletedAt.None?)
      case None => NotFound
      case Some(i) => Found(t.roles[i])
  }

  predicate IsActive(l: ReferralLink)
  {
    l.deletedAt.None?
  }

  /** The live referral link with this code; its expiry is not consulted. */
  function GetReferralLinkByCode(t: Tables, code: string, fault: Option<Error>): (r: Lookup<ReferralLink>)
    ensures fault.Some? ==> r == Failed(fault.value)
    ensures fault.None? ==> !r.Failed?
    ensures r.Found? ==> r.row in t.links && r.row.code == code && IsActive(r.row)
    ensures r.NotFound? <==> fault.None? && forall l :: l in t.links ==> !(l.code == code && IsActive(l))
  {
    if fault.Some? then Failed(fault.value)
    else match FirstIndex(t.links, (l: ReferralLink) => l.code == code && IsActive(l))
      case None => NotFound
      case Some(i) => Found(t.links[i])
  }

  // ---------------------------------------------------------------------------
  // Soft deletion of referral links and the one-active-link invariant
  // ---------------------------------------------------------------------------

  /** The link after DeleteReferralLinkByUserID(userId) has run over it at `now`. */
  function Retire(l: ReferralLink, userId: string, now: int): ReferralLink
  {
    if l.generatorId == userId && IsActive(l) then l.(deletedAt := Some(now)) else l
  }

  /**
   * Soft-deletes every live link generated by `userId`, stamping it with
   * `now`; every other row is left as it was.
   */
  function SoftDeleteLinks(links: seq<ReferralLink>, userId: string, now: int): (r: seq<ReferralLink>)
    ensures |r| == |links|
    ensures forall i :: 0 <= i < |r| && r[i].generatorId == userId ==> !IsActive(r[i])
    ensures forall i :: 0 <= i < |r| && links[i].generatorId != userId ==> r[i] == links[i]
    ensures forall i :: 0 <= i < |r| && !IsActive(links[i]) ==> r[i] == links[i]
    ensures forall i :: 0 <= i < |r| ==> r[i].(deletedAt := links[i].deletedAt) == links[i]
  {
    seq(|links|, i requires 0 <= i < |links| => Retire(links[i], userId, now))
  }

  /** A generator has at most one live referral link. */
  ghost predicate AtMostOneActiveLink(links: seq<ReferralLink>)
  {
    forall i, j ::
      0 <= i < |links| && 0 <= j < |links| &&
      IsActive(links[i]) && IsActive(links[j]) && links[i].generatorId == links[j].generatorId
      ==> i == j
  }

  /**
   * Rotation: after the user's links are soft-deleted and one live link of
   * theirs is appended, that link is the user's only live link.
   */
  lemma {:induction false} RotationLeavesOnlyNewLink(links: seq<ReferralLink>, userId: string, now: int, newLink: ReferralLink)
    ensures var r := SoftDeleteLinks(links, userId, now) + [newLink];
      forall i :: 0 <= i < |r| && IsActive(r[i]) && r[i].generatorId == userId ==> i == |links|
  {
    var d := SoftDeleteLinks(links, userId, now);
    assert forall i :: 0 <= i < |links| ==> (d + [newLink])[i] == d[i];
  }

  /** Rotation keeps every generator at most one live link, whatever it is applied to. */
  lemma RotationKeepsOneActiveLink(links: seq<ReferralLink>, userId: string, now: int, newLink: ReferralLink)
    requires newLink.generatorId == userId
    requires AtMostOneActiveLink(links)
    ensures AtMostOneActiveLink(SoftDeleteLinks(links, userId, now) + [newLink])
  {
    var d := SoftDeleteLinks(links, userId, now);
    var r := d + [newLink];
    RotationLeavesOnlyNewLink(links, userId, now, newLink);
    assert forall i :: 0 <= i < |links| ==> r[i] == d[i];
    assert forall i :: 0 <= i < |links| && IsActive(d[i]) ==> d[i] == links[i];
  }

  /** Appending a live link for a generator with no live link keeps the invariant. */
  lemma InsertForNewGeneratorKeepsOneActiveLink(links: seq<ReferralLink>, newLink: ReferralLink)
    requires AtMostOneActiveLink(links)
    requires forall l :: l in links && IsActive(l) ==> l.generatorId != newLink.generatorId
    ensures AtMostOneActiveLink(links + [newLink])
  {
    var r := links + [newLink];
    assert forall k :: 0 <= k < |links| ==> r[k] == links[k] && links[k] in links;
  }

  // ---------------------------------------------------------------------------
  // The database and its transactions
  // ---------------------------------------------------------------------------

  /**
   * The committed tables, how many transactions are open on them, and how
   * many have been opened in all.
   */
  class Database {
    var tables: Tables
    var openTx: nat
    var begun: nat

    constructor(initial: Tables)
      ensures tables == initial && openTx == 0 && begun == 0
    {
      tables := initial;
      openTx := 0;
      begun := 0;
    }

    /** BeginTx: a fresh transaction whose staged copy is the committed tables, or the driver's error. */
    method BeginTx(fault: Option<Error>) returns (r: Result<Tx, Error>)
      modifies this
      ensures tables == old(tables)
      ensures fault.Some? ==> r == Err(fault.value) && openTx == old(openTx) && begun == old(begun)
      ensures fault.None? ==> r.Ok? && fresh(r.value) && r.value.db == this
      ensures fault.None? ==> r.value.staged == tables && !r.value.done
      ensures fault.None? ==> openTx == old(openTx) + 1 && begun == old(begun) + 1
    {
      if fault.Some? {
        return Err(fault.value);
      }
      var tx := new Tx(this);
      openTx := openTx + 1;
      begun := begun + 1;
      return Ok(tx);
    }
  }

  /** A unit of work: writes change `staged` until the transaction is done. */
  class Tx {
    const db: Database
    var staged: Tables
    var done: bool

    constructor(db: Database)
      ensures this.db == db && staged == db.tables && !done
    {
      this.db := db;
      staged := db.tables;
      done := false;
    }

    /** INSERT INTO users through this transaction. */
    method CreateUser(u: User, fault: Option<Error>) returns (err: Option<Error>)
      requires !done
      modifies this
      ensures !done && err == fault
      ensures staged == if fault.Some? then old(staged) else old(staged).(users := old(staged).users + [u])
    {
      if fault.Some? {
        return fault;
      }
      staged := staged.(users := staged.users + [u]);
      return None;
    }

    /** INSERT INTO referral_links through this transaction. */
    method CreateReferralLink(l: ReferralLink, fault: Option<Error>) returns (err: Option<Error>)
      requires !done
      modifies this
      ensures !done && err == fault
      ensures staged == if fault.Some? then old(staged) else old(staged).(links := old(staged).links + [l])
    {
      if fault.Some? {
        return fault;
      }
      staged := staged.(links := staged.links + [l]);
      return None;
    }

    /** INSERT INTO contributions through this transaction. */
    method CreateContribution(c: Contribution, fault: Option<Error>) returns (err: Option<Error>)
      requires !done
      modifies this
      ensures !done && err == fault
      ensures staged == if fault.Some? then old(staged) else old(staged).(contributions := old(staged).contributions + [c])
    {
      if fault.Some? {
        return fault;
      }
      staged := staged.(contributions := staged.contributions + [c]);
      return None;
    }

    /** DeleteReferralLinkByUserID: soft-deletes the user's live links through this transaction. */
    method DeleteReferralLinkByUserID(userId: string, now: int, fault: Option<Error>) returns (err: Option<Error>)
      requires !done
      modifies this
      ensures !done && err == fault
      ensures staged == if fault.Some? then old(staged)
                        else old(staged).(links := SoftDeleteLinks(old(staged).links, userId, now))
    {
      if fault.Some? {
        return fault;
      }
      staged := staged.(links := SoftDeleteLinks(staged.links, userId, now));
      return None;
    }

    /** Publishes the staged tables; a failed commit publishes nothing. Either way the transaction ends. */
    method Commit(fault: Option<Error>) returns (err: Option<Error>)
      requires !done && db.openTx > 0
      modifies this, db
      ensures done && err == fault && staged == old(staged)
      ensures db.openTx == old(db.openTx) - 1 && db.begun == old(db.begun)
      ensures db.tables == if fault.Some? then old(db.tables) else old(staged)
    {
      done := true;
      db.openTx := db.openTx - 1;
      if fault.Some? {
        return fault;
      }
      db.tables := staged;
      return None;
    }

    /** Drops the staged tables and ends the transaction. */
    method Rollback()
      requires !done && db.openTx > 0
      modifies this, db
      ensures done && staged == old(staged)
      ensures db.openTx == old(db.openTx) - 1 && db.begun == old(db.begun) && db.tables == old(db.tables)
    {
      done := true;
      db.openTx := db.openTx - 1;
    }
  }
}
