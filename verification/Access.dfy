/**
 The access predicate both retrieval arms apply: the authorized-collections query with its two LEFT JOINs and
 CASE under SQL's three-valued logic, row-level security, and the OpenSearch filter built from the same query.
 */
module Access {
  import opened Options

  type Id = nat

  datatype Collection = Collection(id: Id, tenant: Id, visibility: string)
  datatype Policy = Policy(tenant: Id, collection: Id, role: Option<Id>, user: Option<Id>, level: string)
  datatype UserRole = UserRole(user: Id, role: Id)
  datatype Document = Document(id: Id, tenant: Id, collection: Id)
  datatype Chunk = Chunk(id: Id, tenant: Id, document: Id)

  datatype Database = Database(collections: seq<Collection>, policies: seq<Policy>, userRoles: seq<UserRole>,
                               documents: seq<Document>, chunks: seq<Chunk>)

  datatype Auth = Auth(tenant: Id, user: Id)

  /** `None`: the constructor's ValueError for an unknown level; also SQL NULL from a CASE without a match. */
  function LevelRank(level: string): Option<int> {
    if level == "read" then Some(1) else if level == "write" then Some(2) else if level == "admin" then Some(3) else None
  }

  // ---------------------------------------------------------------- three-valued logic

  datatype Truth = True | False | Unknown

  function Bool(b: bool): Truth { if b then True else False }

  function And(a: Truth, b: Truth): Truth {
    if a.False? || b.False? then False else if a.True? && b.True? then True else Unknown
  }

  function Or(a: Truth, b: Truth): Truth {
    if a.True? || b.True? then True else if a.False? && b.False? then False else Unknown
  }

  function Equal(a: Option<Id>, b: Option<Id>): Truth {
    if a.Some? && b.Some? then Bool(a.value == b.value) else Unknown
  }

  function AtLeast(a: Option<int>, b: int): Truth {
    if a.Some? then Bool(a.value >= b) else Unknown
  }

  // ---------------------------------------------------------------- the query

  /** One row of the joined relation; a side that did not match is NULL. */
  datatype Row = Row(c: Collection, p: Option<Policy>, ur: Option<UserRole>)
  {
    function PolicyRole(): Option<Id> { if p.Some? then p.value.role else None }
    function PolicyUser(): Option<Id> { if p.Some? then p.value.user else None }
    function PolicyRank(): Option<int> { if p.Some? then LevelRank(p.value.level) else None }
  }

  function MatchPolicies(policies: seq<Policy>, c: Collection): seq<Policy> {
    if policies == [] then []
    else MatchPolicies(policies[..|policies| - 1], c)
         + if policies[|policies| - 1].collection == c.id then [policies[|policies| - 1]] else []
  }

  function MatchRoles(userRoles: seq<UserRole>, role: Option<Id>, user: Id): seq<UserRole> {
    if userRoles == [] then []
    else
      var ur := userRoles[|userRoles| - 1];
      MatchRoles(userRoles[..|userRoles| - 1], role, user)
      + if And(Equal(Some(ur.role), role), Equal(Some(ur.user), Some(user))) == True then [ur] else []
  }

  /** The right side of a LEFT JOIN: the matches, or one NULL. */
  function OrNull<T>(matches: seq<T>): seq<Option<T>> {
    if matches == [] then [None] else seq(|matches|, i requires 0 <= i < |matches| => Some(matches[i]))
  }

  function JoinRoles(c: Collection, p: Option<Policy>, userRoles: seq<UserRole>, user: Id): seq<Row> {
    var roles := OrNull(MatchRoles(userRoles, Row(c, p, None).PolicyRole(), user));
    seq(|roles|, i requires 0 <= i < |roles| => Row(c, p, roles[i]))
  }

  function JoinEach(c: Collection, ps: seq<Option<Policy>>, userRoles: seq<UserRole>, user: Id): seq<Row> {
    if ps == [] then []
    else JoinEach(c, ps[..|ps| - 1], userRoles, user) + JoinRoles(c, ps[|ps| - 1], userRoles, user)
  }

  function Joined(cs: seq<Collection>, policies: seq<Policy>, userRoles: seq<UserRole>, user: Id): seq<Row> {
    if cs == [] then []
    else
      var c := cs[|cs| - 1];
      Joined(cs[..|cs| - 1], policies, userRoles, user) + JoinEach(c, OrNull(MatchPolicies(policies, c)), userRoles, user)
  }

  function Where(row: Row, auth: Auth, rank: int): Truth {
    And(Equal(Some(row.c.tenant), Some(auth.tenant)),
        Or(Or(And(Bool(row.c.visibility == "tenant"), Bool(rank <= 1)),
              And(Equal(row.PolicyUser(), Some(auth.user)), AtLeast(row.PolicyRank(), rank))),
           And(And(Bool(row.PolicyRole().Some?), Bool(row.ur.Some?)), AtLeast(row.PolicyRank(), rank))))
  }

  /** SELECT DISTINCT over the rows whose condition is true. */
  function DistinctIds(rows: seq<Row>, auth: Auth, rank: int): (ids: seq<Id>) {
    if rows == [] then []
    else
      var ids, row := DistinctIds(rows[..|rows| - 1], auth, rank), rows[|rows| - 1];
      if Where(row, auth, rank) == True && row.c.id !in ids then ids + [row.c.id] else ids
  }

  function Mine<T>(rows: seq<T>, tenantOf: T -> Id, tenant: Id): seq<T> {
    if rows == [] then []
    else
      Mine(rows[..|rows| - 1], tenantOf, tenant)
      + if tenantOf(rows[|rows| - 1]) == tenant then [rows[|rows| - 1]] else []
  }

  /** What row-level security lets the session see; `user_roles` carries no policy. */
  function Visible(db: Database, tenant: Id): Database {
    Database(Mine(db.collections, (c: Collection) => c.tenant, tenant), Mine(db.policies, (p: Policy) => p.tenant, tenant),
             db.userRoles, Mine(db.documents, (d: Document) => d.tenant, tenant), Mine(db.chunks, (c: Chunk) => c.tenant, tenant))
  }

  function Authorized(db: Database, auth: Auth, rank: int): seq<Id> {
    var seen := Visible(db, auth.tenant);
    DistinctIds(Joined(seen.collections, seen.policies, seen.userRoles, auth.user), auth, rank)
  }

  // ---------------------------------------------------------------- what it means

  /** A policy row that grants the user at least the level, directly or through a role they hold. */
  predicate Grants(db: Database, auth: Auth, rank: int, collection: Id, p: Policy) {
    && p.tenant == auth.tenant && p.collection == collection
    && LevelRank(p.level).Some? && LevelRank(p.level).value >= rank
    && (p.user == Some(auth.user) || (p.role.Some? && UserRole(auth.user, p.role.value) in db.userRoles))
  }

  ghost predicate MayUse(db: Database, auth: Auth, rank: int, c: Collection) {
    && c.tenant == auth.tenant
    && ((c.visibility == "tenant" && rank <= 1) || exists p :: p in db.policies && Grants(db, auth, rank, c.id, p))
  }

  lemma {:induction false} MineIs<T>(rows: seq<T>, tenantOf: T -> Id, tenant: Id, x: T)
    ensures x in Mine(rows, tenantOf, tenant) <==> x in rows && tenantOf(x) == tenant
  {
    if rows != [] {
      MineIs(rows[..|rows| - 1], tenantOf, tenant, x);
      assert rows == rows[..|rows| - 1] + [rows[|rows| - 1]];
    }
  }

  lemma {:induction false} MatchPoliciesIs(policies: seq<Policy>, c: Collection, p: Policy)
    ensures p in MatchPolicies(policies, c) <==> p in policies && p.collection == c.id
  {
    if policies != [] {
      MatchPoliciesIs(policies[..|policies| - 1], c, p);
      assert policies == policies[..|policies| - 1] + [policies[|policies| - 1]];
    }
  }

  lemma {:induction false} MatchRolesIs(userRoles: seq<UserRole>, role: Option<Id>, user: Id, ur: UserRole)
    ensures ur in MatchRoles(userRoles, role, user) <==> ur in userRoles && role == Some(ur.role) && ur.user == user
  {
    if userRoles != [] {
      MatchRolesIs(userRoles[..|userRoles| - 1], role, user, ur);
      assert userRoles == userRoles[..|userRoles| - 1] + [userRoles[|userRoles| - 1]];
    }
  }

  lemma OrNullIs<T>(matches: seq<T>, x: Option<T>)
    ensures x in OrNull(matches) <==> (matches == [] && x == None) || (x.Some? && x.value in matches)
  {
    if x.Some? && x.value in matches {
      var i :| 0 <= i < |matches| && matches[i] == x.value;
      assert OrNull(matches)[i] == x;
    }
  }

  lemma JoinRolesIs(c: Collection, p: Option<Policy>, userRoles: seq<UserRole>, user: Id, row: Row)
    ensures row in JoinRoles(c, p, userRoles, user) <==>
            row.c == c && row.p == p && row.ur in OrNull(MatchRoles(userRoles, Row(c, p, None).PolicyRole(), user))
  {
    hide OrNull, MatchRoles;
    var roles := OrNull(MatchRoles(userRoles, Row(c, p, None).PolicyRole(), user));
    if row.c == c && row.p == p && row.ur in roles {
      var i :| 0 <= i < |roles| && roles[i] == row.ur;
      assert JoinRoles(c, p, userRoles, user)[i] == row;
    }
  }

  lemma {:induction false} JoinEachIs(c: Collection, ps: seq<Option<Policy>>, userRoles: seq<UserRole>, user: Id, row: Row)
    ensures row in JoinEach(c, ps, userRoles, user) <==> row.p in ps && row in JoinRoles(c, row.p, userRoles, user)
  {
    hide JoinRoles;
    if ps != [] {
      var n := |ps| - 1;
      JoinEachIs(c, ps[..n], userRoles, user, row);
      JoinRolesIs(c, ps[n], userRoles, user, row);
      JoinRolesIs(c, row.p, userRoles, user, row);
      assert ps == ps[..n] + [ps[n]];
    }
  }

  lemma {:induction false} JoinedIs(cs: seq<Collection>, policies: seq<Policy>, userRoles: seq<UserRole>, user: Id, row: Row)
    ensures row in Joined(cs, policies, userRoles, user) <==>
            row.c in cs && row.p in OrNull(MatchPolicies(policies, row.c)) && row in JoinRoles(row.c, row.p, userRoles, user)
  {
    hide JoinRoles, JoinEach, OrNull, MatchPolicies;
    if cs != [] {
      var n := |cs| - 1;
      JoinedIs(cs[..n], policies, userRoles, user, row);
      JoinEachIs(cs[n], OrNull(MatchPolicies(policies, cs[n])), userRoles, user, row);
      JoinRolesIs(cs[n], row.p, userRoles, user, row);
      JoinRolesIs(row.c, row.p, userRoles, user, row);
      assert cs == cs[..n] + [cs[n]];
    }
  }

  predicate NoRepeats(ids: seq<Id>) {
    forall i, j | 0 <= i < j < |ids| :: ids[i] != ids[j]
  }

  lemma {:induction false} DistinctIdsIs(rows: seq<Row>, auth: Auth, rank: int, id: Id)
    ensures id in DistinctIds(rows, auth, rank) <==> exists row :: row in rows && row.c.id == id && Where(row, auth, rank) == True
    ensures NoRepeats(DistinctIds(rows, auth, rank))
  {
    hide Where;
    if rows != [] {
      var n := |rows| - 1;
      DistinctIdsIs(rows[..n], auth, rank, id);
      assert rows == rows[..n] + [rows[n]];
      assert forall row :: row in rows <==> row in rows[..n] || row == rows[n];
    }
  }

  lemma RowMeans(db: Database, auth: Auth, rank: int, row: Row)
    requires var seen := Visible(db, auth.tenant); row in Joined(seen.collections, seen.policies, seen.userRoles, auth.user)
    requires Where(row, auth, rank) == True
    ensures row.c in db.collections && MayUse(db, auth, rank, row.c)
  {
    hide Joined, MatchPolicies, MatchRoles, OrNull, JoinRoles, Mine;
    var seen := Visible(db, auth.tenant);
    JoinedIs(seen.collections, seen.policies, seen.userRoles, auth.user, row);
    MineIs(db.collections, (c: Collection) => c.tenant, auth.tenant, row.c);
    if !(row.c.visibility == "tenant" && rank <= 1) {
      var p := row.p.value;
      OrNullIs(MatchPolicies(seen.policies, row.c), row.p);
      MatchPoliciesIs(seen.policies, row.c, p);
      MineIs(db.policies, (p: Policy) => p.tenant, auth.tenant, p);
      if p.user != Some(auth.user) {
        JoinRolesIs(row.c, row.p, seen.userRoles, auth.user, row);
        OrNullIs(MatchRoles(seen.userRoles, p.role, auth.user), row.ur);
        MatchRolesIs(seen.userRoles, p.role, auth.user, row.ur.value);
        assert row.ur.value == UserRole(auth.user, p.role.value);
      }
      assert Grants(db, auth, rank, row.c.id, p);
    }
  }

  /** A role row for the join, holding the role whenever the user does. */
  lemma RoleRow(userRoles: seq<UserRole>, role: Option<Id>, user: Id) returns (ur: Option<UserRole>)
    ensures ur in OrNull(MatchRoles(userRoles, role, user))
    ensures role.Some? && UserRole(user, role.value) in userRoles ==> ur.Some?
  {
    var matches := MatchRoles(userRoles, role, user);
    if role.Some? && UserRole(user, role.value) in userRoles {
      ur := Some(UserRole(user, role.value));
      MatchRolesIs(userRoles, role, user, ur.value);
    } else {
      ur := OrNull(matches)[0];
    }
    OrNullIs(matches, ur);
  }

  lemma WitnessRow(db: Database, auth: Auth, rank: int, c: Collection) returns (row: Row)
    requires c in db.collections && MayUse(db, auth, rank, c)
    ensures var seen := Visible(db, auth.tenant); row in Joined(seen.collections, seen.policies, seen.userRoles, auth.user)
    ensures row.c == c && Where(row, auth, rank) == True
  {
    hide Joined, MatchPolicies, MatchRoles, JoinRoles, Mine;
    var seen := Visible(db, auth.tenant);
    MineIs(db.collections, (c: Collection) => c.tenant, auth.tenant, c);
    var matches := MatchPolicies(seen.policies, c);
    var p := OrNull(matches)[0];
    if !(c.visibility == "tenant" && rank <= 1) {
      var q :| q in db.policies && Grants(db, auth, rank, c.id, q);
      MineIs(db.policies, (p: Policy) => p.tenant, auth.tenant, q);
      MatchPoliciesIs(seen.policies, c, q);
      p := Some(q);
    }
    OrNullIs(matches, p);
    var ur := RoleRow(seen.userRoles, Row(c, p, None).PolicyRole(), auth.user);
    row := Row(c, p, ur);
    JoinRolesIs(c, p, seen.userRoles, auth.user, row);
    JoinedIs(seen.collections, seen.policies, seen.userRoles, auth.user, row);
  }

  /**
   The query yields, once each, exactly the tenant's collections that are open to the tenant (for reading
   only) or granted at the level or above, to the user or to a role the user holds.
   */
  lemma AuthorizedExactly(db: Database, auth: Auth, rank: int, id: Id)
    ensures id in Authorized(db, auth, rank)
            <==> exists c :: c in db.collections && c.id == id && MayUse(db, auth, rank, c)
    ensures NoRepeats(Authorized(db, auth, rank))
  {
    hide Joined, Where, MayUse, Visible;
    var seen := Visible(db, auth.tenant);
    var rows := Joined(seen.collections, seen.policies, seen.userRoles, auth.user);
    DistinctIdsIs(rows, auth, rank, id);
    if id in Authorized(db, auth, rank) {
      var row :| row in rows && row.c.id == id && Where(row, auth, rank) == True;
      RowMeans(db, auth, rank, row);
    }
    if c :| c in db.collections && c.id == id && MayUse(db, auth, rank, c) {
      var row := WitnessRow(db, auth, rank, c);
    }
  }

  /** A higher level never opens more collections. */
  lemma HigherLevelAdmitsLess(db: Database, auth: Auth, rank: int, higher: int, id: Id)
    requires rank <= higher && id in Authorized(db, auth, higher)
    ensures id in Authorized(db, auth, rank)
  {
    hide Authorized;
    AuthorizedExactly(db, auth, higher, id);
    AuthorizedExactly(db, auth, rank, id);
    var c :| c in db.collections && c.id == id && MayUse(db, auth, higher, c);
    if p :| p in db.policies && Grants(db, auth, higher, c.id, p) { assert Grants(db, auth, rank, c.id, p); }
    assert MayUse(db, auth, rank, c);
  }

  /** Writing needs a policy row: tenant visibility alone never suffices. */
  lemma WritingNeedsAGrant(db: Database, auth: Auth, rank: int, id: Id)
    requires rank >= 2 && id in Authorized(db, auth, rank)
    ensures exists p :: p in db.policies && Grants(db, auth, rank, id, p)
  {
    hide Authorized;
    AuthorizedExactly(db, auth, rank, id);
  }

  /** Read is below write, write below admin, and no other level is known. */
  lemma LevelsAreOrdered(level: string)
    ensures LevelRank("read").value < LevelRank("write").value < LevelRank("admin").value
    ensures LevelRank("read").value <= 1
    ensures LevelRank(level).Some? <==> level == "read" || level == "write" || level == "admin"
  {}

  /** A grant to the user opens its collection for its own level and every lower one. */
  lemma GrantOpens(db: Database, auth: Auth, c: Collection, p: Policy, level: string)
    requires c in db.collections && c.tenant == auth.tenant && p in db.policies && p.tenant == auth.tenant
    requires p.collection == c.id && p.user == Some(auth.user) && LevelRank(p.level).Some?
    requires level == "read" || (level == "write" && p.level != "read") || (level == "admin" && p.level == "admin")
    ensures c.id in Authorized(db, auth, LevelRank(level).value)
  {
    hide Authorized;
    assert Grants(db, auth, LevelRank(level).value, c.id, p);
    assert MayUse(db, auth, LevelRank(level).value, c);
    AuthorizedExactly(db, auth, LevelRank(level).value, c.id);
  }

  /** And not for a higher one: with no other policy on it, the collection stays closed above the grant. */
  lemma GrantOpensNoMore(db: Database, auth: Auth, p: Policy, id: Id, level: string)
    requires LevelRank(level).Some? && LevelRank(p.level).Some? && LevelRank(p.level).value < LevelRank(level).value
    requires forall q | q in db.policies && q.collection == id :: q == p
    ensures id !in Authorized(db, auth, LevelRank(level).value)
  {
    hide Authorized;
    AuthorizedExactly(db, auth, LevelRank(level).value, id);
  }

  // ---------------------------------------------------------------- chunks, by either path

  /** An absent or empty request does not restrict. */
  predicate InScope(requested: Option<seq<Id>>, collection: Id) {
    requested.Some? && requested.value != [] ==> collection in requested.value
  }

  /** The two EXISTS clauses on a chunk row the session can see. */
  ghost predicate PostgresAdmits(db: Database, auth: Auth, rank: int, requested: Option<seq<Id>>, chunk: Chunk) {
    var seen := Visible(db, auth.tenant);
    && chunk in seen.chunks
    && (exists d :: d in seen.documents && d.id == chunk.document && d.collection in Authorized(db, auth, rank))
    && (requested.Some? && requested.value != [] ==>
          exists d :: d in seen.documents && d.id == chunk.document && d.collection in requested.value)
  }

  datatype Indexed = Indexed(chunk: Id, tenant: Id, collection: Id)

  function Restrict(ids: seq<Id>, requested: Option<seq<Id>>): seq<Id> {
    if ids == [] then []
    else Restrict(ids[..|ids| - 1], requested) + if InScope(requested, ids[|ids| - 1]) then [ids[|ids| - 1]] else []
  }

  predicate OpenSearchAdmits(db: Database, auth: Auth, rank: int, requested: Option<seq<Id>>, e: Indexed) {
    var ids := Restrict(Authorized(db, auth, rank), requested);
    ids != [] && e.tenant == auth.tenant && e.collection in ids
  }

  /** The index entry of a chunk: its tenant and its document's collection, in a database with keyed documents. */
  ghost predicate Mirrors(db: Database, chunk: Chunk, e: Indexed) {
    && chunk in db.chunks && e.chunk == chunk.id && e.tenant == chunk.tenant
    && (exists d :: d in db.documents && d.id == chunk.document && d.tenant == chunk.tenant && d.collection == e.collection)
    && (forall d, d' | d in db.documents && d' in db.documents && d.id == d'.id :: d == d')
  }

  lemma {:induction false} RestrictIs(ids: seq<Id>, requested: Option<seq<Id>>, id: Id)
    ensures id in Restrict(ids, requested) <==> id in ids && InScope(requested, id)
  {
    if ids != [] {
      RestrictIs(ids[..|ids| - 1], requested, id);
      assert ids == ids[..|ids| - 1] + [ids[|ids| - 1]];
    }
  }

  /** Both search backends admit the same chunks. */
  lemma BackendsAgree(db: Database, auth: Auth, rank: int, requested: Option<seq<Id>>, chunk: Chunk, e: Indexed)
    requires Mirrors(db, chunk, e)
    ensures PostgresAdmits(db, auth, rank, requested, chunk) <==> OpenSearchAdmits(db, auth, rank, requested, e)
  {
    hide Authorized, Restrict, Mine;
    RestrictIs(Authorized(db, auth, rank), requested, e.collection);
    MineIs(db.chunks, (c: Chunk) => c.tenant, auth.tenant, chunk);
    var d :| d in db.documents && d.id == chunk.document && d.tenant == chunk.tenant && d.collection == e.collection;
    var documents := Visible(db, auth.tenant).documents;
    forall d' ensures d' in documents && d'.id == chunk.document <==> d' == d && d.tenant == auth.tenant {
      MineIs(db.documents, (d: Document) => d.tenant, auth.tenant, d');
    }
  }

  /** Every admitted chunk belongs to the caller's tenant and to a requested collection the caller may use. */
  lemma AdmittedIsAllowed(db: Database, auth: Auth, rank: int, requested: Option<seq<Id>>, chunk: Chunk, e: Indexed)
    requires Mirrors(db, chunk, e) && PostgresAdmits(db, auth, rank, requested, chunk)
    ensures chunk.tenant == auth.tenant && InScope(requested, e.collection)
    ensures exists c :: c in db.collections && c.id == e.collection && MayUse(db, auth, rank, c)
  {
    hide Authorized, Restrict, MayUse;
    BackendsAgree(db, auth, rank, requested, chunk, e);
    RestrictIs(Authorized(db, auth, rank), requested, e.collection);
    AuthorizedExactly(db, auth, rank, e.collection);
  }
}
