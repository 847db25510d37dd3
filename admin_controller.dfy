/**
 * The admin handlers of controllers/admin.js: creating an admin account, and,
 * behind the admin middleware, the unscoped request listing and the paged
 * listings of user and partner accounts. Login and logout are `Auth.Login`
 * and `Auth.Logout`.
 */
module AdminController {
  import opened Wrappers
  import opened Js
  import opened Roles
  import opened Primitives
  import opened Http
  import opened Query
  import opened Listing
  import A = Accounts
  import Rq = Requests
  import Store

  // ----- postAdmins -----

  /**
   * postAdmins: create an admin from the picked `email` and `password`; 200
   * with its public JSON, or 400.
   */
  method PostAdmins(db: Store.Db, body: A.Credentials, salt: string, now: int) returns (resp: Response)
    requires db.Valid()
    modifies db`users, db`partners, db`admins
    ensures db.Valid()
    ensures match A.CreateOutcome(db.lib, db.host, Admin, old(db.admins), A.NewAccount(body.email, body.password, None, None, None),
                                  salt, Store.NextAccountId(old(db.admins)), now)
      case None => resp == Response(400, None, Empty) && db.admins == old(db.admins)
      case Some(a) => resp == Response(200, None, Object(A.ToPublicJson(Admin, a))) && db.admins == old(db.admins) + [a]
    ensures db.users == old(db.users) && db.partners == old(db.partners)
  {
    var created := db.CreateAccount(Admin, A.NewAccount(body.email, body.password, None, None, None), salt, now);
    assert db.Table(User) == old(db.Table(User)) && db.Table(Partner) == old(db.Table(Partner));
    if created.None? {
      return Response(400, None, Empty);
    }
    resp := Response(200, None, Object(A.ToPublicJson(Admin, created.value)));
  }

  /**
   * A created admin has the lower-cased e-mail, a hash the password
   * compares against, and a public JSON of exactly id, email and the
   * timestamps.
   */
  lemma AdminCreated(lib: Library, host: Host, table: seq<A.Account>, body: A.Credentials, salt: string, id: int, now: int)
    requires Lawful(lib)
    requires A.CreateOutcome(lib, host, Admin, table, A.NewAccount(body.email, body.password, None, None, None), salt, id, now).Some?
    ensures var a := A.CreateOutcome(lib, host, Admin, table, A.NewAccount(body.email, body.password, None, None, None), salt, id, now).value;
      && body.email.Some? && a.email == ToLower(body.email.value)
      && body.password.Some? && lib.bcryptCompare(body.password.value, a.passwordHash)
      && a.partner.None?
      && A.ToPublicJson(Admin, a).Keys == {"id", "email", "createdAt", "updatedAt"}
  {
    var a := A.CreateOutcome(lib, host, Admin, table, A.NewAccount(body.email, body.password, None, None, None), salt, id, now).value;
    A.CreatedRow(lib, host, Admin, table, A.NewAccount(body.email, body.password, None, None, None), salt, id, now);
    A.PublicJsonKeys(Admin, a);
  }

  // ----- getAdminsRequests -----

  /**
   * The admin listing's `where`: no owner. A non-empty `partnerId` reaches
   * an undeclared variable and throws (None); a non-empty `userId` filters,
   * then the status and time filters.
   */
  function AdminWhere(host: Host, q: QueryString): Option<Where> {
    if NonEmpty(q, "partnerId") then None
    else
      var w: Where := map[];
      var w1 := if NonEmpty(q, "userId") then w["userId" := Eq(Str(q["userId"]))] else w;
      Some(WithTime(host, WithStatus(w1, q), q))
  }

  function AdminQuery(host: Host, q: QueryString, rows: seq<Rq.Request>): Option<Counted<Rq.Request>> {
    match AdminWhere(host, q)
    case None => None
    case Some(w) => RunRequests(rows, w, PageOf(q))
  }

  method GetAdminsRequests(db: Store.Db, q: QueryString) returns (resp: Response)
    ensures resp == ListingResponse(PageOf(q), AdminQuery(db.host, q, db.requests))
  {
    var page := ReadPage(q);
    var where: Where := map[];
    if NonEmpty(q, "partnerId") {
      return Response(500, None, Empty);
    }
    if NonEmpty(q, "userId") {
      where := where["userId" := Eq(Str(q["userId"]))];
    }
    where := AddOptionalFilters(db.host, where, q);
    resp := RespondWithRequests(db.requests, where, page);
  }

  /**
   * The admin listing fails exactly when a non-empty `partnerId` is sent;
   * otherwise every listed request meets the `userId` and status filters.
   */
  lemma AdminListingRules(host: Host, q: QueryString, rows: seq<Rq.Request>, x: Rq.Request)
    ensures AdminQuery(host, q, rows).None? <==> NonEmpty(q, "partnerId")
    ensures AdminQuery(host, q, rows).Some? && x in AdminQuery(host, q, rows).value.rows ==>
      && x in rows
      && (NonEmpty(q, "userId") ==> ToDecimal(x.userId) == q["userId"])
      && ("status" in q ==> x.status == q["status"])
  {
    if !NonEmpty(q, "partnerId") {
      var w := AdminWhere(host, q).value;
      assert w.Keys <= Rq.Schema;
      if x in AdminQuery(host, q, rows).value.rows {
        var w0: Where := map[];
        if NonEmpty(q, "userId") {
          var w1 := w0["userId" := Eq(Str(q["userId"]))];
          ListedRowMeets(host, w1, q, rows, PageOf(q), x, "userId", Str(q["userId"]));
          Rq.JsonColumns(x);
        } else {
          RunRequestsMatches(rows, w, PageOf(q), x);
          OptionalFiltersHold(host, w0, q, x);
        }
      }
    }
  }

  /** The admin `where` as evidently intended: a non-empty `partnerId` filters on that column. */
  function AdminWhereIntended(host: Host, q: QueryString): Where {
    var w: Where := map[];
    var w1 := if NonEmpty(q, "partnerId") then w["partnerId" := Eq(Str(q["partnerId"]))] else w;
    var w2 := if NonEmpty(q, "userId") then w1["userId" := Eq(Str(q["userId"]))] else w1;
    WithTime(host, WithStatus(w2, q), q)
  }

  /**
   * The intended admin listing never fails, and every listed request meets
   * the `partnerId`, `userId` and status filters sent.
   */
  lemma IntendedAdminFilters(host: Host, q: QueryString, rows: seq<Rq.Request>, x: Rq.Request)
    ensures RunRequests(rows, AdminWhereIntended(host, q), PageOf(q)).Some?
    ensures x in RunRequests(rows, AdminWhereIntended(host, q), PageOf(q)).value.rows ==>
      && x in rows
      && (NonEmpty(q, "partnerId") ==> ToDecimal(x.partnerId) == q["partnerId"])
      && (NonEmpty(q, "userId") ==> ToDecimal(x.userId) == q["userId"])
      && ("status" in q ==> x.status == q["status"])
  {
    assert AdminWhereIntended(host, q).Keys <= Rq.Schema;
    if x in RunRequests(rows, AdminWhereIntended(host, q), PageOf(q)).value.rows {
      var w0: Where := map[];
      var w1 := if NonEmpty(q, "partnerId") then w0["partnerId" := Eq(Str(q["partnerId"]))] else w0;
      var w2 := if NonEmpty(q, "userId") then w1["userId" := Eq(Str(q["userId"]))] else w1;
      RunRequestsMatches(rows, AdminWhereIntended(host, q), PageOf(q), x);
      OptionalFiltersHold(host, w2, q, x);
      if NonEmpty(q, "partnerId") {
        ListedRowMeets(host, w2, q, rows, PageOf(q), x, "partnerId", Str(q["partnerId"]));
      }
      if NonEmpty(q, "userId") {
        ListedRowMeets(host, w2, q, rows, PageOf(q), x, "userId", Str(q["userId"]));
      }
      Rq.JsonColumns(x);
    }
  }

  /**
   * The listing is scoped to no owner: without filters it counts every
   * request in the table and pages through all of them.
   */
  lemma AdminListingUnscoped(host: Host, q: QueryString, rows: seq<Rq.Request>)
    requires "partnerId" !in q && "userId" !in q && "status" !in q && "after" !in q && "before" !in q
    ensures AdminQuery(host, q, rows) == Some(Counted(|rows|, Window(rows, PageOf(q).offset, PageOf(q).limit)))
  {
    assert AdminWhere(host, q) == Some(map[]);
    AllSelected(rows, Rq.ToJson);
  }

  // ----- getAdminsUsers and getAdminsPartners -----

  /** The public JSON of each account, in order. */
  function PublicJsons(role: Role, rows: seq<A.Account>): (r: seq<Json>)
    ensures |r| == |rows|
    ensures forall i :: 0 <= i < |rows| ==> r[i] == A.ToPublicJson(role, rows[i])
  {
    seq(|rows|, i requires 0 <= i < |rows| => A.ToPublicJson(role, rows[i]))
  }

  /** The response of an account listing: the page, the table's size and the page's public JSON. */
  function AccountListing(role: Role, key: string, table: seq<A.Account>, q: QueryString): Response {
    var p := PageOf(q);
    Response(200, None, Listing(p.offset, p.limit, |table|, key, PublicJsons(role, Window(table, p.offset, p.limit))))
  }

  /** `rows.forEach(account => result.<key>.push(account.toPublicJSON()))`. */
  method PushPublic(role: Role, rows: seq<A.Account>) returns (items: seq<Json>)
    ensures items == PublicJsons(role, rows)
  {
    ghost var all := PublicJsons(role, rows);
    items := [];
    for i := 0 to |rows|
      invariant items == all[..i]
    {
      assert all[..i + 1] == all[..i] + [A.ToPublicJson(role, rows[i])];
      items := items + [A.ToPublicJson(role, rows[i])];
    }
    assert all[..|rows|] == all;
  }

  /**
   * An account listing: read the page, run findAndCountAll with no `where`,
   * push each row's toPublicJSON().
   */
  method ListAccounts(table: seq<A.Account>, role: Role, key: string, q: QueryString) returns (resp: Response)
    ensures resp == AccountListing(role, key, table, q)
  {
    var page := ReadPage(q);
    var found := FindAndCountAll(table, A.ToJson, A.Columns(role), map[], page.offset, page.limit).value;
    AllSelected(table, A.ToJson);
    var items := PushPublic(role, found.rows);
    resp := Response(200, None, Listing(page.offset, page.limit, found.count, key, items));
  }

  method GetAdminsUsers(db: Store.Db, q: QueryString) returns (resp: Response)
    ensures resp == AccountListing(User, "users", db.users, q)
  {
    resp := ListAccounts(db.users, User, "users", q);
  }

  method GetAdminsPartners(db: Store.Db, q: QueryString) returns (resp: Response)
    ensures resp == AccountListing(Partner, "partners", db.partners, q)
  {
    resp := ListAccounts(db.partners, Partner, "partners", q);
  }

  /**
   * An account listing counts the whole table, lists a window of it in
   * table order, and shows each listed account through its public JSON:
   * exactly the role's public attributes, never a salt, a password hash or
   * a password.
   */
  lemma AccountListingHidesSecrets(role: Role, key: string, table: seq<A.Account>, q: QueryString)
    requires forall a :: a in table ==> A.FitsRole(role, a)
    ensures var body := AccountListing(role, key, table, q).body;
      && body.count == |table|
      && |body.items| <= |table|
      && forall i :: 0 <= i < |body.items| ==>
        && body.items[i].Keys == A.PublicKeys(role)
        && "salt" !in body.items[i] && "password_hash" !in body.items[i] && "password" !in body.items[i]
  {
    var p := PageOf(q);
    var page := Window(table, p.offset, p.limit);
    forall a | a in page ensures A.FitsRole(role, a) {
      var i :| 0 <= i < |page| && page[i] == a;
      assert page[i] == table[Skip(p.offset, |table|) + i];
    }
    PublicJsonsShape(role, page);
  }

  /** Each public JSON of accounts that fit their role holds exactly the role's public attributes. */
  lemma PublicJsonsShape(role: Role, rows: seq<A.Account>)
    requires forall a :: a in rows ==> A.FitsRole(role, a)
    ensures forall i :: 0 <= i < |rows| ==>
      && PublicJsons(role, rows)[i].Keys == A.PublicKeys(role)
      && "salt" !in PublicJsons(role, rows)[i] && "password_hash" !in PublicJsons(role, rows)[i]
      && "password" !in PublicJsons(role, rows)[i]
  {
    forall i | 0 <= i < |rows| ensures PublicJsons(role, rows)[i].Keys == A.PublicKeys(role) {
      A.PublicJsonKeys(role, rows[i]);
    }
  }
}
