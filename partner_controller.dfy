/**
 * The partner handlers of controllers/partner.js that sit behind the
 * partner middleware: the request listing, reading one request and patching
 * one. Login and logout are `Auth.Login` and `Auth.Logout`.
 *
 * As in the user handlers, the caller is read through an attribute `uid`
 * the partner model does not define; `UserController.Owner` (the caller's
 * id) is what the handler methods use.
 */
module PartnerController {
  import opened Wrappers
  import opened Js
  import opened Roles
  import opened Primitives
  import opened Http
  import opened Query
  import opened Listing
  import A = Accounts
  import Rq = Requests
  import Store
  import Editing
  import U = UserController

  // ----- getPartnersRequests -----

  /** The listing `where`: the owner, an optional non-empty `userId`, then the status and time filters. */
  function ListingWhere(host: Host, owner: Value, q: QueryString): Where {
    var w := map["partnerId" := Eq(owner)];
    var w1 := if NonEmpty(q, "userId") then w["userId" := Eq(Str(q["userId"]))] else w;
    WithTime(host, WithStatus(w1, q), q)
  }

  /**
   * The listing's findAndCountAll. The handler never reads `offset` or
   * `limit` from the query: every page is the default one.
   */
  function ListingQuery(host: Host, owner: Value, q: QueryString, rows: seq<Rq.Request>): Option<Counted<Rq.Request>> {
    RunRequests(rows, ListingWhere(host, owner, q), DefaultPage)
  }

  method GetPartnersRequests(db: Store.Db, caller: A.Account, q: QueryString) returns (resp: Response)
    ensures resp == ListingResponse(DefaultPage, ListingQuery(db.host, U.Owner(caller), q, db.requests))
  {
    var page := DefaultPage;
    var where := map["partnerId" := Eq(U.Owner(caller))];
    if NonEmpty(q, "userId") {
      where := where["userId" := Eq(Str(q["userId"]))];
    }
    where := AddOptionalFilters(db.host, where, q);
    resp := RespondWithRequests(db.requests, where, page);
  }

  /**
   * The listing never fails, lists only requests addressed to the caller
   * (and to the user asked for, when one is), meets the status and time
   * filters, and holds at most the first five of them.
   */
  lemma ListingScopedToPartner(host: Host, a: A.Account, q: QueryString, rows: seq<Rq.Request>)
    ensures ListingQuery(host, U.Owner(a), q, rows).Some?
    ensures var c := ListingQuery(host, U.Owner(a), q, rows).value;
      && |c.rows| <= 5
      && forall x :: x in c.rows ==>
        && x in rows && x.partnerId == a.id
        && (NonEmpty(q, "userId") ==> ToDecimal(x.userId) == q["userId"])
        && ("status" in q ==> x.status == q["status"])
  {
    assert ListingWhere(host, U.Owner(a), q).Keys <= Rq.Schema;
    var c := ListingQuery(host, U.Owner(a), q, rows).value;
    forall x | x in c.rows
      ensures x in rows && x.partnerId == a.id
      ensures NonEmpty(q, "userId") ==> ToDecimal(x.userId) == q["userId"]
      ensures "status" in q ==> x.status == q["status"]
    {
      ListedRow(host, a, q, rows, x);
    }
  }

  /** One listed row meets the owner, user and status conditions. */
  lemma ListedRow(host: Host, a: A.Account, q: QueryString, rows: seq<Rq.Request>, x: Rq.Request)
    requires ListingQuery(host, U.Owner(a), q, rows).Some?
    requires x in ListingQuery(host, U.Owner(a), q, rows).value.rows
    ensures x in rows && x.partnerId == a.id
    ensures NonEmpty(q, "userId") ==> ToDecimal(x.userId) == q["userId"]
    ensures "status" in q ==> x.status == q["status"]
  {
    var w0 := map["partnerId" := Eq(U.Owner(a))];
    var w1 := if NonEmpty(q, "userId") then w0["userId" := Eq(Str(q["userId"]))] else w0;
    ListedRowMeets(host, w1, q, rows, DefaultPage, x, "partnerId", U.Owner(a));
    if NonEmpty(q, "userId") {
      ListedRowMeets(host, w1, q, rows, DefaultPage, x, "userId", Str(q["userId"]));
    }
    Rq.JsonColumns(x);
  }

  /** As written the owner is undefined: the listing is always empty, with a count of 0. */
  lemma ListingAsWrittenIsEmpty(host: Host, a: A.Account, q: QueryString, rows: seq<Rq.Request>)
    ensures ListingQuery(host, U.OwnerAsWritten(a), q, rows) == Some(Counted(0, []))
  {
    var w := ListingWhere(host, U.OwnerAsWritten(a), q);
    assert w.Keys <= Rq.Schema;
    assert w["partnerId"] == Eq(Undefined);
    NullEqSelectsNothing(rows, Rq.ToJson, w, "partnerId");
  }

  /**
   * The handler's documentation promises `offset` and `limit`, but the
   * listing is the same whatever they say: dropping them from the query
   * changes nothing.
   */
  lemma ListingIgnoresPage(host: Host, owner: Value, q: QueryString, rows: seq<Rq.Request>)
    ensures ListingQuery(host, owner, q, rows) == ListingQuery(host, owner, q - {"offset", "limit"}, rows)
  {
    var q' := q - {"offset", "limit"};
    assert WithStatus(map["partnerId" := Eq(owner)], q) == WithStatus(map["partnerId" := Eq(owner)], q');
    assert ListingWhere(host, owner, q) == ListingWhere(host, owner, q');
  }

  /** The listing as documented: the same `where`, paged by the query's `offset` and `limit`. */
  function ListingQueryIntended(host: Host, owner: Value, q: QueryString, rows: seq<Rq.Request>): Option<Counted<Rq.Request>> {
    RunRequests(rows, ListingWhere(host, owner, q), PageOf(q))
  }

  /**
   * The documented listing never fails, counts what the written one counts,
   * keeps its scoping to the caller and to the user and status asked for,
   * and holds at most the query's positive limit of rows.
   */
  lemma IntendedListingPages(host: Host, a: A.Account, q: QueryString, rows: seq<Rq.Request>)
    ensures ListingQueryIntended(host, U.Owner(a), q, rows).Some?
    ensures var c := ListingQueryIntended(host, U.Owner(a), q, rows).value;
      && c.count == ListingQuery(host, U.Owner(a), q, rows).value.count
      && (PageOf(q).limit.Finite? && PageOf(q).limit.n > 0 ==> |c.rows| <= PageOf(q).limit.n)
      && forall x :: x in c.rows ==>
        && x in rows && x.partnerId == a.id
        && (NonEmpty(q, "userId") ==> ToDecimal(x.userId) == q["userId"])
        && ("status" in q ==> x.status == q["status"])
  {
    var w := ListingWhere(host, U.Owner(a), q);
    assert w.Keys <= Rq.Schema;
    var c := ListingQueryIntended(host, U.Owner(a), q, rows).value;
    PageRules(q, Select(rows, Rq.ToJson, w));
    var w0 := map["partnerId" := Eq(U.Owner(a))];
    var w1 := if NonEmpty(q, "userId") then w0["userId" := Eq(Str(q["userId"]))] else w0;
    forall x | x in c.rows
      ensures x in rows && x.partnerId == a.id
      ensures NonEmpty(q, "userId") ==> ToDecimal(x.userId) == q["userId"]
      ensures "status" in q ==> x.status == q["status"]
    {
      ListedRowMeets(host, w1, q, rows, PageOf(q), x, "partnerId", U.Owner(a));
      if NonEmpty(q, "userId") {
        ListedRowMeets(host, w1, q, rows, PageOf(q), x, "userId", Str(q["userId"]));
      }
      Rq.JsonColumns(x);
    }
  }

  // ----- getPartnersRequestsId -----

  /** getPartnersRequestsId: the request with the route's id addressed to the caller. */
  method GetPartnersRequestsId(db: Store.Db, caller: A.Account, requestId: string) returns (resp: Response)
    ensures match FindOne(db.requests, Rq.ToJson, Rq.Schema, Editing.OwnedLookup(requestId, "partnerId", U.Owner(caller))).value
      case None => resp == Response(404, None, Error("errors", "Resquest not found"))
      case Some(r) => resp == Response(200, None, Object(Rq.ToJson(r)))
  {
    resp := Editing.Read(db, requestId, "partnerId", U.Owner(caller));
  }

  /** A partner reads a request exactly when it is addressed to them and has the route's id. */
  lemma GetPartnersRequestsIdScoped(a: A.Account, rows: seq<Rq.Request>, requestId: string, x: Rq.Request)
    requires Rq.IdsIncreasing(rows) && x in rows
    ensures FindOne(rows, Rq.ToJson, Rq.Schema, Editing.OwnedLookup(requestId, "partnerId", U.Owner(a))).value == Some(x)
            <==> x.partnerId == a.id && requestId == ToDecimal(x.id)
  {
    Editing.OwnedLookupFinds(rows, requestId, "partnerId", a.id, x);
  }

  // ----- patchPartnersRequestsId -----

  /**
   * The body after `_.pick(body, 'GPResponse', 'appointmentTime', 'status')`;
   * the handler picks `appointmentTime` but never uses it.
   */
  datatype PatchBody = PatchBody(gpResponse: Field<string>, appointmentTime: Field<string>, status: Field<string>)

  /** The statuses a partner may set. */
  const PartnerTargets: set<string> := {"cancelled", "completed", "accepted"}

  /** The attributes a partner's patch applies; the stamp is the partner's name. */
  function PartnerChanges(body: PatchBody, partnerName: string): Rq.Changes {
    Rq.Changes(
      Missing,
      Missing,
      body.gpResponse,
      None,
      if body.status.Given? && body.status.value in PartnerTargets then Some(body.status.value) else None,
      partnerName)
  }

  /**
   * patchPartnersRequestsId: fill `attributes`, then edit the open request
   * with the route's id that is addressed to the caller.
   */
  method PatchPartnersRequestsId(db: Store.Db, caller: A.Account, requestId: string, body: PatchBody, now: int,
                                 toUserSent: bool, toPartnerSent: bool) returns (resp: Response)
    requires db.Valid() && A.FitsRole(Partner, caller)
    modifies db`requests
    ensures db.Valid()
    ensures (resp, db.requests) == Editing.PatchSpec(old(db.requests),
      Editing.EditableLookup(requestId, "partnerId", U.Owner(caller)),
      PartnerChanges(body, caller.partner.value.partnerName), now, toUserSent, toPartnerSent)
  {
    var attributes := Rq.Changes(Missing, Missing, Missing, None, None, "");
    if !body.gpResponse.Missing? {
      attributes := attributes.(gpResponse := body.gpResponse);
    }
    if body.status.Given? && (body.status.value == "cancelled" || body.status.value == "completed" || body.status.value == "accepted") {
      attributes := attributes.(status := Some(body.status.value));
    }
    attributes := attributes.(lastUpdater := caller.partner.value.partnerName);
    assert attributes == PartnerChanges(body, caller.partner.value.partnerName);
    resp := Editing.Patch(db, Editing.EditableLookup(requestId, "partnerId", U.Owner(caller)), attributes, now,
                          toUserSent, toPartnerSent);
  }

  /**
   * A partner's patch that changes the table edits one open request
   * addressed to the caller: its status afterwards is the old one or one of
   * 'cancelled', 'completed', 'accepted'; its description, user, partner and
   * appointment time are untouched; its stamp is the partner's name; and
   * the body did not set GPResponse to null.
   */
  lemma PartnerPatchRules(a: A.Account, rows: seq<Rq.Request>, requestId: string, body: PatchBody,
                          now: int, toUserSent: bool, toPartnerSent: bool)
    requires Rq.IdsIncreasing(rows) && A.FitsRole(Partner, a)
    requires Editing.PatchSpec(rows, Editing.EditableLookup(requestId, "partnerId", U.Owner(a)),
                               PartnerChanges(body, a.partner.value.partnerName), now, toUserSent, toPartnerSent).1 != rows
    ensures var after := Editing.PatchSpec(rows, Editing.EditableLookup(requestId, "partnerId", U.Owner(a)),
                                           PartnerChanges(body, a.partner.value.partnerName), now, toUserSent, toPartnerSent).1;
      && !body.gpResponse.Null?
      && exists i :: (
        && 0 <= i < |rows|
        && rows[i].partnerId == a.id && rows[i].status in Rq.Open
        && after == rows[i := after[i]]
        && after[i].status in {rows[i].status} + PartnerTargets
        && after[i].description == rows[i].description
        && after[i].userId == rows[i].userId && after[i].partnerId == rows[i].partnerId
        && after[i].appointmentTime == rows[i].appointmentTime
        && after[i].lastUpdater == a.partner.value.partnerName)
  {
    var c := PartnerChanges(body, a.partner.value.partnerName);
    var i := Editing.PatchChangesOneOpenRow(rows, requestId, "partnerId", U.Owner(a), c, now, toUserSent, toPartnerSent);
    assert rows[i].partnerId == a.id by { Rq.JsonColumns(rows[i]); }
    var n := Rq.Apply(rows[i], c, now);
    assert && n.status in {rows[i].status} + PartnerTargets
           && n.description == rows[i].description
           && n.userId == rows[i].userId && n.partnerId == rows[i].partnerId
           && n.appointmentTime == rows[i].appointmentTime
           && n.lastUpdater == a.partner.value.partnerName;
  }

  /**
   * The partner's name may be up to 200 characters but the stamp column
   * holds at most 100: a partner with a longer name can change no request.
   */
  lemma LongPartnerNameBlocksPatches(a: A.Account, rows: seq<Rq.Request>, requestId: string, body: PatchBody,
                                     now: int, toUserSent: bool, toPartnerSent: bool)
    requires Rq.IdsIncreasing(rows) && A.FitsRole(Partner, a) && |a.partner.value.partnerName| > 100
    ensures Editing.PatchSpec(rows, Editing.EditableLookup(requestId, "partnerId", U.Owner(a)),
                              PartnerChanges(body, a.partner.value.partnerName), now, toUserSent, toPartnerSent).1 == rows
  {
    var c := PartnerChanges(body, a.partner.value.partnerName);
    if Editing.PatchSpec(rows, Editing.EditableLookup(requestId, "partnerId", U.Owner(a)), c, now, toUserSent, toPartnerSent).1 != rows {
      var i := Editing.PatchChangesOneOpenRow(rows, requestId, "partnerId", U.Owner(a), c, now, toUserSent, toPartnerSent);
    }
  }
}
