/**
 * The user handlers of controllers/user.js that sit behind the user
 * middleware: the request history, creating a request, reading one and
 * patching one. Login and logout are `Auth.Login` and `Auth.Logout`.
 *
 * The handlers identify the caller by `req.user.get('uid')`, an attribute
 * the user model does not define. The members below take the owner value as
 * a parameter: `Owner` (the caller's id) is what the handlers evidently
 * intend and what the handler methods use; `OwnerAsWritten` is what the
 * code reads, and the lemmas named `...AsWritten...` show what follows.
 */
module UserController {
  import opened Wrappers
  import opened Js
  import opened Primitives
  import opened Http
  import opened Query
  import opened Listing
  import A = Accounts
  import Rq = Requests
  import Store
  import Editing

  /** The owner value the handlers scope by: the caller's id. */
  function Owner(a: A.Account): Value {
    Int(a.id)
  }

  /** What `req.user.get('uid')` yields: the model has no `uid`, so undefined. */
  function OwnerAsWritten(a: A.Account): Value {
    Undefined
  }

  // ----- getHistory -----

  /**
   * The history `where`: the owner, then the `partnerId` branch, which reads
   * `query.userId.length` (so throws when `userId` is absent) and otherwise
   * filters on a column `partner` the table does not have; then the status
   * and time filters. None is the thrown error.
   */
  function HistoryWhere(host: Host, owner: Value, q: QueryString): Option<Where> {
    if "partnerId" in q && "userId" !in q then None
    else
      var w := map["userId" := Eq(owner)];
      var w1 := if "partnerId" in q && |q["userId"]| > 0 then w["partner" := Eq(Str(q["partnerId"]))] else w;
      Some(WithTime(host, WithStatus(w1, q), q))
  }

  /** The history's findAndCountAll; None is a 500. */
  function HistoryQuery(host: Host, owner: Value, q: QueryString, rows: seq<Rq.Request>): Option<Counted<Rq.Request>> {
    match HistoryWhere(host, owner, q)
    case None => None
    case Some(w) => RunRequests(rows, w, PageOf(q))
  }

  /** getHistory: build the page and the filter step by step, run the query, push the rows. */
  method GetHistory(db: Store.Db, caller: A.Account, q: QueryString) returns (resp: Response)
    ensures resp == ListingResponse(PageOf(q), HistoryQuery(db.host, Owner(caller), q, db.requests))
  {
    var page := ReadPage(q);
    if "partnerId" in q && "userId" !in q {
      return Response(500, None, Empty);
    }
    var where := map["userId" := Eq(Owner(caller))];
    if "partnerId" in q && |q["userId"]| > 0 {
      where := where["partner" := Eq(Str(q["partnerId"]))];
    }
    where := AddOptionalFilters(db.host, where, q);
    resp := RespondWithRequests(db.requests, where, page);
  }

  /**
   * The history lists only the caller's own requests, and only those that
   * meet the status and time filters given.
   */
  lemma HistoryScopedToCaller(host: Host, a: A.Account, q: QueryString, rows: seq<Rq.Request>, x: Rq.Request)
    requires HistoryQuery(host, Owner(a), q, rows).Some?
    requires x in HistoryQuery(host, Owner(a), q, rows).value.rows
    ensures x in rows && x.userId == a.id
    ensures "status" in q ==> x.status == q["status"]
    ensures NonEmpty(q, "after") || NonEmpty(q, "before") ==>
      && ("after" in q ==> AtLeast(x.appointmentTime, Some(host.parseDate(q["after"]))))
      && ("before" in q ==> AtMost(x.appointmentTime, Some(host.parseDate(q["before"]))))
  {
    var w0 := map["userId" := Eq(Owner(a))];
    var w1 := if "partnerId" in q && |q["userId"]| > 0 then w0["partner" := Eq(Str(q["partnerId"]))] else w0;
    assert HistoryWhere(host, Owner(a), q) == Some(WithTime(host, WithStatus(w1, q), q));
    ListedRowMeets(host, w1, q, rows, PageOf(q), x, "userId", Owner(a));
    Rq.JsonColumns(x);
  }

  /**
   * As written the owner is undefined, and `userId = NULL` holds for no
   * row: the history is always empty, with a count of 0.
   */
  lemma HistoryAsWrittenIsEmpty(host: Host, a: A.Account, q: QueryString, rows: seq<Rq.Request>)
    ensures var r := HistoryQuery(host, OwnerAsWritten(a), q, rows);
      r.None? || r.value == Counted(0, [])
  {
    var r := HistoryQuery(host, OwnerAsWritten(a), q, rows);
    if r.Some? {
      var w0 := map["userId" := Eq(OwnerAsWritten(a))];
      var w1 := if "partnerId" in q && |q["userId"]| > 0 then w0["partner" := Eq(Str(q["partnerId"]))] else w0;
      var w := WithTime(host, WithStatus(w1, q), q);
      assert HistoryWhere(host, OwnerAsWritten(a), q) == Some(w);
      FiltersKeep(host, w1, q, "userId");
      NullEqSelectsNothing(rows, Rq.ToJson, w, "userId");
    }
  }

  /**
   * Sending `partnerId` fails the request with a 500, unless `userId` is
   * sent too and is empty, in which case `partnerId` is ignored.
   */
  lemma HistoryPartnerFilterFails(host: Host, owner: Value, q: QueryString, rows: seq<Rq.Request>)
    requires "partnerId" in q
    ensures HistoryQuery(host, owner, q, rows).None? <==> !("userId" in q && q["userId"] == "")
  {
    if "userId" in q && |q["userId"]| > 0 {
      var w := HistoryWhere(host, owner, q).value;
      assert "partner" in w && "partner" !in Rq.Schema;
    }
  }

  /**
   * The history `where` as evidently intended: a non-empty `partnerId`
   * filters on the `partnerId` column, and nothing throws.
   */
  function HistoryWhereIntended(host: Host, owner: Value, q: QueryString): Where {
    var w := map["userId" := Eq(owner)];
    var w1 := if NonEmpty(q, "partnerId") then w["partnerId" := Eq(Str(q["partnerId"]))] else w;
    WithTime(host, WithStatus(w1, q), q)
  }

  /**
   * The intended history never fails, whatever the query, and lists only
   * the caller's requests, addressed to the partner asked for, with the
   * status asked for.
   */
  lemma IntendedHistoryFilters(host: Host, a: A.Account, q: QueryString, rows: seq<Rq.Request>, x: Rq.Request)
    ensures RunRequests(rows, HistoryWhereIntended(host, Owner(a), q), PageOf(q)).Some?
    ensures x in RunRequests(rows, HistoryWhereIntended(host, Owner(a), q), PageOf(q)).value.rows ==>
      && x in rows && x.userId == a.id
      && (NonEmpty(q, "partnerId") ==> ToDecimal(x.partnerId) == q["partnerId"])
      && ("status" in q ==> x.status == q["status"])
  {
    assert HistoryWhereIntended(host, Owner(a), q).Keys <= Rq.Schema;
    if x in RunRequests(rows, HistoryWhereIntended(host, Owner(a), q), PageOf(q)).value.rows {
      var w0 := map["userId" := Eq(Owner(a))];
      var w1 := if NonEmpty(q, "partnerId") then w0["partnerId" := Eq(Str(q["partnerId"]))] else w0;
      ListedRowMeets(host, w1, q, rows, PageOf(q), x, "userId", Owner(a));
      if NonEmpty(q, "partnerId") {
        ListedRowMeets(host, w1, q, rows, PageOf(q), x, "partnerId", Str(q["partnerId"]));
      }
      Rq.JsonColumns(x);
    }
  }

  // ----- postRequests -----

  /**
   * The body after `_.pick(body, 'partnerId', 'description', 'appointmentTime')`.
   * A null `partnerId` finds no partner, as a missing one does.
   */
  datatype CreateBody = CreateBody(partnerId: Option<int>, description: Field<string>, appointmentTime: Field<string>)

  /**
   * postRequests: 404 unless the partner exists; otherwise create the
   * request for the caller (200 with its public JSON) or answer 400.
   */
  method PostRequests(db: Store.Db, caller: A.Account, body: CreateBody, now: int) returns (resp: Response)
    requires db.Valid()
    modifies db`requests
    ensures db.Valid()
    ensures body.partnerId.None? || A.FindById(db.partners, body.partnerId.value).None? ==>
      resp == Response(404, None, Error("errors", "Partner not found with provided Id")) && db.requests == old(db.requests)
    ensures body.partnerId.Some? && A.FindById(db.partners, body.partnerId.value).Some? ==>
      match Rq.Create(db.host, Owner(caller), body.partnerId.value,
                      Rq.NewRequest(body.description, body.appointmentTime), Store.NextRequestId(old(db.requests)), now)
      case None => resp == Response(400, None, Empty) && db.requests == old(db.requests)
      case Some(r) => resp == Response(200, None, Object(Rq.ToPublicJson(r))) && db.requests == old(db.requests) + [r]
  {
    if body.partnerId.None? || A.FindById(db.partners, body.partnerId.value).None? {
      return Response(404, None, Error("errors", "Partner not found with provided Id"));
    }
    var created := db.CreateRequest(Owner(caller), body.partnerId.value,
                                    Rq.NewRequest(body.description, body.appointmentTime), now);
    if created.None? {
      return Response(400, None, Empty);
    }
    resp := Response(200, None, Object(Rq.ToPublicJson(created.value)));
  }

  /**
   * A created request belongs to the caller, whatever the body says, and is
   * created exactly when its description is not null and fits.
   */
  lemma CreateTakesCaller(host: Host, a: A.Account, partnerId: int, body: CreateBody, id: int, now: int)
    ensures var r := Rq.Create(host, Owner(a), partnerId, Rq.NewRequest(body.description, body.appointmentTime), id, now);
      && (r.Some? <==> !body.description.Null? && |body.description.GetOr("")| <= 300)
      && (r.Some? ==> r.value.userId == a.id && r.value.partnerId == partnerId && r.value.status == "processing")
  {
    Rq.CreateDefaults(host, Owner(a), partnerId, Rq.NewRequest(body.description, body.appointmentTime), id, now);
  }

  /** As written `userId` is undefined, which the column refuses: every creation fails with 400. */
  lemma CreateAsWrittenRejected(host: Host, a: A.Account, partnerId: int, body: CreateBody, id: int, now: int)
    ensures Rq.Create(host, OwnerAsWritten(a), partnerId, Rq.NewRequest(body.description, body.appointmentTime), id, now) == None
  {
  }

  // ----- getRequestsId -----

  /** getRequestsId: the caller's request with the route's id. */
  method GetRequestsId(db: Store.Db, caller: A.Account, requestId: string) returns (resp: Response)
    ensures match FindOne(db.requests, Rq.ToJson, Rq.Schema, Editing.OwnedLookup(requestId, "userId", Owner(caller))).value
      case None => resp == Response(404, None, Error("errors", "Resquest not found"))
      case Some(r) => resp == Response(200, None, Object(Rq.ToJson(r)))
  {
    resp := Editing.Read(db, requestId, "userId", Owner(caller));
  }

  /** A user reads a request exactly when it is theirs and has the route's id. */
  lemma GetRequestsIdScoped(a: A.Account, rows: seq<Rq.Request>, requestId: string, x: Rq.Request)
    requires Rq.IdsIncreasing(rows) && x in rows
    ensures FindOne(rows, Rq.ToJson, Rq.Schema, Editing.OwnedLookup(requestId, "userId", Owner(a))).value == Some(x)
            <==> x.userId == a.id && requestId == ToDecimal(x.id)
  {
    Editing.OwnedLookupFinds(rows, requestId, "userId", a.id, x);
  }

  // ----- patchRequestsId -----

  /** The body after `_.pick(body, 'partnerId', 'description', 'appointmentTime', 'status')`. */
  datatype PatchBody = PatchBody(
    partnerId: Field<int>,
    description: Field<string>,
    appointmentTime: Field<string>,
    status: Field<string>)

  /** The statuses a user may set. */
  const UserTargets: set<string> := {"cancelled", "completed"}

  /**
   * The stamp: firstName + " " + lastName, attributes the user model does
   * not have, so each reads as undefined.
   */
  const UserStamp: string := UndefinedText + " " + UndefinedText

  /** The attributes a user's patch applies. */
  function UserChanges(host: Host, body: PatchBody): Rq.Changes {
    Rq.Changes(
      body.partnerId,
      body.description,
      Missing,
      if body.appointmentTime.Missing? then None else Some(Rq.ParseDate(host, body.appointmentTime)),
      if body.status.Given? && body.status.value in UserTargets then Some(body.status.value) else None,
      UserStamp)
  }

  /**
   * patchRequestsId: fill `attributes` field by field, then edit the
   * caller's open request with the route's id.
   */
  method PatchRequestsId(db: Store.Db, caller: A.Account, requestId: string, body: PatchBody, now: int,
                         toUserSent: bool, toPartnerSent: bool) returns (resp: Response)
    requires db.Valid()
    modifies db`requests
    ensures db.Valid()
    ensures (resp, db.requests) == Editing.PatchSpec(old(db.requests),
      Editing.EditableLookup(requestId, "userId", Owner(caller)), UserChanges(db.host, body), now, toUserSent, toPartnerSent)
  {
    var attributes := Rq.Changes(Missing, Missing, Missing, None, None, "");
    if !body.partnerId.Missing? {
      attributes := attributes.(partnerId := body.partnerId);
    }
    if !body.description.Missing? {
      attributes := attributes.(description := body.description);
    }
    if !body.appointmentTime.Missing? {
      attributes := attributes.(appointmentTime := Some(Rq.ParseDate(db.host, body.appointmentTime)));
    }
    if body.status.Given? && (body.status.value == "cancelled" || body.status.value == "completed") {
      attributes := attributes.(status := Some(body.status.value));
    }
    attributes := attributes.(lastUpdater := UserStamp);
    assert attributes == UserChanges(db.host, body);
    resp := Editing.Patch(db, Editing.EditableLookup(requestId, "userId", Owner(caller)), attributes, now,
                          toUserSent, toPartnerSent);
  }

  /**
   * A user's patch that changes the table edits one of the caller's own open
   * requests; its status afterwards is the old one, 'cancelled' or
   * 'completed'; its GP response is untouched; its stamp is UserStamp; and
   * the body set neither partnerId nor description to null.
   */
  lemma UserPatchRules(host: Host, a: A.Account, rows: seq<Rq.Request>, requestId: string, body: PatchBody,
                       now: int, toUserSent: bool, toPartnerSent: bool)
    requires Rq.IdsIncreasing(rows)
    requires Editing.PatchSpec(rows, Editing.EditableLookup(requestId, "userId", Owner(a)),
                               UserChanges(host, body), now, toUserSent, toPartnerSent).1 != rows
    ensures var after := Editing.PatchSpec(rows, Editing.EditableLookup(requestId, "userId", Owner(a)),
                                           UserChanges(host, body), now, toUserSent, toPartnerSent).1;
      && !body.partnerId.Null? && !body.description.Null?
      && exists i :: (
        && 0 <= i < |rows|
        && rows[i].userId == a.id && rows[i].status in Rq.Open
        && after == rows[i := after[i]]
        && after[i].status in {rows[i].status} + UserTargets
        && after[i].gpResponse == rows[i].gpResponse
        && after[i].lastUpdater == UserStamp)
  {
    var c := UserChanges(host, body);
    var i := Editing.PatchChangesOneOpenRow(rows, requestId, "userId", Owner(a), c, now, toUserSent, toPartnerSent);
    assert rows[i].userId == a.id by { Rq.JsonColumns(rows[i]); }
    var n := Rq.Apply(rows[i], c, now);
    assert n.status in {rows[i].status} + UserTargets && n.gpResponse == rows[i].gpResponse && n.lastUpdater == UserStamp;
  }
}
