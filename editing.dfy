/**
 * What the user and partner handlers do to one request of their own:
 * read it by id (getRequestsId, getPartnersRequestsId), and edit it
 * (patchRequestsId, patchPartnersRequestsId): find the caller's own request
 * while it is still open, apply the attributes, then inform the user and the
 * partner by e-mail. The caller owns a request through `ownerColumn`:
 * `userId` for a user, `partnerId` for a partner.
 */
module Editing {
  import opened Wrappers
  import opened Js
  import opened Http
  import opened Query
  import Rq = Requests
  import Store

  // ----- reading one request -----

  /** The lookup of one request: the route's id, owned by the caller. */
  function OwnedLookup(requestId: string, ownerColumn: string, owner: Value): (w: Where)
    ensures w.Keys == {"id", ownerColumn}
  {
    map["id" := Eq(Str(requestId)), ownerColumn := Eq(owner)]
  }

  /** The lookup as written, keyed on a column `uid` the table does not have. */
  function OwnedLookupAsWritten(requestId: string, ownerColumn: string, owner: Value): Where {
    map["uid" := Eq(Str(requestId)), ownerColumn := Eq(owner)]
  }

  /** The read handlers: 200 with the whole row, or 404. */
  method Read(db: Store.Db, requestId: string, ownerColumn: string, owner: Value) returns (resp: Response)
    requires ownerColumn in {"userId", "partnerId"}
    ensures match FindOne(db.requests, Rq.ToJson, Rq.Schema, OwnedLookup(requestId, ownerColumn, owner)).value
      case None => resp == Response(404, None, Error("errors", "Resquest not found"))
      case Some(r) => resp == Response(200, None, Object(Rq.ToJson(r)))
  {
    var found := FindOne(db.requests, Rq.ToJson, Rq.Schema, OwnedLookup(requestId, ownerColumn, owner)).value;
    if found.None? {
      return Response(404, None, Error("errors", "Resquest not found"));
    }
    resp := Response(200, None, Object(Rq.ToJson(found.value)));
  }

  /**
   * The lookup finds a stored request exactly when the caller owns it and
   * the route's id is its id written in decimal.
   */
  lemma OwnedLookupFinds(rows: seq<Rq.Request>, requestId: string, ownerColumn: string, id: int, x: Rq.Request)
    requires Rq.IdsIncreasing(rows) && x in rows && ownerColumn in {"userId", "partnerId"}
    ensures FindOne(rows, Rq.ToJson, Rq.Schema, OwnedLookup(requestId, ownerColumn, Int(id))).value == Some(x)
            <==> Rq.ToJson(x)[ownerColumn] == Int(id) && requestId == ToDecimal(x.id)
  {
    var lookup := OwnedLookup(requestId, ownerColumn, Int(id));
    var found := FindOne(rows, Rq.ToJson, Rq.Schema, lookup).value;
    OwnedMatches(x, requestId, ownerColumn, Int(id));
    if Rq.ToJson(x)[ownerColumn] == Int(id) && requestId == ToDecimal(x.id) {
      var y := found.value;
      OwnedMatches(y, requestId, ownerColumn, Int(id));
      ToDecimalInjective(x.id, y.id);
      Rq.IdentifiedById(rows, x, y);
    }
  }

  /** A row meets the lookup exactly when both of its conditions hold. */
  lemma OwnedMatches(x: Rq.Request, requestId: string, ownerColumn: string, owner: Value)
    requires ownerColumn in {"userId", "partnerId"}
    ensures Matches(Rq.ToJson(x), OwnedLookup(requestId, ownerColumn, owner))
            <==> requestId == ToDecimal(x.id) && SqlEq(Rq.ToJson(x)[ownerColumn], owner)
  {
    var w := OwnedLookup(requestId, ownerColumn, owner);
    assert w["id"] == Eq(Str(requestId)) && w[ownerColumn] == Eq(owner);
  }

  /** As written the lookup names the column `uid`: the query fails for every request (500). */
  lemma ReadAsWrittenFails(rows: seq<Rq.Request>, requestId: string, ownerColumn: string, owner: Value)
    ensures FindOne(rows, Rq.ToJson, Rq.Schema, OwnedLookupAsWritten(requestId, ownerColumn, owner)).None?
  {
    assert "uid" in OwnedLookupAsWritten(requestId, ownerColumn, owner);
  }

  // ----- editing one request -----

  /**
   * The lookup: the request with the route's id, owned by the caller through
   * `ownerColumn`, whose status is 'processing' or 'accepted'.
   */
  function EditableLookup(requestId: string, ownerColumn: string, owner: Value): (w: Where)
    ensures w.Keys == {"id", ownerColumn, "status"}
  {
    map["id" := Eq(Str(requestId)), ownerColumn := Eq(owner), "status" := In([Str("processing"), Str("accepted")])]
  }

  /** The lookup as written, keyed on a column `uid` the table does not have. */
  function EditableLookupAsWritten(requestId: string, ownerColumn: string, owner: Value): Where {
    map["uid" := Eq(Str(requestId)), ownerColumn := Eq(owner), "status" := In([Str("processing"), Str("accepted")])]
  }

  /**
   * As written the lookup fails for every table, caller and id; the handlers
   * give findOne no rejection handler, so no patch ever reaches update().
   */
  lemma PatchAsWrittenFails(rows: seq<Rq.Request>, requestId: string, ownerColumn: string, owner: Value)
    ensures FindOne(rows, Rq.ToJson, Rq.Schema, EditableLookupAsWritten(requestId, ownerColumn, owner)).None?
  {
    assert "uid" in EditableLookupAsWritten(requestId, ownerColumn, owner);
  }

  /**
   * The answer once the update is stored: the first e-mail goes to the user,
   * the second to the partner; the first failure answers 400, and the update
   * stays stored either way.
   */
  function MailResponse(updated: Rq.Request, toUserSent: bool, toPartnerSent: bool): Response {
    if !toUserSent then Response(400, None, Error("errors", "Update email cannot be sent to user"))
    else if !toPartnerSent then Response(400, None, Error("errors", "Update email cannot be sent to GPPartner"))
    else Response(200, None, Object(Rq.ToPublicJson(updated)))
  }

  /** The response and the request table after a patch. */
  function PatchSpec(rows: seq<Rq.Request>, lookup: Where, c: Rq.Changes, now: int,
                     toUserSent: bool, toPartnerSent: bool): (Response, seq<Rq.Request>)
    requires lookup.Keys <= Rq.Schema
  {
    match FindOne(rows, Rq.ToJson, Rq.Schema, lookup).value
    case None => (Response(404, None, Error("errors", "Request not found or expired")), rows)
    case Some(target) =>
      var n := Rq.Apply(target, c, now);
      if !Rq.UpdateAccepted(target, c, now) then (Response(400, None, Error("errors", "Bad data provided")), rows)
      else (MailResponse(n, toUserSent, toPartnerSent), Store.Replace(rows, target.id, n))
  }

  /**
   * A patch that sets an attribute to null is refused: the table is
   * unchanged, and the answer is 404 when no open request matches and
   * 400 "Bad data provided" otherwise.
   */
  lemma NullAttributeRefused(rows: seq<Rq.Request>, lookup: Where, c: Rq.Changes, now: int,
                             toUserSent: bool, toPartnerSent: bool)
    requires lookup.Keys <= Rq.Schema && c.SetsNull()
    ensures PatchSpec(rows, lookup, c, now, toUserSent, toPartnerSent).1 == rows
    ensures PatchSpec(rows, lookup, c, now, toUserSent, toPartnerSent).0 in
      {Response(404, None, Error("errors", "Request not found or expired")),
       Response(400, None, Error("errors", "Bad data provided"))}
  {
  }

  /** Run a patch against the database. */
  method Patch(db: Store.Db, lookup: Where, c: Rq.Changes, now: int, toUserSent: bool, toPartnerSent: bool)
    returns (resp: Response)
    requires db.Valid() && lookup.Keys <= Rq.Schema
    modifies db`requests
    ensures db.Valid()
    ensures (resp, db.requests) == PatchSpec(old(db.requests), lookup, c, now, toUserSent, toPartnerSent)
  {
    var found := FindOne(db.requests, Rq.ToJson, Rq.Schema, lookup).value;
    if found.None? {
      return Response(404, None, Error("errors", "Request not found or expired"));
    }
    var updated := db.UpdateRequest(found.value, c, now);
    if updated.None? {
      return Response(400, None, Error("errors", "Bad data provided"));
    }
    resp := MailResponse(updated.value, toUserSent, toPartnerSent);
  }

  /** With increasing ids, replacing by the id of row `i` replaces row `i` alone. */
  lemma ReplaceAt(rows: seq<Rq.Request>, i: int, n: Rq.Request)
    requires Rq.IdsIncreasing(rows) && 0 <= i < |rows|
    ensures Store.Replace(rows, rows[i].id, n) == rows[i := n]
  {
    forall j | 0 <= j < |rows| ensures Store.Replace(rows, rows[i].id, n)[j] == rows[i := n][j] {
      if j < i {
        assert rows[j].id < rows[i].id;
      } else if i < j {
        assert rows[i].id < rows[j].id;
      }
    }
  }

  /** What the lookup lets through: the route's id, the caller as owner, an open status. */
  lemma LookupMeaning(x: Rq.Request, requestId: string, ownerColumn: string, owner: Value)
    requires ownerColumn in {"userId", "partnerId"}
    requires Matches(Rq.ToJson(x), EditableLookup(requestId, ownerColumn, owner))
    ensures x.status in Rq.Open
    ensures ToDecimal(x.id) == requestId
    ensures SqlEq(Rq.ToJson(x)[ownerColumn], owner)
  {
    var cols := Rq.ToJson(x);
    var lookup := EditableLookup(requestId, ownerColumn, owner);
    assert Satisfies(cols["status"], lookup["status"]);
    assert Satisfies(cols["id"], lookup["id"]);
    assert Satisfies(cols[ownerColumn], lookup[ownerColumn]);
  }

  /**
   * What a patch that changed the table did: exactly one row, one with the
   * route's id and the caller as owner that was still open, was replaced by
   * its valid update; every other row is as it was.
   */
  lemma PatchChangesOneOpenRow(rows: seq<Rq.Request>, requestId: string, ownerColumn: string, owner: Value,
                               c: Rq.Changes, now: int, toUserSent: bool, toPartnerSent: bool)
    returns (i: int)
    requires Rq.IdsIncreasing(rows) && ownerColumn in {"userId", "partnerId"}
    requires PatchSpec(rows, EditableLookup(requestId, ownerColumn, owner), c, now, toUserSent, toPartnerSent).1 != rows
    ensures 0 <= i < |rows|
    ensures rows[i].status in Rq.Open
    ensures ToDecimal(rows[i].id) == requestId
    ensures SqlEq(Rq.ToJson(rows[i])[ownerColumn], owner)
    ensures PatchSpec(rows, EditableLookup(requestId, ownerColumn, owner), c, now, toUserSent, toPartnerSent).1
            == rows[i := Rq.Apply(rows[i], c, now)]
    ensures Rq.UpdateAccepted(rows[i], c, now)
  {
    var lookup := EditableLookup(requestId, ownerColumn, owner);
    var target := FindOne(rows, Rq.ToJson, Rq.Schema, lookup).value.value;
    i :| 0 <= i < |rows| && rows[i] == target;
    LookupMeaning(target, requestId, ownerColumn, owner);
    ReplaceAt(rows, i, Rq.Apply(target, c, now));
  }

  /**
   * A request that is completed or cancelled is final: no patch, by any
   * caller, changes it or moves it.
   */
  lemma ClosedRequestsAreFinal(rows: seq<Rq.Request>, requestId: string, ownerColumn: string, owner: Value,
                               c: Rq.Changes, now: int, toUserSent: bool, toPartnerSent: bool, k: int)
    requires Rq.IdsIncreasing(rows) && ownerColumn in {"userId", "partnerId"}
    requires 0 <= k < |rows| && rows[k].status !in Rq.Open
    ensures var after := PatchSpec(rows, EditableLookup(requestId, ownerColumn, owner), c, now, toUserSent, toPartnerSent).1;
      |after| == |rows| && after[k] == rows[k]
  {
    var after := PatchSpec(rows, EditableLookup(requestId, ownerColumn, owner), c, now, toUserSent, toPartnerSent).1;
    if after != rows {
      var i := PatchChangesOneOpenRow(rows, requestId, ownerColumn, owner, c, now, toUserSent, toPartnerSent);
      assert i != k;
    }
  }
}
