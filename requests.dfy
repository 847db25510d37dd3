/**
 * The appointment request record (models/request.js): its columns, the
 * validators and defaults, creation, and an update by a set of attributes.
 */
module Requests {
  import opened Wrappers
  import opened Js
  import opened Primitives

  /** The status domain. */
  const Statuses: set<string> := {"processing", "accepted", "completed", "cancelled"}

  /** The statuses in which a request can still be edited. */
  const Open: set<string> := {"processing", "accepted"}

  /** A stored request. `appointmentTime` is whatever Date.parse gave, NaN included. */
  datatype Request = Request(
    id: int,
    userId: int,
    partnerId: int,
    description: string,
    gpResponse: string,
    status: string,
    appointmentTime: Num,
    lastUpdater: string,
    createdAt: int,
    updatedAt: int)

  /**
   * The validators: description and GPResponse at most 300 characters,
   * status in the domain, lastUpdater 1 to 100 characters.
   */
  predicate Valid(r: Request) {
    && |r.description| <= 300
    && |r.gpResponse| <= 300
    && r.status in Statuses
    && 1 <= |r.lastUpdater| <= 100
  }

  /** Ids grow along the table, as the engine assigns them. */
  predicate IdsIncreasing(rows: seq<Request>) {
    forall i, j :: 0 <= i < j < |rows| ==> rows[i].id < rows[j].id
  }

  /** With increasing ids, a stored request is the only one with its id. */
  lemma IdentifiedById(rows: seq<Request>, x: Request, y: Request)
    requires IdsIncreasing(rows) && x in rows && y in rows && x.id == y.id
    ensures x == y
  {
    var i :| 0 <= i < |rows| && rows[i] == x;
    var j :| 0 <= j < |rows| && rows[j] == y;
    if i < j {
      assert rows[i].id < rows[j].id;
    } else if j < i {
      assert rows[j].id < rows[i].id;
    }
  }

  /** The table's columns. */
  const Schema: set<string> := {
    "id", "userId", "partnerId", "description", "GPResponse", "status",
    "appointmentTime", "lastUpdater", "createdAt", "updatedAt"}

  /** toJSON(): every column. */
  function ToJson(r: Request): (m: map<string, Value>)
    ensures m.Keys == Schema
  {
    map[
      "id" := Int(r.id), "userId" := Int(r.userId), "partnerId" := Int(r.partnerId),
      "description" := Str(r.description), "GPResponse" := Str(r.gpResponse),
      "status" := Str(r.status), "appointmentTime" := Date(r.appointmentTime),
      "lastUpdater" := Str(r.lastUpdater),
      "createdAt" := Date(Finite(r.createdAt)), "updatedAt" := Date(Finite(r.updatedAt))]
  }

  /** The columns the listings and lookups filter on, read from the JSON. */
  lemma JsonColumns(r: Request)
    ensures var m := ToJson(r);
      && m["id"] == Int(r.id) && m["userId"] == Int(r.userId) && m["partnerId"] == Int(r.partnerId)
      && m["status"] == Str(r.status) && m["appointmentTime"] == Date(r.appointmentTime)
  {
  }

  /** The attributes toPublicJSON picks. */
  const PublicKeys: set<string> := {
    "id", "userId", "partnerId", "description", "GPResponse", "status",
    "appointmentTime", "lastUpdater", "createdAt", "updatedAt"}

  function ToPublicJson(r: Request): (m: map<string, Value>)
    ensures m.Keys == PublicKeys
    ensures forall k :: k in m ==> m[k] == ToJson(r)[k]
  {
    Pick(ToJson(r), PublicKeys)
  }

  /** The public projection leaves no column out: it is the whole row. */
  lemma PublicJsonIsWholeRow(r: Request)
    ensures ToPublicJson(r) == ToJson(r)
  {
  }

  /**
   * Date.parse of a body property. Date.parse reads its argument as text:
   * undefined gives NaN, and null is read as the text "null".
   */
  function ParseDate(host: Host, s: Field<string>): Num {
    match s
    case Missing => NaN
    case Null => host.parseDate("null")
    case Given(text) => host.parseDate(text)
  }

  /**
   * A creation body after the handler has resolved the partner: the
   * description and the appointment time as sent.
   */
  datatype NewRequest = NewRequest(description: Field<string>, appointmentTime: Field<string>)

  /**
   * request.create(body) with `userId` = `owner`: the defaults fill the
   * status ('processing'), GPResponse ("") and lastUpdater ('creator'),
   * and a description only when none was sent; the insert fails when the
   * owner is not an integer (undefined violates allowNull), when the
   * description is null (allowNull again), or when a validator fails.
   */
  function Create(host: Host, owner: Value, partnerId: int, body: NewRequest, id: int, now: int): Option<Request> {
    if !owner.Int? || body.description.Null? then None
    else
      var r := Request(id, owner.i, partnerId, body.description.GetOr(""), "", "processing",
                       ParseDate(host, body.appointmentTime), "creator", now, now);
      if Valid(r) then Some(r) else None
  }

  /**
   * A created request belongs to the given owner and partner, starts
   * 'processing' with the defaults, and is valid; creation fails exactly
   * when the owner is not an integer, or the description is null or too
   * long.
   */
  lemma CreateDefaults(host: Host, owner: Value, partnerId: int, body: NewRequest, id: int, now: int)
    ensures Create(host, owner, partnerId, body, id, now).Some? <==>
      owner.Int? && !body.description.Null? && |body.description.GetOr("")| <= 300
    ensures Create(host, owner, partnerId, body, id, now).Some? ==>
      var r := Create(host, owner, partnerId, body, id, now).value;
      && r.id == id && r.userId == owner.i && r.partnerId == partnerId
      && r.description == body.description.GetOr("") && r.gpResponse == ""
      && r.status == "processing" && r.lastUpdater == "creator"
      && r.appointmentTime == ParseDate(host, body.appointmentTime)
      && r.createdAt == now && r.updatedAt == now
      && Valid(r)
  {
  }

  /**
   * The attributes object a patch handler passes to update(). The handlers
   * copy partnerId, description and GPResponse from the body as sent, null
   * included; the time is always parsed and the status always whitelisted
   * first, so neither can be null.
   */
  datatype Changes = Changes(
    partnerId: Field<int>,
    description: Field<string>,
    gpResponse: Field<string>,
    appointmentTime: Option<Num>,
    status: Option<string>,
    lastUpdater: string)
  {
    /** Some attribute is null, which allowNull: false refuses for every column. */
    predicate SetsNull() {
      partnerId.Null? || description.Null? || gpResponse.Null?
    }
  }

  /**
   * update(attributes): every attribute with a value replaces its column;
   * updatedAt moves to `now` when something changed. A null attribute
   * leaves its column here, and `UpdateAccepted` refuses the update.
   */
  function Apply(r: Request, c: Changes, now: int): (n: Request)
    ensures n.id == r.id && n.userId == r.userId && n.createdAt == r.createdAt
    ensures n.partnerId == c.partnerId.GetOr(r.partnerId)
    ensures n.description == c.description.GetOr(r.description)
    ensures n.gpResponse == c.gpResponse.GetOr(r.gpResponse)
    ensures n.appointmentTime == c.appointmentTime.GetOr(r.appointmentTime)
    ensures n.status == c.status.GetOr(r.status)
    ensures n.lastUpdater == c.lastUpdater
  {
    var m := r.(
      partnerId := c.partnerId.GetOr(r.partnerId),
      description := c.description.GetOr(r.description),
      gpResponse := c.gpResponse.GetOr(r.gpResponse),
      appointmentTime := c.appointmentTime.GetOr(r.appointmentTime),
      status := c.status.GetOr(r.status),
      lastUpdater := c.lastUpdater);
    if m == r then r else m.(updatedAt := now)
  }

  /**
   * update() saves the updated row exactly when no attribute is null and
   * the row passes the validators.
   */
  predicate UpdateAccepted(r: Request, c: Changes, now: int) {
    !c.SetsNull() && Valid(Apply(r, c, now))
  }

  /** An update that leaves every field as it was changes nothing, not even updatedAt. */
  lemma ApplyUnchanged(r: Request, now: int)
    ensures Apply(r, Changes(Missing, Missing, Missing, None, None, r.lastUpdater), now) == r
  {
  }
}
