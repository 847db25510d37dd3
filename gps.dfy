/** The GP record (models/gp.js). */
module Gps {
  import opened Wrappers
  import opened Js

  datatype Gp = Gp(id: int, gpName: string, phone: string, available: bool, createdAt: int, updatedAt: int)

  /** The validators: a name of 1 to 250 characters and a non-empty phone number. */
  predicate Valid(g: Gp) {
    1 <= |g.gpName| <= 250 && |g.phone| >= 1
  }

  /** Ids grow along the table, as the engine assigns them. */
  predicate IdsIncreasing(rows: seq<Gp>) {
    forall i, j :: 0 <= i < j < |rows| ==> rows[i].id < rows[j].id
  }

  /** The table's columns. */
  const Schema: set<string> := {"id", "gpName", "phone", "available", "createdAt", "updatedAt"}

  /** toJSON(): every column. */
  function ToJson(g: Gp): (m: map<string, Value>)
    ensures m.Keys == Schema
  {
    map["id" := Int(g.id), "gpName" := Str(g.gpName), "phone" := Str(g.phone),
        "available" := Bool(g.available),
        "createdAt" := Date(Finite(g.createdAt)), "updatedAt" := Date(Finite(g.updatedAt))]
  }

  /** The attributes a creation body can supply; None stands for absent. */
  datatype GpBody = GpBody(gpName: Option<string>, phone: Option<string>, available: Option<bool>)

  /** gp.create(body): name and phone are required, `available` defaults to false. */
  function Build(body: GpBody, id: int, now: int): Option<Gp> {
    if body.gpName.None? || body.phone.None? then None
    else
      var g := Gp(id, body.gpName.value, body.phone.value, body.available.GetOr(false), now, now);
      if Valid(g) then Some(g) else None
  }

  /**
   * A GP is created exactly when the name has 1 to 250 characters and the
   * phone is non-empty; it is available only when the body says so.
   */
  lemma BuildRules(body: GpBody, id: int, now: int)
    ensures Build(body, id, now).Some? <==>
      body.gpName.Some? && 1 <= |body.gpName.value| <= 250 && body.phone.Some? && |body.phone.value| >= 1
    ensures Build(body, id, now).Some? ==>
      var g := Build(body, id, now).value;
      && g.gpName == body.gpName.value && g.phone == body.phone.value
      && (g.available <==> body.available == Some(true))
  {
  }
}
