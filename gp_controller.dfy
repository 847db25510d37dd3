/**
 * The GP handlers of controllers/gp.js: the search over the GP table, built
 * from the query string, and the lookup of one GP by id.
 */
module GpController {
  import opened Wrappers
  import opened Js
  import opened Http
  import opened Query
  import G = Gps
  import Store

  /**
   * The search `where`: `available` only for the texts 'true' and 'false';
   * a non-empty `q` searches the name and a non-empty `phone` the phone
   * number, each with `%...%`.
   */
  function GpWhere(q: QueryString): Where {
    var w0: Where := map[];
    var w1 :=
      if "available" in q && q["available"] == "true" then w0["available" := Eq(Bool(true))]
      else if "available" in q && q["available"] == "false" then w0["available" := Eq(Bool(false))]
      else w0;
    var w2 := if NonEmpty(q, "q") then w1["gpName" := Like("%" + q["q"] + "%")] else w1;
    if NonEmpty(q, "phone") then w2["phone" := Like("%" + q["phone"] + "%")] else w2
  }

  /** The GPs the search returns, in table order. */
  function GpSearch(q: QueryString, rows: seq<G.Gp>): seq<G.Gp> {
    Select(rows, G.ToJson, GpWhere(q))
  }

  /** The JSON of each GP, in order. */
  function GpsJson(rows: seq<G.Gp>): (r: seq<Json>)
    ensures |r| == |rows|
    ensures forall i :: 0 <= i < |rows| ==> r[i] == G.ToJson(rows[i])
  {
    seq(|rows|, i requires 0 <= i < |rows| => G.ToJson(rows[i]))
  }

  /** getGps: fill `where` field by field, then answer with every GP that meets it. */
  method GetGps(db: Store.Db, q: QueryString) returns (resp: Response)
    ensures resp == Response(200, None, Objects(GpsJson(GpSearch(q, db.gps))))
  {
    var where: Where := map[];
    if "available" in q && q["available"] == "true" {
      where := where["available" := Eq(Bool(true))];
    } else if "available" in q && q["available"] == "false" {
      where := where["available" := Eq(Bool(false))];
    }
    if NonEmpty(q, "q") {
      where := where["gpName" := Like("%" + q["q"] + "%")];
    }
    if NonEmpty(q, "phone") {
      where := where["phone" := Like("%" + q["phone"] + "%")];
    }
    var found := Run(db.gps, G.ToJson, G.Schema, where);
    resp := Response(200, None, Objects(GpsJson(found.value)));
  }

  /** Without any of the three parameters the search lists every GP. */
  lemma EmptySearchListsAll(q: QueryString, rows: seq<G.Gp>)
    requires "available" !in q && "q" !in q && "phone" !in q
    ensures GpSearch(q, rows) == rows
  {
    assert GpWhere(q) == map[];
    AllSelected(rows, G.ToJson);
  }

  /**
   * What the search means, for search texts without LIKE wildcards: a GP is
   * listed exactly when it meets the availability asked for (none unless
   * 'true' or 'false'), its name contains `q` and its phone number contains
   * `phone`, letters compared without regard to case.
   */
  lemma GpSearchMeaning(q: QueryString, rows: seq<G.Gp>, g: G.Gp)
    requires NonEmpty(q, "q") ==> Literal(q["q"])
    requires NonEmpty(q, "phone") ==> Literal(q["phone"])
    ensures g in GpSearch(q, rows) <==>
      && g in rows
      && ("available" in q && q["available"] == "true" ==> g.available)
      && ("available" in q && q["available"] == "false" ==> !g.available)
      && (NonEmpty(q, "q") ==> ContainsIgnoringCase(g.gpName, q["q"]))
      && (NonEmpty(q, "phone") ==> ContainsIgnoringCase(g.phone, q["phone"]))
  {
    GpWhereMeaning(q, g);
  }

  /** One GP meets the search `where` exactly when it meets each condition asked for. */
  lemma GpWhereMeaning(q: QueryString, g: G.Gp)
    requires NonEmpty(q, "q") ==> Literal(q["q"])
    requires NonEmpty(q, "phone") ==> Literal(q["phone"])
    ensures Matches(G.ToJson(g), GpWhere(q)) <==>
      && ("available" in q && q["available"] == "true" ==> g.available)
      && ("available" in q && q["available"] == "false" ==> !g.available)
      && (NonEmpty(q, "q") ==> ContainsIgnoringCase(g.gpName, q["q"]))
      && (NonEmpty(q, "phone") ==> ContainsIgnoringCase(g.phone, q["phone"]))
  {
    var w := GpWhere(q);
    var cols := G.ToJson(g);
    assert cols["available"] == Bool(g.available) && cols["gpName"] == Str(g.gpName) && cols["phone"] == Str(g.phone);
    if NonEmpty(q, "q") {
      assert w["gpName"] == Like("%" + q["q"] + "%");
      SubstringSearch(q["q"], g.gpName);
    }
    if NonEmpty(q, "phone") {
      assert w["phone"] == Like("%" + q["phone"] + "%");
      SubstringSearch(q["phone"], g.phone);
    }
    if "available" in q && q["available"] == "true" {
      assert w["available"] == Eq(Bool(true));
    } else if "available" in q && q["available"] == "false" {
      assert w["available"] == Eq(Bool(false));
    }
    assert w.Keys <= {"available", "gpName", "phone"};
  }

  /** getGpsId: findById with the route's id; 200 with the GP, or 404. */
  method GetGpsId(db: Store.Db, gpId: string) returns (resp: Response)
    ensures match FindOne(db.gps, G.ToJson, G.Schema, map["id" := Eq(Str(gpId))]).value
      case None => resp == Response(404, None, Error("error", "GP not found with provided Id"))
      case Some(g) => resp == Response(200, None, Object(G.ToJson(g)))
  {
    var found := FindOne(db.gps, G.ToJson, G.Schema, map["id" := Eq(Str(gpId))]).value;
    if found.None? {
      return Response(404, None, Error("error", "GP not found with provided Id"));
    }
    resp := Response(200, None, Object(G.ToJson(found.value)));
  }

  /** The lookup finds a stored GP exactly when the route's id is its id written in decimal. */
  lemma GetGpsIdFinds(rows: seq<G.Gp>, gpId: string, g: G.Gp)
    requires G.IdsIncreasing(rows) && g in rows
    ensures FindOne(rows, G.ToJson, G.Schema, map["id" := Eq(Str(gpId))]).value == Some(g) <==> gpId == ToDecimal(g.id)
  {
    var lookup: Where := map["id" := Eq(Str(gpId))];
    var found := FindOne(rows, G.ToJson, G.Schema, lookup).value;
    if found == Some(g) {
      assert Satisfies(G.ToJson(g)["id"], lookup["id"]);
    }
    if gpId == ToDecimal(g.id) {
      assert Matches(G.ToJson(g), lookup);
      var y := found.value;
      assert Satisfies(G.ToJson(y)["id"], lookup["id"]);
      ToDecimalInjective(g.id, y.id);
      var i :| 0 <= i < |rows| && rows[i] == g;
      var j :| 0 <= j < |rows| && rows[j] == y;
      if i < j {
        assert rows[i].id < rows[j].id;
      } else if j < i {
        assert rows[j].id < rows[i].id;
      }
    }
  }
}
