/**
 * What a `where` object means when the ORM runs it against a table in the
 * SQLite dialect: equality, `$in`, `$gte`/`$lte` on a date column and
 * `$like`, and the LIMIT/OFFSET window of findAndCountAll. Rows come back in
 * table (rowid) order, since no query orders them.
 */
module Query {
  import opened Wrappers
  import opened Js

  /** One condition on one column. */
  datatype Filter =
    | Eq(v: Value)
    | In(vs: seq<Value>)
    | Range(gte: Option<Num>, lte: Option<Num>)
    | Like(pattern: string)

  /** A `where` object: column name to condition, all of which must hold. */
  type Where = map<string, Filter>

  /**
   * `column = value`. Text compared with an integer column is converted by
   * the column's affinity, so "7" matches 7. Comparing with undefined is
   * comparing with NULL, which never holds.
   */
  predicate SqlEq(col: Value, v: Value) {
    match (col, v)
    case (Int(a), Int(b)) => a == b
    case (Int(a), Str(t)) => t == ToDecimal(a)
    case (Str(a), Str(b)) => a == b
    case (Bool(a), Bool(b)) => a == b
    case _ => false
  }

  /**
   * `s LIKE p`: `%` matches any run of characters, `_` any one character,
   * and letters compare without regard to ASCII case.
   */
  function LikeMatch(p: string, s: string): bool
    decreases |p| + |s|
  {
    if |p| == 0 then |s| == 0
    else if p[0] == '%' then LikeMatch(p[1..], s) || (|s| > 0 && LikeMatch(p, s[1..]))
    else |s| > 0 && (p[0] == '_' || LowerChar(p[0]) == LowerChar(s[0])) && LikeMatch(p[1..], s[1..])
  }

  /**
   * A date bound holds for a finite time at or past it. NaN is compared as
   * JavaScript compares it, so a NaN bound or time meets no bound; the SQL
   * the engine builds for a NaN date is not modelled.
   */
  predicate AtLeast(t: Num, bound: Option<Num>) {
    bound.None? || (t.Finite? && bound.value.Finite? && t.n >= bound.value.n)
  }

  predicate AtMost(t: Num, bound: Option<Num>) {
    bound.None? || (t.Finite? && bound.value.Finite? && t.n <= bound.value.n)
  }

  predicate Satisfies(col: Value, f: Filter) {
    match f
    case Eq(v) => SqlEq(col, v)
    case In(vs) => exists v :: v in vs && SqlEq(col, v)
    case Range(gte, lte) => col.Date? && AtLeast(col.t, gte) && AtMost(col.t, lte)
    case Like(p) => col.Str? && LikeMatch(p, col.s)
  }

  /** A row, given by its columns, meets every condition of `w`. */
  predicate Matches(cols: map<string, Value>, w: Where) {
    forall k :: k in w ==> k in cols && Satisfies(cols[k], w[k])
  }

  /** The rows that meet `w`, in table order. */
  function Select<R(!new)>(rows: seq<R>, cols: R -> map<string, Value>, w: Where): (r: seq<R>)
    ensures |r| <= |rows|
    ensures forall x :: x in r <==> x in rows && Matches(cols(x), w)
  {
    if |rows| == 0 then []
    else if Matches(cols(rows[0]), w) then [rows[0]] + Select(rows[1..], cols, w)
    else Select(rows[1..], cols, w)
  }

  /** When no row meets `w`, the selection is empty. */
  lemma {:induction false} NoneSelected<R(!new)>(rows: seq<R>, cols: R -> map<string, Value>, w: Where)
    requires forall x :: x in rows ==> !Matches(cols(x), w)
    ensures Select(rows, cols, w) == []
  {
    if |rows| > 0 {
      assert rows[0] in rows;
      NoneSelected(rows[1..], cols, w);
    }
  }

  /** `column = NULL` holds for no row, so a `where` with it selects nothing. */
  lemma NullEqSelectsNothing<R(!new)>(rows: seq<R>, cols: R -> map<string, Value>, w: Where, k: string)
    requires k in w && w[k] == Eq(Undefined)
    ensures Select(rows, cols, w) == []
  {
    forall x | x in rows ensures !Matches(cols(x), w) {
      assert !(k in cols(x) && Satisfies(cols(x)[k], w[k]));
    }
    NoneSelected(rows, cols, w);
  }

  /** An empty `where` selects every row. */
  lemma {:induction false} AllSelected<R(!new)>(rows: seq<R>, cols: R -> map<string, Value>)
    ensures Select(rows, cols, map[]) == rows
  {
    if |rows| > 0 {
      AllSelected(rows[1..], cols);
      assert [rows[0]] + rows[1..] == rows;
    }
  }

  /** A condition on a column the table does not have makes the query fail. */
  function Run<R(!new)>(rows: seq<R>, cols: R -> map<string, Value>, schema: set<string>, w: Where): (r: Option<seq<R>>)
    ensures r.Some? <==> w.Keys <= schema
  {
    if w.Keys <= schema then Some(Select(rows, cols, w)) else None
  }

  /** findOne: the first row that meets `w`; a failing query is an error (None). */
  function FindOne<R(!new)>(rows: seq<R>, cols: R -> map<string, Value>, schema: set<string>, w: Where): (r: Option<Option<R>>)
    ensures r.Some? <==> w.Keys <= schema
    ensures r.Some? && r.value.Some? ==> r.value.value in rows && Matches(cols(r.value.value), w)
    ensures r.Some? && r.value.None? ==> forall x :: x in rows ==> !Matches(cols(x), w)
  {
    match Run(rows, cols, schema, w)
    case None => None
    case Some(found) => Some(if |found| == 0 then None else Some(found[0]))
  }

  // ----- LIMIT and OFFSET -----

  /**
   * Where the window starts: a NaN or zero offset is not sent at all, and
   * SQLite treats a negative offset as zero.
   */
  function Skip(offset: Num, n: nat): (k: nat)
    ensures k <= n
  {
    if offset.Finite? && offset.n > 0 then (if offset.n < n then offset.n else n) else 0
  }

  /**
   * The rows LIMIT/OFFSET keep: a NaN or zero limit is not sent, and SQLite
   * treats a negative limit as no limit.
   */
  function Window<R>(rows: seq<R>, offset: Num, limit: Num): (r: seq<R>)
    ensures var k := Skip(offset, |rows|);
      && |r| <= |rows| - k
      && r == rows[k..k + |r|]
      && (limit.Finite? && limit.n > 0 ==> |r| == if limit.n < |rows| - k then limit.n else |rows| - k)
      && (!(limit.Finite? && limit.n > 0) ==> |r| == |rows| - k)
  {
    var rest := rows[Skip(offset, |rows|)..];
    if limit.Finite? && limit.n > 0 && limit.n < |rest| then rest[..limit.n] else rest
  }

  /** findAndCountAll: the number of rows meeting `w`, and the window of them. */
  datatype Counted<R> = Counted(count: nat, rows: seq<R>)

  function FindAndCountAll<R(!new)>(rows: seq<R>, cols: R -> map<string, Value>, schema: set<string>,
                              w: Where, offset: Num, limit: Num): (r: Option<Counted<R>>)
    ensures r.Some? <==> w.Keys <= schema
    ensures r.Some? ==> r.value.count == |Select(rows, cols, w)|
    ensures r.Some? ==> r.value.rows == Window(Select(rows, cols, w), offset, limit)
  {
    match Run(rows, cols, schema, w)
    case None => None
    case Some(found) => Some(Counted(|found|, Window(found, offset, limit)))
  }

  // ----- LIKE '%q%' is a case-insensitive substring search -----

  /** `q` holds no LIKE wildcard. */
  predicate Literal(q: string) {
    forall i :: 0 <= i < |q| ==> q[i] != '%' && q[i] != '_'
  }

  /** `q` occurs in `s` at some position, letters compared without regard to ASCII case. */
  predicate ContainsIgnoringCase(s: string, q: string) {
    exists i :: 0 <= i <= |s| && OccursAt(s, q, i)
  }

  predicate OccursAt(s: string, q: string, i: int) {
    0 <= i <= |s| - |q| && ToLower(s[i..i + |q|]) == ToLower(q)
  }

  lemma {:induction false} TrailingPercentMatchesAll(s: string)
    ensures LikeMatch("%", s)
  {
    if |s| > 0 {
      TrailingPercentMatchesAll(s[1..]);
    }
  }

  /** `q%` matches exactly the strings that start with `q`, ignoring case. */
  lemma {:induction false} PrefixMatch(q: string, s: string)
    requires Literal(q)
    ensures LikeMatch(q + "%", s) <==> |q| <= |s| && ToLower(s[..|q|]) == ToLower(q)
  {
    if |q| == 0 {
      TrailingPercentMatchesAll(s);
      assert q + "%" == "%";
      assert ToLower(s[..0]) == ToLower(q);
    } else {
      assert (q + "%")[1..] == q[1..] + "%";
      assert Literal(q[1..]);
      if |s| > 0 {
        PrefixMatch(q[1..], s[1..]);
        assert (q + "%")[0] == q[0];
        if |q| <= |s| {
          var a, b := ToLower(s[..|q|]), ToLower(q);
          assert s[1..][..|q| - 1] == s[..|q|][1..];
          assert a == [LowerChar(s[0])] + ToLower(s[1..][..|q| - 1]);
          assert b == [LowerChar(q[0])] + ToLower(q[1..]);
          assert a == b <==> a[0] == b[0] && a[1..] == b[1..];
        }
      }
    }
  }

  /** `%r` matches `s` exactly when `r` matches some suffix of `s`. */
  lemma {:induction false} LeadingPercent(r: string, s: string)
    ensures LikeMatch("%" + r, s) <==> exists i :: 0 <= i <= |s| && LikeMatch(r, s[i..])
  {
    assert ("%" + r)[1..] == r;
    assert s[0..] == s;
    if |s| > 0 {
      LeadingPercent(r, s[1..]);
      forall i | 1 <= i <= |s| ensures s[1..][i - 1..] == s[i..] {}
      if exists i :: 0 <= i <= |s| && LikeMatch(r, s[i..]) {
        var i :| 0 <= i <= |s| && LikeMatch(r, s[i..]);
        if i > 0 {
          assert LikeMatch(r, s[1..][i - 1..]);
        }
      }
    }
  }

  /**
   * The GP search pattern: for a literal `q`, `%q%` matches exactly the
   * strings that contain `q`, ignoring ASCII case.
   */
  lemma SubstringSearch(q: string, s: string)
    requires Literal(q)
    ensures LikeMatch("%" + q + "%", s) <==> ContainsIgnoringCase(s, q)
  {
    assert "%" + q + "%" == "%" + (q + "%");
    LeadingPercent(q + "%", s);
    if LikeMatch("%" + q + "%", s) {
      var i :| 0 <= i <= |s| && LikeMatch(q + "%", s[i..]);
      PrefixMatch(q, s[i..]);
      assert s[i..][..|q|] == s[i..i + |q|];
      assert OccursAt(s, q, i);
    }
    if ContainsIgnoringCase(s, q) {
      var i :| 0 <= i <= |s| && OccursAt(s, q, i);
      PrefixMatch(q, s[i..]);
      assert s[i..][..|q|] == s[i..i + |q|];
    }
  }
}
