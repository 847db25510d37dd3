/**
 * The session table shared by the three roles (models/token.js): a record
 * stores only the MD5 of the token it was created for.
 */
module Sessions {
  import opened Wrappers
  import opened Primitives

  /** A stored session record. The raw token is VIRTUAL and has no column. */
  datatype Session = Session(id: int, tokenHash: string)

  /** Ids grow along the table, as the engine assigns them. */
  predicate IdsIncreasing(sessions: seq<Session>) {
    forall i, j :: 0 <= i < j < |sessions| ==> sessions[i].id < sessions[j].id
  }

  /** A new, unsaved session instance. */
  class TokenInstance {
    const lib: Library
    var token: Option<string>
    var tokenHash: Option<string>

    constructor (lib: Library)
      ensures this.lib == lib && token == None && tokenHash == None
    {
      this.lib := lib;
      token := None;
      tokenHash := None;
    }

    /**
     * The `token` setter: keep the raw value and store its MD5 beside it.
     * MD5 of undefined is the MD5 of the empty message.
     */
    method SetToken(value: Option<string>)
      modifies this
      ensures token == value
      ensures tokenHash == Some(lib.md5(value.GetOr("")))
    {
      token := value;
      tokenHash := Some(lib.md5(value.GetOr("")));
    }

    /** The validators: the token is required and at least one character long. */
    predicate PassesValidation()
      reads this
    {
      token.Some? && |token.value| >= 1
    }
  }

  /**
   * token.create({token: value}): the record stored for `value`, or None when
   * validation fails.
   */
  function NewSession(lib: Library, value: Option<string>, id: int): (r: Option<Session>)
    ensures r.Some? <==> value.Some? && value.value != ""
    ensures r.Some? ==> r.value == Session(id, lib.md5(value.value))
  {
    if value.Some? && |value.value| >= 1 then Some(Session(id, lib.md5(value.value))) else None
  }

  /** findOne({where: {tokenHash: h}}): the first record with that hash. */
  function FirstWithHash(sessions: seq<Session>, h: string): (r: Option<Session>)
    ensures r.Some? ==> r.value in sessions && r.value.tokenHash == h
    ensures r.None? ==> forall s :: s in sessions ==> s.tokenHash != h
  {
    if |sessions| == 0 then None
    else if sessions[0].tokenHash == h then Some(sessions[0])
    else FirstWithHash(sessions[1..], h)
  }

  /** destroy() on a record: every row with its primary key goes, the rest keep their order. */
  function RemoveId(sessions: seq<Session>, id: int): (r: seq<Session>)
    ensures forall s :: s in r <==> s in sessions && s.id != id
    ensures |r| <= |sessions|
  {
    if |sessions| == 0 then []
    else
      var rest := RemoveId(sessions[1..], id);
      if sessions[0].id == id then rest else [sessions[0]] + rest
  }

  /** Destroying a record keeps the remaining ids increasing. */
  lemma {:induction false} RemoveIdKeepsOrder(sessions: seq<Session>, id: int)
    requires IdsIncreasing(sessions)
    ensures IdsIncreasing(RemoveId(sessions, id))
  {
    if |sessions| > 0 {
      var tail := sessions[1..];
      assert IdsIncreasing(tail) by {
        forall i, j | 0 <= i < j < |tail| ensures tail[i].id < tail[j].id {
          assert tail[i] == sessions[i + 1] && tail[j] == sessions[j + 1];
        }
      }
      RemoveIdKeepsOrder(tail, id);
      var rest := RemoveId(tail, id);
      if sessions[0].id != id {
        forall x | x in rest ensures sessions[0].id < x.id {
          var k :| 0 <= k < |tail| && tail[k] == x;
          assert sessions[k + 1] == x;
        }
        ConsKeepsOrder(sessions[0], rest);
      }
    }
  }

  /** A record whose id is below every id of an increasing table can go in front of it. */
  lemma ConsKeepsOrder(h: Session, rest: seq<Session>)
    requires IdsIncreasing(rest) && forall x :: x in rest ==> h.id < x.id
    ensures IdsIncreasing([h] + rest)
  {
    var r := [h] + rest;
    forall i, j | 0 <= i < j < |r| ensures r[i].id < r[j].id {
      assert r[j] == rest[j - 1];
      if i > 0 {
        assert r[i] == rest[i - 1];
      } else {
        assert rest[j - 1] in rest;
      }
    }
  }

  /**
   * A record created for a token is the one the middleware's lookup by that
   * token's hash reaches, whatever the table held before.
   */
  lemma {:induction false} CreatedSessionIsFound(lib: Library, sessions: seq<Session>, t: string, id: int)
    requires NewSession(lib, Some(t), id).Some?
    ensures FirstWithHash(sessions + [NewSession(lib, Some(t), id).value], lib.md5(t)).Some?
  {
    var s := NewSession(lib, Some(t), id).value;
    if |sessions| > 0 && sessions[0].tokenHash != lib.md5(t) {
      assert (sessions + [s])[1..] == sessions[1..] + [s];
      CreatedSessionIsFound(lib, sessions[1..], t, id);
    }
  }

  /** After the only record for a hash is destroyed, the lookup by that hash finds nothing. */
  lemma DestroyedSessionIsGone(sessions: seq<Session>, s: Session)
    requires forall x :: x in sessions && x.tokenHash == s.tokenHash ==> x.id == s.id
    ensures FirstWithHash(RemoveId(sessions, s.id), s.tokenHash).None?
  {
  }
}
