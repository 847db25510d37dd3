/**
 * The two databases the handlers share, as one object whose tables are
 * sequences in rowid order: the three account tables, the session table and
 * the GP table of the profiles database, and the request table of the
 * requests database. The library, host functions and secrets are fixed for
 * the object's lifetime.
 */
module Store {
  import opened Wrappers
  import opened Js
  import opened Roles
  import opened Primitives
  import A = Accounts
  import S = Sessions
  import Rq = Requests
  import G = Gps

  /** What every account table keeps: increasing ids, unique e-mails, the role's columns, lower-case e-mails. */
  predicate AccountsValid(role: Role, table: seq<A.Account>) {
    && A.IdsIncreasing(table)
    && A.EmailsUnique(table)
    && (forall a :: a in table ==> A.FitsRole(role, a) && IsLower(a.email))
  }

  /** The id the engine gives the next row of an account table: rows are never deleted there. */
  function NextAccountId(table: seq<A.Account>): int {
    if |table| == 0 then 1 else table[|table| - 1].id + 1
  }

  function NextRequestId(rows: seq<Rq.Request>): int {
    if |rows| == 0 then 1 else rows[|rows| - 1].id + 1
  }

  /** The table after update() of the row with id `id`: that row replaced, the others as they were. */
  function Replace(rows: seq<Rq.Request>, id: int, n: Rq.Request): (r: seq<Rq.Request>)
    ensures |r| == |rows|
    ensures forall i :: 0 <= i < |rows| ==> r[i] == if rows[i].id == id then n else rows[i]
  {
    seq(|rows|, i requires 0 <= i < |rows| => if rows[i].id == id then n else rows[i])
  }

  class Db {
    const lib: Library
    const host: Host
    const keys: Secrets
    var users: seq<A.Account>
    var partners: seq<A.Account>
    var admins: seq<A.Account>
    var tokens: seq<S.Session>
    /** The highest session id ever given: session rows are deleted, ids are not reused. */
    var lastTokenId: int
    var gps: seq<G.Gp>
    var requests: seq<Rq.Request>

    ghost predicate Valid()
      reads this
    {
      && AccountsValid(User, users) && AccountsValid(Partner, partners) && AccountsValid(Admin, admins)
      && S.IdsIncreasing(tokens) && (forall s :: s in tokens ==> s.id <= lastTokenId)
      && Rq.IdsIncreasing(requests) && (forall r :: r in requests ==> Rq.Valid(r))
    }

    /** The account table of a role. */
    function Table(role: Role): seq<A.Account>
      reads this
    {
      match role
      case User => users
      case Partner => partners
      case Admin => admins
    }

    /** Empty databases. */
    constructor (lib: Library, host: Host, keys: Secrets)
      ensures Valid()
      ensures this.lib == lib && this.host == host && this.keys == keys
      ensures users == [] && partners == [] && admins == [] && tokens == [] && gps == [] && requests == []
    {
      this.lib := lib;
      this.host := host;
      this.keys := keys;
      users, partners, admins := [], [], [];
      tokens, lastTokenId := [], 0;
      gps, requests := [], [];
    }

    /** token.create({token: value}): build, run the setter, validate, insert. */
    method CreateSession(value: Option<string>) returns (r: Option<S.Session>)
      requires Valid()
      modifies this`tokens, this`lastTokenId
      ensures Valid()
      ensures r == S.NewSession(lib, value, old(lastTokenId) + 1)
      ensures r.None? ==> tokens == old(tokens) && lastTokenId == old(lastTokenId)
      ensures r.Some? ==> tokens == old(tokens) + [r.value] && lastTokenId == r.value.id
    {
      var inst := new S.TokenInstance(lib);
      inst.SetToken(value);
      if inst.PassesValidation() {
        var s := S.Session(lastTokenId + 1, inst.tokenHash.value);
        tokens := tokens + [s];
        lastTokenId := s.id;
        r := Some(s);
      } else {
        r := None;
      }
    }

    /** destroy() on a session record: the rows with its id are deleted. */
    method DestroySession(s: S.Session)
      requires Valid()
      modifies this`tokens
      ensures Valid()
      ensures tokens == S.RemoveId(old(tokens), s.id)
    {
      S.RemoveIdKeepsOrder(tokens, s.id);
      tokens := S.RemoveId(tokens, s.id);
    }

    /**
     * create(body) on a role's account table: build (which runs the password
     * setter when a password was sent), run the e-mail hook, validate, and
     * insert unless a unique column clashes.
     */
    method CreateAccount(role: Role, body: A.NewAccount, salt: string, now: int) returns (r: Option<A.Account>)
      requires Valid()
      modifies this`users, this`partners, this`admins
      ensures Valid()
      ensures r == A.CreateOutcome(lib, host, role, old(Table(role)), body, salt, NextAccountId(old(Table(role))), now)
      ensures Table(role) == old(Table(role)) + if r.Some? then [r.value] else []
      ensures forall other :: other != role ==> Table(other) == old(Table(other))
    {
      var table := Table(role);
      r := A.Build(lib, host, role, table, body, salt, NextAccountId(table), now);
      if r.None? || A.Clashes(table, r.value) {
        return None;
      }
      var row := r.value;
      AppendKeepsAccountsValid(role, table, row);
      InsertAccount(role, row);
    }

    /** The INSERT into a role's account table. */
    method InsertAccount(role: Role, row: A.Account)
      requires Valid() && AccountsValid(role, Table(role) + [row])
      modifies this`users, this`partners, this`admins
      ensures Valid()
      ensures Table(role) == old(Table(role)) + [row]
      ensures forall other :: other != role ==> Table(other) == old(Table(other))
    {
      match role {
        case User => users := users + [row];
        case Partner => partners := partners + [row];
        case Admin => admins := admins + [row];
      }
    }

    /** request.create(...) with the given owner and partner. */
    method CreateRequest(owner: Value, partnerId: int, body: Rq.NewRequest, now: int) returns (r: Option<Rq.Request>)
      requires Valid()
      modifies this`requests
      ensures Valid()
      ensures r == Rq.Create(host, owner, partnerId, body, NextRequestId(old(requests)), now)
      ensures requests == old(requests) + if r.Some? then [r.value] else []
    {
      r := Rq.Create(host, owner, partnerId, body, NextRequestId(requests), now);
      if r.Some? {
        requests := requests + [r.value];
      }
    }

    /** update(attributes) on a stored request: refuse nulls, validate the new values, then write them. */
    method UpdateRequest(target: Rq.Request, c: Rq.Changes, now: int) returns (r: Option<Rq.Request>)
      requires Valid() && target in requests
      modifies this`requests
      ensures Valid()
      ensures r == if Rq.UpdateAccepted(target, c, now) then Some(Rq.Apply(target, c, now)) else None
      ensures requests == if r.Some? then Replace(old(requests), target.id, r.value) else old(requests)
    {
      var n := Rq.Apply(target, c, now);
      if c.SetsNull() || !Rq.Valid(n) {
        return None;
      }
      requests := Replace(requests, target.id, n);
      r := Some(n);
    }
  }

  /** Appending a fresh, non-clashing row of the right shape keeps an account table valid. */
  lemma AppendKeepsAccountsValid(role: Role, table: seq<A.Account>, row: A.Account)
    requires AccountsValid(role, table)
    requires row.id == NextAccountId(table) && !A.Clashes(table, row)
    requires A.FitsRole(role, row) && IsLower(row.email)
    ensures AccountsValid(role, table + [row])
  {
    var t := table + [row];
    forall i, j | 0 <= i < j < |t| ensures t[i].id < t[j].id && t[i].email != t[j].email {
      if j == |table| {
        assert t[i] in table;
        if i < |table| - 1 {
          assert table[i].id < table[|table| - 1].id;
        }
      }
    }
  }
}
