/**
 * The three account models (models/user.js, models/partner.js,
 * models/admin.js), written once and parameterised by role: the stored row,
 * the public projection, the password setter and the e-mail hook of a new
 * instance, the validators, `authenticate`, `generateToken` and
 * `findByToken`.
 */
module Accounts {
  import opened Wrappers
  import opened Js
  import opened Roles
  import opened Primitives

  /** The columns only partner accounts have. */
  datatype PartnerInfo = PartnerInfo(partnerName: string, address: string, phone: string, verified: bool)

  /**
   * A stored account row. The raw password is a VIRTUAL attribute: it has no
   * column, so a row cannot hold it.
   */
  datatype Account = Account(
    id: int,
    email: string,
    salt: string,
    passwordHash: string,
    partner: Option<PartnerInfo>,
    createdAt: int,
    updatedAt: int)

  /** The row has exactly the columns of its role's table. */
  predicate FitsRole(role: Role, a: Account) {
    (role == Partner) == a.partner.Some?
  }

  /** Every column of a stored row, as the instance's toJSON() gives them. */
  function ToJson(a: Account): map<string, Value> {
    var common := map[
      "id" := Int(a.id), "email" := Str(a.email), "salt" := Str(a.salt),
      "password_hash" := Str(a.passwordHash),
      "createdAt" := Date(Finite(a.createdAt)), "updatedAt" := Date(Finite(a.updatedAt))];
    match a.partner
    case None => common
    case Some(p) => common + map[
      "partnerName" := Str(p.partnerName), "address" := Str(p.address),
      "phone" := Str(p.phone), "verified" := Bool(p.verified)]
  }

  /** The columns of a role's table. */
  function Columns(role: Role): set<string> {
    var common := {"id", "email", "salt", "password_hash", "createdAt", "updatedAt"};
    if role == Partner then common + {"partnerName", "address", "phone", "verified"} else common
  }

  /** The attributes toPublicJSON picks for each role. */
  function PublicKeys(role: Role): set<string> {
    match role
    case Partner => {"id", "partnerName", "address", "phone", "email", "verified", "createdAt", "updatedAt"}
    case _ => {"id", "email", "createdAt", "updatedAt"}
  }

  /**
   * toPublicJSON: the public projection of an account. It never carries the
   * salt, the password hash or the raw password, and it carries every
   * attribute the role lists, with the row's values.
   */
  function ToPublicJson(role: Role, a: Account): (r: map<string, Value>)
    ensures "salt" !in r && "password_hash" !in r && "password" !in r
    ensures forall k :: k in r ==> k in ToJson(a) && r[k] == ToJson(a)[k]
  {
    var keys := PublicKeys(role);
    assert "salt" !in keys && "password_hash" !in keys && "password" !in keys;
    Pick(ToJson(a), keys)
  }

  /** A row that fits its role shows exactly the role's public attributes. */
  lemma PublicJsonKeys(role: Role, a: Account)
    requires FitsRole(role, a)
    ensures ToPublicJson(role, a).Keys == PublicKeys(role)
  {
    var json := ToJson(a);
    if role == Partner {
      assert json.Keys == {"id", "email", "salt", "password_hash", "createdAt", "updatedAt",
                           "partnerName", "address", "phone", "verified"};
    } else {
      assert json.Keys == {"id", "email", "salt", "password_hash", "createdAt", "updatedAt"};
    }
  }

  // ----- lookups -----

  /** Ids grow along the table, as the engine assigns them: so they are unique. */
  predicate IdsIncreasing(table: seq<Account>) {
    forall i, j :: 0 <= i < j < |table| ==> table[i].id < table[j].id
  }

  /** The table's unique constraint on `email`. */
  predicate EmailsUnique(table: seq<Account>) {
    forall i, j :: 0 <= i < j < |table| ==> table[i].email != table[j].email
  }

  /** The first row, in rowid order, that `matches`: how findOne and findById pick a row. */
  function FirstMatching(table: seq<Account>, matches: Account -> bool): (r: Option<Account>)
    ensures r.Some? ==> r.value in table && matches(r.value)
    ensures r.None? ==> forall a :: a in table ==> !matches(a)
  {
    if |table| == 0 then None
    else if matches(table[0]) then Some(table[0])
    else FirstMatching(table[1..], matches)
  }

  /** findOne({where: {email}}): the first row with exactly that e-mail. */
  function FirstWithEmail(table: seq<Account>, email: string): (r: Option<Account>)
    ensures r.Some? ==> r.value in table && r.value.email == email
    ensures r.None? ==> forall a :: a in table ==> a.email != email
  {
    FirstMatching(table, (a: Account) => a.email == email)
  }

  /** findById(id): the row with that primary key, if any. */
  function FindById(table: seq<Account>, id: int): (r: Option<Account>)
    ensures r.Some? ==> r.value in table && r.value.id == id
    ensures r.None? ==> forall a :: a in table ==> a.id != id
  {
    FirstMatching(table, (a: Account) => a.id == id)
  }

  /** With increasing ids, findById finds each row by its own id. */
  lemma FindByIdFindsRow(table: seq<Account>, a: Account)
    requires IdsIncreasing(table) && a in table
    ensures FindById(table, a.id) == Some(a)
  {
    var r := FindById(table, a.id).value;
    var i :| 0 <= i < |table| && table[i] == a;
    var j :| 0 <= j < |table| && table[j] == r;
    if i < j {
      assert table[i].id < table[j].id;
    } else if j < i {
      assert table[j].id < table[i].id;
    }
  }

  /** With unique e-mails, the e-mail lookup finds each row by its own e-mail. */
  lemma FirstWithEmailFindsRow(table: seq<Account>, a: Account)
    requires EmailsUnique(table) && a in table
    ensures FirstWithEmail(table, a.email) == Some(a)
  {
    var r := FirstWithEmail(table, a.email).value;
    var i :| 0 <= i < |table| && table[i] == a;
    var j :| 0 <= j < |table| && table[j] == r;
    if i < j {
      assert table[i].email != table[j].email;
    } else if j < i {
      assert table[j].email != table[i].email;
    }
  }

  // ----- authenticate -----

  /**
   * A login body after `_.pick(body, 'email', 'password')`. None stands for
   * a value that is absent or is not a string.
   */
  datatype Credentials = Credentials(email: Option<string>, password: Option<string>)

  /**
   * authenticate(body): reject unless both fields are strings; look the
   * e-mail up exactly as given (it is not lower-cased); reject when no row
   * has it or the password does not match the stored hash.
   */
  function Authenticate(lib: Library, table: seq<Account>, body: Credentials): (r: Option<Account>)
    ensures body.email.None? || body.password.None? ==> r.None?
    ensures r.Some? ==>
      && r.value in table
      && Some(r.value.email) == body.email
      && lib.bcryptCompare(body.password.value, r.value.passwordHash)
  {
    if body.email.None? || body.password.None? then None
    else match FirstWithEmail(table, body.email.value)
      case None => None
      case Some(a) => if lib.bcryptCompare(body.password.value, a.passwordHash) then Some(a) else None
  }

  /** Every account whose e-mail and password are supplied exactly is authenticated. */
  lemma AuthenticateAccepts(lib: Library, table: seq<Account>, body: Credentials, a: Account)
    requires EmailsUnique(table) && a in table
    requires body.email == Some(a.email) && body.password.Some?
    requires lib.bcryptCompare(body.password.value, a.passwordHash)
    ensures Authenticate(lib, table, body) == Some(a)
  {
    FirstWithEmailFindsRow(table, a);
  }

  /**
   * Stored e-mails are lower-case and the login e-mail is compared as
   * given, so a login e-mail with an upper-case letter never authenticates.
   */
  lemma AuthenticateIsCaseSensitive(lib: Library, table: seq<Account>, body: Credentials)
    requires forall a :: a in table ==> IsLower(a.email)
    requires body.email.Some? && !IsLower(body.email.value)
    ensures Authenticate(lib, table, body) == None
  {
  }

  // ----- tokens -----

  /**
   * generateToken(type): undefined when the type is not a string; otherwise
   * the payload `{<role key>: id, type}` is serialised, encrypted with the
   * encryption secret and wrapped in a JWT signed with the signing secret.
   */
  function GenerateToken(lib: Library, keys: Secrets, role: Role, id: int, tokenType: Option<string>,
                         iv: string, iat: int): (r: Option<string>)
    ensures r.None? <==> tokenType.None?
  {
    match tokenType
    case None => None
    case Some(t) =>
      var plain := lib.stringify(TokenPayload(role, id, t));
      var cipher := lib.aesEncrypt(plain, keys.encryption, iv);
      Some(lib.jwtSign(cipher, keys.signing, iat))
  }

  /** Verify the JWT, decrypt its `token` claim and parse the JSON inside. */
  function DecodeToken(lib: Library, keys: Secrets, token: string): Option<Payload> {
    match lib.jwtVerify(token, keys.signing)
    case None => None
    case Some(cipher) =>
      match lib.aesDecrypt(cipher, keys.encryption)
      case None => None
      case Some(plain) => lib.parse(plain)
  }

  /**
   * findByToken(token): decode the token and look the account up by the
   * role's payload key. Any failure rejects, as does a payload without that
   * key or with a non-numeric value under it.
   */
  function FindByToken(lib: Library, keys: Secrets, role: Role, table: seq<Account>, token: string): (r: Option<Account>)
    ensures r.Some? ==> r.value in table
    ensures DecodeToken(lib, keys, token).None? ==> r.None?
  {
    match DecodeToken(lib, keys, token)
    case None => None
    case Some(data) =>
      var key := PayloadKey(role);
      if key in data && data[key].Int? then FindById(table, data[key].i) else None
  }

  /**
   * Round trip: a token minted for an id resolves, under the same role, to
   * the row with that id while it exists, and is rejected once it does not.
   */
  lemma TokenRoundTrip(lib: Library, keys: Secrets, role: Role, table: seq<Account>,
                       id: int, t: string, iv: string, iat: int)
    requires Lawful(lib)
    ensures GenerateToken(lib, keys, role, id, Some(t), iv, iat).Some?
    ensures FindByToken(lib, keys, role, table, GenerateToken(lib, keys, role, id, Some(t), iv, iat).value)
            == FindById(table, id)
  {
    var plain := lib.stringify(TokenPayload(role, id, t));
    var cipher := lib.aesEncrypt(plain, keys.encryption, iv);
    assert lib.jwtVerify(lib.jwtSign(cipher, keys.signing, iat), keys.signing) == Some(cipher);
    assert lib.aesDecrypt(cipher, keys.encryption) == Some(plain);
    assert lib.parse(plain) == Some(TokenPayload(role, id, t));
  }

  /** A token minted for one role is rejected by every other role's lookup. */
  lemma OtherRoleTokenRejected(lib: Library, keys: Secrets, minted: Role, checking: Role,
                               table: seq<Account>, id: int, t: string, iv: string, iat: int)
    requires Lawful(lib) && minted != checking
    ensures FindByToken(lib, keys, checking, table, GenerateToken(lib, keys, minted, id, Some(t), iv, iat).value)
            == None
  {
    var plain := lib.stringify(TokenPayload(minted, id, t));
    var cipher := lib.aesEncrypt(plain, keys.encryption, iv);
    assert lib.jwtVerify(lib.jwtSign(cipher, keys.signing, iat), keys.signing) == Some(cipher);
    assert lib.aesDecrypt(cipher, keys.encryption) == Some(plain);
    assert lib.parse(plain) == Some(TokenPayload(minted, id, t));
    assert PayloadKey(checking) !in TokenPayload(minted, id, t);
  }

  /** The empty token (what a missing header becomes) never resolves. */
  lemma EmptyTokenRejected(lib: Library, keys: Secrets, role: Role, table: seq<Account>)
    requires Lawful(lib)
    ensures FindByToken(lib, keys, role, table, "") == None
  {
    assert lib.jwtVerify("", keys.signing) == None;
  }

  // ----- creating an account -----

  /**
   * A registration body after the handler's `_.pick`. None stands for an
   * absent value; the partner attributes are None for the other roles.
   */
  datatype NewAccount = NewAccount(
    email: Option<string>,
    password: Option<string>,
    partnerName: Option<string>,
    address: Option<string>,
    phone: Option<string>)

  /**
   * A new, unsaved instance of an account model. `password` is the VIRTUAL
   * attribute; the setter fills `salt` and `passwordHash` beside it.
   */
  class AccountInstance {
    const lib: Library
    const role: Role
    var email: Option<string>
    var password: Option<string>
    var salt: Option<string>
    var passwordHash: Option<string>
    var partnerName: Option<string>
    var address: Option<string>
    var phone: Option<string>
    var verified: bool

    /** The setter has kept the salt and hash in step with the raw password. */
    ghost predicate Valid()
      reads this
    {
      password.Some? ==>
        salt.Some? && passwordHash.Some? && passwordHash.value == lib.bcryptHash(password.value, salt.value)
    }

    /** build(): every attribute except the password as given; `verified` takes its default. */
    constructor (lib: Library, role: Role, body: NewAccount)
      ensures Valid()
      ensures this.lib == lib && this.role == role
      ensures email == body.email && password == None && salt == None && passwordHash == None
      ensures partnerName == body.partnerName && address == body.address && phone == body.phone
      ensures !verified
    {
      this.lib := lib;
      this.role := role;
      email := body.email;
      password := None;
      salt := None;
      passwordHash := None;
      partnerName := body.partnerName;
      address := body.address;
      phone := body.phone;
      verified := false;
    }

    /** The `password` setter: store the raw value, a fresh salt and the bcrypt hash. */
    method SetPassword(value: string, newSalt: string)
      modifies this`password, this`salt, this`passwordHash
      ensures Valid()
      ensures password == Some(value) && salt == Some(newSalt)
      ensures passwordHash == Some(lib.bcryptHash(value, newSalt))
    {
      password := Some(value);
      salt := Some(newSalt);
      passwordHash := Some(lib.bcryptHash(value, newSalt));
    }

    /** The beforeValidate hook: a string e-mail is lower-cased. */
    method BeforeValidate()
      modifies this`email
      ensures email == if old(email).Some? then Some(ToLower(old(email).value)) else None
    {
      if email.Some? {
        email := Some(ToLower(email.value));
      }
    }

    /** The attribute validators of the role's model. */
    predicate PassesValidation(host: Host)
      reads this
    {
      FieldsValid(host, role, email, password, partnerName, address, phone)
    }

    /** The row an insert stores: the password column does not exist. */
    function Row(id: int, now: int): (a: Account)
      reads this
      requires Valid() && password.Some? && email.Some?
      requires role == Partner ==> partnerName.Some? && address.Some? && phone.Some?
      ensures FitsRole(role, a)
    {
      Account(id, email.value, salt.value, passwordHash.value,
              if role == Partner then Some(PartnerInfo(partnerName.value, address.value, phone.value, verified))
              else None,
              now, now)
    }
  }

  /**
   * The validators: e-mail present and an e-mail address; password present
   * and 7 to 100 characters; for partners, name and address present and 1 to
   * 200 characters, phone present and 1 to 20 characters.
   */
  predicate FieldsValid(host: Host, role: Role, email: Option<string>, password: Option<string>,
                        partnerName: Option<string>, address: Option<string>, phone: Option<string>)
  {
    && email.Some? && host.isEmail(email.value)
    && password.Some? && 7 <= |password.value| <= 100
    && (role == Partner ==>
          && partnerName.Some? && 1 <= |partnerName.value| <= 200
          && address.Some? && 1 <= |address.value| <= 200
          && phone.Some? && 1 <= |phone.value| <= 20)
  }

  /** The unique constraints: e-mail, and for partners name, address and phone. */
  predicate Clashes(table: seq<Account>, row: Account) {
    exists a :: a in table && (
      || a.email == row.email
      || (a.partner.Some? && row.partner.Some? && (
            || a.partner.value.partnerName == row.partner.value.partnerName
            || a.partner.value.address == row.partner.value.address
            || a.partner.value.phone == row.partner.value.phone)))
  }

  /**
   * create(body) on an account table: build, run the setter, run the hook,
   * validate, then insert unless a unique column clashes.
   */
  function CreateOutcome(lib: Library, host: Host, role: Role, table: seq<Account>, body: NewAccount,
                         salt: string, id: int, now: int): Option<Account>
  {
    var email := if body.email.Some? then Some(ToLower(body.email.value)) else None;
    if !FieldsValid(host, role, email, body.password, body.partnerName, body.address, body.phone) then None
    else
      var row := Account(id, email.value, salt, lib.bcryptHash(body.password.value, salt),
                         if role == Partner then Some(PartnerInfo(body.partnerName.value, body.address.value, body.phone.value, false))
                         else None,
                         now, now);
      if Clashes(table, row) then None else Some(row)
  }

  /**
   * build(body), the password setter, the e-mail hook and the validators on
   * a fresh instance: the row to insert, or None when validation fails. The
   * row is what CreateOutcome inserts unless it clashes with the table.
   */
  method Build(lib: Library, host: Host, role: Role, table: seq<Account>, body: NewAccount,
               salt: string, id: int, now: int) returns (row: Option<Account>)
    ensures row.None? ==> CreateOutcome(lib, host, role, table, body, salt, id, now) == None
    ensures row.Some? ==>
      && CreateOutcome(lib, host, role, table, body, salt, id, now) == (if Clashes(table, row.value) then None else row)
      && FitsRole(role, row.value) && IsLower(row.value.email) && row.value.id == id
  {
    var inst := new AccountInstance(lib, role, body);
    if body.password.Some? {
      inst.SetPassword(body.password.value, salt);
    }
    inst.BeforeValidate();
    if !inst.PassesValidation(host) {
      return None;
    }
    ToLowerNormalises(body.email.value);
    row := Some(inst.Row(id, now));
  }

  /**
   * What a created row satisfies: its e-mail is the lower-cased input and
   * passes the validator, the raw password had 7 to 100 characters and
   * matches the stored hash, it fits its role's table, a partner starts
   * unverified, and no unique column clashes with an existing row.
   */
  lemma CreatedRow(lib: Library, host: Host, role: Role, table: seq<Account>, body: NewAccount,
                   salt: string, id: int, now: int)
    requires Lawful(lib)
    requires CreateOutcome(lib, host, role, table, body, salt, id, now).Some?
    ensures var a := CreateOutcome(lib, host, role, table, body, salt, id, now).value;
      && body.email.Some? && a.email == ToLower(body.email.value) && IsLower(a.email)
      && host.isEmail(a.email)
      && body.password.Some? && 7 <= |body.password.value| <= 100
      && lib.bcryptCompare(body.password.value, a.passwordHash)
      && a.salt == salt && a.id == id
      && FitsRole(role, a) && (role == Partner ==> !a.partner.value.verified)
      && !Clashes(table, a)
  {
    ToLowerNormalises(body.email.value);
  }

  /**
   * Two registrations whose e-mails differ only in letter case: once the
   * first is stored, the second is refused.
   */
  lemma CaseInsensitiveDuplicateRejected(lib: Library, host: Host, role: Role, table: seq<Account>,
                                         body: NewAccount, existing: Account, salt: string, id: int, now: int)
    requires existing in table
    requires body.email.Some? && existing.email == ToLower(body.email.value)
    ensures CreateOutcome(lib, host, role, table, body, salt, id, now) == None
  {
  }
}
