/** The three account kinds and the key each one's token payload carries. */
module Roles {
  import opened Js

  datatype Role = User | Partner | Admin

  /** The payload key generateToken writes and findByToken reads for each role. */
  function PayloadKey(role: Role): string {
    match role
    case User => "id"
    case Partner => "partnerId"
    case Admin => "adminId"
  }

  /** The object generateToken serialises: `{<key>: id, type: tokenType}`. */
  function TokenPayload(role: Role, id: int, tokenType: string): map<string, Value> {
    map[PayloadKey(role) := Int(id), "type" := Str(tokenType)]
  }
}

/**
 * The library and host functions the core calls but whose internals are not
 * modelled: bcrypt, crypto-js AES and MD5, jsonwebtoken, JSON, Date and the
 * e-mail validator. Each is a field of a datatype, so every statement about
 * them holds for any implementation; `Lawful` states the laws the core relies
 * on. Randomness (the bcrypt salt, the AES initialisation vector) and the
 * clock (the JWT issue time) are explicit arguments.
 */
module Primitives {
  import opened Wrappers
  import opened Js
  import opened Roles

  /** A JSON object with flat values, as JSON.parse returns it. */
  type Payload = map<string, Value>

  datatype Library = Library(
    // bcrypt.hashSync(password, salt)
    bcryptHash: (string, string) -> string,
    // bcrypt.compareSync(password, hash)
    bcryptCompare: (string, string) -> bool,
    // AES.encrypt(plaintext, secret, iv).toString()
    aesEncrypt: (string, string, string) -> string,
    // AES.decrypt(ciphertext, secret).toString(Utf8); None when it throws
    aesDecrypt: (string, string) -> Option<string>,
    // jwt.sign({token: claim}, secret) issued at the given time
    jwtSign: (string, string, int) -> string,
    // jwt.verify(token, secret).token; None when verification throws
    jwtVerify: (string, string) -> Option<string>,
    // MD5(text).toString()
    md5: string -> string,
    // JSON.stringify of an object
    stringify: Payload -> string,
    // JSON.parse; None when it throws or gives something other than an object
    parse: string -> Option<Payload>)

  datatype Host = Host(
    // Date.parse
    parseDate: string -> Num,
    // new Date(t).toDateString()
    dateString: Num -> string,
    // the isEmail validator
    isEmail: string -> bool)

  /** The process-wide secrets: one encrypts token payloads, one signs tokens. */
  datatype Secrets = Secrets(encryption: string, signing: string)

  /**
   * The laws the core relies on: a password matches its own hash, decryption
   * undoes encryption under the same secret, verification recovers what was
   * signed under the same secret, an empty token never verifies, and a token
   * payload survives JSON.stringify followed by JSON.parse.
   */
  ghost predicate Lawful(lib: Library) {
    && (forall p, salt :: lib.bcryptCompare(p, lib.bcryptHash(p, salt)))
    && (forall m, key, iv :: lib.aesDecrypt(lib.aesEncrypt(m, key, iv), key) == Some(m))
    && (forall claim, key, iat :: lib.jwtVerify(lib.jwtSign(claim, key, iat), key) == Some(claim))
    && (forall key :: lib.jwtVerify("", key) == None)
    && (forall role, id, t ::
          lib.parse(lib.stringify(TokenPayload(role, id, t))) == Some(TokenPayload(role, id, t)))
  }

  /** A signed token is never the empty string. */
  lemma SignedTokenNonEmpty(lib: Library, claim: string, key: string, iat: int)
    requires Lawful(lib)
    ensures lib.jwtSign(claim, key, iat) != ""
  {
    assert lib.jwtVerify(lib.jwtSign(claim, key, iat), key) == Some(claim);
  }

  // ----- a library that satisfies the laws: the laws are consistent -----

  function RoleTag(role: Role): char {
    match role
    case User => 'u'
    case Partner => 'p'
    case Admin => 'a'
  }

  /** The position of the first `c` in `s`, or |s| when there is none. */
  function IndexOf(s: string, c: char): (i: nat)
    ensures i <= |s|
    ensures i < |s| ==> s[i] == c
    ensures forall j :: 0 <= j < i ==> s[j] != c
  {
    if |s| == 0 then 0 else if s[0] == c then 0 else 1 + IndexOf(s[1..], c)
  }

  predicate IsTokenPayloadOf(p: Payload, role: Role) {
    && PayloadKey(role) in p && p[PayloadKey(role)].Int?
    && "type" in p && p["type"].Str?
    && p == TokenPayload(role, p[PayloadKey(role)].i, p["type"].s)
  }

  function Serialise(role: Role, id: int, t: string): string {
    [RoleTag(role)] + ToDecimal(id) + [':'] + t
  }

  function IdealStringify(p: Payload): string {
    if IsTokenPayloadOf(p, User) then Serialise(User, p["id"].i, p["type"].s)
    else if IsTokenPayloadOf(p, Partner) then Serialise(Partner, p["partnerId"].i, p["type"].s)
    else if IsTokenPayloadOf(p, Admin) then Serialise(Admin, p["adminId"].i, p["type"].s)
    else ""
  }

  function TagRole(c: char): Option<Role> {
    if c == 'u' then Some(User) else if c == 'p' then Some(Partner) else if c == 'a' then Some(Admin) else None
  }

  function IdealParse(s: string): Option<Payload> {
    if |s| == 0 || TagRole(s[0]).None? then None
    else
      var rest := s[1..];
      var i := IndexOf(rest, ':');
      if i == |rest| then None
      else match ParseInt(rest[..i])
        case NaN => None
        case Finite(id) => Some(TokenPayload(TagRole(s[0]).value, id, rest[i + 1..]))
  }

  function IdealCompare(p: string, h: string): bool {
    |p| <= |h| && h[|h| - |p|..] == p
  }

  function IdealVerify(t: string, key: string): Option<string> {
    if |t| > 0 && t[0] == '.' then Some(t[1..]) else None
  }

  function Ideal(): Library {
    Library(
      (p, salt) => salt + "$" + p,
      IdealCompare,
      (m, key, iv) => m,
      (c, key) => Some(c),
      (claim, key, iat) => "." + claim,
      IdealVerify,
      s => s,
      IdealStringify,
      IdealParse)
  }

  lemma StringifyTokenPayload(role: Role, id: int, t: string)
    ensures IdealStringify(TokenPayload(role, id, t)) == Serialise(role, id, t)
  {
    var p := TokenPayload(role, id, t);
    assert IsTokenPayloadOf(p, role);
    match role
    case User =>
    case Partner =>
      assert "id" !in p;
    case Admin =>
      assert "id" !in p && "partnerId" !in p;
  }

  /** The first ':' after an id's decimal text is the one that ends it. */
  lemma ColonEndsDecimal(id: int, t: string)
    ensures IndexOf(ToDecimal(id) + [':'] + t, ':') == |ToDecimal(id)|
  {
    var dec := ToDecimal(id);
    var rest := dec + [':'] + t;
    DecimalAlphabet(id);
    assert rest[|dec|] == ':';
    forall j | 0 <= j < |dec| ensures rest[j] != ':' {
      assert rest[j] == dec[j];
    }
  }

  lemma ParseSerialised(role: Role, id: int, t: string)
    ensures IdealParse(Serialise(role, id, t)) == Some(TokenPayload(role, id, t))
  {
    var s := Serialise(role, id, t);
    var dec := ToDecimal(id);
    SerialisedParts(role, id, t);
    assert ParseInt(s[1..][..|dec|]) == Finite(id) by {
      ParseIntOfDecimal(id);
    }
  }

  /** The pieces IdealParse finds in a serialised payload: the tag, the id's digits up to ':', the type. */
  lemma SerialisedParts(role: Role, id: int, t: string)
    ensures var s := Serialise(role, id, t);
      var dec := ToDecimal(id);
      && |s| > 0 && TagRole(s[0]) == Some(role)
      && IndexOf(s[1..], ':') == |dec| < |s[1..]|
      && s[1..][..|dec|] == dec && s[1..][|dec| + 1..] == t
  {
    var s := Serialise(role, id, t);
    var dec := ToDecimal(id);
    assert s[0] == RoleTag(role);
    assert s[1..] == dec + [':'] + t;
    ColonEndsDecimal(id, t);
  }

  /** The laws can all hold at once. */
  lemma IdealIsLawful()
    ensures Lawful(Ideal())
  {
    var lib := Ideal();
    forall p, salt ensures lib.bcryptCompare(p, lib.bcryptHash(p, salt)) {
      var h := salt + "$" + p;
      assert h[|h| - |p|..] == p;
    }
    forall claim, key, iat ensures lib.jwtVerify(lib.jwtSign(claim, key, iat), key) == Some(claim) {
      assert ("." + claim)[1..] == claim;
    }
    forall role, id, t
      ensures lib.parse(lib.stringify(TokenPayload(role, id, t))) == Some(TokenPayload(role, id, t))
    {
      StringifyTokenPayload(role, id, t);
      ParseSerialised(role, id, t);
    }
  }
}
