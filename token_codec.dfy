/**
 * The HS256 token codec of the PHP backend: `generateJWT`, `verifyJWT` and
 * `getAuthUser` (api/includes/auth.php), with the constants of api/config/config.php.
 *
 * A token is `seg(header) . seg(payload) . seg(signature)` where `seg` is base64
 * with `+` `/` `=` rewritten to `-` `_` and nothing (the unpadded URL-safe alphabet of
 * section 5 of RFC 4648), and the signature is HMAC-SHA256 of the first two segments
 * joined by a dot (section 3.2 of RFC 7518).
 *
 * HMAC, base64 and JSON are PHP built-ins. They enter the model as the fields of a
 * `Primitives` value; `Lawful` states the only facts about them the proofs use.
 */
module TokenCodec {
  import opened Wrappers

  type Bytes = seq<bv8>

  const JWT_SECRET_KEY: string := "your-secret-key-change-this-in-production"
  const JWT_ALGORITHM: string := "HS256"
  /** 24 hours, in seconds. */
  const JWT_EXPIRATION: int := 3600 * 24

  /** The payload `generateJWT` signs: `user_id`, `email`, `role`, `iat`, `exp`. */
  datatype Claims = Claims(userId: int, email: string, role: string, iat: int, exp: int)

  /** The PHP built-ins the codec calls. */
  datatype Primitives = Primitives(
    /** `hash_hmac('sha256', data, key, true)` */
    hmacSha256: (string, string) -> Bytes,
    /** `base64_encode` */
    base64Encode: Bytes -> string,
    /** `base64_decode`, non-strict: unpadded input is accepted */
    base64Decode: string -> Bytes,
    /** `json_encode(['typ' => typ, 'alg' => alg])` */
    encodeHeader: (string, string) -> Bytes,
    /** `json_encode` of the payload array */
    encodeClaims: Claims -> Bytes,
    /** `json_decode(..., true)` read back as claims; None when the text is not such an object */
    decodeClaims: Bytes -> Option<Claims>)

  /** The characters `base64_encode` writes (section 4 of RFC 4648, with padding). */
  predicate IsBase64Char(c: char)
  {
    ('A' <= c <= 'Z') || ('a' <= c <= 'z') || ('0' <= c <= '9') || c == '+' || c == '/' || c == '='
  }

  /**
   * What the proofs assume of the built-ins: JSON reads back what it wrote, base64 reads
   * back what it wrote after the URL-safe rewrite and its reversal, and base64 writes
   * only its own alphabet.
   */
  ghost predicate Lawful(p: Primitives)
  {
    (forall c :: p.decodeClaims(p.encodeClaims(c)) == Some(c)) &&
    (forall b :: p.base64Decode(Deurlify(Urlify(p.base64Encode(b)))) == b) &&
    (forall b, i :: 0 <= i < |p.base64Encode(b)| ==> IsBase64Char(p.base64Encode(b)[i]))
  }

  // ---------------------------------------------------------------------------
  // The URL-safe rewrite

  /** `str_replace(['+', '/', '='], ['-', '_', ''], s)`. */
  function Urlify(s: string): string
  {
    if s == [] then []
    else
      (if s[0] == '+' then "-" else if s[0] == '/' then "_" else if s[0] == '=' then "" else [s[0]])
      + Urlify(s[1..])
  }

  /** `str_replace(['-', '_'], ['+', '/'], s)`. */
  function Deurlify(s: string): string
  {
    if s == [] then []
    else [if s[0] == '-' then '+' else if s[0] == '_' then '/' else s[0]] + Deurlify(s[1..])
  }

  /** A character that may appear in a token segment: the base64url alphabet of RFC 4648. */
  predicate IsSegmentChar(c: char)
  {
    ('A' <= c <= 'Z') || ('a' <= c <= 'z') || ('0' <= c <= '9') || c == '-' || c == '_'
  }

  /** The rewrite of a base64 text uses only the base64url alphabet: no `.`, `+`, `/` or `=`. */
  lemma {:induction false} UrlifyAlphabet(s: string)
    requires forall i :: 0 <= i < |s| ==> IsBase64Char(s[i])
    ensures forall i :: 0 <= i < |Urlify(s)| ==> IsSegmentChar(Urlify(s)[i])
  {
    if s != [] {
      UrlifyAlphabet(s[1..]);
    }
  }

  /** One token segment: base64 of the bytes, rewritten to the URL-safe form. */
  function Segment(p: Primitives, b: Bytes): string
  {
    Urlify(p.base64Encode(b))
  }

  lemma SegmentAlphabet(p: Primitives, b: Bytes)
    requires Lawful(p)
    ensures forall i :: 0 <= i < |Segment(p, b)| ==> IsSegmentChar(Segment(p, b)[i])
  {
    UrlifyAlphabet(p.base64Encode(b));
  }

  // ---------------------------------------------------------------------------
  // explode

  /** `explode(sep, s)`: the pieces between separators; the empty string gives `[""]`. */
  function Explode(s: string, sep: char): (parts: seq<string>)
    ensures |parts| >= 1
  {
    if s == [] then [""]
    else if s[0] == sep then [""] + Explode(s[1..], sep)
    else
      var rest := Explode(s[1..], sep);
      [[s[0]] + rest[0]] + rest[1..]
  }

  /** Number of occurrences of `c` in `s`. */
  function Occurrences(s: string, c: char): nat
  {
    if s == [] then 0 else (if s[0] == c then 1 else 0) + Occurrences(s[1..], c)
  }

  /** `explode` returns one more piece than there are separators. */
  lemma {:induction false} ExplodeCount(s: string, sep: char)
    ensures |Explode(s, sep)| == Occurrences(s, sep) + 1
  {
    if s != [] {
      ExplodeCount(s[1..], sep);
    }
  }

  /** A piece without the separator followed by the separator is split off as the first piece. */
  lemma {:induction false} ExplodeJoin(a: string, b: string, sep: char)
    requires sep !in a
    ensures Explode(a + [sep] + b, sep) == [a] + Explode(b, sep)
  {
    if a == [] {
      assert a + [sep] + b == [sep] + b;
      assert ([sep] + b)[1..] == b;
    } else {
      ExplodeJoin(a[1..], b, sep);
      assert (a + [sep] + b)[1..] == a[1..] + [sep] + b;
      assert [a[0]] + a[1..] == a;
    }
  }

  lemma {:induction false} ExplodeNoSeparator(a: string, sep: char)
    requires sep !in a
    ensures Explode(a, sep) == [a]
  {
    if a != [] {
      ExplodeNoSeparator(a[1..], sep);
      assert [a[0]] + a[1..] == a;
    }
  }

  /** Three separator-free pieces joined by dots are split back into exactly those pieces. */
  lemma ExplodeThree(a: string, b: string, c: string)
    requires '.' !in a && '.' !in b && '.' !in c
    ensures Explode(a + "." + b + "." + c, '.') == [a, b, c]
  {
    ExplodeJoin(a, b + "." + c, '.');
    assert a + "." + b + "." + c == a + ['.'] + (b + "." + c);
    ExplodeJoin(b, c, '.');
    assert b + "." + c == b + ['.'] + c;
    ExplodeNoSeparator(c, '.');
  }

  // ---------------------------------------------------------------------------
  // generateJWT and verifyJWT

  /** The signature segment for the signing input `header . payload`. */
  function Signature(p: Primitives, header: string, payload: string): string
  {
    Segment(p, p.hmacSha256(header + "." + payload, JWT_SECRET_KEY))
  }

  /** The claims `generateJWT` issues at time `now`. */
  function IssuedClaims(userId: int, email: string, role: string, now: int): Claims
  {
    Claims(userId, email, role, now, now + JWT_EXPIRATION)
  }

  /** `generateJWT($userId, $email, $role)` with `time()` read as `now`. */
  function GenerateJwt(p: Primitives, userId: int, email: string, role: string, now: int): string
  {
    var header := Segment(p, p.encodeHeader("JWT", JWT_ALGORITHM));
    var payload := Segment(p, p.encodeClaims(IssuedClaims(userId, email, role, now)));
    header + "." + payload + "." + Signature(p, header, payload)
  }

  /** The third piece of a three-piece token equals the signature of the first two. */
  predicate SignatureMatches(p: Primitives, parts: seq<string>)
    requires |parts| == 3
  {
    parts[2] == Signature(p, parts[0], parts[1])
  }

  /** The claims the payload segment decodes to. */
  function PayloadClaims(p: Primitives, payload: string): Option<Claims>
  {
    p.decodeClaims(p.base64Decode(Deurlify(payload)))
  }

  /**
   * `verifyJWT($token)` at time `now`: None stands for `false`. The checks run in the
   * source's order: piece count, signature, payload decoding, expiry.
   */
  function VerifyJwt(p: Primitives, token: string, now: int): Option<Claims>
  {
    var parts := Explode(token, '.');
    if |parts| != 3 then None
    else if !SignatureMatches(p, parts) then None
    else
      match PayloadClaims(p, parts[1])
      case None => None
      case Some(c) => if c.exp < now then None else Some(c)
  }

  /**
   * A generated token has exactly three dot-separated segments, and every segment uses
   * only the base64url alphabet (no `+`, `/`, `=` or `.`).
   */
  lemma GeneratedTokenShape(p: Primitives, userId: int, email: string, role: string, now: int)
    requires Lawful(p)
    ensures var parts := Explode(GenerateJwt(p, userId, email, role, now), '.');
      |parts| == 3 &&
      forall k, i :: 0 <= k < 3 && 0 <= i < |parts[k]| ==> IsSegmentChar(parts[k][i])
  {
    var header := Segment(p, p.encodeHeader("JWT", JWT_ALGORITHM));
    var payload := Segment(p, p.encodeClaims(IssuedClaims(userId, email, role, now)));
    var sig := Signature(p, header, payload);
    SegmentAlphabet(p, p.encodeHeader("JWT", JWT_ALGORITHM));
    SegmentAlphabet(p, p.encodeClaims(IssuedClaims(userId, email, role, now)));
    SegmentAlphabet(p, p.hmacSha256(header + "." + payload, JWT_SECRET_KEY));
    assert '.' !in header && '.' !in payload && '.' !in sig;
    ExplodeThree(header, payload, sig);
  }

  /** The payload segment of a generated token decodes to the issued claims. */
  lemma PayloadRoundTrip(p: Primitives, c: Claims)
    requires Lawful(p)
    ensures PayloadClaims(p, Segment(p, p.encodeClaims(c))) == Some(c)
  {
  }

  /**
   * Round trip: a token from `generateJWT(id, email, role)` at time `iat` verifies at
   * time `now` exactly when `now <= iat + 86400`, and then yields the same `user_id`,
   * `email` and `role`, with `exp == iat + 86400`.
   */
  lemma GenerateThenVerify(p: Primitives, userId: int, email: string, role: string, iat: int, now: int)
    requires Lawful(p)
    ensures var r := VerifyJwt(p, GenerateJwt(p, userId, email, role, iat), now);
      (r.Some? <==> now <= iat + JWT_EXPIRATION) &&
      (r.Some? ==> r.value == Claims(userId, email, role, iat, iat + JWT_EXPIRATION))
  {
    var header := Segment(p, p.encodeHeader("JWT", JWT_ALGORITHM));
    var payload := Segment(p, p.encodeClaims(IssuedClaims(userId, email, role, iat)));
    var sig := Signature(p, header, payload);
    GeneratedTokenShape(p, userId, email, role, iat);
    SegmentAlphabet(p, p.encodeHeader("JWT", JWT_ALGORITHM));
    SegmentAlphabet(p, p.encodeClaims(IssuedClaims(userId, email, role, iat)));
    SegmentAlphabet(p, p.hmacSha256(header + "." + payload, JWT_SECRET_KEY));
    ExplodeThree(header, payload, sig);
    PayloadRoundTrip(p, IssuedClaims(userId, email, role, iat));
  }

  /** A token with a number of dots other than two is rejected. */
  lemma WrongPieceCountRejected(p: Primitives, token: string, now: int)
    requires Occurrences(token, '.') != 2
    ensures VerifyJwt(p, token, now) == None
  {
    ExplodeCount(token, '.');
  }

  /**
   * A token whose third piece is not the signature of the first two is rejected before
   * the payload is decoded or `exp` is read: the result is the same whatever the decoders
   * and the clock say.
   */
  lemma ForgedRejectedBeforeDecoding(p: Primitives, q: Primitives, token: string, now: int, later: int)
    requires p.hmacSha256 == q.hmacSha256 && p.base64Encode == q.base64Encode
    requires var parts := Explode(token, '.'); |parts| == 3 && !SignatureMatches(p, parts)
    ensures VerifyJwt(p, token, now) == None && VerifyJwt(q, token, later) == None
  {
    var parts := Explode(token, '.');
    assert Signature(p, parts[0], parts[1]) == Signature(q, parts[0], parts[1]);
  }

  /** Every accepted token carries the signature of its first two pieces. */
  lemma AcceptedIsSigned(p: Primitives, token: string, now: int)
    requires VerifyJwt(p, token, now).Some?
    ensures var parts := Explode(token, '.'); |parts| == 3 && SignatureMatches(p, parts)
  {
  }

  /**
   * The expiry boundary: a correctly signed token whose payload decodes is rejected iff
   * `exp < now`, so a token is still accepted at the very second `exp == now`.
   */
  lemma ExpiryBoundary(p: Primitives, header: string, payload: string, c: Claims, now: int)
    requires Lawful(p)
    requires '.' !in header && '.' !in payload
    requires PayloadClaims(p, payload) == Some(c)
    ensures var token := header + "." + payload + "." + Signature(p, header, payload);
      (VerifyJwt(p, token, now) == None <==> c.exp < now) &&
      (c.exp == now ==> VerifyJwt(p, token, now) == Some(c))
  {
    var sig := Signature(p, header, payload);
    SegmentAlphabet(p, p.hmacSha256(header + "." + payload, JWT_SECRET_KEY));
    assert '.' !in sig;
    ExplodeThree(header, payload, sig);
  }

  // ---------------------------------------------------------------------------
  // getAuthUser: the Authorization header and the pattern /Bearer\s+(.*)$/i

  /** PCRE's `\s`: tab, line feed, vertical tab, form feed, carriage return, space. */
  predicate IsPcreSpace(c: char)
  {
    c == '\t' || c == '\n' || c == '\U{000B}' || c == '\U{000C}' || c == '\r' || c == ' '
  }

  /** Caseless comparison under `/i` without `/u`: ASCII letters only. */
  function FoldAscii(c: char): char
  {
    if 'A' <= c <= 'Z' then (c as int + 32) as char else c
  }

  /** The word `Bearer`, in any letter case, starts at index `i`. */
  predicate BearerAt(s: string, i: nat)
  {
    i + 6 <= |s| &&
    FoldAscii(s[i]) == 'b' && FoldAscii(s[i + 1]) == 'e' && FoldAscii(s[i + 2]) == 'a' &&
    FoldAscii(s[i + 3]) == 'r' && FoldAscii(s[i + 4]) == 'e' && FoldAscii(s[i + 5]) == 'r'
  }

  /** The first index at or after `j` that does not hold a `\s` character. */
  function SpaceRunEnd(s: string, j: nat): (k: nat)
    requires j <= |s|
    ensures j <= k <= |s|
    ensures forall m :: j <= m < k ==> IsPcreSpace(s[m])
    ensures k < |s| ==> !IsPcreSpace(s[k])
    decreases |s| - j
  {
    if j == |s| || !IsPcreSpace(s[j]) then j else SpaceRunEnd(s, j + 1)
  }

  /** The first index at or after `j` holding a line feed, or `|s|`: how far `.` reaches. */
  function LineEnd(s: string, j: nat): (k: nat)
    requires j <= |s|
    ensures j <= k <= |s|
    ensures forall m :: j <= m < k ==> s[m] != '\n'
    ensures k < |s| ==> s[k] == '\n'
    decreases |s| - j
  {
    if j == |s| || s[j] == '\n' then j else LineEnd(s, j + 1)
  }

  /**
   * The match attempt at index `i`. `\s+` and `.*` are greedy, and backtracking cannot
   * help: `$` holds only at the end of the subject or just before a final line feed, and
   * `.*` already stops at the first line feed after the spaces. The capture is what `.*`
   * took.
   */
  function MatchAt(s: string, i: nat): Option<string>
  {
    if !BearerAt(s, i) || i + 6 == |s| || !IsPcreSpace(s[i + 6]) then None
    else
      var j := SpaceRunEnd(s, i + 6);
      var k := LineEnd(s, j);
      if k == |s| || k == |s| - 1 then Some(s[j..k]) else None
  }

  /** The leftmost successful match attempt at index `i` or later. */
  function FirstMatch(s: string, i: nat): Option<string>
    decreases |s| - i
  {
    if i >= |s| then None
    else match MatchAt(s, i)
      case Some(t) => Some(t)
      case None => FirstMatch(s, i + 1)
  }

  /** `preg_match('/Bearer\s+(.*)$/i', header, $matches)` and then `$matches[1]`; None when there is no match. */
  function BearerToken(header: string): Option<string>
  {
    FirstMatch(header, 0)
  }

  /** The capture never holds a line feed and never starts with a `\s` character. */
  lemma {:induction false} FirstMatchShape(s: string, i: nat)
    ensures FirstMatch(s, i).Some? ==>
      var t := FirstMatch(s, i).value;
      '\n' !in t && (t == [] || !IsPcreSpace(t[0]))
    decreases |s| - i
  {
    if i < |s| && MatchAt(s, i).None? {
      FirstMatchShape(s, i + 1);
    }
  }

  /** A header with no `Bearer` in any letter case never matches. */
  lemma {:induction false} NoBearerNoMatch(s: string, i: nat)
    requires forall m: nat :: !BearerAt(s, m)
    ensures FirstMatch(s, i) == None
    decreases |s| - i
  {
    if i < |s| {
      NoBearerNoMatch(s, i + 1);
    }
  }

  /** `Bearer ` followed by a one-line value that does not start with a space yields that value. */
  lemma BearerOfToken(t: string)
    requires '\n' !in t && (t == [] || !IsPcreSpace(t[0]))
    ensures BearerToken("Bearer " + t) == Some(t)
  {
    var s := "Bearer " + t;
    assert BearerAt(s, 0);
    var j := SpaceRunEnd(s, 6);
    assert j == 7 by {
      assert SpaceRunEnd(s, 7) == 7;
    }
    var k := LineEnd(s, 7);
    assert k == |s|;
    assert s[7..] == t;
    assert s[6] == ' ';
    assert !(!BearerAt(s, 0) || 0 + 6 == |s| || !IsPcreSpace(s[0 + 6]));
    assert s[j..k] == t;
    assert MatchAt(s, 0) == Some(t);
    assert FirstMatch(s, 0) == Some(t);
  }

  /**
   * `getAuthUser()`: the header under the exact key `Authorization` (`?? ''` when it is
   * absent), the bearer capture, then `verifyJWT`. None stands for `false`.
   */
  function GetAuthUser(p: Primitives, headers: map<string, string>, now: int): Option<Claims>
  {
    var header := if "Authorization" in headers then headers["Authorization"] else "";
    match BearerToken(header)
    case None => None
    case Some(token) => VerifyJwt(p, token, now)
  }

  /** Without an `Authorization` header there is no authenticated user. */
  lemma NoHeaderNoUser(p: Primitives, headers: map<string, string>, now: int)
    requires "Authorization" !in headers
    ensures GetAuthUser(p, headers, now) == None
  {
    NoBearerNoMatch("", 0);
  }

  /**
   * A request carrying `Authorization: Bearer <token>` with a token issued at `iat`
   * authenticates as the token's user exactly while `now <= iat + 86400`.
   */
  lemma BearerRoundTrip(p: Primitives, headers: map<string, string>, userId: int, email: string,
                        role: string, iat: int, now: int)
    requires Lawful(p)
    requires "Authorization" in headers
    requires headers["Authorization"] == "Bearer " + GenerateJwt(p, userId, email, role, iat)
    ensures var r := GetAuthUser(p, headers, now);
      (r.Some? <==> now <= iat + JWT_EXPIRATION) &&
      (r.Some? ==> r.value == Claims(userId, email, role, iat, iat + JWT_EXPIRATION))
  {
    var token := GenerateJwt(p, userId, email, role, iat);
    TokenCharacters(p, userId, email, role, iat);
    BearerOfToken(token);
    GenerateThenVerify(p, userId, email, role, iat, now);
  }

  /** Every character of a generated token is a segment character or a dot. */
  lemma TokenCharacters(p: Primitives, userId: int, email: string, role: string, now: int)
    requires Lawful(p)
    ensures var t := GenerateJwt(p, userId, email, role, now);
      forall i :: 0 <= i < |t| ==> IsSegmentChar(t[i]) || t[i] == '.'
  {
    var header := Segment(p, p.encodeHeader("JWT", JWT_ALGORITHM));
    var payload := Segment(p, p.encodeClaims(IssuedClaims(userId, email, role, now)));
    SegmentAlphabet(p, p.encodeHeader("JWT", JWT_ALGORITHM));
    SegmentAlphabet(p, p.encodeClaims(IssuedClaims(userId, email, role, now)));
    SegmentAlphabet(p, p.hmacSha256(header + "." + payload, JWT_SECRET_KEY));
  }
}
