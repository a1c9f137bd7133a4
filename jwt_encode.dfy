/**
 * The browser-side JWT encoder of the dashboard: `base64url` (the browser's
 * `btoa` followed by the URL-safe rewrite), the HMAC-SHA-256 signature in the
 * same encoding, and `jwtEncode`, which stamps a one-hour `exp` claim on the
 * payload and assembles `header.payload.signature`.
 *
 * `btoa` works on the characters of a string as bytes and refuses a string
 * holding a character above U+00FF.  JSON serialisation, the HMAC itself and
 * the clock are parameters.
 */
module JwtEncode {
  import opened Wrappers
  import opened Text

  newtype byte = x: int | 0 <= x < 256

  // ----- the two Base64 alphabets ---------------------------------------------------

  /** A letter or a digit: the first 62 symbols both alphabets share. */
  function AlphaNum(k: int): (c: char)
    requires 0 <= k < 62
    ensures c != '=' && c != '+' && c != '/' && c != '-' && c != '_' && c != '.'
  {
    if k < 26 then (65 + k) as char
    else if k < 52 then (97 + k - 26) as char
    else (48 + k - 52) as char
  }

  /** The symbol for `k` in the standard alphabet that `btoa` uses. */
  function StdChar(k: int): char
    requires 0 <= k < 64
  {
    if k == 62 then '+' else if k == 63 then '/' else AlphaNum(k)
  }

  /** The symbol for `k` in the URL-safe alphabet of section 5 of RFC 4648. */
  function UrlChar(k: int): char
    requires 0 <= k < 64
  {
    if k == 62 then '-' else if k == 63 then '_' else AlphaNum(k)
  }

  /** The value of a URL-safe symbol; `None` for any other character. */
  function UrlValue(c: char): Option<int> {
    if 'A' <= c <= 'Z' then Some(c as int - 65)
    else if 'a' <= c <= 'z' then Some(c as int - 97 + 26)
    else if '0' <= c <= '9' then Some(c as int - 48 + 52)
    else if c == '-' then Some(62)
    else if c == '_' then Some(63)
    else None
  }

  /** The URL-safe alphabet is a bijection between 0..63 and its 64 symbols. */
  lemma UrlAlphabetBijective(k: int, c: char)
    requires 0 <= k < 64
    ensures UrlValue(UrlChar(k)) == Some(k)
    ensures UrlValue(c) == Some(k) ==> UrlChar(k) == c
  {
  }

  // ----- encoding -----------------------------------------------------------------

  /** The 6-bit groups of one to three bytes: the bytes, followed by zero
      bits, cut into groups of six, as many groups as it takes to cover them. */
  function Group(b: seq<byte>): (s: seq<int>)
    requires 1 <= |b| <= 3
    ensures |s| == |b| + 1 && forall k :: 0 <= k < |s| ==> 0 <= s[k] < 64
  {
    var b0 := b[0] as int;
    var b1 := if |b| > 1 then b[1] as int else 0;
    var b2 := if |b| > 2 then b[2] as int else 0;
    [b0 / 4, (b0 % 4) * 16 + b1 / 16, (b1 % 16) * 4 + b2 / 64, b2 % 64][..|b| + 1]
  }

  /** The 6-bit groups of `b`, three bytes at a time. */
  function Sextets(b: seq<byte>): (s: seq<int>)
    ensures |s| == (4 * |b| + 2) / 3
    ensures forall k :: 0 <= k < |s| ==> 0 <= s[k] < 64
    decreases |b|
  {
    if b == [] then []
    else
      var n := if |b| < 3 then |b| else 3;
      Group(b[..n]) + Sextets(b[n..])
  }

  /** The `=` signs that pad standard Base64 to a multiple of four symbols. */
  function Padding(n: nat): (pad: string)
    ensures forall k :: 0 <= k < |pad| ==> pad[k] == '='
    ensures (|pad| + (4 * n + 2) / 3) % 4 == 0
  {
    var count := if n % 3 == 1 then 2 else if n % 3 == 2 then 1 else 0;
    var q, r := n / 3, n % 3;
    var symbols := 4 * q + (if r == 0 then 0 else r + 1);
    assert 4 * n + 2 == 3 * symbols + (if r == 0 then 2 else r - 1);
    assert (4 * n + 2) / 3 == symbols;
    assert count + symbols == 4 * (q + (if r == 0 then 0 else 1));
    seq(count, k => '=')
  }

  /** The symbols of 6-bit groups in the standard alphabet. */
  function StdSymbols(s: seq<int>): (r: string)
    requires forall k :: 0 <= k < |s| ==> 0 <= s[k] < 64
    ensures |r| == |s| && forall k :: 0 <= k < |s| ==> r[k] == StdChar(s[k])
  {
    seq(|s|, k requires 0 <= k < |s| => StdChar(s[k]))
  }

  /** The symbols of 6-bit groups in the URL-safe alphabet. */
  function UrlSymbols(s: seq<int>): (r: string)
    requires forall k :: 0 <= k < |s| ==> 0 <= s[k] < 64
    ensures |r| == |s| && forall k :: 0 <= k < |s| ==> r[k] == UrlChar(s[k])
  {
    seq(|s|, k requires 0 <= k < |s| => UrlChar(s[k]))
  }

  /** Standard Base64 with padding, as `btoa` produces it from bytes. */
  function StdEncode(b: seq<byte>): (r: string)
    ensures |r| % 4 == 0
  {
    StdSymbols(Sextets(b)) + Padding(|b|)
  }

  /** Base64url without padding. */
  function UrlEncode(b: seq<byte>): (r: string)
    ensures |r| == (4 * |b| + 2) / 3
    ensures forall c :: c in r ==> UrlValue(c).Some?
  {
    UrlSymbols(Sextets(b))
  }

  /** The three `replace` calls of `base64url` and of `hmacSha256`: drop every
      `=`, then `+` becomes `-` and `/` becomes `_`. */
  function UrlSafe(s: string): string {
    ReplaceChar(ReplaceChar(RemoveChar(s, '='), '+', '-'), '/', '_')
  }

  /** Symbol by symbol, the two replacements turn one alphabet into the other. */
  lemma ReplacedSymbols(s: seq<int>)
    requires forall k :: 0 <= k < |s| ==> 0 <= s[k] < 64
    ensures ReplaceChar(ReplaceChar(StdSymbols(s), '+', '-'), '/', '_') == UrlSymbols(s)
  {
  }

  /** The rewrite turns standard Base64 into unpadded Base64url. */
  lemma UrlSafeOfStd(b: seq<byte>)
    ensures UrlSafe(StdEncode(b)) == UrlEncode(b)
  {
    var body := StdSymbols(Sextets(b));
    var pad := Padding(|b|);
    RemoveCharConcat(body, pad, '=');
    RemoveAbsentChar(body, '=');
    RemoveCharOnly(pad, '=');
    assert body + [] == body;
    ReplacedSymbols(Sextets(b));
  }

  // ----- decoding -----------------------------------------------------------------

  /** The values of the symbols of `t`; `None` when one is not URL-safe. */
  function Values(t: string): (r: Option<seq<int>>)
    ensures r.Some? ==> |r.value| == |t| && forall k :: 0 <= k < |t| ==> 0 <= r.value[k] < 64
  {
    if t == [] then Some([])
    else match (UrlValue(t[0]), Values(t[1..]))
      case (Some(v), Some(rest)) => Some([v] + rest)
      case _ => None
  }

  /** The bytes of two to four 6-bit groups: the bits of the groups, cut into
      bytes, the bits left over dropped. */
  function Ungroup(s: seq<int>): (b: seq<byte>)
    requires 2 <= |s| <= 4 && forall k :: 0 <= k < |s| ==> 0 <= s[k] < 64
    ensures |b| == |s| - 1
  {
    var s2 := if |s| > 2 then s[2] else 0;
    var s3 := if |s| > 3 then s[3] else 0;
    [(s[0] * 4 + s[1] / 16) as byte, ((s[1] % 16) * 16 + s2 / 4) as byte, ((s2 % 4) * 64 + s3) as byte][..|s| - 1]
  }

  /** The bytes of 6-bit groups, four groups at a time; a single group left
      over is not a valid end. */
  function FromSextets(s: seq<int>): (r: Option<seq<byte>>)
    requires forall k :: 0 <= k < |s| ==> 0 <= s[k] < 64
    ensures r.None? <==> |s| % 4 == 1
    decreases |s|
  {
    if s == [] then Some([])
    else if |s| == 1 then None
    else if |s| < 4 then Some(Ungroup(s))
    else
      var tail := FromSextets(s[4..]);
      assert |s| % 4 == |s[4..]| % 4 by { RemainderAfterGroup(|s|); }
      if tail.None? then None else Some(Ungroup(s[..4]) + tail.value)
  }

  /** Removing one group of four leaves the remainder modulo four as it was. */
  lemma RemainderAfterGroup(k: nat)
    requires k >= 4
    ensures k % 4 == (k - 4) % 4
  {
  }

  /** Base64url decoding without padding. */
  function UrlDecode(t: string): Option<seq<byte>> {
    match Values(t)
    case None => None
    case Some(s) => FromSextets(s)
  }

  lemma {:induction false} ValuesOfUrlChars(s: seq<int>)
    requires forall k :: 0 <= k < |s| ==> 0 <= s[k] < 64
    ensures Values(UrlSymbols(s)) == Some(s)
  {
    var t := UrlSymbols(s);
    if s != [] {
      assert t[1..] == UrlSymbols(s[1..]);
      ValuesOfUrlChars(s[1..]);
      UrlAlphabetBijective(s[0], t[0]);
      assert s == [s[0]] + s[1..];
    }
  }

  /** The arithmetic of one group: each byte comes back out of its 6-bit groups. */
  lemma FirstByteInverse(b0: int, b1: int)
    requires 0 <= b0 < 256 && 0 <= b1 < 256
    ensures (b0 / 4) * 4 + ((b0 % 4) * 16 + b1 / 16) / 16 == b0
  {
  }

  lemma SecondByteInverse(b0: int, b1: int, b2: int)
    requires 0 <= b0 < 256 && 0 <= b1 < 256 && 0 <= b2 < 256
    ensures (((b0 % 4) * 16 + b1 / 16) % 16) * 16 + ((b1 % 16) * 4 + b2 / 64) / 4 == b1
  {
  }

  lemma ThirdByteInverse(b1: int, b2: int)
    requires 0 <= b1 < 256 && 0 <= b2 < 256
    ensures (((b1 % 16) * 4 + b2 / 64) % 4) * 64 + b2 % 64 == b2
  {
  }

  /** One group's bytes come back out of its 6-bit groups. */
  lemma UngroupGroup(b: seq<byte>)
    requires 1 <= |b| <= 3
    ensures Ungroup(Group(b)) == b
  {
    var b0 := b[0] as int;
    var b1 := if |b| > 1 then b[1] as int else 0;
    var b2 := if |b| > 2 then b[2] as int else 0;
    FirstByteInverse(b0, b1);
    SecondByteInverse(b0, b1, b2);
    ThirdByteInverse(b1, b2);
    var s := Group(b);
    var full := [b0 / 4, (b0 % 4) * 16 + b1 / 16, (b1 % 16) * 4 + b2 / 64, b2 % 64];
    assert forall k :: 0 <= k < |s| ==> s[k] == full[k];
    var x := Ungroup(s);
    assert x[0] == b[0];
    assert |b| > 1 ==> x[1] == b[1];
    assert |b| > 2 ==> x[2] == b[2];
  }

  /** Decoding undoes the 6-bit grouping. */
  lemma {:induction false} FromSextetsOfSextets(b: seq<byte>)
    ensures FromSextets(Sextets(b)) == Some(b)
    decreases |b|
  {
    if b != [] {
      var s := Sextets(b);
      if |b| < 3 {
        assert b[|b|..] == [] && b[..|b|] == b;
        assert s == Group(b) + Sextets([]);
        UngroupGroup(b);
        assert FromSextets(s) == Some(Ungroup(s));
      } else {
        var g := Group(b[..3]);
        assert s == g + Sextets(b[3..]);
        assert s[..4] == g && s[4..] == Sextets(b[3..]);
        FromSextetsOfSextets(b[3..]);
        UngroupGroup(b[..3]);
        assert FromSextets(s) == Some(Ungroup(g) + b[3..]);
        assert b == b[..3] + b[3..];
      }
    }
  }

  /** Decoding Base64url gives back the bytes that were encoded. */
  lemma UrlRoundTrip(b: seq<byte>)
    ensures UrlDecode(UrlEncode(b)) == Some(b)
  {
    ValuesOfUrlChars(Sextets(b));
    FromSextetsOfSextets(b);
  }

  // ----- btoa and base64url -------------------------------------------------------

  datatype EncodeError = InvalidCharacter

  /** Every character of `s` fits in a byte. */
  predicate Latin1(s: string) {
    forall k :: 0 <= k < |s| ==> s[k] as int < 256
  }

  /** The bytes `btoa` reads from a string of byte-sized characters. */
  function Latin1Bytes(s: string): (b: seq<byte>)
    requires Latin1(s)
    ensures |b| == |s| && forall k :: 0 <= k < |s| ==> b[k] as int == s[k] as int
  {
    seq(|s|, k requires 0 <= k < |s| => s[k] as int as byte)
  }

  /** `String.fromCharCode(...bytes)`. */
  function FromCharCodes(b: seq<byte>): (s: string)
    ensures Latin1(s) && Latin1Bytes(s) == b
  {
    seq(|b|, k requires 0 <= k < |b| => b[k] as int as char)
  }

  /** The browser's `btoa`. */
  function Btoa(s: string): (r: Result<string, EncodeError>)
    ensures r.Err? <==> !Latin1(s)
  {
    if Latin1(s) then Ok(StdEncode(Latin1Bytes(s))) else Err(InvalidCharacter)
  }

  /** `base64url`: the URL-safe rewrite of `btoa`. */
  function Base64Url(s: string): (r: Result<string, EncodeError>)
    ensures r.Err? <==> !Latin1(s)
  {
    match Btoa(s)
    case Err(e) => Err(e)
    case Ok(t) => Ok(UrlSafe(t))
  }

  /** `base64url` succeeds exactly on byte-sized text, gives unpadded
      Base64url of its bytes, and decodes back to them. */
  lemma Base64UrlMeaning(s: string)
    ensures Latin1(s) ==> Base64Url(s) == Ok(UrlEncode(Latin1Bytes(s)))
                          && UrlDecode(Base64Url(s).value) == Some(Latin1Bytes(s))
  {
    if Latin1(s) {
      UrlSafeOfStd(Latin1Bytes(s));
      UrlRoundTrip(Latin1Bytes(s));
    }
  }

  /** The signature text of `hmacSha256` for the digest `digest`. */
  function SignatureText(digest: seq<byte>): string {
    UrlSafe(StdEncode(Latin1Bytes(FromCharCodes(digest))))
  }

  /** Rebuilding the digest as a string never makes `btoa` fail, and the
      signature is the digest in unpadded Base64url. */
  lemma SignatureMeaning(digest: seq<byte>)
    ensures Btoa(FromCharCodes(digest)).Ok?
    ensures UrlSafe(Btoa(FromCharCodes(digest)).value) == SignatureText(digest) == UrlEncode(digest)
  {
    UrlSafeOfStd(digest);
  }

  // ----- the token ----------------------------------------------------------------

  /** One hour, in seconds. */
  const ExpirySeconds := 60 * 60

  /** A property value: a number, a string, or anything else `JSON.stringify`
      can render. */
  datatype JsonValue = Number(n: int) | Text(s: string) | Other(rendered: string)

  /** A property of an object, in insertion order. */
  datatype Claim = Claim(key: string, value: JsonValue)

  /** The header object `{alg: "HS256", typ: "JWT"}`. */
  const Header := [Claim("alg", Text("HS256")), Claim("typ", Text("JWT"))]

  /** The keys of `claims`, each at most once, as in a JavaScript object. */
  predicate DistinctKeys(claims: seq<Claim>) {
    forall i, j :: 0 <= i < j < |claims| ==> claims[i].key != claims[j].key
  }

  /** `payload[key] = value`: an existing property keeps its place and takes
      the new value; a new one is added last. */
  function SetProperty(claims: seq<Claim>, key: string, value: JsonValue): (r: seq<Claim>)
    ensures (exists k :: 0 <= k < |claims| && claims[k].key == key) ==> |r| == |claims|
    ensures (forall k :: 0 <= k < |claims| ==> claims[k].key != key) ==> r == claims + [Claim(key, value)]
    ensures forall k :: 0 <= k < |claims| ==>
              r[k] == if claims[k].key == key then Claim(key, value) else claims[k]
    ensures DistinctKeys(claims) ==> DistinctKeys(r)
  {
    if forall k :: 0 <= k < |claims| ==> claims[k].key != key then claims + [Claim(key, value)]
    else seq(|claims|, k requires 0 <= k < |claims| =>
               if claims[k].key == key then Claim(key, value) else claims[k])
  }

  /** The token for the header and payload serialised as `headerJson` and
      `payloadJson`: the two encoded texts joined by a dot, a dot, and the
      signature of that text; `btoa`'s error when either text has a character
      beyond one byte. */
  function Token(headerJson: string, payloadJson: string, secret: string, hmac: (string, string) -> seq<byte>)
    : (r: Result<string, EncodeError>)
    ensures r.Err? <==> !Latin1(headerJson) || !Latin1(payloadJson)
  {
    match Base64Url(headerJson)
    case Err(e) => Err(e)
    case Ok(h) =>
      match Base64Url(payloadJson)
      case Err(e) => Err(e)
      case Ok(p) =>
        var unsigned := h + "." + p;
        Ok(unsigned + "." + SignatureText(hmac(secret, unsigned)))
  }

  /** The payload object handed to `jwtEncode`. */
  class Payload {
    var claims: seq<Claim>

    constructor (claims: seq<Claim>)
      ensures this.claims == claims
    {
      this.claims := claims;
    }
  }

  /** `jwtEncode(payload, secret)` at `nowMillis` (what `Date.now()` returns):
      sets `payload.exp` to one hour after the current second and returns the
      signed token, or the error `btoa` raises. */
  method JwtEncode(payload: Payload, secret: string, nowMillis: int,
                   stringify: seq<Claim> -> string, hmac: (string, string) -> seq<byte>)
    returns (r: Result<string, EncodeError>)
    modifies payload
    ensures payload.claims == SetProperty(old(payload.claims), "exp", Number(nowMillis / 1000 + ExpirySeconds))
    ensures r == Token(stringify(Header), stringify(payload.claims), secret, hmac)
  {
    var now := nowMillis / 1000;
    payload.claims := SetProperty(payload.claims, "exp", Number(now + ExpirySeconds));
    var headerB64 := Base64Url(stringify(Header));
    if headerB64.Err? {
      return Err(headerB64.error);
    }
    var payloadB64 := Base64Url(stringify(payload.claims));
    if payloadB64.Err? {
      return Err(payloadB64.error);
    }
    var unsignedToken := headerB64.value + "." + payloadB64.value;
    var signature := SignatureText(hmac(secret, unsignedToken));
    r := Ok(unsignedToken + "." + signature);
  }

  // ----- what a token is ------------------------------------------------------------

  /** A URL-safe text holds no dot. */
  lemma NoDotInUrlText(b: seq<byte>)
    ensures '.' !in UrlEncode(b)
  {
    assert UrlValue('.').None?;
  }

  /** A token splits on its dots into exactly three segments; the first
      decodes to the header text, the second to the payload text, and the
      third to the HMAC of the first two joined by a dot, so a receiver
      holding the secret can check it. */
  lemma TokenSegments(headerJson: string, payloadJson: string, secret: string, hmac: (string, string) -> seq<byte>)
    requires Latin1(headerJson) && Latin1(payloadJson)
    ensures var t := Token(headerJson, payloadJson, secret, hmac).value;
            var parts := Split(t, ".");
            && |parts| == 3
            && UrlDecode(parts[0]) == Some(Latin1Bytes(headerJson))
            && UrlDecode(parts[1]) == Some(Latin1Bytes(payloadJson))
            && UrlDecode(parts[2]) == Some(hmac(secret, parts[0] + "." + parts[1]))
  {
    Base64UrlMeaning(headerJson);
    Base64UrlMeaning(payloadJson);
    var h := Base64Url(headerJson).value;
    var p := Base64Url(payloadJson).value;
    var digest := hmac(secret, h + "." + p);
    var sig := SignatureText(digest);
    SignatureMeaning(digest);
    UrlRoundTrip(digest);
    NoDotInUrlText(Latin1Bytes(headerJson));
    NoDotInUrlText(Latin1Bytes(payloadJson));
    NoDotInUrlText(digest);
    assert Token(headerJson, payloadJson, secret, hmac).value == h + "." + p + "." + sig;
    ThreeSegments(h, p, sig);
  }

  /** Three dot-free segments joined by dots split back into themselves. */
  lemma ThreeSegments(a: string, b: string, c: string)
    requires '.' !in a && '.' !in b && '.' !in c
    ensures Split(a + "." + b + "." + c, ".") == [a, b, c]
  {
    var parts := [a, b, c];
    assert Join(parts, ".") == a + "." + b + "." + c by {
      assert parts[1..] == [b, c];
      assert Join([b, c], ".") == b + "." + c by {
        assert [b, c][1..] == [c];
      }
    }
    SplitJoin(parts, '.');
  }

  /** The `exp` claim is the only one the encoder changes, and it says one
      hour after the current second. */
  lemma ExpiryClaim(claims: seq<Claim>, nowMillis: int)
    requires DistinctKeys(claims)
    ensures var r := SetProperty(claims, "exp", Number(nowMillis / 1000 + ExpirySeconds));
            && DistinctKeys(r)
            && (exists k :: 0 <= k < |r| && r[k] == Claim("exp", Number(nowMillis / 1000 + 3600)))
            && forall c :: c in claims && c.key != "exp" ==> c in r
  {
    var r := SetProperty(claims, "exp", Number(nowMillis / 1000 + ExpirySeconds));
    if forall k :: 0 <= k < |claims| ==> claims[k].key != "exp" {
      assert r[|claims|] == Claim("exp", Number(nowMillis / 1000 + 3600));
    } else {
      var k :| 0 <= k < |claims| && claims[k].key == "exp";
      assert r[k] == Claim("exp", Number(nowMillis / 1000 + 3600));
    }
    forall c | c in claims && c.key != "exp" ensures c in r {
      var k :| 0 <= k < |claims| && claims[k] == c;
      assert r[k] == c;
    }
  }
}
