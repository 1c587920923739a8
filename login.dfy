/**
 * app/api/auth/login/route.ts: start the OAuth 2.0 authorization-code flow
 * with PKCE (RFC 7636). The random bytes and the SHA-256 digest are foreign
 * calls: the bytes are an input and the digest, already in standard base64
 * text, is a function parameter.
 */
module Login {
  import opened Js
  import opened Http
  import opened Strings
  import SessionConfig

  newtype byte = x: int | 0 <= x < 256

  /** The lower-case hexadecimal digit of a value below 16. */
  function HexChar(k: int): (c: char)
    requires 0 <= k < 16
    ensures '0' <= c <= '9' || 'a' <= c <= 'f'
  {
    if k < 10 then (('0' as int) + k) as char else (('a' as int) + k - 10) as char
  }

  function HexValue(c: char): (k: int)
    ensures 0 <= k < 16
  {
    if '0' <= c <= '9' then c as int - '0' as int
    else if 'a' <= c <= 'f' then c as int - 'a' as int + 10
    else 0
  }

  /** `buffer.toString('hex')` */
  function Hex(bytes: seq<byte>): (r: string)
    ensures |r| == 2 * |bytes|
    ensures forall i :: 0 <= i < |r| ==> '0' <= r[i] <= '9' || 'a' <= r[i] <= 'f'
  {
    if bytes == [] then []
    else [HexChar(bytes[0] as int / 16), HexChar(bytes[0] as int % 16)] + Hex(bytes[1..])
  }

  /** Reading hexadecimal text back into bytes. */
  function FromHex(s: string): (r: seq<byte>)
    requires |s| % 2 == 0
    ensures |r| == |s| / 2
  {
    if s == [] then []
    else [(HexValue(s[0]) * 16 + HexValue(s[1])) as byte] + FromHex(s[2..])
  }

  /** Hex encoding loses nothing: the verifier determines the random bytes. */
  lemma {:induction false} HexRoundTrip(bytes: seq<byte>)
    ensures FromHex(Hex(bytes)) == bytes
  {
    if bytes != [] {
      var b := bytes[0] as int;
      assert HexValue(HexChar(b / 16)) == b / 16;
      assert HexValue(HexChar(b % 16)) == b % 16;
      HexRoundTrip(bytes[1..]);
      assert Hex(bytes)[2..] == Hex(bytes[1..]);
    }
  }

  /** `generateCodeVerifier()`: `crypto.randomBytes(32).toString('hex')`, the bytes given. */
  function CodeVerifier(random: seq<byte>): string {
    Hex(random)
  }

  /** The unreserved characters of section 2.3 of RFC 3986, the verifier alphabet of section 4.1 of RFC 7636. */
  predicate Unreserved(c: char) {
    'A' <= c <= 'Z' || 'a' <= c <= 'z' || '0' <= c <= '9' || c == '-' || c == '.' || c == '_' || c == '~'
  }

  /** A verifier from 32 random bytes is 64 unreserved characters, within the 43..128 of section 4.1 of RFC 7636. */
  lemma VerifierConforms(random: seq<byte>)
    requires |random| == 32
    ensures |CodeVerifier(random)| == 64
    ensures 43 <= |CodeVerifier(random)| <= 128
    ensures forall i :: 0 <= i < |CodeVerifier(random)| ==> Unreserved(CodeVerifier(random)[i])
  {
  }

  /**
   * The base64url rewrite of `generateCodeChallenge`: `+` becomes `-`, `/`
   * becomes `_`, and the `=` padding is dropped (section 5 of RFC 4648
   * without padding, as section 4.2 of RFC 7636 asks).
   */
  function Base64Url(b64: string): (r: string)
    ensures '+' !in r && '/' !in r && '=' !in r
  {
    RemoveChar(ReplaceChar(ReplaceChar(b64, '+', '-'), '/', '_'), '=')
  }

  /** The reverse mapping, without restoring padding. */
  function FromBase64Url(r: string): string {
    ReplaceChar(ReplaceChar(r, '-', '+'), '_', '/')
  }

  predicate IsBase64Char(c: char) {
    'A' <= c <= 'Z' || 'a' <= c <= 'z' || '0' <= c <= '9' || c == '+' || c == '/' || c == '='
  }

  predicate IsBase64UrlChar(c: char) {
    'A' <= c <= 'Z' || 'a' <= c <= 'z' || '0' <= c <= '9' || c == '-' || c == '_'
  }

  /** Standard base64 text becomes base64url text. */
  lemma Base64UrlAlphabet(b64: string)
    requires forall c :: c in b64 ==> IsBase64Char(c)
    ensures forall c :: c in Base64Url(b64) ==> IsBase64UrlChar(c)
  {
    var t1 := ReplaceChar(b64, '+', '-');
    var t2 := ReplaceChar(t1, '/', '_');
    forall c | c in t2 ensures IsBase64UrlChar(c) || c == '=' {
      var i :| 0 <= i < |t2| && t2[i] == c;
      assert t1[i] in b64 || t1[i] == '-' by { assert b64[i] in b64; }
    }
  }

  lemma Base64UrlAppend(a: string, b: string)
    ensures Base64Url(a + b) == Base64Url(a) + Base64Url(b)
    ensures FromBase64Url(a + b) == FromBase64Url(a) + FromBase64Url(b)
  {
    ReplaceCharAppend(a, b, '+', '-');
    ReplaceCharAppend(ReplaceChar(a, '+', '-'), ReplaceChar(b, '+', '-'), '/', '_');
    RemoveCharAppend(ReplaceChar(ReplaceChar(a, '+', '-'), '/', '_'),
                     ReplaceChar(ReplaceChar(b, '+', '-'), '/', '_'), '=');
    ReplaceCharAppend(a, b, '-', '+');
    ReplaceCharAppend(ReplaceChar(a, '-', '+'), ReplaceChar(b, '-', '+'), '_', '/');
  }

  lemma OneCharRoundTrip(c: char)
    requires c != '-' && c != '_'
    ensures FromBase64Url(Base64Url([c])) == RemoveChar([c], '=')
  {
    assert ReplaceChar([c], '+', '-') == [if c == '+' then '-' else c];
  }

  /** Undoing the rewrite gives back the digest text without its padding. */
  lemma {:induction false} Base64UrlRoundTrip(b64: string)
    requires '-' !in b64 && '_' !in b64
    ensures FromBase64Url(Base64Url(b64)) == RemoveChar(b64, '=')
    decreases |b64|
  {
    if b64 != [] {
      var head, rest := b64[..1], b64[1..];
      assert b64 == head + rest;
      assert head == [b64[0]];
      assert b64[0] in b64;
      assert forall c :: c in rest ==> c in b64;
      calc {
        FromBase64Url(Base64Url(b64));
        { Base64UrlAppend(head, rest); }
        FromBase64Url(Base64Url(head) + Base64Url(rest));
        { Base64UrlAppend(Base64Url(head), Base64Url(rest)); }
        FromBase64Url(Base64Url(head)) + FromBase64Url(Base64Url(rest));
        { OneCharRoundTrip(b64[0]); Base64UrlRoundTrip(rest); }
        RemoveChar(head, '=') + RemoveChar(rest, '=');
        { RemoveCharAppend(head, rest, '='); }
        RemoveChar(b64, '=');
      }
    }
  }

  /** `generateCodeChallenge(verifier)`: base64url of the SHA-256 digest. */
  function CodeChallenge(verifier: string, sha256Base64: string -> string): string {
    Base64Url(sha256Base64(verifier))
  }

  const AuthorizePath := "/services/oauth2/authorize"

  const EnvMissingMessage := "Salesforce environment variables are not set"

  /** The authorization request of section 4.1.1 of RFC 6749 with the PKCE parameters of section 4.3 of RFC 7636. */
  function AuthorizeParams(clientId: string, redirectUri: string, challenge: string): seq<(string, string)> {
    [("client_id", clientId),
     ("redirect_uri", redirectUri),
     ("response_type", "code"),
     ("scope", "api refresh_token"),
     ("code_challenge", challenge),
     ("code_challenge_method", "S256")]
  }

  lemma AuthorizeParamsConform(clientId: string, redirectUri: string, challenge: string)
    ensures var q := AuthorizeParams(clientId, redirectUri, challenge);
      && Param(q, "response_type") == Some("code")
      && Param(q, "client_id") == Some(clientId)
      && Param(q, "redirect_uri") == Some(redirectUri)
      && Param(q, "scope") == Some("api refresh_token")
      && Param(q, "code_challenge") == Some(challenge)
      && Param(q, "code_challenge_method") == Some("S256")
  {
    var q := AuthorizeParams(clientId, redirectUri, challenge);
    var keys := ["client_id", "redirect_uri", "response_type", "scope", "code_challenge", "code_challenge_method"];
    assert forall i, j :: 0 <= i < j < 6 ==> keys[i] != keys[j] by {
      assert keys[0][0] == 'c' && keys[1][0] == 'r' && keys[2][0] == 'r' && keys[3][0] == 's';
      assert keys[4][0] == 'c' && keys[5][0] == 'c';
      assert keys[0][1] == 'l' && keys[4][1] == 'o' && keys[5][1] == 'o';
      assert keys[1][2] == 'd' && keys[2][2] == 's';
      assert |keys[4]| != |keys[5]|;
    }
    assert forall i :: 0 <= i < 6 ==> q[i].0 == keys[i];
    ParamAt(q, "client_id", 0);
    ParamAt(q, "redirect_uri", 1);
    ParamAt(q, "response_type", 2);
    ParamAt(q, "scope", 3);
    ParamAt(q, "code_challenge", 4);
    ParamAt(q, "code_challenge_method", 5);
  }

  /** `SF_LOGIN_URL` after the two rewrites of `GET`: keep the text after the last `=`, then drop trailing slashes. */
  function NormalizeLoginUrl(u: Option<string>): Option<string> {
    var afterEq := if Present(u) && '=' in u.value then Some(AfterLast(u.value, '=')) else u;
    if Present(afterEq) then Some(TrimTrailingSlashes(afterEq.value)) else afterEq
  }

  /** The normalised URL keeps only what follows the last `=`, has no `=`, and ends without a slash. */
  lemma NormalizeLoginUrlShape(u: Option<string>)
    ensures NormalizeLoginUrl(u).Some? <==> u.Some?
    ensures u.Some? ==> '=' in u.value ==>
      NormalizeLoginUrl(u) == Some(TrimTrailingSlashes(AfterLast(u.value, '=')))
    ensures u.Some? ==> '=' !in NormalizeLoginUrl(u).value
    ensures u.Some? ==> !EndsWithSlash(NormalizeLoginUrl(u).value)
  {
    if u.Some? && '=' in u.value {
      TrimKeepsChars(AfterLast(u.value, '='));
    } else if Present(u) {
      TrimKeepsChars(u.value);
    }
  }

  /** Normalising a normalised URL changes nothing. */
  lemma NormalizeLoginUrlIdempotent(u: Option<string>)
    ensures NormalizeLoginUrl(NormalizeLoginUrl(u)) == NormalizeLoginUrl(u)
  {
    NormalizeLoginUrlShape(u);
    var n := NormalizeLoginUrl(u);
    if Present(n) {
      TrimKeepsUnslashed(n.value);
    }
  }

  predicate ConfigComplete(loginUrl: Option<string>, env: Env) {
    Present(loginUrl) && Present(env.sfClientId) && Present(env.sfRedirectUri)
  }

  /**
   * `GET /api/auth/login`. Without a usable configuration it answers 500
   * and leaves the session as it was; otherwise it stores a fresh verifier
   * in the session and redirects to the authorization endpoint with the
   * challenge derived from that same verifier.
   */
  method Get(env: Env, random: seq<byte>, sha256Base64: string -> string, session: SessionConfig.Session)
    returns (resp: Response)
    modifies session
    ensures var url := NormalizeLoginUrl(env.sfLoginUrl);
      !ConfigComplete(url, env) ==> resp == ErrorReply(500, EnvMissingMessage) && session.Data() == old(session.Data())
    ensures var url := NormalizeLoginUrl(env.sfLoginUrl);
      ConfigComplete(url, env) ==>
        && session.Data() == old(session.Data()).(codeVerifier := Some(CodeVerifier(random)))
        && resp == Redirect(Url(url.value, AuthorizePath,
                                AuthorizeParams(env.sfClientId.value, env.sfRedirectUri.value,
                                                CodeChallenge(session.codeVerifier.value, sha256Base64))), [])
  {
    var loginUrl := env.sfLoginUrl;
    if Present(loginUrl) && '=' in loginUrl.value {
      loginUrl := Some(AfterLast(loginUrl.value, '='));
    }
    if Present(loginUrl) {
      loginUrl := Some(TrimTrailingSlashes(loginUrl.value));
    }
    if !Present(loginUrl) || !Present(env.sfClientId) || !Present(env.sfRedirectUri) {
      return ErrorReply(500, EnvMissingMessage);
    }
    var verifier := CodeVerifier(random);
    var challenge := CodeChallenge(verifier, sha256Base64);
    session.codeVerifier := Some(verifier);
    var params := AuthorizeParams(env.sfClientId.value, env.sfRedirectUri.value, challenge);
    resp := Redirect(Url(loginUrl.value, AuthorizePath, params), []);
  }
}
