/** The PKCE login bookkeeping of src/services/spotify/spotifyAuth.js:
    random verifier and state strings, the base64url rewrite of the code
    challenge, the key-by-key writes to localStorage around the redirect and
    the token exchange, logout, and the token-expiry check. The random bytes,
    the SHA-256 digest, btoa, the clock and the token endpoint's response are
    parameters. */
module SpotifyAuth {
  import opened Wrappers
  import opened Text
  import opened Storage

  type Byte = b: int | 0 <= b < 256

  /** The number of characters generateRandomString draws from. */
  const PossibleLength: nat := 62

  /** The k-th character of generateRandomString's alphabet
      "ABC…XYZabc…xyz012…789": 26 upper-case letters, 26 lower-case
      letters, then the 10 digits. */
  function PossibleChar(k: nat): char
    requires k < PossibleLength
  {
    if k < 26 then ('A' as int + k) as char
    else if k < 52 then ('a' as int + (k - 26)) as char
    else ('0' as int + (k - 52)) as char
  }

  const VerifierLength: nat := 64
  const StateLength: nat := 16

  const CodeVerifierKey: string := "code_verifier"
  const AuthStateKey: string := "auth_state"
  const AccessTokenKey: string := "access_token"
  const ExpiresAtKey: string := "token_expires_at"

  // ---------------------------------------------------------------------
  // generateRandomString, generateCodeChallenge

  /** generateRandomString over the bytes crypto.getRandomValues produced:
      one character per byte, the alphabet's character at byte % 62, appended left to right. */
  function RandomString(bytes: seq<Byte>): (r: string)
    ensures |r| == |bytes|
    ensures forall i :: 0 <= i < |bytes| ==> r[i] == PossibleChar(bytes[i] % PossibleLength)
  {
    if bytes == [] then ""
    else RandomString(bytes[..|bytes| - 1]) + [PossibleChar(bytes[|bytes| - 1] % PossibleLength)]
  }

  predicate IsAlphaNumeric(c: char) {
    'A' <= c <= 'Z' || 'a' <= c <= 'z' || '0' <= c <= '9'
  }

  /** The unreserved characters a PKCE code verifier may use (section 4.1
      of RFC 7636): letters, digits, '-', '.', '_' and '~'. */
  predicate IsUnreserved(c: char) {
    IsAlphaNumeric(c) || c == '-' || c == '.' || c == '_' || c == '~'
  }

  /** The alphabet is exactly the letters and digits, each once. */
  lemma AlphabetIsAlphaNumeric(k: nat, j: nat)
    requires k < PossibleLength && j < PossibleLength
    ensures IsAlphaNumeric(PossibleChar(k))
    ensures PossibleChar(k) == PossibleChar(j) ==> k == j
  {
  }

  /** The code verifier, 64 such characters, meets section 4.1 of RFC 7636:
      43 to 128 unreserved characters. */
  lemma VerifierIsValid(bytes: seq<Byte>)
    requires |bytes| == VerifierLength
    ensures var v := RandomString(bytes);
            43 <= |v| <= 128 && forall i :: 0 <= i < |v| ==> IsUnreserved(v[i])
  {
    var v := RandomString(bytes);
    forall i | 0 <= i < |v| ensures IsUnreserved(v[i]) {
      AlphabetIsAlphaNumeric(bytes[i] % PossibleLength, 0);
    }
  }

  /** s.replace(/c/g, '') */
  function RemoveAll(s: string, c: char): (r: string)
    ensures c !in r
    ensures |r| <= |s|
  {
    if s == [] then "" else (if s[0] == c then "" else [s[0]]) + RemoveAll(s[1..], c)
  }

  /** s.replace(/from/g, to) for single characters. */
  function ReplaceAll(s: string, from: char, to: char): (r: string)
    ensures |r| == |s|
    ensures forall i :: 0 <= i < |s| ==> r[i] == if s[i] == from then to else s[i]
  {
    if s == [] then "" else [if s[0] == from then to else s[0]] + ReplaceAll(s[1..], from, to)
  }

  /** The rewrite applied to btoa's output: drop '=' padding, then '+' to
      '-' and '/' to '_'. */
  function Base64Url(b64: string): string {
    ReplaceAll(ReplaceAll(RemoveAll(b64, '='), '+', '-'), '/', '_')
  }

  predicate IsBase64Char(c: char) {
    IsAlphaNumeric(c) || c == '+' || c == '/' || c == '='
  }

  predicate IsBase64UrlChar(c: char) {
    IsAlphaNumeric(c) || c == '-' || c == '_'
  }

  /** The inverse character mapping, '-' to '+' and '_' to '/'. */
  function FromBase64Url(s: string): string {
    ReplaceAll(ReplaceAll(s, '-', '+'), '_', '/')
  }

  lemma {:induction false} RemoveAllKeeps(s: string, c: char, P: char -> bool)
    requires forall i :: 0 <= i < |s| && s[i] != c ==> P(s[i])
    ensures forall i :: 0 <= i < |RemoveAll(s, c)| ==> P(RemoveAll(s, c)[i])
  {
    if s != [] {
      RemoveAllKeeps(s[1..], c, P);
    }
  }

  /** The rewrite of any standard base64 text yields only base64url
      characters (section 5 of RFC 4648) — in particular none of '=', '+',
      '/' — and mapping them back gives the input without its padding. */
  lemma Base64UrlRoundTrip(b64: string)
    requires forall i :: 0 <= i < |b64| ==> IsBase64Char(b64[i])
    ensures var u := Base64Url(b64);
            && (forall i :: 0 <= i < |u| ==> IsBase64UrlChar(u[i]))
            && FromBase64Url(u) == RemoveAll(b64, '=')
  {
    var p := RemoveAll(b64, '=');
    RemoveAllKeeps(b64, '=', c => IsAlphaNumeric(c) || c == '+' || c == '/');
    var u := Base64Url(b64);
    assert |FromBase64Url(u)| == |p|;
    forall i | 0 <= i < |p| ensures FromBase64Url(u)[i] == p[i] {
    }
  }

  /** generateCodeChallenge(verifier): base64url of the SHA-256 digest of the
      verifier (method S256, section 4.2 of RFC 7636). The digest and btoa
      are foreign calls and given as parameters. */
  function CodeChallenge(verifier: string, sha256: string -> seq<Byte>, btoa: seq<Byte> -> string): (r: string)
    ensures '=' !in r && '+' !in r && '/' !in r
  {
    Base64Url(btoa(sha256(verifier)))
  }

  // ---------------------------------------------------------------------
  // redirectToSpotifyAuth, exchangeCodeForToken, logout, isAuthenticated

  /** The query of the authorization request. */
  datatype AuthorizeRequest = AuthorizeRequest(
    clientId: string, responseType: string, redirectUri: string, scope: string,
    state: string, challengeMethod: string, challenge: string)

  const RedirectUri: string := "http://127.0.0.1:5173/callback"
  const Scopes: string := "streaming user-read-email user-read-private user-library-read user-library-modify user-read-playback-state user-modify-playback-state playlist-read-private playlist-modify-public playlist-modify-private"

  /** redirectToSpotifyAuth(): a 64-character verifier and a 16-character
      state from the given random bytes, both stored before the browser is
      sent to the authorization endpoint with the state and the S256
      challenge. */
  method RedirectToSpotifyAuth(storage: LocalStorage, clientId: string,
                               verifierBytes: seq<Byte>, stateBytes: seq<Byte>,
                               sha256: string -> seq<Byte>, btoa: seq<Byte> -> string)
    returns (request: AuthorizeRequest)
    requires |verifierBytes| == VerifierLength && |stateBytes| == StateLength
    modifies storage
    ensures storage.items == old(storage.items)[CodeVerifierKey := RandomString(verifierBytes)][AuthStateKey := RandomString(stateBytes)]
    ensures |storage.items[CodeVerifierKey]| == 64 && |storage.items[AuthStateKey]| == 16
    ensures request.state == storage.items[AuthStateKey]
    ensures request.challenge == CodeChallenge(storage.items[CodeVerifierKey], sha256, btoa)
    ensures request.responseType == "code" && request.challengeMethod == "S256"
    ensures request.clientId == clientId && request.redirectUri == RedirectUri && request.scope == Scopes
  {
    var codeVerifier := RandomString(verifierBytes);
    var codeChallenge := CodeChallenge(codeVerifier, sha256, btoa);
    var state := RandomString(stateBytes);
    storage.SetItem(CodeVerifierKey, codeVerifier);
    storage.SetItem(AuthStateKey, state);
    request := AuthorizeRequest(clientId, "code", RedirectUri, Scopes, state, "S256", codeChallenge);
  }

  /** What the token endpoint answers: a network failure, a non-ok status,
      or the JSON of a token grant. */
  datatype TokenResponse =
    | NetworkFailure(message: string)
    | NotOk
    | Granted(accessToken: string, expiresIn: int)

  /** The form the exchange posts. */
  datatype TokenRequest = TokenRequest(clientId: string, grantType: string, code: string, redirectUri: string, codeVerifier: string)

  /** The store after a successful exchange at time now: the token and its
      expiry (now + expires_in seconds, in ms, as decimal text) are written,
      then the verifier and state are removed. */
  function StoreAfterGrant(items: map<string, string>, accessToken: string, now: int, expiresIn: int): map<string, string> {
    (items[AccessTokenKey := accessToken][ExpiresAtKey := IntToString(now + expiresIn * 1000)]) - {CodeVerifierKey, AuthStateKey}
  }

  /** exchangeCodeForToken(code): without a stored verifier it throws
      'No code verifier found' before any request; otherwise it posts the code
      and verifier. A non-ok answer throws 'Failed to exchange code for token'
      and a network failure rethrows its error, the store unchanged in both
      cases; a grant updates the store as StoreAfterGrant says. */
  method ExchangeCodeForToken(storage: LocalStorage, clientId: string, code: string, response: TokenResponse, now: int)
    returns (request: Option<TokenRequest>, r: Result<TokenResponse>)
    modifies storage
    ensures !Truthy(old(storage.GetItem(CodeVerifierKey))) ==>
              request == None && r == Err("No code verifier found") && storage.items == old(storage.items)
    ensures Truthy(old(storage.GetItem(CodeVerifierKey))) ==>
              request == Some(TokenRequest(clientId, "authorization_code", code, RedirectUri, old(storage.items[CodeVerifierKey])))
    ensures Truthy(old(storage.GetItem(CodeVerifierKey))) && response.NotOk? ==>
              r == Err("Failed to exchange code for token") && storage.items == old(storage.items)
    ensures Truthy(old(storage.GetItem(CodeVerifierKey))) && response.NetworkFailure? ==>
              r == Err(response.message) && storage.items == old(storage.items)
    ensures Truthy(old(storage.GetItem(CodeVerifierKey))) && response.Granted? ==>
              r == Ok(response) && storage.items == StoreAfterGrant(old(storage.items), response.accessToken, now, response.expiresIn)
  {
    var codeVerifier := storage.GetItem(CodeVerifierKey);
    if !Truthy(codeVerifier) {
      return None, Err("No code verifier found");
    }
    request := Some(TokenRequest(clientId, "authorization_code", code, RedirectUri, codeVerifier.value));
    match response {
      case NetworkFailure(message) =>
        return request, Err(message);
      case NotOk =>
        return request, Err("Failed to exchange code for token");
      case Granted(accessToken, expiresIn) =>
        var expiresAt := now + expiresIn * 1000;
        storage.SetItem(AccessTokenKey, accessToken);
        storage.SetItem(ExpiresAtKey, IntToString(expiresAt));
        storage.RemoveItem(CodeVerifierKey);
        storage.RemoveItem(AuthStateKey);
        r := Ok(response);
    }
  }

  /** getAccessToken(): the value stored under 'access_token', or null
      when that key is absent. */
  function GetAccessToken(storage: LocalStorage): (r: Option<string>)
    reads storage
    ensures r.Some? <==> AccessTokenKey in storage.items
    ensures r.Some? ==> r.value == storage.items[AccessTokenKey]
  {
    storage.GetItem(AccessTokenKey)
  }

  /** logout(): removes the token, its expiry, the verifier and the state;
      every other key is untouched. */
  method Logout(storage: LocalStorage)
    modifies storage
    ensures storage.items == old(storage.items) - {AccessTokenKey, ExpiresAtKey, CodeVerifierKey, AuthStateKey}
  {
    storage.RemoveItem(AccessTokenKey);
    storage.RemoveItem(ExpiresAtKey);
    storage.RemoveItem(CodeVerifierKey);
    storage.RemoveItem(AuthStateKey);
  }

  /** isAuthenticated() over a snapshot of the store and the clock: false
      when the token or the expiry is missing or empty; otherwise whether
      now is strictly before parseInt(expiry), false when that is NaN. */
  function IsAuthenticated(items: map<string, string>, now: int): (r: bool)
    ensures r <==> AccessTokenKey in items && items[AccessTokenKey] != ""
                   && ExpiresAtKey in items && ParseInt(items[ExpiresAtKey]).Some? && now < ParseInt(items[ExpiresAtKey]).value
  {
    if AccessTokenKey !in items || items[AccessTokenKey] == "" || ExpiresAtKey !in items || items[ExpiresAtKey] == "" then false
    else
      match ParseInt(items[ExpiresAtKey])
      case None => false
      case Some(expiresAt) => now < expiresAt
  }

  /** After a grant at time t with lifetime e seconds, the user counts as
      authenticated exactly before t + 1000 e (strictly), whatever the
      store held before: the expiry written as decimal text is read back
      by parseInt. */
  lemma AuthenticatedUntilExpiry(items: map<string, string>, accessToken: string, t: int, e: int, now: int)
    requires accessToken != ""
    ensures IsAuthenticated(StoreAfterGrant(items, accessToken, t, e), now) <==> now < t + e * 1000
  {
    var after := StoreAfterGrant(items, accessToken, t, e);
    assert after[AccessTokenKey] == accessToken;
    assert after[ExpiresAtKey] == IntToString(t + e * 1000);
    ParseIntOfIntToString(t + e * 1000);
  }

  /** After logout nobody is authenticated, at any time. */
  lemma LoggedOutIsNotAuthenticated(items: map<string, string>, now: int)
    ensures !IsAuthenticated(items - {AccessTokenKey, ExpiresAtKey, CodeVerifierKey, AuthStateKey}, now)
  {
  }
}
