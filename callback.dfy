/** The handleCallback effect of src/pages/Callback.jsx: the checks run on
    the query string the authorization server redirects back with, in their
    fixed order — an error parameter, then the returned state against the
    stored one, then the presence of a code, which is exchanged for a token. */
module Callback {
  import opened Wrappers
  import opened Storage
  import SpotifyAuth

  /** A navigate('/') call, immediate or scheduled after a delay in ms. */
  datatype Navigation = Navigation(path: string, delayMs: nat)

  const ErrorDelayMs: nat := 3000

  const ErrorParamMessage: string := "Authentication failed. Please try again."
  const StateMismatchMessage: string := "State mismatch. Authentication failed."
  const NoCodeMessage: string := "No authorization code received."
  const ExchangeFailedMessage: string := "Failed to authenticate. Please try again."

  /** Whether the exchange would succeed: a stored verifier and a granted
      token. */
  predicate ExchangeSucceeds(items: map<string, string>, response: SpotifyAuth.TokenResponse) {
    Truthy(if SpotifyAuth.CodeVerifierKey in items then Some(items[SpotifyAuth.CodeVerifierKey]) else None)
    && response.Granted?
  }

  class CallbackPage {
    /** The `error` state shown on the page (initially null). */
    var error: Option<string>
    /** The navigation handleCallback ends with, if any. */
    var navigation: Option<Navigation>

    constructor ()
      ensures error == None && navigation == None
    {
      error := None;
      navigation := None;
    }

    /** handleCallback() with the query parameters code, state and error
        (null when absent), the token endpoint's answer, and the clock.
        The exchange runs iff there is no error parameter, the state equals
        the stored auth_state (two nulls are equal) and a code is present;
        every failure sets its message and schedules navigation to '/' after
        3000 ms, and success navigates at once. */
    method HandleCallback(storage: LocalStorage, code: Option<string>, state: Option<string>, errorParam: Option<string>,
                          clientId: string, response: SpotifyAuth.TokenResponse, now: int)
      returns (exchanged: bool)
      modifies this, storage
      ensures exchanged <==> !Truthy(errorParam) && state == old(storage.GetItem(SpotifyAuth.AuthStateKey)) && Truthy(code)
      ensures !exchanged ==> storage.items == old(storage.items)
      ensures Truthy(errorParam) ==>
                error == Some(ErrorParamMessage) && navigation == Some(Navigation("/", ErrorDelayMs))
      ensures !Truthy(errorParam) && state != old(storage.GetItem(SpotifyAuth.AuthStateKey)) ==>
                error == Some(StateMismatchMessage) && navigation == Some(Navigation("/", ErrorDelayMs))
      ensures !Truthy(errorParam) && state == old(storage.GetItem(SpotifyAuth.AuthStateKey)) && !Truthy(code) ==>
                error == Some(NoCodeMessage) && navigation == Some(Navigation("/", ErrorDelayMs))
      ensures exchanged && ExchangeSucceeds(old(storage.items), response) ==>
                error == old(error) && navigation == Some(Navigation("/", 0))
                && storage.items == SpotifyAuth.StoreAfterGrant(old(storage.items), response.accessToken, now, response.expiresIn)
      ensures exchanged && !ExchangeSucceeds(old(storage.items), response) ==>
                error == Some(ExchangeFailedMessage) && navigation == Some(Navigation("/", ErrorDelayMs))
                && storage.items == old(storage.items)
    {
      if Truthy(errorParam) {
        error := Some(ErrorParamMessage);
        navigation := Some(Navigation("/", ErrorDelayMs));
        return false;
      }
      var savedState := storage.GetItem(SpotifyAuth.AuthStateKey);
      if state != savedState {
        error := Some(StateMismatchMessage);
        navigation := Some(Navigation("/", ErrorDelayMs));
        return false;
      }
      if Truthy(code) {
        var _, result := SpotifyAuth.ExchangeCodeForToken(storage, clientId, code.value, response, now);
        if result.Ok? {
          navigation := Some(Navigation("/", 0));
        } else {
          error := Some(ExchangeFailedMessage);
          navigation := Some(Navigation("/", ErrorDelayMs));
        }
        exchanged := true;
      } else {
        error := Some(NoCodeMessage);
        navigation := Some(Navigation("/", ErrorDelayMs));
        exchanged := false;
      }
    }
  }

  /** A caller's view of the CSRF check (section 10.12 of RFC 6749): a
      redirect whose state differs from the stored one never reaches the
      token endpoint, even with a valid code and a stored verifier; a
      callback without any state is accepted when none was stored. */
  method StateCheckWalkthrough(verifier: string, saved: string, forged: string, code: string, token: string)
    requires verifier != "" && code != "" && forged != saved
  {
    var storage := new LocalStorage(map[SpotifyAuth.CodeVerifierKey := verifier, SpotifyAuth.AuthStateKey := saved]);
    var page := new CallbackPage();
    var exchanged := page.HandleCallback(storage, Some(code), Some(forged), None, "client", SpotifyAuth.Granted(token, 3600), 0);
    assert !exchanged && page.error == Some(StateMismatchMessage);
    assert SpotifyAuth.CodeVerifierKey in storage.items;

    var bare := new LocalStorage(map[SpotifyAuth.CodeVerifierKey := verifier]);
    exchanged := page.HandleCallback(bare, Some(code), None, None, "client", SpotifyAuth.Granted(token, 3600), 0);
    assert exchanged && page.navigation == Some(Navigation("/", 0));
  }
}
