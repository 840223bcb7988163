/** The implicit-grant token handling of src/context/AuthContext.jsx: the
    mount effect reads an access token from the URL fragment (section 4.2.2
    of RFC 6749) or falls back to the one kept under 'spotify_token', and
    handleLogout forgets the token. The fragment and the store are explicit
    state of the provider here. */
module AuthContext {
  import opened Wrappers
  import opened Text
  import opened Storage

  const TokenKey: string := "spotify_token"
  /** The key handleLogout removes. */
  const LogoutKey: string := "token"
  const AccessTokenName: string := "access_token"

  /** segments.find(s => s.startsWith(prefix)): the first segment with that
      prefix, or undefined. */
  function FindFirst(segments: seq<string>, prefix: string): (r: Option<string>)
    ensures r.Some? ==> StartsWith(r.value, prefix) && r.value in segments
    ensures r.None? <==> forall k :: 0 <= k < |segments| ==> !StartsWith(segments[k], prefix)
  {
    if segments == [] then None
    else if StartsWith(segments[0], prefix) then Some(segments[0])
    else FindFirst(segments[1..], prefix)
  }

  /** The segments before the first match are skipped, whatever follows. */
  lemma {:induction false} FindFirstIsFirst(before: seq<string>, s: string, after: seq<string>, prefix: string)
    requires forall k :: 0 <= k < |before| ==> !StartsWith(before[k], prefix)
    requires StartsWith(s, prefix)
    ensures FindFirst(before + [s] + after, prefix) == Some(s)
  {
    if before != [] {
      assert (before + [s] + after)[1..] == before[1..] + [s] + after;
      FindFirstIsFirst(before[1..], s, after, prefix);
    }
  }

  /** hash.substring(1): everything after the leading '#'. */
  function DropFirst(hash: string): string {
    if hash == [] then [] else hash[1..]
  }

  /** The token expression of the effect: drop the first character, split
      on '&', take the first segment starting with "access_token", and
      return the piece between its first and second '=' (undefined when the
      segment has no '='). Nothing is URL-decoded. */
  function TokenFromHash(hash: string): Option<string> {
    ParamValue(hash, AccessTokenName)
  }

  /** The same expression for a parameter name. */
  function ParamValue(hash: string, name: string): Option<string> {
    match FindFirst(Split(DropFirst(hash), '&'), name)
    case None => None
    case Some(segment) =>
      var pieces := Split(segment, '=');
      if |pieces| >= 2 then Some(pieces[1]) else None
  }

  /** A token read from a fragment never contains '&' or '='. */
  lemma TokenHasNoSeparators(hash: string)
    requires TokenFromHash(hash).Some?
    ensures '&' !in TokenFromHash(hash).value && '=' !in TokenFromHash(hash).value
  {
    var segments := Split(DropFirst(hash), '&');
    var segment := FindFirst(segments, AccessTokenName).value;
    var k :| 0 <= k < |segments| && segments[k] == segment;
    SplitPiecesFree(DropFirst(hash), '&', k);
    SplitPiecesFree(segment, '=', 1);
    var token := Split(segment, '=')[1];
    assert '&' !in token by {
      if '&' in token {
        var j :| 0 <= j < |token| && token[j] == '&';
        SplitPieceIn(segment, '=', 1, j);
      }
    }
  }

  /** Every character of a split piece is a character of the input. */
  lemma {:induction false} SplitPieceIn(s: string, sep: char, k: nat, j: nat)
    requires k < |Split(s, sep)| && j < |Split(s, sep)[k]|
    ensures Split(s, sep)[k][j] in s
  {
    if s != [] {
      var rest := Split(s[1..], sep);
      if s[0] == sep {
        if k > 0 {
          SplitPieceIn(s[1..], sep, k - 1, j);
        }
      } else if k == 0 {
        if j > 0 {
          SplitPieceIn(s[1..], sep, 0, j - 1);
        }
      } else {
        SplitPieceIn(s[1..], sep, k, j);
      }
    }
  }

  /** A fragment built from '&'-free parameters splits back into them. */
  lemma FragmentSegments(parts: seq<string>)
    requires parts != []
    requires forall k :: 0 <= k < |parts| ==> '&' !in parts[k]
    ensures Split(DropFirst("#" + Join(parts, "&")), '&') == parts
  {
    assert DropFirst("#" + Join(parts, "&")) == Join(parts, "&");
    SplitJoin(parts, '&');
  }

  /** In "access_token=<token><tail>" with tail empty or starting with '=',
      the piece after the first '=' is the token. */
  lemma SegmentToken(name: string, token: string, tail: string)
    requires '=' !in name && '=' !in token && (tail == [] || tail[0] == '=')
    ensures var pieces := Split(name + "=" + token + tail, '=');
            |pieces| >= 2 && pieces[1] == token
  {
    assert name + "=" + token + tail == name + ['='] + (token + tail);
    SplitPrefix(name, '=', token + tail);
    if tail == [] {
      SplitNoSeparator(token, '=');
      assert token + tail == token;
    } else {
      assert token + tail == token + ['='] + tail[1..];
      SplitPrefix(token, '=', tail[1..]);
    }
  }

  lemma ConcatFree(before: seq<string>, s: string, after: seq<string>, c: char)
    requires forall k :: 0 <= k < |before| ==> c !in before[k]
    requires forall k :: 0 <= k < |after| ==> c !in after[k]
    requires c !in s
    ensures forall k :: 0 <= k < |before + [s] + after| ==> c !in (before + [s] + after)[k]
  {
  }

  lemma PrefixOfConcat(a: string, b: string, c: string, d: string)
    ensures StartsWith(a + b + c + d, a)
  {
    assert (a + b + c + d)[..|a|] == a;
  }

  lemma ParamFromFragment(name: string, before: seq<string>, token: string, tail: string, after: seq<string>)
    requires '&' !in name && '=' !in name
    requires forall k :: 0 <= k < |before| ==> '&' !in before[k] && !StartsWith(before[k], name)
    requires forall k :: 0 <= k < |after| ==> '&' !in after[k]
    requires '&' !in token && '=' !in token
    requires '&' !in tail && (tail == [] || tail[0] == '=')
    ensures ParamValue("#" + Join(before + [name + "=" + token + tail] + after, "&"), name) == Some(token)
  {
    var segment := name + "=" + token + tail;
    var parts := before + [segment] + after;
    var hash := "#" + Join(parts, "&");
    assert Split(DropFirst(hash), '&') == parts by {
      assert '&' !in segment;
      ConcatFree(before, segment, after, '&');
      FragmentSegments(parts);
    }
    assert FindFirst(parts, name) == Some(segment) by {
      PrefixOfConcat(name, "=", token, tail);
      FindFirstIsFirst(before, segment, after, name);
    }
    SegmentToken(name, token, tail);
  }

  /** The round trip of the fragment response: a token written as
      "access_token=<token>" among other '&'-separated parameters, none of
      them earlier starting with "access_token", is read back exactly; a
      further '=' after the token cuts the rest off. */
  lemma TokenFromFragment(before: seq<string>, token: string, tail: string, after: seq<string>)
    requires forall k :: 0 <= k < |before| ==> '&' !in before[k] && !StartsWith(before[k], AccessTokenName)
    requires forall k :: 0 <= k < |after| ==> '&' !in after[k]
    requires '&' !in token && '=' !in token
    requires '&' !in tail && (tail == [] || tail[0] == '=')
    ensures TokenFromHash("#" + Join(before + [AccessTokenName + "=" + token + tail] + after, "&")) == Some(token)
  {
    assert '&' !in AccessTokenName && '=' !in AccessTokenName;
    ParamFromFragment(AccessTokenName, before, token, tail, after);
  }

  class AuthProvider {
    /** The token state: '' initially, null (None) after logout. */
    var token: Option<string>
    /** window.location.hash, including its '#'. */
    var hash: string

    /** useState('') on a page whose address has the given fragment. */
    constructor (locationHash: string)
      ensures token == Some("") && hash == locationHash
    {
      token := Some("");
      hash := locationHash;
    }

    /** The mount effect. With a fragment: a truthy token from it is stored
        under 'spotify_token', becomes the token state and the fragment is
        cleared; otherwise nothing changes and the store is not consulted.
        Without a fragment: a truthy stored token becomes the token state. */
    method LoadToken(storage: LocalStorage)
      modifies this, storage
      ensures old(hash) != "" && Truthy(TokenFromHash(old(hash))) ==>
                storage.items == old(storage.items)[TokenKey := TokenFromHash(old(hash)).value]
                && token == TokenFromHash(old(hash)) && hash == ""
      ensures old(hash) != "" && !Truthy(TokenFromHash(old(hash))) ==>
                storage.items == old(storage.items) && token == old(token) && hash == old(hash)
      ensures old(hash) == "" ==>
                storage.items == old(storage.items) && hash == ""
                && token == if Truthy(old(storage.GetItem(TokenKey))) then old(storage.GetItem(TokenKey)) else old(token)
    {
      if hash != "" {
        var tokenFromHash := TokenFromHash(hash);
        if Truthy(tokenFromHash) {
          storage.SetItem(TokenKey, tokenFromHash.value);
          token := tokenFromHash;
          hash := "";
        }
      } else {
        var storedToken := storage.GetItem(TokenKey);
        if Truthy(storedToken) {
          token := storedToken;
        }
      }
    }

    /** handleLogout() as written: the token state becomes null and the
        key 'token' — which nothing writes — is removed, so 'spotify_token'
        stays in the store. */
    method HandleLogout(storage: LocalStorage)
      modifies this, storage
      ensures token == None && hash == old(hash)
      ensures storage.items == old(storage.items) - {LogoutKey}
      ensures TokenKey in old(storage.items) ==> storage.GetItem(TokenKey) == old(storage.GetItem(TokenKey))
    {
      token := None;
      storage.RemoveItem(LogoutKey);
    }

    /** handleLogout() removing the key the effect writes, 'spotify_token'. */
    method HandleLogoutForgetting(storage: LocalStorage)
      modifies this, storage
      ensures token == None && hash == old(hash)
      ensures storage.items == old(storage.items) - {TokenKey}
      ensures TokenKey !in storage.items
    {
      token := None;
      storage.RemoveItem(TokenKey);
    }
  }

  /** A fragment holding only the access token yields that token. */
  lemma SingleParamFragment(t: string)
    requires '&' !in t && '=' !in t
    ensures TokenFromHash("#" + AccessTokenName + "=" + t) == Some(t)
  {
    var segment := AccessTokenName + "=" + t;
    var parts: seq<string> := [] + [AccessTokenName + "=" + t + ""] + [];
    TokenFromFragment([], t, "", []);
    assert AccessTokenName + "=" + t + "" == segment;
    assert parts == [segment];
    assert Join(parts, "&") == segment;
    assert "#" + segment == "#" + AccessTokenName + "=" + t;
  }

  /** With the logout as written, the next page load without a fragment
      signs the user straight back in with the token stored before. */
  method LogoutThenReloadAsWritten(t: string) returns (afterLogout: Option<string>, afterReload: Option<string>)
    requires t != "" && '&' !in t && '=' !in t
    ensures afterLogout == None && afterReload == Some(t)
  {
    var storage := new LocalStorage(map[]);
    SingleParamFragment(t);
    var provider := new AuthProvider("#" + AccessTokenName + "=" + t);
    provider.LoadToken(storage);
    provider.HandleLogout(storage);
    afterLogout := provider.token;
    var reloaded := new AuthProvider("");
    reloaded.LoadToken(storage);
    afterReload := reloaded.token;
  }

  /** With the corrected logout the same sequence ends signed out: the
      reload keeps the empty initial token. */
  method LogoutThenReloadForgetting(t: string) returns (afterLogout: Option<string>, afterReload: Option<string>)
    requires t != "" && '&' !in t && '=' !in t
    ensures afterLogout == None && afterReload == Some("")
  {
    var storage := new LocalStorage(map[]);
    SingleParamFragment(t);
    var provider := new AuthProvider("#" + AccessTokenName + "=" + t);
    provider.LoadToken(storage);
    provider.HandleLogoutForgetting(storage);
    afterLogout := provider.token;
    var reloaded := new AuthProvider("");
    reloaded.LoadToken(storage);
    afterReload := reloaded.token;
  }
}
