/**
 * The token handling of the Spotify app (src/apps/SpotifyApp.js): reading
 * the implicit-grant access-token response from the URL fragment (section
 * 4.2.2 of RFC 6749), deciding whether to reuse the stored token, adopt the
 * one in the fragment, or send the user to the authorization page, and the
 * guard around the track search.
 *
 * The clock is the parameter `now` (milliseconds), `decodeURIComponent` is the
 * parameter `decode`, and the search request is an outcome passed in.
 * Timestamps are unbounded integers. The token expiry is kept as text: the
 * effect stores a number that the browser's storage turns into its decimal
 * text, and every later use reads it back with `parseInt`, so its text is
 * what matters.
 */
module SpotifyAuth {
  import opened Text

  // ---------------------------------------------------------------------
  // The fragment parser
  // ---------------------------------------------------------------------

  /** `hash.substring(1)`: drops the leading `#`. */
  function DropFirst(s: string): string
  {
    if s == [] then [] else s[1..]
  }

  /** `parts[0]` of `item.split('=')`: the text before the first `=`. */
  function Key(item: string): (k: string)
    ensures '=' !in k && |k| <= |item| && k == item[..|k|]
    ensures |k| < |item| ==> item[|k|] == '='
  {
    SplitFirstPiece(item, '=');
    Split(item, '=')[0]
  }

  /**
   * `decodeURIComponent(parts[1])`: the decoded text between the first and
   * the second `=`; with no `=` at all `parts[1]` is `undefined`, which
   * decodes as the text "undefined".
   */
  function Value(item: string, decode: string -> string): string
  {
    var parts := Split(item, '=');
    decode(if |parts| > 1 then parts[1] else "undefined")
  }

  /** A `key=value` item (no `=` in the key or in the value) has that key and that value. */
  lemma KeyValueOf(key: string, value: string, rest: string, decode: string -> string)
    requires '=' !in key && '=' !in value
    requires rest == [] || rest[0] == '='
    ensures Key(key + "=" + value + rest) == key
    ensures Value(key + "=" + value + rest, decode) == decode(value)
  {
    SplitAfterSeparator(key, value + rest, '=');
    assert key + "=" + value + rest == key + ['='] + (value + rest);
    SplitFirstPieceOf(value, rest, '=');
  }

  /** The items of a fragment, in order. */
  function Items(hash: string): (items: seq<string>)
    ensures |items| >= 1
  {
    Split(DropFirst(hash), '&')
  }

  /**
   * The object the `reduce` builds: each non-empty item stores its value
   * under its key, in order, so a later item overwrites an earlier one.
   */
  function Params(items: seq<string>, decode: string -> string): map<string, string>
    decreases |items|
  {
    if items == [] then map[]
    else
      var item := items[|items| - 1];
      var m := Params(items[..|items| - 1], decode);
      if item == "" then m else m[Key(item) := Value(item, decode)]
  }

  /** The keys are those of the non-empty items. */
  lemma {:induction false} ParamsKeys(items: seq<string>, decode: string -> string, k: string)
    ensures k in Params(items, decode) <==> exists i :: 0 <= i < |items| && items[i] != "" && Key(items[i]) == k
    decreases |items|
  {
    if items != [] {
      var init := items[..|items| - 1];
      ParamsKeys(init, decode, k);
      assert forall i :: 0 <= i < |init| ==> init[i] == items[i];
    }
  }

  /** The parameters of a fragment. */
  function FragmentParams(hash: string, decode: string -> string): map<string, string>
  {
    Params(Items(hash), decode)
  }

  /**
   * Parsing is item by item: the parameters of two runs of items are those
   * of the first, overridden by those of the second.
   */
  lemma {:induction false} ParamsConcat(a: seq<string>, b: seq<string>, decode: string -> string)
    ensures Params(a + b, decode) == Params(a, decode) + Params(b, decode)
    decreases |b|
  {
    if b == [] {
      assert a + b == a;
    } else {
      var b' := b[..|b| - 1];
      assert (a + b)[..|a + b| - 1] == a + b';
      ParamsConcat(a, b', decode);
    }
  }

  /** The value under a key comes from the last non-empty item with that key. */
  lemma {:induction false} LastItemWins(items: seq<string>, i: nat, decode: string -> string)
    requires i < |items| && items[i] != ""
    requires forall j :: i < j < |items| && items[j] != "" ==> Key(items[j]) != Key(items[i])
    ensures Key(items[i]) in Params(items, decode)
    ensures Params(items, decode)[Key(items[i])] == Value(items[i], decode)
    decreases |items|
  {
    var init := items[..|items| - 1];
    if i < |items| - 1 {
      assert init[i] == items[i];
      forall j | i < j < |init| && init[j] != "" ensures Key(init[j]) != Key(init[i]) {
        assert init[j] == items[j];
      }
      LastItemWins(init, i, decode);
    }
  }

  /** The mutating `reduce`: one assignment into the accumulator per non-empty item. */
  method ParseFragment(hash: string, decode: string -> string) returns (params: map<string, string>)
    ensures params == FragmentParams(hash, decode)
  {
    var items := Items(hash);
    params := map[];
    for n := 0 to |items|
      invariant params == Params(items[..n], decode)
    {
      assert items[..n + 1][..n] == items[..n];
      if items[n] != "" {
        var parts := Split(items[n], '=');
        params := params[parts[0] := decode(if |parts| > 1 then parts[1] else "undefined")];
      }
    }
    assert items[..|items|] == items;
  }

  /** A fragment of three `&`-free items splits into exactly those items. */
  lemma ThreeItems(a: string, b: string, c: string)
    requires '&' !in a && '&' !in b && '&' !in c
    ensures Items("#" + a + "&" + b + "&" + c) == [a, b, c]
  {
    var body := a + ['&'] + (b + ['&'] + c);
    assert ("#" + a + "&" + b + "&" + c)[1..] == body;
    SplitAfterSeparator(a, b + ['&'] + c, '&');
    SplitAfterSeparator(b, c, '&');
    SplitWithout(c, '&');
  }

  /**
   * A fragment as an implicit-grant response writes it (access token, token
   * type, lifetime) yields its token and its lifetime.
   */
  lemma TokenResponse(token: string, tokenType: string, expiresIn: string, decode: string -> string)
    requires '=' !in token && '&' !in token && '&' !in tokenType && '=' !in expiresIn && '&' !in expiresIn
    ensures var p := FragmentParams("#" + ("access_token=" + token) + "&" + ("token_type=" + tokenType) + "&" + ("expires_in=" + expiresIn), decode);
            && "access_token" in p && p["access_token"] == decode(token)
            && "expires_in" in p && p["expires_in"] == decode(expiresIn)
  {
    var a, b, c := "access_token=" + token, "token_type=" + tokenType, "expires_in=" + expiresIn;
    ThreeItems(a, b, c);
    ResponseItems(token, tokenType, expiresIn, decode);
    ResponseParams(a, b, c, decode);
  }

  /** The keys and values of the three items of an implicit-grant response. */
  lemma ResponseItems(token: string, tokenType: string, expiresIn: string, decode: string -> string)
    requires '=' !in token && '=' !in expiresIn
    ensures Key("access_token=" + token) == "access_token" && Value("access_token=" + token, decode) == decode(token)
    ensures Key("token_type=" + tokenType) == "token_type"
    ensures Key("expires_in=" + expiresIn) == "expires_in" && Value("expires_in=" + expiresIn, decode) == decode(expiresIn)
  {
    PairItem("access_token", token, decode);
    assert "access_token" + "=" + token == "access_token=" + token;
    SplitAfterSeparator("token_type", tokenType, '=');
    assert "token_type" + ['='] + tokenType == "token_type=" + tokenType;
    PairItem("expires_in", expiresIn, decode);
    assert "expires_in" + "=" + expiresIn == "expires_in=" + expiresIn;
  }

  /** Three parsed items with distinct keys: the first and last values are found under their keys. */
  lemma ResponseParams(a: string, b: string, c: string, decode: string -> string)
    requires a != "" && c != "" && Key(a) != Key(b) && Key(a) != Key(c) && Key(b) != Key(c)
    ensures Key(a) in Params([a, b, c], decode) && Params([a, b, c], decode)[Key(a)] == Value(a, decode)
    ensures Key(c) in Params([a, b, c], decode) && Params([a, b, c], decode)[Key(c)] == Value(c, decode)
  {
    LastItemWins([a, b, c], 0, decode);
    LastItemWins([a, b, c], 2, decode);
  }

  lemma PairItem(key: string, value: string, decode: string -> string)
    requires '=' !in key && '=' !in value
    ensures Key(key + "=" + value) == key && Value(key + "=" + value, decode) == decode(value)
  {
    KeyValueOf(key, value, [], decode);
    assert key + "=" + value + [] == key + "=" + value;
  }

  // ---------------------------------------------------------------------
  // Token validity and expiry
  // ---------------------------------------------------------------------

  /**
   * `checkTokenValidity`: a token and an expiry must both be present, and the
   * clock must be before the expiry read as a decimal number.
   */
  function TokenValid(token: string, expiry: string, now: nat): bool
  {
    if token == "" || expiry == "" then false
    else match ParseInt(expiry)
      case None => false
      case Some(e) => now < e
  }

  /**
   * Validity only ends: a token valid now was valid at every earlier
   * instant, and one that is not valid now never becomes valid again.
   */
  lemma ValidityOnlyEnds(token: string, expiry: string, t1: nat, t2: nat)
    requires t1 <= t2
    ensures TokenValid(token, expiry, t2) ==> TokenValid(token, expiry, t1)
    ensures !TokenValid(token, expiry, t1) ==> !TokenValid(token, expiry, t2)
    ensures TokenValid(token, expiry, t1) ==> token != "" && expiry != "" && ParseInt(expiry).Some?
  {
  }

  /**
   * The text the effect stores as expiry: the clock plus the lifetime in
   * seconds times 1000, or "NaN" when the lifetime is not a number.
   */
  function ExpiresAt(now: nat, expiresIn: string): (r: string)
    ensures r != []
    ensures ParseInt(expiresIn).None? ==> r == "NaN"
  {
    match ParseInt(expiresIn)
    case None => "NaN"
    case Some(e) => IntToString(now + e * 1000)
  }

  /** A stored expiry reads back as the instant it was computed for. */
  lemma ExpiresAtReadsBack(now: nat, expiresIn: string)
    requires ParseInt(expiresIn).Some?
    ensures ParseInt(ExpiresAt(now, expiresIn)) == Some(now + ParseInt(expiresIn).value * 1000)
  {
    ParseIntToString(now + ParseInt(expiresIn).value * 1000);
  }

  /**
   * An adopted token is valid exactly until its lifetime has passed; with a
   * lifetime that is not a number it is never valid.
   */
  lemma AdoptedTokenValidity(token: string, now: nat, expiresIn: string, later: nat)
    requires token != ""
    ensures ParseInt(expiresIn).Some? ==>
      (TokenValid(token, ExpiresAt(now, expiresIn), later) <==> later < now + ParseInt(expiresIn).value * 1000)
    ensures ParseInt(expiresIn).None? ==> !TokenValid(token, ExpiresAt(now, expiresIn), later)
  {
    if ParseInt(expiresIn).Some? {
      ExpiresAtReadsBack(now, expiresIn);
    } else {
      NaNIsNotANumber();
    }
  }

  /** The text "NaN" that a failed lifetime leaves in storage reads back as NaN. */
  lemma NaNIsNotANumber()
    ensures ParseInt("NaN") == None
  {
    assert !IsJsSpace('N');
    assert TrimStart("NaN") == "NaN";
    assert DigitPrefix("NaN") == [];
  }

  // ---------------------------------------------------------------------
  // The token effect
  // ---------------------------------------------------------------------

  datatype TokenDecision =
    | Reuse(token: string)                  // the stored token is still valid
    | Adopt(token: string, expiry: string)  // the fragment carries a token
    | Authenticate                          // redirect to the authorization page

  /** `hash.access_token` and `hash.expires_in` as the effect reads them; a missing key is `undefined`. */
  function Param(p: map<string, string>, key: string): string
  {
    if key in p then p[key] else "undefined"
  }

  /**
   * The effect's three branches: a valid stored token is reused; otherwise a
   * non-empty `access_token` in the fragment is adopted with its computed
   * expiry; otherwise the user is sent to authenticate.
   */
  function Decide(token: string, expiry: string, hash: string, now: nat, decode: string -> string): (d: TokenDecision)
    ensures TokenValid(token, expiry, now) <==> d.Reuse?
    ensures d.Reuse? ==> d.token == token
    ensures d.Adopt? ==>
      var p := FragmentParams(hash, decode);
      && "access_token" in p && d.token == p["access_token"] && d.token != ""
      && d.expiry == ExpiresAt(now, Param(p, "expires_in"))
    ensures d.Authenticate? ==>
      !TokenValid(token, expiry, now) && !("access_token" in FragmentParams(hash, decode) && FragmentParams(hash, decode)["access_token"] != "")
  {
    if TokenValid(token, expiry, now) then Reuse(token)
    else
      var p := FragmentParams(hash, decode);
      if "access_token" in p && p["access_token"] != "" then
        Adopt(p["access_token"], ExpiresAt(now, Param(p, "expires_in")))
      else Authenticate
  }

  /** Without a valid stored token, the fragment decides between adoption and authentication. */
  lemma DecideWhenInvalid(token: string, expiry: string, hash: string, now: nat, decode: string -> string)
    requires !TokenValid(token, expiry, now)
    ensures var p := FragmentParams(hash, decode);
      && ("access_token" in p && p["access_token"] != "" ==>
            Decide(token, expiry, hash, now, decode) == Adopt(p["access_token"], ExpiresAt(now, Param(p, "expires_in"))))
      && (!("access_token" in p && p["access_token"] != "") ==>
            Decide(token, expiry, hash, now, decode) == Authenticate)
  {
  }

  /**
   * After adopting a token with a positive lifetime, the effect run that the
   * state change triggers reuses it, whatever the fragment then holds.
   */
  lemma AdoptionSettles(token: string, expiry: string, hash: string, hash': string, now: nat, decode: string -> string)
    requires Decide(token, expiry, hash, now, decode).Adopt?
    requires var e := ParseInt(Param(FragmentParams(hash, decode), "expires_in")); e.Some? && e.value > 0
    ensures var d := Decide(token, expiry, hash, now, decode);
            Decide(d.token, d.expiry, hash', now, decode) == Reuse(d.token)
  {
    var d := Decide(token, expiry, hash, now, decode);
    AdoptedTokenValidity(d.token, now, Param(FragmentParams(hash, decode), "expires_in"), now);
  }

  /** A track of the search results. */
  datatype TrackItem = TrackItem(id: string, name: string, artists: seq<string>)

  /** The outcome of the search request: the tracks, or the error's `status` if it has one. */
  datatype SearchOutcome = Found(items: seq<TrackItem>) | Failed(status: Option<int>)

  class SpotifySession {
    var token: string
    var tokenExpiry: string
    var searchTerm: string
    var searchResults: seq<TrackItem>
    /** The token handed to the Web API client, if any. */
    var apiToken: Option<string>
    /** The browser storage entries `spotifyToken` and `spotifyTokenExpiry`. */
    var storedToken: Option<string>
    var storedExpiry: Option<string>

    /** The initial state reads the stored token and expiry, `''` when absent or empty. */
    constructor(storedToken: Option<string>, storedExpiry: Option<string>)
      ensures token == (if storedToken.Some? then storedToken.value else "")
      ensures tokenExpiry == (if storedExpiry.Some? then storedExpiry.value else "")
      ensures searchTerm == "" && searchResults == [] && apiToken == None
      ensures this.storedToken == storedToken && this.storedExpiry == storedExpiry
    {
      token := if storedToken.Some? then storedToken.value else "";
      tokenExpiry := if storedExpiry.Some? then storedExpiry.value else "";
      searchTerm, searchResults, apiToken := "", [], None;
      this.storedToken, this.storedExpiry := storedToken, storedExpiry;
    }

    /**
     * The effect: reuse hands the stored token to the client; adoption stores
     * the new token and expiry in state and storage and hands the token to
     * the client; otherwise the result asks for the authorization redirect
     * and nothing changes.
     */
    method RunTokenEffect(hash: string, now: nat, decode: string -> string) returns (authenticate: bool)
      modifies this
      ensures searchTerm == old(searchTerm) && searchResults == old(searchResults)
      ensures var d := Decide(old(token), old(tokenExpiry), hash, now, decode);
        && authenticate == d.Authenticate?
        && (d.Reuse? ==> token == old(token) && tokenExpiry == old(tokenExpiry) && apiToken == Some(token)
                         && storedToken == old(storedToken) && storedExpiry == old(storedExpiry))
        && (d.Adopt? ==> token == d.token && tokenExpiry == d.expiry && apiToken == Some(d.token)
                         && storedToken == Some(d.token) && storedExpiry == Some(d.expiry))
        && (d.Authenticate? ==> token == old(token) && tokenExpiry == old(tokenExpiry) && apiToken == old(apiToken)
                                && storedToken == old(storedToken) && storedExpiry == old(storedExpiry))
    {
      if !TokenValid(token, tokenExpiry, now) {
        DecideWhenInvalid(token, tokenExpiry, hash, now, decode);
        authenticate := UseFragment(hash, decode, ExpiresAt(now, Param(FragmentParams(hash, decode), "expires_in")));
      } else {
        authenticate := false;
        apiToken := Some(token);
      }
    }

    /**
     * The effect's branch without a valid stored token: a non-empty
     * `access_token` in the fragment is stored in state and storage, with
     * the expiry `expiresAt` computed from the fragment's `expires_in`, and
     * handed to the client; otherwise the result asks for the authorization
     * redirect and nothing changes.
     */
    method UseFragment(hash: string, decode: string -> string, expiresAt: string) returns (authenticate: bool)
      modifies this
      ensures searchTerm == old(searchTerm) && searchResults == old(searchResults)
      ensures var p := FragmentParams(hash, decode);
        && (authenticate <==> !("access_token" in p && p["access_token"] != ""))
        && (!authenticate ==>
              && token == p["access_token"] && tokenExpiry == expiresAt && apiToken == Some(token)
              && storedToken == Some(token) && storedExpiry == Some(expiresAt))
        && (authenticate ==> token == old(token) && tokenExpiry == old(tokenExpiry) && apiToken == old(apiToken)
                             && storedToken == old(storedToken) && storedExpiry == old(storedExpiry))
    {
      var params := ParseFragment(hash, decode);
      var t := Param(params, "access_token");
      if "access_token" in params && t != "" {
        token, tokenExpiry := t, expiresAt;
        storedToken, storedExpiry := Some(t), Some(expiresAt);
        apiToken := Some(t);
        authenticate := false;
      } else {
        authenticate := true;
      }
    }

    /**
     * A search submission: with an empty term nothing happens; a result
     * replaces the list; a failure keeps it and asks for the authorization
     * redirect exactly when its status is 401.
     */
    method HandleSearch(outcome: SearchOutcome) returns (authenticate: bool)
      modifies this
      ensures token == old(token) && tokenExpiry == old(tokenExpiry) && searchTerm == old(searchTerm)
      ensures apiToken == old(apiToken) && storedToken == old(storedToken) && storedExpiry == old(storedExpiry)
      ensures searchResults == if searchTerm != "" && outcome.Found? then outcome.items else old(searchResults)
      ensures authenticate <==> searchTerm != "" && outcome == Failed(Some(401))
    {
      authenticate := false;
      if searchTerm == "" {
        return;
      }
      match outcome
      case Found(items) => searchResults := items;
      case Failed(status) => authenticate := status == Some(401);
    }
  }
}
