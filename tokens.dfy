/** The token lifecycle of the client as a state machine over the cached
    token: the configuration fixed at construction, the grant request
    `getUserToken` sends, how it reads the token endpoint's reply, and how
    `getUserToken` and `invalidateToken` change the cache. */
module Tokens {
  import opened Wrappers
  import opened Php
  import opened Errors
  import opened Curl

  /** The three base URLs: API host, product feed, token endpoint. */
  datatype Endpoints = Endpoints(host: string, feed: string, token: string)

  const StagingEndpoints: Endpoints :=
    Endpoints("https://api-uat.staging.nexway.build", "http://connect-uat.nexway.build", "https://api.staging.nexway.build")

  const ProductionEndpoints: Endpoints :=
    Endpoints("https://api.nexway.store", "http://webservices.nexway.com", "https://api.nexway.store")

  /** The base URLs the constructor picks from the staging flag. */
  function EndpointsFor(staging: bool): (e: Endpoints)
    ensures e == StagingEndpoints || e == ProductionEndpoints
    ensures e.host == StagingEndpoints.host <==> staging
    ensures e.feed == StagingEndpoints.feed <==> staging
    ensures e.token == StagingEndpoints.token <==> staging
  {
    Endpoints(if staging then StagingEndpoints.host else ProductionEndpoints.host,
              if staging then StagingEndpoints.feed else ProductionEndpoints.feed,
              if staging then StagingEndpoints.token else ProductionEndpoints.token)
  }

  /** What a constructed client holds besides its token. */
  datatype Config = Config(clientSecret: string, realmName: string, staging: bool, urls: Endpoints)

  predicate ValidConfig(c: Config) {
    !EmptyString(c.clientSecret) && !EmptyString(c.realmName) && c.urls == EndpointsFor(c.staging)
  }

  /** The constructor: both credentials must be non-empty, and all three
      base URLs follow the one staging flag. */
  function Configure(clientSecret: string, realmName: string, staging: bool): (r: Result<Config, Error>)
    ensures r.Failure? <==> EmptyString(clientSecret) || EmptyString(realmName)
    ensures r.Failure? ==> r.error == MissingCredentials
    ensures r.Success? ==> ValidConfig(r.value)
    ensures r.Success? ==>
              r.value.clientSecret == clientSecret && r.value.realmName == realmName &&
              r.value.staging == staging
  {
    if EmptyString(clientSecret) || EmptyString(realmName) then Failure(MissingCredentials)
    else Success(Config(clientSecret, realmName, staging, EndpointsFor(staging)))
  }

  /** The token endpoint's reply after `json_decode`: either not an
      object, or an object with the four fields the client reads (absent
      and null fields are None). */
  datatype TokenReply =
    | NotObject
    | Object(error: Option<string>, message: Option<string>,
             accessToken: Option<string>, refreshToken: Option<string>)

  /** A reply the client accepts as a token. */
  predicate Granting(t: TokenReply) {
    t.Object? && t.error.None? && t.accessToken.Some? && !EmptyString(t.accessToken.value)
  }

  /** The invariant on the cached token: none, or a reply that granted one. */
  predicate Usable(cache: Option<TokenReply>) {
    cache.None? || Granting(cache.value)
  }

  /** The cached reply carries a non-empty refresh token. */
  predicate HasRefreshToken(cache: Option<TokenReply>) {
    cache.Some? && cache.value.Object? && cache.value.refreshToken.Some? &&
    !EmptyString(cache.value.refreshToken.value)
  }

  /** The parameters of the token request. */
  function GrantParams(cfg: Config, refresh: bool, cache: Option<TokenReply>): (p: seq<(string, Value)>)
    ensures Lookup(p, "clientSecret") == Some(Str(cfg.clientSecret))
    ensures Lookup(p, "realmName") == Some(Str(cfg.realmName))
    ensures Lookup(p, "grantType") ==
              Some(Str(if refresh && HasRefreshToken(cache) then "refresh_token" else "client_credentials"))
    ensures Lookup(p, "refreshToken") ==
              if refresh && HasRefreshToken(cache) then Some(Str(cache.value.refreshToken.value)) else None
    ensures |p| == if refresh && HasRefreshToken(cache) then 4 else 3
  {
    var grant := if refresh && HasRefreshToken(cache)
                 then [("grantType", Str("refresh_token")), ("refreshToken", Str(cache.value.refreshToken.value))]
                 else [("grantType", Str("client_credentials"))];
    var credentials := [("clientSecret", Str(cfg.clientSecret)), ("realmName", Str(cfg.realmName))];
    assert credentials[1..][1..] == [];
    assert |grant| == 2 ==> grant[1..][1..] == [];
    assert |grant| == 1 ==> grant[1..] == [];
    assert "realmName" != "grantType" by { assert "realmName"[0] != "grantType"[0]; }
    assert Lookup(credentials[1..], "grantType") == None;
    assert Lookup(credentials, "grantType") == None;
    assert Lookup(credentials[1..], "refreshToken") == None;
    assert Lookup(credentials, "refreshToken") == None;
    LookupAppend(credentials, grant, "clientSecret");
    LookupAppend(credentials, grant, "realmName");
    LookupAppend(credentials, grant, "grantType");
    LookupAppend(credentials, grant, "refreshToken");
    credentials + grant
  }

  const TokenHeaders: seq<string> := ["Content-Type: application/json"]

  /** The request `getUserToken` hands to `getCurlResponse`; it always
      passes that method's checks. */
  function TokenRequest(cfg: Config, refresh: bool, cache: Option<TokenReply>): (q: Request)
    ensures Prepare(cfg.urls.token + "/iam/tokens", "post", Str(JsonEncode(Assoc(GrantParams(cfg, refresh, cache)))), TokenHeaders)
            == Success(q)
    ensures q == Request("POST", cfg.urls.token + "/iam/tokens",
                         Some(JsonEncode(Assoc(GrantParams(cfg, refresh, cache)))), TokenHeaders)
  {
    var url := cfg.urls.token + "/iam/tokens";
    var body := JsonEncode(Assoc(GrantParams(cfg, refresh, cache)));
    assert Lower("post") == "post";
    assert !EmptyString(url) by { assert |url| >= 11; }
    assert !Empty(Str(body)) by { assert |body| >= 2; }
    Prepare(url, "post", Str(body), TokenHeaders).value
  }

  /** How `getUserToken` reads a reply: granted with its access token, or
      rejected with the exception it throws. */
  datatype Classified = Rejected(error: Error) | Granted(reply: TokenReply, accessToken: string)

  /** The checks `getUserToken` makes on the reply, in their order: an empty
      body, then a non-object, then
      an `error` field (even beside an access token), then a non-empty
      access token, and last "Token Not Found". */
  function Classify(raw: string, decoded: TokenReply): (c: Classified)
    ensures c.Granted? <==> !EmptyString(raw) && Granting(decoded)
    ensures c.Granted? ==> c.reply == decoded && c.accessToken == decoded.accessToken.value
    ensures EmptyString(raw) ==> c == Rejected(EmptyTokenReply)
    ensures !EmptyString(raw) && decoded.NotObject? ==> c == Rejected(FormatNotSupported)
    ensures !EmptyString(raw) && decoded.Object? && decoded.error.Some? ==>
              c == Rejected(AuthError(decoded.error.value, decoded.message.GetOr("")))
    ensures !EmptyString(raw) && decoded.Object? && decoded.error.None? && !Granting(decoded) ==>
              c == Rejected(TokenNotFound)
  {
    if EmptyString(raw) then Rejected(EmptyTokenReply)
    else match decoded
      case NotObject => Rejected(FormatNotSupported)
      case Object(error, message, accessToken, _) =>
        if error.Some? then Rejected(AuthError(error.value, message.GetOr("")))
        else if accessToken.Some? && !EmptyString(accessToken.value) then Granted(decoded, accessToken.value)
        else Rejected(TokenNotFound)
  }

  /** The whole token exchange: transport errors first, then Classify on
      the body; `decoded` is what `json_decode` makes of that body. */
  function ReplyOutcome(reply: Exchange, decoded: TokenReply): (c: Classified)
    ensures c.Granted? <==> reply.Status? && reply.code != 400 && !EmptyString(reply.body) && Granting(decoded)
    ensures c.Granted? ==> Granting(c.reply) && c.reply == decoded
    ensures Interpret(reply).Failure? ==> c == Rejected(CurlFailed)
    ensures Interpret(reply).Success? ==> c == Classify(reply.body, decoded)
  {
    match Interpret(reply)
    case Failure(e) => Rejected(e)
    case Success(raw) => Classify(raw, decoded)
  }

  /** What `getUserToken` returns: the access token when asked for it,
      null otherwise. */
  function AcquireResult(c: Classified, ret: bool): (r: Result<Option<string>, Error>)
    ensures r.Failure? <==> c.Rejected?
    ensures r.Failure? ==> r.error == c.error
    ensures r.Success? ==> (r.value.Some? <==> ret)
    ensures r.Success? && ret ==> r.value.value == c.accessToken
  {
    if c.Rejected? then Failure(c.error)
    else if ret then Success(Some(c.accessToken))
    else Success(None)
  }

  /** The cache after `getUserToken`: only a granting reply is stored. */
  function Stored(cache: Option<TokenReply>, c: Classified): (s: Option<TokenReply>)
    ensures c.Rejected? ==> s == cache
    ensures c.Granted? ==> s == Some(c.reply)
    ensures Usable(cache) && (c.Granted? ==> Granting(c.reply)) ==> Usable(s)
  {
    if c.Granted? then Some(c.reply) else cache
  }

  /** The reset request `invalidateToken` sends; it always passes
      `getCurlResponse`'s checks, and carries no body. */
  function ResetRequest(cfg: Config): (q: Request)
    ensures Prepare(cfg.urls.host + "/iam/tokens/reset", "DELETE", List([]), []) == Success(q)
    ensures q == Request("DELETE", cfg.urls.host + "/iam/tokens/reset", None, [])
  {
    var url := cfg.urls.host + "/iam/tokens/reset";
    assert Lower("DELETE") == "delete";
    assert !EmptyString(url) by { assert |url| >= 17; }
    assert Payload(List([])) == Str("");
    Prepare(url, "DELETE", List([]), []).value
  }

  /** The cache after `invalidateToken`: the token is dropped once the reset
      call returns; when it throws, the old token stays. */
  function AfterReset(cache: Option<TokenReply>, reply: Exchange): (s: Option<TokenReply>)
    ensures Interpret(reply).Success? ==> s == None
    ensures Interpret(reply).Failure? ==> s == cache
  {
    if Interpret(reply).Success? then None else cache
  }

  /** One call that touches the cache, with the reply it got. Every domain
      operation's token fetch is an `Acquire(true, ...)`. */
  datatype Event =
    | Acquire(refresh: bool, reply: Exchange, decoded: TokenReply)
    | Invalidate(reset: Exchange)

  function Step(cache: Option<TokenReply>, e: Event): Option<TokenReply> {
    match e
    case Acquire(_, reply, decoded) => Stored(cache, ReplyOutcome(reply, decoded))
    case Invalidate(reset) => AfterReset(cache, reset)
  }

  function Run(cache: Option<TokenReply>, events: seq<Event>): Option<TokenReply>
    decreases |events|
  {
    if |events| == 0 then cache else Run(Step(cache, events[0]), events[1..])
  }

  predicate Grants(e: Event) {
    e.Acquire? && ReplyOutcome(e.reply, e.decoded).Granted?
  }

  /** After any sequence of calls the cached token, if any, carries a
      non-empty access token and no error. */
  lemma {:induction false} RunKeepsUsable(cache: Option<TokenReply>, events: seq<Event>)
    requires Usable(cache)
    ensures Usable(Run(cache, events))
    decreases |events|
  {
    if |events| > 0 {
      RunKeepsUsable(Step(cache, events[0]), events[1..]);
    }
  }

  lemma {:induction false} RunAppend(cache: Option<TokenReply>, xs: seq<Event>, ys: seq<Event>)
    ensures Run(cache, xs + ys) == Run(Run(cache, xs), ys)
    decreases |xs|
  {
    if |xs| > 0 {
      assert (xs + ys)[1..] == xs[1..] + ys;
      RunAppend(Step(cache, xs[0]), xs[1..], ys);
    } else {
      assert xs + ys == ys;
    }
  }

  /** The client never invents a token: after any sequence of calls the
      cache is the starting one, empty, or the reply of a call that was
      granted. */
  lemma {:induction false} TokenComesFromGrant(cache: Option<TokenReply>, events: seq<Event>)
    ensures Run(cache, events) == cache || Run(cache, events) == None ||
            exists i :: 0 <= i < |events| && Grants(events[i]) && Run(cache, events) == Some(events[i].decoded)
    decreases |events|
  {
    if |events| > 0 {
      var next := Step(cache, events[0]);
      TokenComesFromGrant(next, events[1..]);
      var final := Run(next, events[1..]);
      if final == next && next != cache && next != None {
        assert Grants(events[0]) && final == Some(events[0].decoded);
      } else if final != next && final != None {
        var i :| 0 <= i < |events[1..]| && Grants(events[1..][i]) && final == Some(events[1..][i].decoded);
        assert events[i + 1] == events[1..][i];
      }
    }
  }

  /** A reset that returns leaves no token, whatever came before. */
  lemma ResetClears(cache: Option<TokenReply>, events: seq<Event>, reset: Exchange)
    requires Interpret(reset).Success?
    ensures Run(cache, events + [Invalidate(reset)]) == None
  {
    RunAppend(cache, events, [Invalidate(reset)]);
  }

  /** A granted reply with a refresh token makes the next refreshing call
      use the refresh-token grant with that token. */
  lemma GrantEnablesRefresh(cfg: Config, cache: Option<TokenReply>, refresh: bool, reply: Exchange, decoded: TokenReply)
    requires ReplyOutcome(reply, decoded).Granted?
    requires decoded.refreshToken.Some? && !EmptyString(decoded.refreshToken.value)
    ensures var next := Step(cache, Acquire(refresh, reply, decoded));
            Lookup(GrantParams(cfg, true, next), "grantType") == Some(Str("refresh_token")) &&
            Lookup(GrantParams(cfg, true, next), "refreshToken") == Some(Str(decoded.refreshToken.value))
  {
  }
}
