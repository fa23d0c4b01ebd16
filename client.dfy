/** The `NexwayConnect` object: its configuration, fixed by the
    constructor, and its one mutable field, the cached token. Each method
    takes the replies the transport would produce as inputs and returns the
    requests it hands to cURL; its contract ties the result, the requests
    and the new cache to the functions of Tokens and Operations. */
module Client {
  import opened Wrappers
  import opened Php
  import opened Errors
  import opened Curl
  import opened Tokens
  import opened Operations

  class NexwayConnect {
    const tokenURL: string
    const hostURL: string
    const feedUrl: string
    const clientSecret: string
    const realmName: string
    const staging: bool
    /** The decoded reply of the last granted token request; None while
        the property is unset. */
    var token: Option<TokenReply>

    function Settings(): Config {
      Config(clientSecret, realmName, staging, Endpoints(hostURL, feedUrl, tokenURL))
    }

    ghost predicate Valid()
      reads this
    {
      ValidConfig(Settings()) && Usable(token)
    }

    /** The assignments of the constructor; `Connect` is the constructor
        with its credential check. */
    constructor (clientSecret: string, realmName: string, staging: bool)
      requires !EmptyString(clientSecret) && !EmptyString(realmName)
      ensures Valid() && token == None
      ensures Configure(clientSecret, realmName, staging) == Success(Settings())
    {
      this.clientSecret := clientSecret;
      this.realmName := realmName;
      this.staging := staging;
      this.hostURL := if staging then "https://api-uat.staging.nexway.build" else "https://api.nexway.store";
      this.feedUrl := if staging then "http://connect-uat.nexway.build" else "http://webservices.nexway.com";
      this.tokenURL := if staging then "https://api.staging.nexway.build" else "https://api.nexway.store";
      this.token := None;
    }

    /** `getCurlResponse`: the checks and request building before
        `curl_exec`, then the reading of `exchange`, the exchange's outcome. */
    method GetCurlResponse(url: string, verb: string, data: Value, headers: seq<string>, exchange: Exchange)
      returns (r: Result<string, Error>, sent: Option<Request>)
      ensures Prepare(url, verb, data, headers).Failure? ==> r == Failure(CurlParameterMissing) && sent == None
      ensures Prepare(url, verb, data, headers).Success? ==>
                sent == Some(Prepare(url, verb, data, headers).value) && r == Interpret(exchange)
    {
      if EmptyString(url) || Lower(verb) !in SupportedMethods {
        return Failure(CurlParameterMissing), None;
      }
      var kind := verb;
      SupportedVerbNotEmpty(verb);
      kind := if EmptyString(kind) then "get" else kind;
      var payload := data;
      if IsArray(payload) {
        payload := Str(BuildQuery(payload));
      }
      var target := url;
      var curlVerb := "GET";
      if Lower(kind) == "get" {
        target := target + "?" + Text(payload);
      } else if Lower(kind) == "post" {
        curlVerb := "POST";
      } else {
        curlVerb := kind;
      }
      var body: Option<string> := None;
      if Lower(kind) != "get" && !Empty(payload) {
        body := Some(Text(payload));
      }
      sent := Some(Request(curlVerb, target, body, headers));
      if exchange.Failed? || exchange.code == 400 {
        r := Failure(CurlFailed);
      } else {
        r := Success(exchange.body);
      }
    }

    /** `getUserToken($refresh, $return)`, given the token endpoint's reply
        and what `json_decode` makes of its body. */
    method GetUserToken(refresh: bool, ret: bool, reply: Exchange, decoded: TokenReply)
      returns (r: Result<Option<string>, Error>, sent: Request)
      requires Valid()
      modifies this
      ensures Valid()
      ensures sent == TokenRequest(Settings(), refresh, old(token))
      ensures r == AcquireResult(ReplyOutcome(reply, decoded), ret)
      ensures token == Stored(old(token), ReplyOutcome(reply, decoded))
    {
      var url := tokenURL + "/iam/tokens";
      var param := [("clientSecret", Str(clientSecret)), ("realmName", Str(realmName))];
      if refresh && token.Some? && token.value.Object? && token.value.refreshToken.Some? &&
         !EmptyString(token.value.refreshToken.value) {
        param := param + [("grantType", Str("refresh_token")), ("refreshToken", Str(token.value.refreshToken.value))];
      } else {
        param := param + [("grantType", Str("client_credentials"))];
      }
      assert param == GrantParams(Settings(), refresh, token);
      assert Prepare(url, "post", Str(JsonEncode(Assoc(param))), TokenHeaders)
          == Success(TokenRequest(Settings(), refresh, token));
      var response, request := GetCurlResponse(url, "post", Str(JsonEncode(Assoc(param))), TokenHeaders, reply);
      sent := request.value;
      if response.Failure? {
        return Failure(response.error), sent;
      }
      var raw := response.value;
      if EmptyString(raw) {
        return Failure(EmptyTokenReply), sent;
      }
      if decoded.NotObject? {
        return Failure(FormatNotSupported), sent;
      }
      if decoded.error.Some? {
        r := Failure(AuthError(decoded.error.value, decoded.message.GetOr("")));
      } else if decoded.accessToken.Some? && !EmptyString(decoded.accessToken.value) {
        token := Some(decoded);
        r := if ret then Success(Some(decoded.accessToken.value)) else Success(None);
      } else {
        r := Failure(TokenNotFound);
      }
    }

    /** `invalidateToken()`, given the reset endpoint's reply: the token is
        unset only once the reset call has returned. */
    method InvalidateToken(reset: Exchange) returns (r: Result<(), Error>, sent: Request)
      requires Valid()
      modifies this
      ensures Valid()
      ensures sent == ResetRequest(Settings())
      ensures r == if Interpret(reset).Success? then Success(()) else Failure(CurlFailed)
      ensures token == AfterReset(old(token), reset)
    {
      var url := hostURL + "/iam/tokens/reset";
      assert Prepare(url, "DELETE", List([]), []) == Success(ResetRequest(Settings()));
      var response, request := GetCurlResponse(url, "DELETE", List([]), [], reset);
      sent := request.value;
      if response.Failure? {
        return Failure(response.error), sent;
      }
      token := None;
      r := Success(());
    }

    /** The template the domain operations share once they have
        validated and shaped their request. The source fetches the bearer
        token with `generateAccessTokens(true, true)`, a method the class
        does not define; the token method it has is `getUserToken`, and
        that is what is called here. */
    method Perform(plan: Plan, tokenReply: Exchange, decoded: TokenReply, reply: Exchange)
      returns (r: Result<string, Error>, sent: seq<Request>)
      requires Valid()
      modifies this
      ensures Valid()
      ensures Outcome(r, sent, token) == Execute(Settings(), old(token), plan, tokenReply, decoded, reply)
    {
      match plan
      case Reject(e) =>
        r, sent := Failure(e), [];
      case Skip =>
        r, sent := Success(""), [];
      case Send(url, verb, data, shape) =>
        if shape.Anonymous? {
          var response, request := GetCurlResponse(url, verb, data, [], reply);
          r := response;
          sent := if request.Some? then [request.value] else [];
        } else {
          var bearer, tokenCall := GetUserToken(true, true, tokenReply, decoded);
          if bearer.Failure? {
            return Failure(bearer.error), [tokenCall];
          }
          var b := bearer.value.value;
          if shape.trim {
            b := Trim(b);
          }
          var response, request := GetCurlResponse(url, verb, data, AuthHeaders(shape.secret, b), reply);
          if request.None? {
            return response, [tokenCall];
          }
          sent := [tokenCall, request.value];
          if response.Success? && EmptyString(response.value) {
            r := Failure(EmptyResponse);
          } else {
            r := response;
          }
        }
    }

    method GetStockStatus(secret: string, productRef: Value, tokenReply: Exchange, decoded: TokenReply, reply: Exchange)
      returns (r: Result<string, Error>, sent: seq<Request>)
      requires Valid()
      modifies this
      ensures Valid()
      ensures Outcome(r, sent, token) ==
              Execute(Settings(), old(token), StockStatus(Settings(), secret, productRef), tokenReply, decoded, reply)
    {
      r, sent := Perform(StockStatus(Settings(), secret, productRef), tokenReply, decoded, reply);
    }

    method GetCrossUpSell(secret: string, language: string, products: Value,
                          tokenReply: Exchange, decoded: TokenReply, reply: Exchange)
      returns (r: Result<string, Error>, sent: seq<Request>)
      requires Valid()
      modifies this
      ensures Valid()
      ensures Outcome(r, sent, token) ==
              Execute(Settings(), old(token), CrossUpSell(Settings(), secret, language, products), tokenReply, decoded, reply)
    {
      r, sent := Perform(CrossUpSell(Settings(), secret, language, products), tokenReply, decoded, reply);
    }

    method CreateOrderCall(secret: string, order: string, tokenReply: Exchange, decoded: TokenReply, reply: Exchange)
      returns (r: Result<string, Error>, sent: seq<Request>)
      requires Valid()
      modifies this
      ensures Valid()
      ensures Outcome(r, sent, token) ==
              Execute(Settings(), old(token), CreateOrder(Settings(), secret, order), tokenReply, decoded, reply)
    {
      r, sent := Perform(CreateOrder(Settings(), secret, order), tokenReply, decoded, reply);
    }

    method CancelOrderCall(secret: string, partnerOrderNumber: string, reasonCode: Value, comment: string,
                           tokenReply: Exchange, decoded: TokenReply, reply: Exchange)
      returns (r: Result<string, Error>, sent: seq<Request>)
      requires Valid()
      modifies this
      ensures Valid()
      ensures Outcome(r, sent, token) ==
              Execute(Settings(), old(token), CancelOrder(Settings(), secret, partnerOrderNumber, reasonCode, comment),
                      tokenReply, decoded, reply)
    {
      r, sent := Perform(CancelOrder(Settings(), secret, partnerOrderNumber, reasonCode, comment), tokenReply, decoded, reply);
    }

    method GetOrderCall(secret: string, orderId: string, tokenReply: Exchange, decoded: TokenReply, reply: Exchange)
      returns (r: Result<string, Error>, sent: seq<Request>)
      requires Valid()
      modifies this
      ensures Valid()
      ensures Outcome(r, sent, token) ==
              Execute(Settings(), old(token), GetOrder(Settings(), secret, orderId), tokenReply, decoded, reply)
    {
      r, sent := Perform(GetOrder(Settings(), secret, orderId), tokenReply, decoded, reply);
    }

    method GetOrderDownloadInfoCall(secret: string, orderId: string, tokenReply: Exchange, decoded: TokenReply, reply: Exchange)
      returns (r: Result<string, Error>, sent: seq<Request>)
      requires Valid()
      modifies this
      ensures Valid()
      ensures Outcome(r, sent, token) ==
              Execute(Settings(), old(token), GetOrderDownloadInfo(Settings(), secret, orderId), tokenReply, decoded, reply)
    {
      r, sent := Perform(GetOrderDownloadInfo(Settings(), secret, orderId), tokenReply, decoded, reply);
    }

    /** Throws on every call, before any request (see UpdateDownloadTime). */
    method UpdateDownloadTimeCall(partnerOrderNumber: string, value: string)
      returns (r: Result<string, Error>, sent: seq<Request>)
      requires Valid()
      ensures r == Failure(MissingParameter("partnerOrderNumber of Expire date Missing.")) && sent == []
    {
      var plan := UpdateDownloadTime(Settings(), partnerOrderNumber, value);
      r, sent := Failure(plan.error), [];
    }

    /** The feed fetches no token, so no token reply is consulted. */
    method GetProductFeed(secret: string, provider: string, config: string, reply: Exchange)
      returns (r: Result<string, Error>, sent: seq<Request>)
      requires Valid()
      modifies this
      ensures Valid() && token == old(token)
      ensures Outcome(r, sent, token) ==
              Execute(Settings(), old(token), ProductFeed(Settings(), secret, provider, config), Failed, NotObject, reply)
    {
      r, sent := Perform(ProductFeed(Settings(), secret, provider, config), Failed, NotObject, reply);
    }

    method GetSubscriptionStatusCall(secret: string, partnerOrderNumber: string, subscriptionId: string,
                                     tokenReply: Exchange, decoded: TokenReply, reply: Exchange)
      returns (r: Result<string, Error>, sent: seq<Request>)
      requires Valid()
      modifies this
      ensures Valid()
      ensures Outcome(r, sent, token) ==
              Execute(Settings(), old(token), GetSubscriptionStatus(Settings(), secret, partnerOrderNumber, subscriptionId),
                      tokenReply, decoded, reply)
    {
      r, sent := Perform(GetSubscriptionStatus(Settings(), secret, partnerOrderNumber, subscriptionId), tokenReply, decoded, reply);
    }

    method CancelSubscriptionCall(secret: string, partnerOrderNumber: string, subscriptionId: string,
                                  tokenReply: Exchange, decoded: TokenReply, reply: Exchange)
      returns (r: Result<string, Error>, sent: seq<Request>)
      requires Valid()
      modifies this
      ensures Valid()
      ensures Outcome(r, sent, token) ==
              Execute(Settings(), old(token), CancelSubscription(Settings(), secret, partnerOrderNumber, subscriptionId),
                      tokenReply, decoded, reply)
    {
      r, sent := Perform(CancelSubscription(Settings(), secret, partnerOrderNumber, subscriptionId), tokenReply, decoded, reply);
    }

    method RenewSubscriptionCall(secret: string, partnerOrderNumber: string, subscriptionId: string,
                                 tokenReply: Exchange, decoded: TokenReply, reply: Exchange)
      returns (r: Result<string, Error>, sent: seq<Request>)
      requires Valid()
      modifies this
      ensures Valid()
      ensures Outcome(r, sent, token) ==
              Execute(Settings(), old(token), RenewSubscription(Settings(), secret, partnerOrderNumber, subscriptionId),
                      tokenReply, decoded, reply)
    {
      r, sent := Perform(RenewSubscription(Settings(), secret, partnerOrderNumber, subscriptionId), tokenReply, decoded, reply);
    }

    method GetCategoriesCall(secret: string, language: string, tokenReply: Exchange, decoded: TokenReply, reply: Exchange)
      returns (r: Result<string, Error>, sent: seq<Request>)
      requires Valid()
      modifies this
      ensures Valid()
      ensures Outcome(r, sent, token) ==
              Execute(Settings(), old(token), GetCategories(Settings(), secret, language), tokenReply, decoded, reply)
    {
      r, sent := Perform(GetCategories(Settings(), secret, language), tokenReply, decoded, reply);
    }

    method GetOperatingSystemsCall(secret: string, tokenReply: Exchange, decoded: TokenReply, reply: Exchange)
      returns (r: Result<string, Error>, sent: seq<Request>)
      requires Valid()
      modifies this
      ensures Valid()
      ensures Outcome(r, sent, token) ==
              Execute(Settings(), old(token), GetOperatingSystems(Settings(), secret), tokenReply, decoded, reply)
    {
      r, sent := Perform(GetOperatingSystems(Settings(), secret), tokenReply, decoded, reply);
    }
  }

  /** `new NexwayConnect($clientSecret, $realmName, $staging)`: throws when
      either credential is empty, and otherwise yields a client with no
      token and all three base URLs from the same staging flag. */
  method Connect(clientSecret: string, realmName: string, staging: bool) returns (r: Result<NexwayConnect, Error>)
    ensures r.Failure? <==> EmptyString(clientSecret) || EmptyString(realmName)
    ensures r.Failure? ==> r.error == MissingCredentials
    ensures r.Success? ==>
              fresh(r.value) && r.value.Valid() && r.value.token == None &&
              Configure(clientSecret, realmName, staging) == Success(r.value.Settings())
  {
    if EmptyString(clientSecret) || EmptyString(realmName) {
      return Failure(MissingCredentials);
    }
    var client := new NexwayConnect(clientSecret, realmName, staging);
    r := Success(client);
  }
}
