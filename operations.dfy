/** The thirteen domain operations: what each validates before any token or
    network call, how it shapes its request, and the one template every
    authenticated operation follows (fetch a bearer token, call the
    endpoint, refuse an empty answer). */
module Operations {
  import opened Wrappers
  import opened Php
  import opened Errors
  import opened Curl
  import opened Tokens

  /** How the call is made: with a bearer token from `getUserToken(true, true)`
      and the four standard headers (`trim` when the operation trims the
      token), or, for the product feed, with no token and no headers. */
  datatype Shape = Bearer(secret: string, trim: bool) | Anonymous

  /** The outcome of an operation's validation: throw, return "" without a
      call, or call `getCurlResponse` with a URL, a verb and data. */
  datatype Plan =
    | Reject(error: Error)
    | Skip
    | Send(url: string, verb: string, data: Value, shape: Shape)

  /** A plan's call always gets past `getCurlResponse`'s own checks. */
  predicate Sendable(p: Plan) {
    p.Send? ==> !EmptyString(p.url) && Supported(p.verb)
  }

  /** A single value wrapped as a one-element list; an array is kept as it is. */
  function Listed(v: Value): (r: Value)
    ensures IsArray(r)
    ensures IsArray(v) ==> r == v
    ensures !IsArray(v) ==> r == List([v])
  {
    if IsArray(v) then v else List([v])
  }

  /** A JSON body built from named fields. */
  function JsonBody(entries: seq<(string, Value)>): Value {
    Str(JsonEncode(Assoc(entries)))
  }

  function StockStatus(cfg: Config, secret: string, productRef: Value): (p: Plan)
    ensures p.Reject? <==> EmptyString(secret) || Empty(productRef)
    ensures p.Reject? ==> p.error == MissingParameter("Secret or productRef Missing.")
    ensures p.Send? ==> p.url == cfg.urls.host + "/connect/stock" && p.verb == "post" &&
                        p.data == JsonBody([("productRefs", Listed(productRef))]) &&
                        p.shape == Bearer(secret, false)
    ensures !p.Skip? && Sendable(p)
  {
    assert Lower("post") == "post";
    if EmptyString(secret) || Empty(productRef) then Reject(MissingParameter("Secret or productRef Missing."))
    else Send(cfg.urls.host + "/connect/stock", "post", JsonBody([("productRefs", Listed(productRef))]),
              Bearer(secret, false))
  }

  function CrossUpSell(cfg: Config, secret: string, language: string, products: Value): (p: Plan)
    ensures p.Reject? <==> EmptyString(secret) || EmptyString(language) || Empty(products)
    ensures p.Reject? ==> p.error == MissingParameter("Secret or language or productRef Missing.")
    ensures p.Send? ==> p.url == cfg.urls.host + "/connect/order/crossupsell" && p.verb == "post" &&
                        p.data == JsonBody([("language", Str(language)), ("products", Listed(products))]) &&
                        p.shape == Bearer(secret, false)
    ensures !p.Skip? && Sendable(p)
  {
    assert Lower("post") == "post";
    if EmptyString(secret) || EmptyString(language) || Empty(products) then
      Reject(MissingParameter("Secret or language or productRef Missing."))
    else
      Send(cfg.urls.host + "/connect/order/crossupsell", "post",
           JsonBody([("language", Str(language)), ("products", Listed(products))]), Bearer(secret, false))
  }

  /** The order document is passed through as the body, unchanged. */
  function CreateOrder(cfg: Config, secret: string, order: string): (p: Plan)
    ensures p.Reject? <==> EmptyString(secret) || EmptyString(order)
    ensures p.Reject? ==> p.error == MissingParameter("Secret or Order Missing.")
    ensures p.Send? ==> p.url == cfg.urls.host + "/connect/order/new" && p.verb == "post" &&
                        p.data == Str(order) && p.shape == Bearer(secret, false)
    ensures !p.Skip? && Sendable(p)
  {
    assert Lower("post") == "post";
    if EmptyString(secret) || EmptyString(order) then Reject(MissingParameter("Secret or Order Missing."))
    else Send(cfg.urls.host + "/connect/order/new", "post", Str(order), Bearer(secret, false))
  }

  /** The reason code must be numeric; the comment is not checked. This is
      the one operation that trims the bearer token. */
  function CancelOrder(cfg: Config, secret: string, partnerOrderNumber: string, reasonCode: Value, comment: string): (p: Plan)
    ensures p.Reject? <==> EmptyString(secret) || EmptyString(partnerOrderNumber) || !IsNumeric(reasonCode)
    ensures p.Reject? ==> p.error == MissingParameter("Secret or partnerOrderNumber Missing. reasonCode Must be int")
    ensures p.Send? ==> p.url == cfg.urls.host + "/connect/order/cancel" && p.verb == "PUT" &&
                        p.data == JsonBody([("comment", Str(comment)), ("partnerOrderNumber", Str(partnerOrderNumber)),
                                            ("reasonCode", reasonCode)]) &&
                        p.shape == Bearer(secret, true)
    ensures !p.Skip? && Sendable(p)
  {
    assert Lower("PUT") == "put";
    if EmptyString(secret) || EmptyString(partnerOrderNumber) || !IsNumeric(reasonCode) then
      Reject(MissingParameter("Secret or partnerOrderNumber Missing. reasonCode Must be int"))
    else
      Send(cfg.urls.host + "/connect/order/cancel", "PUT",
           JsonBody([("comment", Str(comment)), ("partnerOrderNumber", Str(partnerOrderNumber)), ("reasonCode", reasonCode)]),
           Bearer(secret, true))
  }

  function GetOrder(cfg: Config, secret: string, orderId: string): (p: Plan)
    ensures p.Reject? <==> EmptyString(secret) || EmptyString(orderId)
    ensures p.Reject? ==> p.error == MissingParameter("secret or orderId Missing.")
    ensures p.Send? ==> p.url == cfg.urls.host + "/connect/order/" + orderId && p.verb == "get" &&
                        p.data == Str("") && p.shape == Bearer(secret, false)
    ensures !p.Skip? && Sendable(p)
  {
    assert Lower("get") == "get";
    if EmptyString(secret) || EmptyString(orderId) then Reject(MissingParameter("secret or orderId Missing."))
    else Send(cfg.urls.host + "/connect/order/" + orderId, "get", Str(""), Bearer(secret, false))
  }

  function GetOrderDownloadInfo(cfg: Config, secret: string, orderId: string): (p: Plan)
    ensures p.Reject? <==> EmptyString(secret) || EmptyString(orderId)
    ensures p.Reject? ==> p.error == MissingParameter("secret or orderId Missing.")
    ensures p.Send? ==> p.url == cfg.urls.host + "/connect/order/" + orderId + "/download" && p.verb == "get" &&
                        p.data == Str("") && p.shape == Bearer(secret, false)
    ensures !p.Skip? && Sendable(p)
  {
    assert Lower("get") == "get";
    if EmptyString(secret) || EmptyString(orderId) then Reject(MissingParameter("secret or orderId Missing."))
    else Send(cfg.urls.host + "/connect/order/" + orderId + "/download", "get", Str(""), Bearer(secret, false))
  }

  /** As written, this operation tests `$secret`, a variable it never
      defines; PHP reads it as null, which is empty, so every call throws
      before any token or network call. */
  function UpdateDownloadTime(cfg: Config, partnerOrderNumber: string, value: string): (p: Plan)
    ensures p == Reject(MissingParameter("partnerOrderNumber of Expire date Missing."))
  {
    var secret := Null;
    if Empty(secret) || EmptyString(value) then Reject(MissingParameter("partnerOrderNumber of Expire date Missing."))
    else
      Send(cfg.urls.host + "/connect/order/download", "PUT",
           JsonBody([("partnerOrderNumber", Str(partnerOrderNumber)), ("value", Str(value))]),
           Bearer(Text(secret), false))
  }

  /** The feed never throws on missing input: it returns "" instead. Its
      call carries the three inputs as query fields and no bearer token. */
  function ProductFeed(cfg: Config, secret: string, provider: string, config: string): (p: Plan)
    ensures !p.Reject?
    ensures p.Skip? <==> EmptyString(secret) || EmptyString(provider) || EmptyString(config)
    ensures p.Send? ==> p.url == cfg.urls.feed + "/getCatalog.xml" && p.verb == "get" &&
                        p.data == Assoc([("secret", Str(secret)), ("provider", Str(provider)), ("config", Str(config))]) &&
                        p.shape == Anonymous
    ensures Sendable(p)
  {
    assert Lower("get") == "get";
    if EmptyString(secret) || EmptyString(provider) || EmptyString(config) then Skip
    else
      Send(cfg.urls.feed + "/getCatalog.xml", "get",
           Assoc([("secret", Str(secret)), ("provider", Str(provider)), ("config", Str(config))]), Anonymous)
  }

  /** The three subscription operations share their validation and body
      and differ in path and verb. */
  function Subscription(url: string, verb: string, secret: string, partnerOrderNumber: string, subscriptionId: string): (p: Plan)
    ensures p.Reject? <==> EmptyString(secret) || EmptyString(partnerOrderNumber) || EmptyString(subscriptionId)
    ensures p.Reject? ==> p.error == MissingParameter("secret or partnerOrderNumber or subscriptionId Missing.")
    ensures p.Send? ==> p.url == url && p.verb == verb &&
                        p.data == JsonBody([("partnerOrderNumber", Str(partnerOrderNumber)), ("subscriptionId", Str(subscriptionId))]) &&
                        p.shape == Bearer(secret, false)
    ensures !p.Skip?
  {
    if EmptyString(secret) || EmptyString(partnerOrderNumber) || EmptyString(subscriptionId) then
      Reject(MissingParameter("secret or partnerOrderNumber or subscriptionId Missing."))
    else
      Send(url, verb, JsonBody([("partnerOrderNumber", Str(partnerOrderNumber)), ("subscriptionId", Str(subscriptionId))]),
           Bearer(secret, false))
  }

  function GetSubscriptionStatus(cfg: Config, secret: string, partnerOrderNumber: string, subscriptionId: string): (p: Plan)
    ensures p == Subscription(cfg.urls.host + "/connect/subscription", "post", secret, partnerOrderNumber, subscriptionId)
    ensures Sendable(p)
  {
    assert Lower("post") == "post";
    Subscription(cfg.urls.host + "/connect/subscription", "post", secret, partnerOrderNumber, subscriptionId)
  }

  function CancelSubscription(cfg: Config, secret: string, partnerOrderNumber: string, subscriptionId: string): (p: Plan)
    ensures p == Subscription(cfg.urls.host + "/connect/subscription", "PUT", secret, partnerOrderNumber, subscriptionId)
    ensures Sendable(p)
  {
    assert Lower("PUT") == "put";
    Subscription(cfg.urls.host + "/connect/subscription", "PUT", secret, partnerOrderNumber, subscriptionId)
  }

  function RenewSubscription(cfg: Config, secret: string, partnerOrderNumber: string, subscriptionId: string): (p: Plan)
    ensures p == Subscription(cfg.urls.host + "/connect/subscription/renew", "PUT", secret, partnerOrderNumber, subscriptionId)
    ensures Sendable(p)
  {
    assert Lower("PUT") == "put";
    Subscription(cfg.urls.host + "/connect/subscription/renew", "PUT", secret, partnerOrderNumber, subscriptionId)
  }

  function GetCategories(cfg: Config, secret: string, language: string): (p: Plan)
    ensures p.Reject? <==> EmptyString(secret) || EmptyString(language)
    ensures p.Reject? ==> p.error == MissingParameter("secret or language Missing.")
    ensures p.Send? ==> p.url == cfg.urls.host + "/connect/catalog/categories/" + language && p.verb == "get" &&
                        p.data == Str("") && p.shape == Bearer(secret, false)
    ensures !p.Skip? && Sendable(p)
  {
    assert Lower("get") == "get";
    if EmptyString(secret) || EmptyString(language) then Reject(MissingParameter("secret or language Missing."))
    else Send(cfg.urls.host + "/connect/catalog/categories/" + language, "get", Str(""), Bearer(secret, false))
  }

  function GetOperatingSystems(cfg: Config, secret: string): (p: Plan)
    ensures p.Reject? <==> EmptyString(secret)
    ensures p.Reject? ==> p.error == MissingParameter("secret Missing.")
    ensures p.Send? ==> p.url == cfg.urls.host + "/connect/catalog/oslist" && p.verb == "get" &&
                        p.data == Str("") && p.shape == Bearer(secret, false)
    ensures !p.Skip? && Sendable(p)
  {
    assert Lower("get") == "get";
    if EmptyString(secret) then Reject(MissingParameter("secret Missing."))
    else Send(cfg.urls.host + "/connect/catalog/oslist", "get", Str(""), Bearer(secret, false))
  }

  /** The four headers every authenticated operation sends. */
  function AuthHeaders(secret: string, bearer: string): seq<string> {
    ["secret: " + secret, "Authorization: Bearer " + bearer, "Content-Type: application/json", "Cache-Control: no-cache"]
  }

  /** What one operation call does: its result, the requests it sends in
      order, and the cache it leaves. */
  datatype Outcome = Outcome(result: Result<string, Error>, sent: seq<Request>, cache: Option<TokenReply>)

  /** The request the operation's call makes, once the bearer token (if
      any) is known. */
  function CallRequest(url: string, verb: string, data: Value, shape: Shape, bearer: string): Result<Request, Error> {
    match shape
    case Anonymous => Prepare(url, verb, data, [])
    case Bearer(secret, trim) => Prepare(url, verb, data, AuthHeaders(secret, if trim then Trim(bearer) else bearer))
  }

  /** An authenticated operation refuses an empty answer; the feed returns
      whatever came back. */
  function Answer(shape: Shape, reply: Exchange): Result<string, Error> {
    match Interpret(reply)
    case Failure(e) => Failure(e)
    case Success(body) => if shape.Bearer? && EmptyString(body) then Failure(EmptyResponse) else Success(body)
  }

  /** One operation call from a plan, given the token endpoint's reply (and
      its decoding) and the operation endpoint's reply. */
  function Execute(cfg: Config, cache: Option<TokenReply>, plan: Plan,
                   tokenReply: Exchange, decoded: TokenReply, reply: Exchange): (o: Outcome)
    ensures plan.Reject? ==> o == Outcome(Failure(plan.error), [], cache)
    ensures plan.Skip? ==> o == Outcome(Success(""), [], cache)
    ensures plan.Send? && plan.shape.Anonymous? ==> o.cache == cache && |o.sent| <= 1
    ensures plan.Send? && plan.shape.Anonymous? && Sendable(plan) ==>
              o.sent == [Prepare(plan.url, plan.verb, plan.data, []).value]
    ensures plan.Send? && plan.shape.Bearer? ==>
              1 <= |o.sent| <= 2 && o.sent[0] == TokenRequest(cfg, true, cache) &&
              o.cache == Stored(cache, ReplyOutcome(tokenReply, decoded))
    ensures plan.Send? && plan.shape.Bearer? && ReplyOutcome(tokenReply, decoded).Rejected? ==>
              o == Outcome(Failure(ReplyOutcome(tokenReply, decoded).error), [TokenRequest(cfg, true, cache)], cache)
    ensures Sendable(plan) && plan.Send? && (plan.shape.Anonymous? || ReplyOutcome(tokenReply, decoded).Granted?) ==>
              o.result == Answer(plan.shape, reply)
    ensures Usable(cache) ==> Usable(o.cache)
  {
    match plan
    case Reject(e) => Outcome(Failure(e), [], cache)
    case Skip => Outcome(Success(""), [], cache)
    case Send(url, verb, data, Anonymous) =>
      var call := CallRequest(url, verb, data, Anonymous, "");
      if call.Failure? then Outcome(Failure(call.error), [], cache)
      else Outcome(Answer(Anonymous, reply), [call.value], cache)
    case Send(url, verb, data, Bearer(secret, trim)) =>
      var tokenCall := TokenRequest(cfg, true, cache);
      var granted := ReplyOutcome(tokenReply, decoded);
      if granted.Rejected? then Outcome(Failure(granted.error), [tokenCall], cache)
      else
        var cache' := Stored(cache, granted);
        var call := CallRequest(url, verb, data, Bearer(secret, trim), granted.accessToken);
        if call.Failure? then Outcome(Failure(call.error), [tokenCall], cache')
        else Outcome(Answer(Bearer(secret, trim), reply), [tokenCall, call.value], cache')
  }

  /** Validation comes before any token or network call: an operation
      that throws or returns "" sends nothing and keeps the cached token. */
  lemma ValidationBeforeNetwork(cfg: Config, cache: Option<TokenReply>, plan: Plan,
                                tokenReply: Exchange, decoded: TokenReply, reply: Exchange)
    requires !plan.Send?
    ensures Execute(cfg, cache, plan, tokenReply, decoded, reply).sent == []
    ensures Execute(cfg, cache, plan, tokenReply, decoded, reply).cache == cache
  {
  }

  /** An authenticated call with a granted token sends the token request
      and then the operation's request, which carries the secret and the
      access token (trimmed where the operation trims it) as bearer. */
  lemma BearerCallCarriesToken(cfg: Config, cache: Option<TokenReply>, plan: Plan,
                               tokenReply: Exchange, decoded: TokenReply, reply: Exchange)
    requires plan.Send? && plan.shape.Bearer? && Sendable(plan)
    requires ReplyOutcome(tokenReply, decoded).Granted?
    ensures var o := Execute(cfg, cache, plan, tokenReply, decoded, reply);
            var token := decoded.accessToken.value;
            o.sent == [TokenRequest(cfg, true, cache),
                       Prepare(plan.url, plan.verb, plan.data,
                               AuthHeaders(plan.shape.secret, if plan.shape.trim then Trim(token) else token)).value] &&
            o.sent[1].headers == AuthHeaders(plan.shape.secret, if plan.shape.trim then Trim(token) else token) &&
            o.cache == Some(decoded)
  {
  }

  /** The feed call is the only request it makes, with no headers at all,
      so no bearer token, and the cache is untouched. */
  lemma FeedCallIsAnonymous(cfg: Config, cache: Option<TokenReply>, secret: string, provider: string, config: string,
                            tokenReply: Exchange, decoded: TokenReply, reply: Exchange)
    requires !EmptyString(secret) && !EmptyString(provider) && !EmptyString(config)
    ensures var o := Execute(cfg, cache, ProductFeed(cfg, secret, provider, config), tokenReply, decoded, reply);
            |o.sent| == 1 && o.sent[0].headers == [] && o.sent[0].body == None &&
            o.cache == cache && o.result == Interpret(reply)
  {
  }

  /** A failed exchange or HTTP 400 on the operation's own call surfaces as
      CurlFailed; an empty body fails an authenticated operation, while
      the feed returns it. */
  lemma ReplyFailuresSurface(cfg: Config, cache: Option<TokenReply>, plan: Plan,
                             tokenReply: Exchange, decoded: TokenReply, reply: Exchange)
    requires plan.Send? && Sendable(plan)
    requires plan.shape.Anonymous? || ReplyOutcome(tokenReply, decoded).Granted?
    ensures var o := Execute(cfg, cache, plan, tokenReply, decoded, reply);
            (reply.Failed? || reply.code == 400 ==> o.result == Failure(CurlFailed)) &&
            (reply.Status? && reply.code != 400 && EmptyString(reply.body) ==>
               o.result == if plan.shape.Bearer? then Failure(EmptyResponse) else Success(reply.body)) &&
            (reply.Status? && reply.code != 400 && !EmptyString(reply.body) ==> o.result == Success(reply.body))
  {
  }

  /** A GET operation sends no body and appends "?" and its data to the URL,
      the "?" even when the data is empty. */
  lemma GetSendsNoBody(cfg: Config, cache: Option<TokenReply>, plan: Plan,
                       tokenReply: Exchange, decoded: TokenReply, reply: Exchange)
    requires plan.Send? && Sendable(plan) && Lower(plan.verb) == "get"
    requires plan.shape.Anonymous? || ReplyOutcome(tokenReply, decoded).Granted?
    ensures var o := Execute(cfg, cache, plan, tokenReply, decoded, reply);
            |o.sent| >= 1 && o.sent[|o.sent| - 1].body == None &&
            o.sent[|o.sent| - 1].url == plan.url + "?" + Text(Payload(plan.data))
  {
  }

  /** A single product reference and the one-element list holding it give
      the same request: callers need not know which form they pass. */
  lemma StockStatusSingleOrList(cfg: Config, secret: string, productRef: Value)
    requires !IsArray(productRef) && !Empty(productRef)
    ensures StockStatus(cfg, secret, productRef) == StockStatus(cfg, secret, List([productRef]))
  {
  }

  lemma CrossUpSellSingleOrList(cfg: Config, secret: string, language: string, products: Value)
    requires !IsArray(products) && !Empty(products)
    ensures CrossUpSell(cfg, secret, language, products) == CrossUpSell(cfg, secret, language, List([products]))
  {
  }

  /** `getStockStatus` with a single product reference sends the JSON body
      {"productRefs":["<reference>"]}. */
  lemma StockStatusBodyExample(cfg: Config, secret: string, productRef: string)
    requires !EmptyString(secret) && !EmptyString(productRef)
    ensures StockStatus(cfg, secret, Str(productRef)).data
            == Str("{\"productRefs\":[\"" + productRef + "\"]}")
  {
    var plan := StockStatus(cfg, secret, Str(productRef));
    assert plan.data == JsonBody([("productRefs", List([Str(productRef)]))]);
    var refs := ListOfOne(productRef);
    var body := FieldsOfOne("productRefs", List([Str(productRef)]), refs);
    assert body == "{\"productRefs\":[\"" + productRef + "\"]}";
  }

  /** With a granted token, `getStockStatus` for one product reference puts on
      the wire the token request and then a POST to the stock endpoint whose
      body is {"productRefs":["<reference>"]} and whose headers carry the
      secret and the access token. */
  lemma StockStatusOnTheWire(cfg: Config, cache: Option<TokenReply>, secret: string, productRef: string,
                             tokenReply: Exchange, decoded: TokenReply, reply: Exchange)
    requires !EmptyString(secret) && !EmptyString(productRef)
    requires ReplyOutcome(tokenReply, decoded).Granted?
    ensures Execute(cfg, cache, StockStatus(cfg, secret, Str(productRef)), tokenReply, decoded, reply).sent
            == [TokenRequest(cfg, true, cache),
                Request("POST", cfg.urls.host + "/connect/stock",
                        Some("{\"productRefs\":[\"" + productRef + "\"]}"),
                        AuthHeaders(secret, decoded.accessToken.value))]
  {
    var plan := StockStatus(cfg, secret, Str(productRef));
    BearerCallCarriesToken(cfg, cache, plan, tokenReply, decoded, reply);
    StockStatusBodyExample(cfg, secret, productRef);
    var body := "{\"productRefs\":[\"" + productRef + "\"]}";
    assert body[0] == '{';
    assert !Empty(Payload(plan.data));
    assert MethodFor("post") == "POST";
  }

  /** A one-element list of one string encodes as that string quoted in brackets. */
  lemma ListOfOne(s: string) returns (text: string)
    ensures text == "[\"" + s + "\"]"
    ensures JsonEncode(List([Str(s)])) == text
  {
    var items := [Str(s)];
    var parts := seq(|items|, i requires 0 <= i < |items| => JsonEncode(items[i]));
    assert parts == ["\"" + s + "\""];
    assert Join(parts, ",") == "\"" + s + "\"";
    text := "[\"" + s + "\"]";
  }

  /** A one-field object encodes as its quoted key, a colon and its value. */
  lemma FieldsOfOne(key: string, v: Value, encoded: string) returns (body: string)
    requires JsonEncode(v) == encoded
    ensures body == "{\"" + key + "\":" + encoded + "}"
    ensures JsonBody([(key, v)]) == Str(body)
  {
    body := "{\"" + key + "\":" + encoded + "}";
    var entries := [(key, v)];
    var parts := seq(|entries|, i requires 0 <= i < |entries| =>
                       "\"" + entries[i].0 + "\":" + JsonEncode(entries[i].1));
    assert parts == ["\"" + key + "\":" + encoded];
    assert Join(parts, ",") == "\"" + key + "\":" + encoded;
  }

  /** The feed's query string lists its three fields in order. */
  lemma FeedQuery(secret: string, provider: string, config: string)
    ensures Payload(Assoc([("secret", Str(secret)), ("provider", Str(provider)), ("config", Str(config))]))
            == Str("secret=" + secret + "&provider=" + provider + "&config=" + config)
  {
    var entries := [("secret", Str(secret)), ("provider", Str(provider)), ("config", Str(config))];
    assert entries[1..][1..] == [("config", Str(config))];
    assert entries[1..][1..][1..] == [];
    assert "config" + "=" == "config=";
    assert "provider" + "=" == "provider=";
    assert "secret" + "=" == "secret=";
    assert QueryFields(entries[1..][1..]) == ["config=" + config];
    assert QueryFields(entries[1..]) == ["provider=" + provider, "config=" + config];
    var parts := ["secret=" + secret, "provider=" + provider, "config=" + config];
    assert QueryFields(entries) == parts;
    assert parts[1..][1..] == ["config=" + config];
    assert Join(parts[1..], "&") == "provider=" + provider + "&" + "config=" + config;
    assert "&" + "provider=" == "&provider=";
    assert "&" + "config=" == "&config=";
  }

  /** A non-numeric reason code is refused and nothing is sent, whatever the
      comment; the comment itself is never required. */
  lemma CancelOrderValidation(cfg: Config, secret: string, partnerOrderNumber: string, reasonCode: Value,
                              comment: string, cache: Option<TokenReply>,
                              tokenReply: Exchange, decoded: TokenReply, reply: Exchange)
    ensures CancelOrder(cfg, secret, partnerOrderNumber, reasonCode, comment).Reject? ==
            CancelOrder(cfg, secret, partnerOrderNumber, reasonCode, "").Reject?
    ensures !IsNumeric(reasonCode) ==>
              Execute(cfg, cache, CancelOrder(cfg, secret, partnerOrderNumber, reasonCode, comment), tokenReply, decoded, reply)
              == Outcome(Failure(MissingParameter("Secret or partnerOrderNumber Missing. reasonCode Must be int")), [], cache)
  {
  }

  /** The class calls `generateAccessTokens(true, true)`, which it does not
      define: as written PHP stops every authenticated operation with a
      fatal error once validation has passed, before any request. */
  function ExecuteAsWritten(cfg: Config, cache: Option<TokenReply>, plan: Plan,
                            tokenReply: Exchange, decoded: TokenReply, reply: Exchange): (o: Outcome)
    ensures plan.Send? && plan.shape.Bearer? ==>
              o == Outcome(Failure(UndefinedMethod("generateAccessTokens")), [], cache)
    ensures !(plan.Send? && plan.shape.Bearer?) ==> o == Execute(cfg, cache, plan, tokenReply, decoded, reply)
  {
    if plan.Send? && plan.shape.Bearer? then Outcome(Failure(UndefinedMethod("generateAccessTokens")), [], cache)
    else Execute(cfg, cache, plan, tokenReply, decoded, reply)
  }

  /** The discrepancy: with a granted token and a good answer, the stock
      query succeeds after two requests when the bearer comes from
      `getUserToken(true, true)`, and fails with nothing sent as written. */
  lemma BearerSourceDiscrepancy(cfg: Config, cache: Option<TokenReply>, secret: string, productRef: Value,
                                tokenReply: Exchange, decoded: TokenReply, reply: Exchange)
    requires !EmptyString(secret) && !Empty(productRef)
    requires ReplyOutcome(tokenReply, decoded).Granted?
    requires reply.Status? && reply.code != 400 && !EmptyString(reply.body)
    ensures var plan := StockStatus(cfg, secret, productRef);
            ExecuteAsWritten(cfg, cache, plan, tokenReply, decoded, reply).result
              == Failure(UndefinedMethod("generateAccessTokens")) &&
            ExecuteAsWritten(cfg, cache, plan, tokenReply, decoded, reply).sent == [] &&
            Execute(cfg, cache, plan, tokenReply, decoded, reply).result == Success(reply.body) &&
            |Execute(cfg, cache, plan, tokenReply, decoded, reply).sent| == 2
  {
    BearerCallCarriesToken(cfg, cache, StockStatus(cfg, secret, productRef), tokenReply, decoded, reply);
  }
}
