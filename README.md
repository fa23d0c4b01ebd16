# NexwayConnect, modelled in Dafny

`NexwayConnect` is a PHP client for the Nexway Connect e-commerce REST API.
It holds a pair of client credentials, the three base URLs of one
environment (API host, product feed, token endpoint), and one mutable
field: the decoded reply of the last granted token request. Thirteen
domain operations (stock, cross/up-sell, orders, subscriptions, catalog,
product feed) validate their inputs, fetch a bearer token, and call one
generic executor, `getCurlResponse`.

This project models that core with the transport replaced by values.
A reply from the server is `Exchange`: either `Failed` or
`Status(code, body)`. Each method takes the replies it would get as
inputs and returns the `Request`s it would hand to cURL. So "no network
call" reads `sent == []`.

Modules, one per concern:

- `Wrappers`: `Option` and `Result`.
- `Php`: the PHP semantics the class relies on. This covers the dynamic
  `Value` type, `empty` (`""` and `"0"` are empty, so is an empty array),
  `is_array`, `is_numeric`, `strtolower` and `trim`. It also has
  deterministic stand-ins for `json_encode` and `http_build_query`.
- `Errors`: one constructor per exception the class throws, with its message.
- `Curl`: `getCurlResponse`. `Prepare` is the checks and request building
  before `curl_exec`; `Interpret` reads the exchange after it.
- `Tokens`: the constructor's configuration, the grant request, the
  classification of the token reply, and the cache transitions of
  `getUserToken` and `invalidateToken`. The transitions are also written as a
  state machine over event traces (`Step`, `Run`), with invariants proved
  over every trace.
- `Operations`: each domain operation's validation and request shape as a
  `Plan`, and `Execute`, the template every operation follows.
- `Client`: the class `NexwayConnect`. Its configuration fields are fixed by
  the constructor and its `token` field is updated by its methods. Every
  method is proved equal to the functions above.

Behaviour of the code worth noting, which the model reproduces:

- `invalidateToken` unsets the token only after the reset call returns (NexwayConnect.php:89-90).
  When `getCurlResponse` throws (failure or HTTP 400), the old token stays.
- The staging token endpoint is `https://api.staging.nexway.build`, which is a
  different host from the staging API host `https://api-uat.staging.nexway.build` (NexwayConnect.php:39-41).
- `updateDownloadTime` tests a variable `$secret` that it never defines (NexwayConnect.php:287).
  PHP reads it as null, which is empty, so every call throws before any
  request. The model reproduces this.
- `getProductFeed` returns `""` instead of throwing when an input is empty.
  It fetches no token and sends no headers; it returns the raw body,
  empty or not.
- `cancelOrder` is the only operation that passes the bearer token through
  `trim`.
- The domain methods fetch their bearer token with
  `generateAccessTokens(true, true)`, which the class does not define. The
  model calls `getUserToken(true, true)` instead (see Findings).

## Model

| member | source | states |
|---|---|---|
| Tokens.EndpointsFor | NexwayConnect.php:39-41 | all three base URLs are the staging ones exactly when the flag is set and the production ones otherwise; a staging host never comes with a production feed or token URL |
| Tokens.Configure | NexwayConnect.php:31-42 | construction fails with the credentials error exactly when the client secret or the realm name is PHP-empty; otherwise it keeps both credentials, the flag and the flag's URLs |
| Client.Connect | NexwayConnect.php:31-42 | the constructor with its check: fails when either credential is PHP-empty; otherwise a fresh client with no token whose configuration is `Configure`'s |
| Client.NexwayConnect.constructor | NexwayConnect.php:36-41 | the field assignments leave a valid client with no token and the configuration `Configure` gives |
| Tokens.GrantParams | NexwayConnect.php:57-66 | the grant type is `refresh_token` with a `refreshToken` field holding the cached refresh token exactly when refresh is asked for and the cache has a non-empty refresh token; otherwise it is `client_credentials` with no `refreshToken` field, whatever `refresh` is; both credentials always present, and no other field |
| Tokens.TokenRequest | NexwayConnect.php:56-69 | the token request always passes the executor's checks and is a POST to the token base plus `/iam/tokens` with the JSON grant parameters and the JSON content-type header |
| Tokens.Classify | NexwayConnect.php:70-79 | a reply is granted exactly when its body is non-empty and it decodes to an object with no `error` field and a non-empty access token; otherwise it is rejected, checked in source order: empty body, then not an object, then an `error` field (with its message, even beside an access token), then "Token Not Found" |
| Tokens.ReplyOutcome | NexwayConnect.php:67-79 | transport failure or HTTP 400 rejects with the cURL error before anything is decoded; any other answer is read by `Classify` on its body, so the empty-body, not-an-object, auth-error and token-not-found rejections all reach `getUserToken`; a granted reply is one the client accepts as a token |
| Tokens.AcquireResult | NexwayConnect.php:70-79 | `getUserToken` throws exactly on a rejected reply; on success it returns the access token when `$return` is set and null otherwise |
| Tokens.Stored | NexwayConnect.php:75-76 | the cache changes only on a granted reply, and then holds the whole reply; a usable cache stays usable |
| Tokens.ResetRequest | NexwayConnect.php:88-89 | the reset request always passes the executor's checks: a body-less DELETE to the host plus `/iam/tokens/reset` with no headers |
| Tokens.AfterReset | NexwayConnect.php:86-91 | after a reset call that returned, no token is held; when the call throws, the old token stays |
| Tokens.RunKeepsUsable | NexwayConnect.php:53-91 | over any sequence of token fetches and resets, a cached token always has a non-empty access token and no error |
| Tokens.TokenComesFromGrant | NexwayConnect.php:53-91 | after any sequence of calls the cache is the starting one, empty, or the reply of one of those calls that was granted |
| Tokens.ResetClears | NexwayConnect.php:86-91 | whatever came before, a reset that returns ends with no token |
| Tokens.GrantEnablesRefresh | NexwayConnect.php:61-63 | after a granted reply with a non-empty refresh token, the next refreshing request uses the refresh-token grant with that token |
| Curl.Payload | NexwayConnect.php:505-507 | array data becomes exactly its `BuildQuery` string, which is not an array; other data is passed on unchanged |
| Curl.Prepare | NexwayConnect.php:498-528 | fails with "CURL Required Parameter Missing" exactly when the URL is PHP-empty or the lower-cased verb is not post/get/put/delete; the method sent is GET for get, POST for post and otherwise the verb exactly as the caller wrote it; headers pass through; GET appends "?" and the data even when the data is empty, and sends no body; other verbs keep the URL and send a body exactly when the data is non-empty |
| Curl.Interpret | NexwayConnect.php:529-535 | a failed exchange or status exactly 400 throws "CURL Failed"; every other status returns the body unchanged |
| Curl.SupportedIgnoresCase | NexwayConnect.php:500-501 | a verb is accepted exactly when its lower-case form is |
| Curl.SupportedVerbNotEmpty | NexwayConnect.php:501-504 | an accepted verb is never PHP-empty, so the default to "get" never applies |
| Client.NexwayConnect.GetCurlResponse | NexwayConnect.php:498-536 | the step-by-step executor returns the error and sends nothing exactly when `Prepare` fails; otherwise it sends `Prepare`'s request and returns `Interpret`'s reading of the exchange |
| Client.NexwayConnect.GetUserToken | NexwayConnect.php:53-80 | sends the grant request for the cache it started from, returns `AcquireResult` and stores the reply only when granted |
| Client.NexwayConnect.InvalidateToken | NexwayConnect.php:86-91 | sends the reset request; returns normally and drops the token when the exchange is not failed or 400, otherwise throws and keeps it |
| Client.NexwayConnect.Perform | NexwayConnect.php:104-121 | the shared template of the domain methods behaves as `Execute` on the same plan and cache |
| Operations.Listed | NexwayConnect.php:107 | a non-array becomes a one-element list; an array passes through unchanged |
| Operations.StockStatus | NexwayConnect.php:102-122 | throws "Secret or productRef Missing." exactly when the secret or product reference is PHP-empty; otherwise a bearer POST to `/connect/stock` with `{"productRefs": …}` of the listed references |
| Operations.CrossUpSell | NexwayConnect.php:133-156 | throws when the secret, language or products is empty; otherwise a bearer POST to `/connect/order/crossupsell` with the language and the listed products |
| Operations.CreateOrder | NexwayConnect.php:166-184 | throws when the secret or order is empty; otherwise a bearer POST to `/connect/order/new` with the order as body, unchanged |
| Operations.CancelOrder | NexwayConnect.php:196-219 | throws when the secret or order number is empty or the reason code is not numeric, with no check on the comment; otherwise a PUT to `/connect/order/cancel` with comment, order number and reason code, and a trimmed bearer |
| Operations.GetOrder | NexwayConnect.php:229-247 | throws when the secret or order id is empty; otherwise a bearer GET of `/connect/order/` plus the id, with empty data |
| Operations.GetOrderDownloadInfo | NexwayConnect.php:257-275 | throws when the secret or order id is empty; otherwise a bearer GET of `/connect/order/<id>/download` |
| Operations.UpdateDownloadTime | NexwayConnect.php:285-307 | every call throws "partnerOrderNumber of Expire date Missing.", whatever the inputs |
| Operations.ProductFeed | NexwayConnect.php:318-330 | never throws; returns "" exactly when the secret, provider or config is empty; otherwise an anonymous GET of the feed base plus `/getCatalog.xml` with the three inputs as query fields |
| Operations.Subscription | NexwayConnect.php:342-430 | the three subscription calls throw when the secret, order number or subscription id is empty; otherwise they send a bearer call with `{partnerOrderNumber, subscriptionId}` |
| Operations.GetSubscriptionStatus | NexwayConnect.php:342-364 | the subscription shape as a POST to `/connect/subscription` |
| Operations.CancelSubscription | NexwayConnect.php:375-397 | the subscription shape as a PUT to `/connect/subscription` |
| Operations.RenewSubscription | NexwayConnect.php:408-430 | the subscription shape as a PUT to `/connect/subscription/renew` |
| Operations.GetCategories | NexwayConnect.php:440-458 | throws when the secret or language is empty; otherwise a bearer GET of `/connect/catalog/categories/` plus the language |
| Operations.GetOperatingSystems | NexwayConnect.php:467-485 | throws when the secret is empty; otherwise a bearer GET of `/connect/catalog/oslist` |
| Operations.Execute | NexwayConnect.php:104-121 | a rejected or skipped plan sends nothing and keeps the cache; an anonymous plan that passes the executor's checks sends exactly its own `Prepare`d request with no headers; an authenticated plan first sends the refreshing token request for the current cache, throws the token error with the cache kept when that is rejected, and stores the granted reply otherwise; once the call is made the result is the endpoint's answer; the cache stays usable |
| Operations.ValidationBeforeNetwork | NexwayConnect.php:104-109 | an operation whose validation throws or returns "" sends no request and leaves the token as it was |
| Operations.BearerCallCarriesToken | NexwayConnect.php:109-116 | with a granted token, an authenticated operation sends exactly two requests: the token request, then its own URL, verb and data prepared with the secret and the (trimmed, for cancelOrder) access token as bearer headers; the reply is cached |
| Operations.FeedCallIsAnonymous | NexwayConnect.php:323-329 | a valid feed call sends one request with no headers and no body, keeps the cache and returns the raw answer |
| Operations.ReplyFailuresSurface | NexwayConnect.php:117-121 | a failed exchange or 400 on the operation's call throws "CURL Failed"; an empty body throws "Empty returned." for an authenticated operation and is returned by the feed; a non-empty body is returned |
| Operations.GetSendsNoBody | NexwayConnect.php:518-527 | a GET operation's request has no body and its URL is the operation URL plus "?" plus its data |
| Operations.StockStatusSingleOrList | NexwayConnect.php:107-110 | a non-empty single product reference and the one-element list holding it produce the same request |
| Operations.CrossUpSellSingleOrList | NexwayConnect.php:138-144 | a non-empty single product and the one-element list holding it produce the same request |
| Operations.StockStatusBodyExample | NexwayConnect.php:107-111 | a valid stock query for one product reference `p` sends the body `{"productRefs":["p"]}` |
| Operations.StockStatusOnTheWire | NexwayConnect.php:102-116 | with a granted token, `getStockStatus` for one reference `p` sends the token request and then a POST to the host plus `/connect/stock` with body `{"productRefs":["p"]}` and the secret and access token in its headers |
| Operations.FeedQuery | NexwayConnect.php:324-328 | the feed's query string is `secret=…&provider=…&config=…`, in that order |
| Operations.CancelOrderValidation | NexwayConnect.php:198-207 | the comment never decides validation; a non-numeric reason code throws with nothing sent and the cache kept |
| Operations.ExecuteAsWritten | NexwayConnect.php:109 | as written, every authenticated operation that passes validation stops with the undefined-method error before any request |
| Operations.BearerSourceDiscrepancy | NexwayConnect.php:109 | for a valid stock query with a granted token and a good answer, the as-written call fails with nothing sent while the corrected call sends two requests and returns the answer |
| Client.NexwayConnect.GetStockStatus | NexwayConnect.php:102-122 | behaves as `Execute` on the `StockStatus` plan |
| Client.NexwayConnect.GetCrossUpSell | NexwayConnect.php:133-156 | behaves as `Execute` on the `CrossUpSell` plan |
| Client.NexwayConnect.CreateOrderCall | NexwayConnect.php:166-184 | behaves as `Execute` on the `CreateOrder` plan |
| Client.NexwayConnect.CancelOrderCall | NexwayConnect.php:196-219 | behaves as `Execute` on the `CancelOrder` plan |
| Client.NexwayConnect.GetOrderCall | NexwayConnect.php:229-247 | behaves as `Execute` on the `GetOrder` plan |
| Client.NexwayConnect.GetOrderDownloadInfoCall | NexwayConnect.php:257-275 | behaves as `Execute` on the `GetOrderDownloadInfo` plan |
| Client.NexwayConnect.UpdateDownloadTimeCall | NexwayConnect.php:285-307 | always throws the missing-parameter error and sends nothing |
| Client.NexwayConnect.GetProductFeed | NexwayConnect.php:318-330 | behaves as `Execute` on the `ProductFeed` plan and never changes the token |
| Client.NexwayConnect.GetSubscriptionStatusCall | NexwayConnect.php:342-364 | behaves as `Execute` on the `GetSubscriptionStatus` plan |
| Client.NexwayConnect.CancelSubscriptionCall | NexwayConnect.php:375-397 | behaves as `Execute` on the `CancelSubscription` plan |
| Client.NexwayConnect.RenewSubscriptionCall | NexwayConnect.php:408-430 | behaves as `Execute` on the `RenewSubscription` plan |
| Client.NexwayConnect.GetCategoriesCall | NexwayConnect.php:440-458 | behaves as `Execute` on the `GetCategories` plan |
| Client.NexwayConnect.GetOperatingSystemsCall | NexwayConnect.php:467-485 | behaves as `Execute` on the `GetOperatingSystems` plan |

## Left out

- The cURL transport: handle creation and its failure (`curl_init`), the
  header, transfer, timeout (30 s) and TLS-verification options, and
  `curl_close`. These are I/O. The outcome of the exchange is an input
  value.
- `json_decode`: the token reply arrives already decoded, as `TokenReply`,
  next to the raw exchange. Domain responses are returned as the raw body;
  the PHP returns `json_decode` of that body.
- Operations.JsonBody: the JSON wire format is a deterministic stand-in for
  `json_encode`. It does not escape strings, and it does not write `/` as `\/`.
- Curl.Payload: `http_build_query` is a deterministic stand-in. It does no
  percent-encoding, and it writes nested arrays as JSON rather than with
  bracketed keys.
- Operations.CancelOrder: `is_numeric` is approximated by "an integer, or an
  optionally signed digit string". PHP also accepts fractions, exponents and
  surrounding whitespace.
- Tokens.Classify: a token reply has four fields, each a string or absent.
  Other fields, such as expiry data, are kept in PHP but not in the model.
  Non-string field values are not modelled.
- PHP's default arguments (`""`, `""`, `true` for the constructor, and the
  like for the operations): callers pass every argument.
- Notices and warnings PHP prints (such as a reply without `message`, which
  turns into an empty description) are not modelled. Only the values that
  result are.
- The server-side effect of the token reset cannot be observed from the
  client and is not modelled.
- The domain operations' parameters other than product references, products
  and the reason code are strings, as the class documents them.

## Findings

| source | as written | input that shows it | evidently intended | confidence | as-written member | corrected member |
|---|---|---|---|---|---|---|
| NexwayConnect.php:109 | every domain method except the feed calls `generateAccessTokens(true, true)`, which the class does not define, so PHP stops with a fatal error after validation | `getStockStatus("s", "P1")` with any replies | fetch the bearer with `getUserToken(true, true)`, the class's token method | high; not executed | Operations.ExecuteAsWritten | Operations.Execute |
