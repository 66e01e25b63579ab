# TwitchAlertsCSharpAPI — a Dafny model of the client core

`TwitchAlertsAPI` is a C# client for the Streamlabs (formerly TwitchAlerts)
REST API. A client object holds the application's credentials, the scope
it asks for and, after an OAuth2 authorization-code exchange, an access
token and a refresh token. With these it reads the user's info, lists
donations one page at a time or all of them, creates donations and alerts,
and fetches the legacy token. Every response goes through `Check`, which
turns a non-OK status or a transport exception into a
`TwitchAlertsException`.

This project models that core as pure functions over immutable data:

- **Session.** `Client.Session` is the client object's state. Every
  operation takes a session and returns a new one, or a `Call`: the
  requests handed to the transport, in order, plus what the operation
  returned or raised.
- **Transport.** The transport is a parameter: a function from a request
  to a response (status, transport exception, raw body, deserialized
  payload). It comes with the deserializer for error bodies.
- **Null.** C# `null` is `Option.None`.
- **Exceptions.** The exceptions the client's own logic raises are a
  `ClientError`:
  - the check's `TwitchAlertsException`;
  - a null dereference;
  - a failed `Convert.ToInt32`.

  Exceptions from framework code the model leaves out are not modelled:
  `new Uri` in the constructor, and the JSON deserializers (see "Left
  out").
- **Integers.** Integers are `int32`/`int64` newtypes. C#'s truncating
  `/` and `%` are written out.
- **Enums.** `CurrencyCode` and `AlertType` are 32-bit integers with
  named members, as C# enums are, so an unnamed value still flows through
  the `default` branch and `Enum.ToString`. `TwitchScope` is a `bv32`
  flag set.
- **Async twins.** Each `*Async` method shares its synchronous twin's
  model, selected by `Flavor`. Their bodies differ in two places:
  - `GetDonationAsync` accepts a limit only below 100;
  - `CreateDonationAsync` sends a formatted `created_at` instead of a Unix
    `datetime`.

  Their default arguments differ in one method. `GetDonation` defaults to
  `limit = 50` and `currency = USD`, while `GetDonationAsync` defaults
  both to null. The model has no default arguments: every argument is
  explicit, so the defaults appear only under "Left out".

Modules, in dependency order:

| module | file | contents |
|---|---|---|
| `Wrappers` | wrappers.dfy | `Option`, `Result` |
| `Conversions` | conversions.dfy | `int32`, truncating division, `ToString`, `Convert.ToInt32` |
| `Text` | text.dfy | space-joining and `Split(' ')` |
| `Enums` | enums.dfy | `TwitchScope`, `CurrencyCode`, `AlertType` |
| `Rest` | rest.dfy | requests, responses, `GetSpecificUri` |
| `Scope` | scope.dfy | the authorize request's scope string |
| `NetTypes` | nettypes.dfy | `TimeSpan`, `DateTime`, `Color`, framework formatters |
| `Models` | models.dfy | the JSON payload classes |
| `Errors` | errors.dfy | `TwitchAlertsException`, `Check`, `Execute` |
| `Requests` | requests.dfy | the request every operation builds |
| `Client` | client.dfy | the session, the token calls, the single-request operations |
| `Pagination` | pagination.dfy | `GetAllDonations` |

The model follows the code in places where the code departs from what a
caller would expect:

- **No token.** An operation without an access token returns
  `default(T)`, `0`, `false` or `""` and sends nothing. It does not raise
  a precondition error.
- **Refresh with no refresh token.** The refresh posts the refresh token
  even when it is null. There is no local check.
- **Duration.** An alert's duration is sent as `TimeSpan.Seconds`, the
  seconds component, not as the total number of seconds.
- **Large limits.** A limit above 100 (100 or more in the async twin) is
  neither rejected nor clamped. The `limit` parameter is simply left out.
- **Token overwrite.** Both tokens are overwritten from the reply, which
  may hold null in either field. Nothing keeps them "both present or both
  absent".

## Model

| member | source | states |
|---|---|---|
| Rest.SpecificUriInjective | TwitchAlertsCSharpAPI/TwitchAlertsAPI.cs:460-463 | Distinct sections give distinct endpoint addresses. The section is recovered from an address by dropping the base URI. |
| Enums.CurrencyCodeToString | TwitchAlertsCSharpAPI/TwitchAlertsAPI.cs:477-528 | Each of the 22 named currencies gets the display name listed for it in declaration order, including the misspelt "Austrailian Dollar". The name is non-empty exactly for named members; any other value gets the empty string. |
| Enums.CurrencyNamesDistinct | TwitchAlertsCSharpAPI/TwitchAlertsAPI.cs:477-528 | No two named currencies share a display name. |
| Enums.CurrencyWireName | TwitchAlertsCSharpAPI/TwitchAlertsAPI.cs:667-778 | `CurrencyCode.ToString()` gives the member's three-letter symbol in declaration order. A value no member names gives its decimal digits. |
| Enums.CurrencyWireNameInjective | TwitchAlertsCSharpAPI/TwitchAlertsAPI.cs:667-778 | No two currency codes go on the wire under the same name. Member symbols are pairwise distinct capitalised words, and two unnamed values print differently. |
| Enums.CurrencyWireNameParses | TwitchAlertsCSharpAPI/TwitchAlertsAPI.cs:667-778 | A currency code no member names is sent as its decimal value, which `Int32.Parse` reads back as that same value. |
| Enums.AlertWireNameInjective | TwitchAlertsCSharpAPI/TwitchAlertsAPI.cs:780-786 | No two alert types go on the wire under the same name: a member name never starts with a digit or a minus sign, and two unnamed values print differently. |
| Enums.AlertWireNameParses | TwitchAlertsCSharpAPI/TwitchAlertsAPI.cs:780-786 | An alert type outside 0..3 is sent as its decimal value, which `Int32.Parse` reads back as that same value. |
| Scope.GrantedContains | TwitchAlertsCSharpAPI/TwitchAlertsAPI.cs:55-73 | Each scope token is among the granted tokens exactly when its flag is set. The list is empty exactly when no flag is set. |
| Scope.ScopeStringIsJoin | TwitchAlertsCSharpAPI/TwitchAlertsAPI.cs:54-74 | The four flag tests, each adding a space only after a non-empty prefix, build exactly the granted tokens joined by single spaces. The order is alerts.create, donations.create, donations.read, legacy.token. |
| Scope.ScopeStringTokens | TwitchAlertsCSharpAPI/TwitchAlertsAPI.cs:54-75 | Splitting the scope string on spaces gives back the granted tokens, so each token is present exactly when its flag is set. The string is empty exactly when no flag is set. It never starts or ends with a space. |
| Conversions.ConvertToInt32Accepts | TwitchAlertsCSharpAPI/TwitchAlertsAPI.cs:213 | `Convert.ToInt32` of null is 0. Text converts exactly when, after trimming white space, it is one optional sign and one or more decimal digits whose value fits in Int32, and then it gives that value. Other text is a format error. A well-formed value out of range is an overflow error. |
| Conversions.ConvertPaddedIntToString | TwitchAlertsCSharpAPI/TwitchAlertsAPI.cs:213 | Every Int32's decimal text, with any white space around it, converts back to that Int32. |
| Conversions.ParseIntToString | TwitchAlertsCSharpAPI/TwitchAlertsAPI.cs:244-246 | Every Int32 the client prints into a query parses back to itself. |
| NetTypes.SecondsComponentRange | TwitchAlertsCSharpAPI/TwitchAlertsAPI.cs:368 | `TimeSpan.Seconds` is the truncating `ticks / TicksPerSecond % 60`. It lies in -59..59 and has the sign of the span. |
| NetTypes.SecondsDropMinutes | TwitchAlertsCSharpAPI/TwitchAlertsAPI.cs:368 | A span of m minutes and s seconds has seconds component s, whatever m is. |
| Errors.NewTwitchAlertsException | TwitchAlertsCSharpAPI/TwitchAlertsAPI.cs:813-821 | The exception keeps the status, the raw body, the request and the inner exception. It takes the parsed `error` code. Its message is `error_description` when present, else `message`, and is null only when both are null. |
| Errors.Check | TwitchAlertsCSharpAPI/TwitchAlertsAPI.cs:452-458 | A response raises exactly when its status is not OK or the transport reported an exception. The exception carries the status, the raw body, the inner exception, the request and the parsed error code. Its message is the parsed `error_description` when present, else the parsed `message`. |
| Errors.Execute | TwitchAlertsCSharpAPI/TwitchAlertsAPI.cs:427-433 | `Execute` succeeds exactly when the response passes the check, and then hands back the possibly null payload. Otherwise it raises exactly the exception `Check` builds for that request and response, every field included. |
| Requests.AuthorizeRequest | TwitchAlertsCSharpAPI/TwitchAlertsAPI.cs:48-77 | The authorize address is GET `authorize?`. Its parameters are exactly `response_type=code`, `client_id`, `redirect_uri` and `scope`, with the session's values and the scope string. |
| Requests.TokenRequest | TwitchAlertsCSharpAPI/TwitchAlertsAPI.cs:85-99 | The token POST carries exactly `grant_type`, `client_id`, `client_secret`, `redirect_uri`, and either `code` (authorization-code grant) or `refresh_token` (refresh grant). The values are the credentials, the code, or the refresh token exactly as stored, null included. |
| Requests.DonationListRequest | TwitchAlertsCSharpAPI/TwitchAlertsAPI.cs:236-246 | The donation query always has `access_token`. `limit` is present iff a limit was given and passes the flavour's guard. `currency` is present iff given, `before` iff positive, `after` iff positive, `verified` iff above -1. Each present value is the argument's `ToString()`, and no other key is sent. |
| Requests.DonationQueryDecodes | TwitchAlertsCSharpAPI/TwitchAlertsAPI.cs:242-246 | Every numeric query value that is sent parses back to the argument it came from. |
| Requests.CreateDonationRequest | TwitchAlertsCSharpAPI/TwitchAlertsAPI.cs:286-303 | The donation body always has `access_token`, `name`, `identifier`, `amount` and `currency` with their values. `message` is present iff non-empty. A non-default date adds `datetime` (Unix seconds) in the sync flavour and `created_at` (the formatted date) in the async one. No other key is sent. |
| Requests.CreateAlertRequest | TwitchAlertsCSharpAPI/TwitchAlertsAPI.cs:352-370 | The alert body always has `access_token` and `type`. `image_href`, `sound_href` and `message` are present iff non-empty. `duration` is present iff the span is non-default and then holds its seconds component. `special_text_color` is present iff the colour is non-default and then holds its HTML form. No other key is sent. |
| Requests.AlertDurationIsSecondsComponent | TwitchAlertsCSharpAPI/TwitchAlertsAPI.cs:368 | A non-zero duration of m minutes and s seconds is sent as a `duration` that parses to s, not to 60·m + s. |
| Client.NewSession | TwitchAlertsCSharpAPI/TwitchAlertsAPI.cs:39-46 | A new client stores its credentials and scope and holds no token. |
| Client.GetAuthorizeString | TwitchAlertsCSharpAPI/TwitchAlertsAPI.cs:48-77 | The authorize URL is the base URI plus `authorize?`. Its query is exactly response type `code`, the client id, the redirect URI and the scope string of the session's scope. |
| Client.GetAccessToken | TwitchAlertsCSharpAPI/TwitchAlertsAPI.cs:85-105 | Exactly one POST: the token request with the stored credentials and the authorization-code grant for the code. It raises the check's exception exactly when the response fails. The call succeeds exactly when the response passes the check and has a payload, and then returns that payload. A reply that passes the check without a payload raises a null reference. On success the session is the old one with both tokens replaced by the reply's. On failure the session is unchanged. |
| Client.RefreshAccessToken | TwitchAlertsCSharpAPI/TwitchAlertsAPI.cs:133-152 | Exactly one POST: the token request with the stored credentials and the refresh grant for the stored refresh token, null included. It raises the check's exception exactly when the response fails. The call succeeds exactly when the response passes the check and has a payload, and then returns that payload. A reply that passes the check without a payload raises a null reference. On success the session is the old one with both tokens replaced by the reply's. On failure the session is unchanged. |
| Client.ExchangeThenRefresh | TwitchAlertsCSharpAPI/TwitchAlertsAPI.cs:101-103 | After a successful exchange, the refresh posts the refresh token the exchange received. After a successful refresh, only the refresh reply's tokens are held. |
| Client.FailedRefreshKeepsTokens | TwitchAlertsCSharpAPI/TwitchAlertsAPI.cs:148-150 | A refresh whose response fails the check raises the check's exception and leaves both tokens as they were. |
| Client.RaisedIsConstructed | TwitchAlertsCSharpAPI/TwitchAlertsAPI.cs:454-457 | Whichever operation raised it, an API exception comes from a failed response and is exactly the exception the constructor builds from that response's status, body and inner exception, the request sent, and the parsed error body. So its message is `error_description`, falling back to `message`. |
| Client.GetUserInfo | TwitchAlertsCSharpAPI/TwitchAlertsAPI.cs:183-191 | Without a token: null, nothing sent. Otherwise one GET to `user?` carrying only the token. It raises the check's exception iff the response fails, and otherwise returns the payload. |
| Client.GetDonation | TwitchAlertsCSharpAPI/TwitchAlertsAPI.cs:236-249 | Without a token: null, nothing sent. Otherwise exactly the donation query is sent. It raises the check's exception iff the response fails. Otherwise it returns the `data` list, or raises a null reference when the payload is null. |
| Client.CreateDonation | TwitchAlertsCSharpAPI/TwitchAlertsAPI.cs:286-306 | Without a token: 0, nothing sent. Otherwise exactly the donation body is posted. It raises the check's exception iff the response fails, and otherwise returns the reply's `donation_id`. |
| Client.CreateAlert | TwitchAlertsCSharpAPI/TwitchAlertsAPI.cs:352-373 | Without a token: false, nothing sent. Otherwise exactly the alert body is posted. It raises the check's exception iff the response fails, and otherwise returns the reply's `success` flag. A `false` flag is a successful call. |
| Client.GetLegacyToken | TwitchAlertsCSharpAPI/TwitchAlertsAPI.cs:407-415 | Without a token: the empty string, nothing sent. Otherwise one GET to `legacy/token` carrying only the token. It raises the check's exception iff the response fails, and otherwise returns the reply's token. |
| Client.FreshSessionSendsNothing | TwitchAlertsCSharpAPI/TwitchAlertsAPI.cs:183-409 | On a freshly constructed client, with any arguments and either flavour, every single-request resource operation sends nothing and returns its null-token default: null, null, 0, false and the empty string. |
| Pagination.PageStep | TwitchAlertsCSharpAPI/TwitchAlertsAPI.cs:212 | One loop test without a token sends nothing and stops on the null list's dereference. With a token it sends exactly the page request for its cursor. |
| Pagination.PageStepOk | TwitchAlertsCSharpAPI/TwitchAlertsAPI.cs:212-213 | With a token, one iteration sends the page request for its cursor. A failed response stops it with exactly the exception `Check` builds for that request and response. A successful response without a list stops it with a null dereference. An empty page finishes the loop. On a non-empty page it moves on with that page and the converted last id, or stops with the conversion's error. Each of these outcomes happens exactly in its case. |
| Pagination.LoopTrace | TwitchAlertsCSharpAPI/TwitchAlertsAPI.cs:211-213 | The loop sends one request per iteration, at most the bound, and all of them when the bound runs out. The first uses the starting cursor, and each is the request its iteration sends for its cursor. |
| Pagination.LoopChain | TwitchAlertsCSharpAPI/TwitchAlertsAPI.cs:213 | Each cursor after the first is linked to the request before it. |
| Pagination.LoopFinished | TwitchAlertsCSharpAPI/TwitchAlertsAPI.cs:212 | A loop that sent something finished exactly when its last response succeeded with an empty page. A loop that sent nothing did not finish. |
| Pagination.LoopCollects | TwitchAlertsCSharpAPI/TwitchAlertsAPI.cs:213 | A finished loop's collection is the concatenation, in order, of the pages its requests received. |
| Pagination.LoopStopped | TwitchAlertsCSharpAPI/TwitchAlertsAPI.cs:212-213 | A stopped loop sent something, and it stopped with one of three exceptions, each exactly in its case: exactly the exception `Check` builds for the last request when its response failed, a null dereference when that response succeeded without a list, and the conversion's own error when that page's last id does not convert. |
| Pagination.WalkUnauthenticated | TwitchAlertsCSharpAPI/TwitchAlertsAPI.cs:212 | Without a token the loop sends nothing and stops with a null reference. |
| Pagination.WalkChained | TwitchAlertsCSharpAPI/TwitchAlertsAPI.cs:211-213 | With a token, the first request is for the starting cursor. Each later request is for the page before the last id of the previous request's non-empty page. |
| Pagination.GetAllDonations | TwitchAlertsCSharpAPI/TwitchAlertsAPI.cs:207-215 | Without a token: a null reference, nothing sent. With a token, the first request has cursor 0, and each later request follows from the last id of the page before. Once anything was sent, the last response alone decides the outcome, each case exactly. A successful empty page gives the concatenation of all pages received. A failed response gives exactly the exception `Check` builds for the last request. A list-less reply gives a null dereference. A last id that does not convert gives the conversion's error. The step bound runs out only after `fuel` requests. |
| Pagination.LoopDecided | TwitchAlertsCSharpAPI/TwitchAlertsAPI.cs:211-215 | For any loop whose iterations behave as one authenticated iteration does, the last response decides how the loop ended, and the bound ran out only after `fuel` requests. |
| Pagination.AllDonationsGoodRun | TwitchAlertsCSharpAPI/TwitchAlertsAPI.cs:207-215 | Against a server that answers k non-empty pages, each ending in an id that converts and positions the next request, and then an empty page: with a bound above k, `GetAllDonations` sends k + 1 requests and returns every donation of those pages, in order. |
| Pagination.AllDonationsPages | TwitchAlertsCSharpAPI/TwitchAlertsAPI.cs:207-215 | Against a server that serves a given list of pages for a given list of cursors, starting at cursor 0, where each page but the last ends in an id that converts to the next cursor and the last page is empty: under a bound that covers the pages, `GetAllDonations` sends exactly the page requests for those cursors, in that order, and returns the concatenation of the pages. With pages of 100, 100, 37 and 0 donations, that is four requests and 237 donations. |
| Pagination.LoopWalks | TwitchAlertsCSharpAPI/TwitchAlertsAPI.cs:207-215 | The iteration itself, whatever one round does: when each round from `cursors[i]` keeps `pages[i]` and moves on to `cursors[i + 1]`, and the last round finishes, a bound that covers the rounds sends their requests in order, finishes, and collects every page in order. |
| Pagination.AllDonationsSucceeded | TwitchAlertsCSharpAPI/TwitchAlertsAPI.cs:207-215 | Conversely, whenever `GetAllDonations` succeeds, the server's answers were such a run of one page fewer than it sent. |
| Pagination.GoodRunRuns | TwitchAlertsCSharpAPI/TwitchAlertsAPI.cs:211-213 | A run of k good pages and then an empty one is exactly a run of k iterations that move on, followed by one that finishes. |
| Pagination.FreshSessionListsNothing | TwitchAlertsCSharpAPI/TwitchAlertsAPI.cs:207-212 | On a freshly constructed client, with any arguments, `GetAllDonations` sends nothing and raises the null dereference of its first `Count`. |
| Pagination.PageRequestCursor | TwitchAlertsCSharpAPI/TwitchAlertsAPI.cs:244-245 | A page request carries `before` exactly when its cursor is positive, and that value parses back to the cursor. It never carries `after`. |
| Pagination.PageRequestLimit | TwitchAlertsCSharpAPI/TwitchAlertsAPI.cs:267 | A page request carries `limit=100` in the sync flavour. It carries no limit in the async flavour, because of the `< 100` guard. |
| Pagination.FirstRequestOmitsBefore | TwitchAlertsCSharpAPI/TwitchAlertsAPI.cs:211-212 | The first request of `GetAllDonations` carries neither `before` nor `after`. |
| Pagination.LaterCursorIsLastId | TwitchAlertsCSharpAPI/TwitchAlertsAPI.cs:212-213 | Every later request of `GetAllDonations` comes after a successful non-empty page whose last id converts. It carries that id as `before` exactly when the id is positive. |
| Pagination.AllDonationsLimit | TwitchAlertsCSharpAPI/TwitchAlertsAPI.cs:212-222 | Every request of `GetAllDonations` carries `limit=100` in the sync flavour and no limit in the async one. |

## Left out

- HTTP and RestSharp are not modelled. The transport is a parameter, as
  are `BuildUri`'s query encoding and base-URL handling; the model keeps
  the URL and the parameters unencoded.
- JSON is not modelled. Deserializing a reply is part of the transport's
  answer, and deserializing an error body is a parameter. Exceptions the
  deserializer itself might throw are not modelled.
- Parameter order is not kept. Parameters are a map from key to value.
  The client never adds a key twice, so the order matters to nobody.
- The status is kept as an `int`. `HttpStatusCode.ToString()`, used as
  the base `Exception.Message` (not `RESTMessage`), is not modelled.
- .NET formatting the client calls but does not define is supplied as
  functions: `double.ToString()`, `ColorTranslator.ToHtml`, `ToUnixTime`
  (through the local time zone), and `DateTime.ToString("MM/dd/yyyy h:mm t")`.
  `FromUnixTime`, the `CreatedAt` getter and `DateTime.Kind` are not
  modelled.
- `Debug.Print` and `Debug.WriteLine` output is left out.
- `ExecuteAsString` is not modelled: no operation calls it. The
  `CancellationTokenSource` of `ExecuteAsync` is not modelled either: it
  is never cancelled.
- Concurrency between calls on one client is not modelled. Each call is
  a function from one session to the next.
- A null string argument (a null name, image address, etc.) is not
  modelled. Strings are values, and only the source's nullable fields are
  `Option`.
- `new Uri(redirecturi)` is not modelled: the redirect URI is kept as the
  original string the client sends. The constructor's `UriFormatException`
  for a malformed redirect URI is therefore never raised.
- Default arguments are not modelled. The differing defaults of the twins
  (`GetDonation`: `limit = 50`, `currency = USD`; `GetDonationAsync`:
  both null) are left to the caller, who passes every argument.
- Floating point is not modelled. A donation's `double` amount is a
  `real`, so NaN and the infinities cannot be passed, and
  `double.ToString()` is a supplied formatter.
- Conversions.ConvertToInt32Accepts: the signs are fixed to '-' and '+',
  and trailing NUL characters are rejected. `Int32.Parse` under the
  current culture uses that culture's sign strings and ignores trailing
  '\0' characters. The contract is stated for the invariant-culture
  reading only. Printing is fixed the same way: `IntToString` writes a
  negative number with '-', whereas `int.ToString()` in the source (a
  negative limit or cursor, a Unix time, an unnamed enum value) uses the
  current culture's `NegativeSign`.
- The demo console and desktop applications are not part of this model.
- Pagination.GetAllDonations: the loop runs for at most `fuel`
  iterations and reports `FuelExhausted` when they run out. The source's
  loop is unbounded: a server that keeps returning pages, or a last id of
  0 or below, which restarts paging from the newest page, makes it loop
  forever. The contract says only that `FuelExhausted` comes after `fuel`
  requests, not what the bound cut off.
