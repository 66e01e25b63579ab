/** The request each operation builds: endpoint, method, and which
    parameters it carries. Required parameters are always present; an
    optional one is present exactly when its argument differs from the
    default, and absent (never sent as a placeholder) otherwise. */
module Requests {
  import opened Wrappers
  import opened Conversions
  import opened Enums
  import opened NetTypes
  import opened Rest
  import opened Scope

  /** Whether a method is the synchronous one or its `*Async` twin; they
      differ only where noted. */
  datatype Flavor = Sync | Async

  /** The authorize request behind `GetAuthorizeString`. */
  function AuthorizeRequest(clientId: string, redirectUri: string, scope: TwitchScope): (r: Request)
    ensures r.verb == GET && r.url == SpecificUri("authorize?") && r.body == map[]
    ensures r.query.Keys == {"response_type", "client_id", "redirect_uri", "scope"}
    ensures r.query["response_type"] == Some("code")
    ensures r.query["client_id"] == Some(clientId)
    ensures r.query["redirect_uri"] == Some(redirectUri)
    ensures r.query["scope"] == Some(ScopeString(scope))
  {
    var q0 := Add(map[], "response_type", "code");
    var q1 := Add(q0, "client_id", clientId);
    var q2 := Add(q1, "redirect_uri", redirectUri);
    Request(GET, SpecificUri("authorize?"), Add(q2, "scope", ScopeString(scope)), map[])
  }

  /** The two OAuth grants the token endpoint accepts. */
  datatype Grant = AuthorizationCode(code: string) | RefreshGrant(refreshToken: Option<string>)

  /** The token request of `GetAccessToken` and `RefreshAccessToken`: the
      client credentials, then the code or the (possibly null) refresh token. */
  function TokenRequest(clientId: string, clientSecret: string, redirectUri: string, grant: Grant): (r: Request)
    ensures r.verb == POST && r.url == SpecificUri("token") && r.query == map[]
    ensures r.body.Keys == {"grant_type", "client_id", "client_secret", "redirect_uri",
                            if grant.AuthorizationCode? then "code" else "refresh_token"}
    ensures r.body["grant_type"] == Some(if grant.AuthorizationCode? then "authorization_code" else "refresh_token")
    ensures r.body["client_id"] == Some(clientId)
    ensures r.body["client_secret"] == Some(clientSecret)
    ensures r.body["redirect_uri"] == Some(redirectUri)
    ensures grant.AuthorizationCode? ==> r.body["code"] == Some(grant.code)
    ensures grant.RefreshGrant? ==> r.body["refresh_token"] == grant.refreshToken
  {
    var grantType := if grant.AuthorizationCode? then "authorization_code" else "refresh_token";
    var b0 := Add(map[], "grant_type", grantType);
    var b1 := Add(b0, "client_id", clientId);
    var b2 := Add(b1, "client_secret", clientSecret);
    var b3 := Add(b2, "redirect_uri", redirectUri);
    var lastKey := if grant.AuthorizationCode? then "code" else "refresh_token";
    var lastValue := if grant.AuthorizationCode? then Some(grant.code) else grant.refreshToken;
    var body := Put(b3, lastKey, lastValue);
    Request(POST, SpecificUri("token"), map[], body)
  }

  /** A read request that carries only the access token. */
  function TokenOnlyRequest(section: string, accessToken: string): (r: Request)
    ensures r.verb == GET && r.url == SpecificUri(section) && r.body == map[]
    ensures r.query == map["access_token" := Some(accessToken)]
  {
    Request(GET, SpecificUri(section), Add(map[], "access_token", accessToken), map[])
  }

  /** `GetUserInfo`'s request. */
  function UserInfoRequest(accessToken: string): Request {
    TokenOnlyRequest("user?", accessToken)
  }

  /** `GetLegacyToken`'s request. */
  function LegacyTokenRequest(accessToken: string): Request {
    TokenOnlyRequest("legacy/token", accessToken)
  }

  /** The limit guard: at most 100 for `GetDonation`, below 100 for
      `GetDonationAsync`. */
  predicate LimitAccepted(limit: int32, flavor: Flavor) {
    if flavor == Sync then limit <= 100 else limit < 100
  }

  /** `GetDonation`'s query. */
  function DonationListRequest(accessToken: string, limit: Option<int32>, currency: Option<CurrencyCode>,
                               before: int32, after: int32, verified: int32, flavor: Flavor): (r: Request)
    ensures r.verb == GET && r.url == SpecificUri("donations") && r.body == map[]
    ensures "access_token" in r.query && r.query["access_token"] == Some(accessToken)
    ensures "limit" in r.query <==> limit.Some? && LimitAccepted(limit.value, flavor)
    ensures "currency" in r.query <==> currency.Some?
    ensures "before" in r.query <==> before > 0
    ensures "after" in r.query <==> after > 0
    ensures "verified" in r.query <==> verified > -1
    ensures "limit" in r.query ==> r.query["limit"] == Some(IntToString(limit.value as int))
    ensures "currency" in r.query ==> r.query["currency"] == Some(CurrencyWireName(currency.value))
    ensures "before" in r.query ==> r.query["before"] == Some(IntToString(before as int))
    ensures "after" in r.query ==> r.query["after"] == Some(IntToString(after as int))
    ensures "verified" in r.query ==> r.query["verified"] == Some(IntToString(verified as int))
    ensures r.query.Keys <= {"access_token", "limit", "currency", "before", "after", "verified"}
  {
    DonationQueryFilterKeys(accessToken, limit, currency, before, after, verified, flavor);
    DonationQueryCursorKeys(accessToken, limit, currency, before, after, verified, flavor);
    DonationQueryFilterValues(accessToken, limit, currency, before, after, verified, flavor);
    DonationQueryCursorValues(accessToken, limit, currency, before, after, verified, flavor);
    Request(GET, SpecificUri("donations"), DonationQuery(accessToken, limit, currency, before, after, verified, flavor), map[])
  }

  /** The donation list query, parameter by parameter in the order the client adds them. */
  function DonationQuery(accessToken: string, limit: Option<int32>, currency: Option<CurrencyCode>,
                          before: int32, after: int32, verified: int32, flavor: Flavor): Params
  {
    var q0 := Add(map[], "access_token", accessToken);
    var q1 := AddIf(q0, limit.Some? && LimitAccepted(limit.value, flavor), "limit",
                    if limit.Some? then IntToString(limit.value as int) else "");
    var q2 := AddIf(q1, currency.Some?, "currency", if currency.Some? then CurrencyWireName(currency.value) else "");
    var q3 := AddIf(q2, before > 0, "before", IntToString(before as int));
    var q4 := AddIf(q3, after > 0, "after", IntToString(after as int));
    AddIf(q4, verified > -1, "verified", IntToString(verified as int))
  }

  /** Which of the filter parameters are sent. */
  lemma DonationQueryFilterKeys(accessToken: string, limit: Option<int32>, currency: Option<CurrencyCode>,
                          before: int32, after: int32, verified: int32, flavor: Flavor)
    ensures var q := DonationQuery(accessToken, limit, currency, before, after, verified, flavor);
      && "access_token" in q
      && ("limit" in q <==> limit.Some? && LimitAccepted(limit.value, flavor))
      && ("currency" in q <==> currency.Some?)
      && ("verified" in q <==> verified > -1)
  {
  }

  /** Which of the paging cursors are sent, and that nothing else is. */
  lemma DonationQueryCursorKeys(accessToken: string, limit: Option<int32>, currency: Option<CurrencyCode>,
                          before: int32, after: int32, verified: int32, flavor: Flavor)
    ensures var q := DonationQuery(accessToken, limit, currency, before, after, verified, flavor);
      && ("before" in q <==> before > 0)
      && ("after" in q <==> after > 0)
      && q.Keys <= {"access_token", "limit", "currency", "before", "after", "verified"}
  {
  }

  lemma DonationQueryFilterValues(accessToken: string, limit: Option<int32>, currency: Option<CurrencyCode>,
                          before: int32, after: int32, verified: int32, flavor: Flavor)
    ensures var q := DonationQuery(accessToken, limit, currency, before, after, verified, flavor);
      && ("access_token" in q ==> q["access_token"] == Some(accessToken))
      && ("limit" in q ==> q["limit"] == Some(IntToString(limit.value as int)))
      && ("currency" in q ==> q["currency"] == Some(CurrencyWireName(currency.value)))
      && ("verified" in q ==> q["verified"] == Some(IntToString(verified as int)))
  {
  }

  lemma DonationQueryCursorValues(accessToken: string, limit: Option<int32>, currency: Option<CurrencyCode>,
                          before: int32, after: int32, verified: int32, flavor: Flavor)
    ensures var q := DonationQuery(accessToken, limit, currency, before, after, verified, flavor);
      && ("before" in q ==> q["before"] == Some(IntToString(before as int)))
      && ("after" in q ==> q["after"] == Some(IntToString(after as int)))
  {
  }

  /** The numeric query parameters read back as the numbers they came from. */
  lemma DonationQueryDecodes(accessToken: string, limit: Option<int32>, currency: Option<CurrencyCode>,
                             before: int32, after: int32, verified: int32, flavor: Flavor)
    ensures var q := DonationListRequest(accessToken, limit, currency, before, after, verified, flavor).query;
      && ("limit" in q ==> q["limit"].Some? && ParseInt32(q["limit"].value) == Success(limit.value))
      && ("before" in q ==> q["before"].Some? && ParseInt32(q["before"].value) == Success(before))
      && ("after" in q ==> q["after"].Some? && ParseInt32(q["after"].value) == Success(after))
      && ("verified" in q ==> q["verified"].Some? && ParseInt32(q["verified"].value) == Success(verified))
  {
    if limit.Some? { ParseIntToString(limit.value); }
    ParseIntToString(before);
    ParseIntToString(after);
    ParseIntToString(verified);
  }

  /** `CreateDonation`'s body. The synchronous method sends the time as Unix
      seconds under `datetime`; the asynchronous one sends a formatted date
      under `created_at`. */
  function CreateDonationRequest(accessToken: string, name: string, identifier: string, amount: real,
                                 currency: CurrencyCode, message: string, datetime: DateTime,
                                 flavor: Flavor, fmt: Formatters): (r: Request)
    ensures r.verb == POST && r.url == SpecificUri("donations") && r.query == map[]
    ensures {"access_token", "name", "identifier", "amount", "currency"} <= r.body.Keys
    ensures r.body["access_token"] == Some(accessToken)
    ensures r.body["name"] == Some(name)
    ensures r.body["identifier"] == Some(identifier)
    ensures r.body["amount"] == Some(fmt.doubleToString(amount))
    ensures r.body["currency"] == Some(CurrencyWireName(currency))
    ensures "message" in r.body <==> message != ""
    ensures "datetime" in r.body <==> flavor == Sync && datetime != DefaultDateTime
    ensures "created_at" in r.body <==> flavor == Async && datetime != DefaultDateTime
    ensures "message" in r.body ==> r.body["message"] == Some(message)
    ensures "datetime" in r.body ==> r.body["datetime"] == Some(IntToString(fmt.toUnixTime(datetime) as int))
    ensures "created_at" in r.body ==> r.body["created_at"] == Some(fmt.createdAtString(datetime))
    ensures r.body.Keys <= {"access_token", "name", "identifier", "amount", "currency", "message", "datetime", "created_at"}
  {
    DonationBodyKeys(accessToken, name, identifier, amount, currency, message, datetime, flavor, fmt);
    DonationBodyRequired(accessToken, name, identifier, amount, currency, message, datetime, flavor, fmt);
    DonationBodyOptional(accessToken, name, identifier, amount, currency, message, datetime, flavor, fmt);
    Request(POST, SpecificUri("donations"), map[], DonationBody(accessToken, name, identifier, amount, currency, message, datetime, flavor, fmt))
  }

  /** The donation body, parameter by parameter in the order the client adds them. */
  function DonationBody(accessToken: string, name: string, identifier: string, amount: real,
                         currency: CurrencyCode, message: string, datetime: DateTime,
                         flavor: Flavor, fmt: Formatters): Params
  {
    var b0 := Add(map[], "access_token", accessToken);
    var b1 := Add(b0, "name", name);
    var b2 := Add(b1, "identifier", identifier);
    var b3 := Add(b2, "amount", fmt.doubleToString(amount));
    var b4 := Add(b3, "currency", CurrencyWireName(currency));
    var b5 := AddIf(b4, message != "", "message", message);
    match flavor
    case Sync => AddIf(b5, datetime != DefaultDateTime, "datetime", IntToString(fmt.toUnixTime(datetime) as int))
    case Async => AddIf(b5, datetime != DefaultDateTime, "created_at", fmt.createdAtString(datetime))
  }

  lemma DonationBodyKeys(accessToken: string, name: string, identifier: string, amount: real,
                         currency: CurrencyCode, message: string, datetime: DateTime,
                         flavor: Flavor, fmt: Formatters)
    ensures var body := DonationBody(accessToken, name, identifier, amount, currency, message, datetime, flavor, fmt);
      && {"access_token", "name", "identifier", "amount", "currency"} <= body.Keys
      && ("message" in body <==> message != "")
      && ("datetime" in body <==> flavor == Sync && datetime != DefaultDateTime)
      && ("created_at" in body <==> flavor == Async && datetime != DefaultDateTime)
      && body.Keys <= {"access_token", "name", "identifier", "amount", "currency", "message", "datetime", "created_at"}
  {
  }

  lemma DonationBodyRequired(accessToken: string, name: string, identifier: string, amount: real,
                         currency: CurrencyCode, message: string, datetime: DateTime,
                         flavor: Flavor, fmt: Formatters)
    ensures var body := DonationBody(accessToken, name, identifier, amount, currency, message, datetime, flavor, fmt);
      && "access_token" in body && body["access_token"] == Some(accessToken)
      && "name" in body && body["name"] == Some(name)
      && "identifier" in body && body["identifier"] == Some(identifier)
      && "amount" in body && body["amount"] == Some(fmt.doubleToString(amount))
      && "currency" in body && body["currency"] == Some(CurrencyWireName(currency))
  {
  }

  lemma DonationBodyOptional(accessToken: string, name: string, identifier: string, amount: real,
                         currency: CurrencyCode, message: string, datetime: DateTime,
                         flavor: Flavor, fmt: Formatters)
    ensures var body := DonationBody(accessToken, name, identifier, amount, currency, message, datetime, flavor, fmt);
      && ("message" in body ==> body["message"] == Some(message))
      && ("datetime" in body ==> body["datetime"] == Some(IntToString(fmt.toUnixTime(datetime) as int)))
      && ("created_at" in body ==> body["created_at"] == Some(fmt.createdAtString(datetime)))
  {
  }

  /** `CreateAlert`'s body. The duration is sent as the TimeSpan's seconds
      component; the colour through `ColorTranslator.ToHtml`. */
  function CreateAlertRequest(accessToken: string, kind: AlertType, imageHref: string, soundHref: string,
                              message: string, duration: TimeSpan, color: Color, fmt: Formatters): (r: Request)
    ensures r.verb == POST && r.url == SpecificUri("alerts") && r.query == map[]
    ensures {"access_token", "type"} <= r.body.Keys
    ensures r.body["access_token"] == Some(accessToken)
    ensures r.body["type"] == Some(AlertWireName(kind))
    ensures "image_href" in r.body <==> imageHref != ""
    ensures "sound_href" in r.body <==> soundHref != ""
    ensures "message" in r.body <==> message != ""
    ensures "duration" in r.body <==> duration != DefaultTimeSpan
    ensures "special_text_color" in r.body <==> color != DefaultColor
    ensures "image_href" in r.body ==> r.body["image_href"] == Some(imageHref)
    ensures "sound_href" in r.body ==> r.body["sound_href"] == Some(soundHref)
    ensures "message" in r.body ==> r.body["message"] == Some(message)
    ensures "duration" in r.body ==> r.body["duration"] == Some(IntToString(SecondsComponent(duration)))
    ensures "special_text_color" in r.body ==> r.body["special_text_color"] == Some(fmt.colorToHtml(color))
    ensures r.body.Keys <= {"access_token", "type", "image_href", "sound_href", "message", "duration", "special_text_color"}
  {
    AlertBodyKeys(accessToken, kind, imageHref, soundHref, message, duration, color, fmt);
    AlertBodyRequired(accessToken, kind, imageHref, soundHref, message, duration, color, fmt);
    AlertBodyOptional(accessToken, kind, imageHref, soundHref, message, duration, color, fmt);
    Request(POST, SpecificUri("alerts"), map[], AlertBody(accessToken, kind, imageHref, soundHref, message, duration, color, fmt))
  }

  /** The alert body, parameter by parameter in the order the client adds them. */
  function AlertBody(accessToken: string, kind: AlertType, imageHref: string, soundHref: string,
                      message: string, duration: TimeSpan, color: Color, fmt: Formatters): Params
  {
    var b0 := Add(map[], "access_token", accessToken);
    var b1 := Add(b0, "type", AlertWireName(kind));
    var b2 := AddIf(b1, imageHref != "", "image_href", imageHref);
    var b3 := AddIf(b2, soundHref != "", "sound_href", soundHref);
    var b4 := AddIf(b3, message != "", "message", message);
    var b5 := AddIf(b4, duration != DefaultTimeSpan, "duration", IntToString(SecondsComponent(duration)));
    AddIf(b5, color != DefaultColor, "special_text_color", fmt.colorToHtml(color))
  }

  lemma AlertBodyKeys(accessToken: string, kind: AlertType, imageHref: string, soundHref: string,
                      message: string, duration: TimeSpan, color: Color, fmt: Formatters)
    ensures var body := AlertBody(accessToken, kind, imageHref, soundHref, message, duration, color, fmt);
      && {"access_token", "type"} <= body.Keys
      && ("image_href" in body <==> imageHref != "")
      && ("sound_href" in body <==> soundHref != "")
      && ("message" in body <==> message != "")
      && ("duration" in body <==> duration != DefaultTimeSpan)
      && ("special_text_color" in body <==> color != DefaultColor)
      && body.Keys <= {"access_token", "type", "image_href", "sound_href", "message", "duration", "special_text_color"}
  {
  }

  lemma AlertBodyRequired(accessToken: string, kind: AlertType, imageHref: string, soundHref: string,
                      message: string, duration: TimeSpan, color: Color, fmt: Formatters)
    ensures var body := AlertBody(accessToken, kind, imageHref, soundHref, message, duration, color, fmt);
      && "access_token" in body && body["access_token"] == Some(accessToken)
      && "type" in body && body["type"] == Some(AlertWireName(kind))
  {
  }

  lemma AlertBodyOptional(accessToken: string, kind: AlertType, imageHref: string, soundHref: string,
                      message: string, duration: TimeSpan, color: Color, fmt: Formatters)
    ensures var body := AlertBody(accessToken, kind, imageHref, soundHref, message, duration, color, fmt);
      && ("image_href" in body ==> body["image_href"] == Some(imageHref))
      && ("sound_href" in body ==> body["sound_href"] == Some(soundHref))
      && ("message" in body ==> body["message"] == Some(message))
      && ("duration" in body ==> body["duration"] == Some(IntToString(SecondsComponent(duration))))
      && ("special_text_color" in body ==> body["special_text_color"] == Some(fmt.colorToHtml(color)))
  {
  }

  /** A duration of m minutes and s seconds is sent as s, not as the total
      60 * m + s; a whole number of minutes is sent as 0 (yet the key is present). */
  lemma AlertDurationIsSecondsComponent(accessToken: string, kind: AlertType, imageHref: string, soundHref: string,
                                        message: string, minutes: nat, seconds: nat, color: Color, fmt: Formatters)
    requires seconds < 60 && 0 < 60 * minutes + seconds
    requires (60 * minutes + seconds) * TicksPerSecond < 0x8000_0000_0000_0000
    ensures var duration := TimeSpan(((60 * minutes + seconds) * TicksPerSecond) as int64);
      var body := CreateAlertRequest(accessToken, kind, imageHref, soundHref, message, duration, color, fmt).body;
      && "duration" in body
      && body["duration"].Some?
      && ParseInt32(body["duration"].value) == Success(seconds as int32)
  {
    SecondsDropMinutes(minutes, seconds);
    ParseIntToString(seconds as int32);
  }
}
