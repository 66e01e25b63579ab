/** The `TwitchAlertsAPI` client: the session it holds, the token lifecycle
    (authorization-code exchange and refresh) and the resource operations,
    each guarded by the access token and routed through `Check`. */
module Client {
  import opened Wrappers
  import opened Conversions
  import opened Enums
  import opened NetTypes
  import opened Rest
  import opened Models
  import opened Errors
  import opened Requests
  import opened Scope

  /** The client's state: the credentials it was built with and the tokens
      of the last successful token call. */
  datatype Session = Session(
    clientId: string,
    clientSecret: string,
    redirectUri: string,
    availableScope: TwitchScope,
    accessToken: Option<string>,
    refreshToken: Option<string>)

  /** The constructor: credentials stored, no token yet. */
  function NewSession(clientId: string, clientSecret: string, redirectUri: string, scope: TwitchScope): (s: Session)
    ensures s.clientId == clientId && s.clientSecret == clientSecret
    ensures s.redirectUri == redirectUri && s.availableScope == scope
    ensures s.accessToken.None? && s.refreshToken.None?
  {
    Session(clientId, clientSecret, redirectUri, scope, None, None)
  }

  /** `!string.IsNullOrEmpty(AccessToken)`: the guard of every resource operation. */
  predicate Authenticated(s: Session) {
    s.accessToken.Some? && s.accessToken.value != ""
  }

  /** What one operation did: the requests it handed to the transport, in
      order, and what it returned or raised. */
  datatype Call<T> = Call(sent: seq<Request>, outcome: Result<T, ClientError>)

  /** The outcome is the classifier's exception exactly when the response
      to `request` fails the check, and it is then the very exception
      `Check` builds: status, raw body, request, inner exception, error code
      and message. */
  predicate RaisedByCheck<T, U>(outcome: Result<U, ClientError>, request: Request, transport: Transport<T>) {
    var response := transport.send(request);
    && (!Succeeded(response) <==> outcome.Failure? && outcome.error.Api?)
    && (!Succeeded(response) ==> Check(request, response, transport.parseError) == Some(outcome.error.exception))
  }

  /** Whichever operation raised it, an API exception is the one the
      exception's constructor builds from the failed response, the request
      and the parsed error body. */
  lemma RaisedIsConstructed<T, U>(outcome: Result<U, ClientError>, request: Request, transport: Transport<T>)
    requires RaisedByCheck(outcome, request, transport)
    requires outcome.Failure? && outcome.error.Api?
    ensures var response := transport.send(request);
      && !Succeeded(response)
      && outcome.error.exception ==
           NewTwitchAlertsException(response.status, response.content, request, response.errorException,
                                    transport.parseError(response.content))
  {
  }

  /** Sends one request and reads a member of its payload; reading a member
      of a null payload raises a null reference. */
  function FetchField<T, U>(request: Request, transport: Transport<T>, field: T -> U): (c: Call<U>)
    ensures c.sent == [request]
    ensures RaisedByCheck(c.outcome, request, transport)
    ensures Succeeded(transport.send(request)) ==>
      c.outcome == (if transport.send(request).data.None? then Failure(NullReference)
                    else Success(field(transport.send(request).data.value)))
  {
    match Execute(request, transport)
    case Failure(e) => Call([request], Failure(e))
    case Success(data) =>
      if data.None? then Call([request], Failure(NullReference)) else Call([request], Success(field(data.value)))
  }

  /** `GetAuthorizeString`: the authorize address for the session's
      credentials and requested scope; nothing is sent. */
  function GetAuthorizeString(s: Session): (r: Request)
    ensures r.url == RestUri + "authorize?"
    ensures r.query.Keys == {"response_type", "client_id", "redirect_uri", "scope"}
    ensures r.query["response_type"] == Some("code")
    ensures r.query["client_id"] == Some(s.clientId)
    ensures r.query["redirect_uri"] == Some(s.redirectUri)
    ensures r.query["scope"] == Some(ScopeString(s.availableScope))
  {
    AuthorizeRequest(s.clientId, s.redirectUri, s.availableScope)
  }

  /** A token call: the session afterwards, and the call itself. */
  datatype TokenCall = TokenCall(session: Session, call: Call<TokenObject>)

  /** Both token calls: post the grant, and only once the reply is read
      overwrite both tokens with the reply's (possibly null) values. */
  function TokenGrant(s: Session, grant: Grant, transport: Transport<TokenObject>): (r: TokenCall)
    ensures r.call.sent == [TokenRequest(s.clientId, s.clientSecret, s.redirectUri, grant)]
    ensures var response := transport.send(r.call.sent[0]);
      && RaisedByCheck(r.call.outcome, r.call.sent[0], transport)
      && (r.call.outcome.Success? <==> Succeeded(response) && response.data.Some?)
      && (r.call.outcome.Success? ==> r.call.outcome.value == response.data.value)
    ensures r.call.outcome.Success? ==>
      r.session == s.(accessToken := r.call.outcome.value.accessToken, refreshToken := r.call.outcome.value.refreshToken)
    ensures r.call.outcome.Failure? ==> r.session == s
    ensures Succeeded(transport.send(r.call.sent[0])) && transport.send(r.call.sent[0]).data.None? ==>
      r.call.outcome == Failure(NullReference)
  {
    var request := TokenRequest(s.clientId, s.clientSecret, s.redirectUri, grant);
    var c := FetchField(request, transport, (token: TokenObject) => token);
    match c.outcome
    case Success(token) => TokenCall(s.(accessToken := token.accessToken, refreshToken := token.refreshToken), c)
    case Failure(_) => TokenCall(s, c)
  }

  /** `GetAccessToken` (and its async twin): exchange an authorization code. */
  function GetAccessToken(s: Session, authcode: string, transport: Transport<TokenObject>): (r: TokenCall)
    ensures r.call.sent == [TokenRequest(s.clientId, s.clientSecret, s.redirectUri, AuthorizationCode(authcode))]
    ensures RaisedByCheck(r.call.outcome, r.call.sent[0], transport)
    ensures r.call.outcome.Success? ==>
      transport.send(r.call.sent[0]).data.Some? && r.call.outcome.value == transport.send(r.call.sent[0]).data.value
    ensures "grant_type" in r.call.sent[0].body && r.call.sent[0].body["grant_type"] == Some("authorization_code")
    ensures "code" in r.call.sent[0].body && r.call.sent[0].body["code"] == Some(authcode)
    ensures r.call.outcome.Success? <==> Succeeded(transport.send(r.call.sent[0])) && transport.send(r.call.sent[0]).data.Some?
    ensures r.call.outcome.Success? ==>
      r.session == s.(accessToken := r.call.outcome.value.accessToken, refreshToken := r.call.outcome.value.refreshToken)
    ensures r.call.outcome.Failure? ==> r.session == s
    ensures r.session.clientId == s.clientId && r.session.clientSecret == s.clientSecret
    ensures r.session.redirectUri == s.redirectUri && r.session.availableScope == s.availableScope
    ensures Succeeded(transport.send(r.call.sent[0])) && transport.send(r.call.sent[0]).data.None? ==>
      r.call.outcome == Failure(NullReference)
  {
    TokenGrant(s, AuthorizationCode(authcode), transport)
  }

  /** `RefreshAccessToken` (and its async twin): trade the stored refresh
      token, null or not, for a new pair. */
  function RefreshAccessToken(s: Session, transport: Transport<TokenObject>): (r: TokenCall)
    ensures r.call.sent == [TokenRequest(s.clientId, s.clientSecret, s.redirectUri, RefreshGrant(s.refreshToken))]
    ensures RaisedByCheck(r.call.outcome, r.call.sent[0], transport)
    ensures r.call.outcome.Success? ==>
      transport.send(r.call.sent[0]).data.Some? && r.call.outcome.value == transport.send(r.call.sent[0]).data.value
    ensures "grant_type" in r.call.sent[0].body && r.call.sent[0].body["grant_type"] == Some("refresh_token")
    ensures "refresh_token" in r.call.sent[0].body && r.call.sent[0].body["refresh_token"] == s.refreshToken
    ensures r.call.outcome.Success? <==> Succeeded(transport.send(r.call.sent[0])) && transport.send(r.call.sent[0]).data.Some?
    ensures r.call.outcome.Success? ==>
      r.session == s.(accessToken := r.call.outcome.value.accessToken, refreshToken := r.call.outcome.value.refreshToken)
    ensures r.call.outcome.Failure? ==> r.session == s
    ensures r.session.clientId == s.clientId && r.session.clientSecret == s.clientSecret
    ensures r.session.redirectUri == s.redirectUri && r.session.availableScope == s.availableScope
    ensures Succeeded(transport.send(r.call.sent[0])) && transport.send(r.call.sent[0]).data.None? ==>
      r.call.outcome == Failure(NullReference)
  {
    TokenGrant(s, RefreshGrant(s.refreshToken), transport)
  }

  /** Exchanging a code and then refreshing: the refresh posts the refresh
      token the exchange stored, and afterwards only the refresh reply's
      tokens remain. */
  lemma ExchangeThenRefresh(s: Session, authcode: string, exchange: Transport<TokenObject>, refresh: Transport<TokenObject>)
    requires GetAccessToken(s, authcode, exchange).call.outcome.Success?
    requires RefreshAccessToken(GetAccessToken(s, authcode, exchange).session, refresh).call.outcome.Success?
    ensures var first := GetAccessToken(s, authcode, exchange);
      var second := RefreshAccessToken(first.session, refresh);
      && second.call.sent[0].body["refresh_token"] == first.call.outcome.value.refreshToken
      && second.session.accessToken == second.call.outcome.value.accessToken
      && second.session.refreshToken == second.call.outcome.value.refreshToken
      && second.session.clientId == s.clientId && second.session.clientSecret == s.clientSecret
  {
  }

  /** A failed refresh leaves both tokens as they were, so the stored
      refresh token can be retried. */
  lemma FailedRefreshKeepsTokens(s: Session, transport: Transport<TokenObject>)
    requires !Succeeded(transport.send(TokenRequest(s.clientId, s.clientSecret, s.redirectUri, RefreshGrant(s.refreshToken))))
    ensures var r := RefreshAccessToken(s, transport);
      && r.session.accessToken == s.accessToken
      && r.session.refreshToken == s.refreshToken
      && r.call.outcome.Failure? && r.call.outcome.error.Api?
  {
  }

  /** `GetUserInfo`: null without a token, otherwise the user payload as
      deserialized (itself possibly null). */
  function GetUserInfo(s: Session, transport: Transport<AuthenticatedUserObject>): (c: Call<Option<AuthenticatedUserObject>>)
    ensures !Authenticated(s) ==> c == Call([], Success(None))
    ensures Authenticated(s) ==>
      && c.sent == [UserInfoRequest(s.accessToken.value)]
      && c.sent[0].query == map["access_token" := s.accessToken]
      && RaisedByCheck(c.outcome, c.sent[0], transport)
      && (Succeeded(transport.send(c.sent[0])) ==> c.outcome == Success(transport.send(c.sent[0]).data))
  {
    if !Authenticated(s) then Call([], Success(None))
    else
      var request := UserInfoRequest(s.accessToken.value);
      Call([request], Execute(request, transport))
  }

  /** `GetDonation` / `GetDonationAsync`: one page of donations; null
      without a token. */
  function GetDonation(s: Session, limit: Option<int32>, currency: Option<CurrencyCode>, before: int32, after: int32,
                       verified: int32, flavor: Flavor, transport: Transport<DonationListObject>): (c: Call<Option<seq<DonationObject>>>)
    ensures !Authenticated(s) ==> c == Call([], Success(None))
    ensures Authenticated(s) ==>
      && c.sent == [DonationListRequest(s.accessToken.value, limit, currency, before, after, verified, flavor)]
      && RaisedByCheck(c.outcome, c.sent[0], transport)
      && (Succeeded(transport.send(c.sent[0])) ==>
            c.outcome == (if transport.send(c.sent[0]).data.None? then Failure(NullReference)
                          else Success(transport.send(c.sent[0]).data.value.list)))
  {
    if !Authenticated(s) then Call([], Success(None))
    else
      var request := DonationListRequest(s.accessToken.value, limit, currency, before, after, verified, flavor);
      FetchField(request, transport, (page: DonationListObject) => page.list)
  }

  /** `CreateDonation` / `CreateDonationAsync`: the new donation's id; 0
      without a token. */
  function CreateDonation(s: Session, name: string, identifier: string, amount: real, currency: CurrencyCode,
                          message: string, datetime: DateTime, flavor: Flavor, fmt: Formatters,
                          transport: Transport<DonationIdObject>): (c: Call<int32>)
    ensures !Authenticated(s) ==> c == Call([], Success(0))
    ensures Authenticated(s) ==>
      && c.sent == [CreateDonationRequest(s.accessToken.value, name, identifier, amount, currency, message, datetime, flavor, fmt)]
      && RaisedByCheck(c.outcome, c.sent[0], transport)
      && (Succeeded(transport.send(c.sent[0])) ==>
            c.outcome == (if transport.send(c.sent[0]).data.None? then Failure(NullReference)
                          else Success(transport.send(c.sent[0]).data.value.donationId)))
  {
    if !Authenticated(s) then Call([], Success(0))
    else
      var request := CreateDonationRequest(s.accessToken.value, name, identifier, amount, currency, message, datetime, flavor, fmt);
      FetchField(request, transport, (reply: DonationIdObject) => reply.donationId)
  }

  /** `CreateAlert` / `CreateAlertAsync`: the `success` flag of the reply;
      false without a token. A reply with `success: false` is still a
      successful call. */
  function CreateAlert(s: Session, kind: AlertType, imageHref: string, soundHref: string, message: string,
                       duration: TimeSpan, color: Color, fmt: Formatters, transport: Transport<SuccessObject>): (c: Call<bool>)
    ensures !Authenticated(s) ==> c == Call([], Success(false))
    ensures Authenticated(s) ==>
      && c.sent == [CreateAlertRequest(s.accessToken.value, kind, imageHref, soundHref, message, duration, color, fmt)]
      && RaisedByCheck(c.outcome, c.sent[0], transport)
      && (Succeeded(transport.send(c.sent[0])) ==>
            c.outcome == (if transport.send(c.sent[0]).data.None? then Failure(NullReference)
                          else Success(transport.send(c.sent[0]).data.value.success)))
  {
    if !Authenticated(s) then Call([], Success(false))
    else
      var request := CreateAlertRequest(s.accessToken.value, kind, imageHref, soundHref, message, duration, color, fmt);
      FetchField(request, transport, (reply: SuccessObject) => reply.success)
  }

  /** `GetLegacyToken`: the legacy token; the empty string without a token. */
  function GetLegacyToken(s: Session, transport: Transport<LegacyTokenObject>): (c: Call<Option<string>>)
    ensures !Authenticated(s) ==> c == Call([], Success(Some("")))
    ensures Authenticated(s) ==>
      && c.sent == [LegacyTokenRequest(s.accessToken.value)]
      && c.sent[0].query == map["access_token" := s.accessToken]
      && RaisedByCheck(c.outcome, c.sent[0], transport)
      && (Succeeded(transport.send(c.sent[0])) ==>
            c.outcome == (if transport.send(c.sent[0]).data.None? then Failure(NullReference)
                          else Success(transport.send(c.sent[0]).data.value.token)))
  {
    if !Authenticated(s) then Call([], Success(Some("")))
    else
      var request := LegacyTokenRequest(s.accessToken.value);
      FetchField(request, transport, (reply: LegacyTokenObject) => reply.token)
  }

  /** Before any token call has succeeded, every resource operation
      returns its null-token default without sending anything, whatever
      its arguments. */
  lemma FreshSessionSendsNothing(clientId: string, clientSecret: string, redirectUri: string, scope: TwitchScope,
                                 flavor: Flavor, fmt: Formatters,
                                 limit: Option<int32>, currency: Option<CurrencyCode>, before: int32, after: int32, verified: int32,
                                 name: string, identifier: string, amount: real, donationCurrency: CurrencyCode,
                                 donationMessage: string, datetime: DateTime,
                                 kind: AlertType, imageHref: string, soundHref: string, alertMessage: string,
                                 duration: TimeSpan, color: Color,
                                 users: Transport<AuthenticatedUserObject>, pages: Transport<DonationListObject>,
                                 donations: Transport<DonationIdObject>, alerts: Transport<SuccessObject>,
                                 legacy: Transport<LegacyTokenObject>)
    ensures var s := NewSession(clientId, clientSecret, redirectUri, scope);
      && GetUserInfo(s, users) == Call([], Success(None))
      && GetDonation(s, limit, currency, before, after, verified, flavor, pages) == Call([], Success(None))
      && CreateDonation(s, name, identifier, amount, donationCurrency, donationMessage, datetime, flavor, fmt, donations)
           == Call([], Success(0))
      && CreateAlert(s, kind, imageHref, soundHref, alertMessage, duration, color, fmt, alerts) == Call([], Success(false))
      && GetLegacyToken(s, legacy) == Call([], Success(Some("")))
  {
  }
}
