/** `GetAllDonations` / `GetAllDonationsAsync`: page backwards through the
    donation list, 100 at a time, using the last id seen as the next
    `before` cursor, until a page comes back empty. */
module Pagination {
  import opened Wrappers
  import opened Conversions
  import opened Enums
  import opened Rest
  import opened Models
  import opened Errors
  import opened Requests
  import opened Client

  /** The request for the page before `cursor`: limit 100, no `after`. */
  function PageRequest(accessToken: string, currency: Option<CurrencyCode>, verified: int32, flavor: Flavor, cursor: int32): Request {
    DonationListRequest(accessToken, Some(100), currency, cursor, 0, verified, flavor)
  }

  /** The donation list a response delivers, or null when the payload or
      its `data` array is missing. */
  function ReceivedPage(response: Response<DonationListObject>): Option<seq<DonationObject>> {
    if response.data.Some? then response.data.value.list else None
  }

  /** The page a request received; a missing page counts as empty. */
  function PageOf(transport: Transport<DonationListObject>, request: Request): seq<DonationObject> {
    var page := ReceivedPage(transport.send(request));
    if page.Some? then page.value else []
  }

  /** The pages the given requests received, in order. */
  function Pages(transport: Transport<DonationListObject>, sent: seq<Request>): (pages: seq<seq<DonationObject>>)
    ensures |pages| == |sent|
    decreases |sent|
  {
    if sent == [] then [] else [PageOf(transport, sent[0])] + Pages(transport, sent[1..])
  }

  /** The concatenation of a list of pages. */
  function Flatten(pages: seq<seq<DonationObject>>): seq<DonationObject>
    decreases |pages|
  {
    if pages == [] then [] else pages[0] + Flatten(pages[1..])
  }

  /** `Convert.ToInt32` of the last donation id on the page a request
      received; `None` when that page is missing or empty. */
  function LastIdConversion(transport: Transport<DonationListObject>, request: Request): Option<Result<int32, ConvertError>> {
    var page := PageOf(transport, request);
    if page == [] then None else Some(ConvertToInt32(page[|page| - 1].donationId))
  }

  /** `previous` succeeded with a non-empty page whose last id converts to
      `cursor`. */
  predicate LastIdIs(transport: Transport<DonationListObject>, previous: Request, cursor: int32) {
    && Succeeded(transport.send(previous))
    && LastIdConversion(transport, previous) == Some(Success(cursor))
  }

  /** The cursor the loop derives from a request's page (0 when there is
      none to derive). */
  function NextCursor(transport: Transport<DonationListObject>, previous: Request): int32 {
    match LastIdConversion(transport, previous)
    case Some(Success(cursor)) => cursor
    case _ => 0
  }

  /** `next` is the request the loop sends after `previous`: `previous`
      received a non-empty page whose last id converts, and `next` asks for
      the page before that id. */
  predicate Follows(transport: Transport<DonationListObject>, accessToken: string, currency: Option<CurrencyCode>,
                    verified: int32, flavor: Flavor, previous: Request, next: Request)
  {
    && LastIdIs(transport, previous, NextCursor(transport, previous))
    && next == PageRequest(accessToken, currency, verified, flavor, NextCursor(transport, previous))
  }

  /** Every request of `sent` after the first follows from the one before. */
  predicate Chained(transport: Transport<DonationListObject>, accessToken: string, currency: Option<CurrencyCode>,
                    verified: int32, flavor: Flavor, sent: seq<Request>)
  {
    forall i :: 0 < i < |sent| ==> Follows(transport, accessToken, currency, verified, flavor, sent[i - 1], sent[i])
  }

  /** How the loop ended: an empty page, an exception, or (only in the
      model) the step bound ran out first. */
  datatype End = Finished | Stopped(error: ClientError) | OutOfFuel

  /** One iteration: the loop either stops, or keeps a page and moves its
      cursor to the page's last id. */
  datatype Step =
    | Halt(sent: seq<Request>, end: End)
    | Next(sent: seq<Request>, page: seq<DonationObject>, cursor: int32)

  /** The requests the loop sent, the cursor each one used, the donations
      it had collected, and how it ended. */
  datatype Walk = Walk(sent: seq<Request>, cursors: seq<int32>, collected: seq<DonationObject>, end: End)

  /** What an authenticated iteration does with the one request it sends,
      outcome by outcome: it stops with the check's exception exactly when
      the response fails, with a null dereference exactly when a successful
      response has no list, finishes exactly on a successful empty page,
      stops with the conversion's error exactly when the last id of a
      non-empty page does not convert, and moves on exactly when it does,
      keeping the page it received and a cursor `link` accepts. */
  predicate StepOk(transport: Transport<DonationListObject>, link: (Request, int32) -> bool,
                  lastIdOf: Request -> Option<Result<int32, ConvertError>>, st: Step) {
    |st.sent| == 1 &&
    var response := transport.send(st.sent[0]);
    var lastId := lastIdOf(st.sent[0]);
    && (st.Halt? ==> !st.end.OutOfFuel?)
    && (st.Halt? && st.end.Stopped? ==> st.end.error.Api? || st.end.error == NullReference || st.end.error.Conversion?)
    && (st.Halt? && st.end.Stopped? && st.end.error.Api? <==> !Succeeded(response))
    && (st.Halt? && st.end.Stopped? && st.end.error.Api? ==>
          Check(st.sent[0], response, transport.parseError) == Some(st.end.error.exception))
    && (st.Halt? && st.end == Stopped(NullReference) <==> Succeeded(response) && ReceivedPage(response).None?)
    && (st.Halt? && st.end.Finished? <==> Succeeded(response) && ReceivedPage(response) == Some([]))
    && (st.Halt? && st.end.Stopped? && st.end.error.Conversion? <==>
          Succeeded(response) && lastId.Some? && lastId.value.Failure?)
    && (st.Halt? && st.end.Stopped? && st.end.error.Conversion? ==> lastId == Some(Failure(st.end.error.reason)))
    && (st.Next? <==> Succeeded(response) && lastId.Some? && lastId.value.Success?)
    && (st.Next? ==> link(st.sent[0], st.cursor) && st.page == PageOf(transport, st.sent[0]))
  }

  /** The loop's shape, whatever one iteration does: run `step` from
      `cursor` for at most `fuel` iterations, collecting pages until an
      iteration halts. */
  function Loop(step: int32 -> Step, cursor: int32, fuel: nat): (w: Walk)
    ensures fuel == 0 ==> w == Walk([], [], [], OutOfFuel)
    decreases fuel
  {
    if fuel == 0 then Walk([], [], [], OutOfFuel)
    else
      match step(cursor)
      case Halt(sent, end) => Walk(sent, if sent == [] then [] else [cursor], [], end)
      case Next(sent, page, next) =>
        var rest := Loop(step, next, fuel - 1);
        Walk(sent + rest.sent, [cursor] + rest.cursors, page + rest.collected, rest.end)
  }

  /** Each request is the one its iteration sent for its cursor. */
  predicate SentByCursors(step: int32 -> Step, sent: seq<Request>, cursors: seq<int32>) {
    && |sent| == |cursors|
    && forall i :: 0 <= i < |sent| ==> |step(cursors[i]).sent| == 1 && sent[i] == step(cursors[i]).sent[0]
  }

  /** Each cursor after the first is linked to the request before it. */
  predicate CursorsChain(link: (Request, int32) -> bool, sent: seq<Request>, cursors: seq<int32>) {
    && |sent| == |cursors|
    && forall i :: 0 < i < |sent| ==> link(sent[i - 1], cursors[i])
  }

  /** The loop's requests: one per iteration, at most `fuel` of them and
      all of them when the bound ran out, the first for `cursor`, each the
      one its iteration sent. */
  lemma {:induction false} LoopTrace(step: int32 -> Step, transport: Transport<DonationListObject>, link: (Request, int32) -> bool,
                                    lastIdOf: Request -> Option<Result<int32, ConvertError>>, cursor: int32, fuel: nat)
    requires forall c :: StepOk(transport, link, lastIdOf, step(c))
    ensures var w := Loop(step, cursor, fuel);
      && |w.sent| <= fuel
      && (w.end.OutOfFuel? ==> |w.sent| == fuel)
      && (fuel > 0 ==> |w.sent| >= 1 && w.cursors[0] == cursor)
      && SentByCursors(step, w.sent, w.cursors)
    decreases fuel
  {
    var w := Loop(step, cursor, fuel);
    if fuel > 0 {
      var st := step(cursor);
      assert StepOk(transport, link, lastIdOf, st);
      if st.Next? {
        var rest := Loop(step, st.cursor, fuel - 1);
        LoopTrace(step, transport, link, lastIdOf, st.cursor, fuel - 1);
        assert w.sent == st.sent + rest.sent && w.cursors == [cursor] + rest.cursors;
        forall i | 0 < i < |w.sent|
          ensures |step(w.cursors[i]).sent| == 1 && w.sent[i] == step(w.cursors[i]).sent[0]
        {
          assert w.sent[i] == rest.sent[i - 1] && w.cursors[i] == rest.cursors[i - 1];
        }
      }
    }
  }

  /** The loop's cursors: each after the first is linked to the request
      before it. */
  lemma {:induction false} LoopChain(step: int32 -> Step, transport: Transport<DonationListObject>, link: (Request, int32) -> bool,
                                    lastIdOf: Request -> Option<Result<int32, ConvertError>>, cursor: int32, fuel: nat)
    requires forall c :: StepOk(transport, link, lastIdOf, step(c))
    ensures var w := Loop(step, cursor, fuel);
      CursorsChain(link, w.sent, w.cursors)
    decreases fuel
  {
    var w := Loop(step, cursor, fuel);
    if fuel > 0 {
      var st := step(cursor);
      assert StepOk(transport, link, lastIdOf, st);
      if st.Next? {
        var rest := Loop(step, st.cursor, fuel - 1);
        LoopChain(step, transport, link, lastIdOf, st.cursor, fuel - 1);
        LoopTrace(step, transport, link, lastIdOf, st.cursor, fuel - 1);
        assert w.sent == st.sent + rest.sent && w.cursors == [cursor] + rest.cursors;
        forall i | 0 < i < |w.sent|
          ensures link(w.sent[i - 1], w.cursors[i])
        {
          if i > 1 {
            assert w.sent[i - 1] == rest.sent[i - 2] && w.cursors[i] == rest.cursors[i - 1];
          }
        }
      }
    }
  }

  /** Prepending one request prepends its page. */
  lemma PagesCons(transport: Transport<DonationListObject>, first: Request, rest: seq<Request>)
    ensures Flatten(Pages(transport, [first] + rest)) == PageOf(transport, first) + Flatten(Pages(transport, rest))
  {
    assert ([first] + rest)[1..] == rest;
  }

  /** A loop that sent something finished exactly when its last response
      was a successful empty page; a loop that sent nothing did not
      finish. */
  lemma {:induction false} LoopFinished(step: int32 -> Step, transport: Transport<DonationListObject>, link: (Request, int32) -> bool,
                                    lastIdOf: Request -> Option<Result<int32, ConvertError>>, cursor: int32, fuel: nat)
    requires forall c :: StepOk(transport, link, lastIdOf, step(c))
    ensures var w := Loop(step, cursor, fuel);
      && (w.end.Finished? ==> w.sent != [])
      && (w.sent != [] ==>
            var last := transport.send(w.sent[|w.sent| - 1]);
            (w.end.Finished? <==> Succeeded(last) && ReceivedPage(last) == Some([])))
    decreases fuel
  {
    var w := Loop(step, cursor, fuel);
    if fuel > 0 {
      var st := step(cursor);
      assert StepOk(transport, link, lastIdOf, st);
      if st.Next? {
        var rest := Loop(step, st.cursor, fuel - 1);
        LoopFinished(step, transport, link, lastIdOf, st.cursor, fuel - 1);
        assert w.sent == st.sent + rest.sent && w.end == rest.end;
        if rest.sent == [] {
          assert w.sent[|w.sent| - 1] == st.sent[0];
        } else {
          assert w.sent[|w.sent| - 1] == rest.sent[|rest.sent| - 1];
        }
      }
    }
  }

  /** A finished loop collected exactly the pages its requests received,
      in order. */
  lemma {:induction false} LoopCollects(step: int32 -> Step, transport: Transport<DonationListObject>, link: (Request, int32) -> bool,
                                    lastIdOf: Request -> Option<Result<int32, ConvertError>>, cursor: int32, fuel: nat)
    requires forall c :: StepOk(transport, link, lastIdOf, step(c))
    ensures var w := Loop(step, cursor, fuel);
      w.end.Finished? ==> w.collected == Flatten(Pages(transport, w.sent))
    decreases fuel
  {
    var w := Loop(step, cursor, fuel);
    if fuel > 0 {
      var st := step(cursor);
      assert StepOk(transport, link, lastIdOf, st);
      if st.Next? {
        var rest := Loop(step, st.cursor, fuel - 1);
        LoopCollects(step, transport, link, lastIdOf, st.cursor, fuel - 1);
        assert |st.sent| == 1 && st.sent == [st.sent[0]];
        assert w == Walk(st.sent + rest.sent, [cursor] + rest.cursors, st.page + rest.collected, rest.end);
        PagesCons(transport, st.sent[0], rest.sent);
      } else if st.end.Finished? {
        assert w.sent == st.sent && w.collected == [];
        assert Pages(transport, st.sent) == [PageOf(transport, st.sent[0])];
      }
    }
  }

  /** A loop stopped by an exception ended on the response that raised
      it: the check's exception exactly when that response failed, a null
      dereference exactly when it succeeded without a list, and the
      conversion's error exactly when its page's last id does not
      convert. */
  lemma {:induction false} LoopStopped(step: int32 -> Step, transport: Transport<DonationListObject>, link: (Request, int32) -> bool,
                                    lastIdOf: Request -> Option<Result<int32, ConvertError>>, cursor: int32, fuel: nat)
    requires forall c :: StepOk(transport, link, lastIdOf, step(c))
    ensures var w := Loop(step, cursor, fuel);
      && (w.end.Stopped? ==> w.sent != [])
      && (w.end.Stopped? ==> w.end.error.Api? || w.end.error == NullReference || w.end.error.Conversion?)
      && (w.sent != [] ==>
            var last := transport.send(w.sent[|w.sent| - 1]);
            var lastId := lastIdOf(w.sent[|w.sent| - 1]);
            && (w.end.Stopped? && w.end.error.Api? <==> !Succeeded(last))
            && (w.end.Stopped? && w.end.error.Api? ==>
                  Check(w.sent[|w.sent| - 1], last, transport.parseError) == Some(w.end.error.exception))
            && (w.end == Stopped(NullReference) <==> Succeeded(last) && ReceivedPage(last).None?)
            && (w.end.Stopped? && w.end.error.Conversion? <==> Succeeded(last) && lastId.Some? && lastId.value.Failure?)
            && (w.end.Stopped? && w.end.error.Conversion? ==> lastId == Some(Failure(w.end.error.reason))))
    decreases fuel
  {
    var w := Loop(step, cursor, fuel);
    if fuel > 0 {
      var st := step(cursor);
      assert StepOk(transport, link, lastIdOf, st);
      if st.Next? {
        var rest := Loop(step, st.cursor, fuel - 1);
        LoopStopped(step, transport, link, lastIdOf, st.cursor, fuel - 1);
        assert w.sent == st.sent + rest.sent && w.end == rest.end;
        if rest.sent == [] {
          assert w.sent[|w.sent| - 1] == st.sent[0];
        } else {
          assert w.sent[|w.sent| - 1] == rest.sent[|rest.sent| - 1];
        }
      }
    }
  }

  /** The loop's test `(curlist = GetDonation(...)).Count != 0` and its
      body: a null list is dereferenced, and a last id that does not
      convert raises. */
  function PageStep(s: Session, currency: Option<CurrencyCode>, verified: int32, flavor: Flavor,
                    transport: Transport<DonationListObject>, cursor: int32): (st: Step)
    ensures !Authenticated(s) ==> st == Halt([], Stopped(NullReference))
    ensures Authenticated(s) ==> st.sent == [PageRequest(s.accessToken.value, currency, verified, flavor, cursor)]
  {
    var c := GetDonation(s, Some(100), currency, cursor, 0, verified, flavor, transport);
    match c.outcome
    case Failure(e) => Halt(c.sent, Stopped(e))
    case Success(None) => Halt(c.sent, Stopped(NullReference))
    case Success(Some(page)) =>
      if page == [] then Halt(c.sent, Finished) else Advance(c.sent, page)
  }

  /** The loop body after a non-empty page: `Convert.ToInt32` of the last
      id becomes the next cursor, or raises. */
  function Advance(sent: seq<Request>, page: seq<DonationObject>): (st: Step)
    requires page != []
    ensures var id := ConvertToInt32(page[|page| - 1].donationId);
      && (id.Success? ==> st == Next(sent, page, id.value))
      && (id.Failure? ==> st == Halt(sent, Stopped(Conversion(id.error))))
  {
    match ConvertToInt32(page[|page| - 1].donationId)
    case Failure(reason) => Halt(sent, Stopped(Conversion(reason)))
    case Success(next) => Next(sent, page, next)
  }

  /** `LastIdConversion` as a function of the request. */
  function LastIds(transport: Transport<DonationListObject>): Request -> Option<Result<int32, ConvertError>> {
    (request: Request) => LastIdConversion(transport, request)
  }

  /** `LastIdIs` as the link between a request and the next cursor. */
  function LastIdLink(transport: Transport<DonationListObject>): (Request, int32) -> bool {
    (previous: Request, cursor: int32) => LastIdIs(transport, previous, cursor)
  }

  /** With a token, a failed response stops the iteration with the
      check's exception, which keeps the response's status and body. */
  lemma PageStepFailed(s: Session, currency: Option<CurrencyCode>, verified: int32, flavor: Flavor,
                       transport: Transport<DonationListObject>, cursor: int32)
    requires Authenticated(s)
    requires !Succeeded(transport.send(PageRequest(s.accessToken.value, currency, verified, flavor, cursor)))
    ensures var request := PageRequest(s.accessToken.value, currency, verified, flavor, cursor);
      var st := PageStep(s, currency, verified, flavor, transport, cursor);
      && st.Halt? && st.sent == [request] && st.end.Stopped? && st.end.error.Api?
      && st.end.error.exception.restResult == transport.send(request).content
      && st.end.error.exception.status == transport.send(request).status
      && Check(request, transport.send(request), transport.parseError) == Some(st.end.error.exception)
  {
  }

  /** With a token, a successful response without a list stops the
      iteration with a null dereference. */
  lemma PageStepNoList(s: Session, currency: Option<CurrencyCode>, verified: int32, flavor: Flavor,
                       transport: Transport<DonationListObject>, cursor: int32)
    requires Authenticated(s)
    requires var response := transport.send(PageRequest(s.accessToken.value, currency, verified, flavor, cursor));
      Succeeded(response) && ReceivedPage(response).None?
    ensures PageStep(s, currency, verified, flavor, transport, cursor)
      == Halt([PageRequest(s.accessToken.value, currency, verified, flavor, cursor)], Stopped(NullReference))
  {
  }

  /** With a token, a successful empty page finishes the loop. */
  lemma PageStepEmpty(s: Session, currency: Option<CurrencyCode>, verified: int32, flavor: Flavor,
                      transport: Transport<DonationListObject>, cursor: int32)
    requires Authenticated(s)
    requires var response := transport.send(PageRequest(s.accessToken.value, currency, verified, flavor, cursor));
      Succeeded(response) && ReceivedPage(response) == Some([])
    ensures PageStep(s, currency, verified, flavor, transport, cursor)
      == Halt([PageRequest(s.accessToken.value, currency, verified, flavor, cursor)], Finished)
  {
  }

  /** With a token, a successful non-empty page hands over to `Advance`. */
  lemma PageStepMore(s: Session, currency: Option<CurrencyCode>, verified: int32, flavor: Flavor,
                     transport: Transport<DonationListObject>, cursor: int32)
    requires Authenticated(s)
    requires var response := transport.send(PageRequest(s.accessToken.value, currency, verified, flavor, cursor));
      Succeeded(response) && ReceivedPage(response).Some? && ReceivedPage(response).value != []
    ensures var request := PageRequest(s.accessToken.value, currency, verified, flavor, cursor);
      var page := ReceivedPage(transport.send(request)).value;
      PageStep(s, currency, verified, flavor, transport, cursor) == Advance([request], page)
  {
    var request := PageRequest(s.accessToken.value, currency, verified, flavor, cursor);
    var response := transport.send(request);
    var c := GetDonation(s, Some(100), currency, cursor, 0, verified, flavor, transport);
    assert c == Call([request], Success(Some(response.data.value.list.value)));
  }

  /** After a successful non-empty page, `Advance` keeps the promises of
      `StepOk`. */
  lemma AdvanceOk(transport: Transport<DonationListObject>, request: Request, page: seq<DonationObject>)
    requires Succeeded(transport.send(request)) && ReceivedPage(transport.send(request)) == Some(page) && page != []
    ensures StepOk(transport, LastIdLink(transport), LastIds(transport), Advance([request], page))
  {
    var st := Advance([request], page);
    assert PageOf(transport, request) == page;
    if st.Next? {
      assert LastIdIs(transport, request, st.cursor);
    }
  }

  /** With a token, one iteration keeps the promises of `StepOk`, with
      the page's last id as the next cursor: it sends the page request
      for its cursor and then raises the check's exception on a failed
      response, dereferences a missing list, finishes on an empty page,
      and on a non-empty one moves on to the converted last id or raises
      the conversion's error. */
  lemma PageStepOk(s: Session, currency: Option<CurrencyCode>, verified: int32, flavor: Flavor,
                   transport: Transport<DonationListObject>, cursor: int32)
    requires Authenticated(s)
    ensures var request := PageRequest(s.accessToken.value, currency, verified, flavor, cursor);
      var response := transport.send(request);
      var st := PageStep(s, currency, verified, flavor, transport, cursor);
      && StepOk(transport, LastIdLink(transport), LastIds(transport), st)
      && (!Succeeded(response) ==>
            && st.Halt? && st.sent == [request] && st.end.Stopped? && st.end.error.Api?
            && st.end.error.exception.restResult == response.content
            && st.end.error.exception.status == response.status
            && Check(request, response, transport.parseError) == Some(st.end.error.exception))
      && (Succeeded(response) && ReceivedPage(response).None? ==> st == Halt([request], Stopped(NullReference)))
      && (Succeeded(response) && ReceivedPage(response) == Some([]) ==> st == Halt([request], Finished))
      && (Succeeded(response) && LastIdConversion(transport, request).Some? ==>
            match LastIdConversion(transport, request).value
            case Success(next) => st == Next([request], PageOf(transport, request), next)
            case Failure(reason) => st == Halt([request], Stopped(Conversion(reason))))
  {
    var request := PageRequest(s.accessToken.value, currency, verified, flavor, cursor);
    var st := PageStep(s, currency, verified, flavor, transport, cursor);
    var response := transport.send(request);
    if !Succeeded(response) {
      PageStepFailed(s, currency, verified, flavor, transport, cursor);
    } else if ReceivedPage(response).None? {
      PageStepNoList(s, currency, verified, flavor, transport, cursor);
    } else if ReceivedPage(response).value == [] {
      PageStepEmpty(s, currency, verified, flavor, transport, cursor);
    } else {
      var page := ReceivedPage(response).value;
      PageStepMore(s, currency, verified, flavor, transport, cursor);
      AdvanceOk(transport, request, page);
      assert PageOf(transport, request) == page;
    }
  }

  /** The iteration of the session's loop, as a function of the cursor. */
  function Fetcher(s: Session, currency: Option<CurrencyCode>, verified: int32, flavor: Flavor,
                   transport: Transport<DonationListObject>): int32 -> Step
  {
    (cursor: int32) => PageStep(s, currency, verified, flavor, transport, cursor)
  }

  /** The session's loop from `cursor`. */
  function WalkPages(s: Session, currency: Option<CurrencyCode>, verified: int32, flavor: Flavor,
                     transport: Transport<DonationListObject>, cursor: int32, fuel: nat): Walk
  {
    Loop(Fetcher(s, currency, verified, flavor, transport), cursor, fuel)
  }

  /** With a token, every iteration sends the page request for its cursor
      and behaves as `StepOk` says. */
  lemma FetcherOk(s: Session, currency: Option<CurrencyCode>, verified: int32, flavor: Flavor,
                  transport: Transport<DonationListObject>)
    requires Authenticated(s)
    ensures var step := Fetcher(s, currency, verified, flavor, transport);
      forall c :: StepOk(transport, LastIdLink(transport), LastIds(transport), step(c)) && step(c).sent == [PageRequest(s.accessToken.value, currency, verified, flavor, c)]
  {
    var step := Fetcher(s, currency, verified, flavor, transport);
    forall c
      ensures StepOk(transport, LastIdLink(transport), LastIds(transport), step(c)) && step(c).sent == [PageRequest(s.accessToken.value, currency, verified, flavor, c)]
    {
      assert step(c) == PageStep(s, currency, verified, flavor, transport, c);
      PageStepOk(s, currency, verified, flavor, transport, c);
    }
  }

  /** Without a token the first `GetDonation` returns null and the loop's
      `Count` dereferences it: nothing is sent. */
  lemma WalkUnauthenticated(s: Session, currency: Option<CurrencyCode>, verified: int32, flavor: Flavor,
                            transport: Transport<DonationListObject>, cursor: int32, fuel: nat)
    requires !Authenticated(s) && fuel > 0
    ensures WalkPages(s, currency, verified, flavor, transport, cursor, fuel) == Walk([], [], [], Stopped(NullReference))
  {
    assert Fetcher(s, currency, verified, flavor, transport)(cursor) == PageStep(s, currency, verified, flavor, transport, cursor);
  }

  /** Each request of `sent` asks for the page before its cursor. */
  predicate RequestsMatchCursors(sent: seq<Request>, cursors: seq<int32>, accessToken: string,
                                 currency: Option<CurrencyCode>, verified: int32, flavor: Flavor)
  {
    && |sent| == |cursors|
    && forall i :: 0 <= i < |sent| ==> sent[i] == PageRequest(accessToken, currency, verified, flavor, cursors[i])
  }

  /** With a token, the loop's trace: at most `fuel` requests, the first
      for `cursor`, each the page request for its cursor, and each later
      cursor the last id of the page before it. */
  lemma WalkTrace(s: Session, currency: Option<CurrencyCode>, verified: int32, flavor: Flavor,
                  transport: Transport<DonationListObject>, cursor: int32, fuel: nat)
    requires Authenticated(s)
    ensures var w := WalkPages(s, currency, verified, flavor, transport, cursor, fuel);
      && |w.sent| <= fuel
      && (fuel > 0 ==> |w.sent| >= 1 && w.cursors[0] == cursor)
      && RequestsMatchCursors(w.sent, w.cursors, s.accessToken.value, currency, verified, flavor)
      && CursorsChain(LastIdLink(transport), w.sent, w.cursors)
  {
    var step := Fetcher(s, currency, verified, flavor, transport);
    var w := Loop(step, cursor, fuel);
    FetcherOk(s, currency, verified, flavor, transport);
    LoopTrace(step, transport, LastIdLink(transport), LastIds(transport), cursor, fuel);
    LoopChain(step, transport, LastIdLink(transport), LastIds(transport), cursor, fuel);
    forall i | 0 <= i < |w.sent|
      ensures w.sent[i] == PageRequest(s.accessToken.value, currency, verified, flavor, w.cursors[i])
    {
      assert w.sent[i] == step(w.cursors[i]).sent[0];
    }
  }

  /** With a token, consecutive requests of the loop follow one another. */
  lemma WalkChained(s: Session, currency: Option<CurrencyCode>, verified: int32, flavor: Flavor,
                    transport: Transport<DonationListObject>, cursor: int32, fuel: nat)
    requires Authenticated(s)
    ensures var w := WalkPages(s, currency, verified, flavor, transport, cursor, fuel);
      && |w.sent| <= fuel
      && (fuel > 0 ==> |w.sent| >= 1 && w.sent[0] == PageRequest(s.accessToken.value, currency, verified, flavor, cursor))
      && Chained(transport, s.accessToken.value, currency, verified, flavor, w.sent)
  {
    var w := WalkPages(s, currency, verified, flavor, transport, cursor, fuel);
    WalkTrace(s, currency, verified, flavor, transport, cursor, fuel);
    forall i | 0 < i < |w.sent|
      ensures Follows(transport, s.accessToken.value, currency, verified, flavor, w.sent[i - 1], w.sent[i])
    {
      assert LastIdLink(transport)(w.sent[i - 1], w.cursors[i]);
      assert LastIdIs(transport, w.sent[i - 1], w.cursors[i]);
      assert NextCursor(transport, w.sent[i - 1]) == w.cursors[i];
      assert w.sent[i] == PageRequest(s.accessToken.value, currency, verified, flavor, w.cursors[i]);
    }
  }

  /** What the loop's ending makes `GetAllDonations` return or raise; the
      model's step bound running out is reported as `FuelExhausted`. */
  function Outcome(w: Walk): Result<seq<DonationObject>, ClientError> {
    match w.end
    case Finished => Success(w.collected)
    case Stopped(e) => Failure(e)
    case OutOfFuel => Failure(FuelExhausted)
  }

  /** Once a request was sent, the last response alone decides the
      outcome: success exactly on a successful empty page, the check's
      exception exactly when it failed, a null dereference exactly when it
      succeeded without a list, and the conversion's error (that very
      error) exactly when `lastIdOf` says its page's last id does not
      convert. */
  predicate DecidedByLast(transport: Transport<DonationListObject>, lastIdOf: Request -> Option<Result<int32, ConvertError>>,
                          sent: seq<Request>, outcome: Result<seq<DonationObject>, ClientError>)
  {
    sent != [] ==>
      var last := transport.send(sent[|sent| - 1]);
      var lastId := lastIdOf(sent[|sent| - 1]);
      && (outcome.Success? <==> Succeeded(last) && ReceivedPage(last) == Some([]))
      && (outcome.Failure? && outcome.error.Api? <==> !Succeeded(last))
      && (outcome.Failure? && outcome.error.Api? ==>
            Check(sent[|sent| - 1], last, transport.parseError) == Some(outcome.error.exception))
      && (outcome == Failure(NullReference) <==> Succeeded(last) && ReceivedPage(last).None?)
      && (outcome.Failure? && outcome.error.Conversion? <==> Succeeded(last) && lastId.Some? && lastId.value.Failure?)
      && (outcome.Failure? && outcome.error.Conversion? ==> lastId == Some(Failure(outcome.error.reason)))
  }

  /** `GetAllDonations` (sync flavour) and `GetAllDonationsAsync` (async
      flavour): every donation, newest page first. */
  function GetAllDonations(s: Session, currency: Option<CurrencyCode>, verified: int32, flavor: Flavor,
                           transport: Transport<DonationListObject>, fuel: nat): (c: Call<seq<DonationObject>>)
    ensures fuel == 0 ==> c == Call([], Failure(FuelExhausted))
    ensures !Authenticated(s) && fuel > 0 ==> c == Call([], Failure(NullReference))
    ensures Authenticated(s) && fuel > 0 ==>
      && 1 <= |c.sent| <= fuel
      && c.sent[0] == PageRequest(s.accessToken.value, currency, verified, flavor, 0)
    ensures Authenticated(s) ==> Chained(transport, s.accessToken.value, currency, verified, flavor, c.sent)
    ensures c.outcome.Success? ==>
      && c.sent != []
      && Succeeded(transport.send(c.sent[|c.sent| - 1]))
      && ReceivedPage(transport.send(c.sent[|c.sent| - 1])) == Some([])
      && c.outcome.value == Flatten(Pages(transport, c.sent))
    ensures c.outcome.Failure? && c.outcome.error.Api? ==> c.sent != [] && !Succeeded(transport.send(c.sent[|c.sent| - 1]))
    ensures c.outcome == Failure(FuelExhausted) ==> |c.sent| == fuel
    ensures DecidedByLast(transport, LastIds(transport), c.sent, c.outcome)
  {
    var w := WalkPages(s, currency, verified, flavor, transport, 0, fuel);
    WalkFacts(s, currency, verified, flavor, transport, fuel);
    WalkDecided(s, currency, verified, flavor, transport, fuel);
    Call(w.sent, Outcome(w))
  }

  /** The facts `GetAllDonations` reports about the requests of its walk. */
  lemma WalkFacts(s: Session, currency: Option<CurrencyCode>, verified: int32, flavor: Flavor,
                  transport: Transport<DonationListObject>, fuel: nat)
    ensures var w := WalkPages(s, currency, verified, flavor, transport, 0, fuel);
      && (fuel == 0 ==> w == Walk([], [], [], OutOfFuel))
      && (!Authenticated(s) && fuel > 0 ==> w == Walk([], [], [], Stopped(NullReference)))
      && (Authenticated(s) && fuel > 0 ==>
            && 1 <= |w.sent| <= fuel
            && w.sent[0] == PageRequest(s.accessToken.value, currency, verified, flavor, 0))
      && (Authenticated(s) ==> Chained(transport, s.accessToken.value, currency, verified, flavor, w.sent))
      && (w.end.Finished? ==> w.sent != [] && w.collected == Flatten(Pages(transport, w.sent)))
  {
    var step := Fetcher(s, currency, verified, flavor, transport);
    if Authenticated(s) {
      FetcherOk(s, currency, verified, flavor, transport);
      WalkChained(s, currency, verified, flavor, transport, 0, fuel);
      LoopFinished(step, transport, LastIdLink(transport), LastIds(transport), 0, fuel);
      LoopCollects(step, transport, LastIdLink(transport), LastIds(transport), 0, fuel);
    } else if fuel > 0 {
      WalkUnauthenticated(s, currency, verified, flavor, transport, 0, fuel);
    }
  }

  /** How any loop of well-behaved iterations ended: decided by its last
      response, and by the step bound only after `fuel` requests. */
  lemma LoopDecided(step: int32 -> Step, transport: Transport<DonationListObject>, link: (Request, int32) -> bool,
                    lastIdOf: Request -> Option<Result<int32, ConvertError>>, cursor: int32, fuel: nat)
    requires forall c :: StepOk(transport, link, lastIdOf, step(c))
    ensures var w := Loop(step, cursor, fuel);
      && DecidedByLast(transport, lastIdOf, w.sent, Outcome(w))
      && (Outcome(w) == Failure(FuelExhausted) ==> |w.sent| == fuel)
      && (Outcome(w).Success? ==> w.sent != [])
      && (Outcome(w).Failure? && Outcome(w).error.Api? ==> w.sent != [])
  {
    LoopTrace(step, transport, link, lastIdOf, cursor, fuel);
    LoopFinished(step, transport, link, lastIdOf, cursor, fuel);
    LoopStopped(step, transport, link, lastIdOf, cursor, fuel);
  }

  /** How the walk of `GetAllDonations` ended: decided by its last
      response, and by the step bound only after `fuel` requests. */
  lemma WalkDecided(s: Session, currency: Option<CurrencyCode>, verified: int32, flavor: Flavor,
                    transport: Transport<DonationListObject>, fuel: nat)
    ensures var w := WalkPages(s, currency, verified, flavor, transport, 0, fuel);
      && DecidedByLast(transport, LastIds(transport), w.sent, Outcome(w))
      && (Outcome(w) == Failure(FuelExhausted) ==> |w.sent| == fuel)
      && (Outcome(w).Success? ==> w.sent != [])
      && (Outcome(w).Failure? && Outcome(w).error.Api? ==> w.sent != [])
  {
    if Authenticated(s) {
      FetcherOk(s, currency, verified, flavor, transport);
      LoopDecided(Fetcher(s, currency, verified, flavor, transport), transport, LastIdLink(transport), LastIds(transport), 0, fuel);
    } else if fuel > 0 {
      WalkUnauthenticated(s, currency, verified, flavor, transport, 0, fuel);
    }
  }

  /** From `cursor`, the server answers `k` successful non-empty pages,
      each ending in an id that converts and positions the next request,
      and then a successful empty page. */
  predicate GoodRun(transport: Transport<DonationListObject>, accessToken: string, currency: Option<CurrencyCode>,
                    verified: int32, flavor: Flavor, cursor: int32, k: nat)
    decreases k
  {
    var request := PageRequest(accessToken, currency, verified, flavor, cursor);
    if k == 0 then Succeeded(transport.send(request)) && ReceivedPage(transport.send(request)) == Some([])
    else
      && LastIdIs(transport, request, NextCursor(transport, request))
      && GoodRun(transport, accessToken, currency, verified, flavor, NextCursor(transport, request), k - 1)
  }

  /** From `cursor`, `k` iterations move on and the one after them
      finishes, each sending one request. */
  predicate Runs(step: int32 -> Step, cursor: int32, k: nat)
    decreases k
  {
    && |step(cursor).sent| == 1
    && if k == 0 then step(cursor).Halt? && step(cursor).end.Finished?
       else step(cursor).Next? && Runs(step, step(cursor).cursor, k - 1)
  }

  /** A run of `k` iterations under a bound above `k`: the loop sends
      `k + 1` requests and finishes. */
  lemma {:induction false} LoopRuns(step: int32 -> Step, cursor: int32, k: nat, fuel: nat)
    requires Runs(step, cursor, k) && fuel > k
    ensures var w := Loop(step, cursor, fuel);
      |w.sent| == k + 1 && w.end.Finished?
    decreases k
  {
    if k > 0 {
      LoopRuns(step, step(cursor).cursor, k - 1, fuel - 1);
    }
  }

  /** Conversely, a finished loop whose iterations each send one request
      was a run of one iteration fewer than it sent. */
  lemma {:induction false} LoopFinishedRuns(step: int32 -> Step, cursor: int32, fuel: nat)
    requires forall c :: |step(c).sent| == 1
    requires Loop(step, cursor, fuel).end.Finished?
    ensures var w := Loop(step, cursor, fuel);
      w.sent != [] && Runs(step, cursor, |w.sent| - 1)
    decreases fuel
  {
    if step(cursor).Next? {
      LoopFinishedRuns(step, step(cursor).cursor, fuel - 1);
    }
  }

  /** The iteration of the session's loop at `cursor`: it sends the page
      request for `cursor`, finishes exactly on a successful empty page,
      and moves on exactly when the page's last id converts, to that id. */
  lemma PageStepLink(s: Session, currency: Option<CurrencyCode>, verified: int32, flavor: Flavor,
                     transport: Transport<DonationListObject>, cursor: int32)
    requires Authenticated(s)
    ensures var request := PageRequest(s.accessToken.value, currency, verified, flavor, cursor);
      var st := Fetcher(s, currency, verified, flavor, transport)(cursor);
      && st.sent == [request]
      && (st.Halt? && st.end.Finished? <==>
            Succeeded(transport.send(request)) && ReceivedPage(transport.send(request)) == Some([]))
      && (st.Next? <==> LastIdIs(transport, request, NextCursor(transport, request)))
      && (st.Next? ==> st.cursor == NextCursor(transport, request) && st.page == PageOf(transport, request))
  {
    var request := PageRequest(s.accessToken.value, currency, verified, flavor, cursor);
    var st := PageStep(s, currency, verified, flavor, transport, cursor);
    assert Fetcher(s, currency, verified, flavor, transport)(cursor) == st;
    PageStepOk(s, currency, verified, flavor, transport, cursor);
    if st.Next? {
      assert LastIdIs(transport, request, st.cursor);
    }
  }

  /** A good run from `cursor` is exactly a run of the session's loop. */
  lemma {:induction false} GoodRunRuns(s: Session, currency: Option<CurrencyCode>, verified: int32, flavor: Flavor,
                                       transport: Transport<DonationListObject>, cursor: int32, k: nat)
    requires Authenticated(s)
    ensures GoodRun(transport, s.accessToken.value, currency, verified, flavor, cursor, k)
      <==> Runs(Fetcher(s, currency, verified, flavor, transport), cursor, k)
    decreases k
  {
    PageStepLink(s, currency, verified, flavor, transport, cursor);
    if k > 0 {
      var request := PageRequest(s.accessToken.value, currency, verified, flavor, cursor);
      GoodRunRuns(s, currency, verified, flavor, transport, NextCursor(transport, request), k - 1);
    }
  }

  /** Every iteration of the session's loop sends one request. */
  lemma FetcherSendsOne(s: Session, currency: Option<CurrencyCode>, verified: int32, flavor: Flavor,
                        transport: Transport<DonationListObject>)
    requires Authenticated(s)
    ensures forall c :: |Fetcher(s, currency, verified, flavor, transport)(c).sent| == 1
  {
    forall c
      ensures |Fetcher(s, currency, verified, flavor, transport)(c).sent| == 1
    {
      assert Fetcher(s, currency, verified, flavor, transport)(c) == PageStep(s, currency, verified, flavor, transport, c);
    }
  }

  /** Against a good run of `k` pages, a loop with bound above `k` sends
      `k + 1` requests and finishes. */
  lemma WalkGoodRun(s: Session, currency: Option<CurrencyCode>, verified: int32, flavor: Flavor,
                    transport: Transport<DonationListObject>, cursor: int32, k: nat, fuel: nat)
    requires Authenticated(s)
    requires GoodRun(transport, s.accessToken.value, currency, verified, flavor, cursor, k)
    requires fuel > k
    ensures var w := WalkPages(s, currency, verified, flavor, transport, cursor, fuel);
      |w.sent| == k + 1 && w.end.Finished?
  {
    GoodRunRuns(s, currency, verified, flavor, transport, cursor, k);
    LoopRuns(Fetcher(s, currency, verified, flavor, transport), cursor, k, fuel);
  }

  /** A finished loop of the session was a run of one iteration fewer
      than it sent. */
  lemma WalkFinishedRuns(s: Session, currency: Option<CurrencyCode>, verified: int32, flavor: Flavor,
                         transport: Transport<DonationListObject>, cursor: int32, fuel: nat)
    requires Authenticated(s)
    requires WalkPages(s, currency, verified, flavor, transport, cursor, fuel).end.Finished?
    ensures var w := WalkPages(s, currency, verified, flavor, transport, cursor, fuel);
      w.sent != [] && Runs(Fetcher(s, currency, verified, flavor, transport), cursor, |w.sent| - 1)
  {
    FetcherSendsOne(s, currency, verified, flavor, transport);
    LoopFinishedRuns(Fetcher(s, currency, verified, flavor, transport), cursor, fuel);
  }

  /** A finished loop was a good run of one page fewer than it sent. */
  lemma WalkFinishedIsGoodRun(s: Session, currency: Option<CurrencyCode>, verified: int32, flavor: Flavor,
                              transport: Transport<DonationListObject>, cursor: int32, fuel: nat)
    requires Authenticated(s)
    requires WalkPages(s, currency, verified, flavor, transport, cursor, fuel).end.Finished?
    ensures var w := WalkPages(s, currency, verified, flavor, transport, cursor, fuel);
      w.sent != [] && GoodRun(transport, s.accessToken.value, currency, verified, flavor, cursor, |w.sent| - 1)
  {
    var w := WalkPages(s, currency, verified, flavor, transport, cursor, fuel);
    WalkFinishedRuns(s, currency, verified, flavor, transport, cursor, fuel);
    GoodRunRuns(s, currency, verified, flavor, transport, cursor, |w.sent| - 1);
  }

  /** `GetAllDonations` against a server that serves `k` non-empty pages
      and then an empty one, with bound above `k`: `k + 1` requests and
      every donation of those pages, in order. */
  lemma AllDonationsGoodRun(s: Session, currency: Option<CurrencyCode>, verified: int32, flavor: Flavor,
                            transport: Transport<DonationListObject>, k: nat, fuel: nat)
    requires Authenticated(s)
    requires GoodRun(transport, s.accessToken.value, currency, verified, flavor, 0, k)
    requires fuel > k
    ensures var c := GetAllDonations(s, currency, verified, flavor, transport, fuel);
      && |c.sent| == k + 1
      && c.outcome == Success(Flatten(Pages(transport, c.sent)))
  {
    WalkGoodRun(s, currency, verified, flavor, transport, 0, k, fuel);
  }

  /** The server answers the page request for `cursors[i]` with a
      successful reply carrying `pages[i]`, and every page but the last is
      non-empty with a last id that converts to the next cursor. */
  predicate ServesPages(transport: Transport<DonationListObject>, accessToken: string, currency: Option<CurrencyCode>,
                        verified: int32, flavor: Flavor, cursors: seq<int32>, pages: seq<seq<DonationObject>>)
  {
    && |cursors| == |pages|
    && (forall i :: 0 <= i < |pages| ==>
          var response := transport.send(PageRequest(accessToken, currency, verified, flavor, cursors[i]));
          Succeeded(response) && ReceivedPage(response) == Some(pages[i]))
    && (forall i :: 0 <= i < |pages| - 1 ==>
          pages[i] != [] && ConvertToInt32(pages[i][|pages[i]| - 1].donationId) == Success(cursors[i + 1]))
  }

  /** Iterating from `cursors[0]`: the `i`-th iteration sends one request,
      keeps `pages[i]` and moves on to `cursors[i + 1]`, and the last one
      finishes on an empty page. */
  predicate Walks(step: int32 -> Step, cursors: seq<int32>, pages: seq<seq<DonationObject>>) {
    && |cursors| == |pages| > 0
    && (forall i :: 0 <= i < |pages| ==> |step(cursors[i]).sent| == 1)
    && (forall i :: 0 <= i < |pages| - 1 ==> step(cursors[i]) == Next(step(cursors[i]).sent, pages[i], cursors[i + 1]))
    && step(cursors[|pages| - 1]).Halt? && step(cursors[|pages| - 1]).end.Finished?
    && pages[|pages| - 1] == []
  }

  /** Such a loop, under a bound that covers it, sends the iterations'
      requests in order, finishes, and collects all the pages in order. */
  lemma {:induction false} LoopWalks(step: int32 -> Step, cursors: seq<int32>, pages: seq<seq<DonationObject>>, fuel: nat)
    requires Walks(step, cursors, pages) && fuel >= |pages|
    ensures var w := Loop(step, cursors[0], fuel);
      && |w.sent| == |pages|
      && (forall i :: 0 <= i < |pages| ==> w.sent[i] == step(cursors[i]).sent[0])
      && w.end.Finished?
      && w.collected == Flatten(pages)
    decreases |pages|
  {
    var w := Loop(step, cursors[0], fuel);
    if |pages| == 1 {
      assert Flatten(pages) == pages[0] + Flatten([]);
    } else {
      var st := step(cursors[0]);
      assert st == Next(st.sent, pages[0], cursors[1]);
      assert Walks(step, cursors[1..], pages[1..]) by {
        assert forall i :: 0 <= i < |pages| - 1 ==> cursors[1..][i] == cursors[i + 1] && pages[1..][i] == pages[i + 1];
      }
      LoopWalks(step, cursors[1..], pages[1..], fuel - 1);
      var rest := Loop(step, cursors[1], fuel - 1);
      assert w.sent == st.sent + rest.sent && w.collected == pages[0] + rest.collected;
      forall i | 0 < i < |pages|
        ensures w.sent[i] == step(cursors[i]).sent[0]
      {
        assert w.sent[i] == rest.sent[i - 1] && cursors[1..][i - 1] == cursors[i];
      }
    }
  }

  /** A request that received a non-empty page whose last id converts
      positions the next request at that id. */
  lemma ServedStep(transport: Transport<DonationListObject>, request: Request, page: seq<DonationObject>, cursor: int32)
    requires Succeeded(transport.send(request)) && ReceivedPage(transport.send(request)) == Some(page)
    requires page != [] && ConvertToInt32(page[|page| - 1].donationId) == Success(cursor)
    ensures PageOf(transport, request) == page
    ensures LastIdIs(transport, request, cursor) && NextCursor(transport, request) == cursor
  {
  }

  /** Any iteration that keeps to `StepOk` and sends `request(c)` from
      cursor `c` walks through pages served in order. */
  lemma WalksFromSteps(step: int32 -> Step, transport: Transport<DonationListObject>, request: int32 -> Request,
                       cursors: seq<int32>, pages: seq<seq<DonationObject>>)
    requires forall c :: StepOk(transport, LastIdLink(transport), LastIds(transport), step(c)) && step(c).sent == [request(c)]
    requires |cursors| == |pages| > 0 && pages[|pages| - 1] == []
    requires forall i :: 0 <= i < |pages| ==>
      Succeeded(transport.send(request(cursors[i]))) && ReceivedPage(transport.send(request(cursors[i]))) == Some(pages[i])
    requires forall i :: 0 <= i < |pages| - 1 ==>
      pages[i] != [] && ConvertToInt32(pages[i][|pages[i]| - 1].donationId) == Success(cursors[i + 1])
    ensures Walks(step, cursors, pages)
  {
    forall i | 0 <= i < |pages| - 1
      ensures step(cursors[i]) == Next(step(cursors[i]).sent, pages[i], cursors[i + 1])
    {
      var st := step(cursors[i]);
      ServedStep(transport, request(cursors[i]), pages[i], cursors[i + 1]);
      assert st.Next?;
      assert LastIdIs(transport, request(cursors[i]), st.cursor);
    }
    var last := step(cursors[|pages| - 1]);
    assert Succeeded(transport.send(last.sent[0])) && ReceivedPage(transport.send(last.sent[0])) == Some([]);
  }

  /** The session's loop against served pages is such a walk. */
  lemma ServedWalks(s: Session, currency: Option<CurrencyCode>, verified: int32, flavor: Flavor,
                    transport: Transport<DonationListObject>, cursors: seq<int32>, pages: seq<seq<DonationObject>>)
    requires Authenticated(s)
    requires ServesPages(transport, s.accessToken.value, currency, verified, flavor, cursors, pages)
    requires pages != [] && pages[|pages| - 1] == []
    ensures var step := Fetcher(s, currency, verified, flavor, transport);
      && Walks(step, cursors, pages)
      && forall i :: 0 <= i < |pages| ==> step(cursors[i]).sent[0] == PageRequest(s.accessToken.value, currency, verified, flavor, cursors[i])
  {
    FetcherOk(s, currency, verified, flavor, transport);
    var request := (c: int32) => PageRequest(s.accessToken.value, currency, verified, flavor, c);
    WalksFromSteps(Fetcher(s, currency, verified, flavor, transport), transport, request, cursors, pages);
  }

  /** `GetAllDonations` against a server that serves `pages` for `cursors`,
      starting from cursor 0 and ending on an empty page, under a bound
      that covers them: it sends exactly the page requests for those
      cursors, in order, and returns the donations of all the pages, in
      order. */
  lemma AllDonationsPages(s: Session, currency: Option<CurrencyCode>, verified: int32, flavor: Flavor,
                          transport: Transport<DonationListObject>, cursors: seq<int32>,
                          pages: seq<seq<DonationObject>>, fuel: nat)
    requires Authenticated(s)
    requires ServesPages(transport, s.accessToken.value, currency, verified, flavor, cursors, pages)
    requires pages != [] && pages[|pages| - 1] == [] && cursors[0] == 0
    requires fuel >= |pages|
    ensures var c := GetAllDonations(s, currency, verified, flavor, transport, fuel);
      && |c.sent| == |pages|
      && (forall i :: 0 <= i < |pages| ==> c.sent[i] == PageRequest(s.accessToken.value, currency, verified, flavor, cursors[i]))
      && c.outcome == Success(Flatten(pages))
  {
    ServedWalks(s, currency, verified, flavor, transport, cursors, pages);
    LoopWalks(Fetcher(s, currency, verified, flavor, transport), cursors, pages, fuel);
  }

  /** Conversely, `GetAllDonations` succeeds only against a good run of one
      page fewer than it sent. */
  lemma AllDonationsSucceeded(s: Session, currency: Option<CurrencyCode>, verified: int32, flavor: Flavor,
                              transport: Transport<DonationListObject>, fuel: nat)
    requires Authenticated(s)
    requires GetAllDonations(s, currency, verified, flavor, transport, fuel).outcome.Success?
    ensures var c := GetAllDonations(s, currency, verified, flavor, transport, fuel);
      c.sent != [] && GoodRun(transport, s.accessToken.value, currency, verified, flavor, 0, |c.sent| - 1)
  {
    WalkFinishedIsGoodRun(s, currency, verified, flavor, transport, 0, fuel);
  }

  /** On a fresh session, with any arguments, `GetAllDonations` sends
      nothing and raises the null dereference of its first `Count`. */
  lemma FreshSessionListsNothing(clientId: string, clientSecret: string, redirectUri: string, scope: TwitchScope,
                                 currency: Option<CurrencyCode>, verified: int32, flavor: Flavor,
                                 transport: Transport<DonationListObject>, fuel: nat)
    requires fuel > 0
    ensures GetAllDonations(NewSession(clientId, clientSecret, redirectUri, scope), currency, verified, flavor, transport, fuel)
      == Call([], Failure(NullReference))
  {
  }

  /** A page request carries `before` exactly when its cursor is
      positive, and reading it back gives the cursor; it never carries
      `after`. */
  lemma PageRequestCursor(accessToken: string, currency: Option<CurrencyCode>, verified: int32, flavor: Flavor, cursor: int32)
    ensures var q := PageRequest(accessToken, currency, verified, flavor, cursor).query;
      && ("before" in q <==> cursor > 0)
      && ("before" in q ==> ConvertToInt32(q["before"]) == Success(cursor))
      && "after" !in q
  {
    ParseIntToString(cursor);
  }

  /** Each page request of the sync loop asks for 100 donations; the async
      loop's `limit < 100` guard drops the limit, so the server's default
      applies. */
  lemma PageRequestLimit(accessToken: string, currency: Option<CurrencyCode>, verified: int32, flavor: Flavor, cursor: int32)
    ensures var r := PageRequest(accessToken, currency, verified, flavor, cursor);
      && (flavor == Async ==> "limit" !in r.query)
      && (flavor == Sync ==> "limit" in r.query && r.query["limit"] == Some("100"))
  {
    assert IntToString(100) == "100" by {
      assert NatToDigits(10) == "10";
      assert NatToDigits(100) == NatToDigits(10) + "0";
    }
  }

  /** The first request of `GetAllDonations` never carries `before`. */
  lemma FirstRequestOmitsBefore(s: Session, currency: Option<CurrencyCode>, verified: int32, flavor: Flavor,
                                transport: Transport<DonationListObject>, fuel: nat)
    requires Authenticated(s) && fuel > 0
    ensures var c := GetAllDonations(s, currency, verified, flavor, transport, fuel);
      "before" !in c.sent[0].query && "after" !in c.sent[0].query
  {
  }

  /** Every later request of `GetAllDonations` is positioned by the page
      before it: that page was non-empty, its last id converts, and the
      request carries that id as `before` exactly when it is positive. */
  lemma LaterCursorIsLastId(s: Session, currency: Option<CurrencyCode>, verified: int32, flavor: Flavor,
                            transport: Transport<DonationListObject>, fuel: nat, i: nat)
    requires Authenticated(s)
    requires 0 < i < |GetAllDonations(s, currency, verified, flavor, transport, fuel).sent|
    ensures var c := GetAllDonations(s, currency, verified, flavor, transport, fuel);
      var id := NextCursor(transport, c.sent[i - 1]);
      var q := c.sent[i].query;
      && LastIdIs(transport, c.sent[i - 1], id)
      && ("before" in q <==> id > 0)
      && ("before" in q ==> ConvertToInt32(q["before"]) == Success(id))
      && "after" !in q
  {
    var c := GetAllDonations(s, currency, verified, flavor, transport, fuel);
    assert Follows(transport, s.accessToken.value, currency, verified, flavor, c.sent[i - 1], c.sent[i]);
    PageRequestCursor(s.accessToken.value, currency, verified, flavor, NextCursor(transport, c.sent[i - 1]));
  }

  /** Every request of `GetAllDonations` carries limit 100 in the sync
      flavour and no limit in the async one. */
  lemma AllDonationsLimit(s: Session, currency: Option<CurrencyCode>, verified: int32, flavor: Flavor,
                          transport: Transport<DonationListObject>, fuel: nat, i: nat)
    requires Authenticated(s)
    requires i < |GetAllDonations(s, currency, verified, flavor, transport, fuel).sent|
    ensures var c := GetAllDonations(s, currency, verified, flavor, transport, fuel);
      && (flavor == Async ==> "limit" !in c.sent[i].query)
      && (flavor == Sync ==> "limit" in c.sent[i].query && c.sent[i].query["limit"] == Some("100"))
  {
    var c := GetAllDonations(s, currency, verified, flavor, transport, fuel);
    var token := s.accessToken.value;
    if i == 0 {
      PageRequestLimit(token, currency, verified, flavor, 0);
    } else {
      assert Follows(transport, token, currency, verified, flavor, c.sent[i - 1], c.sent[i]);
      PageRequestLimit(token, currency, verified, flavor, NextCursor(transport, c.sent[i - 1]));
    }
  }
}
