/**
  The Turbolinks middleware: just before a response's headers go out, a
  redirect's Location is stashed in the client's temp data, and the next
  response that is not a redirect carries it back as a
  `Turbolinks-Location` header. The temp data is saved once per response.
*/
module Turbolinks {
  import opened Wrappers
  import opened TempData
  import opened Http

  /** The temp-data key and the response header name, which are the same string. */
  const TurboLinksLocationKey := "Turbolinks-Location"

  /** The status codes treated as redirects. */
  const RedirectCodes: seq<int> := [301, 302]

  /** Membership of `code` in `codes`, scanning from the front. */
  function Contains(codes: seq<int>, code: int): (r: bool)
    ensures r <==> exists i :: 0 <= i < |codes| && codes[i] == code
  {
    if codes == [] then false
    else codes[0] == code || Contains(codes[1..], code)
  }

  /** A response is a redirect exactly when its status is 301 or 302; 303, 307 and 308 are not. */
  function IsRedirect(statusCode: int): (r: bool)
    ensures r <==> statusCode == 301 || statusCode == 302
  {
    assert RedirectCodes[0] == 301 && RedirectCodes[1] == 302;
    Contains(RedirectCodes, statusCode)
  }

  /** What one run of the hook leaves: the response, the temp data, and whether it threw. */
  datatype HookResult = HookResult(response: Response, store: StoreState, outcome: Outcome<Error>)

  /** The pending location of a store: the value under the key, if any. */
  function Pending(data: map<string, Value>): Option<Value>
  {
    if TurboLinksLocationKey in data then Some(data[TurboLinksLocationKey]) else None
  }

  /**
    The hook run on one response with the temp data of its client.
    A redirect writes its Location into the store; any other response gets
    the pending location as a header; then the store is saved. Only
    `Headers.Add` can throw, when the response already has the header, and
    then the save is not reached.
  */
  function Hook(response: Response, store: StoreState): (r: HookResult)
    requires store.Valid()
    ensures r.store.Valid()
    ensures r.response.statusCode == response.statusCode
    // the only fault: adding the header to a response that already has it
    ensures r.outcome.Fail? <==>
              !IsRedirect(response.statusCode) && TurboLinksLocationKey in store.data
              && TurboLinksLocationKey in response.headers
    ensures r.outcome.Fail? ==>
              r.outcome.error == DuplicateHeader(TurboLinksLocationKey) && r.response == response
              && r.store.data == store.data && r.store.saved == store.saved
              && r.store.saveCount == store.saveCount
    // on every other path the store is saved exactly once, keeping the live entries
    ensures r.outcome.Pass? ==>
              r.store.saveCount == store.saveCount + 1 && r.store.saved == r.store.data
              && forall k :: k != TurboLinksLocationKey ==>
                   (k in r.store.data <==> k in store.live)
                   && (k in r.store.data ==> r.store.data[k] == store.data[k])
    // a redirect records its Location, replacing any pending one, and leaves the headers alone
    ensures IsRedirect(response.statusCode) ==>
              r.response == response
              && Pending(r.store.data) == Some(HeaderValue(response.headers, LocationHeader))
    // any other response consumes the pending location ...
    ensures !IsRedirect(response.statusCode) && r.outcome.Pass? ==>
              Pending(r.store.data) == None
    // ... carries it as a header, all other headers unchanged
    ensures !IsRedirect(response.statusCode) && r.outcome.Pass? && Pending(store.data).Some? ==>
              HeaderValue(r.response.headers, TurboLinksLocationKey) == Pending(store.data).value
              && forall n :: n != TurboLinksLocationKey ==>
                   HeaderValue(r.response.headers, n) == HeaderValue(response.headers, n)
    // ... and with nothing pending the response is left as it was
    ensures !IsRedirect(response.statusCode) && Pending(store.data).None? ==> r.response == response
  {
    if IsRedirect(response.statusCode) then
      var written := Write(store, TurboLinksLocationKey, HeaderValue(response.headers, LocationHeader));
      HookResult(response, Persist(written), Pass)
    else
      var (location, read) := TryGet(store, TurboLinksLocationKey);
      if location.None? then
        HookResult(response, Persist(read), Pass)
      else
        match AddHeader(response.headers, TurboLinksLocationKey, location.value)
        case Failure(e) => HookResult(response, read, Fail(e))
        case Success(headers) => HookResult(response.(headers := headers), Persist(read), Pass)
  }

  /** The middleware object; the next delegate of the pipeline is not part of this model. */
  class TurboLinksMiddleware {
    const tempDataDictionaryFactory: TempDataDictionaryFactory

    constructor (tempDataDictionaryFactory: TempDataDictionaryFactory)
      ensures this.tempDataDictionaryFactory == tempDataDictionaryFactory
    {
      this.tempDataDictionaryFactory := tempDataDictionaryFactory;
    }

    /** `new TurboLinksMiddleware(next, factory)`: a null factory throws ArgumentNullException. */
    static method Create(tempDataDictionaryFactory: TempDataDictionaryFactory?)
      returns (r: Result<TurboLinksMiddleware, Error>)
      ensures r.Failure? <==> tempDataDictionaryFactory == null
      ensures r.Failure? ==> r.error == ArgumentNull("tempDataDictionaryFactory")
      ensures r.Success? ==>
                fresh(r.value) && r.value.tempDataDictionaryFactory == tempDataDictionaryFactory
    {
      if tempDataDictionaryFactory == null {
        r := Failure(ArgumentNull("tempDataDictionaryFactory"));
      } else {
        var middleware := new TurboLinksMiddleware(tempDataDictionaryFactory);
        r := Success(middleware);
      }
    }

    /** The pre-send hook, run once per response. */
    method AddTurboLinksHeader(context: HttpContext) returns (outcome: Outcome<Error>)
      requires context.tempData.State().Valid()
      modifies context.response`headers, context.tempData
      ensures context.response.Value() == Hook(old(context.response.Value()), old(context.tempData.State())).response
      ensures context.tempData.State() == Hook(old(context.response.Value()), old(context.tempData.State())).store
      ensures outcome == Hook(old(context.response.Value()), old(context.tempData.State())).outcome
    {
      var tempData := tempDataDictionaryFactory.GetTempData(context);
      var response := context.response;
      outcome := Pass;

      if IsRedirect(response.statusCode) {
        tempData.Set(TurboLinksLocationKey, HeaderValue(response.headers, LocationHeader));
      } else {
        var found, location := tempData.TryGetValue(TurboLinksLocationKey);
        if found {
          outcome := response.Add(TurboLinksLocationKey, location);
          if outcome.Fail? {
            return;
          }
        }
      }

      tempData.Save();
    }
  }

  /** A client's requests in order: each loads the saved temp data, then the hook runs on its response. */
  function Serve(responses: seq<Response>, store: StoreState): (r: StoreState)
    ensures responses != [] ==> r.Valid()
    ensures store.saveCount <= r.saveCount <= store.saveCount + |responses|
    decreases |responses|
  {
    if responses == [] then store
    else Serve(responses[1..], Hook(responses[0], Load(store)).store)
  }

  /** Serving one more response continues from where the others left the store. */
  lemma {:induction false} ServeAppend(responses: seq<Response>, last: Response, store: StoreState)
    ensures Serve(responses + [last], store) == Hook(last, Load(Serve(responses, store))).store
    decreases |responses|
  {
    if responses == [] {
      assert [last][1..] == [];
    } else {
      assert (responses + [last])[1..] == responses[1..] + [last];
      ServeAppend(responses[1..], last, Hook(responses[0], Load(store)).store);
    }
  }

  /** No response that already has the header: the hook never throws. */
  ghost predicate NoneCarriesHeader(responses: seq<Response>)
  {
    forall i :: 0 <= i < |responses| ==> TurboLinksLocationKey !in responses[i].headers
  }

  /** When no hook throws, the store is saved exactly once per response. */
  lemma {:induction false} SavedOncePerResponse(responses: seq<Response>, store: StoreState)
    requires NoneCarriesHeader(responses)
    ensures Serve(responses, store).saveCount == store.saveCount + |responses|
    decreases |responses|
  {
    if responses != [] {
      var next := Hook(responses[0], Load(store));
      assert TurboLinksLocationKey !in responses[0].headers;
      assert NoneCarriesHeader(responses[1..]) by {
        forall i | 0 <= i < |responses| - 1
          ensures TurboLinksLocationKey !in responses[1..][i].headers
        {
          assert responses[1..][i] == responses[i + 1];
        }
      }
      SavedOncePerResponse(responses[1..], next.store);
    }
  }

  /**
    The state machine across requests: after a redirect the client has its
    Location pending (the newest redirect wins); after any other response
    nothing is pending.
  */
  lemma {:induction false} PendingAfterServe(responses: seq<Response>, store: StoreState)
    requires |responses| > 0 && TurboLinksLocationKey !in responses[|responses| - 1].headers
    ensures var last := responses[|responses| - 1];
            IsRedirect(last.statusCode) ==>
              Pending(Serve(responses, store).saved) == Some(HeaderValue(last.headers, LocationHeader))
    ensures !IsRedirect(responses[|responses| - 1].statusCode) ==>
              Pending(Serve(responses, store).saved) == None
  {
    var prefix, last := responses[..|responses| - 1], responses[|responses| - 1];
    assert responses == prefix + [last];
    ServeAppend(prefix, last, store);
  }

  /** The response after a redirect that carried `Location: location` gets `Turbolinks-Location: location`. */
  lemma {:induction false} FollowCarriesLocation(responses: seq<Response>, follow: Response, store: StoreState, location: string)
    requires |responses| > 0
    requires var last := responses[|responses| - 1];
             IsRedirect(last.statusCode) && TurboLinksLocationKey !in last.headers
             && HeaderValue(last.headers, LocationHeader) == Some(location)
    requires !IsRedirect(follow.statusCode) && TurboLinksLocationKey !in follow.headers
    ensures var r := Hook(follow, Load(Serve(responses, store)));
            r.outcome.Pass?
            && HeaderValue(r.response.headers, TurboLinksLocationKey) == Some(location)
            && Pending(r.store.saved) == None
            && forall n :: n != TurboLinksLocationKey ==>
                 HeaderValue(r.response.headers, n) == HeaderValue(follow.headers, n)
  {
    PendingAfterServe(responses, store);
  }

  /**
    The redirect-then-follow exchange on fresh objects: a redirect to
    `location`, the request that follows it, and one more request.
  */
  method RedirectThenFollow(location: string, follow: Response, after: Response)
    returns (pendingBetween: bool, emitted: Option<string>, pendingAfter: bool, expired: bool,
             emittedAfter: Option<string>)
    requires !IsRedirect(follow.statusCode) && TurboLinksLocationKey !in follow.headers
    requires !IsRedirect(after.statusCode) && TurboLinksLocationKey !in after.headers
    ensures pendingBetween
    ensures emitted == Some(location)
    ensures !pendingAfter
    ensures expired
    ensures emittedAfter == None
  {
    var factory := new TempDataDictionaryFactory();
    var created := TurboLinksMiddleware.Create(factory);
    var middleware := created.value;
    var tempData := new TempDataDictionary(map[]);

    var first := new HttpResponse(302, map[LocationHeader := location]);
    var firstContext := new HttpContext(first, tempData);
    var outcome := middleware.AddTurboLinksHeader(firstContext);
    pendingBetween := TurboLinksLocationKey in tempData.saved;

    tempData.BeginRequest();
    var second := new HttpResponse(follow.statusCode, follow.headers);
    var secondContext := new HttpContext(second, tempData);
    outcome := middleware.AddTurboLinksHeader(secondContext);
    emitted := HeaderValue(second.headers, TurboLinksLocationKey);
    pendingAfter := TurboLinksLocationKey in tempData.saved;
    expired := tempData.saved == map[];

    tempData.BeginRequest();
    var third := new HttpResponse(after.statusCode, after.headers);
    var thirdContext := new HttpContext(third, tempData);
    outcome := middleware.AddTurboLinksHeader(thirdContext);
    emittedAfter := HeaderValue(third.headers, TurboLinksLocationKey);
  }

  /** Two redirects in a row, then a response that follows: only the second location comes back. */
  method TwoRedirectsThenFollow(firstLocation: string, secondLocation: string, follow: Response)
    returns (emitted: Option<string>, saves: nat)
    requires !IsRedirect(follow.statusCode) && TurboLinksLocationKey !in follow.headers
    ensures emitted == Some(secondLocation)
    ensures saves == 3
  {
    var factory := new TempDataDictionaryFactory();
    var created := TurboLinksMiddleware.Create(factory);
    var middleware := created.value;
    var tempData := new TempDataDictionary(map[]);

    var first := new HttpResponse(301, map[LocationHeader := firstLocation]);
    var firstContext := new HttpContext(first, tempData);
    var outcome := middleware.AddTurboLinksHeader(firstContext);

    tempData.BeginRequest();
    var second := new HttpResponse(302, map[LocationHeader := secondLocation]);
    var secondContext := new HttpContext(second, tempData);
    outcome := middleware.AddTurboLinksHeader(secondContext);

    tempData.BeginRequest();
    var third := new HttpResponse(follow.statusCode, follow.headers);
    var thirdContext := new HttpContext(third, tempData);
    outcome := middleware.AddTurboLinksHeader(thirdContext);
    emitted := HeaderValue(third.headers, TurboLinksLocationKey);
    saves := tempData.saveCount;
  }
}
