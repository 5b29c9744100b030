# TurboLinksCore redirect-location propagator, modelled in Dafny

TurboLinksCore is an ASP.NET Core middleware. It lets the Turbolinks client
learn where a redirect chain ended. Just before each response's headers go
out, a hook runs:

- A response with status 301 or 302 has its `Location` header copied into the
  client's temp data under the key `Turbolinks-Location`.
- Any other response that finds a value under that key gets a
  `Turbolinks-Location` response header with that value.
- On every path, the temp data is then saved.

The temp data follows the framework's rules. A written value survives until
the next request reads it. The save at the end of that request drops it.

The model has four modules:

- `Wrappers` (wrappers.dfy): `Option`, `Outcome` (passed or threw) and `Result`.
- `TempData` (temp_data.dfy): the per-client temp-data store. `StoreState`
  is its value: the entries, the keys not yet read in this request ("live"),
  what the last save persisted (the cookie), and a save counter. Pure
  transitions `Load`, `Write`, `TryGet` and `Persist` describe a new request,
  the indexer set, `TryGetValue` and `Save`. The class `TempDataDictionary`
  holds the same state in fields and updates it in place. Each of its methods
  is proved to match its transition.
- `Http` (http.dfy): a response's status and headers (the class
  `HttpResponse`; `Response` is its value), `Headers.Add`, the request
  context, and the temp-data factory.
- `Turbolinks` (turbolinks.dfy): the redirect classification, the hook as a
  pure function `Hook` with the properties in its contract, the middleware
  class (construction and the imperative hook `AddTurboLinksHeader`, proved to
  agree with `Hook`), `Serve` (a client's sequence of requests), lemmas about
  that sequence, and two end-to-end exchanges run on fresh objects.

Details of the code that the model keeps:

- `Headers.Add` throws when the response already has a `Turbolinks-Location`
  header. The exception leaves the hook before `tempData.Save()`. The model
  returns `Fail(DuplicateHeader(..))` on that path, and the save count is
  unchanged. This is the only path that skips the save.
- When a redirect has no `Location` header, `(string)response.Headers["Location"]`
  is null, and null is what gets stored. The model stores `None`.
- Adding a header whose value is null gives a header with no values. The
  header map holds only headers that have a value, so such a header does not
  appear in it.
- `TryGetValue` reads the dictionary's entries whether or not they were read
  earlier in the same request. It marks the key as read whether or not it is
  present.

## Model

| member | source | states |
|---|---|---|
| `Turbolinks.Contains` | src/TurbolinksMiddleware.cs:58 | the scan over the redirect codes finds a code exactly when some position of the list holds it |
| `Turbolinks.IsRedirect` | src/TurbolinksMiddleware.cs:57-58 | a status is a redirect iff it is 301 or 302, the two entries of `_redirectCodes` (line 18); 303, 307, 308 and 200 are not |
| `Turbolinks.Hook` | src/TurbolinksMiddleware.cs:38-55 | a redirect stores its Location under the key, replacing any pending value, and leaves the response unchanged. A non-redirect with a pending value L gets header L with all other headers unchanged, and afterwards nothing is pending. A non-redirect with nothing pending leaves the response unchanged. Save runs exactly once (count +1), keeping exactly the live entries, except when Add throws on an existing header; in that case nothing is saved |
| `Turbolinks.TurboLinksMiddleware.AddTurboLinksHeader` | src/TurbolinksMiddleware.cs:38-55 | the imperative hook (get the temp data, store or emit, then Save) leaves the response, the store and the outcome exactly as `Hook` describes |
| `Turbolinks.TurboLinksMiddleware.Create` | src/TurbolinksMiddleware.cs:22-29 | construction fails with ArgumentNull("tempDataDictionaryFactory") iff the factory is null; otherwise the new middleware keeps that factory |
| `Turbolinks.ServeAppend` | src/TurbolinksMiddleware.cs:38-55 | serving one more request continues from the store the earlier requests left |
| `Turbolinks.Serve` | src/TurbolinksMiddleware.cs:38-55 | a client's requests in order, each loading what the previous one saved (as the test's client sends the cookie back, tests/TurbolinksMiddlewareTests.cs:38-49): after at least one request the store is valid, and it is saved at most once per response |
| `Turbolinks.SavedOncePerResponse` | src/TurbolinksMiddleware.cs:52 | over any sequence of requests in which no response already carries a `Turbolinks-Location` header, the save count grows by exactly the number of responses |
| `Turbolinks.PendingAfterServe` | src/TurbolinksMiddleware.cs:43-52 | after any non-empty sequence of requests whose last response does not already carry a `Turbolinks-Location` header, the persisted value is that response's Location if it was a redirect (the last one wins), and nothing is pending if it was not |
| `Turbolinks.FollowCarriesLocation` | src/TurbolinksMiddleware.cs:43-50 | the non-redirect response that follows a redirect to L carries `Turbolinks-Location: L`, its other headers are unchanged, and afterwards nothing is pending |
| `Turbolinks.RedirectThenFollow` | tests/TurbolinksMiddlewareTests.cs:38-59 | the exchange runs on fresh objects: a 302 to a location persists the value, the following response carries it as `Turbolinks-Location`, the value is no longer persisted and the saved store is empty (the expired cookie), and a third response gets no header |
| `Turbolinks.TwoRedirectsThenFollow` | src/TurbolinksMiddleware.cs:43-46 | a 301 to L1, then a 302 to L2, then a non-redirect: the last response carries L2, and Save ran three times |
| `Http.AddHeader` | src/TurbolinksMiddleware.cs:49 | `Headers.Add` fails with DuplicateHeader iff the name is already present; otherwise the name reads back as the given value and every other header is unchanged |
| `Http.HttpResponse.Add` | src/TurbolinksMiddleware.cs:49 | adding in place changes the headers as `AddHeader` says, or leaves them unchanged and reports the failure |
| `Http.HeaderValue` | src/TurbolinksMiddleware.cs:45 | the cast `(string)response.Headers[name]` is null exactly when the header is absent, and otherwise the header's value |
| `TempData.Write` | src/TurbolinksMiddleware.cs:45 | the indexer set stores the value under the key, replacing any earlier one, and keeps the key live; other entries keep their presence, values and liveness, the saved store and the save count are unchanged, and the store stays valid |
| `TempData.TryGet` | src/TurbolinksMiddleware.cs:47 | TryGetValue finds a value iff the key has an entry and returns that entry; it marks just that key as read, whether or not it was found, and changes nothing else |
| `TempData.Retained` | src/TurbolinksMiddleware.cs:52 | Save's filter: the kept entries are exactly those whose keys are both present and live, with their values |
| `TempData.Persist` | src/TurbolinksMiddleware.cs:52 | Save keeps exactly the live entries with their values, persists them, and increments the save count by one |
| `TempData.TempDataDictionary.Set` | src/TurbolinksMiddleware.cs:45 | the in-place indexer set matches `Write` |
| `TempData.TempDataDictionary.TryGetValue` | src/TurbolinksMiddleware.cs:47 | the in-place TryGetValue matches `TryGet`, with a null value when not found |
| `TempData.TempDataDictionary.Save` | src/TurbolinksMiddleware.cs:52 | the in-place Save matches `Persist` |
| `TempData.Load` | tests/TurbolinksMiddlewareTests.cs:47-49 | a request that sends the cookie back sees exactly the saved entries, all live; the saved store and the save count are unchanged |
| `TempData.TempDataDictionary.BeginRequest` | tests/TurbolinksMiddlewareTests.cs:47-49 | reloading the dictionary in place for the next request matches `Load` |
| `TempData.SaveThenLoad` | tests/TurbolinksMiddlewareTests.cs:43-49 | the store a save leaves is what the next request loads, so one dictionary object can stand for the client across requests |
| `TempData.WrittenValueIsReadOnce` | tests/TurbolinksMiddlewareTests.cs:56-59 | a written value is read by the next request, and the save after that read expires it |

## Left out

- `Invoke`, the `Response.OnStarting` registration and `await _next(context)`
  (src/TurbolinksMiddleware.cs:31-36) are asynchronous pipeline plumbing. The
  hook is modelled as a method called once per response. The `next`
  delegate is not a constructor parameter, and the returned `Task` is dropped.
- `UseTurboLinks` (src/TurbolinksMiddleware.cs:12-13) only registers the
  middleware, so it is not modelled.
- The framework's temp-data provider and factory are foreign code. The model
  replaces the cookie-backed provider with the `saved` map, so cookie
  encoding, signing and the cookie's expiry are not modelled. The factory is
  replaced by a context that carries its dictionary:
  `Http.TempDataDictionaryFactory.GetTempData` is a stand-in that returns
  that dictionary, not a model of the framework's factory. The dictionary is loaded
  eagerly at the start of a request. The framework loads it lazily, but every
  path of the hook touches it before `Save`, so the outcome is the same.
- A multi-valued `Location` header (joined with commas by the `StringValues`
  cast) is not modelled: a header carries one string.
- Header names and temp-data keys are matched exactly. The framework compares
  both without regard to case. The hook only uses its fixed key and the
  `Location` header name.
- The test's hosting machinery (test server, HTTP client, routing, MVC
  services) is I/O and setup. Only the exchange it drives is modelled, in
  `RedirectThenFollow`.
