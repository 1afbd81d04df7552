# Tourist-spots web app: a Dafny model of its request logic

The application is a small FastAPI service. Users register and log in against an
in-memory username/password dictionary, and a session cookie remembers who is
logged in. A gated form takes a location name. The results page geocodes that
name, fetches tourist places within 5 km and the current weather, and renders
whichever of these it obtained, with one error message per failed stage.

This project models that logic in Dafny. HTTP replies are inputs, and handler
responses are values.

- `wrappers.dfy` (`Wrappers`): `Option`, and `Falsy`, which is Python's `not x` on an optional list.
- `places.dfy` (`Places`): the place record and the address-defaulting loop.
  - The loop is a method over an `array<Place>`, proved against the function `FillAddresses`.
- `clients.dfy` (`Clients`): the three service clients after their request.
  - Each is a function of the reply's status and decoded JSON body.
- `pages.dfy` (`Pages`): what a handler returns: a rendered template with its context, a redirect, or an unhandled exception (HTTP 500).
- `auth.dfy` (`Auth`): the user store and one client's session.
  - Pure step functions (`RegisterStep`, `LoginStep`, `FormStep`, `LogoutStep`) specify the handlers.
  - The class `App` holds the live `users` and `session` dictionaries. Its methods are proved equal to those steps.
  - Lemmas cover request sequences (`Run`).
- `aggregation.dfy` (`Aggregation`): the POST /results pipeline.
  - The function `GetTouristSpots` is its specification.
  - The method `HandleResults` runs it the way the source does, including the in-place address loop.
  - The three services are parameters: places is queried with `(lon, lat)`, weather with `(lat, lon)`.

Behaviour of the code that the model keeps as it is:
- POST /results has no session gate in main.py:144-179, so `HandleResults` has none either.
- The POST /form gate tests `if not username`, so a session whose username is the empty string is also sent to `/login` (`Authenticated`).
- Coordinates that are non-empty but not a two-element list make the unpacking `lon, lat = coordinates` raise. The model gives `ServerError`.
- A place without a `properties` entry makes the write at line 172 raise after the earlier places were updated. `NormaliseAddresses` stops there, and the pipeline gives `ServerError`.

## Model

| member | source | states |
|---|---|---|
| `Places.WithAddress` | main.py:171-172 | a place with `properties` gains an `address` key: an existing address and every other key are kept, and a missing address becomes "Address not available"; a place without `properties` is returned unchanged |
| `Places.FillAddresses` | main.py:169-172 | the address pass keeps the number of places |
| `Places.FillAddressesAt` | main.py:169-172 | the i-th place after the pass is the i-th place before it, updated by `WithAddress`, so order is kept |
| `Places.FillAddressesSpec` | main.py:169-172 | same length, position by position `WithAddress`; when every place has `properties`, every place ends with an address; places that already had one are untouched |
| `Places.FillAddressesIdempotent` | main.py:169-172 | running the pass twice gives the same places as running it once |
| `Places.NormaliseAddresses` | main.py:169-172 | the in-place loop processes every place exactly when all have `properties`; otherwise it stops at the first place without them (every place before the stop has `properties`, the one at the stop has none); places before the stop are updated as by `FillAddresses` and the rest are untouched |
| `Clients.FirstOnOk` | main.py:59-63 | present exactly when the status is 200 and the list is non-empty, and then it is element 0 |
| `Clients.GetWeather` | main.py:41-50 | absent exactly on a non-200 status or an empty `data` list; otherwise description, icon and temperature of `data[0]` |
| `Clients.GetCoordinates` | main.py:59-64 | absent exactly on a non-200 status or an empty `features` list; otherwise the coordinates of `features[0]` |
| `Clients.GetTouristSpotsData` | main.py:74-78 | absent exactly on a non-200 status; otherwise the `features` list, or the empty list when that key is missing |
| `Clients.FailedBodyIgnored` | main.py:41-78 | on a non-200 reply, none of the three clients depends on the body, and all give absent |
| `Auth.CurrentUser` | main.py:27-28 | present exactly when the session has a `username` entry, and then it is that entry; as a function of the session it cannot change it |
| `Auth.RegisterStep` | main.py:93-106 | a taken username gives "Username already exists." on the register page, and the state is unchanged, including the existing password; a fresh username adds exactly that key with the given password, leaves the session alone and gives the login page with the success message; no account is lost or changed |
| `Auth.LoginStep` | main.py:115-123 | redirects to `/form` exactly when the username is registered with exactly this password, and then the session's `username` is that user; otherwise the state is unchanged and the login page shows "Invalid credentials."; `users` is never changed |
| `Auth.FormStep` | main.py:130-134 | redirects to `/login` exactly when the session has no username or an empty one; otherwise renders the form for the session's username; the state is unchanged |
| `Auth.LogoutStep` | main.py:138-141 | the session becomes empty, the users stay, and the response redirects to `/login` |
| `Auth.StepPreserves` | main.py:93-141 | no request removes an account or changes a password, and no request makes the session name an unregistered user |
| `Auth.RunKeepsAccounts` | main.py:93-106 | after any sequence of requests, every earlier account still exists with the same password |
| `Auth.RunKeepsSessionBacked` | main.py:115-141 | if the session names only registered users at the start, it does so after any sequence of requests |
| `Auth.RegisterThenLogin` | main.py:93-134 | registering a fresh name and then logging in with the same password authenticates; the gated form then greets that user, unless the name is empty |
| `Auth.RegisteredUserCanAlwaysLogIn` | main.py:93-123 | after registering, logging in with that password succeeds whatever requests came in between |
| `Auth.LogoutThenForm` | main.py:130-141 | after logout, POST /form redirects to `/login`, whatever the session held before |
| `Auth.App.constructor` | main.py:23 | the user store and the session start empty |
| `Auth.App.Register` | main.py:93-106 | the new store, session and response are those of `RegisterStep` |
| `Auth.App.Login` | main.py:115-123 | the new store, session and response are those of `LoginStep` |
| `Auth.App.SubmitForm` | main.py:129-134 | modifies nothing, and responds as `FormStep` does |
| `Auth.App.Logout` | main.py:137-141 | the new store, session and response are those of `LogoutStep` |
| `Aggregation.GetTouristSpots` | main.py:145-179 | absent or empty coordinates give "Location not found." with no places or weather; coordinates that are not a pair give a server error; absent or empty places give "No tourist spots found." with no weather; absent weather gives "Failed to fetch weather." with the places as fetched; otherwise the places after the address pass plus the weather, with no error, or a server error when a place lacks `properties`; every rendered page is the results page for the location, carries an error exactly when it carries no weather, and a page with weather has a non-empty place list in which every place has an address |
| `Aggregation.HandleResults` | main.py:144-179 | the handler, run step by step with the in-place address loop, returns exactly `GetTouristSpots` |
| `Aggregation.QueriedWithSwappedPair` | main.py:69-161 | for geocoded `[lon, lat]`, the page depends on the places service only at `(lon, lat)` (the unpacking and query at lines 69-70) and on the weather service only at `(lat, lon)` (lines 160-161) |
| `Aggregation.ParisExample` | main.py:145-179 | "Paris" at `[2.35, 48.86]`, with three places (one without an address) and clear weather at 18, renders all three places in order, with the placeholder filled in for the third, plus the weather and no error |

## Left out

- Network I/O is not modelled: the aiohttp sessions, the HTTP GETs, URL and query-string construction, API keys and environment loading (main.py:11-15, 33-40, 55-58, 69-73). Each reply is an input.
  - The places query's fixed category, 5000 m radius and 20-result limit live only in the URL and are not represented.
- A transport-level fault during any of the three calls raises in the source. It is not modelled; only replies with a status are.
- FastAPI routing, `RedirectResponse` status codes, Jinja2 rendering, the `request` context entry and the cookie signing of `SessionMiddleware` (main.py:18-20) are not modelled. Responses are `Outcome` values.
- The plain page handlers are not modelled: GET / (redirect to `/login`), GET /register, GET /login and the ungated GET /form (main.py:82-89, 109-111, 125-127). They only render or redirect and hold no logic.
- Concurrency is not modelled. The handlers are async, and `users` is shared between requests without synchronisation; the model serves one request at a time.
- `App` holds one client's session. Sessions of several browsers sharing the one `users` store are not modelled.
- Only the payload shape each client reads is modelled. A reply whose body lacks `data` (weather) or `features` (geocoder), or has a null geometry, raises in the source, and the model does not represent that body.
- Places are modelled only through their `properties` dictionary, with values kept as text. Other GeoJSON members are not represented.
  - A `properties` entry that is JSON null is treated like a missing one.
- Values, not references: the source updates each place's `properties` dictionary in place. The model replaces the array element, so aliasing of those dictionaries is not captured.
- The temperature is carried as an opaque `real`. No arithmetic is done on it.
