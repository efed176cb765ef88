# Stairs lighting integration — a Dafny model

This project models the core of a Home Assistant custom integration that
exposes remotely controlled LED strips ("stairs lighting") as light
entities. It has three parts, one module each:

- `Api` (`api_client.dfy`): the REST client. For each remote operation it gives
  the HTTP request sent (verb, URL under `http://{host}:{port}/api`, JSON body,
  timeout). It also gives the value handed back for each way the exchange can
  end: a response with a status, an aiohttp client error, or a plain
  `TimeoutError`. The controller's endpoint table is written as `Route`, a
  function from requests back to operations. Every request builder is proved
  to be inverted by it, and the request it builds is the only one the
  controller accepts for that operation.
- `ConfigFlow` (`config_flow.dfy`): the setup step, which validates host,
  port and strip count, reports at most one error code, aborts on a host that
  is already configured and otherwise creates the entry. Also the options
  step, which stores whatever it is given.
- `Light` (`light.dfy`): the per-strip light entity. Its transitions (restore,
  first fetch, turn on, turn off, availability check, status update, poll
  tick, timer start and stop) are functions over a `Cache` value, and lemmas
  state what they promise. The class `Stairs` holds the same fields as mutable
  state, plus a ghost log of every call the entity makes outside itself. Each
  of its methods is proved to perform exactly its transition. `SetupEntry`
  creates one entity per strip index.

`Wrappers` (`Option`) and `Decimal` (Python's `str(int)` and a parser that
inverts it) support the three.

The entity's `_state` holds `False`, `True` or the string `"unavailable"`.
It is modelled as `Power = Off | On | Unavailable`, with Python truthiness
kept: `Unavailable` is truthy, so turning on does not power on a strip whose
cached state is `Unavailable`. The cached brightness, colour and effect are
`Option` values. A restored attribute can be present with the value null,
and so can a key of a status body. Such a null is stored as `None`, except
for the colour of a status body: the status update skips a null colour, and
the first fetch raises on it (see the first-fetch bullet below).

Behaviour of the code that is easy to misread; the model follows the code:
- Turning on leaves a cached `Unavailable` as it is. It does not mark the
  entity on (light.py:300-302).
- The client does not swallow every error. The setters and the status calls
  catch only aiohttp client errors, so a plain `TimeoutError` escapes them.
  Only the health check catches it (api_client.py:46, 92, 114, 193).
- A successful first fetch overwrites a restored brightness, colour or
  effect only when the body has that key. A missing key falls back to the
  cached value (light.py:168-170). The state has no fallback: a body without
  "state" gives Off, even over a restored "on" (light.py:167). If the colour is null, or missing while none is cached,
  `tuple(None)` raises a `TypeError` that no handler catches. The state is
  still published, but the poll timer is never started (light.py:147-150,
  169, 205-206).
- An empty JSON object is falsy, so it counts as "no data" (light.py:161,
  360).

## Model

| member | source | states |
|---|---|---|
| `Decimal.FromNat` | api_client.py:17 | the numeral of a natural number is non-empty and all digits; it starts with '0' only for 0; it has one digit exactly below 10 |
| `Decimal.FromInt` | light.py:116-117 | the numeral of an integer is digits and a sign only; it starts with '-' exactly for negative numbers |
| `Decimal.ParseNatFromNat` | api_client.py:102 | reading a rendered natural number gives it back |
| `Decimal.ParseIntFromInt` | api_client.py:102 | reading a rendered integer gives it back |
| `Decimal.FromIntInjective` | light.py:117 | equal numerals come from equal integers |
| `Api.BaseUrl` | api_client.py:17 | the base URL is "http://", the host, ':', a numeral holding no ':' from which the port reads back, then "/api" |
| `Api.BaseUrlInjective` | api_client.py:13-17 | two clients with the same base URL have the same host and port |
| `Api.SolidColorRequest` | api_client.py:28-37 | the colour request is a POST with no explicit timeout; the controller reads it as colour-set for that strip and those red, green and blue values, with a body of exactly the keys step_number, red, green and blue |
| `Api.BrightnessRequest` | api_client.py:55-60 | the brightness request is a POST that the controller reads as brightness-set for that strip and value, with a body of exactly the keys step_number and brightness |
| `Api.HealthRequest` | api_client.py:81-86 | the health request is a GET of /health with a 5-second timeout that the controller reads as the availability check |
| `Api.StatusRequest` | api_client.py:100-103 | the status request is a GET whose query carries the strip number as `str` writes it, and the controller recovers exactly that number |
| `Api.TurnOnRequest` | api_client.py:124-127 | the power-on request is a POST that the controller reads as power-on for that strip, with a body of exactly the key step_number |
| `Api.TurnOffRequest` | api_client.py:143-146 | the power-off request is a POST that the controller reads as power-off for that strip, with a body of exactly the key step_number |
| `Api.EffectRequest` | api_client.py:162-165 | the effect request is a POST that the controller reads as effect-set for that strip and effect name, with a body of exactly the keys strip_number and effect |
| `Api.AllStatusesRequest` | api_client.py:184 | the bulk status request is a GET without parameters that the controller reads as the bulk status |
| `Api.RequestFor` | api_client.py:20-198 | for every remote operation, the controller recovers exactly that operation and its arguments from the request; only the health check sets a timeout |
| `Api.BodyKeys` | api_client.py:30-163 | the body keys of each endpoint; every strip-addressed body names the strip step_number except the effect call's, which names it strip_number; a GET has no body |
| `Api.RequestBody` | api_client.py:20-198 | a request carries a body exactly when it is a POST, exactly for the strip-addressed calls, and the body holds exactly its endpoint's keys |
| `Api.RouteDeterminesRequest` | api_client.py:20-198 | the controller accepts exactly one request per operation and timeout under a client's base URL, the one the client builds: verb, URL and whole body are pinned |
| `Api.SetterReply` | api_client.py:36-51 | a setter escapes only on a timeout; whatever the status, and on a client error, it returns nothing (the same mapping is used at api_client.py:59-76, 126-139, 145-158 and 164-179) |
| `Api.HealthReply` | api_client.py:87-96 | the health check is true exactly on status 200; another status, a timeout or a client error gives false |
| `Api.StatusReply` | api_client.py:104-120 | the single and bulk status calls return the decoded body exactly on status 200. Another status or a client error gives None, and a timeout escapes (the bulk call behaves the same, api_client.py:185-198) |
| `ConfigFlow.ValidationError` | config_flow.py:38-45 | no error exactly for valid input. "no_host" exactly when the host is empty; "no_port" exactly when the host is set and the port is outside 1..65535; "invalid_strip_number" exactly when both are fine and the strip count is outside 1..100 |
| `ConfigFlow.Errors` | config_flow.py:29-45 | the shown errors hold at most one entry, under "base", and they are empty exactly for valid input |
| `ConfigFlow.StepUser` | config_flow.py:27-57 | an entry is created exactly for valid input whose host is not configured, with title the host and data the input unchanged. A configured host aborts with "already_configured". Otherwise (no input or an error) the "user" form is shown with that error |
| `ConfigFlow.SecondSetupAborts` | config_flow.py:48-49 | once an entry exists for a host, the same setup again aborts |
| `ConfigFlow.StepInit` | config_flow.py:76-96 | a submitted options form is stored verbatim with an empty title; without input the "init" form is shown with the entry's current values as defaults |
| `ConfigFlow.OptionsSkipValidation` | config_flow.py:78-79 | the options step stores input that the setup step refuses |
| `Light.EntityName` | light.py:116 | the name is "Stairs step " followed by a numeral from which the strip number reads back |
| `Light.UniqueId` | light.py:117 | the unique id is "stairs_" followed by a numeral from which the strip number reads back |
| `Light.IdentitiesDistinct` | light.py:116-117 | different strip numbers give different unique ids and different names |
| `Light.Stairs.constructor` | light.py:105-124 | a new entity is Off, brightness 255, colour (255,255,255), effect "STROBE", not available, no timer; it is named "Stairs step N" with unique id "stairs_N"; its log is empty |
| `Light.SetupEntry` | light.py:41-52 | one fresh-state entity per index 0..n-1 (none for n <= 0), all sharing the client; strip number i at position i; unique ids and names pairwise distinct |
| `Light.Restored` | light.py:130-144 | without a recorded state nothing changes; otherwise the state is On exactly for "on" and never Unavailable, and each attribute keeps the cached value when not recorded, becomes None when recorded as null, and takes the recorded value otherwise; availability and timer are kept |
| `Light.Stairs.AddedToHass` | light.py:126-150 | performs `Added`: restores the recorded state (`Restored`), then does the first fetch (`Initialized`) and starts the timer (`Started`) unless that fetch raised |
| `Light.Stairs.InitializeStateFromApi` | light.py:157-206 | performs `Initialized`, with the status outcome mapped as the client maps it; it always publishes its state and makes one status call |
| `Light.InitializeWithData` | light.py:160-170 | with data, the state is On exactly on "ON"; brightness is read with the cached value as fallback; colour and effect likewise, unless a null or uncached colour raises a TypeError, which leaves the cached colour and effect unchanged; availability and the timer are kept |
| `Light.InitializeFailure` | light.py:171-204 | no data, an empty body or a timeout sets the state Off. Nothing else changes, and the state is published |
| `Light.FetchOverwritesRestored` | light.py:130-170 | after a restore, a successful fetch carrying all four fields sets state, brightness, colour and effect from the API, whatever was restored |
| `Light.AddedStartsTimer` | light.py:147-150 | being added starts the poll timer exactly when the first fetch did not raise |
| `Light.Stairs.TurnOnOnline` | light.py:269-304 | performs `TurnedOn` |
| `Light.TurnOnSendsSuppliedValues` | light.py:272-298 | each supplied brightness, colour and effect is cached and sent in exactly one call with that value; unsupplied ones are neither cached nor sent |
| `Light.TurnOnCallOrder` | light.py:276-304 | calls come in the order brightness, colour, effect, power-on, and the state is published last |
| `Light.TurnOnPowersOnOnlyFromOff` | light.py:300-302 | the power-on call is made, at most once, exactly when the cached state is Off, and only then does the state become On; Unavailable stays Unavailable |
| `Light.Stairs.TurnOffOnline` | light.py:310-319 | performs `TurnedOff` |
| `Light.TurnOffResets` | light.py:313-317 | turning off sets Off and effect None, keeps brightness and colour, and makes exactly one remote call, the power-off |
| `Light.TurnOffTwice` | light.py:310-319 | turning off twice leaves the same state as once, with two power-off calls |
| `Light.Stairs.CheckAvailability` | light.py:344-355 | performs `Checked` on the mapped health result: availability becomes it, and a failed check sets the state Unavailable; one health call |
| `Light.Stairs.Update` | light.py:357-369 | performs `Updated`, with the status outcome mapped as the client maps it |
| `Light.UpdateWithData` | light.py:360-366 | with data, the state is On exactly when it is "ON". The colour changes only to a present non-null value, and the effect changes only when its key is present. Brightness never changes |
| `Light.UpdateWithoutData` | light.py:367-369 | no data or an empty body sets the state Off and nothing else |
| `Light.Stairs.UpdateCallback` | light.py:324-330 | performs `Ticked`: health check, then the update when available, then the state is published unless the update raised |
| `Light.TickFollowsHealth` | light.py:324-330 | availability becomes the health result. Unavailable: the state is Unavailable, no status call is made, and the state is published. Available: exactly one status call decides the state; the calls are health check, status, publish when the status call returned, and there is no publish when it timed out |
| `Light.Stairs.StartUpdateLoop` | light.py:321-335 | performs `Started`: registers the poll timer and records its handle |
| `Light.Stairs.StopUpdateLoop` | light.py:337-342 | performs `Stopped` |
| `Light.StopIsIdempotent` | light.py:337-342 | stopping cancels the timer once when one is registered; stopping again calls nothing and changes nothing |

## Left out

- HTTP transport, aiohttp sessions, JSON decoding and logging. A request is a value, and the way an exchange ended is an input (`Api.Outcome`).
- JSON decoding of a 200 response whose body is not valid JSON raises a `ValueError` that the client does not catch. This is not modelled. A wrong content type is an aiohttp client error, and is modelled as `ClientError`.
- Light.Stairs.TurnOnOnline: assumes every setter call returns. A `TimeoutError` escaping a setter (`Api.SetterReply`) would end the handler early, and that case is not modelled.
- Light.Stairs.TurnOffOnline: assumes the power-off call returns, for the same reason.
- Values of unexpected JSON types in a status body are not modelled: a colour that is not a three-element list, or a brightness given as a string.
- Timer scheduling (the 5-second interval registration). One tick is `Stairs.UpdateCallback`, and the handle is a boolean. A second start overwrites the handle without cancelling it; this only matters if the loop is started twice, which the entity never does.
- The host runtime's own periodic polling of the entity (it polls, so the runtime also calls `async_update`) is `Stairs.Update` called on its own. Its schedule is not modelled.
- Async execution and the event loop: no concurrency claims are made.
- The restore-state machinery of the host runtime and `super().async_added_to_hass()`. The recorded state is an optional input record (`LastState`).
- The voluptuous schemas and `cv` validators (light.py:32-38, config_flow.py:12-18, the options form's schema). They are library code. The setup form's defaults are a parameter, because `.const` is not part of this model.
- `__init__.py` is not part of this model. It builds the client and forwards platform setup.
- The commented-out code, the property getters, and the forwarding wrappers: `async_turn_on`, `async_turn_off`, `async_will_remove_from_hass`, the entity's own `async_set_solid_color`, `async_set_brightness` and `async_set_effect`, and `async_get_options_flow`.
- The `elif` at light.py:328-329 is not written out in `Stairs.UpdateCallback`. It cannot change anything, because the availability check has already set the state to Unavailable.
