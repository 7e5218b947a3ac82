# Rectangle motion services, modelled in Dafny

The repository holds two near-identical web services. Each has one endpoint, `move_robot(offset_mm)`, that moves an industrial robot's tool centre point (TCP) around a small rectangle through an external robot-control API (Wandelbots Nova):

- `wandelbots_python_plan_motion` uses the generated API client.
- `wandelbots_python_convenient` uses the higher-level `nova` library.

The plan-motion endpoint finds its API before any motion: `get_api_client` (`wandelbots_python_plan_motion/app.py:54`) normalises the configured host, probes `https://…` first and `http://…` second, and sets basic auth when both settings are present. The convenient endpoint builds `Nova()` (`wandelbots_python_convenient/app.py:53`) and never calls its own `utils.py`. That file normalises and probes the same way and picks a bearer token, basic auth or no credentials; it is modelled as it is written.

This project models the deterministic parts of the two services:

- Waypoints. The plan-motion variant makes six poses by deep copies and assignments to one coordinate at a time. The convenient variant makes six poses with Nova's `@` operator.
- Requests. The plan-motion variant builds a plan request with one linear command per waypoint, each with 20 mm blending. The convenient variant builds an eight-action list.
- Planning failures. The plan-motion variant picks the failure text by a fixed precedence.
- The order of `move_robot` in both variants: the range check on the offset, the motion-group count, planning, then execution. A trace records which external calls happen.
- Host normalisation, probe requests, protocol choice, base URL, basic auth, instance creation, and the mutable client configuration of the plan-motion variant.

Modules follow the source files:

| module | file | models |
|---|---|---|
| `Text` | `text.dfy` | Python's `str.strip()`, `str.rstrip(c)` and `str.replace(p, "")` on `seq<char>` |
| `Http` | `http.dfy` | what both `utils.py` share: probe requests and outcomes, host normalisation, https-before-http |
| `ConvenientUtils` | `convenient_utils.dfy` | `wandelbots_python_convenient/utils.py` |
| `PlanMotionUtils` | `plan_motion_utils.dfy` | `wandelbots_python_plan_motion/utils.py` |
| `Geometry` | `geometry.dfy` | pose values |
| `Service` | `service.dfy` | the offset range and the HTTP outcome of both endpoints |
| `PlanMotionApp` | `plan_motion_app.dfy` | `wandelbots_python_plan_motion/app.py` |
| `ConvenientApp` | `convenient_app.dfy` | `wandelbots_python_convenient/app.py` |
| `Wrappers` | `wrappers.dfy` | `Option` for `None`, `Result` for raised exceptions |

Modelling choices:

- Coordinates are `real`. This is an exact abstraction of the client libraries' float fields. The plan-motion fourth corner returns exactly to the start (`x + o - o == x`) only because of it.
- In the plan-motion variant, `Pose` is a class with assignable `position` and `orientation`. `CalculatePoints` returns references. The first and last entries are the caller's own object, and the four corners are fresh objects. The nested position object of the client is a value inside the pose. Since every copy is deep, nothing is shared that could show the difference.
- `CommandSettings` is a class. `linear_move` assigns its blending radius after construction.
- The client configuration is a class. `PlanMotionUtils.Configure`, which `GetApiClient` calls once the base URL is known, assigns `verify_ssl`, `username` and `password` after construction.
- Nova's `@` is foreign rotation arithmetic. It reaches every member as a parameter `compose`, about which nothing is assumed.
- I/O is modelled by parameters:
  - A probe's answer is a `ProbeOutcome`: a status code, or a `RequestException`.
  - The cell's answers are parameters: motion groups, TCP, state, plan response or trajectory.
  - Environment settings are parameters. `Option.None` stands for a setting that is absent. A variable set to an empty string counts as set, as `is not None` treats it.

Points where the two variants or the code's own texts diverge:

- The two variants trace different paths. Plan-motion chains each corner from the previous one (`wandelbots_python_plan_motion/app.py:132-142`). Convenient composes each corner with the start (`wandelbots_python_convenient/app.py:102-105`). `ConvenientApp.CornersAroundStart` shows what that means under a pure-translation reading of `@`: the convenient path differs from the plan-motion path at waypoints 3 to 5 whenever the offset is not zero.
- The blending radius is a constant in the code: 20 mm in plan-motion (`wandelbots_python_plan_motion/app.py:126`) and 10 mm in convenient (`wandelbots_python_convenient/app.py:81`).
- The 400 text says the offset must be "between 0 and 100". The bound checked is 1000. The model checks 1000 and keeps the text as it is written.

## Model

| member | source | states |
|---|---|---|
| `Text.Strip` | wandelbots_python_convenient/utils.py:36 | the stripped host is no longer than the input and neither starts nor ends with Python whitespace |
| `Text.StripRemovesOnlySpace` | wandelbots_python_plan_motion/utils.py:31 | stripping removes only whitespace: the input is whitespace, then the result, then whitespace |
| `Text.RemoveAll` | wandelbots_python_convenient/utils.py:37-38 | `replace(p, "")` never lengthens the host; that it deletes an occurrence is `Text.RemoveAllLeading` |
| `Text.RemoveAllDeletesOnly` | wandelbots_python_convenient/utils.py:37-38 | `replace(p, "")` only deletes characters: the result is a sub-multiset of the input |
| `Text.RemoveAllLeading` | wandelbots_python_convenient/utils.py:37-38 | an occurrence of the pattern at the front is deleted as a whole, and the scan resumes right after it |
| `Text.RemoveAllAbsent` | wandelbots_python_plan_motion/utils.py:32-33 | a host with no occurrence of the pattern is left unchanged |
| `Text.StripUnspaced` | wandelbots_python_convenient/utils.py:36 | a host that neither starts nor ends with whitespace is unchanged by `strip()` |
| `Text.RStripOneTrailing` | wandelbots_python_convenient/utils.py:39 | `rstrip("/")` on a host without '/' followed by one '/' gives back the host |
| `Text.RStrip` | wandelbots_python_convenient/utils.py:39 | `rstrip("/")` keeps a prefix, removes only '/' characters, and the result never ends with '/' |
| `Http.NormaliseHost` | wandelbots_python_convenient/utils.py:36-39 | the normalised host is no longer than the configured one and never ends with '/' |
| `Http.NormaliseCleanHost` | wandelbots_python_plan_motion/utils.py:31-34 | a host without '/' and without surrounding whitespace is its own normal form |
| `Http.NormaliseHttpUrl` | wandelbots_python_plan_motion/utils.py:31-34 | "http://" in front of a clean host is removed: the result is the host |
| `Http.HttpAbsentFromHttpsUrl` | wandelbots_python_plan_motion/utils.py:32 | removing "http://" leaves "https://" + host + "/" alone when the host has no '/' |
| `Http.NormaliseHttpsUrl` | wandelbots_python_plan_motion/utils.py:31-34 | "https://" in front of a clean host and a '/' after it are both removed: the result is the host |
| `Http.DefaultHostIsNormal` | wandelbots_python_convenient/utils.py:35 | the default `api-gateway:8080` passes through normalisation unchanged |
| `Http.ChooseProtocol` | wandelbots_python_convenient/utils.py:56-70 | "https://" exactly when the https probe answered 200; otherwise "http://" exactly when the http probe did; otherwise none. The http probe is sent only after the https probe failed |
| `Http.SchemeOfUrl` | wandelbots_python_convenient/utils.py:21-22 | a URL built with "https://" has an https scheme; one built with "http://" does not |
| `ConvenientUtils.GetBasicAuth` | wandelbots_python_convenient/utils.py:72-77 | basic auth exists exactly when both user name and password are set, and then carries both |
| `ConvenientUtils.CreateInstance` | wandelbots_python_convenient/utils.py:20-30 | a non-https URL gives an anonymous instance. An https URL uses the token if present, even with basic auth; otherwise user and password. Errors exactly when an https URL has neither |
| `ConvenientUtils.HttpsProbe` | wandelbots_python_convenient/utils.py:49-57 | the URL is "https://", then the host, then the controllers path of the cell; with a token the probe sends `Authorization: Bearer <token>` and no basic auth; without one, no headers and the basic auth; timeout 5 s |
| `ConvenientUtils.HttpProbe` | wandelbots_python_convenient/utils.py:49-64 | the URL is "http://", then the host, then the controllers path of the cell; no headers and no credentials; timeout 5 s |
| `ConvenientUtils.GetProtocol` | wandelbots_python_convenient/utils.py:48-70 | protocol by the https-then-http precedence; the first probe is the https one; a second probe, the credential-free http one, is sent exactly when the https probe did not answer 200, and there are at most two; any probe with basic auth was sent without a token |
| `ConvenientUtils.GetBaseUrl` | wandelbots_python_convenient/utils.py:32-44 | an error exactly when neither probe answered 200; otherwise exactly protocol + normalised host |
| `ConvenientUtils.GetApiClient` | wandelbots_python_convenient/utils.py:9-18 | a created instance points at the base URL `get_base_url` determined |
| `ConvenientUtils.BaseUrlSchemeFollowsProbe` | wandelbots_python_convenient/utils.py:21-22 | `create_instance` sees an https scheme exactly when the https probe answered 200 |
| `ConvenientUtils.ApiClientCredentials` | wandelbots_python_convenient/utils.py:9-30 | end to end: refused when unreachable or when https has neither token nor both basic-auth settings; over https the token wins, else user and password; over http anonymous |
| `PlanMotionUtils.ProbeAuth` | wandelbots_python_plan_motion/utils.py:46-48 | probe credentials exist exactly when both user name and password are set |
| `PlanMotionUtils.Probe` | wandelbots_python_plan_motion/utils.py:50-58 | the URL is the scheme, then the host, then the controllers path of the cell; no headers; the given credentials; timeout 5 s |
| `PlanMotionUtils.GetProtocol` | wandelbots_python_plan_motion/utils.py:44-64 | protocol by the https-then-http precedence; the https probe goes first, and the http probe follows exactly when the https probe did not answer 200, with at most two probes; both carry the same credentials, both settings or nothing, and no headers |
| `PlanMotionUtils.GetBaseUrl` | wandelbots_python_plan_motion/utils.py:27-40 | an error exactly when neither probe answered 200; otherwise exactly protocol + normalised host + "/api/v1" |
| `PlanMotionUtils.BaseUrlHost` | wandelbots_python_plan_motion/utils.py:35-40 | a base URL splits back into its protocol, the normalised host and "/api/v1" |
| `PlanMotionUtils.Configuration.constructor` | wandelbots_python_plan_motion/utils.py:17 | a new configuration holds the host, checks certificates and has no credentials |
| `PlanMotionUtils.Configure` | wandelbots_python_plan_motion/utils.py:17-22 | the configuration is new, holds the base URL, has certificate checks off, and has user name and password only when both are set |
| `PlanMotionUtils.GetApiClient` | wandelbots_python_plan_motion/utils.py:8-24 | no configuration when the base URL fails; otherwise a new configuration with host = base URL, `verify_ssl` false, and user name and password set only when both are given |
| `PlanMotionApp.Pose.constructor` | wandelbots_python_plan_motion/app.py:84 | the pose built from the robot state has that state's position and orientation |
| `PlanMotionApp.Pose.DeepCopy` | wandelbots_python_plan_motion/app.py:132 | a deep copy is a new object with the same value |
| `PlanMotionApp.CommandSettings.constructor` | wandelbots_python_plan_motion/app.py:124 | new command settings have no blending radius |
| `PlanMotionApp.CalculatePoints` | wandelbots_python_plan_motion/app.py:130-144 | six poses. The first and last are the caller's object; the four corners are distinct fresh objects. The input is unchanged. The values are start, (x+o, y), (x+o, y+o), (x, y+o), start, start |
| `PlanMotionApp.RectangleIsClosedSquare` | wandelbots_python_plan_motion/app.py:132-144 | only x and y change; each of the four legs moves by the offset along one axis; waypoints 1, 5 and 6 are the start |
| `PlanMotionApp.RectangleOfZero` | wandelbots_python_plan_motion/app.py:130-144 | with offset 0 all six waypoints are the start pose |
| `PlanMotionApp.RectangleExample` | wandelbots_python_plan_motion/app.py:130-144 | start (100, 200, 300) with offset 50 gives (100,200,300), (150,200,300), (150,250,300), (100,250,300), (100,200,300), (100,200,300) |
| `PlanMotionApp.LinearMove` | wandelbots_python_plan_motion/app.py:123-127 | the command's line is the given pose and its blending radius is 20 |
| `PlanMotionApp.GetPlanRequest` | wandelbots_python_plan_motion/app.py:112-120 | motion group and start joints as given; six commands, one per waypoint and in order, each to that waypoint with blending 20 |
| `PlanMotionApp.GetPlanningFailure` | wandelbots_python_plan_motion/app.py:147-152 | the plan-failure description if present, else the trajectory-failure description, else "unknown planning failure" |
| `PlanMotionApp.MoveRobot` | wandelbots_python_plan_motion/app.py:47-109 | a bad offset gives 400 with no call made; a group count other than 1 gives 400 before any planning; the request planned is the expected rectangle around the current pose; a failed plan gives 500 with the planner's text and no move; it succeeds exactly when all three pass; the client is closed only on success |
| `ConvenientApp.CornerOffsets` | wandelbots_python_convenient/app.py:102-105 | four offsets, each a pure translation in the x-y plane with no rotation: +o along x, +o along y, -o along x, -o along y |
| `ConvenientApp.CalculatePoints` | wandelbots_python_convenient/app.py:98-107 | six poses; first and last are the start; each middle pose is the start composed with +x, +y, -x, -y in turn |
| `ConvenientApp.Actions` | wandelbots_python_convenient/app.py:79-83 | joint move, one linear move with blending 10 per pose in order, joint move |
| `ConvenientApp.ActionListShape` | wandelbots_python_convenient/app.py:78-83 | the action list of a request has eight actions: joint moves at both ends and six blended linear moves between, starting and ending at the start pose |
| `ConvenientApp.CornersAroundStart` | wandelbots_python_convenient/app.py:100-107 | read as translations, the corners are the start moved by +x, +y, -x and -y, which differs from the plan-motion path at waypoints 3 to 5 |
| `ConvenientApp.MoveRobot` | wandelbots_python_convenient/app.py:45-94 | a bad offset gives 400 before any Nova object; no controller gives a 500 after listing controllers; a motion-group count other than 1 gives 400 before a group is entered; no TCP gives a 500 inside the motion group, which is then left; no plan gives 500 after planning, then the group is left; success exactly when every step passes, with the full call sequence create, list controllers, list groups, enter, list TCPs, read joints, read pose, plan, execute, leave |
| `ConvenientApp.MoveRobotSteps` | wandelbots_python_convenient/app.py:66-94 | on every path: nothing executes without a plan; an entered motion group is left as the last step; whatever is planned or executed is the eight-action list for the first TCP |

Helpers without a row:

- `Http.HostSetting` is the default "api-gateway:8080" for an unset host (`wandelbots_python_convenient/utils.py:35`, `wandelbots_python_plan_motion/utils.py:30`).
- `Http.ControllersPath` is the probed path "/api/v1/cells/<cell>/controllers" (`wandelbots_python_convenient/utils.py:49`, `wandelbots_python_plan_motion/utils.py:45`).
- `ConvenientUtils.IsHttpsUrl` is the scheme test of `create_instance` (`wandelbots_python_convenient/utils.py:21-22`).
- `Text.IsSpace` is the set of characters Python's `str.isspace` accepts.
- `Text.LeadingCount` and `Text.TrailingCount` count the characters of a class at either end, and `Text.TrimStart` and `Text.TrimEnd` drop them, the two halves of `strip()` and `rstrip(c)`.
- `Geometry.Shifted` moves a pose in x and y only.
- `PlanMotionApp.Rectangle` is the reference waypoint list that `PlanMotionApp.CalculatePoints` is proved against, and `PlanMotionApp.ExpectedRequest` the reference plan request of `PlanMotionApp.MoveRobot`'s contract.
- `ConvenientApp.Translate` is the pure-translation reading of `@`, which adds the offset's x, y and z and ignores the orientation.
- `Text.SplitMultiset`, `Text.AbsentCharExcludes`, `Text.CharOnlyAtEndExcludes` and `PlanMotionUtils.UrlSplits` are proof steps about sequences.

## Left out

- FastAPI wiring is not modelled: the app objects, CORS middleware, the redirect and icon routes, logging, and the uvicorn launcher in `wandelbots_python_plan_motion/__init__.py`. None of it holds logic.
- Network traffic, `await` and stream consumption are not modelled. Probe answers and API answers are parameters. `stream_move_forward` is one step in the trace.
- `PlanMotionApp.MoveRobot` does not model an exception from `get_api_client` or from any API call. Such an exception ends the request with a 500 from the framework. This covers the "Could not determine protocol" error.
- Reading settings with `decouple.config` is not modelled; the values arrive as `Option<string>`. The plan-motion variant reads user name and password with `cast=str` and a default of `None`. If the library applies the cast to the default, an unset value would arrive as the text "None". That library is not part of this model.
- `urlparse` is not modelled. `ConvenientUtils.CreateInstance` treats a URL as https when it starts with "https". For the URLs `get_base_url` builds, that matches `"https" in scheme` (`Http.SchemeOfUrl`).
- Float rounding of coordinates is not modelled (`real` instead).
- The semantics of Nova's `@` are not modelled (a parameter).
- A response status other than 200 and a `RequestException` both count as "not reachable". Exceptions that are not `requests.RequestException` are not modelled.
- `Text.RemoveAll` requires a non-empty pattern. Python's `replace` with an empty pattern behaves differently, but both call sites pass the constants "http://" and "https://".
- The convenient `move_robot` stops with a 500 when the controller list or the TCP list is empty (an `IndexError`). The model gives the trace up to that point and an internal error; the framework's error text is not modelled.
- `ConvenientApp.MoveRobot` treats the trajectory, the TCP names and the joint values as opaque. Execution is one trace step.
