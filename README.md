# headless_chrome: a Dafny model of the protocol client

This project models the core of `headless_chrome`. That is a small Python
client for a headless Chrome's remote-debugging protocol. The client does three things:

- It sends JSON-RPC-style commands over a WebSocket. Each command carries an id from a per-client counter.
- It waits for the reply with a given id, or for the first event with a given method.
- It records the `Network.*` events of one page navigation until the page's load event arrives or the main document fails to load. Then it captures a screenshot.

The visiting script contributes the two helpers that name the screenshot file.

The socket becomes a `Connection` object. It holds a fixed, strictly ordered
sequence of inbound frames, a read cursor, and a log of the commands sent.
Each JSON frame is reduced to the members the client looks at (`Protocol.Frame`).

Modules and the source they follow:

- `wrappers.dfy`: `Option`, `Result`.
- `text.dfy`: `startswith`, `endswith`, character counts.
- `protocol.dfy`: frames, commands, errors, the navigation loop's per-frame verdict (`Classify`), and the "read until the first accepted frame" search behind every waiting loop.
- `navigation.dfy`: what a navigation does to a stream, stated on values.
  - `NavigationOutcome` is the loop step by step.
  - `FirstTerminalOutcome` is the same navigation described by where it stops.
  - The two are proved equal.
  - It also holds the value a whole session returns.
- `client.dfy`: the `Connection` and `Client` classes, whose methods update fields as the Python object does, and the module-level `record_navigation`. The waiting loops, the navigation loop, the screenshot and the session are proved equal to `AwaitReply`, `NavigationOutcome` and `SessionOutcome`; the other methods state their new fields directly.
- `visit.dfy`: `sanitize_url`, `os.path.basename` and `get_filename`.

Stated failure paths:

- The socket closing under a pending read gives `ConnectionLost`.
- A subscript of an absent key gives `MissingField` (Python's `KeyError`). These keys are `params.type`, `params.requestId` and `result.data`.
- No page target, or a first page target without a debugger URL, after one refetch gives `EndpointNotFound`.

Fixed values:

- the default Chrome path `/usr/bin/google-chrome`;
- the command ids 0 (`Network.enable`), 1 (`Page.enable`), 2 (`Page.navigate`) and 3 (`Page.captureScreenshot`) of a fresh client;
- the `results/` prefix, `-` separator and `.png` suffix of the file name.

## Model

| member | source | states |
|---|---|---|
| Protocol.IsNetwork | headless_chrome/client.py:131-133 | a frame is a Network event when it has a method and that method starts with `Network` |
| Protocol.Classify | headless_chrome/client.py:131-142 | the loop's verdict on one frame: go on, stop on one of the two terminal events, or raise on a malformed `Network.loadingFailed` (stated by ClassifyTerminals) |
| Protocol.ClassifyTerminals | headless_chrome/client.py:131-142 | the loop ends on `Page.loadEventFired` and on a `Network.loadingFailed` of type `Document` whose request id ends in `.1`, each if and only if; only `Network.loadingFailed` can raise; a frame without a method never ends the loop |
| Protocol.FirstMatchIn | headless_chrome/client.py:73-85 | the position found is the first accepted one of the window; none found means no frame of the window is accepted |
| Protocol.AwaitReply | headless_chrome/client.py:73-85 | a waiting loop returns the first accepted frame and leaves everything after it unread; when the stream ends first the connection is lost with every frame consumed and none accepted |
| Protocol.AwaitSkipsUnrelated | headless_chrome/client.py:74-78 | frames the waiter does not accept, put in front, change neither the answer nor what stays unread; they are only consumed |
| Protocol.AwaitReplyAt | headless_chrome/client.py:77-78 | a waiter whose first accepted frame is at `i` returns that frame and resumes at `i + 1` |
| Navigation.NetworkFilter | headless_chrome/client.py:133-134 | the frames the loop appends, in arrival order; no more of them than were read, each a Network event |
| Navigation.NetworkFilterAppend | headless_chrome/client.py:133-134 | the recorded events of two consecutive stretches of stream are those of each, in order |
| Navigation.NetworkFilterMembers | headless_chrome/client.py:133-134 | a frame is recorded if and only if it was received and its method starts with `Network` |
| Navigation.NavigationOutcome | headless_chrome/client.py:129-142 | the loop reads at most its budget of frames and never past the stream; every recorded event is a Network event |
| Navigation.NavigationContinues | headless_chrome/client.py:129-134 | a frame that does not end the loop is appended when it is a Network event, and the loop goes on with one frame less of budget |
| Navigation.FirstTerminalOutcomeSpec | headless_chrome/client.py:129-142 | all consumed frames but the last let the loop go on; completion is on a terminal frame; a timeout used the whole budget; a failure raised on its last frame or ran out of stream before the budget |
| Navigation.NavigationIsFirstTerminal | headless_chrome/client.py:129-142 | the step-by-step loop equals the description by first terminal frame, for every stream, position and budget |
| Navigation.NavigationEndsAtFirstTerminal | headless_chrome/client.py:135-142 | the first terminal frame within the budget ends the navigation, with exactly the Network events up to and including it |
| Navigation.NavigationTimesOut | headless_chrome/client.py:152-156 | with no terminal frame among the budgeted frames the timeout fires, with the Network events among them |
| Navigation.MethodlessFrameIgnored | headless_chrome/client.py:131-132 | a frame without a method is skipped: nothing is recorded and the loop reads on |
| Navigation.NonDocumentFailureRecorded | headless_chrome/client.py:133-140 | a `Network.loadingFailed` for another type or for a request id not ending in `.1` is recorded and does not end the loop |
| Navigation.DocumentFailureRecorded | headless_chrome/client.py:133-142 | when the main document fails, the failure event is the last recorded event |
| Navigation.LoadEventNotRecorded | headless_chrome/client.py:133-137 | the load event that ends a navigation is not recorded |
| Navigation.CaptureAfter | headless_chrome/client.py:152-159 | a failed navigation passes its error on; the result carries the navigation's events; it is timed out if and only if there is no screenshot, if and only if the navigation timed out |
| Navigation.SessionOutcome | headless_chrome/client.py:144-159 | a session's result is timed out exactly when it has no screenshot, and records only Network events |
| Navigation.SessionCompletes | headless_chrome/client.py:149-159 | with both enables answered, a terminal frame within the budget and a capture reply with data, the result is that screenshot and the Network events up to the terminal frame |
| Navigation.SessionDocumentFailure | headless_chrome/client.py:138-159 | a main-document failure still yields a screenshot, and the failure event is the last recorded one |
| Navigation.SessionTimesOut | headless_chrome/client.py:152-156 | with both enables answered and no terminal frame within the budget, the result is timed out, without screenshot, with the Network events seen |
| ChromeClient.Connection.Recv | headless_chrome/client.py:130 | the next inbound frame, and the cursor moves past it; once the peer has closed the socket (the end of the stream) the connection is lost and the cursor stays |
| ChromeClient.Connection.Send | headless_chrome/client.py:90-94 | the command is appended to what was sent |
| ChromeClient.FirstPage | headless_chrome/client.py:39 | the first tab whose type is `page`, or none when no tab is a page |
| ChromeClient.PageUrl | headless_chrome/client.py:39-47 | a URL found is that of the first page tab; none means there is no page tab or the first one has no URL |
| ChromeClient.FirstPageAppend | headless_chrome/client.py:39 | tabs appended after a page tab do not change which page tab is first |
| ChromeClient.PageUrlIgnoresLaterPages | headless_chrome/client.py:39-40 | for every tab list holding a page tab, tabs appended after it, a later page tab with a URL included, leave the URL (or its absence) unchanged |
| ChromeClient.Client.constructor | headless_chrome/client.py:9-17 | the executable defaults to `/usr/bin/google-chrome`; the counter starts at 0; the tab list and the events start empty |
| ChromeClient.Client.FindTabs | headless_chrome/client.py:32-34 | the tab list becomes the discovery endpoint's answer |
| ChromeClient.Client.GetTabDebuggerUrl | headless_chrome/client.py:36-47 | an empty list is fetched first; a missing page tab or URL causes one refetch; the URL of the first page tab of the list in use, or no endpoint |
| ChromeClient.Client.GetCid | headless_chrome/client.py:56-59 | returns the current id and the counter moves one past it |
| ChromeClient.Client.GetDebugCommand | headless_chrome/client.py:88-95 | a fresh id, and the envelope with that id, method and params goes out after the earlier ones; the ids sent stay 0, 1, 2, ... |
| ChromeClient.Client.SendDebugCommand | headless_chrome/client.py:97-99 | sends with a fresh id without waiting |
| ChromeClient.Client.ListenForCid | headless_chrome/client.py:73-78 | returns the first reply with that id and resumes after it, as AwaitReply says |
| ChromeClient.Client.ListenForEvent | headless_chrome/client.py:80-85 | returns the first event with that method and resumes after it, as AwaitReply says |
| ChromeClient.Client.WaitOnDebugCommand | headless_chrome/client.py:101-104 | sends with a fresh id, then returns the reply carrying that id |
| ChromeClient.Client.SendNetworkEnable | headless_chrome/client.py:106-107 | `Network.enable` sent and its reply awaited |
| ChromeClient.Client.SendNetworkDisable | headless_chrome/client.py:109-110 | `Network.disable` sent and its reply awaited |
| ChromeClient.Client.SendPageEnable | headless_chrome/client.py:112-113 | `Page.enable` sent and its reply awaited |
| ChromeClient.Client.SendPageDisable | headless_chrome/client.py:115-116 | `Page.disable` sent and its reply awaited |
| ChromeClient.Client.TakeScreenshot | headless_chrome/client.py:118-120 | the capture reply's `result.data`, or a missing-field error when it has none |
| ChromeClient.Client.SendPageNavigate | headless_chrome/client.py:122-123 | `Page.navigate` with the URL sent, not waited for |
| ChromeClient.Client.RecordFrame | headless_chrome/client.py:131-142 | a received frame is appended exactly when it is a Network event, and the loop's verdict is Classify's |
| ChromeClient.Client.RecordNavigation | headless_chrome/client.py:125-142 | the events restart empty, the navigate command goes out, and status, events and read position are NavigationOutcome's |
| ChromeClient.SessionCommands | headless_chrome/client.py:150-157 | a session's commands carry the ids 0 to 3 in order |
| ChromeClient.RecordNavigation | headless_chrome/client.py:144-159 | the result is SessionOutcome's for the stream; the commands sent are a prefix of SessionCommands, three long on a timeout and four on success |
| Visit.Translate | headless_chrome/visit.py:14 | a kept character's image is never a translation key, and characters without an entry are unchanged |
| Visit.SanitizeUrl | headless_chrome/visit.py:13-15 | the result holds none of `/`, `:`, space and `.`, and is shorter by the number of slashes |
| Visit.SanitizeAppend | headless_chrome/visit.py:14-15 | the translation distributes over concatenation |
| Visit.SanitizeDeletesSlash | headless_chrome/visit.py:14-15 | a slash is deleted: the two sides are translated on their own and joined |
| Visit.SanitizeWithoutSlash | headless_chrome/visit.py:14-15 | without slashes the length is kept and each position holds the image of the same position |
| Visit.SanitizeFixesClean | headless_chrome/visit.py:14-15 | a string without key characters is left unchanged |
| Visit.SanitizeIdempotent | headless_chrome/visit.py:13-15 | sanitizing twice equals sanitizing once |
| Visit.SanitizedHasNoSlash | headless_chrome/visit.py:13-15 | a sanitized string holds no slash |
| Visit.Basename | headless_chrome/visit.py:33 | the basename has no slash, ends the path, and is the whole path or preceded by a slash |
| Visit.BasenameOfJoin | headless_chrome/visit.py:33 | the basename of `dir/name` is `name` |
| Visit.GetFilename | headless_chrome/visit.py:31-35 | every name starts with `results/` and ends with `.png` |
| Visit.GetFilenameShape | headless_chrome/visit.py:31-35 | every name holds exactly one slash |
| Visit.GetFilenameRecoversUrl | headless_chrome/visit.py:35 | without a VPN the sanitized URL is the name minus `results/` and `.png`, and two URLs get the same name if and only if they sanitize alike |
| Visit.GetFilenameEmptyVpn | headless_chrome/visit.py:32 | an empty VPN configuration path counts as none |

## Left out

- Starting and stopping Chrome (`start`, `cleanup`), the temporary profile directory and the random debugging port: process and file-system I/O.
- The sleep before connecting, and connecting and closing the WebSocket (`__aenter__`, `__aexit__`): the client is built directly over its connection.
- The HTTP query of `_find_tabs`: its answers are parameters of FindTabs and GetTabDebuggerUrl.
- ChromeClient.Client.GetTabDebuggerUrl: takes two endpoint answers, because the code queries at most twice. The `KeyError` or `TypeError` the code raises when no usable tab exists both become EndpointNotFound.
- ChromeClient.FirstPage: assumes every descriptor has a `type`. A missing one, which raises `KeyError` in the code, is not modelled.
- JSON encoding and decoding, and base64 decoding of the screenshot. Frames hold the decoded members, and TakeScreenshot returns the decoded bytes. Invalid JSON or base64 is not modelled.
- Logging and `pprint`: no effect on results.
- Navigation.NavigationOutcome: models the `asyncio.wait_for` timeout as a budget on the number of frames read. Wall-clock time, the 90-second default and cancellation in the middle of a read are not modelled. When the budget runs out at the end of the stream, the timeout wins.
- ChromeClient.RecordNavigation: does not model the optional `sleep` before the session (a timing effect only). The `chrome_path` parameter is optional, and a missing one falls back to the default.
- `_get_debug_command` returns the send as a coroutine. Every caller awaits it at once, so the model sends at once.
- A `Network.loadingFailed` event without a `params` object raises like one without `params.type`; both are MissingField("params.type").
- A screenshot reply without a `result` object (an `{id, error}` reply, say) raises `KeyError('result')` in the code; TakeScreenshot reports it, like a `result` without `data`, as MissingField("result.data").
- The code does not look at the replies to `Network.enable` and `Page.enable`, so an error reply counts as an answer and the session goes on. Such an error is meant to be fatal, but the code does not check for one, and the model follows the code.
- The rest of `visit.py` (argument parsing, VPN processes, writing the screenshot, the URL loops) and `setup.py`: command-line and process I/O.
- Concurrency: the stream is one strictly ordered sequence, and no other task reads the socket.
- A peer that keeps the socket open but sends nothing more is not modelled: the end of the inbound sequence always means the socket was closed (ConnectionLost). On such a peer the code waits forever for the enable replies and for the capture reply (client.py:73-78, 150-151, 157). Only the navigation loop is under the timeout (client.py:153). The model reaches that timeout on a silent peer only when the budget equals the number of frames left.
