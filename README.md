# Avatar uploader: the waiting-for-avatar state machine

This project models the core of the `avatar_uploader` chat-bot plugin. An
administrator issues the upload command in a conversation (a *session*), and
the session becomes *armed*. The next image message in that session is then
downloaded to a temporary file and applied as the bot account's avatar. A
timer disarms the session silently 30 seconds after the command.

The model has five modules:

- `Session` covers message segments (plain text, image with an optional URL,
  anything else) and the scan for the first image's URL. `ExtractImageUrl` is
  the `for … break` loop. `FirstImageUrl` is the function that specifies it.
- `Registry` is the set of armed sessions as a pure state machine. It has one
  event per atomic step of the event loop: command, expiry, message and
  teardown. `Decide` is what the synchronous part of the message handler
  decides; `Next` and `Run` apply events. `Flows` counts the fetch-and-set
  flows a trace starts for a session. The lemmas state the registry
  properties, including that at most one flow starts per arming.
- `Fetch` holds the outcome of the HTTP fetch, the failure causes, the
  temporary file name, and small classes for the local file system and the
  bot account. `FlowOutcome` specifies the outcome of one download-and-set
  flow.
- `Plugin` has the class `AvatarUploaderPlugin`. Its field
  `waitingForAvatar: map<SessionId, bool>` is the source's dictionary. Its
  methods update that field in place as the handlers do. Each method also
  ties the new set of keys to `Registry.Next` on the old set.
- `Scenarios` is client code. Its methods drive the typical conversations
  and are verified against the handlers' contracts alone: prompt, reminder,
  success, a 404 failure, silent expiry and teardown.

The message handler is split at its first suspension point. `Dispatch` holds
the gate, the scan and the disarm; nothing can interleave with them under
asyncio. `DownloadAndSetAvatar` starts only after that, so the session is
already disarmed when the fetch runs, and `DownloadAndSetAvatar` requires
that the session is no longer waiting. Interleavings with other events are
stated on traces in `Registry` (`AtMostOneFlow`, `CaptureExpiryRace`).

The network, the file write and the host's avatar call are inputs. `fetch`
is what a GET of a URL yields. `writeOk` says whether writing the file
succeeds, and `setOk` whether the avatar call succeeds. The file system is a
map from paths to bytes.

## Model

| member | source | states |
|---|---|---|
| `Session.ExtractImageUrl` | main.py:57-63 | scanning the chain in order and stopping at the first image segment yields exactly `FirstImageUrl(chain)` |
| `Session.Usable` | main.py:65 | a scanned URL fails the truth test exactly when it is absent or the empty string |
| `Session.FirstImageUrlIsFirst` | main.py:58-63 | when segment k is the first image segment, the scan yields segment k's URL (absent or empty included) |
| `Session.FirstImageUrlNoImage` | main.py:58-63 | a chain without image segments yields no URL |
| `Session.FirstImageUrlIgnoresRest` | main.py:60-63 | once a chain contains an image, appending anything after it does not change the URL found |
| `Registry.Decide` | main.py:52-71 | an unarmed session is ignored; an armed one is reminded exactly when the found URL is absent or empty; otherwise the flow starts on exactly the found URL |
| `Registry.Next` | main.py:34-109 | teardown empties the set; every other event touches only its own session; only the upload command arms, and it always does |
| `Registry.CommandArms` | main.py:31-34 | after the command the session is armed; arming twice equals arming once; other sessions keep their status |
| `Registry.ExpiryDisarms` | main.py:41-45 | expiry removes the session; it is a no-op when the session is already disarmed; it is idempotent; other sessions keep their status |
| `Registry.MessageStep` | main.py:52-71 | a message for an unarmed session changes nothing; no usable URL keeps the session armed; a usable URL disarms it; other sessions are untouched |
| `Registry.TeardownClears` | main.py:107-109 | teardown leaves no session armed |
| `Registry.DisarmedStaysDisarmed` | main.py:52-54 | a disarmed session stays disarmed, and starts no flow, until the next upload command for it |
| `Registry.AtMostOneFlow` | main.py:52-75 | between two upload commands for a session, at most one flow starts for it; after one has started, the session stays disarmed |
| `Registry.CaptureExpiryRace` | main.py:41-71 | a capture and an expiry in either order leave the session disarmed; one flow runs when the capture comes first on an armed session, none otherwise |
| `Registry.EmptyFirstImageReminds` | main.py:58-68 | if the first image has an empty URL, the armed session is reminded even when later images have URLs |
| `Registry.RearmAllowsSecondFlow` | main.py:29-75 | re-arming while a flow is in progress lets a second image start a second flow for the same session |
| `Fetch.FlowOutcome` | main.py:87-98 | the flow succeeds exactly when the status is 200, the body is read, the file is written and the avatar call succeeds; each failing step gives its own cause, a non-200 status with that status; the avatar-set failure is only reachable after a successful write |
| `Fetch.TempName` | main.py:85 | the temporary name is `temp_avatar_`, then the session id, then `.jpg` |
| `Fetch.TempPath` | main.py:85 | the path is the avatar directory, one separator, then the session's temporary name |
| `Fetch.TempPathInjective` | main.py:85 | two sessions share a temporary path in one directory if and only if they are the same session |
| `Fetch.FileSystem.Exists` | main.py:104 | reports whether the path is present |
| `Fetch.FileSystem.Create` | main.py:92 | opening for binary write creates the file, or truncates it to empty |
| `Fetch.FileSystem.Write` | main.py:92-93 | a successful write leaves exactly the data; a failed write leaves unspecified contents; other files are unchanged |
| `Fetch.FileSystem.Unlink` | main.py:105 | the path is removed and nothing else |
| `Fetch.Account.SetQqAvatar` | main.py:98 | the request is recorded; on success the avatar becomes the file's contents, otherwise it keeps its old value |
| `Plugin.AvatarUploaderPlugin.constructor` | main.py:19-25 | the plugin starts with no waiting sessions |
| `Plugin.AvatarUploaderPlugin.UploadAvatar` | main.py:27-39 | the session maps to `true` and nothing else changes; the reply is the prompt text |
| `Plugin.AvatarUploaderPlugin.ClearWaitingStatus` | main.py:41-45 | the session is removed if present and nothing else changes; absent sessions are a no-op |
| `Plugin.AvatarUploaderPlugin.Dispatch` | main.py:50-71 | the decision is `Decide` on the armed set before the call; the session is disarmed exactly when the decision is to capture |
| `Plugin.AvatarUploaderPlugin.DownloadAndSetAvatar` | main.py:82-105 | requires the session to be already disarmed; the outcome is `FlowOutcome`; afterwards the temporary file is absent and every other file is unchanged, on every path; the avatar call is made only after a 200 response and a successful write; the avatar changes only on success, to the downloaded bytes |
| `Plugin.AvatarUploaderPlugin.HandleImageMessage` | main.py:47-80 | unarmed: no reply, no change. Armed without a usable URL: the reminder, still armed. Armed with a URL: disarmed, then the success text, or the fixed failure text with the cause only in the log; the temporary file is gone afterwards |
| `Plugin.AvatarUploaderPlugin.Terminate` | main.py:107-109 | the waiting dictionary is empty |
| `Scenarios.UploadRemindCapture` | main.py:29-80 | upload, then a text message, then an image fetched with 200: prompt, reminder, success; the avatar is the downloaded bytes and the temporary file is gone |
| `Scenarios.SilentExpiry` | main.py:41-45 | a session armed by the command is disarmed when its timer fires, with nothing sent |
| `Scenarios.TeardownWithTwoArmed` | main.py:107-109 | with two sessions armed, teardown leaves none |
| `Scenarios.CaptureNotFound` | main.py:73-95 | an image whose download answers 404 gives the failure text, logs status 404 and leaves the avatar unchanged |

## Left out

- The administrator permission filter and the command and event registration
  (main.py:27-28, main.py:47) belong to the host framework. `UploadAvatar`
  models the command after the admin check has passed.
- `asyncio.create_task` and `asyncio.sleep` (main.py:39, main.py:43) are real
  time and scheduling. A timer firing is the separate call
  `ClearWaitingStatus`, which may happen at any point. Pending timers are not
  tracked.
- Interleaving during the `await` of the download is not modelled in the
  class. The class methods run one after another. Interleavings are stated on
  event traces in `Registry`, where a message event is the atomic part of the
  handler up to and including the disarm.
- The aiohttp GET and the body read (main.py:89-93) are an input function
  from URL to `FetchResult`. No bytes are transferred.
- An `open` that fails before creating the file is treated like a failed
  write after the file was created. Either way the outcome is a write failure
  and the cleanup leaves no temporary file.
- `set_qq_avatar` (main.py:98) is a host API. Its success is an input, and it
  reads the file's contents at the moment of the call.
- Log output (main.py:79, main.py:100) is left out. The exception text is
  replaced by the `Cause` value that `HandleImageMessage` returns as
  `logged`; the success log line is not modelled.
- The data-directory lookup and `mkdir` (main.py:24-25) are left out. The
  avatar directory is a constructor parameter. The plugin metadata
  (main.py:17) is also left out.
- `Fetch.TempPath`: paths are joined as strings with one `/`. pathlib's
  normalisation is not modelled, so a session id containing `/` or `..` is
  treated as a plain string.
- Faults raised by the cleanup itself, for example an `unlink` that fails,
  are not modelled. So are exceptions other than the listed causes.
