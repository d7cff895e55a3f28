# ComfyUI instance launcher — Dafny model

The system lets one shared pod run a single ComfyUI instance for one named user at a time.
An Express server (`app.js`) keeps one in-memory ownership record,
`currentStatus = {running, user, startTime}`. Its handlers reconcile that record with a probe of
port 8188, launch or kill the instance through shell scripts, choose a log file and build the proxy link.
A browser page (`public/script.js`) flattens the volume map into a sorted user list. The page offers
search and keyboard selection over that list and keeps a log view that auto-scrolls.

The model has three modules:

- `Server` (`server.dfy`) models `app.js`. The class `Instance` holds the three record fields. Each
  handler is a method: `Initialize`, `Start`, `Status` and `Stop`. Three facts from outside are
  parameters: the port probe's verdict, whether a script exists, and the clock (milliseconds). Two
  ghost logs record the fire-and-forget `exec` calls: `launches` (the user names the start script
  was run for) and `kills`. Each method keeps the invariant `Consistent`: an owner implies
  `running`, and a start time is present exactly when an owner is. Scenario methods replay request
  sequences on a fresh record. The pure selectors are `LogPath`, `ServeLog`, `CopyLink` and
  `ServedVolumeMap`.
- `Picker` (`picker.dfy`) models `public/script.js` apart from the DOM. The user list is built by
  `FlattenVolumes` (the nested loops, proved equal to `Flattened`) and sorted by `SortByName`, over an
  abstract total preorder that stands for `localeCompare`. The class `UserPicker` holds `allUsers`,
  `filteredUsers`, `selectedIndex`, whether the dropdown is shown and the selected user. Its
  invariant says that the filtered list is a subsequence of the full list and that the index lies
  between -1 and the last position, or 0 when the filtered list is empty. The class `LogScroller` holds the auto-scroll flag and the
  jump-to-bottom button.
- `Wrappers` holds `Option`, which stands for JavaScript's `null`.

Notable behaviour of `app.js`, which the model keeps:

- `/status` resets a running record as soon as the probe reports the port closed, however recently
  the instance was started.
- `/status` marks an instance found alive without a record as running with `user: null`.
  Any user may then claim it through a start request.
- A start by the owner of a live instance runs the start script again and refreshes `startTime`
  (`SameUserRelaunchScenario`).
- A second user's start is not always refused. If it arrives before the first user's instance
  has opened its port, it launches again and takes ownership (`StartupOverrideScenario`).
- `!currentStatus.user` is JavaScript truthiness, so `Start` treats an empty user name like `null`.

## Model

| member | source | states |
|---|---|---|
| `Server.Instance.constructor` | app.js:10-14 | The record starts as `{running:false, user:null, startTime:null}`, satisfying the invariant, with nothing launched or killed |
| `Server.Instance.Initialize` | app.js:31-43 | A dead probe resets the whole record. A live probe leaves it as it is, so a request that ran first is kept. The invariant is preserved |
| `Server.Instance.Start` | app.js:71-144 | Live probe with a different truthy owner: 409, `success:false`, record unchanged, nothing launched. Live probe without a truthy owner: the record becomes `{true, requester, now}`, a "Claimed by" success, nothing launched. Otherwise, including the requester's own live instance: a missing script gives 404 with the record unchanged; an existing script is launched once for the requester, the record becomes `{true, requester, now}` and the answer is success. The invariant is preserved |
| `Server.Instance.Status` | app.js:147-171 | Dead probe on a running record: all three fields reset. Live probe on a stopped record: only `running` becomes true. Otherwise unchanged. Afterwards `running` equals the probe's verdict. The report carries the record and its uptime |
| `Server.Instance.Stop` | app.js:174-220 | Whatever the prior state and whether or not the stop script exists: the record is reset and the answer is `success:true` with the reset status. The message names the previous truthy owner. One kill is recorded: the stop script, or `pkill` when the script is missing |
| `Server.Uptime` | app.js:168-169 | 0 without a start time; otherwise the largest whole number of seconds not exceeding the elapsed time (floor, also for negative elapsed time), never negative when the start lies in the past |
| `Server.LogPath` | app.js:228-233 | The downloads log exactly for `model_downloads`; the application log for every other identifier |
| `Server.ServeLog` | app.js:223-244 | Streams the selected log exactly when the file exists; otherwise a not-found message that contains the selected path |
| `Server.CopyLink` | app.js:266-278 | The localhost link exactly when the pod id is unset or empty |
| `Server.PodIdOf` | app.js:269-272 | Any pod id read back from a link rebuilds that link as `https://<id>-8188.proxy.runpod.net` |
| `Server.CopyLinkRecoversPodId` | app.js:267-277 | The pod id is recovered from the proxy link; the localhost link yields none, so distinct non-empty pod ids give distinct links (an unset id and an empty one are both falsy and both give the localhost link) |
| `Server.ServedVolumeMap` | app.js:52-68 | The file's map when it exists; otherwise the built-in five-volume default |
| `Server.ConflictScenario` | app.js:79-98 | After one user's launch, a different user's start on the live instance gets 409 and the first user stays the owner |
| `Server.FreshStatusScenario` | app.js:147-171 | A fresh record with a dead probe reports not running, no user, no start time, uptime 0 |
| `Server.StartThenStatusScenario` | app.js:132-170 | Right after a launch, status on a live probe reports the requester as owner with the launch time and a non-negative uptime |
| `Server.SameUserRelaunchScenario` | app.js:79-143 | The owner's second start on a live instance takes the launch path again and refreshes `startTime` |
| `Server.StartupOverrideScenario` | app.js:77-143 | A second user's start while the probe is still dead succeeds and replaces the owner |
| `Server.StopAfterStartScenario` | app.js:174-220 | Stop after a launch succeeds, names the previous owner, and a later status reports nothing running |
| `Picker.VolumeDisplayName` | public/script.js:310-319 | `vol_1`..`vol_4` map to "Volume 1".."Volume 4" and `no_vol` to "General"; any other key is returned unchanged |
| `Picker.DisplayNameAsWritten` | public/script.js:310-319 | The lookup as written: table keys give their label, inherited `Object.prototype` keys give a built-in (not a string), other keys themselves |
| `Picker.InheritedKeyIsNotAString` | public/script.js:318 | The display names of the keys "constructor" and "toString" are not strings |
| `Picker.DisplayNameAgreesOffInheritedKeys` | public/script.js:310-319 | The lookup as written and the corrected one agree on every non-inherited key |
| `Picker.GetImageStatus` | public/script.js:227-233 | `error` wins over `loaded`, a loaded entry is `loaded`, and an absent entry is `loading` |
| `Picker.IsInputElement` | public/script.js:117-123 | No element is not an input. A content-editable element is one. Otherwise the lower-cased tag must be `input`, `textarea` or `select` |
| `Picker.Flattened` | public/script.js:133-143 | The flattened list has one entry per (volume, user) pair in number, and each entry's display name is its volume's display name |
| `Picker.FlattenedAt` | public/script.js:134-141 | User j of volume i sits at its own offset (the users of earlier volumes plus j) as `{name, volume, volumeDisplay}` |
| `Picker.FlattenVolumes` | public/script.js:133-143 | The nested push loops build exactly `Flattened` of the entries |
| `Picker.FallbackIsDefaultFlattened` | public/script.js:151-161 | The fallback list equals the server's default map flattened, in volume order (it is not sorted) |
| `Picker.InsertByName` | public/script.js:144 | Inserting into a name-sorted list keeps it sorted and adds exactly that user |
| `Picker.SortByName` | public/script.js:144 | The sorted list is ordered by name under the total preorder and is a permutation of the input |
| `Picker.TrimStart` | public/script.js:322 | Removes exactly the leading white space and line terminators |
| `Picker.TrimEnd` | public/script.js:322 | Removes exactly the trailing white space and line terminators |
| `Picker.Trim` | public/script.js:322 | The result is the input with a run of leading and a run of trailing white space removed, and it neither starts nor ends with white space; it is empty exactly when the input is all white space |
| `Picker.ContainsIffOccurs` | public/script.js:323 | `includes` holds exactly when the term occurs at some offset |
| `Picker.FilterUsers` | public/script.js:323 | The result is an order-preserving subsequence. Each matching user occurs in it as often as in the input, and no other user occurs |
| `Picker.FilterByEmptyTermKeepsAll` | public/script.js:323 | Filtering by the empty term keeps every user, so the blank-term shortcut agrees with the filter |
| `Picker.SearchResult` | public/script.js:322-323 | A blank trimmed term gives the full list. For any term, the result is a subsequence of the full list in which each user whose lower-cased name or display name includes the term occurs as often as in the full list, and no other user occurs |
| `Picker.EnterChoice` | public/script.js:362-368 | Enter selects the highlighted user when the index is in range. Otherwise it selects the sole user of a one-element list, and otherwise nothing. A selected user is always from the list |
| `Picker.UserPicker.constructor` | public/script.js:6-9 | Empty lists, index -1, no user selected |
| `Picker.UserPicker.LoadUserList` | public/script.js:127-164 | A fetched map becomes its flattened list sorted by name. A failure gives the fallback list. `filteredUsers` becomes a copy. The invariant is preserved |
| `Picker.UserPicker.HandleSearch` | public/script.js:321-327 | The filtered list is the search result for the input. The index is 0 when the result is non-empty, else -1. The dropdown is shown |
| `Picker.UserPicker.ShowDropdown` | public/script.js:329-337 | Shows the dropdown; lists, index and user unchanged |
| `Picker.UserPicker.HideDropdown` | public/script.js:339-344 | Hides the dropdown and resets the index to -1 |
| `Picker.UserPicker.HoverItem` | public/script.js:414-417 | Hovering a rendered item highlights its index |
| `Picker.UserPicker.SelectUser` | public/script.js:446-462 | Records the user's name, hides the dropdown and resets the index |
| `Picker.UserPicker.HandleKey` | public/script.js:346-376 | With the dropdown hidden, any key but Escape shows it. Otherwise: ArrowDown gives `min(i+1, len-1)`, never past the last entry; ArrowUp gives `max(i-1, 0)`, never negative; Enter selects `EnterChoice`; Escape hides and resets. Lists are never changed |
| `Picker.UserPicker.ShowSelectionPage` | public/script.js:470-487 | The full list is restored, the index reset to -1, the user forgotten and the dropdown shown |
| `Picker.LogScroller.constructor` | public/script.js:3 | Auto-scroll starts on, with the jump button hidden |
| `Picker.LogScroller.UpdateJumpButton` | public/script.js:556-558 | The button is shown exactly when auto-scroll is off |
| `Picker.LogScroller.HandleLogsScroll` | public/script.js:546-554 | Auto-scroll is on exactly when the distance from the bottom is at most 20. The button is refreshed once when the flag flips, and not at all otherwise |
| `Picker.LogScroller.JumpToBottom` | public/script.js:89-93 | Turns auto-scroll on and hides the button |

## Findings

| source | as written | input that shows it | evidently intended | confidence | as-written member | corrected member |
|---|---|---|---|---|---|---|
| public/script.js:310-319 | `volumeNames[volume] \|\| volume` looks the key up on an object literal, so inherited `Object.prototype` properties are found too | a volume keyed `constructor` (or `toString`, `valueOf`, ...) in `volume_map.json`: its display name is a built-in function, not a string (for `__proto__` it is `Object.prototype`, an object). A search term that such a user's lower-cased name does not include then calls `toLowerCase` on that display name and throws | keys outside the table are returned unchanged | medium; not executed | `Picker.DisplayNameAsWritten` (`Picker.InheritedKeyIsNotAString`) | `Picker.VolumeDisplayName` (used by `Picker.Flattened`) |

## Left out

- The port probe `checkComfyUIProcess` (app.js:17-29), which runs `netstat`/`lsof`. It is the `probeAlive` parameter.
- The `exec` launch and kill calls and their callbacks (app.js:120-130, 183-203). They appear only in the ghost logs `launches` and `kills`. Their outcome never reaches a response.
- `fs.existsSync`, `chmodSync` and read streams (app.js:104-117, 180-194, 242-261). A file's existence is a parameter. Read-stream errors (500) are not modelled.
- The `/setup` endpoint (app.js:281-303), which starts the setup script.
- The `/health` endpoint (app.js:306-313), which echoes the ownership record and the process uptime.
- The 404 and 500 middleware (app.js:316-331), which answer unknown endpoints and unhandled errors with an error message.
- The listener (app.js:334-338), which only binds the port and logs.
- The SIGINT handler (app.js:341-351). When the record says running, it kills the instance with `pkill -f "main.py --listen"` before it exits; otherwise it exits at once. The model has no shutdown operation, so this kill is not recorded in the `kills` log.
- The SIGTERM handler (app.js:353-356), which exits.
- Interleaving of asynchronous handlers: each handler is modelled as running atomically after its probe resolves. `Initialize` is still stated for any valid record.
- scripts/Download_models.py is not part of this model. It is subprocess and file plumbing.
- In public/script.js: DOM updates and HTML rendering, `fetch`, timers and polling, image preloading, notifications, and the particle animation (public/script.js:754-1024).
- `Picker.UserPicker.ShowSelectionPage`: states the state after its timers (300 ms and 350 ms) have fired, not the intermediate states.
- `Picker.ToLower`: lower-cases ASCII letters only, not the full Unicode mapping of `toLowerCase`.
- `Picker.SortByName`: `localeCompare` is abstracted as a total preorder, and the stability of `Array.prototype.sort` is not stated.
- `Picker.UserPicker.LoadUserList`: requires the index to be -1, because it runs once from `initializeApp` before any handler is installed.
- `Picker.LogScroller.HandleLogsScroll`: scroll measurements are integers, while browsers may report fractional pixels.
- `Picker.LogScroller.constructor`: the button's initial visibility comes from HTML that is not part of this model; it is taken as hidden.
- Invariant of `Picker.UserPicker`: ArrowUp on an empty list sets the index to 0, so the bound is `max(len-1, 0)`, not `len-1`; Enter's range check keeps this harmless.
