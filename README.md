# NotifyAvailability content watch, modelled in Dafny

NotifyAvailability is a React Native app. It fetches a web page on a background
schedule, looks for a search text in it (or notes that the text is missing), and
raises a local notification when the condition holds. This project models the
check cycle and the small watch state machine around it. The repository holds
three revisions of that logic, and each is modelled on its own:

- `src/services/BackgroundService.js` is the current engine (`background_service.dfy`).
  `checkUrlForText` takes a record of five settings. It stops the background timer
  when the URL or the search text is missing. It adds a desktop User-Agent header
  for the desktop platform type and fetches the URL exactly as given. It matches
  exactly when `caseSensitiveSearch` is `"yes"` and case-insensitively otherwise,
  and inverts the result when `searchAbsence` is `"yes"`. It notifies when the
  decision says so, writes `lastChecked`, and catches every failure.
  `background_task` reads the five settings with `multiGet`, builds a record from
  the pairs and runs the check.
- `src/App.js` is the second revision (`src_app.dfy`). Its cycle prefixes
  `https://` to a URL that does not begin with `http`, always matches
  case-insensitively and writes `lastChecked`. Its `App` component mirrors its
  state into storage and switches the background job on and off.
- `App.js` at the repository root is the first revision (`root_app.dfy`). Its
  cycle matches case-sensitively, sends no extra header and never writes
  `lastChecked`. Its component writes every non-boolean value it sets.

The shared parts live in their own modules:

- `js_text.dfy` holds the JavaScript string built-ins used here: `includes`,
  `toLowerCase`, `trim`, and `toString` on the timestamp.
- `platform.dfy` holds the collaborators: AsyncStorage as a map, the background
  job as a count of active registrations, the notification sink as a log of
  messages, and `fetch` as a log of requests. The fetch result is an input,
  where None means the fetch or `response.text()` threw.
- `watch.dfy` holds the vocabulary shared by the revisions: the constants, JS
  truthiness, URL normalisation, headers and messages.
- `service_examples.dfy` restates the scenarios of `__tests__/BackgroundService.test.js`
  as lemmas.
- `revisions.dfy` relates the three cycles to one another.

Each cycle is a pure function `Cycle` from a snapshot of the collaborators
(`Platform.World`) to the snapshot afterwards and an outcome (`Skipped`,
`Failed`, `Completed`). The cycle's method is proved to change a `Platform.Device`
exactly as `Cycle` says. The app components are classes whose `state` is a map
of string or boolean values (`Watch.JsValue`). Their methods are proved to
leave the state and the collaborators exactly as their contracts say.

Four behaviours of the code are easy to misread, and the model follows the
code in each:

- The watch stays on after a failed first check. In both app revisions,
  `createPrefetchJobs` lets the fetch error propagate after it has set
  `taskSet` to `"yes"` and registered the job, so `loading` also stays `true`
  (`SrcApp.App.CreatePrefetchJobs`, `RootApp.App.CreatePrefetchJobs`).
- `taskSet = "yes"` does not guarantee an active job. In both app revisions,
  pressing Start with an empty search text leaves `taskSet` at `"yes"` with no
  job registered, because the cycle's guard cancels it (the
  `device.timers == 0 <==> outcome == Skipped` clause).
- `lastChecked` is not only written after a fetch reached the compare step:
  `src/App.js` `createPrefetchJobs` also writes it after a skipped cycle.
- The scheme test is on four letters, not on a scheme. The code only tests the
  first four characters for `http`, so a bare host such as `httpbin.org` is
  fetched with no scheme at all (`Watch.NormalizeUrlKeepsHttpHost`).

## Model

| member | source | states |
|---|---|---|
| JsText.Contains | src/services/BackgroundService.js:36 | `includes`; characterised by `JsText.ContainsIffOccurs`, `JsText.ContainsEmpty` and `JsText.FirstCharAbsent`: true iff the needle occurs at some index |
| JsText.ContainsIffOccurs | src/services/BackgroundService.js:36 | `includes` holds exactly when the needle occurs at some index of the text (both directions) |
| JsText.ContainsEmpty | src/services/BackgroundService.js:36 | the empty needle is found in every text; an empty text contains only the empty needle |
| JsText.FirstCharAbsent | src/services/BackgroundService.js:36 | a needle whose first character is absent from the text is not found |
| JsText.LowerCase | src/services/BackgroundService.js:38 | `toLowerCase`, defined as mapping each ASCII letter A–Z to its lower-case letter and keeping every other character; `JsText.LowerCaseIdempotent` proves it idempotent with no upper-case ASCII letter left |
| JsText.LowerCaseIdempotent | src/services/BackgroundService.js:38 | folding twice is folding once, and the result has no upper-case ASCII letter |
| JsText.ContainsIgnoringCase | src/services/BackgroundService.js:38 | `htmlText.toLowerCase().includes(searchText.toLowerCase())`; characterised by `JsText.ContainsIgnoringCaseIff`: true iff some window equals the needle up to case |
| JsText.ContainsIgnoringCaseIff | src/services/BackgroundService.js:38 | the folded match holds exactly when some window of the text equals the needle up to case (both directions) |
| JsText.ExactMatchSurvivesFolding | src/services/BackgroundService.js:35-39 | every exact match is also a case-insensitive match |
| JsText.ContainsIgnoringCaseOfFolded | src/services/BackgroundService.js:38 | the case-insensitive match does not depend on the case of the needle |
| JsText.TrimStart | src/App.js:171 | the result is the suffix after the leading whitespace and starts with a non-blank |
| JsText.TrimEnd | src/App.js:171 | the result is the prefix before the trailing whitespace and ends with a non-blank |
| JsText.Trim | src/App.js:171 | the trimmed URL neither starts nor ends with ECMAScript whitespace |
| JsText.TrimIsSlice | src/App.js:171 | the trimmed string is a contiguous part of the input with only whitespace cut off either side |
| JsText.TrimIdempotent | App.js:134 | trimming twice is trimming once, and `trim` changes exactly the strings with whitespace at an end |
| JsText.NatToDecimal | src/services/BackgroundService.js:57-59 | the stored timestamp is a non-empty string of digits with no leading zero unless it is 0 |
| JsText.DecimalRoundTrip | src/services/BackgroundService.js:55-60 | the stored `lastChecked` string reads back as the timestamp that produced it |
| JsText.DecimalInjective | src/services/BackgroundService.js:55-60 | different timestamps are stored as different strings |
| Watch.IsFalsy | src/services/BackgroundService.js:22 | `!v` on a string that may be null or undefined, defined as missing or empty; the Skipped clauses of the three `Cycle` functions and the truthy-load rule of both `LoadKey` methods are stated with it (also src/App.js:51, App.js:38) |
| Watch.RequestHeaders | src/services/BackgroundService.js:27-29 | a User-Agent header equal to the desktop constant is present iff the platform type is desktop, and there is no other header |
| Watch.StartsWithHttp | src/App.js:56 | the four-character `http` test, defined as: at least four characters, the first four being `http`; `Watch.NormalizeUrl` proves the URLs passing it are left alone, and `Watch.NormalizeUrlKeepsHttpHost` proves it accepts a bare host such as `httpbin.org` (also App.js:43) |
| Watch.NormalizeUrl | src/App.js:56-58 | the result starts with `http`; a URL already starting with `http` is unchanged; any other gets `https://` in front; the original URL is kept as a suffix (same code at App.js:43-45) |
| Watch.NormalizeUrlIdempotent | src/App.js:56-58 | normalising twice equals normalising once |
| Watch.NormalizeUrlKeepsHttpHost | App.js:43-45 | the four-letter test lets the bare host `httpbin.org` through with no scheme |
| Watch.FoundMessage | src/services/BackgroundService.js:46 | the "was found on" message, defined as the search text, then ` was found on `, then the URL; `Watch.MessagesShape` proves it differs from the not-found message (also src/App.js:74, App.js:54) |
| Watch.NotFoundMessage | src/services/BackgroundService.js:43 | the "was not found on" message, defined as the search text, then ` was not found on `, then the URL; `Watch.MessagesShape` proves it differs from the found message |
| Watch.MessagesShape | src/services/BackgroundService.js:41-47 | the found and not-found messages differ, and both start with the search text and end with the URL |
| BackgroundService.Found | src/services/BackgroundService.js:35-39 | the match policy; characterised by `BackgroundService.FoundIff` (exact window for `"yes"`, folded window otherwise) and `BackgroundService.CaseSensitiveFoundImpliesInsensitive` |
| BackgroundService.FoundIff | src/services/BackgroundService.js:35-39 | with `caseSensitiveSearch === 'yes'`, found iff an exact window matches; for any other value, found iff a window matches up to case |
| BackgroundService.CaseSensitiveFoundImpliesInsensitive | src/services/BackgroundService.js:35-39 | turning case sensitivity off never loses a match |
| BackgroundService.Decide | src/services/BackgroundService.js:41-47 | whether to notify and with which text; characterised by `BackgroundService.AbsenceFlipsDecision` |
| BackgroundService.AbsenceFlipsDecision | src/services/BackgroundService.js:41-47 | for the same found value, absence mode notifies exactly when presence mode does not; each mode uses its own message |
| BackgroundService.Incomplete | src/services/BackgroundService.js:22 | the guard on `!url` or `!searchText`; `BackgroundService.Cycle` skips exactly when it holds, and `ServiceExamples.EmptySearchTextOnlyStopsTimer` shows the empty search text case |
| BackgroundService.Cycle | src/services/BackgroundService.js:7-64 | an incomplete config only stops the timer; otherwise the URL is fetched verbatim with the platform headers and the timer is untouched; a throw is contained with no notification and no write; `lastChecked` is written once exactly when the page was compared; at most one notification, and exactly the decided one |
| BackgroundService.CheckUrlForText | src/services/BackgroundService.js:7-64 | changes the collaborators exactly as `Cycle` describes and returns its outcome |
| BackgroundService.RecordFromPairs | src/services/BackgroundService.js:76-79 | the record has a field for exactly the keys that occur, each holding the value of its last pair |
| BackgroundService.StoredCheckData | src/services/BackgroundService.js:81-87 | the record handed to the cycle; `BackgroundService.BackgroundTask` proves the `multiGet` and `forEach` steps build exactly it |
| BackgroundService.BackgroundTask | src/services/BackgroundService.js:66-93 | a failing `multiGet` changes nothing; otherwise the cycle runs on the five stored settings, with missing keys as undefined |
| ServiceExamples.NotifiesWhenFound | __tests__/BackgroundService.test.js:32-52 | "World" in the page: one notification `World was found on http://example.com`, the URL fetched as given, `lastChecked` written |
| ServiceExamples.SilentWhenNotFound | __tests__/BackgroundService.test.js:54-70 | "Universe" absent in presence mode: no notification |
| ServiceExamples.AbsenceNotifiesWhenNotFound | __tests__/BackgroundService.test.js:72-90 | "Universe" absent in absence mode: notification `Universe was not found on http://example.com` |
| ServiceExamples.AbsenceSilentWhenFound | __tests__/BackgroundService.test.js:92-108 | "World" present in absence mode: no notification |
| ServiceExamples.CaseSensitiveMisses | __tests__/BackgroundService.test.js:110-123 | "World" against "Hello world" with case sensitivity on: no notification |
| ServiceExamples.CaseInsensitiveHits | __tests__/BackgroundService.test.js:125-134 | the same page with case sensitivity off: notification |
| ServiceExamples.BackgroundTaskUsesStoredSettings | __tests__/BackgroundService.test.js:138-158 | on the test's stored settings the task fetches `http://test.com` and notifies `foo was found on http://test.com` |
| ServiceExamples.EmptySearchTextOnlyStopsTimer | src/services/BackgroundService.js:22-25 | an empty search text stops the timer and changes nothing else, whatever the fetch would return |
| SrcApp.Cycle | src/App.js:49-79 | an incomplete config only cancels the task; otherwise the normalised URL is fetched with the platform headers; a throw skips everything after it; `lastChecked` is written exactly after the compare; a notification only on a case-insensitive match, naming the normalised URL |
| SrcApp.CheckUrlForText | src/App.js:49-79 | changes the collaborators exactly as `SrcApp.Cycle` describes |
| SrcApp.BackgroundJob | src/App.js:81-92 | runs the cycle on the stored `url`, `searchText` and `webPlatformType`; `finish()` is reached iff the cycle did not throw |
| SrcApp.App.constructor | src/App.js:96-109 | the six state keys with their defaults |
| SrcApp.App.ShouldUseAsyncStorage | src/App.js:111-116 | for a key of the component's state, the key is mirrored iff it is not `loading` |
| SrcApp.App.PersistState | src/App.js:141-150 | sets only `state[key]`, and writes storage iff the current value is not a boolean and the key is not `loading` |
| SrcApp.App.LoadKey | src/App.js:120-123 | a key other than `loading` takes its stored value iff that value is truthy; `loading` is never loaded; storage is unchanged |
| SrcApp.App.InitAsyncStorage | src/App.js:118-126 | every mirrored key takes a truthy stored value and keeps its default otherwise; `loading` is never loaded; storage is unchanged |
| SrcApp.App.ComponentDidMount | src/App.js:128-139 | afterwards exactly one job is registered if `taskSet` is `"yes"`, none otherwise |
| SrcApp.App.StartWatching | src/App.js:170-175 | `loading` becomes true, the given URL and `taskSet` "yes" are set in state and storage, and exactly one job is registered |
| SrcApp.App.CreatePrefetchJobs | src/App.js:169-180 | the URL is trimmed and saved, `taskSet` is `"yes"`, cancel-then-schedule leaves at most one job, the cycle runs on the trimmed URL; on a throw `loading` stays true and `lastChecked` is not set, otherwise both are set |
| SrcApp.App.RecordCheck | src/App.js:178-179 | after a cycle that did not reject, `lastChecked` holds the timestamp in state and storage and `loading` is false; nothing else changes |
| SrcApp.App.DeletePrefetchJobs | src/App.js:182-185 | no job is left, and `taskSet` is `"no"` in state and storage |
| SrcApp.App.RefreshWebView | src/App.js:193-199 | only `loading` changes in state (to false), and storage holds the URL again |
| SrcApp.App.PickerValueChanged | src/App.js:187-191 | the platform type is saved in state and storage, then the preview is refreshed |
| RootApp.Cycle | App.js:36-57 | an incomplete config only cancels the task; otherwise the normalised URL is fetched with no extra header; storage is never written; a notification only on an exact match, naming the normalised URL |
| RootApp.CheckUrlForText | App.js:36-57 | changes the collaborators exactly as `RootApp.Cycle` describes |
| RootApp.BackgroundJob | App.js:59-69 | runs the cycle on the stored `url` and `searchText`; `finish()` is reached iff the cycle did not throw |
| RootApp.App.constructor | App.js:73-84 | the four state keys with their defaults |
| RootApp.App.PersistState | App.js:106-113 | sets only `state[key]`, and writes storage iff the new value is not a boolean |
| RootApp.App.LoadKey | App.js:87 | one key takes its stored value iff that value is truthy; storage is unchanged |
| RootApp.App.InitAsyncStorage | App.js:86-91 | only `url`, `searchText` and `taskSet` are loaded, each only from a truthy stored value; storage is unchanged |
| RootApp.App.ComponentDidMount | App.js:93-104 | afterwards exactly one job is registered if `taskSet` is `"yes"`, none otherwise |
| RootApp.App.StartWatching | App.js:133-138 | `loading` becomes true, the given URL and `taskSet` "yes" are set in state and storage, and exactly one job is registered |
| RootApp.App.CreatePrefetchJobs | App.js:132-142 | the URL is trimmed and saved, `taskSet` is `"yes"`, at most one job is registered, the cycle runs on the trimmed URL; on a throw `loading` stays true |
| RootApp.App.DeletePrefetchJobs | App.js:144-147 | no job is left, and `taskSet` is `"no"` in state and storage |
| Revisions.ServiceMatchesSrcAppDefaults | src/services/BackgroundService.js:31-47 | for a URL already starting with `http`, the current engine with folding in presence mode acts exactly like the src/App.js cycle |
| Revisions.ServiceMatchesRootAppWhenCaseSensitive | src/services/BackgroundService.js:35-36 | for such a URL, case-sensitive presence mode notifies exactly as the first revision does |
| Revisions.RootNotificationImpliesSrcNotification | src/App.js:72-76 | whatever the first revision reports, the second reports with the same message |
| Revisions.OnlyAppRevisionsAddScheme | src/services/BackgroundService.js:32 | a bare host is fetched as typed by the current engine, but with `https://` in front by both app revisions |

## Left out

- Network: `fetch`, `Headers` and `response.text()` are not modelled. The page body is an input, None stands for a throw, and the request is logged with its URL and headers.
- Storage failures: a rejected `AsyncStorage.setItem` or `getItem` is not modelled; only the failing `multiGet` of `background_task` is. In `checkUrlForText` of the current engine, a rejected `setItem` would be caught after the notification with no other effect.
- Library behaviour: `BackgroundTask.schedule` is modelled as adding one registration and `cancel` / `stopBackgroundTimer` as removing all of them; the real libraries are not visible. `BackgroundTask.finish()` is only the `finished` result.
- Platform set-up: `PushNotification.configure`, `checkStatus` and `Alert` are left out.
- Logging: `console.log` is left out.
- Time: `moment().valueOf()` is a clock value passed in (`now`, `checkTime`, `doneTime`). The `fromNow` display is left out.
- Constants.js is not part of this model. `WEB_PLATFORM_DESKTOP`, `WEB_PLATFORM_MOBILE` and `USER_AGENT_DESKTOP` are constants with unspecified values.
- Asynchrony: every method runs atomically and in order, and `setState` takes effect at once. In particular, `initAsyncStorage` is started by the constructor without being awaited, and its race with `componentDidMount` is not modelled.
- JsText.LowerCase: folds only the ASCII letters A–Z, not the full Unicode case mapping of `toLowerCase`.
- SrcApp.App.PersistState: requires the key to be one of the state's keys and the value to keep that key's type (only `loading` is boolean). Every call in the component meets this, and AsyncStorage only stores strings, but JavaScript itself would accept any value.
- RootApp.App.PersistState: carries the same key-and-type precondition.
- BackgroundService.RecordFromPairs: keys are plain map keys, so special object keys such as `__proto__` are not modelled.
- UI: every `render()`, the web preview, and the components and styles under `src/components/` and `src/Styles.js` are widget mapping only. The tests under `__tests__/` other than `BackgroundService.test.js` measure rendering and storage batching.
