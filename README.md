# Check-in page workflow, modelled in Dafny

The page is a single React component (`App` in `App.tsx`). A visitor types an email and submits
the form. The page validates the email, marks itself SUBMITTING, builds a check-in record from
the email, a timestamp and a time-derived id, and asks a language-model client for a welcome
message. When the webhook URL is configured, it also POSTs the record to a spreadsheet webhook.
If both settle without error, the record is put in front of the recent-history list, which is
cut to five entries, saved to browser storage and shown with the message on a success panel.
Any exception inside the handler's `try` block shows an error message and the ERROR status.
Either way a timer later puts the page back to IDLE. On mount, the page restores the saved
history, and keeps the empty list when the saved text does not parse.

The model has six modules:

- `Types` (`types.dfy`): the `CheckInData` record and the `AppStatus` enumeration of
  `types.ts`, and an `Option` type for the nullable error message.
- `Strings` (`strings.dfy`): JavaScript's `String.prototype.includes`, proved equal to "the
  needle occurs at some index". On top of it sit the email validator and the
  "backend is configured" predicate, and a proof that the shipped URL counts as configured.
- `History` (`history.dfy`): `slice(0, n)`, the prepend-and-cap update of the history list,
  and lemmas about one update and about any sequence of updates.
- `Gemini` (`gemini.dfy`): the welcome-message client's fallback logic. The generation call is
  foreign, so its answer is an input.
- `CheckIn` (`app.dfy`): the component as a class `App` whose fields are the component's state
  variables. It also has the storage key (`stored`), the log of webhook POSTs (`posted`), the
  handlers suspended at their first `await` (`pending`), and the count of scheduled reset
  timers (`timers`). `handleCheckIn` is split at its first `await`: `Submit` runs the
  synchronous part, and `Complete` runs the rest once the network results are given. Several
  submissions may be in flight, and they may complete in any order.
- `Scenarios` (`scenarios.dfy`): runs of the page driven through its handlers.

Inputs instead of effects: the timestamp and the id are parameters of `Submit`. How the webhook
POST settles, the generation client's reply, and whether the storage write throws are
parameters of `Complete`. A reset timer firing is the method `ResetTimerFires`, callable
whenever one is scheduled.

The model follows the code, including these behaviours, which a reader of the page might not expect:

- The webhook request is awaited inside the `try` block (App.tsx:51-58). A rejected POST
  therefore ends the check-in in ERROR, with nothing added to the history
  (`Scenarios.WebhookRejectionIsError`). It is not swallowed.
- Writing storage (App.tsx:65) can throw after the history and message are already set. The
  page then shows ERROR together with the new, unsaved history.
- The mount effect restores the saved list as it is, without cutting it to five entries. A
  history longer than five entries only shrinks at the next check-in (`History.PushAllBounded`).
- When the handler itself rejects an email, it leaves the status, history, storage and email
  unchanged, but it does set the validation message. Through the form this branch is not
  reached, because the browser's own field validation runs first (see "## Left out").
- Reset timers carry no guard. A timer scheduled by an earlier check-in can fire while a later
  one is SUBMITTING, which re-enables the form. Two check-ins in flight both captured the same
  `history`, so the one that completes last overwrites the other's record
  (`Scenarios.StaleTimerDropsCheckIn`).

## Model

| member | source | states |
|---|---|---|
| `Strings.IncludesIff` | App.tsx:39 | `s.includes(needle)` holds exactly when `needle` occurs at some index of `s` |
| `Strings.IncludesChar` | App.tsx:39 | searching for the one-character string `"@"` is the same as asking whether `'@'` is in the string |
| `Strings.ValidEmailIff` | App.tsx:39-42 | the validator accepts an email exactly when it contains `'@'`; the non-empty test rejects nothing more |
| `Strings.ConfiguredIff` | App.tsx:21 | the backend counts as configured exactly when the URL is non-empty and `YOUR_DEPLOYMENT_ID` occurs at no index of it |
| `Strings.ShippedUrlConfigured` | constants.ts:6 | the webhook URL shipped with the repository counts as configured, so the POST is attempted |
| `History.Take` | App.tsx:63 | `slice(0, n)` has length `min(|s|, n)` and is a prefix of `s` |
| `History.PushHistory` | App.tsx:63 | after an update the new record is at index 0, the length is `min(|old| + 1, 5)`, and the rest is the old list's first `min(|old|, 4)` entries in the same order |
| `History.PushHistoryMembers` | App.tsx:63 | a record is in the updated history exactly when it is the new one or one of the old list's first four |
| `History.PushAllNewestFirst` | App.tsx:63-64 | after one or more successive check-ins, the history is the check-ins newest first, then the starting list, cut to five |
| `History.EvictsOldest` | App.tsx:63 | after five or more check-ins, exactly the five newest remain, newest first, and none of the starting list |
| `History.PushAllBounded` | App.tsx:63 | the history never has more than five entries once a check-in has succeeded, whatever was loaded |
| `Gemini.WelcomeMessage` | services/geminiService.ts:6-20 | the message is never empty: a reply with text is passed through, an empty reply gives the first fallback sentence and a failed call gives the second |
| `CheckIn.App.constructor` | App.tsx:13-17 | the initial state: empty email, IDLE, empty history and message, no error; nothing posted, waiting or scheduled |
| `CheckIn.App.LoadSaved` | App.tsx:23-28 | runs once, at mount; a saved list that parses becomes the history unchanged; a missing key or a parse failure leaves the history as it was |
| `CheckIn.App.EditEmail` | App.tsx:158-161 | typing, possible only while the form is shown and enabled, sets the email field and nothing else |
| `CheckIn.App.Submit` | App.tsx:36-58 | the error message is cleared first. An invalid email sets the validation message and changes no status, history, storage, posts or waiting handlers. A valid one sets SUBMITTING and records a handler holding the record (the submitted email, the given timestamp and id) and the captured history. It POSTs that record exactly when the backend is configured |
| `CheckIn.App.Complete` | App.tsx:48-75 | a rejected POST to a configured webhook gives ERROR and the failure message, with history, storage, message and email unchanged. Otherwise the welcome message is shown and the history becomes the captured one with the record in front. A storage write that throws then gives ERROR with storage unchanged; one that does not gives SUCCESS, storage equal to the history, and an empty email. One reset timer is scheduled, and the handler leaves the waiting list. A record that reaches the history passed the email validator |
| `CheckIn.App.GoHome` | App.tsx:136-137 | the "home" button on the success panel sets IDLE |
| `CheckIn.App.ResetTimerFires` | App.tsx:69-74 | a scheduled reset timer sets IDLE whatever the status is by then, and is used up |
| `Scenarios.SubmittingCanComplete` | App.tsx:44-75 | whenever the page shows SUBMITTING, a handler is waiting, so completing it leaves SUBMITTING |
| `Scenarios.WebhookRejectionIsError` | App.tsx:48-75 | with the shipped URL, a rejected POST ends a valid check-in in ERROR with the failure message and an empty history |
| `Scenarios.GeneratorFailureStillSucceeds` | App.tsx:60-68 | a failed generation call still ends in SUCCESS, with the fallback sentence and the record as the history, and a page reloaded from the same storage shows the same history |
| `Scenarios.StaleTimerDropsCheckIn` | App.tsx:60-69 | a stale reset timer lets a second check-in start while the first is in flight, and the first one's record is then missing from the history although both succeeded |

## Left out

- Rendering: all JSX and icons, the setup panel and its `showSetup` flag, and copying the
  script with its `copied` flag (App.tsx:30-34, 78-280). They are presentation.
- Which handlers the browser can call: the model reads this from what is rendered and
  enabled. `Submit` and `EditEmail` need IDLE or ERROR, and `GoHome` needs SUCCESS. Nothing
  more of the rendering is modelled, including the browser's field validation below.
- CheckIn.App.Submit: the browser's own validation of the email field (`type="email"` and
  `required`, App.tsx:153-156, with no `noValidate` on the form) is not modelled. The browser
  stops an empty or malformed address before the form's submit event, so through the form
  the handler's reject branch (App.tsx:39-42) is never reached. `Submit` applies only the
  handler's own '@' test, so it admits more emails than the page can send, such as `"@"`.
- The transport of the webhook request: the `no-cors` mode, the headers and the JSON body. Only
  the fact that the request is issued, and how it settles, are modelled.
- The generation call: the model name, the prompt and the sampling parameters. It is a call
  into a foreign library, so its reply is an input.
- The clock: the locale-formatted timestamp and the `Date.now()` id are inputs. The 10000 ms
  and 3000 ms timer delays are not modelled, so any scheduled timer may fire at any point.
- JSON serialisation and the browser storage API. The storage key holds an abstract value:
  absent, a list, or text that does not parse. A saved empty string behaves like an absent
  key, and both leave the history alone. Text that parses to something other than a list is
  not modelled.
- CheckIn.App.LoadSaved: reading the storage key can itself throw (site data blocked). That
  read is outside the effect's `try`, so the effect throws and the page does not mount. The
  model has no such storage state and does not capture this crash.
- Console logging of errors.
- The Apps Script embedded in constants.ts: it runs on another platform and calls services
  that are not part of this repository. The other constants are display strings.
- The unused `ApiResponse` type in types.ts.
- Characters: Dafny strings are sequences of Unicode scalar values and JavaScript strings are
  UTF-16 code units. Both needles searched for (`"@"` and the placeholder) are ASCII, so the
  two agree on every search the page makes.
