# Income-update bot: the confirmation workflow

A Telegram bot lets a user change the income ("Pendapatan") field on the idMe
portal. It reads a free-text message, extracts the new income, drives a
browser to fill the form, sends a screenshot of the filled form with two
buttons ("Confirm Update" and "Cancel"), and waits for the user to press one.
While it waits, the browser stays open in the in-memory `pendingSessions` map
under the id of the `ProfileUpdate` document. A five-minute timer reclaims
the browser if nobody answers. Each confirmed commit and each cancellation
writes an `AuditLog` document.

This project models that workflow in Dafny:

- `models.dfy` (module `Models`) holds the two schemas: the six-value `status`
  enum, the required paths, and the defaults applied when a document is created.
- `payload.dfy` (module `CallbackPayload`) holds the button data
  `"<action>:<id>"`. It is built with a template string and read back with
  `split(":")`. The module proves the split/join round trip.
- `workflow.dfy` (module `Workflow`) holds the state: records,
  `pendingSessions`, the audit collection, and logs of the `closeBrowser` and
  `clickSimpan` calls. Each handler is one step function. The module also
  defines the invariant every handler keeps (`Inv`) and proves it.
- `bot.dfy` (module `TelegramBot`) holds class `Bot`, whose fields those
  handlers update in place. Each handler method is proved to make exactly its
  step and to keep the invariant; the branch methods it calls are proved to
  make exactly their part of the step.
- `properties.dfy` (module `WorkflowProperties`) holds what the code does and
  does not promise. It covers each handler's effect, the races between a button
  press and the timer, properties of every sequence of events, and the intended
  end-to-end journey.

The outside world comes in as parameters:

- the extractor's `{intent, new_income}`;
- the success or error of `fillIncomeForm`, of sending the preview photo, and of
  `clickSimpan`;
- the id the store gives a new document.

Each browser is launched by `fillIncomeForm` for exactly one new record, so the
model names a browser by that record (`Browser(launchedFor)`).

A workflow like this one would be expected to keep three rules:
- a request that reached SUCCESS, CANCELLED or FAILED stays there;
- an unanswered preview ends in a state of its own;
- each request gets one audit entry for its outcome.

The code keeps none of them, and the model follows the code:

- A timeout sets `CANCELLED`, the same status a user's cancel sets, and writes
  no audit entry.
- The confirm and cancel branches never look at the current status. A second
  confirm overwrites `SUCCESS` with `FAILED`. A confirm after the timeout
  overwrites `CANCELLED` with `FAILED`. A cancel after a success overwrites
  `SUCCESS` and writes a second audit entry.
- A commit that fails writes no audit entry.
- `CONFIRMED` is declared but never assigned.

What the model keeps, with each handler one atomic step: in every state the
model can reach, each browser is closed at most once and committed through at
most once, and each record has at most one SUCCESS audit entry.
`ReachableGuarantees` proves this for every sequence of events. The code keeps
it only as long as the timer does not run in the middle of a button handler
(see "## Left out").

A browser is not always closed, though. When the preview photo cannot be sent,
the `catch` of the text handler marks the record FAILED but never closes the
browser that `fillIncomeForm` returned, and nothing pinned it for the timer.
`PreviewBrowserNeverClosed` proves that no later event closes it.

## Model

| member | source | states |
|---|---|---|
| `Models.ParseStatus` | src/db/models.js:18-27 | the enum validator accepts a name exactly when it is the stored name of one of the six statuses, and returns that status |
| `Models.ParseStatusName` | src/db/models.js:18-27 | every status survives being stored by name and validated again |
| `Models.CreateProfileUpdate` | src/db/models.js:6-38 | creation succeeds iff `telegramUserId`, `telegramChatId` and `newIncome` are present and any given status is an enum name; the error lists exactly the offending paths and nothing else; status defaults to PENDING; `previousIncome`, `actualIncome`, `screenshotBase64`, `errorMessage` and `confirmationMsgId` default to null |
| `Models.CreateAuditLog` | src/db/models.js:49-63 | creation succeeds iff `profileUpdateId` and `telegramUserId` are present; the error lists exactly the missing ones and nothing else; `field` defaults to "Pendapatan"; the other paths are stored as given |
| `CallbackPayload.Occurrences` | src/bot/telegramBot.js:145 | a character occurs zero times exactly when it is absent |
| `CallbackPayload.Split` | src/bot/telegramBot.js:145 | `split` yields one piece more than there are separators; no piece contains the separator; the first piece is a prefix of the input |
| `CallbackPayload.JoinSplit` | src/bot/telegramBot.js:145 | joining the pieces of a split gives back the input |
| `CallbackPayload.SplitWithoutSeparator` | src/bot/telegramBot.js:145 | a string without ':' splits into itself alone |
| `CallbackPayload.SplitAfterPrefix` | src/bot/telegramBot.js:145 | a separator-free prefix followed by ':' becomes a piece of its own |
| `CallbackPayload.SplitJoin` | src/bot/telegramBot.js:145 | splitting a join of separator-free pieces gives back the pieces |
| `CallbackPayload.ButtonData` | src/bot/telegramBot.js:100-101 | the button data is the join of the action and the id with ':' |
| `CallbackPayload.JoinFirstTwo` | src/bot/telegramBot.js:145 | a join of two or more pieces starts with the first piece, ':', the second piece, followed by the end or by ':' |
| `CallbackPayload.ParseCallback` | src/bot/telegramBot.js:144-145 | a record id is bound iff the data contains ':'; the action is the text before the first ':' (the whole data when there is none); the record id is the text after that ':' up to the next ':' or the end |
| `CallbackPayload.ParseButtonData` | src/bot/telegramBot.js:145 | parsing `"<action>:<id>"` gives back the action and the id when neither contains ':' |
| `CallbackPayload.ObjectIdHasNoSeparator` | src/bot/telegramBot.js:100-101 | a document id never contains ':' |
| `Workflow.AuditEntry` | src/bot/telegramBot.js:171-178 | the entry the bot writes is what `AuditLog.create` accepts for the record's id, user, previous income, given after-value and status name |
| `Workflow.PrepareAfterInsert` | src/bot/telegramBot.js:72-95 | preparing overwrites the freshly inserted record, so inserting first and then preparing is the same step |
| `Workflow.InitialInv` | src/bot/telegramBot.js:17 | the empty store and empty `pendingSessions` satisfy the workflow invariant |
| `Workflow.OnTextInv` | src/bot/telegramBot.js:54-138 | the text handler keeps the invariant |
| `Workflow.OnTimeoutInv` | src/bot/telegramBot.js:120-130 | the timer keeps the invariant |
| `Workflow.OnCallbackInv` | src/bot/telegramBot.js:143-218 | the callback handler keeps the invariant: a pinned record is SCREENSHOT_SENT and holds its own unclosed, uncommitted browser; no browser is closed or committed twice; every SUCCESS audit entry is the only one for its record and follows a commit |
| `Workflow.StepInv` | src/bot/telegramBot.js:54-218 | every handler keeps the invariant |
| `TelegramBot.Bot.constructor` | src/bot/telegramBot.js:17 | the bot starts with no records, no pinned sessions, no audit entries, and no browser closed or committed |
| `TelegramBot.Bot.ReleaseSession` | src/bot/telegramBot.js:192-193 | the id is removed from `pendingSessions` and the browser pinned under it is closed, once |
| `TelegramBot.Bot.HandleText` | src/bot/telegramBot.js:54-138 | the in-place handler makes exactly the text step and keeps the invariant |
| `TelegramBot.Bot.PrepareRecord` | src/bot/telegramBot.js:84-137 | the in-place `try`/`catch` of the text handler makes exactly the preparation step on the inserted record |
| `TelegramBot.Bot.HandleTimeout` | src/bot/telegramBot.js:120-130 | the in-place timer callback makes exactly the timeout step and keeps the invariant |
| `TelegramBot.Bot.HandleCallback` | src/bot/telegramBot.js:143-218 | the in-place callback handler makes exactly the callback step and keeps the invariant |
| `TelegramBot.Bot.ConfirmUpdate` | src/bot/telegramBot.js:152-194 | the in-place confirm branch makes exactly the confirm step: expired, committed, or failed commit, then the release in `finally` |
| `TelegramBot.Bot.CancelUpdate` | src/bot/telegramBot.js:195-217 | the in-place cancel branch makes exactly the cancel step: CANCELLED, one audit entry, release if pinned |
| `WorkflowProperties.NotAnIncomeUpdate` | src/bot/telegramBot.js:63-69 | an intent other than "update_income", or a null value, leaves the state unchanged: no record, no pinned session |
| `WorkflowProperties.CreatedRecordIsPending` | src/bot/telegramBot.js:72-77 | the inserted record is PENDING, belongs to the requesting user and chat, and carries the extracted income; previous and actual income and error are null |
| `WorkflowProperties.PrepareFailed` | src/bot/telegramBot.js:131-134 | when filling the form throws, the new record is FAILED with the error's message and otherwise as created; no other record changes, and `pendingSessions`, the audit collection and the browser logs are unchanged |
| `WorkflowProperties.PrepareSucceeded` | src/bot/telegramBot.js:92-117 | when the preview is filled and delivered, the new record is SCREENSHOT_SENT with the previous income, screenshot and message id stored; no other record changes, its browser is pinned under its id, and nothing is audited, closed or committed |
| `WorkflowProperties.PreviewNotDelivered` | src/bot/telegramBot.js:103-134 | when sending the preview throws, the new record is FAILED with that message and keeps the previous income and screenshot; no other record changes, `pendingSessions`, the audit collection and the browser logs are unchanged, and its browser is neither pinned nor closed |
| `WorkflowProperties.StepKeepsLeaked` | src/bot/telegramBot.js:117-130 | no event closes or pins the browser of an existing record that is neither pinned nor closed: only pinned browsers are ever closed, and only a new record's browser is pinned |
| `WorkflowProperties.RunKeepsLeaked` | src/bot/telegramBot.js:54-218 | such a browser stays unclosed along any sequence of events |
| `WorkflowProperties.PreviewBrowserNeverClosed` | src/bot/telegramBot.js:103-137 | the browser of a preview that could not be sent is never closed, whatever events follow |
| `WorkflowProperties.TimeoutNeverAudits` | src/bot/telegramBot.js:120-130 | the timer never writes an audit entry and never commits |
| `WorkflowProperties.TimeoutWithoutSession` | src/bot/telegramBot.js:121 | a timer for an id no longer pinned changes nothing |
| `WorkflowProperties.TimeoutWithSession` | src/bot/telegramBot.js:121-128 | a timer for a pinned id unpins it, closes its (not yet closed) browser, and sets CANCELLED with the timeout message: a pinned record is always still SCREENSHOT_SENT |
| `WorkflowProperties.PreviewButtons` | src/bot/telegramBot.js:100-101 | the data of both preview buttons parse back to their action and the record's id |
| `WorkflowProperties.UnknownRecordIgnored` | src/bot/telegramBot.js:147-148 | data naming no existing record changes nothing |
| `WorkflowProperties.UnknownActionIgnored` | src/bot/telegramBot.js:152-217 | an action other than confirm or cancel changes nothing |
| `WorkflowProperties.ConfirmWithoutSession` | src/bot/telegramBot.js:155-162 | confirm with nothing pinned sets FAILED with "Browser session expired.", whatever the status was, and commits, closes and audits nothing |
| `WorkflowProperties.ConfirmCommitted` | src/bot/telegramBot.js:164-194 | a successful commit sets SUCCESS with `actualIncome = newIncome`, appends exactly one audit entry (before = previous income, after = new income, status SUCCESS), and unpins, commits through and closes the record's browser once |
| `WorkflowProperties.ConfirmCommitFailed` | src/bot/telegramBot.js:186-194 | a failed commit sets FAILED with the error's message, audits nothing, and still unpins and closes the browser once |
| `WorkflowProperties.CancelRecord` | src/bot/telegramBot.js:195-217 | cancel sets CANCELLED whatever the status was, appends one audit entry with a null after-value and status CANCELLED, and releases the browser only if one is pinned |
| `WorkflowProperties.ConfirmThenTimeout` | src/bot/telegramBot.js:120-130 | a timer after a confirmation is a no-op: the browser is closed exactly once |
| `WorkflowProperties.TimeoutThenConfirm` | src/bot/telegramBot.js:155-162 | a confirmation after the timer commits, closes and audits nothing more, but turns the timer's CANCELLED into FAILED |
| `WorkflowProperties.DoubleConfirm` | src/bot/telegramBot.js:150-194 | two confirms commit once, close once and audit once, but the second overwrites SUCCESS with FAILED while the applied income stays |
| `WorkflowProperties.CancelAfterSuccess` | src/bot/telegramBot.js:195-209 | cancel after a success sets CANCELLED although the income was applied, and adds a CANCELLED audit entry after the SUCCESS one; nothing more is closed |
| `WorkflowProperties.CancelTwice` | src/bot/telegramBot.js:198-209 | each cancel press appends another audit entry for the same record |
| `WorkflowProperties.RunInv` | src/bot/telegramBot.js:54-218 | any sequence of handled events keeps the invariant |
| `WorkflowProperties.ReachableInv` | src/bot/telegramBot.js:17 | every state reachable from the empty start satisfies the invariant |
| `WorkflowProperties.ReachableGuarantees` | src/bot/telegramBot.js:54-218 | in every reachable state no record is PENDING or CONFIRMED, no browser is closed or committed twice, every commit is followed by a close, and each record has at most one SUCCESS audit entry, written after a commit |
| `WorkflowProperties.OnTextExtends` | src/bot/telegramBot.js:54-138 | the text handler adds at most the record under the fresh id, leaves every existing record exactly as it was, and leaves the audit collection and the browser logs unchanged |
| `WorkflowProperties.OnTimeoutExtends` | src/bot/telegramBot.js:120-130 | the timer removes no record and changes no request; the logs only grow at the end |
| `WorkflowProperties.ConfirmExtends` | src/bot/telegramBot.js:152-194 | confirm removes no record and changes no request; the logs only grow at the end |
| `WorkflowProperties.CancelExtends` | src/bot/telegramBot.js:195-217 | cancel removes no record and changes no request; the logs only grow at the end |
| `WorkflowProperties.OnCallbackExtends` | src/bot/telegramBot.js:143-218 | the callback handler removes no record and changes no request; the logs only grow at the end |
| `WorkflowProperties.StepExtends` | src/bot/telegramBot.js:54-218 | no handler removes a record or changes its user, chat or requested income, and the audit collection and browser logs only grow at the end |
| `WorkflowProperties.RunExtends` | src/bot/telegramBot.js:54-218 | along any sequence of events the audit collection is append-only and requests are immutable |
| `WorkflowProperties.JourneyPrepared` | src/bot/telegramBot.js:72-117 | after "set my income to 8000" with 5000 on the form, the record awaits confirmation with its browser pinned and nothing audited |
| `WorkflowProperties.IncomeUpdateJourney` | src/bot/telegramBot.js:164-185 | then a confirmed, committed update ends SUCCESS with 8000 applied, the audit collection holds exactly one entry from 5000 to 8000, and the browser was committed through and closed once |

## Left out

- Intent extraction (an OpenAI call plus `JSON.parse`): its `{intent, new_income}` is a parameter.
- Browser automation (`fillIncomeForm`, `clickSimpan`, `closeBrowser` in src/services/playwrightDriver.js): foreign Playwright calls. Filling and committing appear only as success or error parameters, and closing only as an entry in the `closed` log. The locator fallbacks there always pick the first locator, and no fallback order is modelled.
- Cookie lookup in src/services/supabaseSession.js (a database query): its failure is one of the errors `fillIncomeForm` may throw.
- The browser extension, configuration, process start-up and the Mongo connection: I/O only.
- Real asynchrony: `setTimeout` and the interleavings between `await`s. The timer is an explicit event, and each handler is one atomic step.
- The timer firing during a button handler is not modelled. The confirm branch holds the session from `pendingSessions.get` (src/bot/telegramBot.js:150) until its `finally` (192-193), across awaits that include the commit's three-second wait. The cancel branch holds it until 214-215. If the timer fires in that gap, it unpins and closes the browser and saves CANCELLED from its stale copy of the record. A commit may then be attempted through a browser already closed, and the `finally` or the cancel branch calls `closeBrowser` on it a second time; the driver swallows that second call's error. The at-most-once guarantees above hold only for the atomic model.
- The five-minute delay itself: time is not modelled, and a timer event may come at any point.
- The timer callback reads the in-memory copy of the record it captured. The model reads the stored record instead. These agree: the invariant shows a record whose browser is still pinned has not been touched since it was pinned.
- Telegram rendering and replies (`reply`, `answerCallbackQuery`, `editMessageCaption`, captions, keyboards) are not modelled. Only the outcome of sending the preview photo is modelled.
- The text handler's reply at src/bot/telegramBot.js:79 is assumed to succeed. It runs after the record is created and outside the `try`. If it throws, the handler stops, no browser is launched, and the record stays PENDING for good. The claim of `ReachableGuarantees` that no record is PENDING holds only for the model, where this reply never fails.
- `INITIAL` is an empty store with no pinned sessions. A bot restarted over an existing collection can start with records in any status, including PENDING and SCREENSHOT_SENT records whose browsers are gone. The guarantees of every reachable state are stated from the empty store only.
- A Telegram call that throws inside the callback handler is assumed to succeed. In the source, such a throw stops the handler early. If the success caption fails, the `catch` sets FAILED after the SUCCESS audit entry has been written.
- Persistence failures (`save` or `create` throwing) are not modelled. Timestamps (`createdAt`, `updatedAt`) are clock reads and are left out.
- The `/start` and `/status` commands: a greeting and a read-only query of the latest record.
- Document ids are taken as 24 lower-case hex digits, and a record is looked up by its exact id string. The store's casting of other spellings of an id is not modelled.
- Models.CreateProfileUpdate: an explicit `status: null` is not modelled. The store keeps the null rather than the PENDING default, while `None` here means the path was left out. The bot always passes a status (src/bot/telegramBot.js:76).
- Models.CreateAuditLog: an explicit `field: null` is not modelled. The store keeps the null rather than "Pendapatan", while `None` here means the path was left out. The bot always passes the field (src/bot/telegramBot.js:174, 205).
- Incomes are integers: the source's JavaScript numbers (possibly fractional) and the store's casting of them are not modelled.
- Properties about the callback handler are stated for any button data that parses to the action and record id. `PreviewButtons` shows that the data the preview buttons carry is such data.
