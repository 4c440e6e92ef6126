# Chat backend core: admission, token estimate, user upsert, theme controls

This project models the core of a chat application built on Convex with the agent and
rate-limiter components, and proves properties of that model in Dafny.

- `wrappers.dfy`: `Option`/`Result` for `undefined`/`null` and thrown errors, and JavaScript truthiness of an optional string.
- `users.dfy`: the `users` table as a class. It holds the documents by id, the `by_workosId` index and a ghost log of writes. `store` upserts on the WorkOS id and patches only differing fields. `get` is a lookup or an error, and `getAuthUserId` is `get` reduced to the id.
- `rate_limiter.dfy`: the four limiter configurations and `estimateTokens`. The fetched context messages are an input sequence, and the reverse-then-find selection is proved equal to "the last message with a usage record".
- `threads.dfy`: `authorizeThreadAccess`, `getLatestThread`, the title guard of `generateThreadTitle`, and a class holding the server state:
  - thread metadata;
  - recorded limiter consumptions;
  - a ghost trace of limiter calls;
  - saved prompts;
  - scheduled `streamAsync` runs;
  - deletion requests.

  `initiateAsyncStreaming`, `renameThread`, `deleteThread` and `generateThreadTitle` are methods on this class.
- `theme_toggle.dfy`: the toggle's text/icon switch, the system → light → dark cycle, and the next-themes state it updates.
- `theme_indicator.dfy`: the `resolvedTheme || theme` and `displayTheme` resolution and the indicator's text/icon.

The rate limiters are an oracle, `allows: LimiterCall -> bool`:
- A call with `throws: true` either passes or throws.
- A `limit` that passes records one consumption. A `check` records none, even with `reserve: true`.

The caller's identity, the fetched context messages, the thread page and the model-generated title are parameters. So is whether the context fetch, the prompt save and the stream schedule throw.

The two send gates are `limit` calls without `reserve`. The two token gates are `check`
calls with `reserve: true`, so admission never consumes token budget. The comment at
convex/threads.ts:87 says usage is tracked after generation finishes. None of the modelled
files does so:
- the agent at convex/agents.ts:6-11 sets no usage handler;
- convex/threads.ts:84-98 holds the only limiter calls.

The model proves that `consumed` only ever holds send-limiter calls.

## Model

| member | source | states |
|---|---|---|
| Users.Profile | convex/users.ts:51-57 | the record written for an identity keeps its id as `workosId` and its parsed `emailVerified` |
| Users.Patched | convex/users.ts:65-84 | after the patches no field differs from the identity and `workosId` is untouched |
| Users.PatchWrites | convex/users.ts:67-84 | one patch write per differing field, in the order of the fields |
| Users.NameChanges | convex/users.ts:66-74 | the name tests patch name, first name and last name in that order, each at most once |
| Users.ContactChanges | convex/users.ts:75-83 | the contact tests patch email, email verification and picture in that order, each at most once |
| Users.ChangedFields | convex/users.ts:66-83 | the six guards list each field at most once, in the order they are tested, so at most six patches; a differing name is always the first patch |
| Users.ChangedFieldsAreDiffering | convex/users.ts:67-84 | a field is patched exactly when its stored value differs, at most six patches |
| Users.PatchedIsProfile | convex/users.ts:60-84 | patching the record found by WorkOS id yields exactly the identity's record |
| Users.NoPatchIffUpToDate | convex/users.ts:65-86 | no patch is issued exactly when the stored record already equals the identity's |
| Users.UsersTable.Get | convex/users.ts:15-40 | throws when unauthenticated or not stored; succeeds exactly when the identity is authenticated and its WorkOS id is indexed, returning the stored id with the identity's own name, email and picture |
| Users.UsersTable.AuthUserId | convex/utils.ts:9-11 | succeeds exactly when the identity's WorkOS id is indexed, and names a user stored under that id |
| Users.UsersTable.PatchStored | convex/users.ts:65-85 | the stored user becomes the patched record and the log gains exactly its field patches |
| Users.UsersTable.Store | convex/users.ts:42-98 | no identity or unparsable `email_verified` throws and writes nothing. An existing user keeps its id, gets exactly the differing fields patched and no insert. A new identity gets one inserted record and a fresh id. Afterwards the record equals the identity, `get` finds it, the index stays exact and no other user changes |
| Users.StoreTwice | convex/users.ts:42-98 | a second `store` of the same identity returns the same id and issues no write: a failed pair writes nothing, and a successful pair leaves exactly the rows and writes of the first call (the identity's record, and either its differing-field patches or one insert) |
| RateLimiter.Config | convex/rateLimiter.ts:8-33 | every limiter has `0 < rate <= capacity`; only `sendMessage` is a fixed window, with rate = capacity = 1 over 5 s; the global limiters are token buckets over a minute; prompt limiters hold at most 15, token limiters at least 10000 |
| RateLimiter.PerUserAgainstGlobal | convex/rateLimiter.ts:8-33 | per-user token rate and capacity are within the global ones, while the per-user send rate (12 a minute) exceeds the global refill (11 a minute) |
| RateLimiter.Reversed | convex/rateLimiter.ts:57-58 | position i of the reversal holds position n-1-i |
| RateLimiter.FindWithUsage | convex/rateLimiter.ts:59 | returns the first message with a usage record, and none exactly when no message has one |
| RateLimiter.LastUsageIndex | convex/rateLimiter.ts:57-59 | reference definition: the last position holding a usage record, none exactly when there is none |
| RateLimiter.ReverseFindSelectsLast | convex/rateLimiter.ts:57-59 | reverse-then-find selects the last message with a usage record in fetched order |
| RateLimiter.LastTotalTokens | convex/rateLimiter.ts:60 | the total of the last usage record, or 1 when there is none |
| RateLimiter.EstimateTokens | convex/rateLimiter.ts:37-62 | the estimate equals last total + prompt length + 1 |
| RateLimiter.EstimateWithoutUsage | convex/rateLimiter.ts:57-61 | with no usage record, the estimate is the prompt length + 2 |
| RateLimiter.EstimateLowerBound | convex/rateLimiter.ts:43-61 | with non-negative totals, the estimate is at least length + 1, so at least 1 |
| RateLimiter.EstimateMonotone | convex/rateLimiter.ts:43-45 | over the same history, a longer prompt never gets a smaller estimate |
| Threads.AuthorizeThreadAccess | convex/threads.ts:27-36 | access succeeds exactly when the caller is authenticated, the thread exists and its owner is the caller; an authentication error propagates |
| Threads.LatestThread | convex/threads.ts:60-73 | `page[0]` of the caller's page, null exactly when the page is empty; an authentication error propagates |
| Threads.ShouldGenerateTitle | convex/threads.ts:176 | an unchecked run always generates; a checked run generates exactly when the current title is missing or empty |
| Threads.TitleAfter | convex/threads.ts:170-194 | the generated title is written unless the title is checked and already non-empty, in which case it is kept |
| Threads.CheckedTitleGenerationSettles | convex/threads.ts:176 | a checked run keeps a non-empty title, so a second checked run after a non-empty one changes nothing |
| Threads.UncheckedTitleGenerationOverwrites | convex/threads.ts:176 | an unchecked run always writes the generated title |
| Threads.SendGates | convex/threads.ts:84-85 | `sendMessage` keyed on the caller, then `globalSendMessage` on the global key, both `limit` of one prompt without reservation |
| Threads.TokenGates | convex/threads.ts:88-98 | `tokenUsage` keyed on the caller, then `globalTokenUsage` on the global key, both `check` of the estimate with reservation |
| Threads.AdmissionGates | convex/threads.ts:84-98 | four calls in order, the send gates first: the two send limiters are `limit` with count 1 and no reserve; the two token limiters are `check` with the estimate and reserve; per-user ones are keyed on the caller |
| Threads.AttemptedGates | convex/threads.ts:84-98 | the gates an admission reaches are a prefix of the four: only the two send gates when fetching the context messages throws, all four otherwise |
| Threads.PassedGates | convex/threads.ts:83-109 | the gates before the first throwing one all passed, and the next one threw |
| Threads.Consumptions | convex/threads.ts:84-98 | exactly the `limit` calls among the calls record a consumption |
| Threads.AdmissionNeverConsumesTokens | convex/threads.ts:84-98 | every consumption admission records is a passed send-limiter `limit` call, never token budget, whether or not the estimate's fetch throws |
| Threads.ConsumptionsSnoc | convex/threads.ts:84-98 | one more call adds exactly its own consumption |
| Threads.GatePrefixConsumptions | convex/threads.ts:84-98 | the first i gates consume exactly the send gates among them |
| Threads.ConsumedSendGates | convex/threads.ts:83-109 | consumptions of passed send gates remain when a later step throws: with k gates passed, the first min(k, 2) are consumed |
| Threads.ThreadsBackend.Gate | convex/threads.ts:84-98 | one limiter call is traced; it passes as the oracle says, and a passing `limit` records itself |
| Threads.ThreadsBackend.RunAdmissionGates | convex/threads.ts:84-98 | gates run in order until one throws, and no later gate runs. A throwing context fetch stops them after the send gates. The trace and the consumptions are those of the gates reached |
| Threads.ThreadsBackend.InitiateAsyncStreaming | convex/threads.ts:76-111 | an authorization failure throws before any limiter call, save or schedule. Any throw inside the `try` (a gate, the context fetch, the save or the schedule) returns normally and keeps what earlier steps did. That includes earlier consumptions, and a saved prompt left unscheduled when only the schedule throws. When nothing throws, exactly one prompt is saved for the thread and one `streamAsync` is scheduled with delay 0 and that message's id. Every scheduled run names a saved prompt of its thread |
| Threads.ThreadsBackend.SaveAndSchedule | convex/threads.ts:99-108 | saves exactly one prompt message for the thread; unless scheduling throws, schedules one `streamAsync` with delay 0 and that message's id; every scheduled run still names a saved prompt of its thread |
| Threads.ThreadsBackend.RenameThread | convex/threads.ts:151-160 | the title is written only when access is authorized; otherwise nothing changes |
| Threads.ThreadsBackend.DeleteThread | convex/threads.ts:162-168 | deletion is requested only when access is authorized |
| Threads.ThreadsBackend.GenerateThreadTitle | convex/threads.ts:170-194 | after authorization, the metadata title becomes `TitleAfter`, written only when the guard allows |
| ThemeToggle.NextTheme | components/ThemeToggle.tsx:42-50 | system goes to light, light to dark, anything else (dark, undefined, other strings) to system; the result is always one of the three |
| ThemeToggle.ThemeText | components/ThemeToggle.tsx:31-40 | "Light" exactly for light, "Dark" exactly for dark, "System" otherwise |
| ThemeToggle.ThemeIcon | components/ThemeToggle.tsx:20-29 | sun exactly for light, moon exactly for dark, desktop otherwise |
| ThemeToggle.IconMatchesText | components/ThemeToggle.tsx:20-40 | the icon and the text make the same three-way split |
| ThemeToggle.ThreeTogglesCycle | components/ThemeToggle.tsx:42-50 | three toggles from system, light or dark return to it |
| ThemeToggle.LeavesNoStrayTheme | components/ThemeToggle.tsx:42-50 | a theme outside the cycle joins it at system after one toggle |
| ThemeToggle.ThemeStore.Label | components/ThemeToggle.tsx:31-40 | the label is always Light, Dark or System |
| ThemeToggle.ThemeStore.Toggle | components/ThemeToggle.tsx:42-50 | a click sets the theme to the next in the cycle |
| ThemeToggle.ToggleThrice | components/ThemeToggle.tsx:42-50 | three clicks from a theme of the cycle restore the theme and its label |
| ThemeIndicator.CurrentTheme | components/ThemeIndicator.tsx:22 | the resolved theme when it is truthy, otherwise the chosen theme |
| ThemeIndicator.DisplayTheme | components/ThemeIndicator.tsx:23 | the system theme when the current theme is "system", otherwise the current theme |
| ThemeIndicator.Shown | components/ThemeIndicator.tsx:22-23 | a truthy resolved theme other than "system" is shown; without one the chosen theme is shown unless it is "system"; a surviving "system" is replaced by the operating system's theme |
| ThemeIndicator.IndicatorText | components/ThemeIndicator.tsx:36-45 | "Light" or "Dark" exactly when the displayed theme is light or dark, "System" otherwise |
| ThemeIndicator.IndicatorIcon | components/ThemeIndicator.tsx:25-34 | sun exactly for a displayed light, moon exactly for a displayed dark |
| ThemeIndicator.IndicatorIconMatchesText | components/ThemeIndicator.tsx:25-45 | the indicator's icon and text make the same split |
| ThemeIndicator.ResolvedThemeDecides | components/ThemeIndicator.tsx:22-23 | a truthy resolved theme other than "system" decides the text, whatever the choice |
| ThemeIndicator.UnresolvedSystemShowsSystemTheme | components/ThemeIndicator.tsx:22-23 | with no resolved theme and "system" chosen, the text is the operating system's |
| ThemeIndicator.IndicatorAndToggleDiffer | components/ThemeIndicator.tsx:22-45 | with "system" chosen and resolved to light or dark, the toggle says System while the indicator shows the resolved appearance, whatever the operating system reports |
| ThemeIndicator.UnknownThemeShowsSystem | components/ThemeIndicator.tsx:22-45 | with nothing resolved and no theme, the indicator shows System with the desktop icon |

## Left out

- Rate-limiter engine: refill, window reset and reservation debt live in `@convex-dev/rate-limiter`, which is not part of this model. Each call's verdict is the oracle `allows`, and no refill arithmetic is modelled.
- Threads.ThreadsBackend.InitiateAsyncStreaming: a throw from the context fetch, the save or the schedule is one flag each. Which error is thrown is not modelled, because the `catch` discards it.
- Agent library calls are not part of this model:
  - `streamAsync`, `streamText`, `consumeStream`, `syncStreams`, `listMessages`, `createThread`, `continueThread`, `generateObject` and the Gemini agent set-up;
  - `saveMessage` is modelled only as appending the prompt, with its position as message id;
  - `fetchContextMessages` is the input `fetched`;
  - `deleteThreadAsync` is an appended deletion request.
- Threads.AuthorizeThreadAccess: a missing thread is the error `ThreadNotFound`. The library's `getThreadMetadata` behaviour for it is not visible.
- `createNewThread`, `listThreads` and `listThreadMessages` are not modelled. They are pass-throughs to the agent library, and the last of them only adds the authorization modelled above.
- RateLimiter.EstimateTokens: computes in exact reals. JavaScript's float `length / 4` is exact for integer lengths. `prompt.length` counts UTF-16 code units, here the characters of the string.
- Users.Store: `JSON.parse(String(email_verified))` is a parsed boolean or a failure. The parser itself and non-boolean JSON results are folded into `EmailVerifiedNotBoolean`.
- Each mutation is one sequential step. Convex transactions, concurrent admissions and the scheduler's delivery are not modelled.
- The rendering of the components and their mount placeholder, `ThemeProvider`, the pages, the legacy `convex/messages.ts` and `lib/useThread.ts` are not part of this model.
