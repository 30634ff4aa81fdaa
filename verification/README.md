# Mood logger client — a Dafny model

This project models the client-side logic of a mood-tracking web application. Users sign in, log daily mood, energy, sleep and activity entries, see charts and a daily quote, and chat with a scripted wellness assistant.

The model covers the following parts:

- **Session store.** The auth token and the user profile are kept under two fixed keys of local storage. A demo-mode switch overrides every read.
- **API facade.** A generic request primitive turns every outcome of an HTTP exchange into a `{ success, data?, message? }` envelope. In demo mode each operation answers from static fixtures instead.
- **Demo fixtures.** A fixed profile, three mood entries and one quote.
- **Page and component logic.** The dashboard's rounded average and trend, the mood form's schema, emoji and submit handler, and the mood list's colour bands and five-entry window. Also the chart mapping and tooltip guard, the chat transcript, the route guards, the login and register handlers, and the daily-quote view.

Style of the model:

- Storage is a `map<string, string>`.
- The demo switch is a `demo: bool` parameter, so both branches are verified. The shipped constant `Demo.IsDemoMode` is `true`.
- Each asynchronous handler is one pure step from a state and a settled outcome to a new state. The outcome is `Settled`: the handler's `try` block either gets an envelope from the facade, or something inside it throws and the `catch` runs. The facade itself never rejects, so `Rejected` stands for a throw elsewhere in the block. A throwing storage write on the login and register pages is modelled separately, as an `AuthPages.WriteFault`.
- The fetch inside the request primitive is an abstract `Api.FetchOutcome`: a 2xx body, a 2xx `null` body (`OkEmpty`), a non-2xx body with an optional `message`, or a thrown `Error` or non-`Error` value.
- Mood and energy are `int`, because the sliders use step 1. Sleep is `real`, because its slider step is 0.5. Timestamps are milliseconds since the epoch.
- `Math.round(s / n)` is `(2s + n) / (2n)`. Dafny's division rounds down for a positive divisor, so this is `floor(s/n + 1/2)` for every integer `s`.
- **Stored profile text.** `JSON.stringify`/`JSON.parse` of the stored profile is modelled by `UserJson`.
  - The program builds profiles as `{ id, name, email }` (src/lib/api.ts:45, :61), and `JSON.stringify` keeps that key order. The stored text is therefore `{"id":"…","name":"…","email":"…"}`.
  - Inside each string, the quote, the backslash and the control characters below U+0020 are escaped as `JSON.stringify` escapes them.
  - Encoding and decoding are proved mutually inverse.

Modules: `Types`, `UserJson`, `Demo`, `Session` (auth.ts), `Api` (api.ts), `Dashboard` (Index.tsx), `MoodForm`, `MoodList`, `MoodChart`, `Chatbot`, `Routes` (App.tsx), `AuthPages` (Login.tsx and Register.tsx) and `DailyQuote`.

Behaviour worth knowing about the code:

- **Authentication.** A stored empty token is not authenticated, because `isAuthenticated` uses `!!getAuthToken()` (src/lib/auth.ts:33).
- **Demo login.** Demo login returns the fixed name `Demo User` with the submitted email (src/lib/api.ts:45). Only demo register echoes the submitted name into storage (src/lib/api.ts:61). The dashboard never shows it, since the profile reader also returns the demo user in demo mode (src/lib/auth.ts:26).
- **Demo create.** A demo create carries the clock reading passed in as its creation time.
- **Empty 2xx body.** A 2xx response whose body is `null` becomes `{ success: true, data: null }` (src/lib/api.ts:22, :28).
  - The login, register, dashboard, list, chart, quote and chat handlers all test `response.success && response.data`, so they treat it as a failure.
  - The mood form tests only `response.success`, so it treats it as logged.
- **Route matching.** Routes are matched the way react-router matches them: letter case is ignored, and so are trailing slashes. `/Login` is the login page, and `/chatbot/` is the guarded chat page.

## Model

| member | source | states |
|---|---|---|
| Session.SetAuthToken | src/lib/auth.ts:7-9 | writes the token under its key and leaves every other storage key as it was |
| Session.GetAuthToken | src/lib/auth.ts:11-14 | in demo mode always `demo-token`; otherwise the stored token, absent exactly when the key is absent |
| Session.RemoveAuthToken | src/lib/auth.ts:16-19 | logout removes both the token and the user key and nothing else |
| Session.SetUser | src/lib/auth.ts:21-23 | stores the serialised profile under the user key only |
| Session.GetUser | src/lib/auth.ts:25-29 | in demo mode always the demo user; otherwise no user when the key is missing or its text is empty |
| Session.IsAuthenticated | src/lib/auth.ts:31-34 | always true in demo mode; otherwise true exactly when a token is stored and it is non-empty |
| Session.GetAuthHeaders | src/lib/auth.ts:36-39 | the header map never holds anything but an `Authorization` entry |
| Session.DemoIdentity | src/lib/auth.ts:12 | in demo mode: token `demo-token`, the demo user, authenticated, and `Bearer demo-token` headers, whatever storage holds |
| Session.TokenRoundTrip | src/lib/auth.ts:7-14 | outside demo mode, reading the token after writing `t` gives `t` |
| Session.UserRoundTrip | src/lib/auth.ts:21-29 | outside demo mode, reading the user after writing `u` gives `u` (serialisation round trip included) |
| Session.WritesDoNotInterfere | src/lib/auth.ts:7-23 | writing the token does not change the user read back, and writing the user does not change the token |
| Session.LogoutClearsSession | src/lib/auth.ts:16-39 | after logout, outside demo mode: no token, no user, not authenticated, empty headers |
| Session.AuthenticatedIff | src/lib/auth.ts:31-34 | outside demo mode, authenticated iff a token is stored and it is non-empty |
| Session.HeadersIff | src/lib/auth.ts:36-39 | a bearer header of exactly `Bearer <token>` is present iff the session is authenticated, otherwise the map is empty |
| UserJson.Encode | src/lib/auth.ts:22 | the stored text opens with `{"id":"` and closes with `}` |
| UserJson.EscapePrintable | src/lib/auth.ts:22 | no control character below U+0020 is stored unescaped |
| UserJson.DecodeEncode | src/lib/auth.ts:21-29 | parsing the stored text of a profile gives back that profile |
| UserJson.EncodeDecode | src/lib/auth.ts:25-29 | the only text that parses to a profile is that profile's own stored text, so encoding and decoding are inverse bijections |
| UserJson.EncodeInjective | src/lib/auth.ts:22 | distinct profiles are stored as distinct text |
| UserJson.EncodeNonEmpty | src/lib/auth.ts:27-28 | stored profile text is never empty, so reading it always takes the parse branch |
| UserJson.ReadEscaped | src/lib/auth.ts:28 | reading an escaped string literal recovers the original text and leaves what follows the closing quote |
| Api.Request | src/lib/api.ts:8-35 | every outcome, thrown ones included, becomes a well-formed envelope; success iff the response was OK; data present iff that body was not `null`, and then it is the body; a non-OK body gives its message or `API request failed`; an `Error` gives its message; any other thrown value gives `Unknown error occurred` |
| Api.RequestFailureMessage | src/lib/api.ts:24-25 | a non-OK response always reports a non-empty message, and the default text appears only when the server gave none (or gave that very text) |
| Api.EndpointInjective | src/lib/api.ts:49-131 | no two operations share both HTTP method and path |
| Api.LiveCallHeaders | src/lib/api.ts:13-17 | every live call sends `Content-Type: application/json`, and `Authorization: Bearer <token>` exactly when the session is authenticated |
| Api.Login | src/lib/api.ts:39-53 | demo login always succeeds with token `demo-token`, id `demo-user`, name `Demo User` and the submitted email; live login is the request's envelope |
| Api.Register | src/lib/api.ts:55-69 | demo register always succeeds with token `demo-token`, id `demo-user`, and the submitted name and email |
| Api.GetMoods | src/lib/api.ts:72-77 | the demo listing is every fixture, delivered; live, it is the request's envelope |
| Api.GetWeeklyMoods | src/lib/api.ts:95-100 | the demo weekly listing is every fixture, not filtered by date; live, it is the request's envelope |
| Api.GetMonthlyMoods | src/lib/api.ts:102-107 | the demo monthly listing is every fixture, not filtered by date; live, it is the request's envelope |
| Api.ListMoods | src/lib/api.ts:72-106 | the demo listings answer with exactly the fixture list and never fail |
| Api.DemoListingsAgree | src/lib/api.ts:72-106 | in demo mode the full, weekly and monthly listings coincide, independent of any live outcome |
| Api.CreateMood | src/lib/api.ts:79-93 | a demo create succeeds with owner `demo-user`, the clock-derived id and time, and mood, energy, activity, sleep and notes copied from the form |
| Api.DemoCreateNotListed | src/lib/api.ts:79-106 | a demo create is not appended: the created entry never shows in a later listing, which stays at three entries |
| Api.GetTodayQuote | src/lib/api.ts:110-115 | the demo quote request answers with the fixture quote |
| Api.ReplyIndex | src/lib/api.ts:128 | `floor(random * 5)` is a valid reply index for a draw in [0, 1) |
| Api.SendChatMessage | src/lib/api.ts:118-135 | the demo chat always succeeds with one of the five canned replies |
| Api.DemoChatCoversReplies | src/lib/api.ts:119-129 | every canned reply can be drawn, and the reply does not depend on the message sent |
| Demo.DemoMoodsShape | src/lib/demo.ts:8-39 | three fixtures with ids `1`, `2`, `3`, all owned by the demo user's id, dated 1, 2 and 3 days before load, so newest first |
| Demo.DemoMoodsInRange | src/lib/demo.ts:12-35 | every fixture has mood and energy in 1-10, sleep in 0-24 and an activity |
| Dashboard.FetchRecentMoods | src/pages/Index.tsx:18-33 | a delivered list leaves its prefix of at most three entries; anything else keeps the previous (initially empty) list; loading ends either way |
| Dashboard.AverageMood | src/pages/Index.tsx:35-38 | 0 with no entries; otherwise the integer nearest the mean mood, halves rounded up |
| Dashboard.MoodTrend | src/pages/Index.tsx:40-47 | stable with fewer than two entries; otherwise improving iff the newest mood exceeds the one before, declining iff it is below it |
| Dashboard.RoundDiv | src/pages/Index.tsx:37 | the result is the integer nearest to s/n, halves rounded up, as `Math.round` does |
| Dashboard.RoundDivUnique | src/pages/Index.tsx:37 | exactly one integer satisfies the rounding bracket |
| Dashboard.SumMoodsBounds | src/pages/Index.tsx:37 | moods in [lo, hi] bound their sum between n·lo and n·hi |
| Dashboard.RoundDivInRange | src/pages/Index.tsx:37 | rounding a quotient that lies in [lo, hi] never leaves [lo, hi] |
| Dashboard.AverageMoodInRange | src/pages/Index.tsx:35-38 | the rounded average of moods in [lo, hi] lies in [lo, hi], so on the 1-10 scale it is itself a valid mood |
| Dashboard.TrendSymmetric | src/pages/Index.tsx:40-47 | the trend depends only on the two newest entries, and swapping them swaps improving with declining while stable stays stable |
| Dashboard.GreetingName | src/pages/Index.tsx:79 | the greeting shows the user's name, or `User` when there is no user or the name is empty |
| Dashboard.DemoDashboard | src/pages/Index.tsx:35-47 | on the demo fixtures the average is 8, the trend improving, and the greeting `Demo User` |
| MoodForm.Validate | src/components/MoodForm.tsx:17-23 | accepts iff mood and energy are in 1-10, an activity of at least one character is chosen and sleep is in 0-24; on rejection it names every violated field and no other |
| MoodForm.IssuesExact | src/components/MoodForm.tsx:17-23 | no issue iff every constraint holds, and each issue is reported iff its own constraint fails |
| MoodForm.SchemaMessage | src/components/MoodForm.tsx:20 | the schema gives its own message, `Please select an activity`, for an empty activity and for nothing else |
| MoodForm.DefaultsNeedActivity | src/components/MoodForm.tsx:56-60 | the defaults (5, 5, 8 h) are in range, and the only complaint is the missing activity |
| MoodForm.ActivitiesDistinctAndValid | src/components/MoodForm.tsx:25-36 | ten distinct activities, and choosing any one makes the default form valid |
| MoodForm.DemoMoodsSatisfySchema | src/components/MoodForm.tsx:17-23 | every demo fixture satisfies the form schema |
| MoodForm.BucketMonotone | src/components/MoodForm.tsx:67-73 | a larger slider value never falls into a lower emoji bucket |
| MoodForm.BucketPairs | src/components/MoodForm.tsx:67-81 | on the 1-10 scale the buckets are the pairs 1-2, 3-4, 5-6, 7-8, 9-10 |
| MoodForm.MoodEmoji | src/components/MoodForm.tsx:67-73 | total: every value gets one of the five mood faces |
| MoodForm.EnergyEmoji | src/components/MoodForm.tsx:75-81 | total: every value gets one of the five energy symbols |
| MoodForm.EmojiThresholds | src/components/MoodForm.tsx:67-81 | values up to 2 show 😢 and 😴, up to 4 show 😕 and 😪, up to 6 show 😐 for both, up to 8 show 🙂 and 😊, and anything higher shows 😊 and ⚡ |
| MoodForm.EmojiIdentifiesBucket | src/components/MoodForm.tsx:67-81 | within a scale the symbol identifies the bucket; the scales share only the neutral face (5-6) and the smile (mood 9-10, energy 7-8) |
| MoodForm.BeginSubmit | src/components/MoodForm.tsx:84-86 | submitting first sets loading and clears the error and the success flag |
| MoodForm.OnSubmit | src/components/MoodForm.tsx:83-104 | on success: success flag set, form reset to the defaults, `onSuccess` called exactly once more; on a failed envelope: its message or `Failed to log mood`; on a throw: `An unexpected error occurred`; values and `onSuccess` untouched on failure; loading ends every time |
| MoodForm.SubmitForm | src/components/MoodForm.tsx:118 | values the schema refuses never reach the handler |
| MoodForm.EmptyCreateStillSucceeds | src/components/MoodForm.tsx:91-95 | the form tests only `success`, so a 2xx create with a `null` body still resets the form and calls `onSuccess` |
| MoodForm.DemoSubmitSucceeds | src/components/MoodForm.tsx:89-95 | in demo mode a valid submission always succeeds, resets the form and calls `onSuccess` once |
| MoodList.FetchMoods | src/components/MoodList.tsx:14-29 | only a delivered list replaces the entries; loading ends regardless |
| MoodList.View | src/components/MoodList.tsx:45-99 | skeleton iff loading, empty-state message iff loaded and empty, otherwise a non-empty prefix of at most five entries |
| MoodList.FailedFetchShowsEmpty | src/components/MoodList.tsx:17-20 | a failed or thrown fetch ends in the empty-state message |
| MoodList.DeliveredListShowsPrefix | src/components/MoodList.tsx:99 | the i-th entry shown is the i-th entry delivered, for every i below min(5, n) |
| MoodList.MoodColour | src/components/MoodList.tsx:31-36 | every mood gets one of the four mood colours |
| MoodList.EnergyColour | src/components/MoodList.tsx:38-43 | every energy level gets one of the four energy colours |
| MoodList.BadgeBands | src/components/MoodList.tsx:31-43 | two badges of one scale carry the same classes exactly when their values share a band |
| MoodList.ColourBands | src/components/MoodList.tsx:31-43 | badge bands never go down as the value grows, colours identify bands within a scale, and the scales agree only on blue (6-7) |
| MoodList.ColourThresholds | src/components/MoodList.tsx:31-43 | mood: ≤3 red, ≤5 yellow, ≤7 blue, else green; energy: gray, orange, blue, purple over the same bands; each with its exact Tailwind class string |
| MoodList.NotesParagraph | src/components/MoodList.tsx:137-141 | notes are rendered, verbatim, exactly when present and non-empty |
| MoodChart.ProcessChartData | src/components/MoodChart.tsx:47-54 | one point per entry in the same order, with mood, energy and sleep copied unchanged |
| MoodChart.ProcessChartDataAppend | src/components/MoodChart.tsx:47-54 | charting a concatenation is the concatenation of the charts |
| MoodChart.FetchData | src/components/MoodChart.tsx:22-45 | weekly and monthly lists are each replaced only by their own delivered response; a rejection keeps both; loading ends |
| MoodChart.FetchesIndependent | src/components/MoodChart.tsx:30-36 | one response's outcome never affects the other list, and a failed weekly response leaves the weekly list empty |
| MoodChart.View | src/components/MoodChart.tsx:74-152 | skeleton iff loading; the no-data notice shows iff both lists are empty; each chart plots its own list, point i carrying entry i's time, mood, energy and sleep |
| MoodChart.DemoChartHasData | src/components/MoodChart.tsx:25-150 | in demo mode the weekly and the monthly chart both plot the three fixture entries, and the no-data notice never shows |
| MoodChart.Tooltip | src/components/MoodChart.tsx:56-72 | a box is drawn iff the tooltip is active with a non-empty payload; line i is the mood, energy or sleep line carrying item i's value for those keys, and an empty line for any other key; otherwise nothing |
| Chatbot.TrimEmptyIffBlank | src/pages/Chatbot.tsx:39 | `!input.trim()` holds exactly when every character is JavaScript white space |
| Chatbot.TrimStartEmptyIffBlank | src/pages/Chatbot.tsx:39 | stripping leading white space leaves nothing iff the text is all white space |
| Chatbot.TrimEndOfNonBlank | src/pages/Chatbot.tsx:39 | stripping trailing white space keeps a leading non-space character |
| Chatbot.SendDisabled | src/pages/Chatbot.tsx:146 | the send button is disabled iff a reply is pending or the input is all white space |
| Chatbot.BotText | src/pages/Chatbot.tsx:55-81 | the reply is the API's answer only for a delivered envelope, the fixed fallback for a failed one, the fixed apology for a throw |
| Chatbot.HandleSendMessage | src/pages/Chatbot.tsx:38-85 | a blank input or a pending reply changes nothing; otherwise the untrimmed input is appended as a user message and sent to the API verbatim, then exactly one reply follows, the input is cleared and loading ends |
| Chatbot.PendingState | src/pages/Chatbot.tsx:41-50 | while a reply is awaited the user's message is shown, the input is empty, and a second send is refused |
| Chatbot.InitialAlternates | src/pages/Chatbot.tsx:18-25 | the transcript opens with a single assistant greeting |
| Chatbot.SendKeepsAlternating | src/pages/Chatbot.tsx:48-81 | every send keeps the transcript alternating between user and assistant, ending on the assistant |
| Chatbot.RunGrowsByTwo | src/pages/Chatbot.tsx:38-85 | over any session, each non-blank input adds exactly two messages, blank ones add none, and the transcript stays alternating |
| Chatbot.DemoReplyIsCanned | src/pages/Chatbot.tsx:53-62 | in demo mode every accepted send is answered with one of the canned replies |
| Routes.ApplyGuard | src/App.tsx:18-25 | the protected guard renders iff authenticated and otherwise redirects to `/login`; the public guard renders iff not authenticated and otherwise redirects to `/` |
| Routes.RouteFor | src/App.tsx:41-93 | exactly the unguarded routes lead to the 404 page |
| Routes.Resolve | src/App.tsx:18-93 | a protected path renders iff authenticated and otherwise redirects to `/login`; a public path renders iff not authenticated and otherwise redirects to `/`; any other path renders the 404 page |
| Routes.RouteIgnoresCaseAndSlash | src/App.tsx:41-93 | an extra trailing slash or a change of letter case never changes the route a path selects |
| Routes.TrailingSlashExample | src/App.tsx:83-90 | `/chatbot/` is the protected chat route |
| Routes.CapitalsExample | src/App.tsx:41-48 | `/Login` is the public login route |
| Routes.SlashesExample | src/App.tsx:59-66 | `//` is the protected dashboard route |
| Routes.RouteTable | src/App.tsx:41-93 | after case folding and trailing-slash removal, `/login` and `/register` are public; `/`, `/mood-logger`, `/analytics` and `/chatbot` are protected; every other path is the unguarded 404 page; each of the six table paths selects its own page: `/login` the login page, `/register` the register page, `/` the dashboard, `/mood-logger` the logger, `/analytics` the analytics page and `/chatbot` the chatbot |
| Routes.LoginXorHome | src/App.tsx:18-25 | for any session exactly one of `/login` and `/` renders, and the other redirects to it |
| Routes.RedirectTargetRenders | src/App.tsx:18-25 | a redirect never leads to another redirect |
| Routes.DemoRoutes | src/App.tsx:23-25 | in demo mode the public pages always redirect to `/` and every other page renders |
| Routes.ShippedBuildSkipsLogin | src/lib/demo.ts:49 | with demo mode on, as shipped, `/login` forwards to `/` and the dashboard renders |
| Routes.LoggedOutRoutes | src/App.tsx:18-20 | after logout, outside demo mode, every protected path redirects to `/login` |
| AuthPages.BeginAuth | src/pages/Login.tsx:14-15 | the handler first sets loading and clears the error |
| AuthPages.HandleAuth | src/pages/Login.tsx:13-32 | on a delivered response with both writes going through, the session then reads back exactly the delivered token and user, only those two keys change and navigation goes to `/`; if the token write throws, nothing is stored; if the profile write throws, the token is stored but the profile is not; either way there is no navigation and the error is `An unexpected error occurred`; on any other outcome nothing is stored, there is no navigation, and the error is the server's message, the page default or the unexpected-error text; loading ends every time |
| AuthPages.HandleLogin | src/pages/Login.tsx:24-26 | a failed login without a message shows `Login failed` and stores nothing |
| AuthPages.HandleRegister | src/pages/Register.tsx:24-26 | a failed registration without a message shows `Registration failed` and stores nothing |
| AuthPages.SuccessWithoutDataFails | src/pages/Login.tsx:20-26 | a success flag without data counts as failure: nothing stored, no navigation, error shown |
| AuthPages.LoginThenHomeRenders | src/pages/Login.tsx:20-23 | after a live login with a non-empty token, `/` renders and `/login` redirects home |
| AuthPages.LiveLoginError | src/pages/Login.tsx:24-26 | a live login answered by a server error stores nothing and shows the server's message or `API request failed` |
| AuthPages.LiveLoginEmptyBody | src/pages/Login.tsx:20-26 | a 2xx login with a `null` body is a successful envelope without data: nothing stored, no navigation, `Login failed` shown |
| AuthPages.HalfWrittenSession | src/pages/Login.tsx:20-28 | when the profile write throws after the token write, the page shows the unexpected-error text and stays put, yet `/` now renders and the stored profile is the old one |
| AuthPages.DemoRegisterStoresEcho | src/pages/Register.tsx:18-23 | a demo registration writes `demo-token` and a profile echoing the submitted name and email to storage, yet the dashboard still greets `Demo User`, because the same demo flag makes the profile reader return the demo user |
| DailyQuote.FetchQuote | src/components/DailyQuote.tsx:12-27 | the quote is kept only when delivered; loading ends after every outcome, a throw included |
| DailyQuote.View | src/components/DailyQuote.tsx:29-78 | skeleton iff loading; once loaded, the quote's text and author, or the fallback "Every day is a new beginning…" by Anonymous |
| DailyQuote.FetchSettlesView | src/components/DailyQuote.tsx:29-62 | after the fetch the card never stays on the skeleton: it shows the delivered quote or the fallback |
| DailyQuote.QuoteFromFacade | src/components/DailyQuote.tsx:15-17 | in demo mode the card shows the fixture quote; a failed live request, or one answered with a `null` body, shows the fallback |

## Left out

- **Network I/O and setup.** `fetch`, `response.json()`, the base-URL lookup (src/lib/api.ts:5) and `console` logging are left out. The fetch result is the abstract `Api.FetchOutcome`.
- **Request options.** `request` spreads `options` after its merged headers (src/lib/api.ts:13-20), so a caller's own `headers` would replace them. No caller passes headers, so the model sends Content-Type plus the auth headers. Request bodies (`JSON.stringify` of the payloads) are not modelled.
- Session.GetUser: stored text that is not a serialised profile reads as no user. The source's `JSON.parse` would throw there instead. Only `setUser` writes that key, so such text does not arise.
- UserJson.Decode: accepts only the text `JSON.stringify` writes for a `{ id, name, email }` profile.
  - Other JSON that `JSON.parse` accepts reads as no user: white space, other key orders, extra fields, or escapes such as `\/` and `\u0041`.
  - A profile sent by the server is stored in the server's own key order, which is not modelled.
- **Clock values.** Timestamps are plain milliseconds; ISO-8601 strings and date-fns formatting are not modelled. Ids derived from `Date.now()` are too: a demo create takes its id and time as parameters, and chat messages carry no id or timestamp. The 3-second reset of the mood form's success flag is also left out.
- **Randomness.** `Math.random()` in the demo chat is the parameter `random` in [0, 1).
- **Library internals.** React rendering, JSX and CSS, scrolling, Recharts and the internals of react-hook-form and zod are left out. Of the validation messages, only the schema's own `Please select an activity` is modelled, by `MoodForm.SchemaMessage`. zod's built-in messages are not. Tooltip lines carry the numeric value, not its rendered text.
- AuthPages.HandleAuth: only the two `setItem` writes of a delivered response are modelled as able to throw; `navigate` and the state setters are taken not to throw.
- Routes.RouteFor: locations are taken as already percent-decoded. Path parameters and nested routes do not occur in the table and are not modelled.
- **Concurrency.** `Promise.all` in the chart is modelled as two resolved envelopes or one rejection; the ordering of the two requests is not modelled.
- **Other pages.** Chatbot's Enter-key handler just calls the same send handler and is not modelled separately. The NotFound page, Layout and AuthForm are not part of this model. ChatMessage.tsx, Analytics.tsx and MoodLogger.tsx are presentational; MoodLogger only keeps a remount counter.
- **Number quirks.** Non-integer or NaN slider values are not modelled, because mood and energy are integers. The `|| 0` in the trend has no effect on integers.
