# SPAI reward store, market routes and agent panels in Dafny

This project models the logic core of a Telegram mini app in which users earn
"SPAI" points and agent tickets and ask an AI agent about crypto markets:

- **The reward store** (`src/lib/storage.js`). The store is persisted through
  a `safeStorage` adapter that falls back to an in-memory dictionary. Its
  actions are: set the user and the invitation code, add points, tickets and
  passes, spend a ticket, buy passes, run a six-hour earning session, complete
  the daily and one-shot tasks, reset the daily task, count referrals with a
  one-time bonus, and set the follow flag. `formatTime` formats a number of
  seconds as a clock. `partialize` selects the keys that are persisted.
  - `StoreSpec` holds the persisted record and one pure function per action,
    with lemmas over single calls and over call sequences.
  - `RewardStore.Store` is a class with one field per store key. Each method
    is proved to move `Partialize()` exactly as the matching `StoreSpec`
    function does, and to leave the caches that are not persisted alone.
  - `StoreRun` replays any sequence of actions and proves the invariants that
    hold across it.
  - `StoreClock` holds `formatTime`.
  - `StorageAdapter.SafeStorage` holds the adapter.
- **`GET /api/coins`** (`CoinsRoute`). It fetches the CoinGecko markets page
  and maps the upstream outcome to a status and a payload. It upper-cases each
  coin's symbol. It always asks for the top ten coins by market cap.
- **`POST /api/agent`** (`AgentRoute`). It validates the `messages` array,
  forwards it with the fixed model and token limit, relays the first choice,
  and wraps any thrown error in a 500 envelope.
- **The two analysis panels**, `CoinAgentView` and `DataCenterView`.
  - Each asks the agent route for a labelled reply and parses it with
    hand-written scanners (`ReplyScan`). Each scanner states what its
    regular expression captures for the patterns these components use:
    the leftmost match, a case-insensitive label, greedy blanks.
  - They store the parsed record, or a fixed fallback on failure, and keep
    loading flags and counters.
  - They toggle expanded cards and the watchlist, and filter coins by verdict.
  - Each request is split at its `await`: `BeginAnalysis` runs before it and
    `FinishAnalysis` runs after it.
- **The chat screen** (`AgentChat`). It classifies a reply by keyword and
  guards sends on a blank input or a request already in flight. It builds the
  request from the system prompt, the last eight entries and the new message,
  and appends the reply or an error message.

The clock (`Date.now()`, `toDateString()`, `toLocaleTimeString()`), the
random invitation suffix and the random reply confidence are method
parameters. Every network call is an input value describing what it did.

Four places where the code differs from the app's design description; the
model follows the code:

- A coin without a `symbol` makes `coin.symbol.toUpperCase()` throw inside
  the route's `try`, so the coins route answers 500 "Internal Server Error",
  not 502.
- In the data-center panel the thesis has no `||` default. `\s*` skips
  line breaks too, so a `THESIS:` label followed by blanks up to the END of
  the reply yields the empty thesis, not "Market dynamics under review"
  (when a line follows the blanks, that line is the thesis: "THESIS:  \nX"
  gives "X").
- `setUser` makes a new invitation code, with a new random suffix, on every
  call with a truthy id (src/lib/storage.js:74-77). The design description
  keeps the code when the same id is set again.
- The earning tick always counts six hours (src/lib/storage.js:117-120),
  whatever duration the session was started with. The design description
  has the tick use the session's own duration.

## Model

| member | source | states |
|---|---|---|
| StorageAdapter.SafeStorage.constructor | src/lib/storage.js:4-5 | the fallback dictionary starts empty; whether a window exists, whether reading `localStorage` throws, whether writing it throws, and its contents are as given |
| StorageAdapter.SafeStorage.MemoryLookup | src/lib/storage.js:20 | a key is found in the fallback dictionary exactly when it is present with a non-empty value, as the `or null` fallback reads it |
| StorageAdapter.SafeStorage.GetItem | src/lib/storage.js:9-23 | without a window the result is null; with readable `localStorage` holding the key, its value; otherwise the fallback dictionary's value |
| StorageAdapter.SafeStorage.SetItem | src/lib/storage.js:24-35 | writes `localStorage`, or the fallback without a window or when the write throws; no other key changes. Read back: null without a window; the value when reads and writes both work; when only the write throws, a readable old `localStorage` entry shadows the value, else the fallback gives it ("" reads as null); when only the read throws, the fallback's old value |
| StorageAdapter.SafeStorage.RemoveItem | src/lib/storage.js:36-47 | removes the key from `localStorage` unless the removal throws, and from the fallback always; afterwards it reads as null, except that a readable `localStorage` entry that could not be removed still reads back; no other key changes |
| StoreSpec.InitialIsSound | src/lib/storage.js:52-73 | the initial state (0 points, 3 tickets, the four tasks open, idle timer) has the store's shape and no negative balance |
| StoreSpec.SetUser | src/lib/storage.js:74-77 | the user is stored; a code exists exactly when the id is truthy, and it starts with "SPAI-" and ends with "-" and the random suffix; nothing else changes |
| StoreSpec.InvitationCodeCarriesId | src/lib/storage.js:75 | for a positive id, the digits after "SPAI-" in the code read back as the user's id |
| StoreSpec.SetUserRegenerates | src/lib/storage.js:74-77 | two calls with different random suffixes give different codes |
| StoreSpec.UseAgentTicket | src/lib/storage.js:84-90 | one ticket fewer when there is one; with none left the state is unchanged, so tickets never go negative |
| StoreSpec.PurchasePass | src/lib/storage.js:93-101 | succeeds exactly for count 1 with at least 500 points or count 5 with at least 2000; on success points drop by that cost and passes rise by the count, nothing else; on failure nothing changes |
| StoreSpec.StartEarningTimer | src/lib/storage.js:102-110 | an active, unpaid session that started now with the given duration; nothing else changes |
| StoreSpec.UpdateEarningTimer | src/lib/storage.js:111-141 | inactive, or active with a missing or zero start, or expired and already paid: no change; six hours after the start and unpaid: exactly 2000 points and the timer closed and marked paid; earlier: only the remaining seconds are refreshed, to the ceiling of what is left; the store's shape is kept |
| StoreSpec.InactiveTimerIsInert | src/lib/storage.js:114 | once the session is inactive, any number of ticks changes nothing |
| StoreSpec.TimerPaysAtMostOnce | src/lib/storage.js:111-141 | over any sequence of ticks points grow by 0 or by exactly 2000, and only a session that was active and unpaid pays, ending closed and paid |
| StoreSpec.ExpiredSessionPaysExactlyOnce | src/lib/storage.js:102-141 | a session started and ticked at or after six hours pays 2000 points exactly once, however many ticks follow |
| StoreSpec.TickIgnoresStartedDuration | src/lib/storage.js:117-120 | the tick counts six hours whatever duration the session was started with |
| StoreSpec.CompleteTask | src/lib/storage.js:150-165 | the daily reward pays once per date string; any other task pays once ever; a payment adds the points and one ticket and marks it done; other tasks are never touched; otherwise nothing changes |
| StoreSpec.SpentTaskIsInert | src/lib/storage.js:153-163 | a task that cannot pay today stays unchanged under any number of further calls |
| StoreSpec.TaskPaysOncePerPeriod | src/lib/storage.js:150-165 | repeated calls on one date pay the first call's points and one ticket at most once |
| StoreSpec.DailyRewardRearmsNextDay | src/lib/storage.js:153-157 | the daily reward pays again on another date |
| StoreSpec.ResetDailyTasks | src/lib/storage.js:166-179 | when the daily reward was not completed today it becomes "not completed, no date"; otherwise nothing changes; other tasks and the balances are never touched |
| StoreSpec.ResetIsIdempotent | src/lib/storage.js:166-179 | resetting twice on a date is resetting once |
| StoreSpec.ResetKeepsTodaysClaim | src/lib/storage.js:153-179 | the reset never reopens a daily reward already claimed today |
| StoreSpec.AddReferral | src/lib/storage.js:180-198 | always one more invited user, pass and ticket; from the fifth referral `inviteFive` is completed, and the 5000 bonus is paid only if it was not completed before |
| StoreSpec.ReferralBonusPaidOnce | src/lib/storage.js:180-198 | over any number of referrals the counters grow by that number and the bonus is paid at most once, exactly when the count reaches five with `inviteFive` open |
| StoreSpec.SixReferralsFromStart | src/lib/storage.js:180-198 | from a fresh store six referrals give 5000 points, six passes, and `inviteFive` completed |
| StoreSpec.FollowResetRearmsReward | src/lib/storage.js:159-163 | clearing the follow flag lets `completeTask('followX')` pay again |
| StoreClock.FormatTime | src/lib/storage.js:142-149 | an "HH:MM:SS" text whose fields read back as minutes < 60 and seconds < 60 that recompose the input with the hours; exactly 8 characters below 100 hours |
| StoreClock.FormatClock | src/lib/storage.js:146-148 | each zero-padded field reads back as its value |
| StoreClock.ClockSplit | src/lib/storage.js:143-145 | h = s div 3600, m = (s mod 3600) div 60 and sec = s mod 60 satisfy m, sec < 60 and h*3600 + m*60 + sec = s |
| RewardStore.Store.Partialize | src/lib/storage.js:251-262 | the persisted record is exactly the nine keys `partialize` names |
| RewardStore.Store.constructor | src/lib/storage.js:52-73 | a new store persists the initial state and holds empty caches |
| RewardStore.Store.Rehydrate | src/lib/storage.js:247-262 | merging a stored record sets every persisted key to it; the caches stay |
| RewardStore.Store.SetUser | src/lib/storage.js:74-77 | the persisted state moves as `StoreSpec.SetUser` says; the caches stay |
| RewardStore.Store.AddSpaiPoints | src/lib/storage.js:78-79 | only the points change, by the amount given |
| RewardStore.Store.AddAgentTickets | src/lib/storage.js:80-83 | only the tickets change, by the count given |
| RewardStore.Store.UseAgentTicket | src/lib/storage.js:84-90 | the persisted state moves as `StoreSpec.UseAgentTicket` says |
| RewardStore.Store.AddAgentPass | src/lib/storage.js:91-92 | only the passes change, by the count given |
| RewardStore.Store.PurchasePass | src/lib/storage.js:93-101 | returns and persists what `StoreSpec.PurchasePass` says |
| RewardStore.Store.StartEarningTimer | src/lib/storage.js:102-110 | the persisted state moves as `StoreSpec.StartEarningTimer` says |
| RewardStore.Store.UpdateEarningTimer | src/lib/storage.js:111-141 | the persisted state moves as `StoreSpec.UpdateEarningTimer` says |
| RewardStore.Store.CompleteTask | src/lib/storage.js:150-165 | the persisted state moves as `StoreSpec.CompleteTask` says |
| RewardStore.Store.ResetDailyTasks | src/lib/storage.js:166-179 | the persisted state moves as `StoreSpec.ResetDailyTasks` says |
| RewardStore.Store.AddReferral | src/lib/storage.js:180-198 | the persisted state moves as `StoreSpec.AddReferral` says |
| RewardStore.Store.SetTwitterFollowCompleted | src/lib/storage.js:199-202 | only the `followX` task changes, to the value given; `hasCompletedTwitterFollow` is never written |
| StoreRun.Step | src/lib/storage.js:74-202 | any action keeps the store's shape, never writes `hasCompletedTwitterFollow`, and keeps balances non-negative for non-negative amounts |
| StoreRun.RunKeepsInvariants | src/lib/storage.js:74-202 | the same holds over any sequence of actions |
| StoreRun.FreshStoreRuns | src/lib/storage.js:52-202 | from a fresh store, tickets never go negative and `hasCompletedTwitterFollow` stays false whatever the app does |
| CoinsRoute.QueryRoundTrip | src/app/api/coins/route.js:2 | a query of plain pairs decodes back to its pairs, in order |
| CoinsRoute.Lookup | src/app/api/coins/route.js:2 | a found value belongs to a pair with that key; a missing key is in no pair |
| CoinsRoute.MarketsRequestAsksForTopTen | src/app/api/coins/route.js:2 | whatever the upstream does, the URL the handler fetches is the markets endpoint, "?", and a query that reads back as page 1, 10 per page, ordered by market cap descending, in US dollars, without sparkline |
| CoinsRoute.Normalise | src/app/api/coins/route.js:30-38 | a readable coin keeps its name and image and gets its symbol upper-cased; a null coin or one without a symbol throws |
| CoinsRoute.NormaliseAll | src/app/api/coins/route.js:30-38 | the mapping succeeds exactly when every coin is readable, and then has the same length and order, coin by coin |
| CoinsRoute.Respond | src/app/api/coins/route.js:1-59 | timeout gives 504 "API request timed out"; other fetch failures, an unparseable body and an array holding an unreadable coin give 500 "Internal Server Error"; non-ok gives 502 with the status text; a non-array gives 502 "Unexpected API response format"; 200 exactly for an ok array of readable coins, with the normalised list |
| CoinsRoute.Get | src/app/api/coins/route.js:1-59 | the handler fetches the markets URL once and answers as `Respond` says for what came back |
| AgentRoute.Envelope | src/app/api/agent/route.js:35-56 | status 500, error "Failed to get AI response", message = the error's message, and details exactly when the error carries a response |
| AgentRoute.Post | src/app/api/agent/route.js:13-58 | the upstream is called exactly when `messages` is an array, with it unchanged, the fixed model and 500 tokens; a missing array gives 400; a choice gives 200 with its content; any throw, including an unreadable body or no choice, gives the envelope |
| AgentRoute.StatusClassifiesOutcome | src/app/api/agent/route.js:13-58 | 400 exactly for a missing array, 200 exactly for a call that returned a choice, 500 exactly for the error envelope |
| ReplyScan.CaptureStart | src/components/CoinAgent.js:110 | present exactly when the label followed by its group occurs; then it is the position past the label and its blanks at the leftmost such occurrence |
| ReplyScan.KeywordField | src/components/CoinAgent.js:110 | there is a keyword exactly when the label followed by blanks and an alternative occurs; it is an alternative, and it matches case-insensitively where the capture of the leftmost occurrence starts |
| ReplyScan.DigitField | src/components/CoinAgent.js:111-112 | a number exactly when the label, blanks, digits and the suffix occur; it is the value of the digit run where the capture of the leftmost occurrence starts |
| ReplyScan.DecimalAt | src/components/DataCenterHome.js:135 | a decimal number starts at the position exactly when digits do; its value is not negative |
| ReplyScan.DecimalField | src/components/DataCenterHome.js:135 | a decimal exactly when the label, blanks, a decimal and the suffix occur; it is the decimal where the capture of the leftmost occurrence starts, never negative |
| ReplyScan.FirstLabel | src/components/CoinAgent.js:113 | the leftmost case-insensitive occurrence of the label, or none |
| ReplyScan.LineText | src/components/CoinAgent.js:113 | the trimmed capture of `(.+)` holds no line terminator and starts and ends with a non-blank |
| ReplyScan.LineField | src/components/CoinAgent.js:113-114 | a capture exists exactly when a non-terminator follows the first label; it is the trimmed rest of the line where the text after the label's blanks starts ("" when only blanks follow); no line terminator, trimmed |
| ReplyScan.LineFieldText | src/components/CoinAgent.js:113-114 | with text after the label the capture is the rest of that line, trimmed, and not empty; with only blanks after it the capture is "" or missing |
| ReplyScan.BlockText | src/components/CoinAgent.js:116-118 | the trimmed capture of `(.+?)` up to the stop label starts and ends with a non-blank |
| ReplyScan.BlockField | src/components/CoinAgent.js:116-118 | a capture exists exactly when anything follows the first label; it is the trimmed text from after the label's blanks up to the next stop label or the end ("" when only blanks follow) |
| ReplyScan.BlockFieldText | src/components/CoinAgent.js:116-118 | with text after the label the capture is that text up to the stop label, trimmed, and not empty; with only blanks after it the capture is "" or missing |
| ReplyScan.SplitPointsCharacterised | src/components/CoinAgent.js:132-133 | splitting on commas and newlines keeps every other character in order and gives one part more than there are separators |
| ReplyScan.NonEmpty | src/components/CoinAgent.js:132-133 | keeps each non-empty string exactly as often as it occurs and drops every empty one |
| ReplyScan.NonEmptyMembers | src/components/CoinAgent.js:132-133 | every kept string is non-empty and from the input; every non-empty input string is kept |
| ReplyScan.NonEmptyAppend | src/components/CoinAgent.js:132-133 | filtering a concatenation is concatenating the filtered parts, so the kept strings keep their order |
| ReplyScan.Points | src/components/CoinAgent.js:132-133 | the first two of the non-empty trimmed parts, in order (all of them when fewer); each is non-empty; with fewer than two, every non-empty trimmed part is kept |
| JsText.Trim | src/components/Agent.js:107 | the result is a slice of the input with only whitespace cut off before and after it, and a non-empty result starts and ends with a non-blank |
| JsText.TrimEmptyIffBlank | src/components/Agent.js:107 | trimming gives "" exactly when the input is all whitespace |
| JsText.DecimalRoundTrip | src/lib/storage.js:75 | the decimal text of a natural number reads back as it |
| JsText.PadKeepsValue | src/lib/storage.js:146-148 | zero-padding keeps the value a digit string reads as |
| JsText.LeadingZerosValue | src/lib/storage.js:146-148 | any number of leading zeros keeps a digit string's value |
| CoinAgentView.OrElse | src/components/CoinAgent.js:113-118 | the JavaScript "or" with a default: an absent or empty capture gives the fallback, any other its value |
| CoinAgentView.ParsedVerdict | src/components/CoinAgent.js:110 | the verdict is ACQUIRE, MONITOR or AVOID: the alternative written, in any case, at the leftmost match, or MONITOR when nothing matches |
| CoinAgentView.ParsedRiskGrade | src/components/CoinAgent.js:115 | the risk grade is A to D: the letter written, in any case, at the leftmost match, or B when nothing matches |
| CoinAgentView.ParsedHorizon | src/components/CoinAgent.js:119 | the horizon is 7D, 30D or 90D: the alternative written, in any case, at the leftmost match, or 30D when nothing matches |
| CoinAgentView.ParsedScores | src/components/CoinAgent.js:111-121 | confidence and score are the numbers written at the leftmost match of their patterns, or 75 and 70 when nothing matches |
| CoinAgentView.ParsedTexts | src/components/CoinAgent.js:113-133 | no text field is empty; each case list has at most two non-empty points; a field whose label is followed by text holds that text trimmed (the cases: its points); a field whose label is missing or followed by blanks only takes its default |
| CoinAgentView.ParsedAnalysisIsWellFormed | src/components/CoinAgent.js:107-138 | every parsed record is well formed and stamped with the time it was parsed |
| CoinAgentView.Fallback | src/components/CoinAgent.js:142-159 | the failure record is MONITOR, 50, C, 30D, score 50, and is well formed |
| CoinAgentView.ToggleExpansion | src/components/CoinAgent.js:165-170 | flips only the key given (a missing entry counts as collapsed); every other key is unchanged |
| CoinAgentView.ToggleExpansionTwice | src/components/CoinAgent.js:165-170 | toggling a card twice shows every card as before |
| CoinAgentView.FilteredCoins | src/components/CoinAgent.js:208-212 | "ALL" keeps every coin; otherwise a coin is kept exactly when its stored verdict equals the filter, so coins without an analysis are dropped; each kept coin as often as in the input |
| CoinAgentView.FilteredCoinsAppend | src/components/CoinAgent.js:208-212 | filtering a concatenation is concatenating the filtered parts, so the kept coins keep their order |
| CoinAgentView.Counted | src/components/CoinAgent.js:107-140 | a response counts once exactly when it carries a reply |
| CoinAgentView.AfterResponse | src/components/CoinAgent.js:107-159 | a reply stores its parse, a failure stores the fallback, a reply-less response stores nothing; only the coin's entry changes |
| CoinAgentView.CoinAgentPanel.constructor | src/components/CoinAgent.js:12-16 | all maps empty and the counter at 0 |
| CoinAgentView.CoinAgentPanel.BeginAnalysis | src/components/CoinAgent.js:50-53 | the key is the upper-cased symbol and only its loading flag is set |
| CoinAgentView.CoinAgentPanel.FinishAnalysis | src/components/CoinAgent.js:107-162 | the analyses move as `AfterResponse` says, the counter grows by one exactly for a reply, and the coin stops loading in every case |
| CoinAgentView.CoinAgentPanel.ToggleCardExpansion | src/components/CoinAgent.js:165-170 | only the expanded cards change, as `ToggleExpansion` says |
| DataCenterView.ParsedSignalKeywords | src/components/DataCenterHome.js:132-139 | action and timeline are allowed values: the alternative written, in any case, at the leftmost match, or MONITOR and MEDIUM when nothing matches |
| DataCenterView.ParsedConviction | src/components/DataCenterHome.js:135-140 | the conviction is the decimal written at the leftmost match, never negative, or 7.5 when nothing matches |
| DataCenterView.ParsedThesis | src/components/DataCenterHome.js:133-138 | with text after the label the thesis is the trimmed rest of that line and not empty; with only blanks after it, "" when one of them is not a line terminator and the default otherwise; the default without the label |
| DataCenterView.Fallback | src/components/DataCenterHome.js:157-168 | the failure signal is MONITOR, MEDIUM, conviction 5.0 |
| DataCenterView.AfterResponse | src/components/DataCenterHome.js:130-168 | a reply stores its parse, a failure stores the fallback, a reply-less response stores nothing |
| DataCenterView.NewSignals | src/components/DataCenterHome.js:153-155 | the counter grows by one exactly for a reply parsed as ACCUMULATE |
| DataCenterView.FallbackAddsNoSignal | src/components/DataCenterHome.js:153-168 | a failure never adds an active signal |
| DataCenterView.WatchToggled | src/components/DataCenterHome.js:174-184 | the symbol's membership flips and no other symbol's changes |
| DataCenterView.WatchToggleTwice | src/components/DataCenterHome.js:174-184 | toggling a symbol twice restores the watchlist |
| DataCenterView.DataCenterPanel.constructor | src/components/DataCenterHome.js:13-19 | everything empty and no active signals |
| DataCenterView.DataCenterPanel.BeginAnalysis | src/components/DataCenterHome.js:82-85 | the key is the upper-cased symbol and only its loading flag is set |
| DataCenterView.DataCenterPanel.FinishAnalysis | src/components/DataCenterHome.js:130-171 | the signals move as `AfterResponse` says, the counter as `NewSignals` says, and the coin stops loading |
| DataCenterView.DataCenterPanel.ToggleWatchlist | src/components/DataCenterHome.js:174-184 | only the watchlist changes, as `WatchToggled` says |
| AgentChat.GetMessageType | src/components/Agent.js:96-103 | the kind is one of five; bullish exactly when a bullish keyword occurs; bearish, alert and analysis exactly when their keywords occur and no earlier group's do; neutral when none occur |
| AgentChat.MessageTypeIgnoresCase | src/components/Agent.js:97 | upper-casing a reply does not change its kind |
| AgentChat.BuyingWins | src/components/Agent.js:98 | a reply mentioning "buy" is bullish whatever else it says |
| AgentChat.HistoryWindow | src/components/Agent.js:145 | the last eight entries, or all when fewer |
| AgentChat.BlockedByBlankInput | src/components/Agent.js:107 | when idle, the send is blocked exactly when the input is all whitespace |
| AgentChat.RequestShape | src/components/Agent.js:143-147 | 2 to 10 messages: the system prompt, the history window, then the new user message |
| AgentChat.ChatScreen.constructor | src/components/Agent.js:27-40 | the greeting alone, empty input, idle, HUNTING |
| AgentChat.ChatScreen.SetInput | src/components/Agent.js:92-94 | only the input changes |
| AgentChat.ChatScreen.BeginSend | src/components/Agent.js:105-149 | blocked: nothing changes and nothing is sent; otherwise the user message is appended, the input is cleared, the screen is busy and ANALYZING, and the request is `RequestMessages` over the earlier conversation |
| AgentChat.ChatScreen.FinishSend | src/components/Agent.js:151-192 | a reply appends one assistant message with its kind and cleaned text; a failure appends the connection-error message; a reply-less response appends nothing; the screen is idle and HUNTING afterwards |

## Left out

- Persistence mechanics: the JSON serialisation and the write after every
  `set`. The model keeps the persisted record as a value (`Partialize`), not
  its text.
- The module-level `setInterval` ticks, their throttle and the unload
  cleanup. A tick is a direct call of `UpdateEarningTimer` or
  `ResetDailyTasks` (and `StoreSpec.Ticks` for a sequence of them).
- `updateWinRates` and `fetchCryptoData`. They hold random floats and a
  network fetch. The caches they write are fields that every modelled action
  leaves unchanged.
- `Math.random`, `Date.now()`, `toDateString()` and `toLocaleTimeString()`
  are parameters. The random reply confidence is a parameter in 80..94.
- Floating point: the coins route's `parseFloat` fields are not modelled.
  The conviction is the exact decimal the reply wrote, not its rounded
  double.
- `toUpperCase`/`toLowerCase` map ASCII letters only. Characters outside
  ASCII keep their case in the model.
- The regular expressions themselves. Each field scanner states what its
  pattern captures (leftmost match, case-insensitive label, greedy blanks),
  worked out for these patterns, not a regex engine.
- The markdown-stripping `replace` chain of the chat screen is the `clean`
  parameter of `FinishSend`.
- The text of the system prompts, speech synthesis, haptics and the
  presentation components.
- The Telegram SDK bridge, which is not part of this model.
- The upstream HTTP clients (`fetch`, `AbortController`, the OpenAI client,
  `NextResponse`). Each is an input value saying what the call did.
- The JSON shape of each response. A response is a status and a datatype
  payload.
- StoreSpec.AddSpaiPoints, StoreSpec.AddAgentTickets, StoreSpec.AddAgentPass,
  StoreSpec.SetTwitterFollowCompleted: these one-line updates carry no
  `ensures` of their own. The class methods that call them state the new
  state.
- CoinsRoute.Respond: a coin without a symbol answers 500, as the code does,
  where the design description says 502.
- CoinsRoute.MarketsUrl: carries no `ensures` of its own. What the fetched
  URL holds is stated by CoinsRoute.MarketsRequestAsksForTopTen.
- DataCenterView.ParsedThesis: does not promise a non-empty thesis. The code
  has no `||` fallback, so a label followed by blanks up to the end of the
  reply stores "".
