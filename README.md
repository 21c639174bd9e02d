# Gmail4-0 inbox sorter, modelled in Dafny

Gmail4-0 is a small Next.js application that sorts a Gmail inbox. Its parts are:

- A batch route (`POST /api/cleanup`) lists up to 50 unread inbox messages. It takes them in chunks of five and, for each message: fetches the metadata, asks a language-model classifier for a category, moves the message under the label of that category, and records the result in Firestore statistics.
- A Pub/Sub push webhook (`POST /api/process-email`) sorts the newest unread message whenever Gmail notifies a change.
- Three small routes add and delete sender rules and record user corrections of a category or an urgency flag.
- A persistence layer (`db-service`) holds the Firestore helpers: counter updates, correction writes, a day-by-day statistics window, a log search, and a miner that suggests sender rules from recent logs.
- A logging layer normalises Cloud Logging entries.
- A start-up scrub removes a placeholder credentials path from the environment.
- Three client components (the dashboard, the weather widget and the error ticker) derive what they show from fetched data.

The project models these parts as follows:

- **Wrappers, Js, Text, Records, Seqs, Categories, Http** hold shared vocabulary:
  - Option/Result;
  - JSON values with JavaScript truthiness and property reads that throw on `null`/`undefined`;
  - ASCII lower-casing, `includes`, `startsWith`, `replace`, `trim`;
  - JavaScript objects with non-index keys as insertion-ordered records;
  - the static category taxonomy;
  - JSON responses.
- **DbService** holds the store, a class `Firestore` whose fields are the collections as maps. Its write helpers are methods with `modifies`; the readers are functions. Its sender-pattern miner is the module **SenderPatterns**: the two `forEach` passes are methods with loops, proved equal to functions that the soundness and completeness lemmas speak about.
- **GmailService** holds the mailbox, a class `Mailbox`. It has the labels, the label set of each message, and the log of requests sent. Server replies and faults are parameters.
- **EmailClassifier** is the classifier: a function that fails or returns a category of the taxonomy.
- **CleanupRoute**, **ProcessEmailRoute**, **RulesRoute**, **CorrectCategoryRoute** and **CorrectUrgencyRoute** are the handlers. Each is a method against the mailbox and/or the store, proved against a function that states the whole outcome.
- **LoggingService**, **EnvFix**, **Dashboard**, **WeatherWidget** and **ErrorTicker** are the helpers and components. The error ticker's state is a class `Ticker` whose methods are its interval callbacks and click handler.

Two behaviours of the code are modelled as written, not as the comments suggest:

- `logEmailProcessing` stages the log write in a batch that it never commits. The only document it changes is today's statistics document.
- The webhook persists nothing.

## Model

| member | source | states |
|---|---|---|
| DbService.SenderKey | src/lib/db-service.ts:92 | the sender key has the sender's length and contains no '.' |
| DbService.Bump | src/lib/db-service.ts:89-93 | `totalProcessed`, the category's counter and the sender key's counter each grow by exactly one (an absent field counts from 0, and the total is present afterwards); every other counter is unchanged |
| DbService.LogOnlyTouchesToday | src/lib/db-service.ts:76-99 | whatever the store does, only today's statistics document changes, its total stays as it was (possibly absent) or grows by 1 from its value or 0, and when it grows the category and sender counters grow with it |
| DbService.LogCountsOnce | src/lib/db-service.ts:82-93 | with the store up and a valid id, category and sender key, today's document exists, is stamped `now` and its three counters grow by exactly one |
| DbService.FailedIncrementLeavesNoTotal | src/lib/db-service.ts:84-93 | when the increment fails after the merge created today's document, that document has no total and the history reports the total as absent, not 0 |
| DbService.CorrectionRelabelsOneLog | src/lib/db-service.ts:101-108 | a correction keeps the set of log ids, changes no log but the one with its id, and changes that one only in its category, set to `correctCategory`, and only after the correction itself was recorded under its id |
| DbService.UrgencyCorrectionFlagsOneLog | src/lib/db-service.ts:110-117 | the urgency analogue: only the log with the correction's id changes, only in `isUrgent := shouldBeUrgent`, and only after the correction was recorded |
| DbService.RecordedUnderId | src/lib/db-service.ts:103 | a correction write stores the record under its id, overwriting an earlier one; a refused id or a failing store leaves the collection unchanged; no other key changes |
| DbService.Firestore.constructor | src/lib/db-service.ts:16-26 | a fresh store has every collection empty and no stored taxonomy |
| DbService.Firestore.Entry | src/lib/db-service.ts:175-183 | one day of the history: its date, and its document exactly when the day has one; its total is 0 for a day without a document and the document's own (possibly absent) total otherwise |
| DbService.Firestore.LogEmailProcessing | src/lib/db-service.ts:76-99 | only the statistics change, and they change as `StatsAfterLog` says; every error is swallowed |
| DbService.Firestore.AddCorrection | src/lib/db-service.ts:101-108 | the corrections and logs become `Recorded`/`LogsAfterCorrection` of the old ones; the other collections are unchanged |
| DbService.Firestore.AddUrgencyCorrection | src/lib/db-service.ts:110-117 | the urgency corrections and logs become `Recorded`/`LogsAfterUrgencyCorrection` of the old ones; the other collections are unchanged |
| DbService.Firestore.AddSenderRule | src/lib/db-service.ts:137-143 | with the store up, the rule is stored under the fresh id with that id and the id is returned; otherwise the error is rethrown and the rules are unchanged |
| DbService.Firestore.DeleteSenderRule | src/lib/db-service.ts:152-154 | success exactly when the store is up and the id is valid, in which case only that key is removed; on failure the rules are unchanged |
| DbService.Firestore.GetStats | src/lib/db-service.ts:159-191 | for `days == 1`, today's document or null; otherwise exactly `max(days, 0)` entries, oldest first and ending with today, each the day's `Entry`; null on failure |
| DbService.Firestore.GetStoredCategories | src/lib/db-service.ts:270-281 | the stored list when there is one and the store answers, else the static taxonomy |
| DbService.Firestore.SaveStoredCategories | src/lib/db-service.ts:283-293 | the stored taxonomy becomes the given list; a failure is rethrown and changes nothing |
| DbService.GetRecentLogs | src/lib/db-service.ts:193-213 | at most `limit` logs, all from the store; with a category filter (other than 'All') every log has that category; with a search every log's lower-cased subject or sender contains the lower-cased search; the search keeps exactly the matching logs of the limited page, each as often as the page holds it, a subsequence of it in its order; `[]` on failure |
| SenderPatterns.TallyOfMatches | src/lib/db-service.ts:219-225 | the tally holds exactly the lower-cased senders of the logs, each with the count of each of its categories, the categories in order of first appearance |
| SenderPatterns.Dominant | src/lib/db-service.ts:230-237 | the dominant entry has the largest count, and is the first entry with that count |
| SenderPatterns.DominantCounts | src/lib/db-service.ts:230-237 | for a sender with logs, the dominant category has a positive count no larger than the sender's total, no category has more, and among equally counted categories it appeared first |
| SenderPatterns.ExistingSenders | src/lib/db-service.ts:243-244 | the set of lower-cased rule senders; undefined (the miner throws) when some rule's sender is not a string |
| SenderPatterns.Window | src/lib/db-service.ts:217 | the newest 500 logs |
| SenderPatterns.Suggestions | src/lib/db-service.ts:215-247 | `[]` when the logs cannot be read or a rule's sender is not a string |
| SenderPatterns.SuggestionForSound | src/lib/db-service.ts:227-242 | a suggestion for a sender carries the sender's total over the window (at least `minOccurrences`), a category of maximal count appearing first among ties, and confidence `dominant/total` in (0, 1] and at least the threshold |
| SenderPatterns.SuggestionForComplete | src/lib/db-service.ts:227-242 | a sender with enough logs whose top category reaches the threshold gets a suggestion |
| SenderPatterns.SuggestAllSenders | src/lib/db-service.ts:227-242 | no sender is suggested twice |
| SenderPatterns.SuggestionsSound | src/lib/db-service.ts:215-247 | every suggestion names a lower-cased sender of the 500-log window, with the properties above, whose lower-cased sender no existing rule has |
| SenderPatterns.SuggestionsComplete | src/lib/db-service.ts:215-247 | a sender of the window that meets the count and threshold and has no rule (by exact lower-cased equality) is suggested |
| SenderPatterns.TallyLogs | src/lib/db-service.ts:219-225 | the first `forEach` computes the tally |
| SenderPatterns.DominantCategory | src/lib/db-service.ts:230-237 | the inner loop with its strict `>` computes `Dominant` |
| SenderPatterns.SuggestEach | src/lib/db-service.ts:227-242 | the second `forEach` computes one suggestion per qualifying sender, in tally order |
| SenderPatterns.FindSenderPatterns | src/lib/db-service.ts:215-247 | the miner's loops compute `Suggestions` |
| Records.Increment | src/lib/db-service.ts:223-224 | `obj[k]++` on a record of counts: k's count grows by one from 0, other keys keep theirs, an existing key keeps its place and a new key is appended |
| Records.SumIncrement | src/lib/db-service.ts:228 | an increment adds exactly one to the sum of the values and keeps them positive |
| Text.ReplaceAllRemoves | src/lib/db-service.ts:92 | after replacing every '.', none is left |
| Text.ReplaceAllRoundTrip | src/components/dashboard.tsx:143 | replacing '.' by '_' and back gives the string back when it had no '_' |
| CleanupRoute.ChunksFlatten | src/app/api/cleanup/route.ts:74-79 | the chunks, concatenated in order, are the message list |
| CleanupRoute.ChunksSizes | src/app/api/cleanup/route.ts:74-79 | every chunk has between 1 and 5 messages, and every chunk but the last has exactly 5 |
| CleanupRoute.MakeChunks | src/app/api/cleanup/route.ts:76-79 | the slicing loop computes the chunks |
| CleanupRoute.Prepare | src/app/api/cleanup/route.ts:33-50 | a failed fetch fails with its error; after a fetch, it succeeds exactly when the classifier does and otherwise fails with the classifier's error; on success the subject, sender and snippet are the headers or 'No Subject'/'Unknown Sender'/'', and the classification is the classifier's answer for them |
| CleanupRoute.ProcessOrder | src/app/api/cleanup/route.ts:30-71 | a message without id is skipped with nothing sent; otherwise the metadata fetch comes first, a failed fetch or classification ends the message with an error naming it, and the statistics change only for a processed message |
| CleanupRoute.ProcessFits | src/app/api/cleanup/route.ts:31-71 | a message is skipped exactly when it has no id, and an error entry carries the message's id |
| CleanupRoute.BatchAccounting | src/app/api/cleanup/route.ts:26-71 | one outcome per message, skipped exactly when it has no id; processed count plus the number of errors equals the number of messages with an id; every error names a listed message |
| CleanupRoute.ProcessMessage | src/app/api/cleanup/route.ts:30-71 | one message against the mailbox and store does what `Process` says and changes only the store's statistics |
| CleanupRoute.ProcessChunk | src/app/api/cleanup/route.ts:82 | a chunk continues the run message by message, carrying `processedCount` and `errors` |
| CleanupRoute.ProcessChunks | src/app/api/cleanup/route.ts:81-83 | the chunks in order run the flattened list, i.e. the whole list |
| CleanupRoute.Post | src/app/api/cleanup/route.ts:9-95 | a failed listing answers 500 with its message and a listing that yields no messages answers "Inbox is already empty!" with count 0, both after the listing alone; otherwise the mailbox and statistics end as the run of the at most 50 listed messages leaves them and the answer reports its count and, when there are any, its errors |
| GmailService.FindHeader | src/app/api/cleanup/route.ts:41-42 | the value of the first header with that exact name, none when no header has it |
| GmailService.HeaderOr | src/app/api/cleanup/route.ts:41-42 | the first matching header's value when it is non-empty, else the fallback |
| GmailService.FindLabelId | src/lib/gmail-service.ts:62 | the id of the first label whose name equals the category exactly |
| GmailService.CreateLabelResult | src/lib/gmail-service.ts:32-53 | a created label is returned, a 409 becomes null, and every other error is rethrown |
| GmailService.MoveResult | src/lib/gmail-service.ts:56-82 | a failed label listing fails with its error; otherwise a failed label creation fails with its message, an unresolved label with the missing-label message, a failed modify with its error, and a message the mailbox lacks with 'Requested entity was not found.'; with none of these the move succeeds with the resolved label id |
| GmailService.MoveEffect | src/lib/gmail-service.ts:74-81 | only the moved message's labels change: its new label is among them and `INBOX` is not; a failed move changes nothing |
| GmailService.MoveTargetsCategory | src/lib/gmail-service.ts:61-67 | a successful move uses the id of the first label named exactly after the category, or of the label it created |
| GmailService.ResolveFound | src/lib/gmail-service.ts:61-64 | when a label with that name and a truthy id exists, its id is used, and the requests are the listing and the modify, with nothing created |
| GmailService.CreateOnlyOnMiss | src/lib/gmail-service.ts:64-67 | the label is created exactly when the lookup found no truthy id |
| GmailService.ModifyOnlyWhenResolved | src/lib/gmail-service.ts:69-81 | a modify request is sent exactly when an id was obtained, and it adds exactly that label and removes exactly `INBOX` |
| GmailService.ConflictUnresolved | src/lib/gmail-service.ts:45-71 | on a miss, a 409 from the creation leaves no id, creates no label, and the move throws naming the category |
| GmailService.Mailbox.constructor | src/lib/gmail-service.ts:9-24 | a mailbox with the given labels and messages and no requests sent |
| GmailService.Mailbox.ListMessages | src/app/api/cleanup/route.ts:14-18 | the listing request is logged, and the reply is cut at `maxResults` or the error passed on |
| GmailService.Mailbox.GetMessage | src/app/api/cleanup/route.ts:33-38 | the fetch request is logged and the server's reply returned |
| GmailService.Mailbox.ListLabels | src/lib/gmail-service.ts:26-30 | the label listing is logged on every call, and the current labels or the fault returned |
| GmailService.Mailbox.CreateLabel | src/lib/gmail-service.ts:32-53 | the creation request is logged, a created label joins the list, and the result is `CreateLabelResult` |
| GmailService.Mailbox.Modify | src/lib/gmail-service.ts:74-81 | the modify request adds one label and removes `INBOX`; an unknown message or a fault changes nothing |
| GmailService.Mailbox.MoveEmailToCategory | src/lib/gmail-service.ts:56-82 | the requests, labels and message labels become what `MoveSent`, `LabelsAfterMove` and `MessageLabelsAfterMove` say, and the result is `MoveResult` |
| ProcessEmailRoute.CheckRequest | src/app/api/process-email/route.ts:17-34 | a body that is not JSON, or is `null`, answers 500; a falsy `message` answers 400; a payload that fails to decode answers 500 with the decoder's error; an empty or missing payload is acknowledged with 200, the only 200; a payload that is not JSON answers 500 with the parser's error; one that parses to a value other than `null` proceeds with that notification, and one that parses to `null` answers 500 |
| ProcessEmailRoute.RejectedRequestsTouchNothing | src/app/api/process-email/route.ts:17-32 | a request stopped by the checks answers 200, 400 or 500 and sends no mail request |
| ProcessEmailRoute.EmptyPayloadAcknowledged | src/app/api/process-email/route.ts:23-31 | a payload that is missing or blank after trimming is acknowledged with "No data in message" and no mail request |
| ProcessEmailRoute.BadJsonFails | src/app/api/process-email/route.ts:34-107 | a payload that is not JSON answers 500 with the parser's message before any mail request |
| ProcessEmailRoute.AtMostOneMessage | src/app/api/process-email/route.ts:57-97 | the only listing is the first request, at most one message is fetched, and a modify can only be the last request |
| ProcessEmailRoute.SortRequests | src/app/api/process-email/route.ts:69-97 | sorting fetches the message in full once, first, and moves it at most once, last |
| ProcessEmailRoute.PlaceRequests | src/app/api/process-email/route.ts:97 | the move sends neither a listing nor a fetch, and a modify only as its last request |
| ProcessEmailRoute.NothingToSortOnlyLists | src/app/api/process-email/route.ts:57-102 | for a notification that proceeds, an empty listing answers `{status: "success"}` and a first message without an id answers "No message ID found"; either way the listing is the only request and the labels are unchanged |
| ProcessEmailRoute.MovesTheListedMessage | src/app/api/process-email/route.ts:63-102 | a success for a notification with a listed message means the first listed message, with an id, was fetched, classified on its subject, sender and snippet (the snippet also as body) and moved |
| ProcessEmailRoute.Post | src/app/api/process-email/route.ts:13-108 | the handler's answer and its effect on the mailbox are those of `Handle` |
| ProcessEmailRoute.DeliverTo | src/app/api/process-email/route.ts:51-102 | the mail part of the handler (auth, listing one message, "No message ID found", sorting) does what `Deliver` says |
| ProcessEmailRoute.SortMessage | src/app/api/process-email/route.ts:69-97 | fetching, classifying and moving the listed message does what `Sort` says |
| RulesRoute.CheckRule | src/app/api/rules/route.ts:7-15 | the body is accepted exactly when it parses, `sender` and `category` are truthy and the category is in the taxonomy; then the rule carries exactly those values; otherwise 400 with the reason, or 500 for an unparseable body |
| RulesRoute.AddRuleOutcome | src/app/api/rules/route.ts:5-27 | a rule is stored exactly when the answer is 200, exactly when the body is accepted and the store is up; it carries the new id, the given sender and category; answers are 200, 400 or 500; stored rules stay well formed |
| RulesRoute.Post | src/app/api/rules/route.ts:5-27 | the answer is `AddRule`'s and only a stored rule is added |
| RulesRoute.DeleteRule | src/app/api/rules/route.ts:29-43 | a missing or empty id answers 400 "Missing rule ID"; success ("Rule deleted") exactly when the store is up and the id valid; otherwise 500 |
| RulesRoute.DeleteKeepsRulesWellFormed | src/app/api/rules/route.ts:38 | removing a rule keeps the rules well formed and removes that id |
| RulesRoute.Delete | src/app/api/rules/route.ts:29-43 | the answer is `DeleteRule`'s, and only a successful delete removes that rule |
| CorrectCategoryRoute.CheckCorrection | src/app/api/correct-category/route.ts:7-25 | accepted exactly when the five required fields are truthy and `correctCategory` is in the taxonomy (`wrongCategory` unchecked); the record carries the fields as sent and the snippet or '' |
| CorrectCategoryRoute.CorrectionResponse | src/app/api/correct-category/route.ts:5-31 | 200 with "Correction logged successfully" exactly when the body is accepted, else 400 or 500 |
| CorrectCategoryRoute.AcknowledgedEvenIfLost | src/app/api/correct-category/route.ts:17-27 | an accepted correction is acknowledged even when the store fails and records nothing |
| CorrectCategoryRoute.AcceptedCorrectionRelabels | src/app/api/correct-category/route.ts:13-25 | with the store up, an accepted correction of an existing log is recorded and gives the log a category of the taxonomy, `correctCategory` |
| CorrectCategoryRoute.Post | src/app/api/correct-category/route.ts:5-32 | the answer is `CorrectionResponse`'s; a rejected body changes nothing; an accepted one changes the corrections and logs as `addCorrection` does, nothing else |
| CorrectUrgencyRoute.CheckUrgencyCorrection | src/app/api/correct-urgency/route.ts:6-20 | accepted exactly when `id`, `sender` and `subject` are truthy and neither flag is undefined; the record carries the values as sent and the snippet or '' |
| CorrectUrgencyRoute.UrgencyResponse | src/app/api/correct-urgency/route.ts:4-27 | 200 with "Urgency correction logged successfully" exactly when the body is accepted, else 400 or 500 |
| CorrectUrgencyRoute.FalsyFlagsAccepted | src/app/api/correct-urgency/route.ts:8 | flags that are `false` or `null` are accepted, and the log's `isUrgent` becomes `shouldBeUrgent` as sent |
| CorrectUrgencyRoute.Post | src/app/api/correct-urgency/route.ts:4-27 | the answer is `UrgencyResponse`'s; a rejected body changes nothing; an accepted one changes the urgency corrections and logs as `addUrgencyCorrection` does, nothing else |
| LoggingService.TextOr | src/lib/logging-service.ts:102-106 | the value when it is a non-empty string, else the fallback |
| LoggingService.MessageSources | src/lib/logging-service.ts:88-99 | string data is the message verbatim; object data gives `message`, else `textPayload`, else its serialisation; otherwise the entry's `message` or "Unknown message"; the message is falsy only for empty string data |
| LoggingService.Transform | src/lib/logging-service.ts:88-108 | an entry with metadata becomes a log entry whose message is `MessageOf`, with timestamp, severity, resource type and id defaulting to now, 'DEFAULT', 'unknown' and the random id; an entry without metadata throws |
| LoggingService.FetchesPreserveOrder | src/lib/logging-service.ts:34-86 | both fetchers return the same list: empty on any failure, else one entry per fetched entry in order |
| EnvFix.ScrubRemovesOnlyPlaceholder | src/lib/env-fix.ts:4-10 | the credentials variable is removed exactly when it is set to a value containing a placeholder; no other variable changes; an unset or empty variable leaves the environment unchanged |
| EnvFix.ScrubIdempotent | src/lib/env-fix.ts:4-10 | scrubbing twice is scrubbing once |
| EnvFix.Environment.constructor | src/lib/env-fix.ts:4 | the environment holds the given variables |
| EnvFix.Environment.Scrub | src/lib/env-fix.ts:4-10 | the environment becomes `Scrubbed` of the old one |
| Dashboard.MaxOf | src/components/dashboard.tsx:60 | at least 1, at least every count, and either 1 or one of the counts |
| Dashboard.MaxCategoryCount | src/components/dashboard.tsx:60 | at least 1 and every category count; 1 without statistics |
| Dashboard.Insert | src/components/dashboard.tsx:61 | inserting into a descending list keeps it descending and adds exactly that entry |
| Dashboard.SortByCountDesc | src/components/dashboard.tsx:61 | the sort yields a descending permutation of the entries |
| Dashboard.TopSendersAreTop | src/components/dashboard.tsx:61 | the top senders are the first min(5, n) of the sorted senders: descending, all from the statistics, and no sender left out counts more than the last shown |
| Dashboard.PrefixOfSortedIsTop | src/components/dashboard.tsx:61 | a prefix of a descending permutation holds entries of the original no smaller than the rest |
| Dashboard.CategoryRowsFollowTaxonomy | src/components/dashboard.tsx:115-117 | one row per category in taxonomy order, each with its count or 0, each percentage in [0, 100] |
| Dashboard.PercentageBound | src/components/dashboard.tsx:117 | a count no larger than the scale gives a percentage in [0, 100] |
| Dashboard.NoStatsShowsZeros | src/components/dashboard.tsx:85-116 | without statistics the volume, spam and every category read 0 and no sender is shown |
| Dashboard.DisplayUndoesSenderKey | src/components/dashboard.tsx:143 | the displayed name is the sender exactly when the sender had no '_' |
| Dashboard.UnderscoreSenderMisshown | src/components/dashboard.tsx:143 | "first_last@mail.com" is shown as "first.last@mail.com" |
| WeatherWidget.IconBuckets | src/components/weather-widget.tsx:58-64 | the first threshold not exceeded decides: at most 1 sun, at most 3 cloud, at most 67 rain, at most 77 snow, else heavy rain; icons are monotone in the code |
| WeatherWidget.AdvicePrecedence | src/components/weather-widget.tsx:66-70 | a low below 32 gives the freeze warning whatever the rain; the rain warning exactly when not freezing and precipitation above 0.5; both comparisons strict |
| WeatherWidget.TwelveHour | src/components/weather-widget.tsx:97 | the numeral is in 1..12, and afternoon exactly from hour 12 |
| WeatherWidget.TwelveHourInjective | src/components/weather-widget.tsx:97 | distinct hours get distinct labels, and the label gives the hour back |
| WeatherWidget.FilterKeepsIncreasing | src/components/weather-widget.tsx:76 | dropping elements keeps the kept ones in increasing order |
| WeatherWidget.HourlyIndicesExact | src/components/weather-widget.tsx:75-76 | the indices are ascending and are exactly the slots whose time starts with today's date |
| WeatherWidget.HourlyStripShowsToday | src/components/weather-widget.tsx:87-110 | one card per slot of today, in order, each with its icon, and a rain badge exactly above 20% |
| WeatherWidget.Forecast | src/components/weather-widget.tsx:113-135 | three cards, for the days at indices 1, 2 and 3 |
| WeatherWidget.HeaderOf | src/components/weather-widget.tsx:52-70 | the header warns of frost exactly when today's low is below 32 |
| ErrorTicker.TickStaysInBounds | src/components/error-ticker.tsx:39-47 | a tick keeps the index on an entry, advancing by one and wrapping to 0, and without a timer (at most one entry) changes nothing |
| ErrorTicker.TicksAdvance | src/components/error-ticker.tsx:43 | k ticks from an entry reach the entry k further when there is one |
| ErrorTicker.FullRound | src/components/error-ticker.tsx:43 | as many ticks as entries come back to the same state, passing through the first entry |
| ErrorTicker.DismissIsFinal | src/components/error-ticker.tsx:49-91 | after a dismissal nothing renders, and no tick or poll makes the banner visible again |
| ErrorTicker.FetchBounds | src/components/error-ticker.tsx:24-51 | a poll keeps the index on an entry exactly when it brings no new list or a list long enough; a shorter list makes the render fail |
| ErrorTicker.ShorterPollBreaksBanner | src/components/error-ticker.tsx:24-51 | showing the third of three entries (a banner when its message renders), a poll bringing one entry breaks the render and stops the rotation |
| ErrorTicker.Ticker.constructor | src/components/error-ticker.tsx:15-17 | no entries, index 0, visible |
| ErrorTicker.Ticker.Fetch | src/components/error-ticker.tsx:20-30 | the state becomes `Fetched`: only a non-empty list replaces the entries |
| ErrorTicker.Ticker.Tick | src/components/error-ticker.tsx:42-44 | the state becomes `Ticked` |
| ErrorTicker.Ticker.Dismiss | src/components/error-ticker.tsx:91 | the state becomes `Dismissed` |
| ErrorTicker.Ticker.Render | src/components/error-ticker.tsx:49-89 | the view is `ViewOf` the state, and a banner shows the current entry |
| ErrorTicker.BannerExactlyWhenRenderable | src/components/error-ticker.tsx:49-74 | a banner renders exactly when the ticker is visible, the index is on an entry and that entry's message is a valid React child; a message that is an object, or an array holding one, fails the render |

## Left out

- Firestore, Gmail, Cloud Logging and Pub/Sub are external services. The model replaces them with the state they hold (maps, label lists) and with replies and faults passed in as parameters. Authentication and client construction (`getGmailClient`, `GoogleAuth`) are left out, and the client is taken as given.
- The classifier is an outside language model. It is a parameter that fails or returns a category of the taxonomy.
- `Promise.all` within a chunk runs in parallel in the source; the model processes each chunk's messages one after another, in list order. Interleavings of concurrent messages are not modelled.
- Dates are whole numbers: a day stands for `toISOString().split('T')[0]` and a time for a `Date`. The time zone and calendar arithmetic of `getStats` are not modelled. The day before is `today - 1`.
- Two kinds of document ids are not modelled:
  - ids containing '/', which Firestore reads as paths;
  - categories and sender keys containing characters that Firestore's field paths reject.
  A write with such an id or key is modelled as one the store refuses.
- Text.ToLower lowers ASCII letters only; JavaScript's full Unicode case mapping is not modelled.
- Object keys that read as array indices (such as "42") are not modelled. JavaScript enumerates them first, in ascending numeric order, ahead of the other keys; the records enumerate every key in insertion order. The records' keys are email senders (which hold '@') and taxonomy categories.
- Prototype keys of JavaScript objects (`senderStats['constructor']`) are not modelled; records hold only their own keys.
- Base64 decoding and `JSON.parse` of the webhook payload are parameters of the webhook's world. `decodeBase64Json` is never called in the source and is not modelled.
- `JSON.stringify`, `Math.random` and `new Date().toISOString()` in the logging layer are parameters.
- The filter strings, ordering and page size of the two Cloud Logging queries are not modelled. The entries the service returns are a parameter.
- SenderPatterns.SuggestionFor: the confidence and the threshold are exact reals. The source divides and compares IEEE doubles, so its reported confidence is the rounded quotient (0.6666666666666666, not 2/3), and at a threshold that is not a double exactly `>=` can differ. At the only call site, `findSenderPatterns(3, 1.0)`, both accept exactly the senders whose logs all share one category.
- `Math.round` of percentages and temperatures is not modelled. Percentages and temperatures are reals.
- WeatherWidget.Forecast requires at least four daily values, as the component assumes. A shorter series, which renders `undefined` in the source, is not modelled.
- WeatherWidget.HourlyStrip requires at least one daily date, as it reads today's date; the source with an empty daily series is not modelled. It takes the local hour of each timestamp as a parameter (`new Date(t).getHours()`). The weekday name of each forecast day is not modelled.
- The error ticker's timers and fetches are the caller's. The model's methods are the callbacks; the one-minute and five-second intervals are not modelled.
- React state other than the ticker's, and the loading flags and refresh buttons, are not modelled.
- The `DELETE /api/rules` handler's URL parsing is not modelled; the `id` query parameter is given as an option.
- The store notes functions (`addStoreNote`, `getStoreNotes`, `deleteStoreNote`) follow the same insert/delete pattern as the rules and are not modelled.
- `getCorrections` and `getUrgencyCorrections` (a timestamp-ordered page of a collection) are not modelled.
- `getSenderRules`, read by the pattern miner, is a parameter: the listed rules or the error.
- The thin routes (stats, logs, system logs, notes, weather, rule suggestions, calendar), the log page, the notes, commodity and community components, the layout, the configuration and the scripts are not modelled.
- Dashboard.SortByCountDesc is a stable insertion sort. Its stability, which the source's `Array.prototype.sort` also has, is built into the definition but not stated as a property.
