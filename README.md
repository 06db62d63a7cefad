# Log pipeline and realtime list rules of the deals web application

A Dafny model of the parts of the application that hold state and rules:

- **The client-side log pipeline** (`Logger`, src/services/logger.ts). Log calls are filtered by
  severity, enriched and appended to an in-memory FIFO queue. Flushes send batches of at most
  `batchSize` entries to the log sink. Only one flush runs at a time, and a failed batch goes
  back to the front of the queue. The model is a class with the source's fields. `flush()` is
  split at its one `await` into `BeginFlush` and `EndFlush`, so other calls can run in between,
  as they can in the browser. Two ghost fields, `accepted` and `delivered`, record history. The
  invariant `accepted == delivered + inFlight + queue` says that entries reach the sink in the
  order they were accepted, and none is lost or duplicated before delivery. Every accepted
  entry carries the logger's one session id. The scheduling
  invariant says that while no flush runs, a non-empty queue always has its timer armed.
- **The realtime reducers of the hooks**: INSERT/UPDATE/DELETE applied to the deals list
  (useRealtimeDeals). The notification list with its unread counter (useNotifications). The
  two-party conversation filter and the guards of useChat.
- **`getInitials`** of the profile page. It is modelled as `split(" ")`, first characters,
  `join`, upper-case and `slice(0, 2)`. It is proved equal to an independent definition: the
  word-start characters of the name.

Opaque inputs are parameters. The page location, the user agent and the clock reading are an
`Environment` value. The session identifier is a constructor argument. The sink's outcome is the
boolean passed to `EndFlush`. Fetched rows are `Option` values, `None` standing for an error or
no data.

Modules: `Wrappers` (Option), `Logging` (levels, entries, rows, the `Logger` class),
`LoggerScenarios` (clients that replay the batch-size, filter, retry, overlap and fatal
scenarios of the log pipeline), `RealtimeDeals`,
`Notifications`, `Chat`, `Profile`.

## Model

| member | source | states |
|---|---|---|
| Logging.Rank | src/services/logger.ts:32-38 | the five levels rank 0..4; only debug ranks 0 and only fatal ranks 4 |
| Logging.RankInjective | src/services/logger.ts:32-38 | distinct levels have distinct ranks, so the severity order is total |
| Logging.SeverityOrder | src/services/logger.ts:32-38 | the ranks are strictly increasing: debug < info < warn < error < fatal |
| Logging.Passes | src/services/logger.ts:95 | every pair of level and minimum decided: a level passes exactly the minimums at or below it; fatal always passes, everything passes at debug, debug is dropped above debug, info above info, warn at error and fatal, error at fatal |
| Logging.PassesMonotone | src/services/logger.ts:95 | raising the minimum never admits more entries; fatal always passes; everything passes at debug |
| Logging.PlainEntry | src/services/logger.ts:62-72 | debug/info/warn build an entry with no source and no stack trace |
| Logging.ErrorContext | src/services/logger.ts:78 | the caller's context keys are kept; `errorName` is always present (overriding a caller key), holding the error's name or undefined |
| Logging.ErrorEntry | src/services/logger.ts:74-89 | error/fatal entries carry the merged context and the error's stack, or none without an error |
| Logging.Enrich | src/services/logger.ts:104-110 | the queued entry keeps the caller's entry and adds location and user agent (empty when absent), the session id and the enqueue-time clock |
| Logging.ToRow | src/services/logger.ts:133-143 | rows copy level, message, session, url, agent and time; context defaults to empty; source is never empty and defaults to "frontend"; an empty or missing stack trace becomes null |
| Logging.Rows | src/services/logger.ts:133 | one row per batch entry, in batch order |
| Logging.RowsAppend | src/services/logger.ts:133 | mapping rows distributes over concatenated batches |
| Logging.ApiEntriesUseDefaultSource | src/services/logger.ts:62-92 | entries from the logging API reach the sink with source "frontend"; plain entries have no stack trace; error entries always carry `errorName` |
| Logging.Logger.constructor | src/services/logger.ts:41-52 | a new logger has an empty queue, no timer, no flush running, minimum level info, batch size 10 and a fixed session id |
| Logging.Logger.SetMinLevel | src/services/logger.ts:58-60 | only the minimum level changes |
| Logging.Logger.Log | src/services/logger.ts:94-119 | below the minimum nothing changes; otherwise the enriched entry is appended at the end, then a flush starts when the queue reaches the batch size, else the timer is armed |
| Logging.Logger.Debug | src/services/logger.ts:62-64 | a log call of a debug entry |
| Logging.Logger.Info | src/services/logger.ts:66-68 | a log call of an info entry |
| Logging.Logger.Warn | src/services/logger.ts:70-72 | a log call of a warn entry |
| Logging.Logger.Error | src/services/logger.ts:74-81 | a log call of an error entry with the merged context |
| Logging.Logger.Fatal | src/services/logger.ts:83-92 | the fatal entry always passes and is accepted; the timer ends disarmed; unless a flush is already waiting for the sink, one flush starts on the queue with the entry appended, taking its first batchSize entries, which include the fatal entry when the queue fits in one batch |
| Logging.Logger.BeginFlush | src/services/logger.ts:121-145 | the timer is always disarmed; with an empty queue or a flush running nothing else changes; otherwise the first min(batchSize, queue length) entries become the batch, the flag is set and their rows go to the sink; nothing pending is lost |
| Logging.Logger.EndFlush | src/services/logger.ts:145-162 | on failure the queue is the batch followed by the entries queued meanwhile; on success the batch is delivered and gone; the flag is cleared and the timer is armed exactly when the queue is non-empty |
| LoggerScenarios.FullBatch | src/services/logger.ts:112-130 | nine info entries queue with no sink call; the tenth starts one flush with ten rows and empties the queue |
| LoggerScenarios.FilteredBelowWarn | src/services/logger.ts:94-95 | with the minimum at warn, debug and info calls queue and send nothing |
| LoggerScenarios.RetryAfterFailure | src/services/logger.ts:147-162 | after a failed flush of three error entries, the next flush sends the same three rows, and success empties the queue |
| LoggerScenarios.OverlappingFlushes | src/services/logger.ts:127-129 | a flush requested while one waits for the sink issues no second sink call |
| LoggerScenarios.FatalSendsAtOnce | src/services/logger.ts:83-92 | a single fatal call sends its one row at once, with level fatal and source "frontend" |
| RealtimeDeals.Insert | src/hooks/useRealtimeDeals.ts:31 | INSERT grows the list by one, keeps the prefix and puts the new deal last |
| RealtimeDeals.Replace | src/hooks/useRealtimeDeals.ts:33-35 | UPDATE keeps the length; every deal with the new row's id becomes the new row, every other deal is unchanged |
| RealtimeDeals.Remove | src/hooks/useRealtimeDeals.ts:37 | DELETE removes exactly the deals with the old id (length drops by their count), keeps every other deal and their relative order |
| RealtimeDeals.Apply | src/hooks/useRealtimeDeals.ts:29-39 | INSERT appends; UPDATE keeps the length, turns every deal with the new row's id into the new row and keeps the others (identity for an absent id); DELETE keeps exactly the deals without the old id, in their order, dropping as many as carried it (identity for an absent id); any other event type leaves the list unchanged |
| RealtimeDeals.ReplaceAbsent | src/hooks/useRealtimeDeals.ts:34 | UPDATE of an id not in the list leaves it identical |
| RealtimeDeals.RemoveAbsent | src/hooks/useRealtimeDeals.ts:37 | DELETE of an id not in the list leaves it identical |
| RealtimeDeals.ReplaceIdempotent | src/hooks/useRealtimeDeals.ts:33-35 | applying the same UPDATE twice equals applying it once |
| RealtimeDeals.ReplaceKeepsIds | src/hooks/useRealtimeDeals.ts:34 | UPDATE keeps the id at every position |
| RealtimeDeals.RemoveAfterInsert | src/hooks/useRealtimeDeals.ts:31-37 | deleting a just-inserted deal's id equals deleting it from the list before the insert |
| RealtimeDeals.RemoveAfterReplace | src/hooks/useRealtimeDeals.ts:33-37 | DELETE after UPDATE of the same id equals the DELETE alone |
| RealtimeDeals.RemoveRemovesAll | src/hooks/useRealtimeDeals.ts:37 | after DELETE no deal carries the old id |
| Notifications.Unread | src/hooks/useNotifications.ts:32 | the unread number is at most the list length and is 0 exactly when every notification is read |
| Notifications.Fetched | src/hooks/useNotifications.ts:21-34 | without a user or data nothing changes; otherwise the fetched rows become the list and the counter equals their unread number |
| Notifications.Received | src/hooks/useNotifications.ts:52-54 | a realtime insert puts the notification first and raises the counter by one |
| Notifications.MarkRead | src/hooks/useNotifications.ts:66-68 | entries with the id become read, all others and the length are unchanged |
| Notifications.MarkAsRead | src/hooks/useNotifications.ts:64-70 | the matching entries become read, the others are unchanged, and the counter drops by one but never below 0 |
| Notifications.MarkAll | src/hooks/useNotifications.ts:79 | every entry becomes read, length and order kept |
| Notifications.MarkAllAsRead | src/hooks/useNotifications.ts:72-81 | without a user nothing changes; otherwise each entry keeps its position and other fields and becomes read, no entry is unread and the counter is 0 |
| Notifications.InitialConsistent | src/hooks/useNotifications.ts:18-19 | the hook starts with an empty list and a counter of 0, which agree |
| Notifications.MarkAllAsReadIdempotent | src/hooks/useNotifications.ts:79-80 | marking all read twice equals once |
| Notifications.MarkAllAsReadConsistent | src/hooks/useNotifications.ts:79-80 | after marking all read the counter equals the unread number |
| Notifications.ReceivedConsistent | src/hooks/useNotifications.ts:53-54 | inserting an unread notification keeps the counter equal to the unread number |
| Notifications.ReceivedReadOvercounts | src/hooks/useNotifications.ts:53-54 | inserting an already-read notification leaves the counter one above the unread number |
| Notifications.MarkReadAbsent | src/hooks/useNotifications.ts:67 | marking an absent id read leaves the list identical |
| Notifications.MarkReadOneUnread | src/hooks/useNotifications.ts:66-68 | with unique ids, marking an unread entry's id read lowers the unread number by exactly one |
| Notifications.MarkAsReadConsistent | src/hooks/useNotifications.ts:64-70 | markAsRead on an unread entry, as the bell calls it, keeps the counter equal to the unread number |
| Chat.Ready | src/hooks/useChat.ts:20 | the early-return guard on a missing user or recipient: ready only with a user and a recipient, and an empty recipient string counts as none |
| Chat.InConversation | src/hooks/useChat.ts:46-49 | a message from user to recipient or from recipient to user is accepted; an accepted message has only the user and the recipient as sender and recipient, and between two distinct parties its sender differs from its recipient |
| Chat.NotReadyStaysLoading | src/hooks/useChat.ts:17-20 | without a user or recipient the hook keeps its initial state: no messages and still loading |
| Chat.Incoming | src/hooks/useChat.ts:44-52 | a message between user and recipient is appended at the end, earlier messages kept; any other message leaves the list unchanged |
| Chat.FetchMessages | src/hooks/useChat.ts:19-32 | without user or recipient nothing changes; otherwise loading ends and fetched rows, if any, replace the list |
| Chat.SendMessage | src/hooks/useChat.ts:61-68 | an insert is issued exactly when user and recipient are present, carrying the user as sender, the recipient and the content |
| Chat.InConversationSymmetric | src/hooks/useChat.ts:47-48 | acceptance does not change when sender and recipient are swapped, or when user and recipient are swapped |
| Chat.SentMessageIsAccepted | src/hooks/useChat.ts:47-50 | a message sent through sendMessage, echoed back by the channel, is appended to the conversation |
| Chat.ForeignMessagesIgnored | src/hooks/useChat.ts:46-51 | any run of messages of other conversations leaves the list unchanged |
| Chat.IncomingAllExtends | src/hooks/useChat.ts:50 | a run of arrivals only extends the list; earlier messages keep their positions |
| Profile.Split | src/pages/ProfilePage.tsx:167 | `split(" ")` yields at least one segment, no segment contains a space, and the first segment is empty exactly when the name is empty or starts with a space |
| Profile.Join | src/pages/ProfilePage.tsx:167 | the joining with a separator that undoes `split(" ")` (used by JoinSplit); its result starts with the first segment and is at least as long as the number of separators it places |
| Profile.Heads | src/pages/ProfilePage.tsx:167 | `map(n => n[0]).join("")` gives at most one character per segment, and is empty exactly when every segment is empty |
| Profile.UpperChar | src/pages/ProfilePage.tsx:167 | `toUpperCase` on one character: a-z map to A-Z, every other character is kept |
| Profile.Take2 | src/pages/ProfilePage.tsx:167 | `slice(0, 2)` gives a prefix of at most two characters, exactly two when the input has two or more, the whole input otherwise |
| Profile.Upper | src/pages/ProfilePage.tsx:167 | upper-casing keeps the length and maps each character |
| Profile.GetInitials | src/pages/ProfilePage.tsx:165-168 | null or empty name gives "U"; the result never exceeds two characters |
| Profile.JoinSplit | src/pages/ProfilePage.tsx:167 | joining the segments with a space gives the name back |
| Profile.HeadsSplit | src/pages/ProfilePage.tsx:167 | the first characters of the segments are exactly the name's word starts |
| Profile.InitialsAreWordStarts | src/pages/ProfilePage.tsx:167 | for a non-empty name, the initials are the first two word starts, upper-cased |
| Profile.DoubledSpaceIgnored | src/pages/ProfilePage.tsx:167 | doubling a space never changes the word starts |
| Profile.EmptySegmentsIgnored | src/pages/ProfilePage.tsx:167 | consecutive spaces give the same initials as one space |
| Profile.OnlySpacesYieldEmpty | src/pages/ProfilePage.tsx:166-167 | a name of spaces only is not empty, so it gives the empty string rather than "U" |
| Profile.TwoWordName | src/pages/ProfilePage.tsx:167 | "al bo" gives "AB" |

## Left out

- Console mirroring (src/services/logger.ts:97-102, 148, 153) is output only; it changes no state.
- The window `error`, `unhandledrejection` and `beforeunload` listeners (src/services/logger.ts:165-189) are not modelled as methods. They call `error(...)` and `flush()`, which are modelled as `Logger.Error` and `Logger.BeginFlush`.
- Timers: `flushTimerArmed` stands for the timer handle, and the 5000 ms `flushInterval` is not modelled. When a timer fires it calls `flush()`, which is `BeginFlush`.
- Logging.Logger.EndFlush: the re-arm at src/services/logger.ts:161 overwrites a handle that a log call may have set during the flush, leaving a second live timer. One flag cannot represent this. The extra timer only triggers another `flush()`, and that call's guard handles it.
- Session-id generation from `Date.now()` and `Math.random()` is a constructor argument. `window.location`, `navigator.userAgent` and `new Date().toISOString()` are an `Environment` argument.
- The sink (`app_logs` insert) is the boolean outcome of `EndFlush`. A batch is assumed to be written entirely or not at all. Error results and thrown exceptions are the same outcome, as in the source.
- Context values are a tagged union: null, boolean, number (as a real), string and undefined. JSON serialisation, including the dropping of undefined values, is the sink's business.
- Backend queries, updates, inserts, channel subscription and removal in the hooks are not modelled. Their results enter the model as parameters. Ordering and the 50-row limit of the notification query happen at the backend.
- Profile.UpperChar: models `toUpperCase` for the ASCII letters a-z only.
- Profile.Upper: models `toUpperCase` for ASCII a-z only. Full Unicode case mapping is not modelled, including mappings that change length.
- Strings are sequences of characters. JavaScript's UTF-16 code units (`n[0]`, `slice`) are not modelled separately.
- Numbers in `Deal` are reals. JavaScript floating point is not modelled.
- React rendering and the loading flags other than useChat's are not modelled. The rest of the repository (pages, components, the deals HTTP function, the auth and deals services, the logs hooks) is UI or backend I/O.
