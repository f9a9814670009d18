# msgraph-cli, modelled in Dafny

msgraph-cli is a terminal front end to Microsoft Graph. It has a tview
interface with a menu, an output panel, an input field and a "Webhook
Events" panel. It also runs an HTTP server that receives Graph change
notifications. This project models the program's own logic around the
Graph SDK, the widgets and `net/http`:

- the `.env` pretty-printer;
- the two `/webhook` handlers: the server's, which queues messages on a
  channel, and the application's, which writes straight to the panel;
- the batcher that moves queued webhook messages into the panel every tick;
- the focus and scroll rules of the interface;
- the input field's Enter handling and the delete-event flow;
- the event dispatcher;
- the subscription listings, the user listing and the room-booking
  listing;
- the room subscription that gets created;
- `GetPort`;
- the room cache's freshness test.

Every text view (and standard output) is an `Io.Buffer`. Its `chunks` are
the strings written to it, one per `fmt.Fprintf` call, and `row` is its
scroll offset. The webhook channel is an `Io.Channel`: a sequence of
queued strings. Anything the program gets from outside is a parameter. That
covers:

- the clock reading (`"15:04:05"`);
- the current time, in nanoseconds;
- the environment, as a map;
- the `.env` file's contents or read error;
- the Graph SDK's answers, as values or as functions of the request sent;
- the local-time conversion;
- the length of a view's text once its colour tags are removed.

Files and modules:

| file | module | models |
|---|---|---|
| wrappers.dfy | Wrappers | `Option` and `Result` |
| strings.dfy | Strings | `strings.TrimSpace`, `SplitN(_, _, 2)`, `Split`, `Join`, `HasPrefix`; `%d` and `%t` |
| io.dfy | Io | text views, the channel, and how a call ends (`return`, `log.Fatal`, `log.Panicf`) |
| http.dfy | Http | request, body, `url.Values.Get`, `ResponseWriter`, `http.Error` |
| environment.dfy | Environment | environment.go |
| httpserver.dfy | HttpServer | httpserver.go |
| webhook.dfy | Webhook | webhook..go |
| cli.dfy | Cli | msgraph-cli.go |
| subscription.dfy | Subscription | subscription.go |
| graphhelper.dfy | Graph | graphhelper/graphhelper.go |

Some details of the code that are easy to misread, and that the model
keeps as written:

- `http.Error` ends the response body with a newline, so a refused request
  gets `"Method not allowed\n"` (httpserver.go:24, webhook..go:12).
- `GetPort`'s log message mentions a default port that the code never
  returns: `log.Fatal` ends the process before the fallback assignment
  (graphhelper/graphhelper.go:62-65).
- `ListUsers` prints `Enabled` and `IsResourceAccount` with `%v` of a
  `*bool`, which is a pointer's text rather than true/false
  (graphhelper/graphhelper.go:197-198).
- The Alt shortcuts fire only when Alt is the only modifier held: the
  modifier mask is compared with `==` (msgraph-cli.go:281).
- `appendToWebhookOutput` subtracts the panel height from the length of the
  text in bytes, not from its number of lines (msgraph-cli.go:361-362).

## Model

| member | source | states |
|---|---|---|
| Environment.FormatLine | environment.go:25-39 | The text one raw line produces: nothing for a blank line, otherwise its entry. `BlankLineDropped` and `FormattedIsOneLine` are about it. |
| Environment.FormatEntry | environment.go:29-39 | The three formats of a trimmed line: comment, key=value pair, plain line. `CommentKeptVerbatim`, `PairSplitAtFirstEquals`, `PlainLineEchoed` and `EntryIsOneLine` are about it. |
| Environment.NonBlank | environment.go:24-28 | The lines the loop does not skip. `NonBlankAppend` proves the filter keeps file order and handles each line on its own. `NonBlankFrom` and `NonBlankKeeps` prove that the kept lines are the file's non-blank lines, in both directions. |
| Environment.FormatLines | environment.go:23-41 | The loop's writes. `FormatLinesFollowNonBlank` proves they are one per non-blank line, in order. |
| Environment.EnvWrites | environment.go:13-41 | What the panel holds after handleEnv: the header, then the read error or the formatted lines. `HandleEnv` is proved equal to it; `EnvReport` characterises it. |
| Environment.HandleEnv | environment.go:9-42 | The panel is cleared and then holds the header followed by either the single red read-error line or the formatted non-blank lines of the file. The scroll offset is kept. |
| Environment.WriteLines | environment.go:23-41 | The loop appends, in order, the formatting of each line that is not blank after trimming, and skips the blank ones. |
| Environment.BlankLineDropped | environment.go:25-28 | A line produces no output exactly when it is all white space (in `unicode.IsSpace`'s sense). |
| Environment.CommentKeptVerbatim | environment.go:29-30 | A line that trims to `#` plus text is written verbatim between `[darkgray]` and `[white]`, even when it contains `=`. |
| Environment.PairSplitAtFirstEquals | environment.go:32-36 | A non-comment line is split at its first `=`, so the value keeps any later `=`. Key and value are each trimmed and written as `[yellow]KEY[white]=[white]VALUE`. |
| Environment.PlainLineEchoed | environment.go:37-38 | A non-comment line without `=` is written as the trimmed line. |
| Environment.FormattedIsOneLine | environment.go:29-39 | A line without a newline is written as exactly one output line: it ends in one newline and has none inside. |
| Environment.EntryIsOneLine | environment.go:29-39 | Each of the three formats ends in one newline and adds none inside. |
| Environment.FormatLinesFollowNonBlank | environment.go:23-41 | The k-th write is the formatting of the k-th non-blank line, and there are as many writes as non-blank lines. |
| Environment.EnvReport | environment.go:13-14 | After a successful read the panel holds the header and then exactly one single-line write per non-blank line of the file, in file order. |
| Environment.NonBlankAppend | environment.go:23-28 | Filtering a file split in two gives the first part's kept lines followed by the second part's. So every non-blank line is kept once, in file order. |
| Environment.NonBlankFrom | environment.go:24-28 | Each line that is formatted is one of the file's lines and is not blank. |
| Environment.NonBlankKeeps | environment.go:24-28 | Every non-blank line of the file is formatted. Together with `NonBlankFrom`, the formatted lines are exactly the non-blank ones. |
| Environment.NonBlankWritesOneLine | environment.go:23-39 | When no line contains a newline, as after the split, each kept line is written as exactly one output line. |
| Strings.TrimSpaceShape | environment.go:25 | `strings.TrimSpace` returns a slice of its input with no white space at either end, and only white space is cut off each end. |
| Strings.TrimSpaceEmpty | environment.go:26 | A line trims to the empty string exactly when it is all white space. |
| Strings.TrimSpaceOf | environment.go:25 | White space, a trimmed middle, white space: this trims to the middle. |
| Strings.TrimSpaceIdempotent | environment.go:34-35 | Trimming an already trimmed key or value changes nothing. |
| Strings.SplitTwoAt | environment.go:32 | `SplitN(line, "=", 2)` splits at the first `=`: a key without `=` and any value. |
| Strings.Split | environment.go:23 | `strings.Split` on a newline gives at least one piece, none with a newline, and the pieces join back to the text. |
| Strings.SplitJoin | environment.go:23 | Newline-free pieces are recovered by splitting their join. |
| Strings.ParseNatToString | subscription.go:41 | The decimal text that `%d` prints reads back as the number. |
| HttpServer.Classify | httpserver.go:20-52 | The server handler's decision table: the status, the body, the queued message and whether the body is read, for each verb, token and body outcome. `HandleWebhook` is proved equal to it. `NonPostRefused`, `ValidationEchoed`, `ReadFailureRefused`, `EmptyTokenIsAbsent`, `StatusOkIff` and `NotificationQueued` state its properties. |
| HttpServer.StartMessage | httpserver.go:57-58 | The start-up message. `StartAnnouncesAddress` proves it carries the address. |
| HttpServer.HandleWebhook | httpserver.go:20-52 | The status and body sent, and the one message queued, are those `Classify` gives. Only a POST without a token reads the body. |
| HttpServer.NonPostRefused | httpserver.go:21-26 | A non-POST request gets 405 whatever its query and body, and its body is not read. |
| HttpServer.ValidationEchoed | httpserver.go:29-36 | A POST with a non-empty `validationToken` gets 200 with exactly the token as the body, whatever the body holds, and the body is never read. |
| HttpServer.EmptyTokenIsAbsent | httpserver.go:29-30 | An empty `validationToken` parameter is treated as if the parameter were absent. |
| HttpServer.ReadFailureRefused | httpserver.go:38-45 | A POST without a token whose body cannot be read gets 500, and the read error is queued for the panel. |
| HttpServer.StatusOkIff | httpserver.go:21-51 | The status is 200 exactly for a POST that carries a token or whose body could be read; otherwise it is 405 or 500. |
| HttpServer.NotificationQueued | httpserver.go:47-51 | A notification is answered "Notification received", and its body reaches the queued message verbatim. |
| HttpServer.StartAnnouncesAddress | httpserver.go:57-58 | The start-up message names exactly the listen address. |
| HttpServer.Start | httpserver.go:54-60 | The listen address is `GetPort`'s. A fatal `GetPort` queues nothing. Otherwise one start-up message naming the address is queued. |
| Webhook.Classify | webhook..go:10-34 | The application handler's decision table, which reads the body before looking at the token. `HandleWebhook` is proved equal to it. `AppendedIff` and `HandlersAgreeExceptUnreadableValidation` state its properties. |
| Webhook.HandleWebhook | webhook..go:10-34 | The status and body follow `Classify`. Any POST reads its body. The panel gets exactly the appended text with the append's scroll, or is left untouched. The main output panel is never touched. |
| Webhook.AppendedIff | webhook..go:11-33 | The panel is written exactly for a POST whose body was read, and that is exactly when the status is 200. A notification shows its body verbatim. |
| Webhook.HandlersAgreeExceptUnreadableValidation | webhook..go:16-28 | The two handlers send different responses exactly for a POST with a token whose body cannot be read. In that case the server answers 200 with the token, and this handler answers 500. |
| Cli.LayoutCapture | msgraph-cli.go:279-304 | The layout's key capture: the focus afterwards and the key passed on, if any. `CaptureConsumes`, `AltShortcutFocus` and `EscToggles` state its properties. `KeyPress` follows it. |
| Cli.ScrollRow | msgraph-cli.go:307-327 | A panel's offset after PgDn or PgUp reaches it. `ScrollRoundTrip` is about it. |
| Cli.PanelRow | msgraph-cli.go:307-327 | The offset of one panel after a key press: only the focused panel scrolls, and only by a passed key. |
| Cli.ScrollAfterAppend | msgraph-cli.go:361-366 | The webhook panel's offset after an append. `ScrollAfterAppendBounds` is about it. |
| Cli.InputEcho | msgraph-cli.go:375 | The echo of the entered text. `InputEchoRoundTrip` proves it shows the text verbatim. |
| Cli.DeletePrompt | msgraph-cli.go:125-126 | The two prompt lines of the delete flow. `DeletePromptNamesMailbox` is about it. |
| Cli.AttemptLine | msgraph-cli.go:136 | The line written before a delete call. |
| Cli.DeleteErrorReport | msgraph-cli.go:141 | The delete handler's line for the returned error. |
| Cli.DeleteWrites | msgraph-cli.go:136-142 | What the delete handler writes for a non-empty id, given the service's answer. `DeleteFailureReported` is about it. `ConfirmDelete` and `InputDone` are proved to write it. |
| Cli.HandleEvent | msgraph-cli.go:43-52 | The call the dispatcher makes, or its unknown-action error. `HandleEventDispatch` is about it. |
| Cli.Messages | msgraph-cli.go:385-386 | The texts of the messages among the updates, in order. It is the reference that `BatchConservation` compares the batcher against. |
| Cli.Flushes | msgraph-cli.go:387-390 | The text written for each flushed window: its messages joined with "\n". There is one per window. |
| Cli.FlushedRow | msgraph-cli.go:379-394 | The webhook panel's offset after the flushes, each append scrolling as `ScrollAfterAppend` says. `ProcessWebhookUpdates` ends at it. |
| Cli.App.constructor | msgraph-cli.go:76-92 | A new application has two distinct, empty text views, the menu focused (line 273) and the default Enter handler installed (lines 196-202). It therefore meets `Valid()`, which the key and webhook handlers require. |
| Cli.CaptureConsumes | msgraph-cli.go:279-304 | The layout consumes a key exactly when it is Alt (alone) with o, m or w. Every other key is passed on unchanged. |
| Cli.AltShortcutFocus | msgraph-cli.go:281-294 | Alt-o, Alt-m and Alt-w focus the output, the menu and the webhook panel from anywhere. With any other modifier set, the key is not a shortcut. |
| Cli.EscToggles | msgraph-cli.go:296-302 | Esc moves the focus to the output exactly when the menu has it, and otherwise to the menu. Two presses from the menu return to it. |
| Cli.ScrollRoundTrip | msgraph-cli.go:307-327 | PgDn moves a panel 10 rows down and PgUp 10 rows up, so each undoes the other. Other keys do not scroll. |
| Cli.ScrollAfterAppendBounds | msgraph-cli.go:361-366 | After an append the webhook panel scrolls to text length minus height when that is positive, and otherwise keeps its offset. |
| Cli.App.KeyPress | msgraph-cli.go:279-327 | A key press sets the focus as the layout capture says. Only the focused panel scrolls, and only by a key that was passed on. The capture handlers change no text and leave the input field and its handler alone. |
| Cli.App.AppendToWebhookOutput | msgraph-cli.go:354-368 | The text is appended to the webhook panel, which then scrolls by the length-minus-height rule. The main output panel is left alone. |
| Cli.InputEchoRoundTrip | msgraph-cli.go:375 | The echo of the input shows the entered text verbatim. |
| Cli.App.HandleInput | msgraph-cli.go:370-377 | The output is cleared and holds only the echo of the input. The menu gets the focus. |
| Cli.App.HandleDeleteEvent | msgraph-cli.go:120-156 | The output holds the two-line prompt. The delete handler for that mailbox is installed and the input field focused. |
| Cli.DeletePromptNamesMailbox | msgraph-cli.go:126 | The prompt names the mailbox whose event will be deleted. |
| Cli.App.InputDone | msgraph-cli.go:129-155 | Only Enter acts. The default handler echoes and clears the text. The delete handler with an empty id writes one error line, makes no delete call and keeps its state. With an id, it deletes exactly (mailbox, id), reports the outcome, clears the text, restores the default handler and focuses the menu. |
| Cli.App.ConfirmDelete | msgraph-cli.go:136-152 | For a non-empty id: one delete call on (mailbox, id), the attempt line and the outcome's lines, then the reset. |
| Cli.DeleteFailureReported | msgraph-cli.go:139-142 | A failed delete writes three lines: the attempt, `DeleteEvent`'s own line, and the handler's line around the wrapped error. A successful delete writes one line. |
| Cli.HandleEventDispatch | msgraph-cli.go:43-52 | Exactly "create" and "delete" dispatch, to `CreateEvent` and `DeleteEvent` respectively, on the given mailbox and the first parameter. Any other action is the error "unknown action: " followed by the action. |
| Cli.Batch | msgraph-cli.go:379-394 | Every flushed window is non-empty. |
| Cli.BatchConservation | msgraph-cli.go:379-394 | The flushed windows followed by the pending list are exactly the received messages in arrival order: none lost, duplicated or reordered. |
| Cli.MessageStep | msgraph-cli.go:385-386 | A message joins the tail of the pending list and flushes nothing. |
| Cli.TickFlushes | msgraph-cli.go:387-390 | After a tick nothing is pending. A tick with nothing pending changes nothing. Otherwise the pending list becomes one new window. |
| Cli.MessagesPend | msgraph-cli.go:385-386 | Messages arriving between ticks are added to the pending list in order, with no write. |
| Cli.OneWindowPerInterval | msgraph-cli.go:387-390 | The messages of one tick interval become exactly one write: the messages joined with "\n". |
| Cli.App.ProcessWebhookUpdates | msgraph-cli.go:379-394 | Over a finite run of updates, the panel receives one joined write per flushed window, in order. What remains pending is what `Batch` says. The panel's offset is the result of one length-minus-height scroll per flush, measured on the text written so far (`FlushedRow`). The main output panel is left alone. |
| Subscription.PanelBlock | subscription.go:43-47 | The five lines of one subscription in the panel. |
| Subscription.PanelBlocks | subscription.go:42-48 | The blocks of all subscriptions, in order. `PanelBlockAt` places each one. |
| Subscription.FoundLine | subscription.go:41 | The count line. `FoundLineCount` proves its number reads back. |
| Subscription.PanelWrites | subscription.go:16-48 | Everything the panel holds for each outcome of the call. `HandleListSubscriptions` is proved equal to it. `ListingOfSubscriptions`, `ListingShape`, `ListingBlockAt`, `ListingCountLine` and `EmptyOutcomesDistinct` are about it. |
| Subscription.ConsoleBlock | subscription.go:65-77 | The nine console lines of one subscription. `AdditionalDataLength` is about it. |
| Subscription.ConsoleBlocks | subscription.go:64-79 | The console blocks of all subscriptions, in order. `ConsoleBlockAt` places each one. |
| Subscription.HandleListSubscriptions | subscription.go:12-49 | The output is cleared and holds exactly `PanelWrites`. That is the header, then the error line, one of the three "none" lines, or the count line and one block per subscription. |
| Subscription.PanelBlockAt | subscription.go:42-48 | The k-th subscription's block is the k-th run of five writes: id, change type, RFC 3339 expiration, resource, notification URL. |
| Subscription.ListingOfSubscriptions | subscription.go:41-48 | A non-empty list of n gives the header, then a count line whose number reads back as n, then the blocks in list order. |
| Subscription.ListingShape | subscription.go:16-48 | A non-empty list is written as exactly the header, the count line and the five-line blocks. |
| Subscription.ListingBlockAt | subscription.go:42-48 | In a non-empty listing of n, there are 2 + 5n writes, and the k-th subscription's block starts at write 2 + 5k. |
| Subscription.ListingCountLine | subscription.go:41 | The second write of a non-empty listing shows the number of subscriptions in decimal, and that text reads back as the number. |
| Subscription.FoundLineCount | subscription.go:41 | The count line for n carries n's decimal text, which reads back as n. |
| Subscription.EmptyOutcomesDistinct | subscription.go:20-39 | Exactly the outcomes without subscriptions write two lines: the header and one message, with no count. The three "none" messages all differ. |
| Subscription.ListSubscriptions | subscription.go:51-80 | A call error panics with nothing printed. A nil response prints "No subscriptions found". A nil value list prints nothing. Otherwise one nine-line block per subscription is printed in order. |
| Subscription.ConsoleBlockAt | subscription.go:64-78 | The k-th subscription's console block is the k-th run of nine lines. |
| Subscription.AdditionalDataLength | subscription.go:71 | The additional-data line shows the map's size in decimal, which reads back as the size. |
| Graph.GetPort | graphhelper/graphhelper.go:60-67 | `GetPort` returns an address or ends the process with `log.Fatal`; it never panics. |
| Graph.GetPortAddress | graphhelper/graphhelper.go:60-67 | An address is returned exactly when PORT is non-empty, and it is ":" followed by PORT. Otherwise the fatal message is the one in the source. |
| Graph.GetPortNoDefault | graphhelper/graphhelper.go:62-66 | ":8080" comes out only when PORT is "8080"; an unset PORT is always fatal. |
| Graph.GetNotificationUrl | graphhelper/graphhelper.go:98-106 | ENDPOINT is returned exactly when it is non-empty; otherwise the process ends with the source's fatal message. |
| Graph.MailText | graphhelper/graphhelper.go:191-196 | The mail shown for a user, with "NO EMAIL" for a nil mail. `EmailLine` is about it. |
| Graph.UserBlock | graphhelper/graphhelper.go:189-199 | The six lines of one user. |
| Graph.UserBlocks | graphhelper/graphhelper.go:188-200 | The blocks of all users, in order. `UserBlockAt` places each one. |
| Graph.MoreUsersLines | graphhelper/graphhelper.go:206-208 | The closing lines of the user listing. |
| Graph.UsersWrites | graphhelper/graphhelper.go:188-208 | Everything ListUsers writes for a page. `ListUsers` is proved to write it. `MoreUsersFlag` is about it. |
| Graph.ListUsers | graphhelper/graphhelper.go:181-209 | A failed call panics before anything is written. Otherwise the writer gets one six-line block per user in order, then the "More users available?" lines. |
| Graph.UserBlockAt | graphhelper/graphhelper.go:188-200 | The k-th user's block is the k-th run of six writes. |
| Graph.EmailLine | graphhelper/graphhelper.go:191-196 | A user without mail is shown as "NO EMAIL"; a user with mail is shown by that address. |
| Graph.MoreUsersFlag | graphhelper/graphhelper.go:204-207 | "More users available?" says true exactly when the page has a next link. |
| Graph.BookingWindow | graphhelper/graphhelper.go:260-263 | The calendar view asked for is the room's, from now to exactly seven days later. |
| Graph.OrganiserGreenOnlyWhenTrue | graphhelper/graphhelper.go:306-310 | isOrganiser is tagged green exactly when it is present and true, and red otherwise. |
| Graph.OrganiserLineAsWritten | graphhelper/graphhelper.go:306-310 | As written, the isOrganiser line panics exactly when the flag is nil, even though the nil check sends nil to the red branch. |
| Graph.OrganiserLine | graphhelper/graphhelper.go:306-310 | As intended, the line reads green true exactly when the flag is present and true. Otherwise it is red. |
| Graph.OrganiserLineRepairsNil | graphhelper/graphhelper.go:306-310 | The corrected line matches the source's for every present flag. For the nil flag, where the source panics, it shows a red false. |
| Graph.OrganiserColour | graphhelper/graphhelper.go:306-310 | The colour tag chosen for isOrganiser. `OrganiserGreenOnlyWhenTrue` is about it. |
| Graph.EventDetails | graphhelper/graphhelper.go:303-313 | The last six lines of an event's block, once both local times are known. |
| Graph.EventBlock | graphhelper/graphhelper.go:284-313 | The block for one event, cut short by a failed conversion. `ConversionFailureEndsBlock` is about it. |
| Graph.EventBlocks | graphhelper/graphhelper.go:283-314 | The blocks of all events, in order. `EventBlocksInOrder` is about it. |
| Graph.BookingWrites | graphhelper/graphhelper.go:276-314 | Everything the bookings listing writes: the failure line or the event blocks. `ListRoom7DaysBookings` is proved to write it. |
| Graph.ListRoom7DaysBookings | graphhelper/graphhelper.go:260-315 | The writer gets the blocks of the events the service returns for the seven-day window, in order, or the one "Failed to get calendar view" line. |
| Graph.ConversionFailureEndsBlock | graphhelper/graphhelper.go:291-302 | A failed conversion of the start ends the event's block after 4 lines with the error line. A failed conversion of the end ends it after 5. A full block has 10. |
| Graph.EventBlocksInOrder | graphhelper/graphhelper.go:285-314 | The blocks of the first k events are a prefix of the whole output. |
| Graph.EventsResource | graphhelper/graphhelper.go:347 | The subscription resource for a room. `EventsResourceRoundTrip` and `EventsResourceInjective` are about it. |
| Graph.ResourceUser | graphhelper/graphhelper.go:347 | The room an events resource names: its inverse. |
| Graph.EventsResourceRoundTrip | graphhelper/graphhelper.go:344-346 | The subscription resource "/users/<room>/events" names the room it was built for. |
| Graph.EventsResourceInjective | graphhelper/graphhelper.go:344-346 | Different rooms get different resources. |
| Graph.RoomSubscription | graphhelper/graphhelper.go:337-358 | The subscription has change type "created,updated,deleted", the given notification URL, a resource naming the room, and an expiration 24 hours after now. |
| Graph.CreateRoomSubscription | graphhelper/graphhelper.go:334-375 | Without ENDPOINT the process ends before the post, with nothing written. Otherwise the room's subscription is posted. A rejection is written with no newline and returned wrapped. Success writes nothing. |
| Graph.DeleteFailureLine | graphhelper/graphhelper.go:411 | The red line written when a delete is rejected. |
| Graph.DeleteFailureError | graphhelper/graphhelper.go:412 | The wrapped error returned then. `DeleteFailureCarriesMessage` is about both. |
| Graph.DeleteEvent | graphhelper/graphhelper.go:403-415 | The service is asked to delete (user, event). On rejection one red line is written and the wrapped error returned. On success nothing is written. |
| Graph.DeleteFailureCarriesMessage | graphhelper/graphhelper.go:410-412 | Both the red line and the returned error carry the service's message unchanged. |
| Graph.GraphHelper.GetRoom | graphhelper/graphhelper.go:777-820 | A room is returned exactly when the email is cached and the cache is under five minutes old. Otherwise (nil, nil) is returned, and the cache is never changed. |

## Left out

- Graph SDK calls, request builders, credentials, tokens, `sync.Pool` and the rate limiter are not modelled. Their answers are parameters.
- tview and tcell widgets, drawing and `QueueUpdateDraw` are not modelled. Neither is the layout built in `setupUI`, beyond the focus and scroll rules, the initial menu focus and the input field's done function.
- `TextView.ScrollTo` clamping and the TextView's own PgUp/PgDn page scrolling are not modelled. The TextView scrolls by a page itself when the layout passes PgUp or PgDn on, and it clamps the offset when it next draws. The model's `row` is the offset the program asks for.
- `TextView.Clear` keeps the scroll offset in the model, because the program never resets it.
- Cli.App.AppendToWebhookOutput: removing the colour tags and measuring the text (`GetText(true)`) is the parameter `visibleLength`. The panel height is the parameter `height`.
- Goroutines, the ticker's timing, the `select` and the mutex are not modelled. Neither is blocking when the channel's 100 slots fill. The batcher runs over a finite sequence of updates.
- Cli.App.ProcessWebhookUpdates: the source loops forever. The model runs over a finite prefix and returns what is still pending.
- `ListenAndServe` and `HandleFunc` are not modelled. `HttpServer.Start` returns the address it would serve on.
- `os.ReadFile`, `os.Getenv`, `log.Fatal` and `log.Panicf` become parameters and `Io.Exit` outcomes.
- Time parsing, RFC 3339 formatting and `ConvertToLocalTime` are not modelled. Times are integers in nanoseconds. The two renderings of a subscription's expiration are given as text. The local-time conversion is a parameter.
- `CreateEvent` and the other event-creation bodies are not modelled. `Cli.HandleEvent` returns which call it dispatches, not that call's result.
- room.go and users.go are not part of this model. They only clear the panel, print a header and delegate.
- Commented-out code is not modelled, including the cache fill in `GetRoom`.
- Nil-pointer dereferences, which panic in the source, are preconditions: `UserPrintable`, `EventPrintable`, `PanelPrintable`, `ConsolePrintable`. The exception is the isOrganiser flag; see Findings. A nil page returned with a nil error also panics in the source, at `users.GetValue()` (graphhelper/graphhelper.go:181-187). The model's `Result<UserPage, string>` parameter always carries a page on success, so that panic is not modelled.
- Graph.ListRoom7DaysBookings: the event blocks use the corrected `OrganiserLine`. For an event with a nil isOrganizer whose start and end both convert, the source panics and the model writes `[red]false`.
- Cli.HandleEvent: a missing first parameter, which panics in the source, is a precondition. The parameters are `seq<string>`, so the panic of the `.(string)` type assertion on a non-string parameter (msgraph-cli.go:46, 48) is not modelled.
- Graph.CreateRoomSubscription: a successful post is taken to return an id. The source dereferences `*result.GetId()` in its log line (graphhelper/graphhelper.go:373), which would panic on a nil id; this is one more nil dereference that the model does not capture. That log line goes to the process log, which is not modelled.
- Environment.HandleEnv: the file's contents are given as a string of characters. What `string(envContents)` does with bytes that are not valid UTF-8 is not modelled.
- Cli.App.KeyPress: only the layout's and the two panels' input captures are modelled. What the focused widget then does with a passed key (typing into the input field, Enter calling the done function, the menu's shortcut runes running their handlers) is not modelled. That is why the texts and the input field are unchanged by a key press in the model.
- The other menu handlers (help, access token, room list, the create handlers) and the console menu of `main` are not modelled. They print fixed text and then delegate to the SDK.

## Findings

| source | as written | input that shows it | evidently intended | confidence | as-written member | corrected member |
|---|---|---|---|---|---|---|
| graphhelper/graphhelper.go:306-307 | A nil or false flag takes the red branch, which then prints the flag through `*event.GetIsOrganizer()`. | A calendar event with isOrganizer unset whose start and end times both convert to local time. The red branch dereferences nil and the listing panics. | A missing flag is shown as `[red]false`, like a false one. | high; not executed | Graph.OrganiserLineAsWritten | Graph.OrganiserLine |

The bookings listing (`Graph.EventDetails`, `Graph.WriteDetails`) uses the corrected line. `Graph.OrganiserLineRepairsNil` shows that it differs from the source only on that input.
