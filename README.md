# go-blueprints chat and socialpoll core, modelled in Dafny

This project models the core of the go-blueprints repository:

- the chat room's broadcast engine (`room.run`, `newRoom` and the acceptor
  `room.ServeHTTP`);
- the per-connection client adapter (`client.read`, `client.write`);
- the `trace` package the room logs to;
- the authentication handlers of the chat (`authHandler`, `MustAuth`,
  `loginHandler`);
- the socialpoll vote counter (the nsq vote handler and `doCount`);
- the Twitter vote matcher (the decode loop of `readFromTwitter` and the
  `track` parameter).

The room's `select` loop becomes a sequential state machine. The caller
picks the next event: a client joins, a client leaves, or a message is
forwarded. Each event is specified by a function on a `RoomState` value:
the members, every client's `send` channel as a bounded mailbox (a queue of
at most `messageBufferSize` = 256 messages and a `closed` flag), and the
log of Trace calls. A `Room` class with the fields of `room` implements the
three arms and the loop. Each method is proved to produce exactly the new
state its specification function gives.

The reference for delivery is `Inbox`: walk the events in order, and a
client is owed exactly the messages forwarded while it is a member.
`FanOut` proves that every run of the room fills each channel with exactly
that.

The client adapter, the acceptor, the tracer, the HTTP handlers and the
counter are methods over classes whose fields the source updates. They
include the socket (its close count), the tracer's writer, the response
writer and the tally. Each is proved against a function that states what
the source promises.

Several things outside the code are inputs to the model:

- the websocket frames and write outcomes;
- the clock;
- the OAuth provider registry;
- the database's update outcomes;
- the tweet stream.

The `message` type is declared in chat/message.go, which is not part of
this model. Its fields are used as chat/client.go:35-38 and
chat/room.go:56 use them: `Message` (here `body`), `Name`, `AvatarURL` and
`When`.

Files:

- `text.dfy`: `strings.Split`, `Join`, `ToLower` and `Contains`.
- `messages.dfy`: messages, client identities, mailboxes.
- `trace.dfy`: the tracer.
- `room.dfy`: the room.
- `client.dfy`: the client's `read` and `write`.
- `acceptor.dfy`: the room's `ServeHTTP`.
- `auth.dfy`: the auth handlers.
- `counter.dfy`: the counter.
- `twittervotes.dfy`: vote matching.

## Model

| member | source | states |
|---|---|---|
| `Text.Split` | chat/auth.go:32 | Splitting always yields at least one piece, and no piece contains the separator |
| `Text.JoinSplit` | socialpoll/twittervotes/twitter.go:61 | Joining the pieces of a split on the same separator gives back the string |
| `Text.SplitJoin` | socialpoll/twittervotes/twitter.go:61 | Joining at least one separator-free element and splitting again gives back the elements |
| `Text.SplitWithoutSeparator` | chat/auth.go:32 | A string without the separator splits into itself alone |
| `Text.SplitAround` | chat/auth.go:32 | One separator between two strings splits into the pieces of the first followed by those of the second |
| `Text.SplitCount` | chat/auth.go:32-35 | There is exactly one more piece than there are separators |
| `Text.ToLower` | socialpoll/twittervotes/twitter.go:85-86 | Lower-casing keeps the length and lower-cases each ASCII letter in place |
| `Text.ToLowerIdempotent` | socialpoll/twittervotes/twitter.go:85-86 | Lower-casing twice is lower-casing once, and no upper-case letter remains |
| `Text.ContainsIffOccurs` | socialpoll/twittervotes/twitter.go:84-87 | Contains is true exactly when the substring occurs at some position |
| `Text.Contains` | socialpoll/twittervotes/twitter.go:84-87 | Contains is never true of a substring longer than the string, and always true of a prefix of it, the empty string included |
| `Text.Join` | socialpoll/twittervotes/twitter.go:61 | The joined string starts with the first element |
| `Text.JoinSeparators` | socialpoll/twittervotes/twitter.go:61 | Joining separator-free elements puts exactly one separator between neighbours: one fewer than there are elements |
| `Trace.Tracer.New` | trace/tracer.go:12-14 | New gives a tracer that prints to the given writer, so it is not nil |
| `Trace.Tracer.Off` | trace/tracer.go:33-35 | Off gives the tracer with no writer |
| `Trace.Tracer.Trace` | trace/tracer.go:21-31 | A printing tracer appends the arguments and exactly one newline to its writer; the silent one changes nothing |
| `Trace.ConcatAppend` | trace/tracer.go:22 | String arguments are printed back to back with no separator |
| `Trace.ConcatSmall` | trace/tracer.go:22 | One argument is printed as it is; two are printed back to back |
| `Trace.PrintedOne` | trace/tracer.go:21-24 | One call prints one line |
| `Trace.PrintedAppend` | trace/tracer.go:21-24 | Later calls only append: the output of two call sequences is the first's output unchanged, then the second's |
| `Trace.PrintedNewlines` | trace/tracer.go:21-24 | n calls with newline-free arguments print exactly n newlines, the last character being one |
| `Trace.TraceAll` | trace/tracer.go:21-24 | A sequence of calls appends the output of each call in call order |
| `Trace.HelloTrace` | trace/tracer_test.go:8-19 | A fresh buffer traced once with "Hello trace package." holds exactly that text and a newline |
| `Trace.SilentTrace` | trace/tracer_test.go:22-28 | A buffer next to an Off tracer stays empty for any sequence of calls |
| `ChatRoom.Joined` | chat/room.go:45-48 | Join adds exactly the new client, whose channel is fresh and empty; other channels are unchanged; one "New client joined" trace is added; the invariant is kept |
| `ChatRoom.Left` | chat/room.go:49-53 | Leave removes exactly that member and closes its still-open channel, keeping its buffered messages; other channels are unchanged; one "Client left" trace is added |
| `ChatRoom.Forwarded` | chat/room.go:54-60 | Forward appends the message to the end of every member's channel and of no other; it adds exactly 1 + number-of-members traces, "Message recieved" with the body first, then " -- send to client" per member |
| `ChatRoom.Received` | chat/client.go:47 | A receive yields the oldest buffered message and removes it; on an empty channel it reports closed or would-block and changes nothing |
| `ChatRoom.Step` | chat/room.go:43-61 | Every iteration keeps the invariant (members' channels open and within capacity) and only appends to the trace |
| `ChatRoom.Run` | chat/room.go:42-63 | Any run keeps the invariant and never alters what was traced before |
| `ChatRoom.StepFor` | chat/room.go:44-60 | One event appends to a client's channel exactly what it owes that client, and changes its membership as the reference says |
| `ChatRoom.FanOut` | chat/room.go:54-60 | After any run, each channel holds its earlier contents followed by exactly the messages forwarded while its client was a member, in order, once each |
| `ChatRoom.DepartedReceivesNothing` | chat/room.go:49-58 | A client that has left never rejoins and its channel never changes again |
| `ChatRoom.LateJoinerMissesEarlier` | chat/room.go:45-58 | Messages forwarded before a client joins are not owed to it |
| `ChatRoom.Membership` | chat/room.go:45-53 | Membership after a run follows only the client's own joins and leaves |
| `ChatRoom.AdmissibleStep` | chat/room.go:57-58 | The first event of an admissible sequence is enabled, and the sequence's contract carries over to the next state |
| `ChatRoom.SentTo` | chat/room.go:57-58 | Sending to a set of clients appends the message to exactly their queues, keeps every other channel as it was and closes or opens none |
| `ChatRoom.AdmissibleRunnable` | chat/room.go:57-58 | Fresh joins, leaves by members only, and forwards that fit the free space of the members' channels make every event of the run enabled, so no send blocks |
| `ChatRoom.PrintedOneMoreSend` | chat/room.go:59 | One more send prints one more " -- send to client" line |
| `ChatRoom.SendToEach` | chat/room.go:57-60 | The send loop pushes the message onto exactly the members' channels, in any order, and traces one line per member |
| `ChatRoom.Room.constructor` | chat/room.go:32-40 | A new room has no members and no channels, and its tracer is Off |
| `ChatRoom.Room.Join` | chat/room.go:45-48 | The join arm moves the room to the Joined state and prints the traces it logs |
| `ChatRoom.Room.Leave` | chat/room.go:49-53 | The leave arm moves the room to the Left state and prints the traces it logs |
| `ChatRoom.Room.Forward` | chat/room.go:54-60 | The forward arm moves the room to the Forwarded state and prints the traces it logs |
| `ChatRoom.Room.Receive` | chat/client.go:47 | A receive on the room's channel of a client behaves as Received |
| `ChatRoom.Room.Handle` | chat/room.go:44-61 | One select iteration performs the Step of the chosen event |
| `ChatRoom.Room.RunEvents` | chat/room.go:42-63 | The loop over a runnable event sequence reaches exactly the Run state, and the writer receives exactly the logged traces |
| `ChatRoom.ScenarioAdmissible` | chat/room.go:42-63 | A joins, B joins, "hi", C joins, "yo", B leaves, "bye" is a sequence the room can take |
| `ChatRoom.ScenarioDelivery` | chat/room.go:54-60 | In that scenario A is owed hi, yo, bye; B hi, yo; C yo, bye |
| `ChatRoom.ScenarioMembers` | chat/room.go:45-53 | After that scenario A and C are members and B is not |
| `ChatRoom.ThreeClientScenario` | chat/room.go:32-63 | Played on a new room, the three-client run leaves "hi", "yo", "bye" in A's channel, "hi", "yo" in B's and "yo", "bye" in C's, with A and C the only members |
| `ChatClient.Stamp` | chat/client.go:35-39 | The body is kept, the time is the reading time, the name always comes from the user data, and the avatar does only when the user data has one |
| `ChatClient.StampIgnoresWireIdentity` | chat/client.go:35-39 | Name and time that came off the wire do not affect the stamped message |
| `ChatClient.StampIdempotent` | chat/client.go:35-39 | Stamping a stamped message again with the same identity and time changes nothing |
| `ChatClient.ReadCount` | chat/client.go:29-34 | read consumes exactly the frames before the first decode error |
| `ChatClient.Forwarded` | chat/client.go:29-41 | read forwards as many messages as it decodes before the first error |
| `ChatClient.ReadStopsAtError` | chat/client.go:29-34 | Frames behind a decode error are never read |
| `ChatClient.LaterFramesIgnored` | chat/client.go:29-41 | Frames behind a decode error never reach the room |
| `ChatClient.Read` | chat/client.go:26-42 | read sends the room exactly the stamped messages decoded before the first error, in decode order, and closes the socket once |
| `ChatClient.FirstFailure` | chat/client.go:47-51 | The writes attempted before the first failure all succeed, and the one at the stop position fails |
| `ChatClient.ReceiveNext` | chat/client.go:47 | Ranging over the send channel yields its oldest queued message and leaves the rest queued; on an empty channel it ends the range if the channel is closed and waits otherwise |
| `ChatClient.Pull` | chat/client.go:47 | One receive by write on a channel holding the suffix of the queue from a given position: it returns the message at that position and advances by one, or reports the drained channel as closed or blocking, and changes no other part of the room |
| `ChatClient.Drain` | chat/client.go:47-51 | The range loop of write attempts the queued messages oldest first and has written exactly those before the first failed write, removes exactly those and the failed one from the channel, and reports why it stopped |
| `ChatClient.Write` | chat/client.go:44-53 | write sends the channel's messages oldest first up to the first failed write and none after; it drains the channel unless a write fails, and then leaves the messages behind the failed one queued; it ends and closes the socket on a write failure or on a closed, drained channel, and otherwise waits |
| `Acceptor.Forwards` | chat/client.go:40 | One forward event per message read, in order |
| `Acceptor.Session` | chat/room.go:92-95 | A session joins first, leaves last, joins and leaves exactly once each, and in between forwards the read messages in order |
| `Acceptor.ForwardsOwed` | chat/room.go:54-60 | A member that stays a member is owed every message forwarded |
| `Acceptor.SessionEcho` | chat/room.go:86-95 | A client alone with its session is owed its own messages, in order |
| `Acceptor.ForwardsAdmissible` | chat/room.go:57-58 | Forwards within the budget keep the senders' contract |
| `Acceptor.SessionAdmissible` | chat/room.go:86-95 | A session of a new client with few enough messages keeps the senders' contract |
| `Acceptor.ServeHTTP` | chat/room.go:75-96 | The acceptor sends join, then one forward per message read, then leave; the socket is closed once by read |
| `Acceptor.SessionAlone` | chat/room.go:86-95 | Alone on a room, a new client's session runs without blocking, leaves exactly its own messages in its channel, and ends with the client out of the room |
| `Acceptor.SessionLeaves` | chat/room.go:92-93 | A session ends with its client out of the room |
| `Acceptor.StaysMember` | chat/room.go:54-60 | Forwards do not change membership |
| `Auth.Error` | chat/auth.go:23 | An error response sets the plain-text headers, writes the code and writes the message with a newline |
| `Auth.FreshResponses` | chat/auth.go:18-23 | On a fresh response an error sends exactly its code and message, and a redirect exactly 307 and its Location |
| `Auth.SentIsFinal` | chat/auth.go:18-19 | Once a status has been written, headers, cookies and later statuses have no effect |
| `Auth.AuthHandler.constructor` | chat/auth.go:28-30 | The gate wraps the given handler |
| `Auth.MustAuth` | chat/auth.go:28-30 | MustAuth returns a new gate around exactly the given handler |
| `Auth.AuthHandler.ServeHTTP` | chat/auth.go:14-27 | Without the cookie: 307 to /login. On another cookie error: 500 with the error text. In both cases the wrapped handler is not called. With the cookie: the wrapped handler is called exactly once and nothing else is written |
| `Auth.ParseAuthPath` | chat/auth.go:32-38 | A path without exactly three slashes (so not four segments) gives an empty action and an empty provider |
| `Auth.ParseAuthPathOf` | chat/auth.go:32-38 | /x/action/provider with slash-free parts gives exactly that action and provider |
| `Auth.UserData` | chat/auth.go:70-73 | The cookie data holds exactly the user's name and avatar URL |
| `Auth.LoginAnswer` | chat/auth.go:31-84 | Other actions are unsupported. A login redirects exactly when the provider is found and yields its URL. A callback signs in exactly when lookup, completion and user fetch all succeed, with cookie "auth" on path "/". An unknown provider is a 400, exactly; other failures are 500 |
| `Auth.Render` | chat/auth.go:43-83 | On a response nothing was sent on yet: a redirect sends 307 and its Location; a failure its code, plain-text headers and the message with a newline; a sign-in the cookie and a 307 to /chat; an unsupported action 404 and a body naming it. After a status has gone out only the body can grow |
| `Auth.LoginHandler` | chat/auth.go:31-84 | The handler writes the response that renders its answer, with the unknown-provider message as the code builds it |
| `Auth.LoginResponses` | chat/auth.go:39-84 | On a fresh response: 404 with "Auth action <action> not supported"; an error's code and message; 307 to the provider's URL; or the auth cookie and a 307 to /chat |
| `Auth.CookieStampsUser` | chat/auth.go:70-73 | The cookie a callback sets makes read stamp the user's name and avatar on their messages |
| `Auth.UnknownProvider` | chat/auth.go:39-45 | An unknown provider gives a 400 for both login and callback, whose message carries the lookup error and "%!s(<nil>)" where the provider name would go |
| `Auth.AsWrittenOmitsProvider` | chat/auth.go:41-43 | As written, two unknown providers whose lookups fail with the same error get the same 400 answer, and the message is the same for every pair of provider names |
| `Auth.LoginAnswerIntended` | chat/auth.go:55-57 | The intended answer differs from the written one only for an unknown provider, where the 400 message names the provider asked for |
| `Auth.IntendedNamesProvider` | chat/auth.go:55-57 | Under the intended answer, two unknown providers failing with the same error get the same 400 only if they are the same provider |
| `Auth.MessageNamesProvider` | chat/auth.go:55-57 | The corrected 400 message determines the provider name |
| `Counter.Increment` | socialpoll/counter/main.go:72-76 | A vote creates the map if needed, adds exactly one to its option and leaves every other entry unchanged |
| `Counter.IncrementTotal` | socialpoll/counter/main.go:76 | Each vote raises the total of the tally by exactly one |
| `Counter.EveryOptionOnce` | socialpoll/counter/main.go:111-118 | Distinct updates, as many as the options, all of the tally, cover every option |
| `Counter.Tally.constructor` | socialpoll/counter/main.go:58 | The tally starts nil, with no votes received |
| `Counter.Tally.HandleVote` | socialpoll/counter/main.go:69-78 | The handler performs Increment, and the tally's total is still the number of votes received since the last successful flush |
| `Counter.SendUpdates` | socialpoll/counter/main.go:110-122 | One update per option, none twice, each carrying that option's count; ok holds exactly when every update succeeded |
| `Counter.Tally.DoCount` | socialpoll/counter/main.go:101-127 | An empty tally issues no update and stays as it is. Otherwise one update per option carries its count; all succeeding resets the tally to nil; any failing leaves it unchanged. The total invariant is kept |
| `TwitterVotes.Matches` | socialpoll/twittervotes/twitter.go:84-87 | A tweet mentions an option exactly when the lower-cased option occurs at some position of the lower-cased text |
| `TwitterVotes.MatchesIgnoresCase` | socialpoll/twittervotes/twitter.go:84-87 | Lower-casing the text or the option first does not change the match |
| `TwitterVotes.EmptyOptionMatches` | socialpoll/twittervotes/twitter.go:84-87 | The empty option matches every tweet |
| `TwitterVotes.VotesIn` | socialpoll/twittervotes/twitter.go:83-91 | A tweet casts at most one vote per listed option |
| `TwitterVotes.VotesCount` | socialpoll/twittervotes/twitter.go:83-91 | A matched option is voted for once per listing, as its original string; nothing else is voted for |
| `TwitterVotes.VotesIff` | socialpoll/twittervotes/twitter.go:83-90 | An option is voted for exactly when it is listed and matches |
| `TwitterVotes.VotesInOrder` | socialpoll/twittervotes/twitter.go:83 | Votes follow the order of the options list |
| `TwitterVotes.MatchTweet` | socialpoll/twittervotes/twitter.go:83-91 | The options loop sends exactly the votes the tweet casts |
| `TwitterVotes.TweetCount` | socialpoll/twittervotes/twitter.go:75-82 | Exactly the tweets before the first decode error are processed |
| `TwitterVotes.AllVotesBound` | socialpoll/twittervotes/twitter.go:83-91 | n tweets cast at most n times the number of options votes |
| `TwitterVotes.ReadFromTwitter` | socialpoll/twittervotes/twitter.go:75-92 | The decode loop sends, tweet by tweet, the votes of every tweet before the first decode error |
| `TwitterVotes.StopsAtFirstFailure` | socialpoll/twittervotes/twitter.go:75-82 | Nothing after the first decode error is examined |
| `TwitterVotes.Track` | socialpoll/twittervotes/twitter.go:61 | The track parameter gives the options back when split on commas, provided there is at least one and none holds a comma |

## Left out

- Goroutines, channels and `select` are not modelled. The room is a sequential state machine driven by the caller's choice of event. A send that would block on a full channel is a precondition (`HasRoom`, `Enabled`), not a wait.
- The acceptor and the reader send to the room as one event sequence. Interleavings with other clients' sessions are covered only through `Run` over arbitrary event sequences.
- The acceptor creates each client's channel; here the join event creates it, fresh and empty.
- Mutexes and `sync.Once` are left out: the counter's lock, and the stop flag and `authSetupOnce` of the Twitter reader. All the modelled code runs sequentially.
- The websocket upgrade, JSON encoding and decoding, and socket I/O are inputs: frames that decode or fail, and writes that succeed or fail. A stream that ends counts as a decode error.
- The `log.Println` calls of `doCount` (socialpoll/counter/main.go:105-124) and of `readFromTwitter` (socialpoll/twittervotes/twitter.go:57-88) write to the process log only; they change no state the model tracks and are not modelled.
- The `log.Fatal` paths of `room.ServeHTTP` (a failed upgrade or a missing cookie) are process exits and are not modelled.
- `time.Now` is an input: the clock gives the time of each read.
- The cookie value's objx base64 encoding is not modelled: the cookie carries the user-data map itself.
- A callback whose query does not parse makes `objx.MustFromURLQuery` (chat/auth.go:60) panic, so the handler writes no response; this path is not modelled. The completion outcome stands for `CompleteAuth` alone, on a query that parsed.
- gomniauth is not modelled. The provider lookup, the begin-auth URL, the completion and the user fetch are inputs, and so is how `%s` prints a provider (`display`).
- The wrapped chat handler's own output is not modelled; only how many times it is called.
- The `Content-Length` and other headers the net/http library adds are not modelled. Only the headers the handlers set are.
- `strings.ToLower` is restricted to ASCII letters; Unicode case mapping is left out.
- `fmt.Fprint` is modelled for string arguments only. The room traces the message body, which is a string.
- A nil message pointer or a cookie without a "name" entry would make `read` panic; the model requires "name" in the user data instead.
- `Counter.Increment`: counts are unbounded naturals, so Go's 64-bit `int` overflow is not modelled.
- The database, NSQ, the ticker and signal handling are left out. Each option's update outcome is an input.
- The other parts of chat/main.go, socialpoll/twittervotes/main.go and twitter.go are left out: configuration, routing, templates, the HTTP request and its OAuth signing, dialing, reconnecting and `loadOptions`. Only `track` and the decode loop are modelled.
- The socket is closed by both `read` and `write` (chat/client.go:27 and 45), so a session whose writer returns, on a closed channel or on a failed write, closes the socket twice. The model counts both closes, as the code makes them.
- `ChatRoom.ThreeClientScenario` states the contents of the three channels and the membership at the end. It does not state that B's channel is closed; `ChatRoom.Left` states that.

## Findings

| source | as written | input that shows it | evidently intended | confidence | as-written member | corrected member |
|---|---|---|---|---|---|---|
| chat/auth.go:41-43 and 55-57 | The 400 message formats `provider`, but `provider, err :=` has just declared a new `provider` that shadows the name and is nil when the lookup fails. The message reads "Error when trying to get provider %!s(<nil>): ..." | action "login", providers "facebook" and "github" that the registry does not know, both lookups failing with the same error text: the two 400 answers are identical (the lookup error itself may still name the provider) | The message names the provider that was asked for | not executed | `Auth.AsWrittenOmitsProvider` | `Auth.IntendedNamesProvider` |

`Auth.LoginAnswer` and `Auth.LoginHandler` follow the code as written, so their 400 message for an unknown provider holds "%!s(<nil>)". `Auth.LoginAnswerIntended` is the corrected decision: the same answers, except that this message names the provider.
