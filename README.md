# Live-market synchronisation engine, modelled in Dafny

This project models the data engine behind the in-play betting dashboard, the
`useBettingData` hook in `src/hooks/useBettingData.ts`, together with the
entities of `src/types/betting.ts`. The engine does four things, and each is
proved about:

1. **Snapshot and subscription.** It fetches the in-play snapshot and builds
   one subscription request per (match, market) pair, in match-then-market
   order. On socket open it sends the list as a JSON string wrapped once more in
   a one-element array literal (`subscription.dfy`).
2. **Frame decoding.** It strips one heartbeat marker `a`, parses the frame,
   parses string elements of an array once more, and keeps only
   object-typed values. A failed parse yields nothing and draws a warning only
   for frames longer than 10 characters (`decoder.dfy`).
3. **Market reconciliation.** For each envelope with a truthy id, it overlays
   the envelope's fields on the stored market, merges runners under the
   composite key `id-(hc || 0)`, and diffs back and lay ladders position by
   position into a batch of `up`/`down` markers. A non-empty batch replaces the
   market's markers and is cleared 600 ms later, but only if it is still the
   current batch. The markets can also be removed and their markers queried
   (`reconciler.dfy`).
4. **Connection and retries.** Status moves between disconnected, connecting and
   connected. A failed fetch is retried after `min(1000·2^n, 30000)` ms. A closed
   socket is reopened after that delay plus up to 1000 ms of jitter. One attempt
   counter serves both and is reset when a socket opens (`backoff.dfy`,
   `connection.dfy`).

JSON values are the datatype `Json.Json`. `JSON.parse` is a parameter of the
decoder (`parse: string -> Option<Json>`, `None` where it throws). The only
part of `JSON.stringify` the engine depends on is written out: the quoting of a
string, with a proved round trip against an RFC 8259 (section 7) reader, and
the subscription objects and list, each with a proved round trip against a
reader. Strings are sequences of Unicode scalar values, Dafny's `char`. A
`char` cannot hold a surrogate, so the reader refuses every `\u` escape in the
range D800-DFFF, half of a valid pair such as `\uD83D\uDE00` included.
`JSON.stringify` writes no such escape for the strings quoted here, so the round
trips are unaffected.

State that the hook keeps in React state and refs lives in two classes:

- `Reconciler.MarketTable` holds the markets map, the marker table and a batch
  counter. The counter stands for the object identity that the source's
  expiry timer compares with `===`.
- `Connection.LiveFeed` holds matches, loading, error, status, the
  subscription, the attempt counter, every socket created (with its ready
  state), the pending timers and the frames sent.

Each state-changing method is specified against a pure function
(`Merge`, `ExpireBatch`, `Drop`, `ApplyUpdates`, `CloseCurrentIfOpen`,
`AddSocket`). The properties are proved about those functions.

The environment drives `LiveFeed` by calling one handler per event:

- the fetch resolving or failing;
- a socket opening, closing, erroring or delivering a frame;
- a pending timer firing, chosen by index.

Jitter (`Math.random()`), the clock (`Date.now()`) and whether `new WebSocket`
throws are parameters of those handlers.

## Model

| member | source | states |
|---|---|---|
| Json.Fields | src/hooks/useBettingData.ts:100 | a parsed object's property table has exactly its members' keys |
| Json.FieldsLastOccurrence | src/hooks/useBettingData.ts:100 | each key maps to the value of its last occurrence among the members |
| Json.EscapeChar | src/hooks/useBettingData.ts:82 | an escaped character is never a raw control character, and a printable character other than `"` and `\` stands for itself |
| Json.Escape | src/hooks/useBettingData.ts:82 | the body of a string literal contains no raw control character and is never shorter than the string |
| Json.Quote | src/hooks/useBettingData.ts:82 | JSON.stringify of a string is a literal opening and closing with a double quote |
| Json.UnquoteQuote | src/hooks/useBettingData.ts:81-82 | the quoted literal reads back as exactly the original string: quoting loses nothing |
| Json.EscapeRoundTrip | src/hooks/useBettingData.ts:82 | the escaped body of a string literal unescapes to the original characters |
| Json.ReadBodyEscape | src/hooks/useBettingData.ts:81-82 | inside a larger text, an escaped body read up to its closing quote gives back the string and exactly what follows |
| Json.ReadLiteralQuote | src/hooks/useBettingData.ts:81-82 | a quoted string at the head of a text reads back as that string, leaving exactly the rest of the text |
| Betting.ReadLevel | src/types/betting.ts:34-38 | a price level is read exactly from an object whose odds the diff can compare (absent, null or a number), and keeps every field it was sent |
| Betting.ReadEach | src/types/betting.ts:29-30 | a ladder or runner list reads exactly when every element reads, and then element for element, in order |
| Betting.ReadRunner | src/types/betting.ts:25-32 | a runner is read exactly from an object with a string id, an hc that is absent, null or a number, and two ladders that read. Its ladders are the read `bdatb` and `bdatl`, its hc is present exactly when the object has `hc`, and its other keys are kept |
| Betting.ReadMarketData | src/types/betting.ts:40-52 | the envelope keeps every field. Its id is empty exactly when `id` is missing or falsy. `rc` is empty when missing or falsy and otherwise is the read runner list. Reading fails exactly for the listed out-of-shape cases |
| Subscription.Flatten | src/hooks/useBettingData.ts:31-40 | every request is a `WEB` request whose eventId is the id of one of the snapshot's matches |
| Subscription.Row | src/hooks/useBettingData.ts:33-39 | one request per market of a match, in market order, with the market's id, the match's id as eventId, and `WEB` |
| Subscription.BuildSubscription | src/hooks/useBettingData.ts:31-42 | the nested loops build exactly the concatenation of every match's row, in match order |
| Subscription.FlattenLength | src/hooks/useBettingData.ts:31-40 | the list has one entry per market of the snapshot |
| Subscription.FlattenAt | src/hooks/useBettingData.ts:32-38 | market j of match i sits right after the markets of the earlier matches, as the request (marketId, match id, `WEB`) |
| Subscription.FlattenFrom | src/hooks/useBettingData.ts:32-38 | conversely, every entry is the request of some (match, market) pair at that pair's position |
| Subscription.EntryText | src/hooks/useBettingData.ts:81 | a request is stringified as an object literal that begins with its `marketId` key |
| Subscription.ReadEntryText | src/hooks/useBettingData.ts:81 | a stringified request reads back as exactly that request, all three fields, leaving whatever follows it |
| Subscription.ReadListJoin | src/hooks/useBettingData.ts:81 | comma-joined item texts, each of which reads back as its item, read back as the items in order |
| Subscription.PayloadText | src/hooks/useBettingData.ts:81 | the stringified list is an array literal, `[]` exactly when the list is empty |
| Subscription.PayloadRoundTrip | src/hooks/useBettingData.ts:81 | the stringified list reads back as exactly the list: every request, every field, in order |
| Subscription.SubscriptionMessage | src/hooks/useBettingData.ts:80-83 | the sent frame is `[` + one string literal + `]`; that literal unquotes to the stringified list, which reads back as exactly the subscription list |
| Decoder.StripHeartbeat | src/hooks/useBettingData.ts:95-97 | exactly one leading `a` is removed, and only when the frame starts with `a` |
| Decoder.Reparse | src/hooks/useBettingData.ts:104-111 | a string element that parses becomes its parsed value; one that does not, and any other element, stays as it was |
| Decoder.KeepObjects | src/hooks/useBettingData.ts:104-113 | the map-then-filter pass keeps only objects and arrays and never grows the list |
| Decoder.KeepObjectsAppend | src/hooks/useBettingData.ts:104-113 | the filter keeps survivors in their original order |
| Decoder.KeepObjectsMember | src/hooks/useBettingData.ts:104-113 | a value survives if and only if it is object-typed and is the reparsed form of some element |
| Decoder.Decode | src/hooks/useBettingData.ts:93-127 | a failed parse gives no envelopes and warns iff the raw frame is longer than 10. An array gives its filtered elements, an object gives itself, any other value gives nothing. Every envelope is object-typed |
| Decoder.DecodeDoubleEncoded | src/hooks/useBettingData.ts:95-114 | the double-encoded frame `a["{\"id\":\"1\"}"]` yields exactly the object {id: "1"} and no warning |
| Decoder.DecodeShortGarbage | src/hooks/useBettingData.ts:123-127 | an unparsable one-letter frame yields nothing and no warning |
| Decoder.StripsOneMarkerOnly | src/hooks/useBettingData.ts:95-97 | `aa` leaves `a` for the parser; a frame without the marker is untouched |
| Backoff.BaseDelay | src/hooks/useBettingData.ts:55 | the retry delay always lies between 1000 and 30000 ms |
| Backoff.ReconnectDelay | src/hooks/useBettingData.ts:136-140 | the reconnect delay lies in [base, base + 1000) for any jitter in [0, 1) |
| Backoff.BaseDelayDoubles | src/hooks/useBettingData.ts:55 | the first delays are 1, 2, 4, 8 and 16 seconds |
| Backoff.BaseDelayCapped | src/hooks/useBettingData.ts:55 | from the fifth attempt on, the delay is the 30-second cap |
| Backoff.BaseDelayBelowCap | src/hooks/useBettingData.ts:55 | below the cap each further attempt doubles the delay |
| Backoff.BaseDelayMonotone | src/hooks/useBettingData.ts:136 | more attempts never shorten the wait |
| Reconciler.KeyOf | src/hooks/useBettingData.ts:179 | a runner's key is its id with its hc, where an absent, null or zero hc counts as 0 |
| Reconciler.Towards | src/hooks/useBettingData.ts:189-198 | a marker points up iff the new odds exceed the old, null counting as 0 and missing odds never exceeding |
| Reconciler.LadderMarks | src/hooks/useBettingData.ts:185-200 | a ladder's markers all belong to that runner and side, at positions present in both ladders |
| Reconciler.LadderMarksExact | src/hooks/useBettingData.ts:185-200 | a marker exists iff the position is in both ladders and the odds differ; it points up iff the new odds are greater |
| Reconciler.DiffLadder | src/hooks/useBettingData.ts:185-191 | the ladder loop adds exactly the ladder's markers to the batch being built |
| Reconciler.BackOddsRise | src/hooks/useBettingData.ts:185-190 | back odds 1.90 to 2.00 at position 0 give the single marker back-0 = up |
| Reconciler.OverlayRunner | src/hooks/useBettingData.ts:203-206 | the stored runner takes every field the incoming runner carries and keeps the prior runner's fields it omits |
| Reconciler.ApplyRunnersKeeps | src/hooks/useBettingData.ts:177-208 | the runner table gains exactly the incoming keys and keeps unmentioned runners unchanged. A marker only arises for an incoming runner of a market that existed |
| Reconciler.RunnerStep | src/hooks/useBettingData.ts:178-207 | one runner is stored under its key as the overlay on the runner stored there, no other runner changes, and new markers are only that runner's, only in a market that existed |
| Reconciler.FreshRunnersLastWins | src/hooks/useBettingData.ts:178-207 | in a new market each key holds the last incoming runner with that key, unchanged |
| Reconciler.RepeatedKeySeesEarlierEntry | src/hooks/useBettingData.ts:178-207 | a key repeated in one envelope of a known market: the second entry overlays the first one's result, and its ladders are diffed against the first entry's |
| Reconciler.RepeatedKeyInNewMarket | src/hooks/useBettingData.ts:178-207 | the same repeated key in a new market keeps only the second entry, with no markers |
| Reconciler.ApplyRunnersStores | src/hooks/useBettingData.ts:178-206 | with distinct keys, each runner is stored as its overlay on the prior runner, and the batch holds exactly that runner's own ladder markers |
| Reconciler.MergeRunners | src/hooks/useBettingData.ts:177-208 | the runner loop computes exactly the runner table and the marker batch of the specification |
| Reconciler.MergeMarket | src/hooks/useBettingData.ts:168-174 | the new fields are the envelope's over the stored ones. lastUpdated is the stored time for a known market and `now` for a new one |
| Reconciler.FirstSighting | src/hooks/useBettingData.ts:168-207 | a new market holds exactly the envelope's fields, the current time and no markers; its runner keys are the envelope's, each holding the last runner sent with that key, unchanged |
| Reconciler.ExistingMarketRunners | src/hooks/useBettingData.ts:177-207 | a known market keeps the runners the envelope omits and overlays those it mentions; with distinct keys, each mentioned runner's markers in the batch are exactly its ladder diffs against the runner stored before |
| Reconciler.Merge | src/hooks/useBettingData.ts:154-224 | an empty id changes nothing. Otherwise only that market is replaced. A non-empty batch becomes the market's markers under a fresh serial, returned for its timer; an empty one leaves the markers alone |
| Reconciler.ExpireBatch | src/hooks/useBettingData.ts:214-219 | the timer clears the market's markers only if its batch is still the current one, and touches nothing else |
| Reconciler.Drop | src/hooks/useBettingData.ts:227-233 | removeMarket drops exactly that market and leaves the others and all markers as they were |
| Reconciler.ChangesFor | src/hooks/useBettingData.ts:235-237 | the markers of the market's current batch, or none |
| Reconciler.EmptyBatchKeepsMarkers | src/hooks/useBettingData.ts:211-220 | an update that changes no odds leaves the displayed markers in place |
| Reconciler.StaleTimerKeepsNewerBatch | src/hooks/useBettingData.ts:214-219 | after a new batch is installed, an older batch's timer leaves it while its own timer clears it |
| Reconciler.RemoveThenUpdateIsFresh | src/hooks/useBettingData.ts:227-233 | a market updated after removal starts afresh: envelope fields only, its own runners, current time |
| Reconciler.SuccessiveOverlays | src/hooks/useBettingData.ts:168-174 | after A then B, B's fields win and A's fields that B omits survive |
| Reconciler.MarketTable.constructor | src/hooks/useBettingData.ts:8-17 | the table starts with no markets and no markers |
| Reconciler.MarketTable.ProcessMarketUpdate | src/hooks/useBettingData.ts:154-225 | the new table and the returned serial are exactly those of `Merge`, and the table stays well formed |
| Reconciler.MarketTable.Expire | src/hooks/useBettingData.ts:214-219 | the table becomes `ExpireBatch` of the old one |
| Reconciler.MarketTable.RemoveMarket | src/hooks/useBettingData.ts:227-233 | the table becomes `Drop` of the old one |
| Reconciler.MarketTable.GetMarketChanges | src/hooks/useBettingData.ts:235-237 | returns the current batch's markers, or none |
| Connection.DigitsRoundTrip | src/hooks/useBettingData.ts:24 | a status code's decimal digits read back as that code |
| Connection.FailureText | src/hooks/useBettingData.ts:24-51 | a non-ok status shows `HTTP error! status: ` and the code, a thrown Error its message, anything else `Failed to fetch matches` |
| Connection.CloseCurrentIfOpen | src/hooks/useBettingData.ts:64-66 | only the socket `wsRef` holds is affected, and only if open, when it moves to closing |
| Connection.AddSocket | src/hooks/useBettingData.ts:71-72 | a fresh connecting socket for the URL becomes the current one; the others are kept |
| Connection.Updates | src/hooks/useBettingData.ts:117-120 | each envelope is handed on in frame order, read as a market update |
| Connection.Absorb | src/hooks/useBettingData.ts:211-220 | one envelope schedules at most one timer: a 600 ms clear carrying the serial under which the batch was installed for that market. Without a timer the markers are untouched |
| Connection.ApplyUpdates | src/hooks/useBettingData.ts:117-121 | the timers a frame schedules are all 600 ms clears carrying consecutive serials from the table's counter |
| Connection.NewBatchesAreScheduled | src/hooks/useBettingData.ts:211-219 | every marker batch a frame installs has its own clear timer among those it schedules |
| Connection.UnparsableFrameChangesNothing | src/hooks/useBettingData.ts:123-127 | a frame that does not parse changes no market and no marker |
| Connection.LiveFeed.constructor | src/hooks/useBettingData.ts:7-17 | the initial state: no matches, loading, no error, disconnected, nothing subscribed, no sockets or timers |
| Connection.LiveFeed.FetchMatches | src/hooks/useBettingData.ts:19-21 | starting a fetch clears the error |
| Connection.LiveFeed.FetchSucceeded | src/hooks/useBettingData.ts:27-49 | matches and subscription are replaced and loading ends. The first endpoint's URL, if any, is connected, and without endpoints the connection is untouched |
| Connection.LiveFeed.FetchFailed | src/hooks/useBettingData.ts:50-59 | the failure's message is shown, loading ends, and a fetch retry is scheduled after the base delay |
| Connection.LiveFeed.ConnectWebSocket | src/hooks/useBettingData.ts:63-151 | the open current socket is closed, then a new current socket is connecting. If construction throws, the feed is disconnected with the connect error and nothing is scheduled |
| Connection.LiveFeed.OnOpen | src/hooks/useBettingData.ts:74-86 | connected, the attempt counter reset, and the subscription frame sent on that socket exactly when the list is non-empty |
| Connection.LiveFeed.OnClose | src/hooks/useBettingData.ts:131-141 | any closing socket, current or not, makes the feed disconnected and schedules a reconnect to its URL after the jittered delay |
| Connection.LiveFeed.OnCloseCurrent | src/hooks/useBettingData.ts:131-141 | a close of the current socket acts as in the source; a close of a replaced socket changes neither status nor timers |
| Connection.LiveFeed.OnError | src/hooks/useBettingData.ts:143-146 | only the error text changes |
| Connection.LiveFeed.Receive | src/hooks/useBettingData.ts:118-120 | one envelope merges as `Absorb` says, and its timer is appended |
| Connection.LiveFeed.ReceiveAll | src/hooks/useBettingData.ts:117-118 | the `forEach` leaves the table and timers exactly as `ApplyUpdates` says |
| Connection.LiveFeed.OnMessage | src/hooks/useBettingData.ts:88-129 | on an open socket, a frame's decoded envelopes are merged in order and their clear timers scheduled, as `ApplyUpdates` of `Decode` says |
| Connection.LiveFeed.OnTimer | src/hooks/useBettingData.ts:56-59 | the fired timer leaves the list. A fetch retry or reconnect counts one more attempt and restarts the fetch or connects again. A marker timer expires its own batch only |
| Connection.StaleCloseReconnects | src/hooks/useBettingData.ts:131-141 | a replaced socket's close marks the feed disconnected, and the reconnect it schedules closes the healthy socket |
| Connection.StaleCloseIgnored | src/hooks/useBettingData.ts:131-141 | with the guarded handler the same close leaves the healthy connection and schedules nothing |

## Left out

- React plumbing is not modelled: `useState`, `useCallback`, `useEffect`, re-renders and the deferred
  updater functions of `setMarkets`. Each handler applies its state change at once.
- Real I/O is replaced by events with parameters: `fetch`, `WebSocket`, `setTimeout`, `Math.random()` and
  `Date.now()`. Timer delays are recorded and the environment picks which pending timer fires.
- Console logging is not modelled (`console.log`, `console.warn`, `console.error`). `Decoded.warned`
  records only whether the warning is due.
- The unmount cleanup (src/hooks/useBettingData.ts:242-249) is not modelled, and neither is
  `reconnectTimeoutRef`, which the model never reads.
- Decoder.Decode: binary frames (`typeof data !== 'string'`) are ignored by the source and are not
  modelled. Frame length is counted in characters; JavaScript counts UTF-16 code units.
- Json.Fields: JSON.parse itself is a parameter. Numbers are reals, and JavaScript's floating-point
  rounding is not modelled.
- Betting.ReadMarketData: envelopes outside the shape the engine dereferences are skipped whole. The
  source treats each shape differently (line numbers in src/hooks/useBettingData.ts):
  - a truthy id that is not a string becomes the Map key as it is (line 222); nothing throws;
  - a truthy `rc` that is not an array throws at `.forEach` (line 178) inside the state updater;
  - a runner element that is null throws at line 179. Any other non-object is keyed `undefined-0` and
    stored (line 203) unless a runner is stored under that key already, when line 185 throws;
  - a runner whose id is not a string, or whose hc is neither null nor a number, gets a key formatted
    from whatever is there (line 179) and is stored;
  - a runner whose own `bdatb` or `bdatl` is not an array throws at line 185/194 when a runner is
    stored under its key already, because the diff runs only `if (existingRunner)` (line 183);
    otherwise it is stored silently. A runner stored with a ladder that is missing or null makes a
    later update for its key throw at line 186/195, but only when that update's own ladder on that
    side is a non-empty array. A stored ladder of any other type is indexed at line 186/195 without
    throwing, and the `existingLevel &&` guard at line 187/196 skips the positions it does not hold;
  - a ladder element that is null throws at line 187 only when the stored runner has a level at that
    position. Any other non-object element, and a level whose odds are not a number or null, is
    compared with `!==` and `>` (lines 187-189) and nothing throws;
  - a `lastUpdated` key is kept as sent by the final `...update` (line 173); nothing throws;
  - a `runners` key replaces the runner table (line 173). The update throws, at `.set` on line 203 at
    the latest, only when `rc` is a non-empty array. Otherwise, `rc` absent, falsy or `[]` included,
    the value is stored silently as the market's runner table. The next update of that market whose
    `rc` is a non-empty array then throws, at `.get` on line 180 at the latest.
- Json.Unescape: `\u` escapes of surrogate pairs are not modelled, and neither are JavaScript's
  UTF-16 lengths of characters outside the Basic Multilingual Plane, which count 2 there and 1 here.
- Reconciler.KeyOf: runner keys `${id}-${hc || 0}` and change keys `${runnerId}-back-${i}` are kept as
  structured values rather than strings, because JavaScript's number-to-string conversion is not
  modelled. Two distinct (id, hc) pairs that format to the same string are therefore not merged.
- Reconciler.MarketTable.ProcessMarketUpdate: the source writes the new runners into the stored
  market's own runner Map, so the previous state object is mutated as well. The model keeps that
  sharing only where it is observable inside one update: a runner key repeated in one envelope sees
  its earlier entry. Other holders of the old state object are not modelled.
- Connection.LiveFeed.OnMessage: one `now` serves every envelope of a frame, where the source reads
  `Date.now()` once per envelope.
- Connection.LiveFeed.FetchFailed: a response whose `inplay_matches` is not a list of matches with
  market lists is not modelled. The source stores it with `setMatches` (line 28) before the loop at
  lines 32-40 throws on it, so the catch branch runs with the matches already replaced, possibly by
  `undefined`. The model's snapshot is always well typed, and a failure leaves the matches alone.
- StrictMode double-invocation of effects is not modelled.

## Findings

| source | as written | input that shows it | evidently intended | confidence | as-written member | corrected member |
|---|---|---|---|---|---|---|
| src/hooks/useBettingData.ts:131-141 | `connectWebSocket` closes the open socket it replaces but leaves its `onclose` attached, so that close event marks the feed disconnected and schedules a reconnect to the same URL. When the reconnect fires, it closes the new, healthy socket, whose close schedules another, and so on | refetch while connected: socket 0 open, refetch succeeds, socket 1 opens, socket 0's close arrives, its reconnect timer fires | only the socket `wsRef` holds drives status and reconnects | high, not executed | Connection.StaleCloseReconnects | Connection.StaleCloseIgnored |
