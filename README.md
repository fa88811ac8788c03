# uFR add-credit demo: presence tracker, reader lifecycle and key session

A model, in Dafny, of the logic of the "Add credit to Base HD cards"
example for the uFR NFC reader (`src/main.c`). The program opens the
reader, then polls for a card whenever no key is pending. It turns each
poll into at most one "new card in field" event, and sends operator keys
to a three-entry menu: get credit, add credit, set the 6-byte
authentication key. Everything the vendor library does (open, reset,
card-identity query, balance read and write) is an input to the model:
a status word, or the reply the call returns.

Files and modules:

- `types.dfy` (`Types`): bytes, `Int32`, the status word with zero as
  success, `Option`, `Repeat`.
- `presence.dfy` (`Presence`): the poll reply, the card identity, and
  the tracker's one-poll reaction `React`. The class `CardTracker` holds
  the poll loop's locals `card_in_field`, `old_sak`, `old_uid_size` and an
  `old_uid` array of 10 bytes. Beside the class, the module-level methods
  `UidEqual` and `CopyUid` are the memcmp and memcpy loops that
  `CardTracker` uses.
- `presence_trace.dfy` (`PresenceTrace`): `Watch`, the tracker over a
  sequence of poll replies, and its trace properties.
- `session.dfy` (`BalanceSession`): the class `Session`, which holds the
  static `appkey` as a 6-byte array. Its methods are `SetKey`
  (`Operation3`), `GetCredit` (`Operation1`) and `AddCredit`
  (`Operation2`). `FirstKey` is the prompt's six-byte gate.
- `app.dfy` (`App`): the `menu` dispatch and the event-trace semantics
  `Handle`/`Drive` of the main loop. It also has `Reader`, a reader
  handle that counts its closes, and the imperative `main`: `Run`,
  `Serve`, `PollUntilKey`, `PollOnce` and `MenuKey`.
- `app_properties.dfy` (`AppProperties`): lemmas about whole runs.

How the loop is driven. `_kbhit()` decides at each step whether the
program polls or reads a key, so the model takes a finite trace of
events:

- `Polled(result)` is one pass of the inner `while (!_kbhit())` loop.
- `Pressed(key, reply)` is a pending key. The `reply` holds what the
  started operation then receives: the status and credit from
  `BalanceGet`, the balance typed for `BalanceSet`, and the tokens typed
  at the key prompt.

A run that has not exited when the trace runs out is left either
`Polling` or `AwaitingKey` (the key prompt got no 6-byte token). The
reader is closed on the two real exits, `Success` (ESC) and `Failure`.

## Model

| member | source | states |
|---|---|---|
| `Presence.React` | src/main.c:106-140 | A fatal outcome happens exactly for a status other than OK/no-card, and it leaves the state alone. A new-card outcome comes only from an OK read; it carries that read's identity and records it with the card marked present. A quiet outcome keeps the stored card. |
| `Presence.UidEqual` | src/main.c:111 | memcmp over the first n bytes reports equality exactly when the two n-byte prefixes are equal. |
| `Presence.CopyUid` | src/main.c:121-123 | memcpy replaces the first n bytes of the buffer with the new uid and leaves the bytes beyond n as they were. |
| `Presence.CardTracker.constructor` | src/main.c:52-53 | The tracker starts with no card in the field, sak 0 and uid_size 0. |
| `Presence.CardTracker.Record` | src/main.c:113-115 | After recording, the stored identity is the read's sak and first uid_size bytes. Stored bytes beyond uid_size are unchanged, and presence is untouched. |
| `Presence.CardTracker.Poll` | src/main.c:105-140 | One poll moves the class's state exactly as `React` does and returns its outcome. Without a new card, old_uid, old_sak and old_uid_size are untouched. |
| `PresenceTrace.Watch` | src/main.c:103-147 | The inner loop over poll replies stops at the first fatal reply and reports its status. Without one, it consumes every reply. No reply before the last consumed one is fatal. |
| `PresenceTrace.IdentityEqualityIsExact` | src/main.c:111 | Two reads denote the same card exactly when sak, uid_size and every one of the first uid_size bytes agree. |
| `PresenceTrace.DiffersIffOtherCard` | src/main.c:111 | The loop's short-circuit comparison (sak, then size, then memcmp) is true exactly when the stored identity differs from the read's. |
| `PresenceTrace.NewCardIffArrivalOrChange` | src/main.c:109-126 | An OK read raises an event exactly when no card was present or the card differs from the stored one. Otherwise all tracker state is unchanged. |
| `PresenceTrace.FirstReadRaisesEvent` | src/main.c:119-126 | From the initial state, an OK read records the identity, sets presence, and raises exactly one event. |
| `PresenceTrace.StaleBytesIgnored` | src/main.c:111-117 | Two reads that agree in sak, uid_size and the first uid_size bytes give the same reaction, whatever bytes the buffer holds beyond uid_size. |
| `PresenceTrace.NoCardClearsPresence` | src/main.c:128-131 | A no-card reply clears presence, raises nothing, keeps the stored card and is not fatal. |
| `PresenceTrace.RepeatsAreSilent` | src/main.c:109-118 | While a card is present, any number of reads of that same card raise no event and leave the state unchanged. |
| `PresenceTrace.RepeatedReadsRaiseOnce` | src/main.c:108-126 | N >= 1 identical reads of a card new to the tracker raise exactly one event and leave that card recorded as present. |
| `PresenceTrace.WatchAppend` | src/main.c:103-147 | A run of polls with no fatal reply composes with the polls that follow: events concatenate and the later run starts from the earlier one's final state. |
| `PresenceTrace.NoCardsKeepLast` | src/main.c:128-131 | Any run of no-card replies leaves presence cleared, raises nothing and keeps the stored identity. |
| `PresenceTrace.DepartureResetsDedup` | src/main.c:119-131 | The same card read, then gone for at least one poll, then read again, raises two events. |
| `PresenceTrace.FatalStopsPolling` | src/main.c:132-140 | After a fatal reply nothing more is polled. The run reports that status after exactly the polls before it plus one, with the earlier events and state. |
| `PresenceTrace.NoRepeatWhilePresent` | src/main.c:109-126 | From any tracker state, initial included, while no no-card reply intervenes, consecutive events are different cards. When a card was already present, the first event differs from it. |
| `BalanceSession.FirstKey` | src/main.c:271-283 | The prompt accepts the first entered token of exactly 6 bytes, after rejecting every earlier one. There is none exactly when no token has length 6. |
| `BalanceSession.KeyLengthGate` | src/main.c:276-281 | "abc" is refused; "abc" then "abcdef" is accepted at the second prompt. |
| `BalanceSession.Session.constructor` | src/main.c:219 | The key starts as six zero bytes. |
| `BalanceSession.Session.SetKey` | src/main.c:262-288 | The prompt repeats while the token's length is not 6. When a 6-byte token arrives, the key becomes exactly those 6 bytes, after one prompt per token up to it. Otherwise the key is untouched. |
| `BalanceSession.Session.GetCredit` | src/main.c:221-240 | `BalanceGet` is called with auth mode A and exactly the current 6-byte key. The credit is shown exactly when the status is zero. The key is never written. |
| `BalanceSession.Session.AddCredit` | src/main.c:242-260 | `BalanceSet` is called with auth mode A, exactly the current 6-byte key and the entered balance. The key is never written. |
| `App.Menu` | src/main.c:162-186 | '1', '2' and '3' select get credit, add credit and set key. ESC selects the exit. Every other key, and only those, shows the usage text. |
| `App.Forced` | src/main.c:128-152 | An event forces an exit in three cases, whatever the state: success exactly for ESC, failure exactly for a fatal poll, and a waiting prompt exactly for '3' with no 6-byte token. |
| `App.Handle` | src/main.c:101-152 | Whether an event stops the loop depends only on the event. The key changes only by an accepted '3' prompt, and then becomes the accepted token. Keys leave the tracker and events alone; polls leave the key and requests alone. |
| `App.Drive` | src/main.c:101-152 | A run consumes events up to an exit. Only a trace that runs out leaves it polling. Otherwise the last consumed event forced exactly the exit reported. |
| `App.Reader.Open` | src/main.c:65-72 | The reader is open exactly when the open status is OK; no close is counted. |
| `App.Reader.Close` | src/main.c:154 | Only an open reader is closed; the close count rises by one. |
| `App.PollOnce` | src/main.c:105-131 | One poll updates the tracker and events exactly as `Handle` does for that reply. A fatal status is reported with the state untouched. |
| `App.PollUntilKey` | src/main.c:103-147 | The inner loop polls while no key is pending. Its result matches `Drive` over those replies: either it stops at a fatal one, or it continues at the next key press or at the end of the trace. |
| `App.MenuKey` | src/main.c:149-186 | Dispatching a key changes the key store and the requests exactly as `Handle` does. It reports a waiting prompt exactly when `Handle` stops there. |
| `App.Serve` | src/main.c:101-159 | The do-while loop's exit, consumed events, new-card events, balance requests and final key are those of `Drive` from the initial tracker. The reader is closed once on success or failure and stays open otherwise. |
| `App.Run` | src/main.c:49-160 | If open fails, the result is failure with no close. If reset or the dependency check fails, the result is failure with exactly one close. Otherwise the result is the run given by `Drive`, with one close exactly on its success or failure exit. |
| `AppProperties.StoppedRunIgnoresRest` | src/main.c:132-152 | Once a run has exited or is waiting at the prompt, nothing after its last consumed event is looked at. In particular no poll follows a fatal one. |
| `AppProperties.RunStopsAtFirstForcedExit` | src/main.c:101-152 | A run stops at the first event that forces an exit and at no earlier one. When none does, it consumes the whole trace. |
| `AppProperties.ExitCause` | src/main.c:132-159 | A run succeeds exactly when its last event was ESC, and fails exactly when its last event was a fatal poll. |
| `AppProperties.RunWatchesPolls` | src/main.c:101-147 | A run's new-card events and final tracker state are those of `Watch` over the poll replies it consumed, with keystrokes dropped. It fails exactly when `Watch` met a fatal status. |
| `AppProperties.OtherKeysShowUsage` | src/main.c:182-184 | Any key other than '1', '2', '3' and ESC changes nothing and the loop goes on. |
| `AppProperties.BalanceFailureIsolated` | src/main.c:221-260 | A get or add credit never ends the loop, whatever status the library returns. It leaves the key, tracker and events alone and issues one request carrying the current key, keeping every earlier request. |
| `AppProperties.SetKeyThenBalanceCalls` | src/main.c:219-288 | For the keys '3', '1', '2' in a row, with the prompt accepting a 6-byte token, exactly two requests are added: a get and then an add credit, both with those 6 bytes. |
| `AppProperties.KeyHeldUntilReplaced` | src/main.c:149-186 | While no '3' prompt accepts a token, whatever polls and keys come, the run keeps its key and every request already issued, and every request it adds carries that key. |
| `AppProperties.BalanceCallsUseLatestKey` | src/main.c:219-288 | After a '3' prompt accepts a 6-byte token, every balance request of the run carries exactly those 6 bytes until the key is replaced again, whatever polls and other keys intervene. Earlier requests are kept. |

## Left out

- Console output: `usage`, the banners, the event text of `NewCardInField` and the status strings. These are I/O. A new-card event is the call to `NewCardInField`. The card-type lookup inside it (`GetDlogicCardType`, `GetDlTypeName`) is not modelled, because its status is ignored by the loop.
- Keyboard and terminal handling (`_kbhit`, `_getch`, `_initTermios`, `_resetTermios`, `tcflush`, the `getchar()` pause before a failure exit) and the delays (`Sleep`, `usleep`). These are platform I/O and timing. `_kbhit` becomes the choice between a `Polled` and a `Pressed` event.
- `ReaderOpen`, `ReaderReset`, `CheckDependencies`, `GetCardIdEx`, `BalanceGet` and `BalanceSet` internals. They belong to the closed vendor library, so the model takes their statuses and replies as inputs. The authentication and value-block encoding of the balance calls are not visible.
- The `__DEBUG` open path (`ReaderOpenEx`), because it is build configuration.
- The numeric values of `UFR_NO_CARD` and `MIFARE_AUTHENT1A`, because the vendor header is not part of this model. The poll status is a three-way datatype. Its error case carries any non-zero status (`ErrorStatus`); that the error case never carries the value of `UFR_NO_CARD` is expressed by the datatype, not by a number. The auth mode is the single constructor `AuthKeyA`.
- `scanf("%d")` parsing of the new balance. The model takes the parsed `Int32`; parse failures are not modelled.
- `scanf("%s")` tokenising at the key prompt. Each candidate is the C string left in `key_str` by one `scanf`, up to its first NUL byte, so its length is what `strlen(key_str)` returns. The model does not capture an overflow of `key_str[128]` by a token of 128 bytes or more, nor end of input. At end of input the C loop would spin on a stale buffer; in the model, running out of tokens leaves the prompt `AwaitingKey`.
- A `uid_size` above 10 from the reader. `UidLength` is bounded by the buffer size, since a larger value would overflow `old_uid` in `memcpy`.
- `old_uid` is uninitialised in C. The model's array likewise starts with arbitrary bytes, and its contents beyond `old_uid_size` never take part in the tracker's state or decisions (`StaleBytesIgnored`).
- App.Serve: a finite trace stands for the possibly endless loop. A run whose trace runs out is reported as still `Polling`, not as an exit.
- The printing of `BalanceSet`'s status by `Operation2`, because it is I/O. `AddCredit` does not take that status.

On a token of another length the key prompt prints a message and asks again; there is no error result.
