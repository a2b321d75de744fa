# Verified model of the Japanese input method

This project models the logic of a Windows Japanese input method and proves properties of it. The
input method is a text service loaded into applications, a relay host that serves them over named
pipes, and one engine process behind the relay. Beneath the COM and Win32 plumbing there are five
cores, and the files follow them.

| core | files |
|---|---|
| romaji and preedit transducer | `KanaRules`, `Frontend`, `RealtimeFrontend` (the object), `FrontendRuns`, `FrontendKeys`, `KanaChart` (theorems) |
| asynchronous provider protocol of the text service | `Provider`, `TextService` (the object), `ProviderRuns`, `DeferredKeys` (theorems) |
| relay host, its pipe clients and its state mirror | `Relay`, `RelayHost` (the object), `RelayTrace`, `RelayOwnership`, `RelayRuns`, `RelayDelivery`, `RelayPresence`, `IdleCollection`, `NameCollision` (theorems), `Client`, `Pairing`, `Mirror` |
| session switching in the engine | `Sessions` (with the object), `SessionIsolation`, `SessionLifetime` (theorems) |
| codecs and dictionaries | `KeyList`, `Unicode`, `ScalarHex`, `StateLine`, `AcceptedLines`, `Dictionary`, `DictionaryLines`, `Framing`; `Decimal` and `Text` below them |

Code that works by changing fields is a class whose methods are proved equal to a function on values
(`View() == F(old(View()))`); the theorems are about those functions and about runs of them. Outcomes
the code cannot choose (whether a thread starts, an edit session is granted, a pipe answers, a dispatch
reaches the engine) are functions from a counter to outcomes, quantified over in every theorem.
Concurrent parts are step systems: every event of every thread is one step, a disabled event changes
nothing, and theorems hold for every sequence of events.

Run `dafny verify dfyconfig.toml` to check the project.

## Where the code falls short of its documentation

Where a promise is false of the code a lemma gives the failing case and, where there is one, the exact
condition under which the promise holds.

- Sessions are not isolated in general. Creating a session leaves 15 of the 43 checkpointed variables
  to whatever the previous session installed (`SessionIsolation.EngineLeaks`). Every interpreter is
  isolated if and only if initialization assigns all of them (`SessionIsolation.IsolationExactly`);
  isolation holds for every interpreter whose behaviour ignores the unassigned ones
  (`SessionIsolation.Isolation`, `SessionIsolation.EngineIsolation`).
- A saved value comes back from a checkpoint if and only if it does not forge the private marker tag
  (`Sessions.CapturedValueComesBack`).
- Outside a preedit, Backspace undoes a key if and only if the key only lengthened the pending romaji, or
  opened a preedit while the key log spelled what was shown (`FrontendRuns.DirectUndoExactly`); a doubled
  consonant is the plainest counterexample (`FrontendRuns.DoubledConsonantIsNotUndone`).
- The romaji table has a rule for `n'` that can never fire, in any state (`FrontendRuns.ApostropheRuleIsDead`).
- Deferred keys are neither lost nor reordered if and only if the keyboard never closes on a composition
  while keys wait (`ProviderRuns.ConservationExactly`). Closing clears the queue without cancelling the
  request: the keys are gone (`ProviderRuns.ClosingTheKeyboardLosesKeys`), and the late reply still
  carries the current number and reaches the document (`ProviderRuns.ReplyOutlivesTheClose`).
- Deferred keys are stranded, waiting with no request pending, if and only if an empty provider reply
  finds keys in the queue (`ProviderRuns.RunsStrandExactly`); the next key overtakes them
  (`ProviderRuns.StrandedKeysAreOvertaken`).
- The host's comments (`windows/host/main.cpp:1201-1205`) say that only preedit and candidate
  suppress a collection; the code also counts registration, and the model follows the code.
- The host's comments (`windows/host/main.cpp:1140-1153`) say that a fresh request is always visible to
  the idle check. Stamps are taken and stored in two steps, and the check reads clock and stamp one
  after the other and subtracts them modulo 2^64. A stamp stored late moves the shared stamp back
  (`IdleCollection.LateStoreRewindsTheStamp`) and a run ends in a collection at a fresh stamp
  (`IdleCollection.CollectionAtAFreshStamp`); with all stamps in order, one stored between the two reads
  does the same, the age wrapping around when the clock is read first
  (`IdleCollection.CollectionAcrossTheReads`). With stamps in order and none stored between the reads a
  passed check is an idle host (`IdleCollection.QuietChecksAreIdle`). These two conditions are sufficient
  and not necessary (`IdleCollection.DisorderCanBeHarmless`); the exact one is that the check reads a
  clock not behind its stamp and misses no younger stamp within the interval
  (`IdleCollection.ChecksAreIdleExactly`, and for every interval at once
  `IdleCollection.HonestForEveryIntervalExactly`).
- A session named `legacy:` followed by the number of a client in use shares that client's entry in the
  composing set, and each can hide the composition of the other from the collector
  (`NameCollision.ClientIsHidden`, `NameCollision.SessionIsHidden`). No collection is dispatched under an
  owner's composition if and only if no such name can be in use for it
  (`NameCollision.PromiseHoldsExactly`).
- A 65th dictionary lookup in one request leaves the engine asking; it takes the next client's request
  for the answer, and that client receives the first one's reply (`Pairing.MisdeliveryIsReachable`).
  Replies are paired with their requests on every run if and only if no request makes more than 64
  lookups (`Pairing.RepliesArePairedExactly`).
- One candidate that is the empty string is parsed as no candidates (`StateLine.StateRoundTrip`).
- The header of `engine/ddskk-engine-stdio.el` (lines 24-25) describes strings on the wire as
  UTF-8 bytes in hex; the code writes and reads six hexadecimal digits for each Unicode scalar, and the
  model follows the code.

## Model

| member | source | states |
|---|---|---|
| KanaRules.FindInRowFinds | windows/src/realtime_frontend.cpp:48-56 | Looking a spelling up returns a rule of the table with that spelling, and nothing only when there is none |
| KanaRules.ProperPrefixIsNoRule | windows/src/realtime_frontend.cpp:16-46 | No rule of the table is spelled like a proper prefix of another one, so a rule may fire as soon as it matches |
| KanaRules.PrefixIsShort | windows/src/realtime_frontend.cpp:58-69 | A string that can still grow into a rule has at most three letters |
| KanaChart.RulesFollowTheChart | windows/src/realtime_frontend.cpp:16-46 | Whatever spelling the table knows gives the kana that its consonant column and vowel have in the order of Unicode, with small kana for glides |
| RealtimeFrontendObject.RealtimeFrontend.FeedAscii | windows/src/realtime_frontend.cpp:105-191 | One key, recorded or not, changes every field and shows what the transition function says |
| RealtimeFrontendObject.RealtimeFrontend.RebuildPreedit | windows/src/realtime_frontend.cpp:193-201 | The replay loop leaves the fold of the logged keys over a cleared state |
| RealtimeFrontendObject.RealtimeFrontend.Backspace | windows/src/realtime_frontend.cpp:203-213 | Backspace drops the last logged key and replays, or edits the pending letters |
| RealtimeFrontendObject.RealtimeFrontend.Commit | windows/src/realtime_frontend.cpp:215-223 | Commit emits the text with a pending n completed and clears the state |
| RealtimeFrontendObject.RealtimeFrontend.Quit | windows/src/realtime_frontend.cpp:225-232 | Quit empties the preedit in the current mode |
| RealtimeFrontendObject.RealtimeFrontend.CommitKatakana | windows/src/realtime_frontend.cpp:243-252 | Committing as katakana, field by field |
| RealtimeFrontendObject.RealtimeFrontend.ToKatakanaText | windows/src/realtime_frontend.cpp:79-85 | The in-place shift of hiragana letters equals the character-wise katakana of the text |
| FrontendRuns.ReplayInvariant | windows/src/realtime_frontend.cpp:99-271 | After any allowed mix of Feed, Backspace, ToKatakana and ToHiragana from a reset front end, text, pending letters and okuri state equal the fold of the logged keys under the current kana class |
| FrontendRuns.BackspaceUndoesFeed | windows/src/realtime_frontend.cpp:203-213 | In that scope Backspace is the exact inverse of the last Feed |
| FrontendRuns.DirectUndoExactly | windows/src/realtime_frontend.cpp:203-213 | Outside a preedit, with whatever text and log left over, Backspace undoes a key if and only if the key only lengthened the pending letters, or opened a preedit while the log spelled the state |
| FrontendRuns.DoubledConsonantIsNotUndone | windows/src/realtime_frontend.cpp:163-169 | Typing a doubled consonant outside a preedit is not undone by Backspace |
| FrontendRuns.TypingCommutesWithKatakana | windows/src/realtime_frontend.cpp:236-241 | ToKatakana before typing any keys of a preedit equals typing them first and pressing ToKatakana afterwards |
| FrontendRuns.ToHiraganaRestoresTheHiraganaRun | windows/src/realtime_frontend.cpp:254-263 | ToHiragana leaves exactly what typing the same keys in hiragana would have left |
| FrontendRuns.CommitKatakanaIsKatakanaOfCommit | windows/src/realtime_frontend.cpp:215-252 | CommitKatakana emits the katakana of what Commit emits, and leaves the same state |
| FrontendRuns.FeedIsCounted | windows/src/realtime_frontend.cpp:170-183 | FeedAscii with its activations counted has the same result, and a key activates it once when nothing is pending and at most twice otherwise |
| FrontendRuns.PendingIsShort | windows/src/realtime_frontend.cpp:147-183 | On every run whatever, at most three letters are pending |
| FrontendRuns.PreeditIsBounded | windows/src/realtime_frontend.cpp:147-183 | Text and pending letters together are at most as long as the key log, plus one for the okurigana star |
| FrontendRuns.TypingAWord | windows/src/realtime_frontend.cpp:105-191 | Typing the spellings of any list of rules leaves their kana, in order, and nothing pending |
| FrontendRuns.TypingADoubledRule | windows/src/realtime_frontend.cpp:163-169 | Doubling the first consonant of a rule adds a small tsu in front of its kana |
| FrontendRuns.TypingNThenARule | windows/src/realtime_frontend.cpp:170-183 | An n before a consonant other than n and y becomes the moraic n, then the rule fires |
| FrontendRuns.ApostropheRuleIsDead | windows/src/realtime_frontend.cpp:16-46 | The rule for n with an apostrophe exists and never fires: in every state no lookup ends in an apostrophe, and the key is appended as it is |
| FrontendKeys.LatinPassesThrough | windows/src/realtime_frontend.cpp:116-122 | After an l where nothing is under way every other key is left to the application |
| FrontendKeys.WideLatinIsFullWidth | windows/src/realtime_frontend.cpp:110-130 | After an L there every other key shows its full-width form, at once and alone |
| FrontendKeys.ClassKeyToggles | windows/src/realtime_frontend.cpp:131-136 | A q there changes the kana class and nothing else, and a second one changes it back |
| FrontendKeys.PunctuationIsJapanese | windows/src/realtime_frontend.cpp:147-161 | In a preedit a key that is no letter leaves its Japanese mark behind the pending letters as they are |
| FrontendKeys.TypingShowsThePreedit | windows/src/realtime_frontend.cpp:87-97 | While a preedit is open every key shows all of it, marked, with the pending letters beside it |
| FrontendKeys.ShiftOpensAPreedit | windows/src/realtime_frontend.cpp:137-140 | The first letter typed with Shift counts as the letter and opens the preedit |
| FrontendKeys.WordsAreCommitted | windows/src/realtime_frontend.cpp:215-232 | Any word typed and committed comes out as its reading in the kana class and leaves nothing; quitting shows nothing and leaves nothing |
| FrontendKeys.TrailingNIsCompleted | windows/src/realtime_frontend.cpp:215-223 | A word that ends in an n has it completed by the commit |
| TextServiceObject.TextService.BeginProvider | windows/src/text_service.cpp:315-344 | A request takes the next number with what it asks for, is pending if its thread starts, and is neither without a window |
| TextServiceObject.TextService.BeginProviderConversion | windows/src/text_service.cpp:277-313 | A conversion is a request for the logged keys, refused when no key is logged |
| TextServiceObject.TextService.CancelPendingProvider | windows/src/text_service.cpp:408-416 | A cancellation takes a number, clears the pending flag and the queue |
| TextServiceObject.TextService.ReplayDeferredProviderKeys | windows/src/text_service.cpp:545-597 | The loop over the deque equals the recursive meaning of replaying the queue |
| TextServiceObject.TextService.ApplyKeyboardOpenChange | windows/src/text_service.cpp:894-938 | Closing the keyboard on a composition clears the queue and the flags, shows the answer to a RESET and leaves a pending request pending; opening restores the mode |
| TextServiceObject.TextService.ResetAbandonedComposition | windows/src/text_service.cpp:2049-2074 | An abandoned composition cancels the request and clears front end, queue and flags |
| TextServiceObject.TextService.ForceCancelComposition | windows/src/text_service.cpp:2076-2134 | A composition on a dead engine is abandoned and the mode set to hiragana |
| TextServiceObject.TextService.OnCompositionTerminated | windows/src/text_service.cpp:2409-2465 | The application ending a composition cancels the request and resets exactly what the code resets |
| TextServiceObject.TextService.ShowHandled | windows/src/text_service.cpp:1972-2027 | The tail of the direct handler rewrites every flag, the registration flag included, from the state it shows, and restarts the front end when a composition ended |
| TextServiceObject.TextService.FeedRegistrationQueue | windows/src/text_service.cpp:509-528 | Registration takes the leading printable keys as one batch, or one control key |
| TextServiceObject.TextService.ApplyProviderResult | windows/src/text_service.cpp:418-543 | A reply is dropped when stale, dispatched to the shown candidate, or adopted and the queue replayed |
| TextServiceObject.TextService.OnKeyDown | windows/src/text_service.cpp:1491-1569 | The asynchronous part of a claimed key: queue behind a request, cancel, control the candidate, or accept it and queue; otherwise exactly what is left to the direct handler |
| TextServiceObject.TextService.HandleInRegistration | windows/src/text_service.cpp:1570-1630 | In the registration editor a key is a control, a character, or left to the direct handler; a quit is sent and also handled at once |
| TextServiceObject.TextService.HandleInPreedit | windows/src/text_service.cpp:1721-1821 | Space and function keys on a native preedit start a conversion; a function key is taken back when it does not start |
| TextServiceObject.ReplayUnfolds | windows/src/text_service.cpp:545-597 | The recursive meaning of replaying is the loop: one turn, then the rest unless the turn stopped it |
| ProviderRuns.DeferredKeysAreFifo | windows/src/text_service.cpp:418-597 | On every run whose requests start, replies are non-registration states, edits are granted, and in which no empty reply and no keyboard close meets waiting keys: no key waits without a pending request, and keys resolved followed by keys queued are the keys arrived since the last cancellation, in order |
| ProviderRuns.ReplyConserves | windows/src/text_service.cpp:418-543 | Whatever the outcomes, a reply neither loses, repeats nor reorders a key |
| ProviderRuns.KeyDownConserves | windows/src/text_service.cpp:1491-1569 | Whatever the outcomes, a key press on a settled or pending state neither loses, repeats nor reorders a key |
| ProviderRuns.RegistrationConserves | windows/src/text_service.cpp:509-528 | Batching keys into the registration editor resolves exactly the keys taken off the queue |
| ProviderRuns.RunsStrandExactly | windows/src/text_service.cpp:428-432 | A run ever leaves a key waiting without a pending request if and only if an empty reply to the current request finds keys in the queue |
| ProviderRuns.ConservationExactly | windows/src/text_service.cpp:894-918 | On a run that strands no key, resolved followed by queued keys are at every moment the keys arrived since the last cancellation, if and only if the keyboard never closes on a composition while keys wait |
| ProviderRuns.ClosingTheKeyboardLosesKeys | windows/src/text_service.cpp:894-918 | A run from the start whose requests, replies and edits all succeed and in which a queued letter vanishes when the keyboard closes; the reply edits the document afterwards |
| ProviderRuns.ReplyOutlivesTheClose | windows/src/text_service.cpp:894-938 | A close spends no number: the pending reply is still current and its text reaches the document |
| ProviderRuns.StrandedKeysAreOvertaken | windows/src/text_service.cpp:1491-1526 | After an empty reply the next key is resolved ahead of the stranded ones |
| ProviderRuns.RunSpends | windows/src/text_service.cpp:277-416 | On every run each request and cancellation spends a new number, one higher than the last |
| ProviderRuns.StaleRepliesAreInert | windows/src/text_service.cpp:418-427 | On every run, keyboard closes included: a reply changes nothing once another request or a cancellation came after its own, and while its number is the newest none has |
| ProviderRuns.PendingReplyIsApplied | windows/src/text_service.cpp:418-543 | The reply to the pending request is never taken for stale: whatever it carries and whatever is queued, it ends the request or starts a further one, and an empty one marks a failure |
| ProviderRuns.TypeAheadIsTyping | windows/src/text_service.cpp:545-597 | Plain keys typed behind a conversion leave, once its committed result arrives, the front end as if typed afterwards |
| DeferredKeys.RecordedKeysArePressedKeys | windows/src/text_service.cpp:1491-1569 | On every run the keys recorded since the last cancellation are, one by one and in order, the keys pressed since then with the keyboard open, each with its virtual key, shift state, Ctrl+J and, unless it edits, its character |
| DeferredKeys.TypedAheadIsTyped | windows/src/text_service.cpp:545-597 | Printing keys pressed behind a pending conversion, then its committed result: the front end is as if reset and typed into |
| DeferredKeys.CandidateTakesTheOldestKey | windows/src/text_service.cpp:434-475 | A reply with candidates while keys wait: the oldest key is sent as the command it is, or the candidate is accepted and the key keeps waiting, and nothing else changes |
| DeferredKeys.NothingResolvesBeforeTheAnswer | windows/src/text_service.cpp:1491-1519 | On every run until the pending request is answered no key is resolved and the front end does not change, unless the request is cancelled; without a keyboard change the keys wait on in order |
| DeferredKeys.KeysBehindACandidateStayOut | windows/src/text_service.cpp:434-475 | Of the keys queued when a candidate arrives none reaches the native front end before the next answer; at most the oldest is resolved, as sent |
| DeferredKeys.ConversionKeysConvert | windows/src/text_service.cpp:1732-1816 | Space on a native preedit asks for its conversion, and F6 to F10 on the lattice engine wait behind one |
| DeferredKeys.ConversionsSendThePreedit | windows/src/text_service.cpp:1738-1738 | The keys a conversion asks for, typed from nothing in the class of the moment, give exactly the preedit on the screen, after any typing, Backspace and change of class |
| DeferredKeys.KeysOnACandidate | windows/src/text_service.cpp:1521-1569 | On a shown candidate a key is the command it stands for, or accepts the candidate and waits |
| DeferredKeys.KeysInTheEditor | windows/src/text_service.cpp:1570-1614 | In the registration editor a key is its command, or else the character it types |
| DeferredKeys.WaitingCharactersAreBatched | windows/src/text_service.cpp:509-528 | In registration exactly the leading characters that wait are asked to be typed, as one batch |
| DeferredKeys.RepliesAreShown | windows/src/text_service.cpp:476-543 | A current reply goes into the document once, its candidate list beside it, and the flags say what is shown |
| DeferredKeys.DirectStatesAreShown | windows/src/text_service.cpp:1972-2027 | The same of a state the direct handler shows; in registration nothing goes into the document |
| DeferredKeys.AbandonedCompositionsAreGone | windows/src/text_service.cpp:2049-2134 | A composition ended by the application or left behind leaves no request, key, candidate or preedit; an open registration survives the first |
| DeferredKeys.ClosingRemovesTheComposition | windows/src/text_service.cpp:894-918 | Closing on a composition clears flags, list and queue and shows the answer to the RESET |
| DeferredKeys.ReopeningRestoresTheMode | windows/src/text_service.cpp:919-938 | Opening the keyboard again brings back the mode it was closed in |
| RelayHostObject.RelayHost.NoteActivity | windows/host/main.cpp:1215-1219 | A request stamps the time and marks a collection due and the engine used |
| RelayHostObject.RelayHost.DispatchLine | windows/host/main.cpp:1008-1029 | One line written to the engine, up to 64 dictionary lookups answered, and its response, if one comes |
| RelayHostObject.RelayHost.AwaitResponse | windows/host/main.cpp:1013-1028 | The loop over lookups reads, answers and gives up exactly as the recursive specification |
| RelayDelivery.AwaitReadsTheAnswer | windows/host/main.cpp:1013-1028 | Every lookup read on the way is answered in turn, and the response is the first line that is none |
| RelayDelivery.AwaitFindsTheAnswer | windows/host/main.cpp:1013-1028 | A response within 64 lookups is returned whenever the answers before it can be written |
| RelayHostObject.RelayHost.DispatchConvertKeys | windows/host/main.cpp:1031-1075 | Resetting, replaying keys as they are decoded and converting equals the specification on the decoded list, including where a bad list stops |
| RelayHostObject.RelayHost.TrackReply | windows/host/main.cpp:1449-1467 | A STATE reply updates the composing set, the flag and the mirror |
| RelayHostObject.RelayHost.ServeRequest | windows/host/main.cpp:1396-1476 | One critical section of a worker: claim, arbitrate RESET, relay, track, release on CLOSE |
| RelayDelivery.RequestsAreDelivered | windows/host/main.cpp:1400-1467 | After the RESET of a takeover the client's own line is written, as it is and once; the client gets the first answer read after it; a RESET that is ignored writes nothing; exactly the STATE lines handed back are published |
| RelayDelivery.AnswersComeBack | windows/host/main.cpp:1008-1029 | A request whose line is written gets the answer to it, if one comes within 64 lookups |
| RelayDelivery.ConversionSendsInOrder | windows/host/main.cpp:1031-1075 | An atomic conversion sends RESET, the decoded keys in order, and CONTROL CONVERT unless the answer to the last key is already a candidate or registration; it returns the last answer |
| RelayDelivery.ConversionsComeBack | windows/host/main.cpp:1031-1075 | With an engine that answers at once a conversion comes back if and only if its list was decoded in full |
| RelayDelivery.ConversionsAreDelivered | windows/host/main.cpp:1423-1437 | A conversion request adds the takeover's RESET and a beginning of its steps to the engine's input |
| RelayDelivery.AnswersAreTracked | windows/host/main.cpp:1449-1476 | After a STATE answer the host takes the session named, or the client, to be composing exactly in preedit, candidate and registration; after CLOSE for nothing |
| RelayDelivery.RequestsAreServedInOrder | windows/host/main.cpp:1371-1485 | On every run what a client's worker read is what it served, in order, and the request in hand |
| RelayDelivery.EngineGetsTheRequests | windows/host/main.cpp:1400-1506 | On every run the engine's whole input is takeovers, conversion steps, CLOSEs of leaving workers, collections, and for each client, in order and word for word, exactly the requests served whose write was accepted |
| RelayDelivery.InputStaysWithItsClient | windows/host/main.cpp:1423-1432 | The input stays with its client until another takes it or its worker is cleaned up |
| RelayHostObject.RelayHost.CleanUpClient | windows/host/main.cpp:1493-1508 | The end of a worker, whatever the order in which the container lists its sessions |
| RelayHostObject.RelayHost.CollectIfIdle | windows/host/main.cpp:1271-1317 | The collector dispatches GC and COMPACT if and only if the two values it read are an interval apart modulo 2^64, nothing is composing and a collection is due |
| RelayDelivery.CollectionsAskForBoth | windows/host/main.cpp:1287-1317 | A collection asks the engine for GC and then for COMPACT |
| RelayTrace.HostAndEngineAgree | windows/host/main.cpp:1208-1213 | Host and engine read the same session id off every line, and the engine refuses exactly the ids and empty requests its rules exclude |
| RelayTrace.ScopedTable | engine/ddskk-engine.el:1005-1021 | A scoped line can bring only its own session into the engine table, and CLOSE takes it out |
| RelayTrace.ConvertKeysTypes | windows/host/main.cpp:1031-1075 | An atomic conversion never types on top of another client |
| RelayOwnership.ServeKeeps | windows/host/main.cpp:1400-1476 | A request keeps the flag, the ownership and the tracking of composing sessions consistent |
| RelayOwnership.CleanUpKeeps | windows/host/main.cpp:1493-1511 | A cleanup removes exactly the sessions the worker still owns and keeps all else consistent |
| RelayOwnership.ServeHolds | windows/host/main.cpp:1400-1476 | A request brings no session into the engine without an owner |
| RelayRuns.SessionOwnership | windows/host/main.cpp:1400-1511 | On every run, at every mutex release: the flag is the non-emptiness of the composing set, composing sessions have owners unless they are named like a client that connected, owners are workers that have not finished cleanup |
| RelayPresence.ComposersHaveWorkers | windows/host/main.cpp:1449-1508 | On every run whatever composes belongs to a worker not yet cleaned up, to a session it owns or to the client itself; with all workers ended nothing composes |
| RelayRuns.CleanupClosesOnlyItsOwn | windows/host/main.cpp:1495-1506 | Every line a cleanup sends is the CLOSE of a session the leaving worker still owns |
| RelayRuns.TransferredSessionSurvives | windows/host/main.cpp:1110-1116 | A session resumed on another connection, and not named like the leaving client, keeps its owner and its composing mark through the old cleanup |
| RelayRuns.NoLeakedCheckpoints | windows/host/main.cpp:1468-1508 | While dispatches reach the engine every scoped session in its table has an owner; with all workers ended none is left |
| RelayRuns.LegacyClientsNeverMix | windows/host/main.cpp:1407-1442 | In all the engine ever receives a RESET lies between unscoped KEY or CONTROL lines of different clients |
| IdleCollection.NoCollectionWhileComposing | windows/host/main.cpp:1259-1319 | On every run, no collection is dispatched while the last published STATE of an owned session or live unscoped client that shares its entry with nobody is preedit, candidate or registration |
| IdleCollection.CollectionsAreChecked | windows/host/main.cpp:1271-1286 | On every run each collection follows its own passed check, which read the stamp last stored by then, or by its first read, and a clock no older than that |
| IdleCollection.ChecksAreIdleExactly | windows/host/main.cpp:1277-1281 | On every run all passed checks found every stamp an interval old if and only if none read a clock behind its stamp or missed a younger stamp within the interval |
| IdleCollection.HonestForEveryIntervalExactly | windows/host/main.cpp:1277-1281 | A check is truthful for every interval it passes if and only if its stamp is the youngest stored and its clock is not behind it |
| IdleCollection.QuietChecksAreIdle | windows/host/main.cpp:1215-1219 | With stamps stored in order and none stored between the two reads a passed check found all stamps an interval old |
| IdleCollection.CollectionAcrossTheReads | windows/host/main.cpp:1277-1281 | A reachable run, for either order of the reads: stamps in order, one stored between the reads, and a collection an instant after it |
| IdleCollection.DisorderCanBeHarmless | windows/host/main.cpp:1215-1219 | A reachable run: stamps out of order, and yet the check that passes finds all of them an interval old |
| IdleCollection.ActivityBetweenCollections | windows/host/main.cpp:1283-1286 | Between any two collections a request noted activity |
| IdleCollection.LateStoreRewindsTheStamp | windows/host/main.cpp:1215-1219 | A stamp taken early and stored late makes the idle check pass although a younger stamp was stored |
| IdleCollection.CollectionAtAFreshStamp | windows/host/main.cpp:1215-1219 | A reachable run: stamps out of order, none stored between the reads, and a collection although a stored stamp is as young as the check itself |
| NameCollision.PromiseHoldsExactly | windows/host/main.cpp:1259-1319 | For any session names and number of clients in use: no collection under this owner's composition, on any run, if and only if no session may be named "legacy:" and the number of a client so that the two share the owner's entry |
| NameCollision.ClientIsHidden | windows/host/main.cpp:1449-1467 | A reachable collection while the last published STATE of an unscoped client is mid-composition |
| NameCollision.SessionIsHidden | windows/host/main.cpp:1449-1467 | A reachable collection while the last published STATE of an owned session is mid-composition |
| Client.EngineClient.TransactRequest | windows/src/engine_client.cpp:81-103 | Connect, resynchronize if owed, exchange, remember the response |
| Client.EngineClient.Exchange | windows/src/engine_client.cpp:105-172 | One exchange: not started, answered, or lost with the pipe dropped and a RESET owed |
| Client.EngineClient.ResetSession | windows/src/engine_client.cpp:198-206 | A RESET that fails leaves a RESET owed |
| Client.EngineClient.PreviewLine | windows/src/engine_client.cpp:214-236 | A preview connects and exchanges one line as it is, without resynchronizing |
| Client.ResetComesFirst | windows/src/engine_client.cpp:81-206 | On every run, after a lost reply no session request other than RESET is sent until a RESET was answered; previews alone are exempt |
| Client.SessionRequestsAreScoped | windows/src/engine_client.cpp:38-43 | A session request never looks like a preview, and asking for RESET is the resynchronizing RESET |
| Client.RequestLineMeans | windows/src/engine_client.cpp:38-43 | A request line is the session's name, the request without its trailing newlines, and one newline |
| Client.RequestIsSent | windows/src/engine_client.cpp:81-103 | A request sends an owed RESET and then its own line in its own exchange, and nothing else; it returns and remembers the answer to that line |
| Client.PreviewIsSent | windows/src/engine_client.cpp:214-236 | A preview sends its own line, settles nothing that is owed, and returns the answer to it |
| Client.RequestsAreSentInOrder | windows/src/engine_client.cpp:81-206 | On every run the lines sent that are neither owed RESETs nor previews are, in order, the request lines of exactly the calls whose exchange was started |
| Pairing.RepliesArePaired | windows/host/main.cpp:1008-1029 | On every run, with clients giving up and reconnecting at any moment, engine death and at most 64 lookups a request, each reply a client takes answers the very request it waits on |
| Pairing.DeliveryIsReachable | windows/host/main.cpp:1008-1029 | With any limit on lookups a run hands a client the answer to its request |
| Pairing.EngineKeeps | windows/host/main.cpp:1014-1028 | Wherever the request in flight is, a step of the engine leaves it in exactly one place |
| Pairing.RepliesArePairedExactly | windows/host/main.cpp:1013-1028 | Every reply taken on every run answers its own request if and only if no request makes more than 64 lookups |
| Pairing.MisdeliveryIsReachable | windows/host/main.cpp:1013-1022 | With a 65th lookup allowed, a run from the start on which the second client takes the first one's answer |
| Mirror.SnapshotsAreWhole | sumi-ui/indicator/main.c:520-530 | On every byte-level interleaving an accepted snapshot is one published STATE line, cut at 8191 bytes, and later snapshots are later publications |
| Mirror.WriterKeeps | windows/host/main.cpp:78-87 | Every writer step, bytes in any order, keeps the sequence number and the buffer in agreement |
| Mirror.StateMirror.PublishStateMirror | windows/host/main.cpp:78-87 | Publishing a STATE line advances the sequence by two and leaves the line NUL-terminated; other responses change nothing |
| Mirror.StateMirror.ReadStateMirror | sumi-ui/indicator/main.c:520-530 | An undisturbed read accepts exactly a new, stable sequence and returns the line |
| Mirror.PublishingFinishes | windows/host/main.cpp:78-87 | A publication left to finish, byte by byte, is published |
| Mirror.ReadingFinishes | sumi-ui/indicator/main.c:520-530 | A reading left alone while something new is shown accepts the last publication |
| Sessions.Engine.DispatchSessionLine | engine/ddskk-engine.el:965-1003 | Switching globals lazily serves a line exactly as a map from session to state does; after CLOSE the engine does not hold the session, after any other line it does, and no other session comes or goes |
| Sessions.Engine.SwitchTo | engine/ddskk-engine.el:977-989 | A switch saves the active session, then creates or restores the next one, and changes no session |
| Sessions.Engine.CaptureNativeState | engine/skk-ime-session.el:46-60 | The capture loop saves every bound variable of the list, in list order |
| Sessions.Engine.RestoreNativeState | engine/skk-ime-session.el:62-69 | The restore loop writes the saved values back over the globals |
| Sessions.CapturedValueComesBack | engine/skk-ime-session.el:46-69 | A value survives capture and restore if and only if it does not carry the private marker tag |
| Sessions.RestoreAfterCapture | engine/skk-ime-session.el:46-69 | Restoring a capture writes back exactly the captured variables that were bound |
| SessionIsolation.Isolation | engine/ddskk-engine.el:965-1003 | For every interleaving of scoped requests each session gets the replies of its own requests run alone, if the interpreter ignores the variables initialization leaves unset |
| SessionIsolation.IsolationExactly | engine/ddskk-engine.el:156-203 | Every interpreter is isolated if and only if initialization assigns every checkpointed variable |
| SessionIsolation.ForgottenVariableLeaks | engine/ddskk-engine.el:156-203 | A variable initialization forgets carries one session's state into another's replies |
| SessionIsolation.EngineLeaks | engine/ddskk-engine.el:156-203 | In this engine exactly fifteen variables are checkpointed and not initialized |
| SessionIsolation.EngineIsolation | engine/ddskk-engine.el:952-1003 | This engine is not isolated for every interpreter, and is for those that ignore the fifteen |
| SessionLifetime.HeldUntilClosed | engine/ddskk-engine.el:965-1003 | On every run a session exists exactly from its first request after a CLOSE to its next CLOSE |
| SessionLifetime.ReopenedSessionIsNew | engine/ddskk-engine.el:965-1003 | Whatever happened before, the replies to a closed session's further requests, in any interleaving, are those of the same requests alone on an engine that never held it, if the interpreter ignores the uninitialized variables |
| SessionLifetime.FirstRequestFindsNothing | engine/ddskk-engine.el:952-963 | The first request of a session is answered as on an empty buffer with the initial values and no registration under way |
| SessionLifetime.TableIsAsTheRelayCounts | engine/ddskk-engine.el:1005-1021 | For any lines the sessions the engine holds are those the relay's account of its input says it holds |
| KeyList.EncodeKeys | windows/src/engine_protocol.cpp:58-73 | The encoder writes the decimal list, or nothing when a key is no scalar |
| KeyList.EngineDecode | engine/ddskk-engine.el:344-364 | The loop accepts exactly the lists the grammar accepts, with their keys, which is what scanning piece by piece returns |
| KeyList.EngineScanMeans | engine/ddskk-engine.el:344-364 | What the engine's loop returns is exactly the keys of the grammar's lists |
| KeyList.HostDecode | windows/host/main.cpp:1036-1062 | The loop feeds the keys before the first bad piece, within its limits and without 32-bit overflow, which is what scanning piece by piece feeds |
| KeyList.HostResultMeans | windows/host/main.cpp:1036-1062 | The host's loop feeds the keys before the first bad piece, cut at 1024 keys, and accepts exactly the grammar's lists within its limits |
| KeyList.DecodersAgree | windows/host/main.cpp:1031-1062 | What the two loops return agrees: the host accepts exactly the lists the engine accepts up to 8192 bytes and 1024 keys, with the same keys, and otherwise feeds a prefix of them |
| KeyList.KeyListRoundTrip | windows/src/engine_protocol.cpp:58-81 | Both decoders invert the encoder, and 1024 scalars always fit 8192 bytes |
| KeyList.DecodedKeysAreScalars | engine/ddskk-engine.el:344-364 | Decoded keys are Unicode scalars, whatever the string |
| KeyList.TrailingCommaIsAccepted | engine/ddskk-engine.el:344-364 | One trailing comma is accepted although the encoder never writes it |
| Decimal.ValueOfDigits | windows/src/engine_protocol.cpp:53-56 | A decimal numeral is nonempty, all digits, and means its number |
| Unicode.Utf16RoundTrip | windows/src/engine_protocol.cpp:35-41 | Scalars as UTF-16 units are well-formed and decode to the same scalars |
| ScalarHex.EncodeHex | engine/ddskk-engine.el:279-312 | Writing four digits in the BMP and six above it into a buffer of zeros equals plain six-digit hex |
| ScalarHex.DecodeScalarHex | windows/src/engine_protocol.cpp:25-45 | The client accepts exactly the six-digit groups of scalars and pushes their UTF-16 units |
| ScalarHex.EngineUnhex | engine/ddskk-engine.el:314-342 | The engine accepts nonempty lower-case groups of scalars |
| ScalarHex.HexRoundTrip | windows/src/engine_protocol.cpp:25-45 | Encoding then decoding gives the text back as well-formed UTF-16, on both sides |
| ScalarHex.ClientReadsWhatEngineReads | engine/ddskk-engine.el:314-342 | What the engine decodes the client decodes the same, and the client never yields ill-formed UTF-16 |
| AcceptedLines.TextsAreAcceptedExactly | windows/src/engine_protocol.cpp:25-45 | A field is accepted as a text if and only if it is the hex of that text, in upper or lower case |
| StateLine.ParseStateResponse | windows/src/engine_protocol.cpp:109-144 | Field count, tag, registration check, numbers, texts and candidate list, with every refusal |
| StateLine.DecodeCandidates | windows/src/engine_protocol.cpp:127-138 | The loop over commas equals decoding every piece of the field |
| StateLine.StateRoundTrip | engine/ddskk-engine.el:366-427 | Parsing an emitted line gives the state back if and only if the candidates are not one empty string |
| StateLine.ParsedStateIsWellFormed | windows/src/engine_protocol.cpp:109-144 | Whatever line arrives, every text of a parsed state is well-formed UTF-16 |
| AcceptedLines.NumeralsAreAcceptedExactly | windows/src/engine_protocol.cpp:47-50 | A field is accepted as a number if and only if it is a decimal numeral of a 32-bit number, perhaps with a minus sign |
| AcceptedLines.LinesAreAcceptedExactly | windows/src/engine_protocol.cpp:109-144 | A line is accepted, and as this state, if and only if its eight fields, or nine in registration, say so one by one |
| Dictionary.ParseSkkJisyo | windows/host/main.cpp:533-550 | The line loop equals folding the entries of all lines into the map |
| Dictionary.JisyoRoundTrip | windows/host/main.cpp:533-550 | Parsing rendered entries gives the map back, the last line of a reading winning |
| DictionaryLines.EntriesAreRead | windows/host/main.cpp:540-548 | A line yields an entry if and only if it is no comment and has a space and a slash after it, a carriage return at its end left aside |
| DictionaryLines.CrlfTextIsParsedAlike | windows/host/main.cpp:540-541 | Text whose lines end in CR and LF is parsed like text whose lines end in LF |
| Dictionary.MergeBuiltinCandidates | windows/host/main.cpp:661-718 | The token loops with bracket skipping and a seen list equal the specified merge, rendered |
| Dictionary.MergeKeepsFirsts | windows/host/main.cpp:661-718 | The merge is exactly the candidates at the first position of their key before the semicolon, in order |
| DictionaryLines.KeyLeavesTheAnnotation | windows/host/main.cpp:696-698 | The key of a candidate is what stands before its first semicolon |
| DictionaryLines.SameWordIsOfferedOnce | windows/host/main.cpp:696-703 | A word given twice with different annotations, or with none, is offered once, as first given |
| DictionaryLines.BlocksAreSkipped | windows/host/main.cpp:689-694 | Everything from a token that opens a bracket to the closing one is left out, and nothing else |
| Dictionary.MoreDictionariesExtend | windows/host/main.cpp:661-718 | Appending dictionaries only extends the list |
| Dictionary.MergeIsIdempotent | windows/host/main.cpp:661-718 | Merging a merged value again changes nothing |
| Dictionary.ParseServerReply | engine/ddskk-engine.el:1088-1108 | The engine's character loop keeps the nonempty pieces that end in a slash |
| Dictionary.ParsePreviewReply | windows/src/engine_client.cpp:236-256 | The client's loop keeps the nonempty pieces |
| Dictionary.RepliesRoundTrip | windows/host/main.cpp:740-750 | Engine and preview client each recover exactly the merged list from the host's reply |
| Framing.LineReader.TakeLine | framework/nelisp-ime-stdio.el:77-89 | A complete line leaves the buffer, without its carriage returns |
| Framing.LineReader.ReadNextLine | framework/nelisp-ime-stdio.el:101-117 | Reading on until a line is complete or the input ends |
| Framing.FramingIsChunkIndependent | framework/nelisp-ime-stdio.el:77-117 | For every division into nonempty reads the lines are those of the whole input |
| Framing.FramedIsSplit | framework/nelisp-ime-stdio.el:77-117 | Those lines are the newline split, carriage returns stripped except on a final unterminated line |
| Framing.EmptyReadCutsALine | framework/nelisp-ime-stdio.el:105-112 | An empty read in mid-input does cut a line in two |

## Left out

- COM, TSF, GDI, GTK and registry code, the language bar, icons, indicator windows, the settings UI and process spawning: foreign calls or presentation.
- DDSKK itself, the lattice engine, the user dictionary and the editor buffer: the per-session interpreter is an arbitrary function from a session's state and a line to a state and a reply.
- Session switching covers `SESSION id` lines. The unscoped `KEY` fast path of the engine bypasses switching; the learned dictionary and the engine id are shared on purpose.
- Sessions: markers are attached, and a stored value is a flat value or one marker, so markers nested in lists are not modelled.
- Provider protocol: what the provider does with a request (`DeferredKeys` says what is asked for); the synchronous part of the key handler is a parameter (the front end and the state it leaves); the preview list shown instead of the busy notice, the kana-mode flag, the registration range and its commit flag do not appear.
- ProviderRuns.DeferredKeysAreFifo: assumes that requests start, replies are non-registration states and edits succeed, because the code drops keys otherwise; the lemmas about single steps have no such assumption. The conditions on empty replies and keyboard closes are exact (`ProviderRuns.RunsStrandExactly`, `ProviderRuns.ConservationExactly`).
- Deactivation of the text service and the focus notification: the first ends the object, the second changes nothing.
- Key codes above the basic plane that reach the front end: its keys are printable ASCII, and others are ignored as in the code.
- FrontendRuns.ReplayInvariant: needs a continuous preedit, or a first key that is an uppercase letter other than L and Q, and neither latin mode; outside that scope the claim is false (`FrontendRuns.DirectUndoExactly`).
- Relay: requests are single lines without trailing newlines, the text of a preview's answer is not modelled, and each critical section of a worker is one step. The clock stays below 2^64 ticks; sequence numbers are unbounded. The engine's session table takes every written line for a request, which `Pairing` shows to hold up to 64 lookups a request.
- IdleCollection.NoCollectionWhileComposing: excepts owners whose entry in the composing set is shared by a session and an unscoped client, because the code cannot tell them apart; `NameCollision.PromiseHoldsExactly` says exactly when that happens.
- RelayRuns.TransferredSessionSurvives: excepts a session named like the leaving client, for the same reason.
- RelayRuns.NoLeakedCheckpoints: needs every dispatch to reach the engine; a CLOSE that is lost leaves its session behind.
- Pairing: timeouts, I/O errors and cancellation are one event that may happen at any moment; partial pipe writes, overlapped I/O details and memory ordering are not modelled. The idle collector is a worker whose client never reads.
- Mirror: sequential consistency, one writer and one reader; the cross-process caret mirror has several writers and is not part of this model.
- Dictionary: text is bytes; UTF-8 validation, the byte-order mark, file loading, the hexadecimal reading of a preview request and the external dictionary server are not part of this model.
- KeyList: key lists are checked as strings; the maximum pipe message size is not modelled.
- The engine's gap buffer and snapshot, the test host's document store, palettes, and the pipe client's backoff.
