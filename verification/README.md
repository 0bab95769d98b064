# A verified model of the co-op prototype's protocols, codecs and journals

CoopPrototype lets several players share one single-player game. Each player's process runs its own copy of the world;
the processes exchange reliable packets and keep small replicated state machines in step. This project models the parts
of that code where the difficulty is in the logic, and proves what the code is for.

- **Dialogue leases** (`DialogueLease`, `DialogueNode`, `DialoguePeer`, `DialogueSystem`, `DialogueRuns`,
  `DialogueTheorems`, `DialogueHistories`, `DialogueFencing`, `DialogueExchange`, `DialogueReplays`, `DialogueTimers`,
  `SerialSequence`). A host hands out one lease at a time to whoever started a dialogue. `DialogueNode`
  is the object with the fields of `ModMain`; each of its methods is proved against a function on the value of those
  fields. `DialogueSystem` puts one host and any number of clients on FIFO links, each packet free to get lost before it
  enters a link, and lets the game, the operator and the clock act at any moment. One inductive invariant (`DialogueRuns`)
  carries the theorems: replica agreement, fencing by epochs, at most one foreign replay per trigger. A dialogue that ends
  while its request is pending gives its lease back in every run of the system, unless one of three named things made the
  client forget the end; a loss-free run of the whole system that ends with an orphaned lease is exhibited. What two peers
  say to each other is the same lease on both sides (`DialogueExchange`), nothing is marked as replayed without the native
  call (`DialogueReplays`), and the timeouts and keep-alives fit each other (`DialogueTimers`).
- **Chat text** (`Utf8`, `ChatText`, `ChatEditor`, `ChatSession`). The UTF-8 table and grammar of RFC 3629 (sections 3 and 4) are stated
  independently of the code; the hand-written validator, encoder and truncator are proved against them, surrogates against
  RFC 2781 (sections 2.1 and 2.2), and the line editor is proved to be an editor of a list of Unicode scalars. The truncator can
  cut a character at the byte limit; the exact condition and a text are given.
- **The object journal** (`AreaObjectJournal`, `JournalText`, `JournalRows`, `JournalReplay`, `JournalFile`,
  `JournalCompatibility`). A map in which the
  newest version wins, a printer of JSON rows and a parser that looks for field names by substring search. No search for a
  field can match inside a string, so a row always comes back; a whole file comes back exactly when no exported string holds
  a newline.
- **The state journal** (`AreaStateJournal`). The cached path of a moved entity against the full path, and conserved counters.
- **Enemies** (`EnemyStateWire`, `EnemyMotion`, `EnemyGait`, `EnemyAuthority`, `NativeActionEdges`,
  `NativeActionHistory`). The quantised snapshot with its error
  bounds over the reals, the motion filter against a much simpler decision together with the proof that its hold dies out,
  the selection of the one simulating peer, and the Start and Exit edges of native actions.
- **Smaller algorithms** (`EntityIdAllocator`, `HazardSendOnce`, `GlassPayload`). Fresh entity ids, the send-once set under
  every interleaving of threads, and the Base64 payload of section 4 of RFC 4648.

Where the code does not do what one would expect, the model follows the code and a lemma says exactly when it does:
`OperatorRequestCoherence`, `CompletionIsReturned` (with the run of `CompletionCanBeLost`), `LimitIsSoundExactlyWithoutCut`,
`JournalRoundTrip`, `FastPathIsFullPath` and `MisfiledExactlyWhenReused`, `RagdolledIsNeverEncoded`,
`ResetIsSafeExactlyWhenQuiet`, `QueuedEdgesAlternateExactly` (with `BindingHidesAGap`), `CanonicalExactly` (with
`InnerPaddingIsAccepted`), `ChainsExactly` (with `IsAfterIsNotTransitive`).

## Model

| member | source | states |
|---|---|---|
| SerialSequence.DistanceCountsAdvances | CoopPrototype/Src/CoopSerialSequence.h:22-27 | ForwardDistance is the number of Advance calls that lead from one serial to the other |
| SerialSequence.IsAfterCountsAdvances | CoopPrototype/Src/CoopSerialSequence.h:29-39 | a serial is after another if and only if between one and half a cycle of Advance calls lead to it |
| SerialSequence.IsAfterIsTotalAndAntisymmetric | CoopPrototype/Src/CoopSerialSequence.h:29-67 | two different live serials are ordered one way only, and Newer does not depend on its argument order |
| SerialSequence.ChainsExactly | CoopPrototype/Src/CoopSerialSequence.h:29-39 | a serial after one that is after a third is after the third if and only if the two distances together are at most half a cycle |
| SerialSequence.IsAfterIsNotTransitive | CoopPrototype/Src/CoopSerialSequence.h:29-39 | three serials of which each is after the one before, and the first after the last |
| SerialSequence.NewerIsTheLater | CoopPrototype/Src/CoopSerialSequence.h:53-67 | Newer returns one of its arguments, and the other, if it is another, is before it |
| DialogueNode.Node.BuildDialogueLeasePacket | CoopPrototype/Src/CoopDialogueSync.cpp:178-220 | every packet takes a fresh sequence and an event id made from sender, dialogue, sequence and command, and repeats the stored identity |
| DialogueNode.Node.RequestDialogueLease | CoopPrototype/Src/CoopDialogueSync.cpp:706-776 | a client sends a fresh request and only then becomes pending on that very trigger; a host or an empty trigger changes nothing |
| DialogueNode.Node.ObserveLocalDialogueTrigger | CoopPrototype/Src/CoopDialogueSync.cpp:778-934 | a host grants itself under a new epoch if it is free, a client requests; a held or pending lease of the same dialogue is only kept alive |
| DialogueNode.Node.ObserveLocalDialogueActivity | CoopPrototype/Src/CoopDialogueSync.cpp:936-968 | a line of the held dialogue resets the timeout and nothing else |
| DialogueNode.Node.OnLocalDialogueCompleted | CoopPrototype/Src/CoopDialogueSync.cpp:970-1005 | the end of the own dialogue releases the lease, the end of a pending one is remembered |
| DialogueNode.Node.ReleaseLocalDialogueLease | CoopPrototype/Src/CoopDialogueSync.cpp:1007-1056 | the owner emits a release of its lease and ends empty; nobody else does anything |
| DialogueNode.Node.ReplayGrantedDialogue | CoopPrototype/Src/CoopDialogueSync.cpp:1491-1657 | one try of the native replay: nothing if it was applied before, else the call, recorded with the trigger if it succeeds; DialogueReplays says when that is |
| DialogueNode.Node.ShouldSuppressRemoteDialogueRetrigger | CoopPrototype/Src/CoopDialogueSync.cpp:1680-1700 | a rule that a foreign lease runs is suppressed and its timeout reset |
| DialogueNode.Node.OnRequest | CoopPrototype/Src/CoopDialogueSync.cpp:1841-1961 | the free host grants a new epoch, repeats the grant to the owner of the same trigger, denies anybody else |
| DialogueNode.Node.OnGrant | CoopPrototype/Src/CoopDialogueSync.cpp:1974-2012 | a grant that is not stale becomes the active lease, or is released at once if its own dialogue has ended |
| DialogueNode.Node.OnDeny | CoopPrototype/Src/CoopDialogueSync.cpp:2014-2036 | only the denial of the own pending trigger ends the wait |
| DialogueNode.Node.OnRelease | CoopPrototype/Src/CoopDialogueSync.cpp:2064-2130 | the host rebroadcasts the release of its owner; a client clears on a release of its lease, and also when it holds none |
| DialogueNode.Node.HandleDialogueLease | CoopPrototype/Src/CoopDialogueSync.cpp:1702-2133 | guards, event deduplication and dispatch of the five commands |
| DialogueNode.Node.TickPendingReplay | CoopPrototype/Src/CoopDialogueSync.cpp:2204-2238 | a deferred replay is retried after its interval while its lease is still the active one |
| DialogueNode.Node.TickDialogueLease | CoopPrototype/Src/CoopDialogueSync.cpp:2155-2318 | retry, periodic activity of the owner, and the host's timeout of a remote owner |
| DialogueNode.Node.ClearActiveDialogueLease | CoopPrototype/Src/CoopDialogueSync.cpp:2135-2153 | clears lease, pending request, remembered completion and deferred replay at once |
| DialoguePeer.PerformKeepsCoherence | CoopPrototype/Src/CoopDialogueSync.cpp:824-866 | on every peer and for every event active and pending lease exclude each other, and an active lease equals its stored descriptor on dialogue, owner, trigger, rule and epoch |
| DialoguePeer.OperatorRequestCoherence | CoopPrototype/Src/CoopDialogueSync.cpp:706-776 | the operator's manual request keeps that exactly when the peer is the host or holds no lease |
| DialoguePeer.AtMostOnceReplay | CoopPrototype/Src/CoopDialogueSync.cpp:1491-1657 | whatever packets and events arrive, no trigger is invoked twice and each invocation ran under the foreign lease that names it |
| DialogueReplays.ForeignGrantIsReplayed | CoopPrototype/Src/CoopDialogueSync.cpp:1974-2012 | a landing foreign grant becomes the lease and appends exactly its one native call if and only if its trigger is new and the call succeeds; if the call fails the replay stays pending |
| DialogueReplays.HostReplaysItsGrant | CoopPrototype/Src/CoopDialogueSync.cpp:1896-1961 | a free host replays the dialogue it grants to a client in the same way |
| DialogueReplays.NextGrantIsReplayed | CoopPrototype/Src/CoopDialogueSync.cpp:1974-2012 | in every reachable state the same holds of the foreign grant a client processes next |
| DialogueReplays.DeferredReplayIsMade | CoopPrototype/Src/CoopDialogueSync.cpp:2204-2238 | while the lease is held, through any packets and events, a deferred replay is made by the first attempt that succeeds, once and under that lease, and until then stays deferred |
| DialogueReplays.ReplayIsPrompt | CoopPrototype/Src/CoopDialogueSync.cpp:2204-2238 | attempts come every quarter of a second: once the native call works the replay is made within that time |
| DialogueReplays.AppliedIsPlayedOrOwn | CoopPrototype/Src/CoopDialogueSync.cpp:1504-1657 | in every reachable state a trigger marked as applied was triggered by that peer or stands in its list of native calls, and never both |
| DialogueExchange.BusyPeerStaysSilent | CoopPrototype/Src/CoopDialogueSync.cpp:824-866 | a trigger on a peer that holds or awaits a lease sends nothing and changes neither |
| DialogueExchange.IdleHostTakesLease | CoopPrototype/Src/CoopDialogueSync.cpp:868-898 | an idle host takes exactly the triggered lease under the next epoch and tells everybody |
| DialogueExchange.IdleClientAsks | CoopPrototype/Src/CoopDialogueSync.cpp:900-934 | an idle client asks for exactly what was triggered and waits exactly if the request was sent |
| DialogueExchange.RequestIsAnswered | CoopPrototype/Src/CoopDialogueSync.cpp:1841-1961 | every complete request is answered: granted to the one who asked by a free host, granted again to the owner of the very trigger, denied to anybody else |
| DialogueExchange.AskedIsHeld | CoopPrototype/Src/CoopDialogueSync.cpp:900-934 | from the trigger on an idle client over a free host and back both sides hold exactly the lease that was asked for |
| DialogueExchange.DenialEndsTheWaitExactly | CoopPrototype/Src/CoopDialogueSync.cpp:2014-2036 | a denial ends the wait if and only if it reaches the peer whose pending trigger it names, and touches no lease |
| DialogueExchange.OwnLeaseIsGivenBack | CoopPrototype/Src/CoopDialogueSync.cpp:970-1056 | the end of the own dialogue and the operator's release send exactly the held lease back and leave the peer as if fresh; without an own lease they send nothing |
| DialogueExchange.ReleaseEndsItEverywhere | CoopPrototype/Src/CoopDialogueSync.cpp:2064-2130 | a release that names the host's lease ends it there, is passed on, and ends it at a client that holds it |
| DialogueExchange.StrayPacketIsIgnored | CoopPrototype/Src/CoopDialogueSync.cpp:1702-1745 | malformed packets, packets for another peer and packets delivered by another than their sender do nothing |
| DialogueExchange.RepeatedPacketIsIgnored | CoopPrototype/Src/CoopDialogueSync.cpp:1747-1758 | handling any packet a second time changes nothing and sends nothing |
| DialogueExchange.GrantTakesEffectExactly | CoopPrototype/Src/CoopDialogueSync.cpp:1974-2012 | a grant takes effect if and only if it is complete and not older than the lease that is held; any other leaves the client as it is |
| DialogueTimers.LeaseIsKeptAlive | CoopPrototype/Src/CoopDialogueSync.cpp:2038-2062 | through any events a host keeps a remote owner's lease if and only if the owner does not release it and is heard of before 20 seconds of silence are over |
| DialogueTimers.OwnerIsHeard | CoopPrototype/Src/CoopDialogueSync.cpp:2240-2285 | while it owns a lease a client is never silent for three seconds of ticks |
| DialogueTimers.ActivityRefreshesHost | CoopPrototype/Src/CoopDialogueSync.cpp:2038-2062 | and what it sends then is a sign of life to a host with the same lease |
| DialoguePeer.CompletionSurvivesWait | CoopPrototype/Src/CoopDialogueSync.cpp:984-990 | after any packets and any events of the game before its own grant, a client remembers a completion if and only if the dialogue it asked for has ended and since then no release and no denial was acted on and no request sent |
| DialoguePeer.CompletedBeforeGrant | CoopPrototype/Src/CoopDialogueSync.cpp:1779-1814 | then the grant is answered with a release of exactly its epoch and trigger and the client ends with no lease; otherwise it is left owning a dialogue that is over |
| DialogueRuns.RunInv | CoopPrototype/Src/CoopDialogueSync.cpp:1702-2318 | the invariant over host, links and clients that every step of every run keeps |
| DialogueTheorems.ReplicaAgreement | CoopPrototype/Src/CoopDialogueSync.cpp:1974-2130 | each client's lease is the fold of the broadcasts it has processed or empty because it gave up its own; a client that has caught up on a loss-free link agrees with the host |
| DialogueTheorems.EpochNamesOneLease | CoopPrototype/Src/CoopDialogueSync.cpp:868-898 | an epoch stands for one owner, trigger and dialogue on every peer and at all times |
| DialogueTheorems.LeasesAreSeparated | CoopPrototype/Src/CoopDialogueSync.cpp:1852-1961 | different leases of the host have rising epochs and the host was idle in between |
| DialogueTheorems.LeaseEndsExactlyBy | CoopPrototype/Src/CoopDialogueSync.cpp:2064-2318 | the host's lease ends exactly by the release of its owner that names it, the timeout of a remote owner, or the host's own completion |
| DialogueTheorems.ReplaysAreGrantedOnceAndForeign | CoopPrototype/Src/CoopDialogueSync.cpp:1504-1510 | in every reachable state each replay was granted by the host, ran under that lease, is the only one of its trigger on the peer, and is never of the peer's own trigger |
| DialogueTheorems.CompletionCanBeLost | CoopPrototype/Src/CoopDialogueSync.cpp:2109-2128 | a loss-free run of the system after which a client owns the lease of a dialogue that is over |
| DialogueHistories.ClientIsItsHistory | CoopPrototype/Src/CoopDialogueSync.cpp:1702-2133 | in any run a client's state is its own packets and events performed in order; nothing else in the system touches it |
| DialogueHistories.OwnGrantLands | CoopPrototype/Src/CoopDialogueSync.cpp:1974-1997 | in every state with the invariant of RunInv a grant for the client at the head of its link passes every guard: it is complete, new and not stale |
| DialogueHistories.CompletionIsReturned | CoopPrototype/Src/CoopDialogueSync.cpp:984-990 | in every run: a dialogue ends at a client while its request is pending; the client's next grant, when processed, is given back with a release of exactly that lease if and only if nothing the client saw since the (last) end made it forget; otherwise it stays owner and says nothing |
| DialogueFencing.StaleWordsAreHarmless | CoopPrototype/Src/CoopDialogueSync.cpp:2038-2130 | in every reachable state an activity or release under way to the host speaks of a lease that was granted to its sender, and unless it is exactly the lease the host holds now, taking it changes nothing but the queue and sends nothing |
| DialogueFencing.OnlyItsReleaseEndsALease | CoopPrototype/Src/CoopDialogueSync.cpp:2014-2130 | in every reachable state the host's next word to a client, unless a grant, ends the client's lease if it is the release of exactly that lease and otherwise leaves the lease as it is |
| Utf8.GrammarIsImageOfEncode | CoopPrototype/Src/CoopChat.cpp:333-378 | the character grammar of RFC 3629 section 4 is exactly the image of the table of section 3 |
| Utf8.ScanIsLongest | CoopPrototype/Src/CoopChat.cpp:311-331 | the scan of a text is its longest prefix of encoded printable scalars within the limit |
| Utf8.EncodeAllInjective | CoopPrototype/Src/CoopChat.cpp:333-406 | two lists of scalars with one encoding are the same list |
| ChatText.CombineUndoesSplit | CoopPrototype/Src/CoopChat.cpp:24-28 | combining the surrogates of RFC 2781 section 2.1 gives the scalar back |
| ChatText.WideCharToUtf8 | CoopPrototype/Src/CoopChat.cpp:380-406 | the encoder yields the encoding of RFC 3629 of every scalar that is not a control, and nothing for any other value |
| ChatText.RangeChecksAreTheGrammar | CoopPrototype/Src/CoopChat.cpp:351-372 | the accumulated codepoint with its range checks accepts exactly the grammar's printable characters |
| ChatText.IsValidUtf8 | CoopPrototype/Src/CoopChat.cpp:333-378 | accepts exactly the encodings of lists of printable scalars and counts the scalars |
| ChatText.LimitUtf8 | CoopPrototype/Src/CoopChat.cpp:311-331 | the longest valid prefix of at most 255 characters, cut at 768 bytes |
| ChatText.LimitIsSoundExactlyWithoutCut | CoopPrototype/Src/CoopChat.cpp:311-331 | the truncated text is valid, and truncation idempotent, if and only if the byte limit does not fall inside a character |
| ChatText.LimitCanCut | CoopPrototype/Src/CoopChat.cpp:311-331 | a text of 193 characters that the truncator cuts inside the last one |
| ChatEditor.MessageKeepsChat | CoopPrototype/Src/CoopChat.cpp:81-160 | every window message keeps the line a list of at most 255 printable scalars of at most 768 bytes, and the pending unit a high surrogate |
| ChatEditor.MessageEditsOneScalar | CoopPrototype/Src/CoopChat.cpp:81-160 | a message appends at most one scalar, removes exactly the last one on backspace, or closes the line |
| ChatEditor.TypingAppends | CoopPrototype/Src/CoopChat.cpp:258-292 | typing a printable scalar appends exactly it, surrogate pairs included |
| ChatEditor.SubmittedLineArrives | CoopPrototype/Src/CoopChat.cpp:162-218 | after any messages the submitted packet is accepted by a receiver that has seen nothing newer and decodes to the typed scalars |
| ChatEditor.SentTextAcceptedExactly | CoopPrototype/Src/CoopChat.cpp:162-218 | a text given to SendText is accepted by the receiver if and only if truncation did not cut a character |
| ChatEditor.RememberedPacket | CoopPrototype/Src/CoopChat.cpp:187-218 | an accepted packet is refused the second time, one sent up to half a cycle later is not |
| ChatSession.SessionSendsTheText | CoopPrototype/Src/CoopChat.cpp:81-218 | from a closed chat: opening key, the keys of a text and Return send a packet that decodes to exactly that text; neither the character of the opening key nor that of Return is typed |
| ChatSession.ClosedChatTakesOnlyItsKey | CoopPrototype/Src/CoopChat.cpp:81-112 | a closed chat takes exactly its opening key, and that not while it is held down |
| ChatSession.OpenChatTakesTheKeys | CoopPrototype/Src/CoopChat.cpp:113-160 | an open line takes every key and character and no other message, and no control character is typed |
| ChatSession.TextLeavesExactly | CoopPrototype/Src/CoopChat.cpp:162-185 | when a text leaves, what it leaves behind, and that a failed send costs a sequence and nothing else |
| ChatSession.AcceptsExactly | CoopPrototype/Src/CoopChat.cpp:204-218 | a packet is accepted if and only if it has a sender and a newer sequence and is the encoding of one to 255 printable scalars |
| ChatSession.NewestLinesStay | CoopPrototype/Src/CoopChat.cpp:302-309 | however many lines were added, the last thirty-two stay, in order |
| ChatEditor.CoopChat.HandleNativeWindowMessage | CoopPrototype/Src/CoopChat.cpp:81-160 | the object's reaction to a message is that of the editor of scalars |
| ChatEditor.CoopChat.EraseLastCharacter | CoopPrototype/Src/CoopChat.cpp:140-150 | the byte loop of backspace removes exactly the last scalar |
| ChatEditor.CoopChat.AppendInputUtf16 | CoopPrototype/Src/CoopChat.cpp:258-292 | one UTF-16 unit waits, completes a pair, disappears or appends its scalar if the line stays within its limits |
| ChatEditor.CoopChat.SendText | CoopPrototype/Src/CoopChat.cpp:162-185 | sends the limited text padded to the packet, under a fresh sequence |
| ChatEditor.CoopChat.CanAcceptTextPacket | CoopPrototype/Src/CoopChat.cpp:204-218 | accepts exactly fresh packets of valid text within the limits |
| ChatEditor.CoopChat.HandleTextPacket | CoopPrototype/Src/CoopChat.cpp:187-202 | an accepted packet is remembered and its text shown |
| ChatEditor.CoopChat.SetConnected | CoopPrototype/Src/CoopChat.cpp:43-56 | a disconnect closes the line and drops what was typed; a repeated call changes nothing |
| ChatEditor.CoopChat.RemoveSender | CoopPrototype/Src/CoopChat.cpp:220-223 | forgets the last sequence of one sender and nothing else |
| ChatEditor.CoopChat.SubmitInput | CoopPrototype/Src/CoopChat.cpp:294-300 | an empty line only closes, any other is sent |
| ChatEditor.CoopChat.AddChatLine | CoopPrototype/Src/CoopChat.cpp:302-309 | the newest lines stay, each with a shown name |
| AreaObjectJournal.KeyNamesTheThing | CoopPrototype/Src/CoopAreaObjectJournal.cpp:98-125 | two events have one key if and only if they agree on area, object and kind and, for the state, header, body or visibility of a kiosk button, on the button |
| AreaObjectJournal.RecordableExactly | CoopPrototype/Src/CoopAreaObjectJournal.cpp:132-144 | not recorded are exactly the six commands and what lacks a level, an area, an object, a kind or an id |
| AreaObjectJournal.LastWriterByVersion | CoopPrototype/Src/CoopAreaObjectJournal.cpp:132-156 | after any recordings the entries are exactly the last recordings of greatest version of each thing, one for every thing recorded, where a thing is what the fields say it is |
| AreaObjectJournal.OrderAndRepetitionDoNotMatter | CoopPrototype/Src/CoopAreaObjectJournal.cpp:132-156 | with distinct versions the journal depends only on which recordings there were |
| AreaObjectJournal.UnrecordableLeavesNoTrace | CoopPrototype/Src/CoopAreaObjectJournal.cpp:132-144 | transient and incomplete events leave no trace anywhere in a history |
| AreaObjectJournal.RecordKeepsEntries | CoopPrototype/Src/CoopAreaObjectJournal.cpp:98-156 | every entry is recordable and stands under its own key |
| JournalText.EscapeJson | CoopPrototype/Src/CoopAreaObjectJournal.cpp:14-25 | the loop computes the escaping that the parser undoes |
| JournalText.UnescapeUndoesEscape | CoopPrototype/Src/CoopAreaObjectJournal.cpp:14-95 | reading an escaped string up to its closing quote gives the string, whatever follows |
| JournalText.EscapedQuotes | CoopPrototype/Src/CoopAreaObjectJournal.cpp:14-25 | every quote inside an escaped string follows a backslash |
| JournalText.ParseOfDecimal | CoopPrototype/Src/CoopAreaObjectJournal.cpp:27-40 | strtoull reads a printed 64-bit number back, followed by anything but a digit |
| JournalText.ParseOfSignedDecimal | CoopPrototype/Src/CoopAreaObjectJournal.cpp:42-59 | strtol with the range check reads a printed 32-bit number back |
| JournalRows.NoNameInString | CoopPrototype/Src/CoopAreaObjectJournal.cpp:14-25 | no quoted name with its colon begins anywhere inside a quoted string value |
| JournalRows.FindsItsField | CoopPrototype/Src/CoopAreaObjectJournal.cpp:27-72 | the substring search for a field name stops at that field's value, whatever the strings of the row hold |
| JournalReplay.RowComesBack | CoopPrototype/Src/CoopAreaObjectJournal.cpp:158-277 | parsing a printed row gives the entry back on all exported fields |
| JournalCompatibility.OldRowComesBack | CoopPrototype/Src/CoopAreaObjectJournal.cpp:244-256 | a row of an older journal, without a count and a text, restores its entry with zero and the empty text |
| JournalCompatibility.OtherLevelIsRefused | CoopPrototype/Src/CoopAreaObjectJournal.cpp:221-241 | a row of another level is refused |
| JournalFile.BrokenRow | CoopPrototype/Src/CoopAreaObjectJournal.cpp:206-241 | what stands before a newline in a row counts as a row and is refused |
| JournalFile.ReplayOfExport | CoopPrototype/Src/CoopAreaObjectJournal.cpp:158-277 | without newlines replaying counts every row once and adds exactly the accepted entries |
| JournalFile.JournalRoundTrip | CoopPrototype/Src/CoopAreaObjectJournal.cpp:158-277 | export and replay into an empty journal: it succeeds if and only if no exported string holds a newline and every entry is accepted, and then restores exactly the level |
| JournalFile.CoopAreaObjectJournal.Record | CoopPrototype/Src/CoopAreaObjectJournal.cpp:132-156 | the new map, to which LastWriterByVersion and KeyNamesTheThing apply, and true exactly for transient and recordable packets |
| JournalFile.CoopAreaObjectJournal.ExportLevelJsonl | CoopPrototype/Src/CoopAreaObjectJournal.cpp:158-187 | the rows of the level in the order of the enumeration |
| JournalFile.CoopAreaObjectJournal.ReplayLevelJsonl | CoopPrototype/Src/CoopAreaObjectJournal.cpp:189-277 | the line loop is the fold of the rows over the journal, with its counters |
| JournalFile.ParseRow | CoopPrototype/Src/CoopAreaObjectJournal.cpp:204-256 | the field-by-field parser of a line, up to the first demanded field that fails, is the parsing that the round trip is about |
| JournalFile.ReadString | CoopPrototype/Src/CoopAreaObjectJournal.cpp:61-95 | the cursor loop reads what the unescaping says |
| AreaStateJournal.FastPathIsFullPath | CoopPrototype/Src/CoopAreaStateJournal.cpp:385-473 | the cached path leaves the same entries as the full one if and only if the capture succeeds and the id still names the same guid; then only the recount is missing |
| AreaStateJournal.MisfiledExactlyWhenReused | CoopPrototype/Src/CoopAreaStateJournal.cpp:385-426 | a cached mark leaves the entry under its own guid if and only if nothing was captured or the guid is the same |
| AreaStateJournal.HiddenIsCached | CoopPrototype/Src/CoopAreaStateJournal.cpp:439-463 | after its first event a tracked entity is cached under its id |
| AreaStateJournal.PerformKeepsJournal | CoopPrototype/Src/CoopAreaStateJournal.cpp:178-239 | every call keeps the sum of the levels' events equal to the tracked events, tracked plus skipped within observed, and each level's count an upper bound |
| AreaStateJournal.RunKeepsJournal | CoopPrototype/Src/CoopAreaStateJournal.cpp:178-492 | the same over every run from an empty journal |
| AreaStateJournal.EventIsTold | CoopPrototype/Src/CoopAreaStateJournal.cpp:439-473 | each of the six kinds adds itself to its entry with its counts and the snapshot; the entry is marked removed exactly by an end |
| AreaStateJournal.RemovalIsTold | CoopPrototype/Src/CoopAreaStateJournal.cpp:195-199 | a removal is told like an end |
| AreaStateJournal.CachedMoveIsTold | CoopPrototype/Src/CoopAreaStateJournal.cpp:385-426 | a cached move is told to the entry it is cached under and counted at its level, and touches nothing else |
| AreaStateJournal.UntrackedHasNoEntry | CoopPrototype/Src/CoopAreaStateJournal.cpp:364-384 | the local player and what is not to be tracked leave no entry, and their moves then cost nothing |
| AreaStateJournal.BoundariesAreCounted | CoopPrototype/Src/CoopAreaStateJournal.cpp:201-239 | over every run saves and loads are counted in total and at their own level, once, before the original runs |
| AreaStateJournal.CoopAreaStateJournal.MarkDirty | CoopPrototype/Src/CoopAreaStateJournal.cpp:364-479 | local player, untracked, cached and full path |
| AreaStateJournal.CoopAreaStateJournal.RefreshLevelDirtyCount | CoopPrototype/Src/CoopAreaStateJournal.cpp:481-492 | the level's record holds the number of its entries |
| AreaStateJournal.CountLevel | CoopPrototype/Src/CoopAreaStateJournal.cpp:483-489 | the counting loop counts the entries of the level |
| AreaStateJournal.CoopAreaStateJournal.NoteEntityEvent | CoopPrototype/Src/CoopAreaStateJournal.cpp:178-193 | observes every event and marks the six kinds of change |
| AreaStateJournal.CoopAreaStateJournal.NoteEntityRemoved | CoopPrototype/Src/CoopAreaStateJournal.cpp:195-199 | observes the removal and marks the entity removed |
| AreaStateJournal.CoopAreaStateJournal.NoteLevelStateSave | CoopPrototype/Src/CoopAreaStateJournal.cpp:201-219 | counts and recounts before the original save, touches the record after it |
| AreaStateJournal.CoopAreaStateJournal.NoteLevelStateLoad | CoopPrototype/Src/CoopAreaStateJournal.cpp:221-239 | the same for a load |
| EnemyStateWire.UnitError | CoopPrototype/Src/CoopEnemyStateWire.cpp:11-21 | a component of a unit vector comes back within half a step and fits 16 bits |
| EnemyStateWire.UnitFixedPoint | CoopPrototype/Src/CoopEnemyStateWire.cpp:11-21 | encoding what was decoded gives the same integer |
| EnemyStateWire.SpeedError | CoopPrototype/Src/CoopEnemyStateWire.cpp:101-103 | the speed comes back within 0.005, saturated at 655.35 and never negative |
| EnemyStateWire.UnitComesBack | CoopPrototype/Src/CoopEnemyStateWire.cpp:173-216 | the received vector is a unit vector within one step of the sent one, and never so short that the fallback is taken |
| EnemyStateWire.DirectionIsKept | CoopPrototype/Src/CoopEnemyStateWire.cpp:57-96 | a vector long enough is sent in its own direction, every component of it; a shorter one or one that is not finite as the fallback |
| EnemyStateWire.ShortVectorsOnTheWire | CoopPrototype/Src/CoopEnemyStateWire.cpp:57-100 | the fallbacks on the wire: a full real part, and the full second axis |
| EnemyStateWire.EncodesExactlyWhatDecodes | CoopPrototype/Src/CoopEnemyStateWire.cpp:29-46 | Encode takes exactly the packets that narrowing does not change and that Decode would take under a good header |
| EnemyStateWire.NearIsWithinTwoSteps | CoopPrototype/Src/CoopEnemyStateWire.cpp:173-216 | the error bound of the unit vectors as a distance: at most two quantisation steps |
| EnemyStateWire.WireRoundTrip | CoopPrototype/Src/CoopEnemyStateWire.cpp:29-252 | Decode takes every encoded packet with a valid header and ids; discrete fields and position are exact, rotation, direction and speed within the quantisation |
| EnemyStateWire.RagdolledIsNeverEncoded | CoopPrototype/Src/CoopEnemyStateWire.cpp:33-46 | a state with the ragdoll flag does not fit the 16-bit flag word and is refused |
| EnemyStateWire.Encode | CoopPrototype/Src/CoopEnemyStateWire.cpp:29-139 | refuses exactly the packets out of range, else quantises the normalised vectors and copies the rest |
| EnemyStateWire.Decode | CoopPrototype/Src/CoopEnemyStateWire.cpp:141-252 | refuses exactly the invalid packets, else restores normalised vectors and copies the rest |
| EnemyMotion.ResolveRemoteMotion | CoopPrototype/Src/CoopEnemyControlPolicy.cpp:618-1103 | for every context the decision is that of a much smaller rule: outside mixed attention the strong, local and remote action evidence is dead code; EnemyGait says what that rule does to the legs |
| EnemyGait.StepSetsTheGait | CoopPrototype/Src/CoopEnemyControlPolicy.cpp:1000-1045 | outside mixed attention a confirmed step infers running if and only if the filtered or the step speed is above the run speed, else walking; exactly those legs move for the whole hold if they can be seen |
| EnemyGait.PlainStepIsConfirmedExactly | CoopPrototype/Src/CoopEnemyControlPolicy.cpp:985-1022 | without an action or mannequin a step is confirmed if and only if these fields of the packet say so |
| EnemyGait.PlainStepMovesTheLegs | CoopPrototype/Src/CoopEnemyControlPolicy.cpp:1000-1045 | so a clear step on a packet without movement bits moves the legs of its speed |
| EnemyGait.ReportedLegsMove | CoopPrototype/Src/CoopEnemyControlPolicy.cpp:677-780 | walking and running that the authority reports with a clear step come out as the moving legs, exactly, for the whole hold |
| EnemyGait.FilterFollowsTarget | CoopPrototype/Src/CoopEnemyControlPolicy.cpp:780-800 | the filtered speed keeps 55 percent of its distance to a moving target, and falls to about half when it stands |
| EnemyGait.PlainLegsGoOnExactly | CoopPrototype/Src/CoopEnemyControlPolicy.cpp:1036-1103 | without an inference the previous legs go on exactly while time is left and something is to be made up |
| EnemyGait.PlainDriftKeepsLegs | CoopPrototype/Src/CoopEnemyControlPolicy.cpp:1004-1030 | without a confirmed step an inference only ever keeps the previous legs, and exactly when the enemy lags behind |
| EnemyGait.ForbiddenActionStandsStill | CoopPrototype/Src/CoopEnemyControlPolicy.cpp:677-720 | a running action whose authority reports no movement stops every leg and takes every movement bit out |
| EnemyGait.BodyActionsBlockInference | CoopPrototype/Src/CoopEnemyControlPolicy.cpp:940-981 | a mannequin that holds the body, and on an observer any attack without movement, lets nothing be inferred |
| EnemyMotion.BlockingEvidence | CoopPrototype/Src/CoopEnemyControlPolicy.cpp:798-981 | outside mixed attention the action evidence never holds, and what blocks an inference is a shorter condition |
| EnemyMotion.DecisionIsSane | CoopPrototype/Src/CoopEnemyControlPolicy.cpp:1036-1103 | target flags are among the flags and only walk or run, the speed is in [0, 12], moving legs have time left |
| EnemyMotion.MixedLegsAreTheAuthoritys | CoopPrototype/Src/CoopEnemyControlPolicy.cpp:645-675 | in mixed attention the legs are exactly the authority's walk and run bits |
| EnemyMotion.QuietPacketRunsDown | CoopPrototype/Src/CoopEnemyControlPolicy.cpp:1036-1103 | a packet without movement bits and without a step worth an inference takes a tick off the hold or ends it, and never re-arms it |
| EnemyMotion.HoldDiesOut | CoopPrototype/Src/CoopEnemyControlPolicy.cpp:618-1103 | over every run of quiet packets the hold is at most what the ticks leave, and at zero the legs stand still |
| EnemyAuthority.Select | CoopPrototype/Src/CoopEnemyAuthorityPolicy.cpp:5-40 | the best eligible claim by level, order and token, and the area authority exactly when there is none |
| EnemyAuthority.SelectionIsUnique | CoopPrototype/Src/CoopEnemyAuthorityPolicy.cpp:5-40 | the decision depends only on which candidates there are, not on their order or repetition |
| EnemyAuthority.Evaluate | CoopPrototype/Src/CoopEnemyControlPolicy.cpp:303-351 | which local behaviour each mode blocks |
| EnemyAuthority.ModesExactly | CoopPrototype/Src/CoopEnemyControlPolicy.cpp:14-68 | who moves, who fights on its own and who only mirrors, from the fields alone |
| EnemyAuthority.OneMover | CoopPrototype/Src/CoopEnemyControlPolicy.cpp:14-68 | when every online peer follows the decision exactly the selected owner moves the enemy, and nobody if it is not there |
| NativeActionEdges.EdgesAreChained | CoopPrototype/Src/CoopAnimationTest.cpp:3404-3421 | in every run and for every action each reported Exit comes right after its own Start and repeats what that recorded |
| NativeActionEdges.DanglesExactlyWhenCleared | CoopPrototype/Src/CoopEnemyReplication.cpp:5191 | a reported Start is left without its Exit if and only if the table was cleared while the action ran |
| NativeActionEdges.QueuedEdgesAlternateExactly | CoopPrototype/Src/CoopAnimationTest.cpp:4619-4688 | what is queued of an action alternates Start and Exit, each Exit with its Start's record, if and only if every queued Exit's Start was queued, and a queued Start whose Exit was refused or that a clearing took away is the last thing queued of the action |
| NativeActionEdges.PairedEdgesAlternate | CoopPrototype/Src/CoopAnimationTest.cpp:4619-4688 | those three conditions suffice in every run, of any length, with any clearings and bindings |
| NativeActionEdges.BindingHidesAGap | CoopPrototype/Src/CoopEnemyReplication.cpp:5264-5300 | a binding starts the sequences over; then a refused Exit and a refused Start can pass for a pair, so the conditions are necessary only while the Starts' sequences differ |
| NativeActionEdges.StartsAreFresh | CoopPrototype/Src/CoopAnimationTest.cpp:4433-4455 | between two bindings, of two Starts within half a cycle of events the later one is after the earlier in serial order |
| NativeActionEdges.StartsAreDistinct | CoopPrototype/Src/CoopAnimationTest.cpp:4433-4455 | between two bindings no two Starts within a cycle of events share a sequence |
| NativeActionEdges.ContextBoundOnce | CoopPrototype/Src/CoopAnimationTest.cpp:4456-4493 | an armed semantic context is bound by at most one Start, whatever is cleared in between |
| NativeActionHistory.ArmingIsBoundExactly | CoopPrototype/Src/CoopAnimationTest.cpp:4215-4220 | over every run an arming is bound by exactly the recorded Start of the action and the fragment named last since it, while nothing has ended its wait; that Start carries its context and variant under the next semantic sequence, and any other carries none |
| NativeActionHistory.ReportsAreTheEvents | CoopPrototype/Src/CoopAnimationTest.cpp:4433-4455 | a Start is reported for exactly the starts that count, with their payload and the next sequence, an Exit for exactly the ends of actions that run, and nothing else |
| NativeActionHistory.TableIsWhatRuns | CoopPrototype/Src/CoopAnimationTest.cpp:4199-4212 | the table holds exactly the actions that were started and have not ended or been cleared since |
| NativeActionHistory.CountersCount | CoopPrototype/Src/CoopAnimationTest.cpp:4430-4464 | the two counters are the numbers of records and of bound contexts since they were last cleared |
| NativeActionEdges.EnemyAuthorityState.RecordFragmentStarted | CoopPrototype/Src/CoopAnimationTest.cpp:4148-4493 | does what one FragmentStarted does to the history, to which ArmingIsBoundExactly and ReportsAreTheEvents apply; false exactly for a non-authority or a second start |
| NativeActionEdges.EnemyAuthorityState.RecordTerminal | CoopPrototype/Src/CoopAnimationTest.cpp:3404-3421 | the end of a recorded action reports what its start recorded and removes it |
| NativeActionEdges.EnemyAuthorityState.RecordCleared | CoopPrototype/Src/CoopEnemyReplication.cpp:5264-5300 | a clearing forgets the running actions without reporting an Exit, and with its scope the semantic state and the sequence counter |
| HazardSendOnce.SentOnce | CoopPrototype/Src/CoopHazardSync.cpp:940-955 | under every interleaving a guid is queued at most once since the last reset and is marked exactly when it was queued or is in flight |
| HazardSendOnce.ResetIsSafeExactlyWhenQuiet | CoopPrototype/Src/CoopHazardSync.cpp:2827-2830 | a reset keeps that if and only if no report is in flight |
| HazardSendOnce.ResetInFlightSendsTwice | CoopPrototype/Src/CoopHazardSync.cpp:2827-2830 | otherwise a second thread can queue the same guid again |
| HazardSendOnce.HazardSync.OnNativeExplosiveTankExploded | CoopPrototype/Src/CoopHazardSync.cpp:940-955 | one uninterrupted report leaves the mark exactly when its send succeeded |
| HazardSendOnce.UninterruptedReport | CoopPrototype/Src/CoopHazardSync.cpp:940-955 | the three steps of a thread in a row do what the uninterrupted report does |
| EntityIdAllocator.FindTarget | CoopPrototype/Src/CoopNativeEntityIdAllocator.cpp:147-184 | the inner loop stops at the least free id or for a named reason, asks about every id once, and never takes the collision branch |
| EntityIdAllocator.BuildDryRunPlan | CoopPrototype/Src/CoopNativeEntityIdAllocator.cpp:98-193 | the entries follow the requests and take, in order, every free id above all forbidden and source ids; each reason if and only if the input has it, all counters, and completeness if and only if the plan can be completed |
| EntityIdAllocator.CompletesExactlyWhenItCan | CoopPrototype/Src/CoopNativeEntityIdAllocator.cpp:111-192 | a plan is complete if and only if no source is zero and there are enough free ids before the first million ids in a row that are in use |
| EntityIdAllocator.EnoughIdsComplete | CoopPrototype/Src/CoopNativeEntityIdAllocator.cpp:111-192 | nonzero sources, enough free ids and no such run suffice |
| EntityIdAllocator.CompletePlanIsFresh | CoopPrototype/Src/CoopNativeEntityIdAllocator.cpp:111-192 | targets rise strictly and avoid forbidden, source and used ids, zero and the last id; the searched range is planned plus skipped |
| GlassPayload.PayloadRoundTrip | CoopPrototype/Src/CoopBreakableSync.cpp:240-308 | decoding undoes encoding for every payload of every length |
| GlassPayload.EncodeGlassPayload | CoopPrototype/Src/CoopBreakableSync.cpp:240-259 | the text is the padded regrouping by six bits of RFC 4648 section 4 |
| GlassPayload.DecodeGlassPayload | CoopPrototype/Src/CoopBreakableSync.cpp:276-308 | the in-place loop over the byte array is the fold over groups of four characters |
| GlassPayload.LettersAreValues | CoopPrototype/Src/CoopBreakableSync.cpp:261-274 | the character table and its inverse |
| GlassPayload.CanonicalExactly | CoopPrototype/Src/CoopBreakableSync.cpp:276-308 | a text the decoder accepts is the encoding of what it decodes to if and only if padding stands exactly in the places of the missing bytes at the end and the unused bits of the last letter are zero |
| GlassPayload.InnerPaddingIsAccepted | CoopPrototype/Src/CoopBreakableSync.cpp:276-308 | an accepted text that is not canonical: padding inside the text, so four bytes have a second text |

## Left out

- The engine: entity lookup, physics, hooks, guarded calls, speaker resolution and animation controllers are answers that come with each event; each of them may fail.
- Sockets, relays and resends: a send is an answer that comes with the event, a link a FIFO queue. The host's relay does not carry dialogue leases, so the model has none for them.
- Files: a journal file is a text that may fail to open; write errors are not modelled.
- 64-bit hash ids: dialogue event and trigger ids and journal keys are the tuples they are computed from, so different inputs give different ids.
- World, area and save guards of the dialogue packets are fixed; packets of other worlds never arrive.
- Dialogue concepts, query facts, special speakers, story events and writebacks: they travel along and decide nothing about the lease.
- Counter wrap in the dialogue system: runs shorter than 2^32 - 1 steps, so that epochs and sequences do not come round; `SerialSequence` treats the wrap.
- The operator's manual request in the whole system only while the system holds no lease for that client; `OperatorRequestCoherence` gives the exact condition.
- Resets and level transitions: the boundary between two runs.
- Floating point: reals, with a value that is not finite where the code asks; a square root is a value with its defining equation.
- Flag words: sets of flags in `EnemyMotion` and `AreaStateJournal`; shifts and masks elsewhere are division and remainder.
- Diagnostic strings, telemetry counters, the HUD, fade-out of chat lines and the asset tools.
- Event and skip counters of the state journal are unbounded.
- `EnemyMotion`: the steps of ResolveRemoteMotion are separate methods in the order of the code; the remote action policy before it is not modelled.
- `NativeActionEdges`: the choice of priority, flags and ordinal of an action comes with the event; the numbers of armings and the lists of edges and bindings are there to state the properties.
- `ChatText.ReadCharacter`: in the code it is the inner loop of IsValidUtf8.
- `CompletionIsReturned`: about the interval from the end of the dialogue to the client's next grant; that the grant arrives, and that the release reaches the host, is up to the transport.
- `NativeActionEdges.StartsAreFresh`: not across a binding to a remote authority, which starts the sequence counter over; there the two may even be equal (`BindingHidesAGap`).
