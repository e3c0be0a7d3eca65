# Monoloop: verified stream pipeline

Dafny models of the parts of Monoloop where bytes, events and threads meet, with proofs over every input, every
chunking and every interleaving.

Bytes reach the interpreter in arbitrary chunks. They are decoded, framed (JSON, server-sent events or lines), put
together into sentences and tool actions, and published as numbered events. The Loop reads those events and
dispatches each ready tool action. A bounded mailbox, a terminal-outcome race, a bounded line reader and a table of
pending RPC calls stand around that pipeline.

| file | subject |
|---|---|
| `Text.dfy`, `Utf8.dfy` | white space, byte lengths, decimal numerals; UTF-8 decoding |
| `SentenceRules.dfy`, `Segmenter.dfy`, `SentenceMeaning.dfy` | where a sentence ends; the scanner loops and the segmenter object; the rules said with the characters themselves |
| `ChunkIndependence.dfy`, `SegmenterProperties.dfy` | chunking carries no meaning; bytes, text and list markers are kept |
| `SourceSpans.dfy`, `TestDialect.dfy` | span attribution; one interpretation from bytes to its end report |
| `JsonFraming.dfy`, `JsonText.dfy` | incremental framing; printed JSON trees are framed back whole |
| `ChatStream.dfy`, `ChatStreamProperties.dfy`, `ChatStreamMeaning.dfy` | server-sent events and tool-call assembly, under any chunking and in terms of what was parsed |
| `ToolActions.dfy`, `ToolSignals.dfy`, `LoopKeys.dfy`, `LoopOwner.dfy`, `LoopProperties.dfy`, `LoopCalls.dfy`, `ExactlyOnce.dfy`, `Subscription.dfy` | tool events, the Loop, their composition, publisher numbering |
| `Mailbox.dfy`, `MailboxProgress.dfy` | the byte-bounded mailbox as atomic steps, and what a send comes to |
| `TerminalRace.dfy`, `RpcTable.dfy`, `LineReader.dfy` | connection end, pending calls, line reading |
| `Calendar.dfy`, `Timestamps.dfy` | civil dates and RFC 3339 timestamps |

Objects that the source updates in place are classes whose methods are proved against functions of the old state;
the theorems are then about those functions. Concurrent code is a state machine over its atomic steps, and the
theorems hold of every schedule.

Several results are exact conditions, because the plain claim fails:

- A cut between two pushes shows in a sentence's leading white space exactly under `CutShows`; stripped of it,
  sentences never depend on the chunking.
- A bare list marker is emitted when a quote or closing bracket touches its dot. The rules only know ASCII white
  space, so one is also cut off between a no-break space and a space; nothing else does it (`BareMarkersExactly`).
- "Prof" is in the table of titles, but only words of up to three letters are looked up, so its dot ends a sentence.
- A sealed remainder is trimmed at both ends but attributed from byte 0, so its labels are its own exactly when it does
  not begin with white space (`SealMisattributes` is a case where they are not).
- Bytes after `[DONE]` are processed in the chunk of `[DONE]` and ignored in a later one, because the flag is only
  looked at on entry.
- A push or drain that fails returns none of the fragments or texts it had found, while those of earlier chunks are
  already delivered. So on a failing stream the chunking decides what comes out: it makes no difference exactly when
  nothing completes before the failing chunk (`ChunkedAgainstWhole`, for server-sent events and for JSON).
- The outbound counter is bumped before its send in two branches, so it is one too high exactly when the output closes
  there (`CounterOnFailure`).
- The Loop does not check the first sequence number it gets (`FirstGapIsNotSeen`), nor any after a zero. Cloned
  publishers can send out of order (`ClonesCanReorder`), and a dropped publish leaves a gap (`AbandonedPublishGaps`).
- Action keys of two interpretations can collide exactly when one id, with a colon after it, opens the other. The
  second of two such actions can be taken for a duplicate of the first (`SharedKeyLosesADispatch`).
- The mailbox's byte counter is exact except under the largest 64-bit cap, where the saturating addition can lose
  bytes (`LargestCapCanSaturate`).
- The date arithmetic accepts February 30 as March 2, and a leap second as the start of the next minute, which puts it
  out of order with the second after it (`LeapSecondOrder`).
- The date arithmetic is unchecked: a well-formed year outside its range overflows instead of being refused
  (`HugeYearOverflows`). The exact range is `NoOverflow`.
- A terminate call accepted after the owner has read the preference is not honoured (`LateAcceptanceLoses`).
- A request future that is dropped after registering leaves its entry in the pending table until a reply or a drain
  takes it (`DroppedFutureLeaksItsEntry`, `QuiescentTable`).

Where comments and code differ the model follows the code: the Loop's scope documentation says an empty list of
interpretations accepts only under the accept-all flag, and the code lets an empty list accept everything.

## Model

| member | source | states |
|---|---|---|
| `SentenceRules.EndIsStable` | crates/monoloop-interpreter/src/sentence.rs:100-181 | a sentence end found in a buffer is still the end after any extension |
| `SentenceRules.EndShifts` | crates/monoloop-interpreter/src/sentence.rs:100-181 | white space in front of a buffer shifts the end and changes nothing else |
| `SentenceRules.CompletedIsSolid` | crates/monoloop-interpreter/src/sentence.rs:62-67 | the text up to an end is never blank, so every end found emits a sentence |
| `Segmenter.LooksLikeOrderedListMarker` | crates/monoloop-interpreter/src/sentence.rs:201-225 | the backward digit loop recognises exactly a lone run of one to three digits followed by what may follow a marker |
| `Segmenter.IsOnlyListMarker` | crates/monoloop-interpreter/src/sentence.rs:191-199 | the trimmed text is just an ordered-list marker |
| `Segmenter.LooksLikeAbbreviationOrDecimal` | crates/monoloop-interpreter/src/sentence.rs:227-266 | the loops decide by the longest alphabetic and the longest solid suffix before the dot: decimal, initial, title or link |
| `Segmenter.TerminatorEnds` | crates/monoloop-interpreter/src/sentence.rs:128-166 | a terminator ends the sentence exactly when the text before it and the one character after it say so |
| `Segmenter.FindSentenceEnd` | crates/monoloop-interpreter/src/sentence.rs:100-181 | the scan with code-span and bracket counters finds the first position where the text before and one character ahead decide an end |
| `SentenceMeaning.ShoutsEnd` | crates/monoloop-interpreter/src/sentence.rs:128-153 | after text without terminators, brackets, backticks and line breaks, `!` and `?` end the sentence in front of white space, a quote or a closing bracket |
| `SentenceMeaning.ShoutsGoOn` | crates/monoloop-interpreter/src/sentence.rs:144-166 | in front of a letter, a digit or a vertical tab they do not |
| `SentenceMeaning.LastCharacterWaits` | crates/monoloop-interpreter/src/sentence.rs:144-147 | a terminator at the end of the buffer waits |
| `SentenceMeaning.DotEndsExactly` | crates/monoloop-interpreter/src/sentence.rs:128-266 | after such text a dot ends the sentence if and only if white space, a closer or, after a letter, a capital follows, and the text does not close with a single letter, one of the eleven short titles in any case, a token that holds a slash or ends in `www`, or a list marker that white space follows |
| `SentenceMeaning.StatementsEnd` | crates/monoloop-interpreter/src/sentence.rs:128-161 | in particular it does after a word of four letters or more |
| `SentenceMeaning.DotAfterTitle` | crates/monoloop-interpreter/src/sentence.rs:235-254 | whatever stands before, a dot after a title, in any case, is no end |
| `SentenceMeaning.DotAfterInitial` | crates/monoloop-interpreter/src/sentence.rs:241-244 | nor is one after a single letter |
| `SentenceMeaning.DotInsideNumber` | crates/monoloop-interpreter/src/sentence.rs:231-233 | nor one between digits |
| `SentenceMeaning.DotInsideToken` | crates/monoloop-interpreter/src/sentence.rs:162-164 | nor one in front of a small letter or a digit |
| `SentenceMeaning.DotInsideLink` | crates/monoloop-interpreter/src/sentence.rs:255-266 | nor one in a token with a slash, or after `www` |
| `SentenceMeaning.ProfEnds` | crates/monoloop-interpreter/src/sentence.rs:240-249 | the four-letter title in the table is never looked up, so the dot after it does end |
| `SentenceMeaning.NoEndInBrackets` | crates/monoloop-interpreter/src/sentence.rs:107-132 | no end lies behind an opening bracket or backtick that is not closed, whatever terminators follow |
| `SentenceMeaning.EndBehindBrackets` | crates/monoloop-interpreter/src/sentence.rs:107-132 | behind the match the sentence ends again |
| `SentenceMeaning.ParagraphsEnd` | crates/monoloop-interpreter/src/sentence.rs:168-175 | a blank line ends a paragraph, in front of the line |
| `SentenceMeaning.SentencesAreTrimmed` | crates/monoloop-interpreter/src/sentence.rs:59-67 | no sentence is empty or ends in white space |
| `SentenceMeaning.TwoSentences` | crates/monoloop-interpreter/src/sentence.rs:59-181 | a question and a statement come out as two sentences |
| `Segmenter.DrainIsExhaustive` | crates/monoloop-interpreter/src/sentence.rs:59-81 | draining, for which each turn consumes at least one character, leaves no complete sentence behind |
| `Segmenter.SentenceSegmenter.DrainComplete` | crates/monoloop-interpreter/src/sentence.rs:59-97 | the loop that cuts the buffer in place yields the drained or sealed sentences and leaves the specified remainder |
| `Segmenter.SentenceSegmenter.Push` | crates/monoloop-interpreter/src/sentence.rs:44-47 | a push drains the old buffer with the text appended |
| `Segmenter.SentenceSegmenter.SealAtCleanEnd` | crates/monoloop-interpreter/src/sentence.rs:50-52 | a seal drains and promotes the trimmed remainder |
| `Segmenter.SentenceSegmenter.TakeUnresolved` | crates/monoloop-interpreter/src/sentence.rs:55-57 | an abrupt end takes the buffer whole and promotes nothing |
| `ChunkIndependence.RunSession` | crates/monoloop-interpreter/src/sentence.rs:30-97 | the object, fed any chunks and sealed, lives the specified session |
| `ChunkIndependence.DrainSplit` | crates/monoloop-interpreter/src/sentence.rs:59-97 | draining in two steps says what draining at once says, up to leading white space |
| `ChunkIndependence.ChunkingCarriesNoMeaning` | crates/monoloop-interpreter/src/sentence.rs:44-181 | any two ways of cutting one text into pushes give the same sentences once leading white space is stripped |
| `ChunkIndependence.CutIsInvisible` | crates/monoloop-interpreter/src/sentence.rs:63-81 | two pushes say exactly what one says, if and only if the cut does not fall in front of white space that a completed sentence would have skipped |
| `SegmenterProperties.SessionConserves` | crates/monoloop-interpreter/src/sentence.rs:59-97 | over a session the bytes consumed by sentences and the bytes left add up to the bytes pushed |
| `SegmenterProperties.SessionKeepsText` | crates/monoloop-interpreter/src/sentence.rs:59-97 | the sentences of a session, joined, are the text pushed, up to white space: nothing lost, repeated or reordered |
| `SegmenterProperties.MarkersStayAttached` | crates/monoloop-interpreter/src/sentence.rs:128-175 | a sentence emitted by a push is, without leading ASCII white space, a bare 1-3 digit marker if and only if a quote or closing bracket touches the dot |
| `SegmenterProperties.BareMarkersExactly` | crates/monoloop-interpreter/src/sentence.rs:128-225 | trimmed as the source trims, it is a bare marker if and only if a closer touches its dot, or the white space before it ends in a character that is not ASCII and ASCII white space follows |
| `SegmenterProperties.MarkerBeforeCloserEnds` | crates/monoloop-interpreter/src/sentence.rs:151-153 | a marker whose dot touches a closer does end there |
| `SegmenterProperties.NoBreakSpaceDetachesMarker` | crates/monoloop-interpreter/src/sentence.rs:201-225 | a concrete buffer of the second kind |
| `SegmenterProperties.CutCanShow` | crates/monoloop-interpreter/src/sentence.rs:69-73 | a concrete cut that shows |
| `SourceSpans.BoundsAreTight` | crates/monoloop-interpreter/src/engine.rs:289-325 | the time bounds are reached and bound every labelled byte, and exist exactly when some byte is labelled |
| `SourceSpans.StepIsTight` | crates/monoloop-interpreter/src/engine.rs:289-325 | the step is the least over the labelled bytes |
| `SourceSpans.MetaIsTight` | crates/monoloop-interpreter/src/engine.rs:289-325 | what is reported is the least and the greatest time and the least step over the labels that have one |
| `SourceSpans.ChannelAssembly.TakeSpans` | crates/monoloop-interpreter/src/engine.rs:289-325 | the run-length loop returns the bounds over the labels of the content bytes and drops exactly the consumed labels |
| `SourceSpans.ChannelAssembly.Push` | crates/monoloop-interpreter/src/engine.rs:253-270 | one label per buffered byte is kept, and each sentence is attributed from its own stretch of labels |
| `SourceSpans.ChannelAssembly.Seal` | crates/monoloop-interpreter/src/engine.rs:272-281 | the same for the sentences of a seal |
| `SourceSpans.ChannelAssembly.TakeUnresolved` | crates/monoloop-interpreter/src/engine.rs:283-287 | text and spans are cleared together |
| `SourceSpans.PushAttributesItsOwnBytes` | crates/monoloop-interpreter/src/sentence.rs:59-81 | a pushed sentence is the front of its buffer, and its content bytes are counted as such |
| `SourceSpans.SentenceStandsAt` | crates/monoloop-interpreter/src/sentence.rs:59-81 | over any pushes each sentence stands in the stream at the byte offset where the bytes consumed before it end |
| `SourceSpans.AssembleStream` | crates/monoloop-interpreter/src/engine.rs:253-270 | the channel object over any labelled pushes attributes as specified |
| `SourceSpans.AssemblyIsWhole` | crates/monoloop-interpreter/src/engine.rs:253-325 | attributing push by push gives what attributing against the labels of the whole stream gives |
| `SourceSpans.SentencesOwnTheirBytes` | crates/monoloop-interpreter/src/engine.rs:253-325 | over any labelled pushes each sentence is attributed exactly from the labels of its own bytes in the stream |
| `SourceSpans.SealAttributesItsOwnBytes` | crates/monoloop-interpreter/src/engine.rs:272-325 | under every labelling a sealed remainder is attributed from the labels of its own bytes, if and only if it does not begin with white space |
| `SourceSpans.SealMisattributes` | crates/monoloop-interpreter/src/engine.rs:272-325 | a space with one label and a letter with another: the sealed letter is reported with the label of the space |
| `SourceSpans.AssembleAndSeal` | crates/monoloop-interpreter/src/engine.rs:253-281 | the channel object over any labelled pushes and the seal after them attributes as specified |
| `SourceSpans.SealedSentenceInStream` | crates/monoloop-interpreter/src/engine.rs:253-325 | the sentence of a seal stands in the stream behind the white space of the remainder, and is attributed from as many labels counted from where that white space begins |
| `Utf8.DecodeEncode` | crates/monoloop-interpreter/src/engine.rs:1013-1021 | every scalar decodes back from its encoding, whatever follows |
| `Utf8.SplitIsExact` | crates/monoloop-interpreter/src/engine.rs:1013-1021 | the valid part and the rest are the buffer |
| `Utf8.SplitIsLongest` | crates/monoloop-interpreter/src/engine.rs:1013-1021 | no longer prefix of the buffer is valid |
| `Utf8.SplitCompose` | crates/monoloop-interpreter/src/engine.rs:495-505 | decoding in two steps, wherever the cut falls, gives the same text and leaves the same bytes |
| `TestDialect.EndConservesBytes` | crates/monoloop-interpreter/src/engine.rs:369-452 | for any commands and chunks, with invalid and split UTF-8, source bytes equal bytes of sentences plus unresolved bytes, if and only if no limit ended the interpretation |
| `TestDialect.AmpleLimitsConserve` | crates/monoloop-interpreter/src/engine.rs:369-463 | limits that cover the bytes to come are never exceeded, so then every byte is accounted for, whatever the commands |
| `TestDialect.CleanRunSays` | crates/monoloop-interpreter/src/engine.rs:495-505 | a clean run says the sentences of a session on the text that the bytes encode |
| `TestDialect.CleanRunCounts` | crates/monoloop-interpreter/src/engine.rs:369-452 | with limits that cover the stream a clean end is complete, says the whole session and counts its sentences |
| `TestDialect.AbruptRunSays` | crates/monoloop-interpreter/src/engine.rs:369-452 | a cancelled, failed or dropped input says only what the pushes said, promotes nothing, and ends as cancelled or as a transport failure |
| `TestDialect.LimitsBite` | crates/monoloop-interpreter/src/engine.rs:454-505 | a chunk over the undecoded bound, or whose text is over the assembly bound, ends the run there |
| `TestDialect.ByteChunkingCarriesNoMeaning` | crates/monoloop-interpreter/src/engine.rs:69-70 | two clean runs over the same bytes say the same sentences, however the bytes are cut, also inside a scalar |
| `TestDialect.AnyByteChunkingSaysTheSame` | crates/monoloop-interpreter/src/engine.rs:69-70 | for every byte stream, with limits that cover it, any two ways of cutting it say the same sentences |
| `TestDialect.TestOwner.IngestBytes` | crates/monoloop-interpreter/src/engine.rs:454-505 | decoding, the two limits and text assembly take the owner to the specified state |
| `TestDialect.TestOwner.SealTextChannels` | crates/monoloop-interpreter/src/engine.rs:619-633 | a clean end promotes the remainder |
| `TestDialect.TestOwner.QuarantinePartials` | crates/monoloop-interpreter/src/engine.rs:649-663 | an abrupt end counts text and undecoded bytes as unresolved |
| `TestDialect.TestOwner.Finish` | crates/monoloop-interpreter/src/engine.rs:976-1002 | the end report counts sentences, everything unresolved and every source byte |
| `TestDialect.TestOwner.HandleCommands` | crates/monoloop-interpreter/src/engine.rs:369-452 | the command loop ends as specified and has published exactly the specified sentences |
| `JsonFraming.FindCompleteJsonEnd` | crates/monoloop-interpreter/src/acp.rs:461-502 | the loop over depth, string and escape state finds the shortest prefix that closes the outermost bracket, or the first line |
| `JsonFraming.DrainJsonValues` | crates/monoloop-interpreter/src/acp.rs:433-459 | draining yields the frames in order and the remainder, or stops at the frame that does not parse |
| `JsonFraming.JsonEndStable` | crates/monoloop-interpreter/src/acp.rs:461-502 | a frame end is still the end after any extension |
| `JsonFraming.SpacesAreSkipped` | crates/monoloop-interpreter/src/acp.rs:436-442 | exactly space, tab, line feed, form feed and carriage return are skipped in front of a value |
| `JsonFraming.FrameSplit` | crates/monoloop-interpreter/src/acp.rs:433-459 | one drain of two pieces frames the texts of the first and goes on from what it leaves; a failure later on fails the whole drain at the same text and returns nothing |
| `JsonFraming.FrameChunking` | crates/monoloop-interpreter/src/acp.rs:430-459 | a stream that is not malformed is framed the same, with the same remainder, however it is cut |
| `JsonFraming.IngestChunks` | crates/monoloop-interpreter/src/engine.rs:507-524 | draining after each chunk delivers what the drains return up to the first that fails |
| `JsonFraming.FailsAtChunk` | crates/monoloop-interpreter/src/engine.rs:384-400 | a row of drains that fails has delivered what the chunks before the failing one frame, and reads no later chunk |
| `JsonFraming.ChunkedAgainstWhole` | crates/monoloop-interpreter/src/acp.rs:430-459 | chunked and whole drains fail together, and deliver the same texts if and only if the stream is not malformed or no text completes before the failing chunk |
| `JsonFraming.SameBadText` | crates/monoloop-interpreter/src/acp.rs:449-455 | both fail at the same malformed text |
| `JsonFraming.CutBeforeFailureShows` | crates/monoloop-interpreter/src/acp.rs:449-455 | a concrete stream whose first text is delivered when cut and lost when not |
| `JsonText.ValueFramesWhole` | crates/monoloop-interpreter/src/acp.rs:461-502 | a printed object or array, with any nesting, escapes, brackets in strings and white space, is framed exactly whole |
| `JsonText.PrefixIsNeverFramed` | crates/monoloop-interpreter/src/acp.rs:461-502 | no proper prefix of a printed object or array is framed |
| `JsonText.FramingRoundTrip` | crates/monoloop-interpreter/src/acp.rs:430-459 | printed values separated by white space and cut into any chunks are framed back exactly, in order, with nothing left |
| `ChatStream.OpenAiSseState.PushBytes` | crates/monoloop-interpreter/src/openai_chat.rs:64-88 | the byte loop reaches the specified state, fragments or error |
| `ChatStream.OpenAiSseState.IngestAll` | crates/monoloop-interpreter/src/engine.rs:475-492 | fragments of a push are handed over before the next, so an error later on does not take them back |
| `ChatStream.OpenAiSseState.OnLine` | crates/monoloop-interpreter/src/openai_chat.rs:135-173 | lines, event dispatch, bounds and the end marker |
| `ChatStream.OpenAiSseState.OnToolDelta` | crates/monoloop-interpreter/src/openai_chat.rs:219-266 | a delta changes its own entry only, emits the waiting notice once and refuses arguments over the bound |
| `ChatStream.OpenAiSseState.OnFinishReason` | crates/monoloop-interpreter/src/openai_chat.rs:268-316 | a finish promotes entries that are complete, or fails, in the map's order |
| `ChatStreamProperties.CutBeforeDone` | crates/monoloop-interpreter/src/openai_chat.rs:64-88 | a cut before the end marker changes neither state nor error, and leaves the delivered fragments the same if and only if the first piece yields none or the second is accepted |
| `ChatStreamProperties.CutIsInvisible` | crates/monoloop-interpreter/src/openai_chat.rs:64-88 | a cut is invisible to every continuation if and only if the first piece is rejected, or it neither reaches the end marker nor yields a fragment |
| `ChatStreamProperties.CutBeforeErrorShows` | crates/monoloop-interpreter/src/openai_chat.rs:64-88 | a concrete stream whose event is delivered when cut before a broken line and lost when not |
| `ChatStreamProperties.CutAfterMarkerShows` | crates/monoloop-interpreter/src/openai_chat.rs:64-67 | a concrete event behind the end marker that is delivered in the marker's chunk and ignored in a chunk of its own |
| `ChatStreamProperties.StopsAtChunk` | crates/monoloop-interpreter/src/engine.rs:475-492 | a row of pushes delivers, at the first chunk that fails, what the chunks before it yield, and at the first that reaches the end marker, what the chunks through it yield |
| `ChatStreamProperties.ChunkedAgainstWhole` | crates/monoloop-interpreter/src/openai_chat.rs:64-88 | for a stream with nothing after its end marker, complete or not, pushes and one push end in the same state and error, and look the same if and only if the stream is accepted or nothing is delivered before the failing chunk |
| `ChatStreamProperties.SseChunkingCarriesNoMeaning` | crates/monoloop-interpreter/src/openai_chat.rs:64-88 | two ways of cutting a stream with nothing after its end marker, complete or not, give the same state and error, and the same fragments when it is accepted |
| `ChatStreamProperties.PushAllIsFaithful` | crates/monoloop-interpreter/src/openai_chat.rs:175-316 | what was delivered, also before a failing push, is what the operations of the accepted events perform in order |
| `ChatStreamProperties.AcceptedIsLast` | crates/monoloop-interpreter/src/engine.rs:475-492 | when no push fails the last accepted state is the final one |
| `ChatStreamMeaning.EventYields` | crates/monoloop-interpreter/src/openai_chat.rs:135-217 | a dispatched event yields, choice by choice and for the one choice read, its text, then its calls in order, then its finish; the first refusal refuses it |
| `ChatStreamMeaning.BadEventsAreRefused` | crates/monoloop-interpreter/src/openai_chat.rs:140-185 | an event over the bound and one that does not parse are refused for that, and the end marker ends |
| `ChatStreamMeaning.CompleteCallIsReady` | crates/monoloop-interpreter/src/openai_chat.rs:193-316 | a whole call in an event that finishes with `tool_calls` is announced and ready in that very event |
| `ChatStreamMeaning.FinishMeans` | crates/monoloop-interpreter/src/openai_chat.rs:268-316 | one reason promotes, and only if every open call is complete; four do nothing; any other is refused |
| `ChatStreamMeaning.DeltaRefusedExactly` | crates/monoloop-interpreter/src/openai_chat.rs:238-247 | a delta is refused exactly when it takes the arguments of its index over the bound |
| `ChatStreamMeaning.ReadinessOverEveryStream` | crates/monoloop-interpreter/src/openai_chat.rs:219-316 | over any chunks, accepted or not, and in terms of the parsed choices of the accepted events, each tool index is delivered ready at most once, exactly when a choice finished with `tool_calls` after or with a delta for it, with the last id, the name and the in-order arguments said up to then, complete and within the bound |
| `ChatStreamMeaning.AnnouncedOverEveryStream` | crates/monoloop-interpreter/src/openai_chat.rs:248-264 | each index is announced at most once, exactly when an id was given for it |
| `ChatStreamMeaning.SseRoundTrip` | crates/monoloop-interpreter/src/openai_chat.rs:64-217 | payloads sent as events and cut into any chunks are parsed one by one, and what is delivered is the effect of all their choices in order |
| `ChatStreamMeaning.CrlfIsLf` | crates/monoloop-interpreter/src/openai_chat.rs:70-76 | a carriage return in front of a line feed belongs to the line break |
| `ChatStreamMeaning.OtherLinesAreIgnored` | crates/monoloop-interpreter/src/openai_chat.rs:161-173 | lines that are not data lines are passed over |
| `ChatStreamMeaning.DataLinesAreJoined` | crates/monoloop-interpreter/src/openai_chat.rs:145-173 | several data lines make one event, joined by line breaks |
| `ToolActions.ToolOwner.HandleSignal` | crates/monoloop-interpreter/src/engine.rs:692-843 | a signal bumps the generation, moves the tool and publishes its snapshot, or a limit stops it |
| `ToolActions.ToolOwner.QuarantinePartials` | crates/monoloop-interpreter/src/engine.rs:663-690 | an abrupt end publishes one incomplete event for every tool that is not terminal |
| `ToolActions.ToolOwner.Interpret` | crates/monoloop-interpreter/src/engine.rs:692-803 | over any signals the owner publishes the specified trace |
| `ToolActions.TraceIsGood` | crates/monoloop-interpreter/src/engine.rs:692-843 | in every trace the generations of an action strictly grow, and a ready event has name and payload |
| `ToolSignals.TraceSays` | crates/monoloop-interpreter/src/engine.rs:692-843 | the n-th event reports the n-th signal: how many signals its action has had, the name given last, the arguments of the request that is ready, execution and result state, the result and the outcome given last |
| `ToolSignals.SignalIsPublished` | crates/monoloop-interpreter/src/engine.rs:734-782 | a request is published ready with its own name and arguments, a wait exposes none, a resolution its own result and outcome |
| `ToolSignals.TraceStopsAtLimit` | crates/monoloop-interpreter/src/engine.rs:699-706 | signals are published in turn up to the first that has no room for its action or too many bytes of arguments, and no further |
| `ToolSignals.AbruptEndSays` | crates/monoloop-interpreter/src/engine.rs:663-690 | an abrupt end publishes one event for exactly the actions with signals and no outcome, which exposes the arguments of a ready request and nothing else |
| `ToolSignals.FirstReadyIsFirstRequest` | crates/monoloop-interpreter/src/engine.rs:751-771 | the first ready event of an action is that of its first request, with that request's name and arguments |
| `LoopKeys.DedupKeyIsInjective` | crates/monoloop-loop/src/runtime.rs:347-352 | a dedup key determines action key and generation, whatever characters they hold |
| `LoopKeys.ActionKeyIsInjective` | crates/monoloop-loop/src/runtime.rs:347-351 | within one interpretation an action key determines the action |
| `LoopKeys.IdsCollideExactly` | crates/monoloop-loop/src/runtime.rs:347-351 | two interpretations can share an action key if and only if their ids are equal or one, with a colon after it, opens the other |
| `LoopKeys.ActionKeyIsInjectiveAcross` | crates/monoloop-loop/src/runtime.rs:347-351 | so keys of ids without a colon determine interpretation and action |
| `LoopKeys.ActionKeysCanCollide` | crates/monoloop-loop/src/runtime.rs:347-351 | with a colon in an id two actions can share a key |
| `LoopOwner.Loop.HandleDelivery` | crates/monoloop-loop/src/runtime.rs:309-345 | the gap check, the scope and the event take the Loop to the specified state or end |
| `LoopOwner.Loop.HandleTool` | crates/monoloop-loop/src/runtime.rs:347-399 | dedup, its limit and the choice by request state |
| `LoopProperties.BranchDecides` | crates/monoloop-loop/src/runtime.rs:347-490 | each named way through the handler does what it says: duplicate, limit, stale, tracked, missing name or payload, already dispatched, or announced as dispatched |
| `LoopOwner.Loop.TrackWaiting` | crates/monoloop-loop/src/runtime.rs:402-426 | a waiting action is recorded, a stale generation leaves the record |
| `LoopOwner.Loop.HandleReady` | crates/monoloop-loop/src/runtime.rs:429-477 | limit, stale, duplicate, missing name or payload, or dispatch |
| `LoopOwner.Loop.Resolve` | crates/monoloop-loop/src/runtime.rs:477-619 | a dispatch event, then the outcome, with the counters moving where the code moves them |
| `LoopCalls.DispatchSays` | crates/monoloop-loop/src/runtime.rs:477-619 | a dispatch is announced, asks the registry for the tool by name with its payload, asks the runtime to start it unless there is none, and reports per answer unavailable, failed, lost or the tool's own outcome |
| `LoopCalls.CallAccounting` | crates/monoloop-loop/src/runtime.rs:477-619 | over every run that goes on no action is resolved or started twice, and unavailable notices agree with their counter |
| `LoopCalls.RecordedState` | crates/monoloop-loop/src/runtime.rs:377-477 | the state recorded for an action, by the way its event took |
| `LoopCalls.ScopeAdmits` | crates/monoloop-loop/src/runtime.rs:626-664 | the flag admits everything, empty lists admit everything, and a list that is not empty has to name the unit |
| `LoopCalls.OutOfScopeIsPassedOver` | crates/monoloop-loop/src/runtime.rs:336-345 | a unit out of scope, or one that is no tool, only counts as a delivery |
| `LoopOwner.Loop.HandleAll` | crates/monoloop-loop/src/runtime.rs:266-307 | deliveries in turn up to the first that ends the Loop |
| `LoopProperties.LoopAccounting` | crates/monoloop-loop/src/runtime.rs:428-619 | after every run that goes on, dispatch events, result events and the counter agree, no action is dispatched twice, and tracked actions never exceed dedup entries, which never exceed their limit |
| `LoopProperties.RunKeepsAccounts` | crates/monoloop-loop/src/runtime.rs:336-619 | the same invariant is kept from any state that has it |
| `LoopProperties.CounterOnFailure` | crates/monoloop-loop/src/runtime.rs:477-619 | when a dispatch ends the Loop the counter is one above the results sent exactly in the two branches that bump before they send |
| `LoopProperties.PresentIsHit` | crates/monoloop-loop/src/runtime.rs:352-361 | a dedup key already present always holds this very generation |
| `LoopProperties.AcceptedIsContiguous` | crates/monoloop-loop/src/runtime.rs:309-334 | after the first delivery, a run that goes on was numbered without a gap and counted every delivery |
| `LoopProperties.AcceptedFromStart` | crates/monoloop-loop/src/runtime.rs:309-334 | a whole run that goes on was numbered by zeros, which pass unchecked, and then consecutively, and counted every delivery |
| `LoopProperties.NumberedIsNeverLost` | crates/monoloop-loop/src/runtime.rs:309-334 | and a run so numbered never ends as lost |
| `LoopProperties.FirstGapIsNotSeen` | crates/monoloop-loop/src/runtime.rs:309-334 | the first delivery is not checked |
| `LoopProperties.OnePublisherNeverGaps` | crates/monoloop-loop/src/runtime.rs:309-334 | consecutive deliveries never end the Loop as lost |
| `Subscription.NumbersAreUnique` | crates/monoloop-loop/src/subscription.rs:99-112 | in every schedule of cloned publishers no number is sent twice |
| `Subscription.SolePublisherCounts` | crates/monoloop-loop/src/subscription.rs:85-112 | a sole publisher that finishes what it starts sends exactly 1, 2, 3, ... |
| `Subscription.SolePublisherIsNeverLost` | crates/monoloop-loop/src/subscription.rs:85-112 | a Loop fed by it never takes the stream for a broken one, and ends at its last number |
| `Subscription.ClonesCanReorder` | crates/monoloop-loop/src/subscription.rs:76-112 | two clones can send 2 before 1, and then the Loop gives the stream up |
| `Subscription.AbandonedPublishGaps` | crates/monoloop-loop/src/subscription.rs:99-112 | a sole publisher that drops a publish after taking its number sends 1 and 3, and the Loop gives the stream up |
| `ExactlyOnce.BranchIsExpected` | crates/monoloop-loop/src/runtime.rs:347-490 | after any good mix of traces the next event is tracked, dispatched, already dispatched or incomplete, and is dispatched exactly when it is its action's first ready one |
| `ExactlyOnce.FollowsStep` | crates/monoloop-loop/src/runtime.rs:336-490 | the Loop's tables follow the interpreters' mixed trace event by event |
| `ExactlyOnce.StreamFollows` | crates/monoloop-loop/src/runtime.rs:309-490 | over a whole stream, among any other events, the Loop keeps running and its tables follow the mixed trace |
| `ExactlyOnce.ExactlyOnceDispatch` | crates/monoloop-interpreter/src/engine.rs:692-843 | whatever the tool signals of any number of interleaved interpretations whose ids do not open each other, every action that is ever ready is dispatched exactly once, on its first ready generation, its tool is resolved exactly once under the name and with the arguments of its first request, and no other action is dispatched |
| `ExactlyOnce.BadBranchesAreDead` | crates/monoloop-loop/src/runtime.rs:429-472 | on the way the stale, duplicate, over-limit and missing-name or missing-payload branches are never taken |
| `ExactlyOnce.MixIsGood` | crates/monoloop-interpreter/src/engine.rs:692-843 | an interleaving of good traces is good |
| `ExactlyOnce.SharedKeyLosesADispatch` | crates/monoloop-loop/src/runtime.rs:347-361 | of two actions that share a key, ready at one generation, the second is taken for a duplicate |
| `ExactlyOnce.OpeningIdsShareAKey` | crates/monoloop-loop/src/runtime.rs:347-351 | ids of which one opens the other always have two such actions |
| `Mailbox.ConservedStep` | crates/monoloop-contracts/src/delivery.rs:66-283 | every atomic step that does not saturate keeps the queued bytes equal to the outstanding permits, within both caps |
| `Mailbox.ConservedExactly` | crates/monoloop-contracts/src/delivery.rs:181-246 | a step keeps the books if and only if it does not saturate the counter, which no step does under a cap below the largest 64-bit value |
| `Mailbox.LargestCapCanSaturate` | crates/monoloop-contracts/src/delivery.rs:24-37 | at that cap a schedule has permits out for more bytes than the counter shows |
| `Mailbox.NeverUnderflows` | crates/monoloop-contracts/src/delivery.rs:72-77 | a permit's subtraction never takes more than is there |
| `Mailbox.MailboxConserves` | crates/monoloop-contracts/src/delivery.rs:181-283 | in every reachable state the counter is the permits, within both caps, and accepted events are delivered in order, discarded with the receiver or still queued |
| `Mailbox.ReceiverDropReturnsAllBytes` | crates/monoloop-contracts/src/delivery.rs:66-77 | once the receiver is gone and no send is under way, no byte is held |
| `Mailbox.NoLostWakeup` | crates/monoloop-contracts/src/delivery.rs:224-246 | in every interleaving a parked sender with no notification since it registered and no release about to notify really lacks room, and another permit is outstanding |
| `Mailbox.WaitingMeansProgress` | crates/monoloop-contracts/src/delivery.rs:224-261 | while a sender waits for bytes some step towards a release can be taken |
| `MailboxProgress.SendGoesThrough` | crates/monoloop-contracts/src/delivery.rs:224-260 | with room for its bytes and one more item a send reserves, enqueues its event last and returns |
| `MailboxProgress.SendIsRefused` | crates/monoloop-contracts/src/delivery.rs:224-260 | a send that is too large, or to a receiver that is gone, is refused and leaves nothing behind |
| `MailboxProgress.TrySendExactly` | crates/monoloop-contracts/src/delivery.rs:181-221 | an attempt goes through exactly with room, and otherwise is refused, leaving nothing behind, for the first of too large, bytes, receiver gone and items that applies |
| `MailboxProgress.FullMailboxParks` | crates/monoloop-contracts/src/delivery.rs:229-238 | without room for its bytes a send parks and waits |
| `MailboxProgress.ReceiveWakesSender` | crates/monoloop-contracts/src/delivery.rs:224-283 | a receive that makes room wakes a waiting sender, whose event is then accepted behind what was queued |
| `MailboxProgress.WaitingIsReachable` | crates/monoloop-contracts/src/delivery.rs:224-238 | under any limits a sender can come to wait |
| `TerminalRace.PreferenceOnlyRises` | crates/monoloop-connector/src/control.rs:110-135 | in every interleaving the preferred end only rises |
| `TerminalRace.AcceptedAtMostOnce` | crates/monoloop-connector/src/control.rs:110-135 | of any number of calls at most one cancel and one terminate is accepted |
| `TerminalRace.DispositionsAreTrue` | crates/monoloop-connector/src/control.rs:110-135 | a call is told that the connection is terminal only if it is, and that its kind was requested only if another call did |
| `TerminalRace.ExactlyOneEnd` | crates/monoloop-connector/src/handles.rs:291-322 | at most one end is ever published, and exactly one once a finish has gone through |
| `TerminalRace.LateCallsAreRefused` | crates/monoloop-connector/src/control.rs:110-113 | a call that begins on a terminal connection can only return that it is terminal |
| `TerminalRace.ReadDecides` | crates/monoloop-connector/src/handles.rs:297-321 | the preference at the owner's read decides kind and initiator of the end in every continuation |
| `TerminalRace.EarlyAcceptanceWins` | crates/monoloop-connector/src/control.rs:110-135 | a control call accepted before that read is honoured by whatever end follows |
| `TerminalRace.LateAcceptanceLoses` | crates/monoloop-connector/src/handles.rs:300-311 | a schedule in which an accepted terminate call is not honoured |
| `RpcTable.StepKeeps` | crates/monoloop-connector-cursor/src/process.rs:237-306 | every step keeps entries, ids, channels and outcomes in agreement |
| `RpcTable.IdsAreNeverReused` | crates/monoloop-connector-cursor/src/process.rs:237-250 | in every interleaving a request keeps its id and no other request ever gets it |
| `RpcTable.OnlyOwnReplies` | crates/monoloop-connector-cursor/src/process.rs:149-166 | a request that returned an error heard a line with its own id and that error, and one that returned a result heard one with its own id, no error and that result |
| `RpcTable.AtMostOneOutcome` | crates/monoloop-connector-cursor/src/process.rs:237-273 | an outcome is final |
| `RpcTable.ReturnedIsForgotten` | crates/monoloop-connector-cursor/src/process.rs:258-273 | a request that returned has no entry left and never saw its channel dropped |
| `RpcTable.SignalsArrive` | crates/monoloop-connector-cursor/src/process.rs:149-166 | unless something was sent before, a line for a request in flight reaches it as its error, else as its result, and not at all without either; a drain reaches every request in flight |
| `RpcTable.HeardReplyWins` | crates/monoloop-connector-cursor/src/process.rs:149-166 | a reply heard while its request waits, or is still writing, is what that request returns in every continuation, unless its deadline passes or its write fails |
| `RpcTable.RequestIsAnswered` | crates/monoloop-connector-cursor/src/process.rs:237-273 | from any state that is open, a request that is written and answered returns that answer and leaves the table as it was |
| `RpcTable.FailuresAreReported` | crates/monoloop-connector-cursor/src/process.rs:254-273 | one whose write fails, or that waits too long, says so and leaves the table as it was |
| `RpcTable.ClosedRefuses` | crates/monoloop-connector-cursor/src/process.rs:242-245 | one to a closed agent is refused before it takes an id |
| `RpcTable.ShutdownSticks` | crates/monoloop-connector-cursor/src/process.rs:282-288 | closing closes, for good, and without the input nothing is written |
| `RpcTable.QuiescentTable` | crates/monoloop-connector-cursor/src/process.rs:237-306 | when all requests have returned the table is empty; when none is running its entries are exactly those of futures dropped after registering that were neither answered nor drained |
| `RpcTable.DroppedFutureLeaksItsEntry` | crates/monoloop-connector-cursor/src/process.rs:246-250 | a schedule in which one does |
| `LineReader.ReadLineBounded` | crates/monoloop-connector-cursor/src/process.rs:322-363 | for every chunking the result is the bytes through the first newline or to the end, an error exactly over the cap or when the stream breaks off first, and reads consume what they return |
| `LineReader.ReadAll` | crates/monoloop-connector-cursor/src/process.rs:82-113 | reading on yields the lines of the stream, whatever the chunking |
| `LineReader.LinesConcatenate` | crates/monoloop-connector-cursor/src/process.rs:322-363 | the lines read concatenate to the stream consumed, each within the cap and cut at its newline |
| `LineReader.TooLongExactly` | crates/monoloop-connector-cursor/src/process.rs:338-345 | reading a stream fails for length if and only if it holds a line over the cap |
| `LineReader.TooLongMeans` | crates/monoloop-connector-cursor/src/process.rs:322-327 | too long is over `max(1, max_bytes)` bytes, newline included |
| `LineReader.EndsExactly` | crates/monoloop-connector-cursor/src/process.rs:328-336 | a stream without such a line is read to its end, or to where it breaks off |
| `Calendar.CivilIsDayCount` | crates/monoloop-interpreter/src/claude_stream.rs:198-209 | for every year, month and day accepted, the era arithmetic equals the count of days since 1970-01-01 year by year and month by month |
| `Calendar.NextDateIsNextDay` | crates/monoloop-interpreter/src/claude_stream.rs:198-209 | the next date is one more, across months, years and eras |
| `Calendar.DatesAreOrdered` | crates/monoloop-interpreter/src/claude_stream.rs:198-209 | an earlier valid date has a smaller day count |
| `Calendar.EveryDayHasADate` | crates/monoloop-interpreter/src/claude_stream.rs:198-209 | every day number is the number of a valid date |
| `Calendar.PastEndOfMonth` | crates/monoloop-interpreter/src/claude_stream.rs:199-201 | an accepted day stays before the next month if and only if the date is valid |
| `Calendar.FebruaryThirtyAliases` | crates/monoloop-interpreter/src/claude_stream.rs:199-201 | February 30 is taken for March 2 |
| `Calendar.NoOverflow` | crates/monoloop-interpreter/src/claude_stream.rs:202-208 | every intermediate value fits 64 bits if and only if the day count does, with the epoch shift to spare |
| `Timestamps.StampMsIsTrue` | crates/monoloop-interpreter/src/claude_stream.rs:183-195 | a valid timestamp converts to its true milliseconds, is refused exactly before 1970 and when they do not fit 64 bits, and overflows exactly when already the days do not |
| `Timestamps.StampsAreOrdered` | crates/monoloop-interpreter/src/claude_stream.rs:183-195 | the conversion preserves and reflects the order of valid timestamps |
| `Timestamps.LeapSecondOrder` | crates/monoloop-interpreter/src/claude_stream.rs:183-195 | a leap second is out of order with a timestamp if and only if that one lies in the second after it and not later within it |
| `Timestamps.LeapSecondAliases` | crates/monoloop-interpreter/src/claude_stream.rs:183-195 | the leap second at the end of 2016 shares its value with the new year |
| `Timestamps.PrintedIsReadBack` | crates/monoloop-interpreter/src/claude_stream.rs:154-195 | every printed UTC timestamp, with a year of any width, any fraction and any surrounding white space, is read back as that timestamp |
| `Timestamps.TimestampRoundTrip` | crates/monoloop-interpreter/src/claude_stream.rs:154-195 | with a year of four digits that is its true milliseconds, or a refusal exactly before 1970; it never overflows |
| `Timestamps.HugeYearOverflows` | crates/monoloop-interpreter/src/claude_stream.rs:198-209 | a well-formed timestamp in a year of seventeen nines overflows the date arithmetic |
| `Timestamps.OnlyUtcIsRead` | crates/monoloop-interpreter/src/claude_stream.rs:154-160 | text that does not end in `Z`, or is shorter than twenty bytes, is refused |
| `Timestamps.OffsetIsRefused` | crates/monoloop-interpreter/src/claude_stream.rs:154-160 | a timestamp with an offset is refused |

## Left out

- Text is a sequence of Unicode scalars with a byte-length function, where the source scans UTF-8 bytes: every byte it compares with is ASCII, so both visit the same decisions.
- Signed 32-bit bracket and depth counters and 64-bit byte, sequence and id counters do not wrap: reaching their limits needs more input than the bounds admit.
- Tokio is assumed, not modelled: a FIFO bounded channel with atomic operations, one-shot channels, and a `Notify` whose waiter, once created, is woken by every later `notify_waiters`.
- Mailbox.MailboxConserves: under the largest 64-bit cap it is stated for schedules that never saturate the counter; the completion one-shot of the delivery pair is not part of the model.
- Hash-map iteration order is a parameter of tool promotion and of quarantine, and the proofs hold for every order.
- serde_json is an abstract parse predicate in framing, and a function to the fields read in the chat stream.
- ChatStream.OpenAiSseState.PushBytes: the clean-end flush of the stream and the lower bounds the constructor puts on its limits are not part of the model.
- ChatStreamProperties.SseChunkingCarriesNoMeaning: is stated for streams with nothing after their end marker, because bytes behind it are processed or ignored depending on the cut (`CutAfterMarkerShows`); `StopsAtChunk` says what such a stream delivers.
- ChatStream.OpenAiSseState.IngestAll: the interpreter's bound on the size of one chunk, and JsonFraming.IngestChunks: its bound on the frame buffer, are not part of the model.
- TestDialect.EndConservesBytes: one text channel, with the output open; lanes, ordinals, diagnostics and boundary events are not part of the model.
- ToolActions.ToolOwner.HandleSignal: source time, source step, unit state and the label of what a tool waits for are not part of the model.
- ExactlyOnce.ExactlyOnceDispatch: an open output is room for the three events each delivery can cause, and the registry answers every dispatch.
- LoopOwner.Loop.HandleAll: deliveries only; cancellation, a drained subscription, status messages and the end report are not part of the model.
- TerminalRace.ExactlyOneEnd: the owner is the only one to mark the connection terminal; byte counters and the error text of the end are not part of the model.
- RpcTable.StepKeeps: taking an entry and sending on its channel happen under one lock with no await between them and are one step; server requests and notifications are not part of the model.
- LineReader.ReadLineBounded: lines are bytes; the lossy conversion to text is not part of the model.
- Timestamps.StampMsIsTrue: whether an overflow panics or wraps depends on how the program is built, and what it wraps to is not part of the model.
- Mapping of ACP, Claude, Z.ai and other dialects to fragments, configuration, capability matrices, identity and limit validation: branch-by-branch facts.
- The Grok connector's pending table, which treats failed writes differently, and the agy and codex connectors, which repeat the cursor code.
- Process spawning, sockets, files, timers and credentials: only "a write fails" and "the deadline passes" remain, as steps.
- The transaction ledger, supervisor and gateway of the second runtime, testkit, rendering and scripts.
