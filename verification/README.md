# Verification of the gateway's stream translators, parsers and protocols

A model, in Dafny, of the parts of the LLM gateway in which the most can go wrong:
translators that turn one streaming protocol into another, parsers that work on text cut
at arbitrary places, protocols between goroutines, and policies with a memory. Each part
is proved against a specification written without the implementation in mind. Code that
changes state step by step is a class or a method with loops, proved against functions on
values; code made of expressions is functions and lemmas.

`dafny verify dfyconfig.toml` checks the whole project.

## What is modelled

**The chat-to-Anthropic stream translator** (`AnthropicClient`, `StreamReading`,
`StreamState`, `StreamLinks`, `StreamProof`, `StreamReasoningProof`, `StreamRun`,
`StreamEnding`, `StreamContent`, `StreamThoughts`, `StreamSearches`, `StreamSending`,
`AnthropicStream`). `AnthropicClient` is the receiving
side: a client that accepts or refuses frames one by one and assembles blocks. It knows
nothing of the translator. `StreamReading` says what a chat stream says, without block
indices. `AnthropicStream.Translator` has the fields and methods of the source's stream
state; `Translate` runs it over any events and any writer. `StreamContent`,
`StreamThoughts`, `StreamSearches` and `StreamEnding` say what the reading is in terms of
the choices alone;
`StreamSending` says which frames the events cause.

**Tool call pairing** (`ToolSequence`): the validator with its two sets, against a
condition on all pairs of steps.

**The Cline stream** (`ThinkSplitter`, `ToolMarkup`, `RepeatedTags`, `ClineStream`,
`ClineReader`, `WrittenCalls`): the think-tag splitter that holds back partial tags, the
two recognisers of textual tool calls, the reader that buffers the answer while it may
hold calls, and that calls are read as they were meant.

**The chunk encoder** (`JsonText`, `JsonTokens`, `OpenAIChunk`, `FrameSearch`,
`FrameDecoding`, `ChunkLiterals`, `ChunkConstants`, `ChunkWriters`, `ChunkDecoding`,
`FastChunk`, `ChunkMeaning`): the path that searches a frame's text against the path that decodes it, down
to the characters of both texts, with the exact sizes of what is reserved, and what a
reader makes of the chunks.

**Journal paging** (`JournalPaging`): bounded scans with two cursor rules, followed to the
end over a ledger that grows meanwhile.

**Protocols** (`QuotaSync`, `AuditQueue`, `CredentialRotation`): steps that any number of
callers and one worker take in any order. A class in each has the fields of the source,
and its methods are proved to take the protocol's steps; the theorems are about every run.

**Policies** (`ClineHistory`, `Alerting`, `AlertOrder`, `AlertEngine`, `RateLimitHold`):
the replay of a conversation with its pending calls, alerts with hysteresis and their
journal, and the hold on rate-limited accounts.

`Text`, `Sets` and `Seqs` hold what several of these need. A character stands for one code
point; `Text.Bytes` counts bytes where the source does.

## Findings

What the source does not do on all inputs, each with an input on which it fails and the
exact condition under which it does not.

- A refusal message that arrives before the finish reason is reported as a normal end
  (`StreamEnding.RefusalReportedAsEndTurn`): internal/grok/handler_messages.go:1035 sets
  `sawRefusal`, and nothing reads it. `StreamContent.StopReasonExactly` says when a
  refusal is reported.
- A stop reason with white space around it and a text at a negative index make the two
  chunk paths disagree (`FastChunk.IrregularFrames`). `FastChunk.FastAgreesExactly`, and
  on texts the contract of `FastChunk.AppendOpenAIChunk`, say that these are all.
- A job of account 0 is taken and dropped, and its worker goes to sleep on the jobs of
  other accounts (`QuotaSync.ZeroIsLost`). Calls are lost exactly for account 0
  (`QuotaSync.WrittenExactly`), and the worker can fall asleep exactly if account 0 makes
  calls beside others (`QuotaSync.AlwaysAnnounced`, `QuotaSync.AllWritten`).
- A renewed refresh token with white space around it never compares equal to the one read
  back from the account, so the dirty flag stays set and the upstream is asked with it set
  (`CredentialRotation.PaddedStaysDirty`, `CredentialRotation.NeverClears`). It is asked
  with the flag set exactly if such a token is held and the store has not accepted it as it
  is (`CredentialRotation.AskedCleanExactly`).
- A caller that waited for a renewal whose access token is already about to expire asks
  with the refresh token that the renewal has replaced (`CredentialRotation.StaleTokenSent`).
  `CredentialRotation.AskedWithCurrentExactly` says when it is asked with the current one.
- An answer that names no expiry gives the credential the expiry of the caller that asked,
  which may be older than the one named last (`CredentialRotation.ExpiryGoesBack`).
  `CredentialRotation.AnnouncedExactly` says when the credential stays the one that the
  answers name, and `CredentialRotation.CredentialAnnounced` gives a condition on runs.

One rule of the source may surprise a reader: after a first name the repeated form of tool
calls no longer recognises the compact form. The contract of `RepeatedTags.Scan` says
exactly which segments are calls.

## Model

| member | source | states |
|---|---|---|
| `AnthropicStream.Translate` | internal/grok/handler_messages.go:963-1071 | For every sequence of events and every writer: the events decide which frames are sent, and the client gets as many of the first of them as the writer accepts. A client checking the protocol (blocks started 0, 1, 2, ..., deltas and stops only for open blocks, tool ids distinct, one signature a block, all blocks closed before the end) refuses none of them. The translation succeeds exactly if the stream has no fault and the writer accepts every frame; then every block was stopped, the message ended with its delta and its stop, and the client was told what the choices say, as the next row has it. A fault is the one the stream has and breaks the message off; a failed write means that there are more frames than the writer accepts; neither ends the message. |
| `AnthropicStream.Translator.WriteText` | internal/grok/handler_messages.go:1118-1124 | What the client was sent and which blocks stay open afterwards is the specification's text step. |
| `AnthropicStream.Translator.WriteThinkingDelta` | internal/grok/handler_messages.go:1126-1151 | Thinking and signatures go to the block of the current reasoning item, an anonymous or a parked one; a second signature and anything for a signed and closed item is dropped. |
| `AnthropicStream.Translator.WriteToolCall` | internal/grok/handler_messages.go:1153-1178 | The first delta of an index opens a block if it names an id not seen before, and faults otherwise; later ones add to that block. |
| `AnthropicStream.Translator.WriteSearch` | internal/grok/messages_search.go:123-151 | A search opens its block once; its result block follows exactly when the search is done. |
| `AnthropicStream.Translator.WriteCitation` | internal/grok/messages_search.go:171-189 | A citation reaches the client once, on an open text block. |
| `AnthropicStream.Translator.Finish` | internal/grok/handler_messages.go:1180-1201 | Closes exactly the open blocks in ascending order, then ends the message with the stop reason, or tool_use or end_turn where none was given. |
| `AnthropicStream.WholeTold` | internal/grok/handler_messages.go:1009-1201 | What the client has of a whole stream, in terms of the choices alone: all content and refusals in order; the citations in the order they first come; each tool index in a block of its own with its id and all its argument fragments; each search in a block of its own with the query of its first finished snapshot, and the results in the order the searches are finished; each named reasoning item in a block of its own with its first signature and all its thinking until it was left behind with that; in the other thinking blocks, stretch by stretch, the reasoning of no item; and at the end the stop reason and stop sequence that the choices give. |
| `StreamSending.OneCause` | internal/grok/handler_messages.go:963-1071 | The events decide the frames: any two sequences that they cause are the same. |
| `StreamSending.CausedFrom` | internal/grok/handler_messages.go:963-1071 | What has been sent after any part of the events is a beginning of all of it; nothing sent is taken back. |
| `StreamThoughts.ThoughtsAreSaid` | internal/grok/handler_messages.go:1009-1023 | In a stream read without a fault the named items are those for which there is thinking or a signature, each with its first signature and with all its thinking until it is left behind signed; what is said before any item is named is cut into stretches exactly where something else comes between. |
| `StreamThoughts.StretchesWhole` | internal/grok/handler_messages.go:1126-1151 | The stretches, joined in order, are all the thinking that comes before any item is named; none is dropped. |
| `StreamSearches.SearchesAreSaid` | internal/grok/messages_search.go:123-189 | In a stream read without a fault the citations, the searches with their first finished snapshots, and the results in order are those of the choices. |
| `AnthropicStream.MessageEnded` | internal/grok/handler_messages.go:1180-1201 | Closing all open blocks and ending the message is accepted by the client and leaves what it assembled as it was. |
| `StreamRun.EventsTracked` | internal/grok/handler_messages.go:963-1071 | After any events the translator's state and the reading agree: what the client has assembled is what was read, the two endings are the same. |
| `StreamReasoningProof.WriteThinkingKeeps` | internal/grok/handler_messages.go:1126-1151 | A thinking delta keeps translator and reading in agreement, whichever blocks are parked or open. |
| `StreamReasoningProof.WriteSignatureKeeps` | internal/grok/handler_messages.go:1126-1151 | So does a signature: the first of an item lands on the block that carries its thinking, a later one is dropped. |
| `StreamReasoningProof.WriteToolCallKeeps` | internal/grok/handler_messages.go:1153-1178 | So does a tool call delta, known, new or bad. |
| `StreamReasoningProof.WriteSearchKeeps` | internal/grok/messages_search.go:123-151 | So does a search snapshot. |
| `StreamProof.WriteTextKeeps` | internal/grok/handler_messages.go:1118-1124 | So does text: it extends what is shown at its end. |
| `StreamContent.EventsSay` | internal/grok/handler_messages.go:1118-1178 | A stream read without a fault has as its text all content and refusals in arrival order, as the arguments of each tool index that index's fragments in order, as its stop sequence the last that is named, and is finished exactly if some choice read has a finish reason. |
| `StreamContent.StopReasonExactly` | internal/grok/handler_messages.go:874-890 | A faultless stream has a last finish reason, and the reported stop reason is: "stop_sequence" if one was named; else "tool_use", "max_tokens" or "refusal" for the finish reasons that say so in either protocol's words, whatever their case and surrounding white space; else "refusal" if a refusal message came in a later choice, and "end_turn" if none did. |
| `StreamEnding.RefusalReportedAsEndTurn` | internal/grok/handler_messages.go:1032-1036 | The input on which a refusal is reported as a normal end. |
| `StreamEnding.ThoughtsNeverChange` | internal/grok/handler_messages.go:1109-1151 | Between any two moments of a stream a named reasoning item keeps its text as a prefix and keeps its first signature; once signed and left behind it never changes. |
| `AnthropicStream.EndedIsLast` | internal/grok/handler_messages.go:1196-1201 | The client accepts nothing after the end of a message. |
| `ToolSequence.Validate` | internal/grok/handler_messages.go:380-417 | Accepts exactly the histories in which call ids are non-empty and distinct, every result follows its call, and every call has exactly one result; a rejection names what the first offending step does wrong, or exactly the calls left without a result. |
| `ToolSequence.CheckedIsSound` | internal/grok/handler_messages.go:380-417 | Checking each step against the steps before it is the same as the global condition on all pairs of steps. |
| `ToolSequence.AnsweredIff` | internal/grok/handler_messages.go:409-416 | No call is pending at the end exactly if every call has its result. |
| `ToolSequence.Offends` | internal/grok/handler_messages.go:387-407 | A history with one offending step is not sound, whatever follows. |
| `ToolSequence.RolesCount` | internal/grok/handler_messages.go:383-405 | Only messages of an assistant call and only those of a tool answer, with roles read without case and surrounding white space; no other message counts. |
| `ThinkSplitter.SplitAll` | internal/cline/stream.go:245-280 | However a text is cut into chunks, feeding them and flushing emits, character by character and each marked as text or reasoning, what one reading of the whole text emits; putting the tags back gives the text. |
| `ThinkSplitter.Splitter.Feed` | internal/cline/stream.go:250-280 | After every feed what was emitted and what is held account for everything fed, for any continuation; between feeds only a proper prefix of the current tag is held; a final feed holds nothing. |
| `ThinkSplitter.Settled` | internal/cline/stream.go:262-278 | What precedes the longest suffix that may still become the tag is read the same whatever comes next. |
| `ThinkSplitter.LongestSuffix` | internal/cline/stream.go:264-273 | The longest proper prefix of the tag that the text ends with. |
| `ToolMarkup.ParseClosed` | internal/cline/stream.go:110-160 | Removes exactly the blocks that are recognised as calls and keeps everything else, the rejected blocks verbatim, in order. |
| `ToolMarkup.CutExists` | internal/cline/stream.go:110-160 | Every text can be cut into blocks and what is between them. |
| `ToolMarkup.OneCut` | internal/cline/stream.go:110-160 | There is only one way to cut it, so what is removed is determined. |
| `ToolMarkup.NothingRecognised` | internal/cline/stream.go:110-160 | With no call recognised the text comes back unchanged. |
| `RepeatedTags.Scan` | internal/cline/stream.go:172-235 | The loop with its two cursors ends, and finds exactly the calls read off segment by segment: a name with at least one argument before the next name, a compact call before the first name. |
| `RepeatedTags.Split` | internal/cline/stream.go:168-169 | The pieces joined by the tag are the text, and no piece holds the tag. |
| `RepeatedTags.Parse` | internal/cline/stream.go:102-240 | Closed blocks first; only where they give no call, the repeated form; only where that gives none, the text itself. |
| `RepeatedTags.OneReading` | internal/cline/stream.go:102-240 | A text has one reading, so what the parser returns is determined. |
| `RepeatedTags.NoCallsUnchanged` | internal/cline/stream.go:102-240 | When no call is recognised the whole parser returns its input. |
| `RepeatedTags.NoTagNoCalls` | internal/cline/stream.go:102-240 | A text without an opening tag gives no call and comes back unchanged. |
| `RepeatedTags.NamesAreNotCompact` | internal/cline/stream.go:176-191 | A segment that is a name is never a call in the compact form. |
| `ClineStream.AcceptedExactly` | internal/cline/stream.go:335-410 | A response is accepted exactly if it is marked as done before anything goes wrong, or stops without an error after a finish reason; otherwise it ends with the error of its first bad line, a failed read, or as truncated. |
| `ClineReader.ReadStream` | internal/cline/stream.go:283-429 | The outcome is the one the lines say. Of an accepted response every character of the answer is delivered once and in order but for what textual calls took out of the part that was parsed for them. With tools that part is the whole answer, or all of it up to the first native call but for what may be the beginning of a think tag, less what had to be flushed; only more than 1 MiB is ever flushed. All reasoning is delivered on both its channels, and the native calls, or else the textual ones. |
| `ClineReader.ReadCline` | internal/cline/stream.go:283-429 | The same for the two forms of textual calls that Cline's models write. |
| `ClineReader.ReadAsWhole` | internal/cline/stream.go:283-429 | Without native calls an answer of up to 1 MiB is read for textual calls as one text: what is shown and the calls are its reading. |
| `ClineReader.CuttingIsIrrelevant` | internal/cline/stream.go:283-429 | Two responses with the same content, however it is cut into deltas, give the same text, the same reasoning and the same textual calls, up to 1 MiB and without native calls. |
| `ClineReader.ReadingArrives` | internal/cline/stream.go:283-429 | Up to 1 MiB and without native calls, the text and the calls that an answer reads as are what is delivered. |
| `WrittenCalls.RepeatedIsRead` | internal/cline/stream.go:162-239 | A call written in the repeated form, after any text without tags, is read as that one call: its name, and the arguments that were written, entries and objects, in order. The text before it is what is shown. |
| `WrittenCalls.EntriesMeant` | internal/cline/stream.go:193-220 | Entries with different keys give each key the value written for it. |
| `WrittenCalls.OnlyEntriesMeant` | internal/cline/stream.go:193-220 | Entries give no key but their own. |
| `WrittenCalls.CompactIsRead` | internal/cline/stream.go:176-186 | Calls written in the compact form are read as written, all of them in order. |
| `WrittenCalls.ClosedIsRead` | internal/cline/stream.go:110-160 | A closed block is read as the call of its name with its argument pairs, and the text around it is what is shown. |
| `ClineReader.StillHeld` | internal/cline/stream.go:245-280 | What the splitter has emitted and what it still holds are together the text of the answer so far. |
| `ClineReader.UntaggedAnswerArrives` | internal/cline/stream.go:283-429 | An answer without the tag arrives as it is, with or without tools, wherever native calls begin and however often the buffer was flushed. |
| `ClineReader.NothingLostWithoutCalls` | internal/cline/stream.go:283-429 | Text is only ever missing from an answer where calls were recognised in it. |
| `JsonText.QuoteReads` | internal/handler/sse_frame.go:128-190 | A string written as a literal reads back as the string (section 7 of RFC 8259). |
| `JsonText.ScanStops` | internal/adapter/openai_sse.go:226-247 | The escape scan stops at the closing quote of the literal, whatever is in it and after it. |
| `JsonText.QuotesApart` | internal/adapter/openai_sse.go:213-248 | No literal is the beginning of another. |
| `JsonTokens.OnlyAtKeys` | internal/adapter/openai_sse.go:213-248 | In the text of a frame the marker of a key occurs only where that key stands, never inside an escaped string. |
| `JsonTokens.MarkerFound` | internal/adapter/openai_sse.go:213-248 | Searching for a marker finds the first such key. |
| `JsonTokens.Extract` | internal/adapter/openai_sse.go:213-248 | The literal after the first occurrence of the marker, or nothing if there is none. |
| `JsonTokens.ValueExtracted` | internal/adapter/openai_sse.go:213-248 | What is extracted is the value of the first key of that name, and nothing more. |
| `JsonTokens.PairAbsent` | internal/adapter/openai_sse.go:356-405 | The test for a frame's type fails on every frame of another type, whatever its strings hold. |
| `FrameDecoding.FrameDetermines` | internal/handler/sse_frame.go:204-320 | Two events whose frames have the same text are the same event, so a decoder of frames is a function of the text. |
| `ChunkDecoding.PrintDetermines` | internal/adapter/openai_sse.go:418-500 | Two chunks in literal form that print the same are the same. |
| `ChunkDecoding.OneChunk` | internal/adapter/openai_sse.go:418-500 | A text is the JSON of one chunk only. |
| `ChunkDecoding.PrintedReads` | internal/adapter/openai_sse.go:418-500 | What the encoder prints for a chunk is the JSON of that chunk. |
| `ChunkDecoding.TextReadsExactly` | internal/adapter/openai_sse.go:418-500 | A printed literal form is the JSON of a chunk exactly if its members read as the chunk's. |
| `FastChunk.AppendFast` | internal/adapter/openai_sse.go:356-416 | For every frame the gateway prints: what the text search appends is the chunk of the fast form, or nothing exactly where that has none. |
| `FastChunk.FastAgreesExactly` | internal/adapter/openai_sse.go:356-518 | The two paths say the same exactly on regular frames: no text at a negative index and no stop reason with white space around it. |
| `FastChunk.TextAgreesExactly` | internal/adapter/openai_sse.go:356-518 | What either path writes is, as a text, the JSON of the decoding path's chunk exactly on regular frames. |
| `FastChunk.AppendOpenAIChunk` | internal/adapter/openai_sse.go:504-518 | Appends to what was there; the text appended is the JSON of the decoding path's chunk exactly on regular frames, and nothing is appended where there is no chunk. |
| `ChunkMeaning.StreamMeans` | internal/adapter/openai_sse.go:356-518 | For every sequence of regular frames: a reader of the chunks appended has as its answer the joined texts of the frames, as its reasoning their joined thinking, the calls with their ids and names as they were opened, for each index the joined arguments, and as its finish reason the last stop reason in OpenAI's words. |
| `ChunkMeaning.FrameAdds` | internal/adapter/openai_sse.go:356-518 | The chunk appended for a regular frame carries the message's id and creation time, a first frame its model, and adds to the message exactly what the frame says. |
| `FastChunk.BytesAgree` | internal/adapter/openai_sse.go:356-518 | On a regular frame, with an id the encoder leaves as it is and a tool id that is not empty, the two paths append the same bytes. |
| `FastChunk.IrregularFrames` | internal/adapter/openai_sse.go:290-300 | Stop reasons with a space in front and texts at a negative index are not regular. |
| `ChunkLiterals.StopReasonsAgree` | internal/adapter/openai_sse.go:180-211 | Naming a stop reason literal to literal and naming it decoded agree exactly on stop reasons without white space around them. |
| `ChunkWriters.DecimalLen` | internal/adapter/openai_sse.go:138-178 | The length of the decimal form of every 64-bit integer, the smallest included. |
| `ChunkWriters.AppendMessageStart` | internal/adapter/openai_sse.go:280-289 | Appends the opening chunk, and the room reserved is the bytes appended, but for what encoding the message id adds. |
| `ChunkWriters.AppendText` | internal/adapter/openai_sse.go:290-301 | Appends the text chunk, and the room reserved is the bytes appended, but for what encoding the message id adds. |
| `ChunkWriters.AppendThinking` | internal/adapter/openai_sse.go:302-313 | Appends the reasoning chunk, and the room reserved is the bytes appended, but for what encoding the message id adds. |
| `ChunkWriters.AppendToolArgs` | internal/adapter/openai_sse.go:314-327 | Appends the tool arguments chunk, and the room reserved is the bytes appended, but for what encoding the message id adds. |
| `ChunkWriters.AppendToolStart` | internal/adapter/openai_sse.go:328-343 | Appends the tool call chunk, and the room reserved is the bytes appended, but for what encoding the message id adds. |
| `ChunkWriters.AppendMessageDelta` | internal/adapter/openai_sse.go:344-355 | Appends the closing chunk, and the room reserved is the bytes appended, but for what encoding the message id adds. |
| `ChunkWriters.NoExcess` | internal/adapter/openai_sse.go:112-127 | An id that needs no encoding adds nothing, so then the room reserved is used exactly. |
| `JournalPaging.Walk` | internal/api/api_ops.go:311-475 | Following the cursor until there is none ends, and lists exactly the matching rows the ledger held at the first page, newest first and each once, for every limit and filter and whatever is appended meanwhile. |
| `JournalPaging.ReadPage` | internal/api/api_ops.go:359-462 | A page has the first rows of the scan, at most `limit`. A full page has its cursor at its last row; a page that is not full has used up the scan, and has a cursor exactly if the scan was as long as it may be. The rows of the page and those below the cursor are all rows. |
| `JournalPaging.NextPage` | internal/api/api_ops.go:331-462 | A page of the walk shows the first `limit` rows among the newest six times `limit` entries below its cursor, and its own cursor is at its last row if it is full, at the end of the scan if the ledger goes on, and missing otherwise. |
| `JournalPaging.RowsExact` | internal/api/api_ops.go:359-394 | What is listed is exactly what the ledger holds, starts below, and matches; ids strictly fall. |
| `JournalPaging.PageLimit` | internal/api/api_audit.go:135-149 | Every limit a query asks for becomes one from 1 to 500. |
| `JournalPaging.GrowthAbove` | internal/api/api_ops.go:448-462 | What is appended above a cursor does not show below it. |
| `QuotaSync.NothingLost` | internal/grok/handler.go:719-759 | In every interleaving the calls of a non-zero account are written, pending or in the worker's hand. |
| `QuotaSync.LatestKept` | internal/grok/handler.go:719-733 | What is pending for an account has the headers of its latest call. |
| `QuotaSync.AlwaysAnnounced` | internal/grok/handler.go:719-759 | For every set of accounts that make requests: in every run a wake-up is in the channel, the worker is draining, or a caller is about to signal while something is pending, exactly if account 0 is not among them or is alone. |
| `QuotaSync.ZeroIsLost` | internal/grok/handler.go:741-759 | The run in which account 0 loses its request and puts the worker to sleep on that of another account, whichever it is. |
| `QuotaSync.RestExactly` | internal/grok/handler.go:719-759 | A state is at rest exactly if only a new call can happen in it. |
| `QuotaSync.ComesToRest` | internal/grok/handler.go:719-759 | Without new calls every run is bounded. |
| `QuotaSync.AllWritten` | internal/grok/handler.go:719-759 | For every set of accounts: in every run that has come to rest all calls of non-zero accounts are written and nothing is pending, exactly if account 0 is not among them or is alone. |
| `QuotaSync.ClearedUntilZero` | internal/grok/handler.go:719-759 | The same for any one run in which no job of account 0 is taken. |
| `QuotaSync.AnnouncedUntilZero` | internal/grok/handler.go:719-759 | The worker does not fall asleep on pending requests before a job of account 0 is taken. |
| `QuotaSync.WrittenExactly` | internal/grok/handler.go:719-759 | At rest with nothing pending an account's calls are all written exactly if it is not account 0 or made none. |
| `QuotaSync.QuotaQueue.TakeOne` | internal/grok/handler.go:741-757 | Takes any one pending job out of the map, or finds none and leaves the id at 0. |
| `QuotaSync.QuotaQueue.AddRequest` | internal/grok/handler.go:719-733 | A call is merged into the pending job of its account. |
| `AuditQueue.Conserved` | internal/audit/audit.go:144-235 | In every interleaving each call of Log is written, failed, dropped, queued or in flight, and in one of these only. |
| `AuditQueue.DroppedExactly` | internal/audit/audit.go:153-174 | An event is dropped exactly if the logger is closed, it does not encode, it is of more than 32 KiB, or there is no room for it within 8 MiB or among 4096 events; otherwise it is sent. |
| `AuditQueue.IdleTakesIn` | internal/audit/audit.go:153-203 | In every run, when the writer has caught up and the logger is open, an event that encodes within 32 KiB is taken in. |
| `AuditQueue.InOrder` | internal/audit/audit.go:153-235 | What was taken in is tried, in flight and queued in the order it was taken in; nothing is lost, repeated or overtaken. |
| `AuditQueue.AccountHolds` | internal/audit/audit.go:153-203 | In every interleaving the account of queued bytes, with what is just being counted in, is the size of what the writer has not yet counted off, and between zero and its bound. |
| `AuditQueue.ClosedTakesNothing` | internal/audit/audit.go:153-184 | After closing nothing is sent. |
| `AuditQueue.FinishedEmpty` | internal/audit/audit.go:176-235 | When the writer is done nothing is queued, everything taken in has been tried, and the account is zero. |
| `AuditQueue.ClosedRunsOut` | internal/audit/audit.go:186-235 | After closing the writer has a bounded number of steps left. |
| `AuditQueue.ClosedGoesOn` | internal/audit/audit.go:186-235 | After closing the writer can take a next step until it is done, and only until then. |
| `AuditQueue.Logger.Log` | internal/audit/audit.go:153-174 | Takes an event in exactly if the logger is open, the event encodes, it and the account are within their bounds and the queue has room; otherwise counts it as dropped. |
| `AuditQueue.Logger.CountBatch` | internal/audit/audit.go:217-230 | Every result of a batch is counted once, as written or failed. |
| `CredentialRotation.AlwaysSafe` | internal/cline/client.go:126-256 | In every interleaving a clear flag means that the persisted credential, or the loaded one, is the current one. |
| `CredentialRotation.AskedClean` | internal/cline/client.go:209-256 | In every run the upstream is asked with the flag set only if there is white space around the refresh token that is held. |
| `CredentialRotation.AskedCleanExactly` | internal/cline/client.go:145-256 | In every run in which access tokens are not issued twice the upstream is asked with the flag set exactly if there is white space around the refresh token that is held and the store has not accepted it so. |
| `CredentialRotation.TidyAskedClean` | internal/cline/client.go:209-256 | If issued refresh tokens have no white space around them, the upstream is only asked with the flag clear. |
| `CredentialRotation.NeverClears` | internal/cline/client.go:126-256 | Once a refresh token with white space around it is held with the flag set and nobody is writing it, only another renewal can clear the flag, however often what is read back is persisted. |
| `CredentialRotation.ClearsExactly` | internal/cline/client.go:145-256 | In every run, a caller that marks what it read back and persisted past the lock clears the flag exactly if the refresh token that is held needs no trimming. |
| `CredentialRotation.PaddedStaysDirty` | internal/cline/client.go:145-256 | The run of one caller in which what is read back is persisted twice, the flag stays set, and the upstream is asked. |
| `CredentialRotation.AskedWithCurrentExactly` | internal/cline/client.go:191-240 | In every run in which access tokens are not issued twice, the upstream is asked with the current refresh token exactly if nobody renewed meanwhile or the renewal kept the refresh token; where refresh tokens rotate, exactly if nobody renewed. |
| `CredentialRotation.StaleTokenSent` | internal/cline/client.go:191-240 | The run of two callers in which the one that waited asks with a refresh token that has been replaced. |
| `CredentialRotation.OneRenewalEach` | internal/cline/client.go:173-256 | Over any number of expiries and renewals no access token is renewed twice, as long as what a caller finds renewed by another is, by the answers' own expiries, not about to expire then. |
| `CredentialRotation.CredentialAnnounced` | internal/cline/client.go:209-256 | In every run in which a credential that another caller renewed is not about to expire when it is found, the current credential is the one that the answers name: the access token issued last, and the refresh token and expiry that were named last, or else loaded. |
| `CredentialRotation.AccessIsLast` | internal/cline/client.go:239-246 | In every run whatever the access token is the one issued last. |
| `CredentialRotation.AnnouncedExactly` | internal/cline/client.go:236-246 | An answer leaves the credential as the answers name it exactly if it names an expiry and a refresh token, or those of the asking caller are the current ones. |
| `CredentialRotation.ExpiryGoesBack` | internal/cline/client.go:236-246 | The run of two callers after which the credential has an expiry older than the one named last. |
| `CredentialRotation.CheckedExactly` | internal/cline/client.go:173-198 | A caller that checks the current credential renews it exactly if it has a refresh token, and no access token or one that by the answers' own expiries is about to expire; otherwise it uses it. |
| `CredentialRotation.DecidedExactly` | internal/cline/client.go:213-225 | Past the lock a caller asks exactly if nobody has renewed its credential meanwhile, or what was renewed is by the answers' own expiries about to expire. |
| `CredentialRotation.Client.StoreCredentials` | internal/cline/client.go:145-160 | Writes the credential to the account and sets flag and expected token, and nothing else. |
| `CredentialRotation.Client.MarkCredentialsClean` | internal/cline/client.go:162-171 | Clears the flag only if the credential held is the one that was persisted. |
| `ClineHistory.BuildMessages` | internal/cline/request.go:102-153 | What is rendered is the conversation in its order with its reasoning, but for the results that answer no open call. No message is empty, and exactly a conversation that renders to nothing becomes the prompt. |
| `ClineHistory.ConversationSays` | internal/cline/request.go:102-238 | A conversation says exactly the non-blank texts of its system prompt and of its messages, each in its role. |
| `ClineHistory.CallsAskedFor` | internal/cline/request.go:176-196 | An assistant's calls are those of its blocks that have a name: with that name, the block's input, and its id or, where that is blank, a minted one. |
| `ClineHistory.BlocksAnswer` | internal/cline/request.go:217-232 | A message answers exactly with the results it holds. |
| `ClineHistory.RolesAre` | internal/cline/request.go:114-122 | Roles are read without case and surrounding white space; no role is a user's, and a developer speaks for the system. |
| `ClineHistory.Renderer.ConvertAssistant` | internal/cline/request.go:164-201 | One message with the reasoning, the texts and then the calls, used exactly if it says anything; its calls become pending. |
| `ClineHistory.Renderer.ConvertBlocks` | internal/cline/request.go:203-238 | Texts and kept results keep the order of the blocks; a result is kept exactly if its call is pending. |
| `ClineHistory.KeptPaired` | internal/cline/request.go:102-238 | Among the events kept, in every prefix the answers to an id are no more than its calls. |
| `ClineHistory.RenderedPaired` | internal/cline/request.go:102-238 | The same in every prefix of the rendered messages. |
| `Alerting.RateJudged` | internal/alerting/alerting.go:186-229 | Under valid rules a rate alert is raised exactly on enough traffic with a severe rate, or a bad one with enough failures; once raised it holds exactly while the rate is below the warning threshold plus margin. |
| `Alerting.SeveritiesExactly` | internal/alerting/alerting.go:166-229 | Critical are exactly accounts that must log in again, an empty pool where that is a rule, and a rate below the critical threshold; a warning is only about a rate. |
| `Alerting.CurrentJudged` | internal/alerting/alerting.go:166-229 | A current alert has the severity, and shows the counters, of a channel on which its condition holds. |
| `Alerting.CurrentExactly` | internal/alerting/alerting.go:150-230 | A key is current exactly if its condition holds on some judged channel. |
| `Alerting.BandKeeps` | internal/alerting/alerting.go:186-229 | With adequate traffic a rate from the warning threshold to the margin above it changes nothing: the alert fires exactly if it was firing. |
| `Alerting.SelectedExactly` | internal/alerting/alerting.go:141-162 | Judged are exactly the channels with a name, without white space around it, that may be alerted on. |
| `Alerting.Judge` | internal/alerting/alerting.go:150-230 | The loop over the channels computes the current alerts. |
| `AlertOrder.SortAlerts` | internal/alerting/alerting.go:251-274 | Sorts in place, into the insertion-sorted order of what was there. |
| `AlertOrder.SortedOrdered` | internal/alerting/alerting.go:251-274 | Alerts with different keys are ordered critical first and then by key, and are the same alerts. |
| `AlertOrder.OneOrder` | internal/alerting/alerting.go:251-274 | A set of alerts has one order. |
| `AlertEngine.OneList` | internal/alerting/alerting.go:231-249 | What is reported, and in what order, does not depend on the order in which a map is ranged over. |
| `AlertEngine.EvaluatePass` | internal/alerting/alerting.go:150-249 | Reports as fired exactly the keys that hold and did not fire, as recovered exactly those that fired and do not hold. |
| `AlertEngine.PassRecorded` | internal/alerting/alerting.go:291-336 | Recording what a pass reports keeps the records of every key alternating, and they then say what is firing. |
| `AlertEngine.FiringHeld` | internal/alerting/alerting.go:150-336 | What fires after a run of snapshots is what holds on the last one, given what fired before it. |
| `AlertEngine.BandKeepsFiring` | internal/alerting/alerting.go:186-229 | After any run of snapshots an adequate rate between the warning threshold and the margin above it neither raises nor clears its alert. |
| `AlertEngine.Engine.Evaluate` | internal/alerting/alerting.go:291-336 | After a pass exactly the keys fire whose condition holds; an alert that keeps firing stays as first raised, and one that starts is as a channel was judged; what fired and what recovered, each once, is all that is added to the records; for every key fired and recovered alternate, starting with fired. |
| `AlertEngine.Engine.SetThresholds` | internal/alerting/alerting.go:354-366 | Takes valid rules only; what fires is left alone. |
| `AlertEngine.OnlyAlertable` | internal/alerting/alerting.go:141-162 | What fires belongs to a channel of its snapshot that may be alerted on, never to "http" or "probe". |
| `AlertEngine.Run` | internal/alerting/alerting.go:150-336 | After any run of snapshots the records alternate for every key and say what is firing, and that is what the passes, one after the other and each with what fired before, make fire. |
| `RateLimitHold.AccountRecord.Apply` | internal/accountpolicy/policy.go:95-131 | The whole account after a verdict: status, counter, deadline and times. |
| `RateLimitHold.RateLimitCooldown` | internal/accountpolicy/policy.go:580-592 | 30 seconds times two to the failures less one, at most 30 minutes. |
| `RateLimitHold.AccountHeld` | internal/accountpolicy/policy.go:501-549 | Held exactly if sign-in is lost, or the status withholds accounts and either no attempt is recorded or the time is before the cooldown of the status or before what the recorded deadline reaches: nothing for a definitive block, at most 30 minutes for a rate limit that is no named cap. |
| `RateLimitHold.RateLimitHeld` | internal/accountpolicy/policy.go:95-592 | After any run of verdicts that ends with the k-th rate limit since the account was clear, it is held for at least 30 seconds times two to the k-1, up to 30 minutes, and not beyond 30 minutes whatever deadline is recorded, but for the two named caps. |
| `RateLimitHold.RetryAfterHonoured` | internal/accountpolicy/policy.go:95-131 | A retry-after of up to 30 minutes is honoured in full. |
| `RateLimitHold.BlockKept` | internal/accountpolicy/policy.go:525-549 | A recorded deadline does not change how long a 401, 403 or 404 holds. |
| `RateLimitHold.BlocksLast` | internal/accountpolicy/policy.go:552-577 | A refused credential holds for 30 minutes; a block for a day, or 10 minutes at Grok; payment for a day or until a later deadline. |
| `RateLimitHold.OtherwiseHeld` | internal/accountpolicy/policy.go:501-515 | Without a login an account is held whatever else; a used-up quota with a status of its own does not hold it; without a known attempt any other status does. |
| `RateLimitHold.SuccessReleases` | internal/accountpolicy/policy.go:89-131 | A success ends every hold and puts the account back to its first back-off. |
| `RateLimitHold.NamedCapHeld` | internal/accountpolicy/policy.go:525-549 | The two caps hold until their deadline or the back-off, whichever is later. |
## Left out

- ClineReader.ReadStream: of an answer of more than 1 MiB the contract says that what is
  flushed unparsed is more than 1 MiB and comes first; at which piece the buffer was
  flushed depends on how the answer was cut, and is not stated.
- Decoding: JSON decoders are not modelled. Events, deltas and lines are what a decoder
  makes of the text; textual tool calls take a decoder of argument values as a parameter.
  `FrameDecoding.FrameDetermines` and `ChunkDecoding.OneChunk` make that determinate for
  the frames the gateway prints and the chunks it writes.
- Token counts: the mapping of usage numbers between protocols.
- Search hits: how they are rendered, and how a search is identified.
- The tool call accumulator of the Cline reader and the ids it mints: the reader hands on
  native deltas and textual calls in order.
- The argument pairs inside a closed block, HTML unescaping and the typing of argument
  values in textual calls: part of the decoder that is a parameter.
- Upstream attempts and diagnostic indexes attached to journal rows, and the second scan
  that looks for them; it does not move the cursor.
- Trimming of the ledger by its maximum length: entries below a cursor stay.
- Partial writes: a frame reaches the writer whole or not at all.
- Lower-casing and case folding beyond the letters that become ASCII letters.
- Memory: how byte slices grow and alias. Sizes are compared, capacities are not.
- Concurrency is modelled as atomic steps in any order: a step is what the source does
  under one lock, or one channel operation, or one call to the upstream or the store.
  In `AuditQueue` the send and the count of its bytes are two steps, between which the
  writer may receive.
- `store.UpdateClineCredentials`: an operation that succeeds or fails.
- Overlapping passes of the alert engine: the source records changes after it has released
  its lock, so that records alternate holds for passes that do not overlap, and those are
  modelled.
- Rounding: success rates are `real` numbers.
- The width of counters, and overflow of durations and of dates: integers are unbounded
  where the source only counts. The 64-bit integers of the chunk encoder are modelled.
- Classifying errors by their text: a verdict is a parameter, and a status message is
  modelled by whether it names one of the two caps.
- Redaction, routing, login flows, configuration, Redis and HTTP.
- A Cline client without an account: the credential is read off the account.
- The clock: times are parameters.
