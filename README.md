# RealtimeSTT streaming clients, modelled in Dafny

RealtimeSTT clients stream microphone audio to a speech-to-text server over a
"data" websocket and read transcription events back. Every audio chunk goes
out as one binary frame:

    uint32 little-endian length of the metadata | metadata JSON (UTF-8) | raw int16 PCM

The metadata carries `sampleRate`, and, when the server verifies data
integrity, `dataLength` (the number of int16 samples), `checksum` (the sum of
the samples masked to 32 bits), `timestamp` (milliseconds) and
`server_sent_to_stt`. A verifying server that finds a frame whose length or
checksum does not match its audio answers with a `data_corruption` error and
closes the connection.

The project models the client side of that protocol:

- `wire.dfy` (module `Wire`): the checksum, little-endian length prefix,
  the JSON metadata rendering and the framing. A decoder is written next to
  each encoder so that round trips can be proved. `PeerAccepts` states what a
  verifying server checks.
- `messages.dfy` (module `Messages`): the decoded JSON messages the clients
  receive, the websocket events (a message, a close, a failure) and the
  Python helpers the handlers use (`str.strip`, `startswith`, `dict.get`).
- `ptt_client.dfy` (module `PttClient`): the push-to-talk client
  `example_app/client.py`. It covers the hotkey/toggle mode choice, the
  audio worker with its silence tail, the key handlers, the terminal toggle
  loop, the receiver, the control commands and the reconnect loop. That loop
  shrinks the chunk size (4096, 2048, 1024) and doubles the backoff.
- `sample_client.dfy` (module `SampleClient`): the message handler and chunk
  sender of `tests/sample_python_client.py`.
- `corrupted_data_test.dfy`, `rejection_system_test.dfy`,
  `client_rejection_test.dfy` and `verification_client_test.dfy`: the four
  test clients. Each one deliberately sends corrupted frames, or well-formed
  ones, and tracks how the server reacts.

Objects whose methods update fields are Dafny classes. Each method is proved
against a pure function of the old state and its inputs (for example
`Snapshot() == Deliver(rule, old(Snapshot()), events)`). The properties of
those functions are proved as lemmas.

The time at which a coroutine runs is not modelled. What the asynchronous
handler receives between two sends is given as a batch of events per pause,
and a send's outcome is an input: delivered, closed or another error.

Some of the source's behaviour is modelled exactly as written:

- The "corrupted_audio" case of `tests/test_corrupted_data.py` writes the
  10-character escaped text `\x00` ten times. That is 40 bytes replacing 10.
  `CorruptAudio` keeps that length change.
- With verification off, `tests/test_verification_client.py` prints through
  an unbound local after a successful send. That prints one error line per
  counted chunk, and `SendChunk` models it.

## Model

| member | source | states |
|---|---|---|
| Wire.Le32 | example_app/client.py:99 | `struct.pack('<I', n)` yields exactly four bytes |
| Wire.Le32RoundTrip | example_app/client.py:99 | reading the four length bytes back gives the packed length |
| Wire.Le32ValueRoundTrip | example_app/client.py:99 | every four-byte prefix is the packing of the value read from it |
| Wire.Int16Le | example_app/client.py:87 | a little-endian byte pair read as int16 lies in [-32768, 32768) and agrees with the two bytes modulo 2^16 |
| Wire.Checksum | example_app/client.py:85-88 | the checksum exists exactly for an even byte count (numpy refuses odd buffers), and is the sample sum reduced modulo 2^32 |
| Wire.ChecksumOfSilence | example_app/client.py:192 | an all-zero buffer has checksum 0 |
| Wire.SampleSumAppend | example_app/client.py:85-88 | the sample sum of two whole-sample buffers joined is the sum of their sums |
| Wire.ChecksumAppend | example_app/client.py:85-88 | the checksum of a concatenation is the two checksums added modulo 2^32 |
| Wire.SampleSumReplace | example_app/client.py:85-88 | replacing one sample changes the sample sum by exactly the difference of the two samples |
| Wire.SingleSampleChangeDetected | example_app/client.py:85-88 | changing the value of any one sample always changes the checksum |
| Wire.Ascii | example_app/client.py:98 | UTF-8 encoding of ASCII text keeps its length |
| Wire.Digits | example_app/client.py:98 | a number renders as a non-empty run of ASCII digits |
| Wire.DigitsRoundTrip | example_app/client.py:98 | the digits rendered for a number read back as that number |
| Wire.DigitSpan | example_app/client.py:98 | the digit run at the head of a buffer is maximal |
| Wire.DigitSpanOfDigits | example_app/client.py:98 | the digit run of digits followed by a non-digit ends where the digits end |
| Wire.ParseNumber | example_app/client.py:98 | a parsed number consumes at least one byte |
| Wire.ParseNumberOfDigits | example_app/client.py:98 | parsing a rendered number returns the number and leaves the rest untouched |
| Wire.ParseFieldOf | example_app/client.py:98 | a `"key": n` field reads back as n |
| Wire.MetaRoundTrip | example_app/client.py:90-98 | decoding the `json.dumps` rendering of any metadata gives the same metadata back, with or without the integrity fields |
| Wire.DigitsLength | example_app/client.py:98 | a number below 10^k renders in at most k digits |
| Wire.EncodeMetaShort | example_app/client.py:90-98 | metadata whose numbers have at most 20 digits renders in at most 200 bytes |
| Wire.Frame | example_app/client.py:99-100 | a frame exists exactly when the metadata is shorter than 2^32 bytes, and is the length prefix, the metadata and the audio in that order |
| Wire.SplitFrameOfFrame | example_app/client.py:99-100 | splitting a frame returns the metadata and audio it was built from |
| Wire.FrameOfSplit | example_app/client.py:99-100 | every splittable buffer is the frame of its two parts |
| Wire.DecodeFrameMeta | example_app/client.py:90-100 | decoding a frame built from metadata and a payload returns both |
| Wire.IntegrityMeta | tests/sample_python_client.py:201-208 | integrity metadata exists exactly for whole-sample audio, carries the given rate and clock, and is consistent with the audio |
| Wire.EncodeFrameOutcome | tests/sample_python_client.py:199-216 | an odd byte count always fails with the numpy length error; encoding fails exactly on an odd byte count or on metadata of 2^32 bytes or more; whole-sample audio with numbers of at most 20 digits always frames |
| Wire.EncodeFrameRoundTrip | tests/sample_python_client.py:199-216 | an encoded chunk decodes to its rate, sample count, checksum, timestamp and audio, and a verifying server accepts it |
| Messages.LeadingSpaces | tests/sample_python_client.py:152 | the leading whitespace run is maximal |
| Messages.TextEnd | tests/sample_python_client.py:152 | the trailing whitespace run is maximal |
| Messages.Strip | tests/sample_python_client.py:152 | `str.strip` gives the slice of the input between its leading and its trailing whitespace: everything before and after the slice is whitespace, the slice has none at either end, and it is empty exactly when the input is all whitespace |
| PttClient.EnvBlocksGlobalHotkeys | example_app/client.py:16-24 | global hotkeys are blocked exactly on Linux under Wayland or without an X display |
| PttClient.ToggleMode | example_app/client.py:51-54 | toggle mode is used exactly when pynput is missing or global hotkeys are blocked |
| PttClient.React | example_app/client.py:150-173 | how the receiver treats each message: skip non-JSON, crash on a non-object, stop on a corruption rejection, surface final and recording messages, stay silent on progress kinds, print the rest |
| PttClient.ListenFacts | example_app/client.py:148-180 | the receiver consumes messages up to and including the first one that ends it, clears `running` exactly then, and otherwise consumes everything |
| PttClient.SilenceFrameBuilds | example_app/client.py:192-195 | the silence tail frame always builds for realistic chunk sizes and clocks |
| PttClient.SilenceFrameFacts | example_app/client.py:192-195 | the silence frame decodes to `chunk` zero samples with checksum 0 and is accepted by a verifying server |
| PttClient.TailWorkFacts | example_app/client.py:186-208 | on release the worker submits two silence frames when connected and a loop exists, each stamped with the clock reading of its own pass, then stop-and-clear when a loop exists; both silence frames are accepted |
| PttClient.ActiveFrame | example_app/client.py:219-221 | a chunk frames exactly when a stream is open and the read returned whole samples, and the frame carries that audio with its checksum |
| PttClient.ToggledAppend | example_app/client.py:313-322 | toggling over two stretches of input equals toggling over their concatenation |
| PttClient.TwoTogglesRestore | example_app/client.py:313-322 | two Space presses leave the talk state as it was |
| PttClient.QuitIndex | example_app/client.py:313-322 | the quit position is the first `q` or `Q`, or the end of the input |
| PttClient.NextChunkIndex | example_app/client.py:388-390 | a degrade step advances the chunk index by one unless it is at the last size |
| PttClient.ChunkIndexAfter | example_app/client.py:387-390 | the index after any number of degrades stays in the size table and never decreases |
| PttClient.ChunkIndexAfterClosedForm | example_app/client.py:387-390 | after n degrades the index is min(start + n, 2) |
| PttClient.ChunkSizeNonIncreasing | example_app/client.py:10-11 | more reconnects never give a larger chunk size |
| PttClient.BackoffDoubles | example_app/client.py:393 | each backoff is twice the previous one, and at least one second |
| PttClient.FreshSchedule | example_app/client.py:371-395 | from a fresh client the sizes are 4096, 2048, then 1024, and the waits are 1, 2, 4, 8, 16, 32, 64 seconds |
| PttClient.FirstInterrupt | example_app/client.py:375-381 | the first keyboard interrupt among the session outcomes, or the end if none |
| PttClient.Client.constructor | example_app/client.py:34-54 | a new client starts idle at chunk 4096 with nothing open, and its input mode is `ToggleMode` of the environment |
| PttClient.Client.OpenStream | example_app/client.py:57-66 | an open stream stays open; otherwise the stream opens exactly when the device allows it |
| PttClient.Client.CloseStream | example_app/client.py:68-75 | the stream is closed afterwards |
| PttClient.Client.ControlCall | example_app/client.py:135-141 | a command goes out as its JSON payload only when the control socket is open and the send succeeds |
| PttClient.Client.ControlStopAndClear | example_app/client.py:143-146 | `stop` then `clear_audio_queue` go out, each exactly when its own send succeeds on an open control socket |
| PttClient.Client.BeginSession | example_app/client.py:103-108 | the session is connected exactly when the data socket opens; the control socket and `running` change only then |
| PttClient.Client.EndSession | example_app/client.py:347-355 | after a session both sockets and the stream are closed |
| PttClient.Client.Receiver | example_app/client.py:148-180 | the receiver's reactions and its effect on `running` are those of `Listen` |
| PttClient.Client.IdleCycle | example_app/client.py:186-208 | after a release the tail work, with one clock reading per silence frame, is submitted and the stream closed; otherwise nothing changes |
| PttClient.Client.ActiveCycle | example_app/client.py:210-231 | a failed open ends the worker; otherwise one frame is submitted and counted exactly when it builds while connected, and a lost connection ends the worker |
| PttClient.Client.SubmitCapture | example_app/client.py:219-224 | a frame is submitted and counted exactly when it builds and the data socket and loop exist |
| PttClient.Client.WorkerStep | example_app/client.py:185-231 | one worker iteration: the idle and active cases above, and a chunk is counted only while talking and connected, one at a time |
| PttClient.Client.OnPress | example_app/client.py:241-254 | Space starts talking; `q` or `Q` clears `running` |
| PttClient.Client.OnRelease | example_app/client.py:256-269 | releasing Space while talking stops talking and submits the finalize command; anything else changes nothing |
| PttClient.Client.ToggleStdinLoop | example_app/client.py:313-322 | the loop reads up to and including the first quit character; the talk state is the toggles of what it read, and quitting clears `running` |
| PttClient.Client.Degrade | example_app/client.py:387-391 | one degrade step moves to the next chunk size and never enlarges the chunk |
| PttClient.Client.Run | example_app/client.py:371-397 | up to seven sessions; an interrupt ends the loop early; session k uses the k-th degraded size, wait k is 2^(k-1) seconds, and the threads are stopped at the end |
| SampleClient.HandleMessage | tests/sample_python_client.py:125-192 | a message clears `running` exactly when it is a corruption rejection, and ends the handler exactly on bad JSON, a non-object, a rejection or a non-string live text |
| SampleClient.HandleMessageFacts | tests/sample_python_client.py:129-169 | server errors are printed, blank live text is ignored, live text continues the line exactly when it extends the current one, a final sentence resets it, and nothing else changes it |
| SampleClient.HandleMessageKinds | tests/sample_python_client.py:178-187 | the progress kinds stay quiet, and exactly the other truthy kinds are reported as unknown |
| SampleClient.HandleAllAppend | tests/sample_python_client.py:124-192 | a stretch of messages the handler runs through passes its transcription on to the next stretch and clears nothing; once the handler has stopped, later events change nothing |
| SampleClient.OnlyRejectionClearsRunning | tests/sample_python_client.py:130-147 | the handler clears `running` only if a corruption rejection arrived |
| SampleClient.RejectionEndsHandling | tests/sample_python_client.py:130-147 | a rejection ends handling at once, with `running` cleared |
| SampleClient.WordMentionsConnection | tests/sample_python_client.py:230-231 | an error text containing "connection" or "closed" in any mix of capitals counts as a connection failure |
| SampleClient.Client.constructor | tests/sample_python_client.py:28-48 | a new client is idle, unconnected and has sent nothing |
| SampleClient.Client.HandleDataMessages | tests/sample_python_client.py:122-192 | the handler's outputs, transcription and `running` are those of `HandleAll` |
| SampleClient.Client.SendAudioChunk | tests/sample_python_client.py:194-231 | without a socket or with odd audio nothing changes; otherwise the chunk is counted, submitted only when a loop exists, and a closed connection or a connection-related error clears `running` |
| CorruptedDataTest.CorruptAudioShape | tests/test_corrupted_data.py:92-96 | the corrupted audio keeps the first 100 bytes and the tail after byte 110, with the 40 escaped bytes between them |
| CorruptedDataTest.CaseChunk | tests/test_corrupted_data.py:63-118 | a case's chunk exists exactly for whole-sample audio |
| CorruptedDataTest.CaseChunkFacts | tests/test_corrupted_data.py:68-118 | each case's metadata: checksum 12345678, length 9999, corrupted audio with the original checksum, or valid data |
| CorruptedDataTest.CaseAccepted | tests/test_corrupted_data.py:56-128 | each case's frame decodes to its chunk, and a verifying server accepts it exactly in the valid case, or when the wrong value happens to be right |
| CorruptedDataTest.CaseFrameRoundTrip | tests/test_corrupted_data.py:119-128 | each case's frame decodes to the case's metadata and payload |
| CorruptedDataTest.CaseConsistent | tests/test_corrupted_data.py:68-118 | a case's metadata matches its payload exactly in the valid case, or when the wrong value happens to be right |
| CorruptedDataTest.AllDelivered | tests/test_corrupted_data.py:156-166 | when every send succeeds, every frame is delivered in order |
| CorruptedDataTest.DeliveredFromSends | tests/test_corrupted_data.py:121-132 | every frame that went out is the built frame of an earlier send that was delivered |
| CorruptedDataTest.CaseRunOrder | tests/test_corrupted_data.py:156-166 | a run with every send delivered puts out four frames: the first accepted, the last rejected, the middle two rejected unless the wrong value is right |
| CorruptedDataTest.Client.constructor | tests/test_corrupted_data.py:16-28 | a new client has the given rate, no socket and nothing sent |
| CorruptedDataTest.Client.SendCorruptedChunk | tests/test_corrupted_data.py:56-132 | with a socket, the case's frame is sent and counted when it builds and the send succeeds; otherwise nothing changes |
| CorruptedDataTest.Client.RunCorruptionTests | tests/test_corrupted_data.py:146-185 | a connected run sends exactly the delivered case frames in order and counts them; an unconnected run sends nothing |
| RejectionSystemTest.CorruptChecksum | tests/test_rejection_system.py:94 | the corrupted checksum always differs from the real one, by 12345 modulo 2^32 |
| RejectionSystemTest.CorruptedMeta | tests/test_rejection_system.py:86-112 | corrupted metadata exists exactly for whole-sample audio and a known corruption type, and it never matches the audio |
| RejectionSystemTest.CorruptedFrameRejected | tests/test_rejection_system.py:81-119 | a verifying server rejects every corrupted frame |
| RejectionSystemTest.ValidFrame | tests/test_rejection_system.py:134-160 | a valid frame is accepted, and it builds for whole-sample audio with realistic numbers |
| RejectionSystemTest.Deliver | tests/test_rejection_system.py:58-79 | the handler never touches what was sent, never clears the rejection or closed flag, and does nothing once stopped |
| RejectionSystemTest.DeliverAppend | tests/test_rejection_system.py:58-79 | handling two batches in turn equals handling their concatenation |
| RejectionSystemTest.RejectedOnlyByRejection | tests/test_rejection_system.py:66-71 | the rejection flag is raised only if a corruption rejection arrived |
| RejectionSystemTest.RejectionRaisesFlag | tests/test_rejection_system.py:66-71 | a rejection that reaches a listening handler always raises the flag |
| RejectionSystemTest.SendFrame | tests/test_rejection_system.py:119-132 | a send succeeds exactly when the socket is open, the frame builds and the send is delivered; a closed send sets the closed flag |
| RejectionSystemTest.LoopFrames | tests/test_rejection_system.py:186-194 | one frame per round |
| RejectionSystemTest.LoopFramesRejected | tests/test_rejection_system.py:186-194 | no frame of the loop would be accepted |
| RejectionSystemTest.SendLoopFacts | tests/test_rejection_system.py:186-194 | the loop only appends frames, all rejected, counts each one, at most one per round, and does nothing once rejected or closed |
| RejectionSystemTest.RunWithFacts | tests/test_rejection_system.py:186-204 | the loop, the pause and the probe append only rejected frames, at most one per round plus the probe |
| RejectionSystemTest.ThresholdRunFacts | tests/test_rejection_system.py:183-215 | the whole threshold test sends only frames a verifying server rejects, at most max(threshold + 5, 0) + 1 of them: one per loop round plus the probe |
| RejectionSystemTest.Verdict | tests/test_rejection_system.py:222-227 | both branches pass exactly when at most `threshold + 1` chunks went out and the server rejected or closed |
| RejectionSystemTest.Client.constructor | tests/test_rejection_system.py:17-31 | a new client has the given rate, no socket, nothing sent and no flags |
| RejectionSystemTest.Client.HandleDataMessages | tests/test_rejection_system.py:58-79 | the handler's effect is `Deliver` with the keep-listening-after-rejection rule |
| RejectionSystemTest.Client.SendFrameOn | tests/test_rejection_system.py:119-132 | a send's effect and result are `SendFrame` |
| RejectionSystemTest.Client.SendCorruptedChunk | tests/test_rejection_system.py:81-132 | a corrupted send is `SendFrame` of the corrupted frame |
| RejectionSystemTest.Client.SendValidChunk | tests/test_rejection_system.py:134-171 | a valid send is `SendFrame` of the valid frame |
| RejectionSystemTest.Client.SendRounds | tests/test_rejection_system.py:186-194 | the send loop's effect is `SendLoop` |
| RejectionSystemTest.Client.TestRejectionThreshold | tests/test_rejection_system.py:173-232 | an unconnected test fails and changes nothing; a connected one ends in `ThresholdRun`, and the result is `Verdict` of the final counts |
| ClientRejectionTest.HandlingRunFacts | tests/test_client_rejection_handling.py:113-151 | the test sends only rejected frames, at most five, counts each, and does nothing once rejected or closed |
| ClientRejectionTest.Client.constructor | tests/test_client_rejection_handling.py:17-25 | a new client runs at 16 kHz with no socket, nothing sent and no flags |
| ClientRejectionTest.Client.HandleMessages | tests/test_client_rejection_handling.py:50-73 | the handler's effect is `Deliver` with the stop-on-rejection rule |
| ClientRejectionTest.Client.SendCorruptedChunk | tests/test_client_rejection_handling.py:75-111 | a send is `SendFrame` of the wrong-checksum frame |
| ClientRejectionTest.Client.SendRounds | tests/test_client_rejection_handling.py:128-136 | the send loop's effect is `SendLoop` with the stop-on-rejection rule |
| ClientRejectionTest.Client.TestRejectionHandling | tests/test_client_rejection_handling.py:113-168 | an unconnected test fails; a connected one ends in `HandlingRun`, and it succeeds exactly when a rejection or a close was seen |
| VerificationClientTest.React | tests/test_verification_client.py:69-97 | the handler raises exactly on a non-object or a non-string live text, prints the stripped live text exactly when it is not blank, and reports the final, recording and other kinds |
| VerificationClientTest.Listen | tests/test_verification_client.py:69-97 | the handler never touches the send counters, only appends lines, and does nothing once stopped |
| VerificationClientTest.ListenAppend | tests/test_verification_client.py:69-97 | handling two batches in turn equals handling their concatenation |
| VerificationClientTest.ListenDisplayable | tests/test_verification_client.py:76-79 | every live line printed is non-empty and has no whitespace at either end |
| VerificationClientTest.ChunkMeta | tests/test_verification_client.py:106-119 | with verification off the metadata is the sample rate alone; with it on, it exists exactly for whole-sample audio and matches the audio |
| VerificationClientTest.ChunkFrameDecodes | tests/test_verification_client.py:106-127 | a chunk's frame decodes to its metadata and audio, and a verifying server accepts it exactly when verification is on |
| VerificationClientTest.SendChunk | tests/test_verification_client.py:99-142 | without a socket nothing changes; a delivered frame is recorded and counted, with an error line when verification is off; any failure prints one error line |
| VerificationClientTest.RunFrames | tests/test_verification_client.py:161-170 | one frame per round |
| VerificationClientTest.StepFacts | tests/test_verification_client.py:161-170 | one round adds at most its own frame and one count, and an error line unless it was delivered with verification on |
| VerificationClientTest.SendLoopCounts | tests/test_verification_client.py:161-170 | the loop only appends frames, counts each, at most one per round, prints one error per round not delivered with verification on, and delivers every round whose frame builds and whose send succeeds |
| VerificationClientTest.SendLoopFrames | tests/test_verification_client.py:161-170 | every frame the loop delivers is the frame of one of its rounds |
| VerificationClientTest.TestRunFacts | tests/test_verification_client.py:144-186 | the whole run keeps those counts, and with verification on a verifying server accepts every frame it sent |
| VerificationClientTest.Client.constructor | tests/test_verification_client.py:17-35 | a new client runs at 16 kHz with the given verification setting, no socket and nothing sent |
| VerificationClientTest.Client.HandleDataMessages | tests/test_verification_client.py:69-97 | the handler's effect is `Listen` |
| VerificationClientTest.Client.SendAudioChunk | tests/test_verification_client.py:99-142 | a send's effect is `SendChunk` of the chunk's frame |
| VerificationClientTest.Client.RunTest | tests/test_verification_client.py:144-195 | an unconnected test fails and changes nothing; a connected one ends in `TestRun`, succeeds, and pauses once between consecutive chunks |

## Left out

- Websocket I/O, the asyncio event loop and the threads are not modelled as such. A send's outcome is a parameter. What a handler receives is a batch of events per pause. Coroutine interleaving beyond that batching is not modelled.
- The server is not part of this model. `Wire.PeerAccepts` states only the integrity check a verifying server applies: the declared sample count and checksum match the audio.
- PyAudio is reduced to inputs. Whether the device opens is a flag, and what a read returns is a `Capture` value: samples, a lost connection or another error. Stream parameters and overflow handling are left out.
- Keyboard input is reduced to inputs. pynput key events are `Key` values, and terminal input is a character sequence. The `termios`/`msvcrt` setup and the differences between the Windows and Unix loops (`example_app/client.py:288-297` against `313-322`) are not modelled; both read one character at a time with the same meaning.
- The clock is a parameter (milliseconds), one reading per frame. `time.sleep` and `asyncio.sleep` durations are returned as values (`PttClient.Client.Run` returns the waits) and not performed.
- The generated test audio (sine waves and random data) is a parameter `audio`. The properties hold for every buffer.
- Printing, emoji output, statistics (`start_time`, elapsed times, counts printed at the end) and the ping settings of `websockets.connect` are left out. The handler outputs that are printed are modelled as values (`Output`, `Reaction`, `Report`).
- The message handler of `tests/test_corrupted_data.py` only prints, so it is left out. `tests/test_performance_benchmark.py` and `tests/test_quick_performance.py` are not part of this model; they measure timing.
- `cleanup_audio`, `start_hotkeys`, the `main` functions and argument parsing are left out; they only set up or tear down resources.
- SampleClient.LowerAscii: lowercases ASCII letters only, whereas Python's `str.lower` also folds non-ASCII capitals. No non-ASCII character lowercases to a single letter of "connection" or "closed", so the check on error texts finds those two words alike either way.
- PttClient.Client.Run: the session itself is summarised by how it ended (normally or by a keyboard interrupt). The worker, receiver and key handlers inside a session are the separate methods above, not interleaved inside `Run`.
- Wire.EncodeFrameOutcome: states that frames always build only when the numbers have at most 20 digits. Beyond that, `MetadataTooLong` (a metadata length of 2^32 bytes or more) is possible in the model, as in `struct.pack`.
