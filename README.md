# granthai-vaani: a verified model of the receptionist and the live-audio relay

This project models two parts of granthai-vaani, a voice assistant for booking
hospital and diagnostic appointments.

**The scripted receptionist (t.py).** `HospitalReceptionistAgent` walks a patient
through a fixed dialogue:

- greeting;
- service selection (doctor or test);
- name and phone;
- choice of a doctor slot or a test;
- confirmation.

It reads from and books into a three-table SQLite store, `DatabaseManager`. The
model holds the tables as sequences of rows in a class (`HospitalDb`). SQLite's
`ORDER BY` under the BINARY collation is modelled as a sort whose result is
proved sorted and a permutation (`Ordering`).

One utterance is specified by the pure function `Receptionist.Step`. The agent
class keeps the conversation state in a field, and each `handle_*` method is
proved to do what `Step` says. Lemmas about `Step` state:

- which stage follows which;
- that the state is always consistent with its stage;
- that selection picks the first entry mentioned;
- that a confirmed doctor booking takes exactly that slot out of the listing.

Two properties are proved about the code as written:

- A test appointment can never be booked. The test flow never sets
  `selected_time`, and `appointment_time` is NOT NULL, so the INSERT always fails.
- The doctor reprompt's own example, "Dr. Smith at 9:00", does not select the
  09:00 slot.

Each comes with its corrected counterpart, listed under "## Findings": a
confirmation against a schema with a nullable `appointment_time` books the
test, and the example written "Dr. Smith at 09:00" selects the slot.

**The live-audio relay.** The production relay is `backend/server.py`; its two
variants are `backend/proof-of-concepts/gemini_audio.py` and
`backend/proof-of-concepts/google_realtime.py`. Each `AudioLoop` bridges a
client and a Gemini Live session through two queues:

- `out_queue`, bounded at five entries, carries the microphone audio (and, in
  the console variant, camera frames) to the session;
- `audio_in_queue`, unbounded, carries the model's speech back.

Each coroutine becomes one method of a class that performs one round or one
turn. The session and the browser are append-only logs. The proved invariant
says:

- the bound and FIFO order of `out_queue` hold;
- the session has been sent exactly the frames taken, in order;
- the total time slept equals the playback time of the speech forwarded.

Other lemmas cover the inbound `audio/pcm` filter, the answering of a tool call
(one response per call, in call order, in one batch), and the flush of unplayed
speech at the end of every turn. For the console variant they also cover the
keyboard rule ("q" quits; an empty line is sent as ".") and the camera loop
stopping at the first failed capture. The tool registry and the stripping of
`locations` from the fetched records are modelled in `Tools`.

What the session, the HTTP endpoints, the microphone, the camera and the
speech recogniser deliver are parameters of the methods: `delivered` flags,
`Endpoints`, message and capture sequences, and `heard` utterances.

## Model

| member | source | states |
|---|---|---|
| Tools.GetTool | backend/proof-of-concepts/tools.py:33-43 | A tool is found exactly for assistant "yoda_diagnostics" and one of its three names, and each name resolves to its own function. Any other pair is the KeyError, `None`. |
| Tools.RegistryMatchesDeclarations | backend/proof-of-concepts/tools.py:33-39 | The registry has one assistant. That assistant has exactly three entries, and their names are the function names declared in the tool configuration (prompts.py, lines 98-108). |
| Tools.WithoutLocations | backend/proof-of-concepts/tools.py:11 | `pop("locations", None)`: the key is gone afterwards. Every other key keeps its value, nothing is added, and a record without the key is left as it is. |
| Tools.Stripped | backend/proof-of-concepts/tools.py:9-13 | The stripping loop succeeds exactly when every element is an object. It then gives one record per input record, in input order, each without `locations`. |
| Tools.StripLocations | backend/proof-of-concepts/tools.py:9-13 | The loop that pops and appends record by record returns `Stripped` of its input. |
| Tools.BookingAlwaysSucceeds | backend/proof-of-concepts/tools.py:28-30 | `book_appointment` returns "Booking successful" for any arguments. |
| Tools.HealthPackagesStripped | backend/proof-of-concepts/tools.py:4-13 | For any response object with a `data` key holding a list of objects, whatever other top-level keys it has, the packages tool answers with those records in order, each stripped of `locations`. |
| Tools.TestDetailsStripped | backend/proof-of-concepts/tools.py:16-25 | The tests tool does the same over `data.docs`, for any response object whose `data` object has a `docs` key, whatever other keys either has. |
| Json.Elements | backend/server.py:95 | Iterating a list yields its items. Any other value that can be iterated yields only strings, so using an element as an object raises. |
| Relay.ChunkFramesAreAudio | backend/server.py:95-99 | Every frame a message enqueues is an `audio/pcm` frame carrying the `data` of one of its chunks, and there are at most as many frames as chunks. |
| Relay.ChunkFramesAppend | backend/server.py:95-99 | Chunks are handled in order: a prefix that does not raise contributes its frames first. |
| Relay.ChunkFramesStopAtRaise | backend/server.py:95-102 | A chunk that raises ends the message. The frames before it stay queued, and nothing after it is queued. |
| Relay.MalformedMessageEnqueuesNothing | backend/server.py:92-102 | A message that does not decode, or has no `realtime_input`, enqueues nothing. |
| Relay.ToolResponsesMatchCalls | backend/server.py:60-87 | A batch is sent exactly when every call succeeds. It then holds one response per call, in call order, each with the call's id and name, `{"result": resp}` and `will_continue=False`. Two notifications go to the browser per call when notifying, and none otherwise. |
| Relay.AnsweredIffAllSucceed | backend/server.py:71-72 | The batch is answered if and only if no lookup or call raises. |
| Relay.ResponsesInCallOrder | backend/server.py:80-86 | When every call succeeds, response k answers call k, and there are two notes per call when notifying. |
| Relay.SilentBatch | backend/proof-of-concepts/gemini_audio.py:117-130 | Answering without notifications tells the browser nothing. |
| Relay.UnknownToolLosesBatch | backend/server.py:71-72 | One call naming an unregistered tool makes the whole batch go unanswered. |
| ServerRelay.OneSecondOfSpeech | backend/server.py:173-181 | 48000 bytes of speech pause for exactly one second, an empty chunk for none, and no pause is negative. |
| ServerRelay.PlaybackDelayAdditive | backend/server.py:177-181 | The pause is additive over chunk lengths and grows with the chunk. |
| ServerRelay.HealthCheck | backend/server.py:212-218 | `/healthz` and `/health` are answered 200 with "OK\n". Every other path gets no answer, so the handshake proceeds. |
| ServerRelay.TurnFlushes | backend/server.py:126-151 | A turn that does not close the connection ends with the speech queue empty. A turn never touches the microphone queue, the sender or the pacing, and a closed connection stays closed. |
| ServerRelay.TurnClosesWithError | backend/server.py:183-203 | A turn closes the connection only after reporting `model_error` to the browser last. |
| ServerRelay.InterruptionOnlyLogged | backend/server.py:129-133 | The `interrupted` flag does not change what a message does. |
| ServerRelay.TextOnlyPrinted | backend/server.py:140-141 | The text of a message does not change what it does. |
| ServerRelay.AudioSkipsToolCall | backend/server.py:137-139 | A message with audio queues it and is not answered as a tool call, even when it carries one. |
| ServerRelay.ToolCallAnswered | backend/server.py:143-144 | A tool-call message either adds one batch (one response per call, in order) after two notes per call, or, if a call raises, sends no batch and closes the connection with `model_error`. |
| ServerRelay.SendFailureStopsSender | backend/server.py:109-122 | A failed send is reported once, stops the sender and undoes nothing already sent. |
| ServerRelay.PacingMatchesPlayback | backend/server.py:153-181 | After each forwarded chunk, the total time slept is the playback time of all speech forwarded. |
| ServerRelay.NotesAreNotAudio | backend/server.py:64-79 | Tool notifications never count as speech. |
| ServerRelay.OpenedInvariant | backend/server.py:190-193 | The freshly opened connection satisfies the invariant. |
| ServerRelay.SendRealtimeKeepsInvariant | backend/server.py:109-122 | Sending the head frame moves it from the queue to the frames taken, and keeps the invariant. |
| ServerRelay.ReceiveKeepsInvariant | backend/server.py:128-144 | Handling one message keeps the invariant. |
| ServerRelay.TurnKeepsInvariant | backend/server.py:126-151 | A whole turn keeps the invariant. |
| ServerRelay.SendToClientKeepsInvariant | backend/server.py:153-181 | Forwarding a chunk keeps the invariant. |
| ServerRelay.AudioLoop.constructor | backend/server.py:190-198 | `run` starts with empty queues and logs and all tasks running, within the invariant. |
| ServerRelay.AudioLoop.Put | backend/server.py:97-99 | `put` appends at the tail of the bounded queue and keeps the invariant. |
| ServerRelay.AudioLoop.ListenAudioFromWebsocket | backend/server.py:89-107 | One message appends exactly its inbound audio frames, in order, and keeps the invariant. |
| ServerRelay.AudioLoop.PutChunks | backend/server.py:95-99 | The chunk loop appends exactly the frames `ChunkFrames` gives. |
| ServerRelay.AudioLoop.SendRealtimeAudioToGemini | backend/server.py:109-122 | One round takes the head frame (FIFO) and either sends it or reports the failure and stops. It keeps the invariant. |
| ServerRelay.AudioLoop.AnswerCall | backend/server.py:63-79 | One call is announced, looked up and invoked, and its result announced. The value is the call's result, or `None` when it raised. |
| ServerRelay.AudioLoop.AnswerCalls | backend/server.py:61-86 | The loop returns the batch `RunTools` specifies and sends the browser exactly its notes. |
| ServerRelay.AudioLoop.HandleToolCall | backend/server.py:60-87 | The session gets one batch when every call succeeds and nothing otherwise, and the browser gets the notes. |
| ServerRelay.AudioLoop.ReceiveAudioFromGemini | backend/server.py:128-144 | One message changes the state as `Receive` says, keeping the invariant. |
| ServerRelay.AudioLoop.EndOfTurn | backend/server.py:150-151 | The drain loop empties the speech queue and changes nothing else. |
| ServerRelay.AudioLoop.ReceiveTurn | backend/server.py:126-151 | A turn changes the state as `Turn` says, keeping the invariant. |
| ServerRelay.AudioLoop.SendAudioToClient | backend/server.py:153-181 | The head chunk is forwarded (FIFO) and its playback time slept, keeping the invariant. |
| GeminiAudio.TurnFlushes | backend/proof-of-concepts/gemini_audio.py:177-195 | A turn that does not close the connection ends with the speech queue empty, and no turn sends anything to the browser. |
| GeminiAudio.AudioSkipsToolCall | backend/proof-of-concepts/gemini_audio.py:181-183 | A message with audio queues it and is never answered as a tool call. |
| GeminiAudio.ToolCallAnswered | backend/proof-of-concepts/gemini_audio.py:187-188 | A tool call adds one batch, one response per call in order, and says nothing to the browser. A call that raises sends nothing and ends the connection. |
| GeminiAudio.AudioLoop.constructor | backend/proof-of-concepts/gemini_audio.py:227-235 | `run` starts with empty queues and logs, within the invariant. |
| GeminiAudio.AudioLoop.Put | backend/proof-of-concepts/gemini_audio.py:158-160 | `put` appends at the tail of the bounded queue. |
| GeminiAudio.AudioLoop.ListenAudioFromWebsocket | backend/proof-of-concepts/gemini_audio.py:151-168 | One message appends exactly its inbound audio frames, in order. |
| GeminiAudio.AudioLoop.PutChunks | backend/proof-of-concepts/gemini_audio.py:156-160 | The chunk loop appends exactly the frames `ChunkFrames` gives. |
| GeminiAudio.AudioLoop.SendRealtimeAudioToGemini | backend/proof-of-concepts/gemini_audio.py:170-173 | One round takes the head frame and sends it. An unhandled failure ends the connection. |
| GeminiAudio.AudioLoop.AnswerCalls | backend/proof-of-concepts/gemini_audio.py:118-129 | The loop returns the batch `RunTools` specifies. |
| GeminiAudio.AudioLoop.HandleToolCall | backend/proof-of-concepts/gemini_audio.py:117-130 | One batch is sent when every call succeeds, and nothing otherwise. |
| GeminiAudio.AudioLoop.ReceiveAudioFromGemini | backend/proof-of-concepts/gemini_audio.py:180-188 | One message changes the state as `Receive` says. |
| GeminiAudio.AudioLoop.EndOfTurn | backend/proof-of-concepts/gemini_audio.py:194-195 | The drain loop empties the speech queue. |
| GeminiAudio.AudioLoop.ReceiveTurn | backend/proof-of-concepts/gemini_audio.py:177-195 | A turn changes the state as `Turn` says. |
| GeminiAudio.AudioLoop.SendAudioToClient | backend/proof-of-concepts/gemini_audio.py:205-215 | The head chunk is forwarded at once, with no pause. The browser only ever receives speech. |
| GoogleRealtime.TextToSend | backend/proof-of-concepts/google_realtime.py:176 | `text or "."`: what is sent is never empty, and a non-empty line is sent unchanged. |
| GoogleRealtime.TextTurnsShape | backend/proof-of-concepts/google_realtime.py:168-176 | Each line before a quit is sent as one turn ending the user's turn, in order, as typed or as ".". |
| GoogleRealtime.QuitsIff | backend/proof-of-concepts/google_realtime.py:174-175 | The program exits if and only if some line lower-cases to "q". Without one, every line is sent. |
| GoogleRealtime.QuitStopsSending | backend/proof-of-concepts/google_realtime.py:169-175 | The quitting line and everything typed after it are never sent. |
| GoogleRealtime.CameraStopsAtGap | backend/proof-of-concepts/google_realtime.py:206-213 | The first failed capture ends the camera loop. Earlier frames are put in order, and nothing is put for it or after it. |
| GoogleRealtime.SilentTurnQueuesNothing | backend/proof-of-concepts/google_realtime.py:273-278 | A turn of text-only messages queues no speech. |
| GoogleRealtime.TurnAudioCount | backend/proof-of-concepts/google_realtime.py:273-276 | A turn queues one chunk per message with audio. |
| GoogleRealtime.TextTurnsAreText | backend/proof-of-concepts/google_realtime.py:168-176 | Typing never sends media. |
| GoogleRealtime.AudioLoop.constructor | backend/proof-of-concepts/google_realtime.py:305-308 | `run` starts with empty queues, within the invariant. |
| GoogleRealtime.AudioLoop.Put | backend/proof-of-concepts/google_realtime.py:213 | `put` appends at the tail of the shared bounded queue. |
| GoogleRealtime.AudioLoop.SendText | backend/proof-of-concepts/google_realtime.py:168-176 | The session gets `TextTurns` of the lines typed. The program exits exactly when a line quits, and the media already sent stay as they were. |
| GoogleRealtime.AudioLoop.SendLines | backend/proof-of-concepts/google_realtime.py:169-176 | The `while True` loop of `send_text` sends `TextTurns` of its lines. |
| GoogleRealtime.AudioLoop.SendLine | backend/proof-of-concepts/google_realtime.py:174-176 | A line that lower-cases to "q" sends nothing. Any other line is sent as one turn. |
| GoogleRealtime.AudioLoop.GetFrames | backend/proof-of-concepts/google_realtime.py:199-216 | The frames up to the first failed capture are appended to the queue, in order. |
| GoogleRealtime.AudioLoop.ListenAudio | backend/proof-of-concepts/google_realtime.py:265-267 | A microphone chunk is appended to the same queue. |
| GoogleRealtime.AudioLoop.SendRealtime | backend/proof-of-concepts/google_realtime.py:245-248 | The oldest entry, audio or image, goes to the session (FIFO). The session's media stay exactly the entries taken. |
| GoogleRealtime.AudioLoop.ReceiveResponses | backend/proof-of-concepts/google_realtime.py:273-278 | The speech of a turn is queued in order, and nothing else is. |
| GoogleRealtime.AudioLoop.EndOfTurn | backend/proof-of-concepts/google_realtime.py:284-285 | The drain loop empties the speech queue. |
| GoogleRealtime.AudioLoop.ReceiveTurn | backend/proof-of-concepts/google_realtime.py:269-285 | The speech queue is empty after every turn. |
| GoogleRealtime.AudioLoop.PlayAudio | backend/proof-of-concepts/google_realtime.py:295-297 | The oldest chunk of speech is played. |
| Ordering.SortBy | t.py:106 | The result is ordered by the key columns under SQLite's BINARY collation and is a permutation of the rows. |
| HospitalDb.AvailableDoctors | t.py:102-120 | The doctor listing is ordered by (doctor_name, time_slot) and is a permutation of the projected rows whose status is 'available'. |
| HospitalDb.ListedIffAvailable | t.py:102-107 | An entry is listed if and only if some row with status 'available' projects to it. |
| HospitalDb.AvailableTests | t.py:127-138 | The test listing holds every test, ordered by test_name. |
| HospitalDb.MarkUnavailableListing | t.py:156-161 | Marking (name, slot) unavailable removes exactly its entries from the available rows and keeps the rest in order. |
| HospitalDb.BookInsertsOneRow | t.py:147-167 | A booking succeeds if and only if the NOT NULL columns are filled. It then inserts exactly one appointment row; a failed booking changes nothing, and the tests table never changes. |
| HospitalDb.BookMarksOnlyThatSlot | t.py:155-161 | A doctor booking marks every row with that doctor and slot unavailable and changes no other row. A booking of any other type leaves the doctors table untouched. |
| HospitalDb.BookedSlotLeavesListing | t.py:155-161 | After a successful doctor booking, the booked (doctor, slot) is no longer listed, and every other listed entry still is. |
| HospitalDb.BookTimeOptionalExtendsBook | t.py:56 | With `appointment_time` nullable, booking agrees with `book_appointment` whenever all three NOT NULL columns are filled. It also accepts a booking without a time, inserting its row and leaving the doctors and tests tables unchanged. |
| HospitalDb.DatabaseManager.constructor | t.py:17-19 | Opening the database runs `init_database` on the existing tables. |
| HospitalDb.DatabaseManager.InitDatabase | t.py:62-92 | An empty doctors or tests table receives the sample rows; other tables are kept. |
| HospitalDb.DatabaseManager.GetAvailableDoctors | t.py:97-120 | Returns the sorted listing of available slots. |
| HospitalDb.DatabaseManager.GetAvailableTests | t.py:122-138 | Returns the sorted listing of tests. |
| HospitalDb.DatabaseManager.BookAppointment | t.py:140-169 | Updates the tables and returns the flag exactly as `Book` specifies. |
| Receptionist.GroupedCharacterized | t.py:358-364 | The grouping has one group per listed doctor and no other. Each group holds all of that doctor's slots in listing order, with the specialization of the doctor's first row. |
| Receptionist.GroupByDoctor | t.py:358-364 | The grouping loop builds that grouping. |
| Receptionist.FirstDoctorMentioned | t.py:392-398 | The position is that of a mentioned entry with no mentioned entry before it, or the listing's length when none is mentioned. |
| Receptionist.FirstTestMentioned | t.py:414-417 | The same for tests. |
| Receptionist.FirstDoctorMentionedAt | t.py:392-398 | A position holding a mentioned entry (or the end) with no mentioned entry before it is the one the search finds, so the selected entry is unique. |
| Receptionist.FirstTestMentionedAt | t.py:414-417 | The same for tests. |
| Receptionist.SelectDoctor | t.py:389-398 | The search loop returns the name and slot of the first mentioned entry, or nothing. |
| Receptionist.SelectTest | t.py:413-417 | The search loop returns the first mentioned test, or nothing. |
| Receptionist.InitialStateConsistent | t.py:254-262 | The initial conversation state is consistent. |
| Receptionist.StepKeepsConsistent | t.py:300-317 | Every utterance keeps the state consistent: which fields are filled at which stage. |
| Receptionist.ServiceSelectionKeepsConsistent | t.py:323-333 | Service selection keeps the state consistent. |
| Receptionist.PatientInfoKeepsConsistent | t.py:335-351 | The patient-info stage keeps the state consistent. |
| Receptionist.DoctorSelectionKeepsConsistent | t.py:385-407 | Doctor selection keeps the state consistent. |
| Receptionist.TestSelectionKeepsConsistent | t.py:409-425 | Test selection keeps the state consistent. |
| Receptionist.ConfirmationKeepsConsistent | t.py:427-463 | Confirmation keeps the state consistent, including the reset after a booking. |
| Receptionist.UnknownStageRepeats | t.py:316-317 | An unknown stage asks the patient to repeat and changes nothing. |
| Receptionist.GreetingAdvances | t.py:319-321 | Whatever is said at the greeting moves the dialogue to service selection. |
| Receptionist.ServiceSelectionChoice | t.py:323-333 | A doctor keyword wins over a test keyword. Either one records the type and moves to patient_info; with neither, the state is kept. |
| Receptionist.PatientInfoAnswers | t.py:335-351 | The first answer is stored title-cased as the name. A later answer with at least ten digits is stored as the phone, and the stage follows the type; otherwise nothing changes. |
| Receptionist.DoctorSelectionPicksFirst | t.py:385-407 | The stage becomes confirmation if and only if there is a first mentioned listing entry with a non-empty name and slot, and then that entry is selected. |
| Receptionist.DoctorSelectionStepPicksFirst | t.py:389-403 | The same, for the normalised answer. |
| Receptionist.TestSelectionPicksFirst | t.py:409-425 | The stage becomes confirmation if and only if some listed test is mentioned, and then the first such test is selected. |
| Receptionist.TestSelectionStepPicksFirst | t.py:413-421 | The same, for the normalised answer. |
| Receptionist.DoctorConfirmationBooks | t.py:427-459 | Confirming a doctor appointment inserts its row, resets the whole state and removes exactly the booked slot from the listing. |
| Receptionist.TestConfirmationNeverBooks | t.py:427-463 | Confirming a test appointment always fails, because `selected_time` is unset and `appointment_time` is NOT NULL. The state and the tables stay unchanged. |
| Receptionist.TestConfirmationStuck | t.py:465-488 | Once a test appointment awaits confirmation, no sequence of utterances ever books it or leaves that state. |
| Receptionist.RepromptExampleDoesNotMatch | t.py:407 | The reprompt's example "Dr. Smith at 9:00" does not select Dr. Smith's 09:00 slot. |
| Receptionist.TestConfirmationBooksTimeOptional | t.py:427-459 | With that corrected schema, confirming a test appointment inserts one row for the selected test with no time, leaves the doctors and tests tables unchanged and resets the dialogue. |
| Receptionist.StepTimeOptionalAgrees | t.py:300-317 | The corrected dialogue does what `Step` does in every consistent state except a test appointment awaiting confirmation. |
| Receptionist.StepTimeOptionalKeepsConsistent | t.py:427-463 | The corrected dialogue keeps the state consistent. |
| Receptionist.RepromptExampleAsListedMatches | t.py:392-398 | The reprompt's example written as the listing writes the slot, "Dr. Smith at 09:00", mentions Dr. Smith's 09:00 entry. |
| Receptionist.HonorificMatchesEveryDoctor | t.py:392-395 | For names written "Dr. ...", any answer saying "dr." passes the name test for every doctor, so only the slot decides. |
| Receptionist.HospitalReceptionistAgent.constructor | t.py:248-262 | The agent starts in the initial state. |
| Receptionist.HospitalReceptionistAgent.ProcessUserInput | t.py:300-317 | The new state, the reply and the new tables are those `Step` gives. |
| Receptionist.HospitalReceptionistAgent.HandleGreeting | t.py:319-321 | As `GreetingStep`. |
| Receptionist.HospitalReceptionistAgent.HandleServiceSelection | t.py:323-333 | As `ServiceSelectionStep`. |
| Receptionist.HospitalReceptionistAgent.HandlePatientInfo | t.py:335-351 | As `PatientInfoStep`. |
| Receptionist.HospitalReceptionistAgent.ShowAvailableDoctors | t.py:353-371 | The reply is "no doctors" for an empty listing, and the listing grouped by doctor otherwise. |
| Receptionist.HospitalReceptionistAgent.ShowAvailableTests | t.py:373-383 | The reply is "no tests" for an empty listing, and the sorted tests otherwise. |
| Receptionist.HospitalReceptionistAgent.HandleDoctorSelection | t.py:385-407 | As `DoctorSelectionStep`. |
| Receptionist.HospitalReceptionistAgent.HandleTestSelection | t.py:409-425 | As `TestSelectionStep`. |
| Receptionist.HospitalReceptionistAgent.HandleConfirmation | t.py:427-463 | As `ConfirmationStep`, booking through the database. |
| Receptionist.HospitalReceptionistAgent.Run | t.py:465-488 | The final state, the tables and everything said are those of `Converse` over the utterances heard, after the opening line. |
| Receptionist.HospitalReceptionistAgent.Exchange | t.py:476-488 | One round: nothing heard asks for a repeat, a quit word ends with a farewell, and anything else is a `Step`. |

## Left out

- Vendor and network calls are inputs, never modelled. This covers the Live API session, the websocket server, the HTTP fetches of the tools, ElevenLabs text-to-speech, speech recognition and pygame playback.
- Concurrency is left out: the task groups, cancellation, `asyncio.to_thread` and the scheduling of the tasks. Each coroutine is one method performing one round, and the caller picks the order.
- A blocking `put` on the full `out_queue` is stated as the precondition that the queue has room. `ServerRelay.AudioLoop.ListenAudioFromWebsocket`, `ServerRelay.AudioLoop.PutChunks`, `GeminiAudio.AudioLoop.ListenAudioFromWebsocket`, `GeminiAudio.AudioLoop.PutChunks`, `GoogleRealtime.AudioLoop.GetFrames`, `GoogleRealtime.AudioLoop.ListenAudio` and the `Put` methods require room instead of waiting for the sender.
- ServerRelay.AudioLoop.SendAudioToClient: the sleep is an exact real rather than a float, and waiting on an empty queue is a precondition.
- `json.loads` and base64 are abstract. A message arrives decoded, or as `None` when decoding fails; speech is kept as bytes, and the JSON text of outgoing messages is not built.
- JSON numbers are integers, and object key order is not modelled.
- Strings are ASCII: lower-casing, title-casing, `isdigit`, `strip` and `split` ignore the rest of Unicode.
- Receptionist replies are constructors carrying the interpolated values; their wording and the `₹` price formatting are not modelled. Test prices are exact reals.
- SQLite is left out: tables are in-memory row sequences. `id`, `created_at` and the unused `duration_minutes` default are dropped, and rows whose sort keys tie keep table order, which SQLite does not promise.
- The receptionist's `__init__` receives its `DatabaseManager` rather than opening `hospital.db`.
- backend/tools.py, which backend/server.py imports, is not part of this model. The registry modelled is that of backend/proof-of-concepts/tools.py.
- The console variant's camera capture (`_get_frame`), the screen loop (`get_screen`, `_get_screen`), the one-second sleep between frames and the choice of `video_mode` are left out. Its microphone and speaker streams are left out too.
- The `usage_metadata` logging and the `print` calls are left out.
- The ExceptionGroup handling in `run` is reduced to its visible effect: the connection closes, and backend/server.py sends `model_error`.
- The Live session's messages keep only what the relays read: audio data, text, the tool call and the `interrupted` flag.
- prompts.py is used only for the three declared function names.

## Findings

| source | as written | input that shows it | evidently intended | confidence | as-written member | corrected member |
|---|---|---|---|---|---|---|
| t.py:56, t.py:420-421, t.py:430-437 | `appointment_time` is NOT NULL, but the test flow never sets `selected_time`, so every test booking's INSERT fails and the dialogue stays at confirmation. | Any test appointment: a patient who picks "Blood Test" and answers "yes". | A test appointment is booked without a time slot. | high; not executed | Receptionist.TestConfirmationNeverBooks | Receptionist.TestConfirmationBooksTimeOptional |
| t.py:395, t.py:407 | The reprompt suggests "Dr. Smith at 9:00", which contains neither "09:00" nor "0900", so it does not select Dr. Smith's 09:00 slot. | The answer "Dr. Smith at 9:00" with the seeded doctors. | The example spells the slot as the listing does, "Dr. Smith at 09:00". | high; not executed | Receptionist.RepromptExampleDoesNotMatch | Receptionist.RepromptExampleAsListedMatches |
