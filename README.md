# cktap-protocol bridge, modelled in Dafny

This project models the C++ bridge between a Flutter app and the tap-protocol engine that
talks to Coinkite NFC cards (Satscard and Tapsigner). The engine runs a card command
synchronously, and each message to the card goes through a transport callback. The bridge runs
the engine on a background runner. The Flutter driver polls the thread state. Whenever a request
is staged, the driver takes it, sends it over NFC, writes the card's answer into a response
buffer and finalises the response.

The model covers three generations of this bridge:

- **The current bridge** (`src/cpp`), in these modules:
  - `Enums`: card types, slot status, the ordered thread states, interface error codes and
    protocol error codes.
  - `CardOperations`: operation codes and the result variant.
  - `Utils`: C-boundary helpers.
  - `TapCardVectors`: the owning-pointer registries, the `GetFromTapCard` lookup and the
    pointer casts.
  - `Globals`: the wrapper registries, with the `updateVectorWithCard` upsert and the
    `accessCard` callback runner.
  - `ProtocolThread`: the thread object, its runner and the transport wait loop.
  - `Exports`: the foreign-function entry points.
- **The earlier generation** (`src/Internal`, `src/Exports.cpp`), in the modules
  `LegacyUtils`, `LegacyThread` and `LegacyExports`. It has a single handshake job, no cancel
  flag, and a different classification of runner outcomes.
- **The first, flag-based prototype** (`src/exports/cktapcard.cpp`), in the module
  `Prototype`.

How things are modelled:

- **The runner.** Each thread object is a class with the source's fields. Its runner is a
  series of atomic steps: start, one call of the transport callback, completion with an
  outcome.
- **The wait loop.** It is a series of polls. Each poll carries the driver calls made during one
  sleep and whether the deadline had passed. The loop method is proved equal to a
  specification function (`ProtocolThread.Await`, `Prototype.WaitFor`), and the properties of
  the wait are lemmas about that function.
- **Globals and foreign functions.** Process-wide globals are explicit parameters. Engine calls
  and `std::async` launches are parameters saying how they turned out.

## Model

| member | source | states |
|---|---|---|
| Enums.ThreadStateGroups | src/cpp/enums.h:111-133 | the declaration order puts the fail states after `finished` (so "later than finished" is exactly the fail group), and puts the transport-loop states in one contiguous range |
| Enums.ProtoExceptionErrorCodeOf | src/cpp/enums.h:59-101 | a raw code maps to the named code carrying exactly that number, if there is one |
| Enums.ProtoExceptionCodeRoundTrip | src/cpp/enums.h:59-101 | every protocol error code survives the trip to its number and back (e.g. 401, 429, 628), so the numbering is injective |
| Engine.TypeOfCard | src/cpp/internal/tap_protocol_thread.cpp:270-272 | a constructed card reports tapsigner exactly when it is a Tapsigner, and never reports unknown |
| Engine.Resize | src/cpp/internal/tap_protocol_thread.cpp:247-254 | `vector::resize`: exactly n bytes, the old prefix kept, new bytes zero |
| CardOperations.OperationAt | src/cpp/internal/card_operation.h:15-22 | exactly the indices 0..5 name an operation, and the operation at index i has index i |
| CardOperations.OperationIndexRoundTrip | src/cpp/internal/card_operation.h:15-22 | every operation has an index below 6 and is found again from it |
| CardOperations.CardResponse.Operation | src/cpp/internal/card_operation.h:25-36 | the variant alternative at index i is the result of the operation with index i |
| CardOperations.DefaultResponse | src/cpp/internal/card_operation.h:25-32 | a default-constructed variant holds alternative 0, the `Wait` answer |
| CardOperations.GetAlternative | src/cpp/internal/card_operation.h:35-36 | reading an operation's alternative succeeds exactly when the variant holds that index |
| CardOperations.AlternativeBelongsToOneOperation | src/cpp/internal/card_operation.h:25-36 | a stored result is visible to exactly one operation, even though three alternatives share the slot type |
| CardOperations.DefaultResponseVisibility | src/cpp/internal/tap_protocol_thread.h:83 | on a default variant only `CKTapCard_Wait` reads a value, the default wait response |
| Utils.ToInt32 | src/cpp/exports.cpp:165-172 | the `int32_t` cast of a size: unchanged below 2^31, otherwise congruent modulo 2^32 |
| Utils.MakeTapCardType | src/cpp/internal/utils.cpp:134-143 | satscard and tapsigner are kept (both directions); every other integer becomes unknownCard |
| Utils.MakeTapCardTypeIdempotent | src/cpp/internal/utils.cpp:134-143 | normalising twice is normalising once, and every card type survives normalisation |
| Utils.MakeTapCardHandle | src/cpp/internal/utils.cpp:125-132 | the index is kept and the type normalised |
| Utils.MakeTapOperationResponse | src/cpp/internal/utils.cpp:145-152 | the response carries the given code and the handle of the given index and type (defaults -1 and unknownCard) |
| Utils.AllocateCStringFromCpp | src/cpp/internal/utils.cpp:38-45 | null for an empty string, otherwise an exact copy |
| Utils.AllocateCBinaryArrayFromJSON | src/cpp/internal/utils.cpp:12-27 | {null, 0} for empty input; otherwise the length is the input size cast to 32 bits, and the contents equal the input when the allocation succeeds |
| Utils.FreeCString | src/cpp/internal/utils.cpp:91-96 | the pointer ends null, and a second call changes nothing |
| Utils.FreeCBinaryArray | src/cpp/internal/utils.cpp:70-76 | the pointer ends null with length 0, and freeing an already-null array changes nothing |
| TapCardVectors.FirstWithIdent | src/cpp/internal/utils.h:94-99 | finds the first entry with the card's identity, and no earlier entry has it |
| TapCardVectors.UpsertIndex | src/cpp/internal/utils.h:89-106 | the reported index is that first match, or else the old length |
| TapCardVectors.UpsertedShape | src/cpp/internal/utils.h:89-106 | a replace keeps the length, an append grows it by one; the card sits at the reported index and every other entry is untouched |
| TapCardVectors.UpsertIdempotent | src/cpp/internal/utils.h:89-106 | upserting the same card twice equals upserting it once, at the same index |
| TapCardVectors.UpsertKeepsIdentsDistinct | src/cpp/internal/utils.h:89-106 | a registry whose cards have distinct identities keeps them distinct after an upsert |
| TapCardVectors.TapCardVector.UpdateVectorWithTapCard | src/cpp/internal/utils.h:89-106 | the loop returns invalidIndex for a null card and changes nothing; otherwise it returns the upsert index, leaves the vector upserted and empties the source pointer (the same code is at src/Internal/Utils.h:73-95) |
| TapCardVectors.ProcessCard | src/cpp/internal/utils.h:43-58 | out of range, null, or a card whose kind disagrees with the handle type gives the default; otherwise the getter's value |
| TapCardVectors.GetFromTapCard | src/cpp/internal/utils.h:40-79 | reads the registry the instantiation names; the generic instantiation dispatches on the normalised type, and an unknown type gives the default |
| TapCardVectors.UpsertThenGet | src/cpp/internal/utils.h:40-106 | a card upserted into its registry is read back through the reported index and its own type |
| TapCardVectors.DynamicPointerCast | src/cpp/internal/utils.h:109-117 | ownership moves only on a kind match, and on a mismatch the source is untouched (the same code is at src/Internal/Utils.h:97-108) |
| TapCardVectors.StaticPointerCast | src/cpp/internal/utils.h:120-128 | any object moves out and the source is emptied |
| TapCardVectors.DynamicCastRefinesStaticCast | src/cpp/internal/utils.h:109-128 | the checked cast hands out an object exactly when the kind matches, and then the same as the unchecked cast |
| Globals.UpsertedEntriesShape | src/cpp/internal/globals.h:87-113 | on cards the wrapper upsert is the owning-pointer upsert; the replaced wrapper loses its slot cache and all other wrappers are untouched |
| Globals.CardRegistry.UpdateVectorWithCard | src/cpp/internal/globals.h:87-113 | a null card gives invalidIndex with no change; otherwise the first wrapper with the same identity is replaced by a fresh wrapper, or one is appended, and its index is returned |
| Globals.CardRegistry.AccessCard | src/cpp/internal/globals.h:44-79 | out of range gives the registry's unknown-handle code and skips the callback; otherwise the callback's changes stay and its outcome becomes the status |
| Globals.StatusOf | src/cpp/internal/globals.h:59-73 | a returned code passes through; a protocol exception gives caughtTapProtocolException with the exception; anything else gives the unknown-error code |
| Globals.StoreSlot | src/cpp/exports.cpp:273-282 | the cache grows with empty entries to reach the slot's index, the slot is stored there, and nothing else changes |
| Globals.StoreSlotIdempotent | src/cpp/exports.cpp:273-282 | storing the same slot twice equals storing it once |
| ProtocolThread.Classify | src/cpp/internal/tap_protocol_thread.cpp:21-54 | every runner outcome maps to one terminal state and code: finished exactly with success, and each exception kind to its own fail state (iff per state) |
| ProtocolThread.HintAccepts | src/cpp/internal/tap_protocol_thread.cpp:113-123 | a produced card is kept exactly when the hint is unknownCard or matches the card's kind |
| ProtocolThread.UnnamedHintRejectsEveryCard | src/cpp/internal/tap_protocol_thread.cpp:116-118 | a hint outside {0, 1, 2} rejects every card, so such a handshake always fails |
| ProtocolThread.Effect | src/cpp/internal/tap_protocol_thread.cpp:247-263 | a finalised response is frozen, a cancel request only raises the flag, and a write before finalising replaces the buffer |
| ProtocolThread.ApplyAllReady | src/cpp/internal/tap_protocol_thread.cpp:247-263 | after a series of driver calls, a ready response stays ready; with no finalise it stays unready; and the cancel flag is set iff it was set before or a cancel was requested |
| ProtocolThread.ApplyAllResponse | src/cpp/internal/tap_protocol_thread.cpp:247-254 | the buffer after driver calls is the old one or the data of one of the writes |
| ProtocolThread.AwaitOutcomeAgreesWithView | src/cpp/internal/tap_protocol_thread.cpp:320-339 | the wait delivers only a finalised, uncancelled response; it raises only a cancelation or a timeout, never the transport-order exception |
| ProtocolThread.NoFinalizeNoResponse | src/cpp/internal/tap_protocol_thread.cpp:320-334 | without a finalise or a cancel from the driver, the wait ends in a timeout |
| ProtocolThread.CancelBeforeWaitWins | src/cpp/internal/tap_protocol_thread.cpp:322-323 | a cancel raised before the wait ends it as a cancelation, whatever the driver does |
| ProtocolThread.DeliveredBytesComeFromDriver | src/cpp/internal/tap_protocol_thread.cpp:320-339 | the delivered bytes are the buffer as it was or the data of one of the driver's writes |
| ProtocolThread.TapProtocolThread.constructor | src/cpp/internal/tap_protocol_thread.h:67-83 | the declared initial values: notStarted, no cancel, threadNotYetStarted, empty buffers, no cards, default variant |
| ProtocolThread.TapProtocolThread.HasFailed | src/cpp/internal/tap_protocol_thread.cpp:210-212 | "later than finished" is exactly the fail group |
| ProtocolThread.TapProtocolThread.IsThreadActive | src/cpp/internal/tap_protocol_thread.cpp:218-220 | active exactly in awaitingCardOperation and the runner states, i.e. strictly between notStarted and finished |
| ProtocolThread.TapProtocolThread.GetTapProtocolException | src/cpp/internal/tap_protocol_thread.cpp:230-237 | the stored exception, exactly in tapProtocolError |
| ProtocolThread.TapProtocolThread.GetTransportRequest | src/cpp/internal/tap_protocol_thread.cpp:239-245 | the staged request, exactly in transportRequestReady |
| ProtocolThread.TapProtocolThread.GetConstructedCardType | src/cpp/internal/tap_protocol_thread.cpp:265-275 | nothing while active; otherwise unknownCard without a card, else the card's type (iff per value) |
| ProtocolThread.TapProtocolThread.GetResponse | src/cpp/internal/tap_protocol_thread.h:86-96 | a value exactly when the thread is not active and the variant holds the operation's alternative |
| ProtocolThread.TapProtocolThread.LockCardForOperation | src/cpp/internal/tap_protocol_thread.cpp:295-301 | the Satscard reference wins over the Tapsigner one; nothing when neither is live |
| ProtocolThread.TapProtocolThread.Reset | src/cpp/internal/tap_protocol_thread.cpp:69-87 | while active: threadAlreadyInUse and no change; otherwise success and every field restored (recentError to pending) |
| ProtocolThread.TapProtocolThread.RequestCancel | src/cpp/internal/tap_protocol_thread.cpp:89-91 | raises the cancel flag and changes nothing else |
| ProtocolThread.TapProtocolThread.PrepareSatscardOperation | src/cpp/internal/tap_protocol_thread.cpp:93-100 | succeeds iff not active and the card is live; it then awaits a card operation on that card, and nothing else changes |
| ProtocolThread.TapProtocolThread.PrepareTapsignerOperation | src/cpp/internal/tap_protocol_thread.cpp:102-109 | as for the Satscard; an older Satscard reference is kept and still wins the lock |
| ProtocolThread.TapProtocolThread.StartAsyncCardOperation | src/cpp/internal/tap_protocol_thread.cpp:21-34 | enters asyncActionStarting and reports whether the runner launched; the future is the job's only when launched |
| ProtocolThread.TapProtocolThread.BeginCardHandshake | src/cpp/internal/tap_protocol_thread.cpp:111-127 | launches a handshake job with the given hint |
| ProtocolThread.TapProtocolThread.BeginCardOperation | src/cpp/internal/tap_protocol_thread.cpp:129-189 | fails with no change when no card can be locked; otherwise launches the command on the locked card |
| ProtocolThread.TapProtocolThread.CancelIfNecessary | src/cpp/internal/tap_protocol_thread.cpp:289-293 | raises a cancelation exactly when the flag is set |
| ProtocolThread.TapProtocolThread.PerformHandshakeStart | src/cpp/internal/tap_protocol_thread.cpp:303-304 | the handshake enters awaitingTransportRequest, then cancels if the flag is set |
| ProtocolThread.TapProtocolThread.SignalTransportRequestReady | src/cpp/internal/tap_protocol_thread.cpp:362-370 | stages the request exactly from awaitingTransportRequest; otherwise it throws and changes nothing |
| ProtocolThread.TapProtocolThread.AllocateTransportResponseBuffer | src/cpp/internal/tap_protocol_thread.cpp:247-254 | only in transportRequestReady, the buffer becomes exactly n bytes; otherwise no change |
| ProtocolThread.TapProtocolThread.FinalizeTransportResponse | src/cpp/internal/tap_protocol_thread.cpp:256-263 | only in transportRequestReady, the state becomes transportResponseReady; otherwise no change |
| ProtocolThread.TapProtocolThread.ApplyDriverAction | src/cpp/internal/tap_protocol_thread.cpp:247-263 | one driver call changes the observed view as `Effect` says |
| ProtocolThread.TapProtocolThread.ApplyDriverActions | src/cpp/internal/tap_protocol_thread.cpp:247-263 | a series of driver calls changes the view as `ApplyAll` says |
| ProtocolThread.TapProtocolThread.Transport | src/cpp/internal/tap_protocol_thread.cpp:305-340 | the callback re-enters awaiting from asyncActionStarting or processing, and gives empty bytes in other states; otherwise its result, buffer, flag and state are those of `Await` |
| ProtocolThread.TapProtocolThread.SetResponse | src/cpp/internal/tap_protocol_thread.h:98-102 | the variant now holds the operation's alternative with the given value |
| ProtocolThread.TapProtocolThread.CompleteJob | src/cpp/internal/tap_protocol_thread.cpp:21-54 | the state and the future's code are those of `Classify`; a protocol exception is kept |
| ProtocolThread.TapProtocolThread.FinishHandshake | src/cpp/internal/tap_protocol_thread.cpp:111-127 | an accepted card is kept and the thread finishes with success; otherwise it ends failed with failedToPerformHandshake |
| ProtocolThread.TapProtocolThread.FinishCardOperation | src/cpp/internal/tap_protocol_thread.cpp:129-189 | the command's answer is stored, the thread finishes with success, and `GetResponse` of that operation returns the answer |
| ProtocolThread.TapProtocolThread.AbortJob | src/cpp/internal/tap_protocol_thread.cpp:32-47 | a runner that threw ends in the state and code `Classify` gives the exception |
| ProtocolThread.TapProtocolThread.FinalizeOperation | src/cpp/internal/tap_protocol_thread.cpp:191-204 | succeeds iff finished or failed with a valid future; it then stores the runner's code and consumes the future, so a second call fails |
| ProtocolThread.TapProtocolThread.ReleaseConstructedSatscard | src/cpp/internal/tap_protocol_thread.cpp:277-281 | while active nothing is released; otherwise the constructed card moves out iff it is a Satscard |
| ProtocolThread.TapProtocolThread.ReleaseConstructedTapsigner | src/cpp/internal/tap_protocol_thread.cpp:283-287 | as above, for a Tapsigner |
| ProtocolThread.CreateNew | src/cpp/internal/tap_protocol_thread.cpp:57-67 | null iff allocation fails; otherwise a freshly reset object (recentError pending) |
| ProtocolThread.FreshlyResetReads | src/cpp/internal/tap_protocol_thread.cpp:69-87 | right after a reset only `CKTapCard_Wait` reads a value (the default answer); the card type is unknownCard and no request or exception is exposed |
| Exports.CoreInitializeLibrary | src/cpp/exports.cpp:18-27 | an existing thread is kept; otherwise a fresh one is created, or threadAllocationFailed |
| Exports.CoreNewOperation | src/cpp/exports.cpp:29-38 | libraryNotInitialized; threadAlreadyInUse with no change while active; otherwise the thread is reset |
| Exports.EndOperationGuard | src/cpp/exports.cpp:40-66 | the guards let through exactly a finished, finalised thread that holds a card; a card already moved out gives invalidCardDuringHandshake |
| Exports.CoreEndOperation | src/cpp/exports.cpp:40-86 | a refused call changes nothing; otherwise the card moves from the thread into its registry by upsert, and the response carries the recent code, the index and the type |
| Exports.CoreRequestCancelOperation | src/cpp/exports.cpp:88-95 | libraryNotInitialized, or success with the flag raised and the state, the rest of the thread, the staged request and the response buffer unchanged |
| Exports.CorePrepareCardOperation | src/cpp/exports.cpp:97-120 | guards in order (library, active, card type, handle range), each leaving the thread unchanged; on success the thread awaits an operation on that registry card, the other kind's reference, the future, the codes, the result, both buffers and the cancel flag stay, and for a Tapsigner an older Satscard reference still wins the lock |
| Exports.CoreBeginAsyncHandshake | src/cpp/exports.cpp:122-138 | only a thread not started since its reset can begin; a failed launch gives unknownErrorDuringHandshake and leaves the thread active with no runner; either way the card references, the result, the codes, both buffers and the cancel flag stay |
| Exports.FinalizeAsyncActionGuard | src/cpp/exports.cpp:140-149 | the guards let through exactly a finished or failed thread |
| Exports.CoreFinalizeAsyncAction | src/cpp/exports.cpp:140-154 | past the guards the runner's code is returned once and stored as the thread's recent error; a repeated call gives unableToFinalizeAsyncAction and changes nothing; the state, cards, result, buffers and cancel flag stay |
| Exports.CoreGetTransportRequestPointer | src/cpp/exports.cpp:156-163 | the staged request exactly when a thread's request is ready |
| Exports.CoreGetTransportRequestLength | src/cpp/exports.cpp:165-172 | its length cast to 32 bits, or 0 |
| Exports.CoreAllocateTransportResponseBuffer | src/cpp/exports.cpp:174-184 | a buffer iff thread, positive size and ready request; it is then the old buffer resized to exactly that length, and nothing else changes |
| Exports.CoreFinalizeTransportResponse | src/cpp/exports.cpp:186-197 | threadNotYetStarted, threadNotReadyForResponse with no change, or success with the response ready and everything else unchanged; finalisation failure cannot occur |
| Exports.CoreGetThreadState | src/cpp/exports.cpp:199-205 | notStarted without a thread, else its state |
| Exports.CoreGetTapProtoException | src/cpp/exports.cpp:207-216 | the stored exception exactly in tapProtocolError |
| Exports.CKTapCardBeginWait | src/cpp/exports.cpp:221-230 | threadNotAwaitingCardOperation unless awaiting a card operation; no lockable card is an invalid card operation with no change; otherwise a `Wait` runner on the locked card (Satscard first), with the card references, codes, result, buffers and cancel flag unchanged |
| Exports.CKTapCardGetWaitResponse | src/cpp/exports.cpp:232-248 | the stored answer, flattened, when readable; otherwise an error with zeroed fields |
| Exports.WaitAnswerReachesDriver | src/cpp/exports.cpp:232-248 | a stored `Wait` answer on an inactive thread is what the driver reads |
| Exports.SatscardGetActiveSlot | src/cpp/exports.cpp:269-284 | a known handle caches the active slot at its index (growing the cache); an unknown handle gives unknownSatscardHandle, a protocol exception caughtTapProtocolException with the exception, any other exception unknownErrorDuringTapProtocolFunction, each with no slot and the registry unchanged |
| Exports.SatscardSlotToWif | src/cpp/exports.cpp:286-298 | the registry is unchanged; the status distinguishes an unknown handle and an unknown slot; a cached slot's WIF is returned |
| Exports.ActiveSlotThenWif | src/cpp/exports.cpp:269-298 | a slot cached by getActiveSlot is found by slotToWif under its own index |
| LegacyUtils.IntToTapCardType | src/Internal/Utils.cpp:29-40 | Satscard and Tapsigner kept (iff), every other integer unknown |
| LegacyUtils.IntToTapCardTypeIdempotent | src/Internal/Utils.cpp:29-40 | idempotent, and equal to the current `makeTapCardType` |
| LegacyUtils.ConstructTapCardHandle | src/Internal/Utils.cpp:18-27 | index kept, type normalised; the same handle as the current generation builds |
| LegacyUtils.AllocateCStringFromCpp | src/Internal/Utils.cpp:12-16 | always a copy, even of the empty string |
| LegacyUtils.CStringGenerationsDifferOnlyOnEmpty | src/Internal/Utils.cpp:12-16 | the generations agree on non-empty strings and differ exactly on the empty one |
| LegacyUtils.GetFromTapCard | src/Internal/Utils.h:35-69 | an unknown type or an out-of-range index gives the default; the result equals the current generic `GetFromTapCard` |
| LegacyUtils.GetFromTapCardReadsMatchingCard | src/Internal/Utils.h:39-58 | any non-default value is the getter applied to a stored card of the handle's kind |
| LegacyThread.LegacyThreadStateOrdering | src/Enums.h:69-79 | distinct states have distinct values; the terminal states are exactly those from Finished on |
| LegacyThread.ClassifyInit | src/Internal/TapProtocolThread.cpp:28-50 | Finished iff success iff the card was produced; TapProtocolError and Timeout each iff their exception; an unclassified exception leaves the state alone; only the two classified exceptions clear the card |
| LegacyThread.IsTapsignerAsWritten | src/Internal/TapProtocolThread.cpp:187-195 | in a terminal state the card is read, and it is a null dereference exactly when there is no card |
| LegacyThread.AwaitWithoutCancel | src/Internal/TapProtocolThread.cpp:143-160 | with no cancel, the wait delivers the finalised response or raises a timeout |
| LegacyThread.LegacyTapProtocolThread.constructor | src/Internal/TapProtocolThread.h:48-57 | the members' initial values |
| LegacyThread.LegacyTapProtocolThread.HasStarted | src/Internal/TapProtocolThread.cpp:57-60 | state is not NotStarted |
| LegacyThread.LegacyTapProtocolThread.HasFailed | src/Internal/TapProtocolThread.cpp:62-65 | exactly Timeout or TapProtocolError |
| LegacyThread.LegacyTapProtocolThread.HasFinished | src/Internal/TapProtocolThread.cpp:67-70 | exactly Finished |
| LegacyThread.LegacyTapProtocolThread.IsTapCardSafeToAccess | src/Internal/TapProtocolThread.cpp:211-222 | exactly Finished, Timeout or TapProtocolError |
| LegacyThread.LegacyTapProtocolThread.GetTransportRequest | src/Internal/TapProtocolThread.cpp:82-90 | the staged request exactly in TransportRequestReady |
| LegacyThread.LegacyTapProtocolThread.AllocateTransportResponseBuffer | src/Internal/TapProtocolThread.cpp:92-101 | only in TransportRequestReady, the buffer becomes exactly n bytes; otherwise no change |
| LegacyThread.LegacyTapProtocolThread.FinalizeTransportResponse | src/Internal/TapProtocolThread.cpp:103-112 | only in TransportRequestReady, the state becomes TransportResponseReady; otherwise no change |
| LegacyThread.LegacyTapProtocolThread.FinalizeRecentOperation | src/Internal/TapProtocolThread.cpp:114-123 | iff finished or failed with a valid future, the runner's code is consumed into the recent error code |
| LegacyThread.LegacyTapProtocolThread.RunnerStart | src/Internal/TapProtocolThread.cpp:23-26 | AwaitingTransportRequest, error code 0, empty message, recent code ThreadNotYetStarted |
| LegacyThread.LegacyTapProtocolThread.SignalTransportRequestReady | src/Internal/TapProtocolThread.cpp:175-185 | stages the request exactly from AwaitingTransportRequest; otherwise throws, changing nothing |
| LegacyThread.LegacyTapProtocolThread.ApplyDriverAction | src/Internal/TapProtocolThread.cpp:92-112 | one driver call changes the view as `ProtocolThread.Effect` says |
| LegacyThread.LegacyTapProtocolThread.ApplyDriverActions | src/Internal/TapProtocolThread.cpp:92-112 | a series of driver calls changes the view as `ProtocolThread.ApplyAll` says |
| LegacyThread.LegacyTapProtocolThread.Transport | src/Internal/TapProtocolThread.cpp:127-161 | re-enters awaiting only from processing, gives empty bytes in other states; otherwise result and buffer are `Await`'s with no cancel: the response with state ProcessingTransportResponse, or a runtime_error |
| LegacyThread.LegacyTapProtocolThread.ResumeAfterIdentification | src/Internal/TapProtocolThread.cpp:163-164 | the thread awaits a request again before the conversion |
| LegacyThread.LegacyTapProtocolThread.RunnerFinish | src/Internal/TapProtocolThread.cpp:28-50 | state, code and card as `ClassifyInit` says; a protocol exception's code and message are stored |
| LegacyThread.LegacyTapProtocolThread.IsTapsigner | src/Internal/TapProtocolThread.cpp:187-195 | the kind of the produced card, exactly when the runner has ended and a card exists |
| LegacyThread.LegacyTapProtocolThread.ReleaseSatscard | src/Internal/TapProtocolThread.cpp:197-202 | once ended, the card moves out iff it is a Satscard; otherwise nothing changes |
| LegacyThread.LegacyTapProtocolThread.ReleaseTapsigner | src/Internal/TapProtocolThread.cpp:204-209 | once ended, the card moves out iff it is a Tapsigner; otherwise nothing changes |
| LegacyThread.CreateNew | src/Internal/TapProtocolThread.cpp:14-55 | never null (the plain `new` throws instead): a fresh thread whose runner is launched at once, seen before or after the runner's first step |
| LegacyThread.TimeoutThenIsTapsignerAsWritten | src/Internal/TapProtocolThread.cpp:41-46 | a runner that times out leaves a state in which `IsTapsigner` as written dereferences null |
| LegacyThread.IsTapsignerCorrected | src/Internal/TapProtocolThread.cpp:187-195 | the corrected read agrees with the original wherever the original reads a card, and gives nothing where it would dereference null |
| LegacyExports.GetThreadState | src/Exports.cpp:11-19 | NotStarted without a thread, else its state |
| LegacyExports.CreationVerdict | src/Exports.cpp:31-44 | the checks as written: ThreadAllocationFailed iff null (which creation never gives); ThreadFinishedBeforeInitialTransportRequest iff already Finished; success otherwise |
| LegacyExports.BeginInitialization | src/Exports.cpp:21-45 | an existing thread that is not Finished (including a failed one) is kept and refused with ThreadAlreadyInUse; an exception out of creation escapes with no code and keeps the old thread; otherwise the new thread replaces it and `CreationVerdict` reports success; ThreadAllocationFailed is never returned |
| LegacyExports.GetTransportRequestPointer | src/Exports.cpp:47-57 | the staged request exactly when a thread's request is ready |
| LegacyExports.GetTransportRequestLength | src/Exports.cpp:59-69 | 0 without a ready request; otherwise the length cast to 32 bits |
| LegacyExports.AllocateTransportResponseBuffer | src/Exports.cpp:71-84 | a buffer iff thread, positive size and ready request; it is then the old buffer resized to exactly that length, with the state, future, card, staged request and all codes and messages unchanged |
| LegacyExports.FinalizeTransportResponse | src/Exports.cpp:86-100 | ThreadNotYetStarted, ThreadNotReadyForResponse with no change, or success with the response ready and the buffers, future, card, codes and message unchanged; finalisation failure cannot occur |
| LegacyExports.CountBegins | src/Exports.cpp:21-45 | the number of `BeginInitialization` calls in a series: zero exactly when there is none, the whole length exactly when every call is one |
| LegacyExports.DriveEndedThread | src/Exports.cpp:21-27 | a thread that ended anywhere but Finished keeps its state under any series of driver calls, and every BeginInitialization in it is refused |
| Prototype.Effect | src/exports/cktapcard.cpp:74-94 | finalising raises the flag; a write replaces the buffer even after the flag is up |
| Prototype.ApplyAllFlag | src/exports/cktapcard.cpp:85-94 | the flag is up after host calls iff it was before or one of them finalised |
| Prototype.WaitEndsIffFinalized | src/exports/cktapcard.cpp:36-42 | the wait ends iff the host finalises during it; without that it waits for ever |
| Prototype.IdentifyLeavesFlagUp | src/exports/cktapcard.cpp:27-51 | after identification exchanges that all ended, the flag is up (exactly when there was one) and the buffer is what the last wait left |
| Prototype.PrototypeBridge.constructor | src/exports/cktapcard.cpp:12-15 | the globals' initial values |
| Prototype.PrototypeBridge.Construct | src/exports/cktapcard.cpp:20-72 | -1 and no change without a transmit function; otherwise the identification exchanges run through the transport and leave the flag and buffer as `Identify` says, blocking while a wait has not ended; then 2 for a Tapsigner, 1 for a Satscard, -1 when conversion gives nothing, and the matching global is overwritten even then |
| Prototype.PrototypeBridge.AllocateResponse | src/exports/cktapcard.cpp:74-83 | null for a negative size; otherwise exactly that many bytes, 0 allowed |
| Prototype.PrototypeBridge.FinalizeResponse | src/exports/cktapcard.cpp:85-94 | -1 and no change if already flagged; otherwise the flag is raised and 0 returned |
| Prototype.PrototypeBridge.ApplyHostAction | src/exports/cktapcard.cpp:74-94 | one host call changes the view as `Effect` says |
| Prototype.PrototypeBridge.ApplyHostActions | src/exports/cktapcard.cpp:74-94 | a series of host calls changes the view as `ApplyAll` says |
| Prototype.PrototypeBridge.Transmit | src/exports/cktapcard.cpp:27-51 | lowers the flag, then waits as `WaitFor` says; once the flag is up it returns the buffer, empty or not |

## Findings

| source | as written | input that shows it | evidently intended | confidence | as-written member | corrected member |
|---|---|---|---|---|---|---|
| src/Internal/TapProtocolThread.cpp:187-195 | `IsTapsigner` dereferences `m_card` whenever `IsTapCardSafeToAccess` holds, which includes `Timeout` and `TapProtocolError`; the runner clears the card in both (lines 35, 43) | a handshake whose wait times out: state Timeout, card null, then `IsTapsigner()` | give no value when there is no card, as the current bridge's `getConstructedCardType` does | high; not executed | LegacyThread.TimeoutThenIsTapsignerAsWritten | LegacyThread.LegacyTapProtocolThread.IsTapsigner |

## Where the code and its description differ, and other behaviour worth knowing

These follow the code:

- `getResponse` reads a result whenever the thread is not active, not only once it has finished.
  So after a failed command the previous command's result is still readable.
- `finalizeTransportResponse` does not require a preceding allocation. A finalise with no new
  write delivers whatever the buffer held before.
- A cancel request seen in the same poll in which the deadline passes, with no response, ends as
  a timeout. The cancel flag is checked only at the top of the next iteration, which never
  comes.
- `createNew` resets the new object, so `recentError` starts at pending and not at the declared
  threadNotYetStarted.

Other behaviour of the current bridge:

- **Failed launch.** When `std::async` cannot launch the runner,
  `Core_beginAsyncHandshake` reports unknownErrorDuringHandshake. The thread is left in
  asyncActionStarting with no runner, so it stays active: `reset` refuses it, and
  `finalizeOperation` cannot end it.
- **Branches that cannot be reached.** Assertions prove that these never happen:
  - `Core_endOperation`: the expected-Satscard and expected-Tapsigner-but-received-nothing
    branches;
  - `Core_finalizeTransportResponse`: threadResponseFinalizationFailed;
  - `Core_prepareCardOperation`: the expired-reference case, because the registry shares
    ownership.
- **Stale Satscard reference.** `prepareCardOperation` for a Tapsigner does not clear an older
  Satscard reference, and the lock prefers the Satscard.

The earlier generation:

- **Failed threads.** `CKTapCard_BeginInitialization` refuses every thread that is not
  Finished. That includes a thread in Timeout or TapProtocolError, and one whose runner threw
  an unclassified exception, which leaves the state where it was. Such a thread blocks every
  later handshake (`LegacyExports.DriveEndedThread`).
- **Out-of-order requests.** `SignalTransportRequestReady` throws a `std::runtime_error` on an
  out-of-order request. The runner would classify that as a Timeout, but the callback only
  calls it from AwaitingTransportRequest.
- **Creation never reports failure.** `CreateNew` uses a plain `new`, which throws rather
  than giving null, and a failed `std::async` throws too. So the null test in `CreateNew` always
  passes, and `CKTapCard_BeginInitialization` never returns ThreadAllocationFailed. An exception
  from creation leaves the export before the thread pointer is replaced.
- **Header out of sync.** src/Internal/TapProtocolThread.h does not declare `m_card` or
  `m_recentErrorCode`, which the .cpp uses. The model gives them the value-initialised values
  null and Success, because `new TapProtocolThread { }` value-initialises the object. The
  earlier `CKTapCardType` is not declared in the files modelled; its values are taken to be
  those of the current `CKTapCardType`.

The current `exports.cpp` calls `accessTapCard`, which the files modelled do not define. It is
modelled as `accessCard` of src/cpp/internal/globals.h, the function with the matching
signature. The registries of globals.h hold wrappers, while `GetFromTapCard` of utils.h reads
owning-pointer vectors. The model keeps both: `Globals.CardRegistry` and `TapCardVectors`,
related by `Globals.UpsertedEntriesShape`.

## Left out

- Real concurrency: `std::async`, `std::future`, atomics, sleeping and the wall clock. The
  runner is a series of atomic steps and the wait a series of polls, so interleavings inside a
  step are not modelled.
- The tap-protocol engine (`CKTapCard`, `Satscard`, `Tapsigner`, the transport, `Wait`,
  `GetSlot`, `ListSlots`, `New`, `Unseal`, `CertificateCheck`, `to_wif`). A card is an identity
  and a kind, and a command's result is a parameter. The arguments of the begin-operation entry
  points (CVC, slot, chain code, limit) only reach the engine, so they are left out.
- The exception-to-code macro of src/cpp/internal/macros.h is replaced by outcome datatypes.
- `malloc`, `strdup`, `free`, `memset` and raw pointers become sequences and options. Left out:
  `fillConstructorParams`, the `*_createConstructorParams` marshallers, and the `Utility_free*`
  wrappers, which only forward to the modelled `free*` helpers.
- The compile-time parity checks in the enum .cpp files.
- Process-wide globals: they are parameters (the thread pointer, the registries, the
  prototype's globals as the fields of one object).
- ProtocolThread.TapProtocolThread.FinalizeOperation: the path where `future.get` throws
  (failedToRetrieveValueFromFuture) is not modelled, because a runner's future only holds a
  returned code.
- Globals.CardRegistry.UpdateVectorWithCard: the `noexcept` catch that turns a failed
  allocation into invalidIndex is not modelled.
- ProtocolThread.TapProtocolThread.PrepareSatscardOperation: a weak reference that expires
  later is not modelled. A card is live exactly while its registry holds it.
- Exports.SatscardGetActiveSlot: a `std::bad_alloc` from growing the cache or from
  `make_unique` is not modelled. It would leave a grown cache, or filled response parameters,
  next to the unknown-error status. The modelled non-protocol failure is the engine call
  throwing before anything is stored.
- Exports.SatscardSlotToWif: an exception thrown by `to_wif` is not modelled. The export is a
  total function parameter.
- ProtocolThread.TapProtocolThread.FinishHandshake: the transient invalidCardProduced state is
  not kept, because the wrapper overwrites it with failed before anyone can observe it.
- Utils.ToInt32: the `int32_t` cast of sizes is modelled only as two's-complement wrap-around.
- LegacyThread.CreateNew: only the moments before and after the runner's first step are
  modelled as what `BeginInitialization` can observe. A `std::bad_alloc` or
  `std::system_error` thrown by creation is modelled only in `LegacyExports.BeginInitialization`,
  as a call that returns no code and keeps the old thread. What such an exception does when
  it crosses the C boundary is not modelled.
- Prototype.PrototypeBridge.Transmit: a wait that never ends is cut at the end of a finite
  schedule and reported as still waiting. The transmit function's own effect on the card is
  the host's business.
- Prototype.PrototypeBridge.Construct: how many exchanges the engine makes, and what it sends
  in them, are parameters, and so are the identified card and whether conversion gave an
  object. Exceptions thrown out of the constructor are not modelled.
- Declaration-only headers and packaging files.
