/// The foreign-function entry points of the current bridge (src/cpp/exports.cpp). The
/// process-wide thread pointer and the two registries are parameters: `t` is the thread (null
/// before the library is initialised), `satscards` and `tapsigners` the registries. Each entry
/// point checks its guards in the source's order and then calls into the thread or a registry.
module Exports {
  import opened Wrappers
  import opened Enums
  import opened Engine
  import opened CardOperations
  import opened Utils
  import opened Globals
  import opened ProtocolThread
  import TapCardVectors

  /// `Core_initializeLibrary`: an existing thread is kept; otherwise one is created, and a
  /// failed creation is reported.
  method CoreInitializeLibrary(t: TapProtocolThread?, allocates: bool) returns (code: InterfaceErrorCode, thread: TapProtocolThread?)
    ensures t != null ==> thread == t && code == Success
    ensures t == null && allocates ==> thread != null && fresh(thread) && thread.Valid() && thread.IsFreshlyReset() && code == Success
    ensures t == null && !allocates ==> thread == null && code == ThreadAllocationFailed
  {
    if t != null {
      return Success, t;
    }
    thread := CreateNew(allocates);
    code := if thread == null then ThreadAllocationFailed else Success;
  }

  /// `Core_newOperation`: no library, or an active thread, refuses; otherwise the thread is
  /// reset.
  method CoreNewOperation(t: TapProtocolThread?) returns (code: InterfaceErrorCode)
    requires t != null ==> t.Valid()
    modifies t
    ensures t != null ==> t.Valid()
    ensures t == null ==> code == LibraryNotInitialized
    ensures t != null && old(t.IsThreadActive()) ==> code == ThreadAlreadyInUse && unchanged(t)
    ensures t != null && !old(t.IsThreadActive()) ==> code == Success && t.IsFreshlyReset()
  {
    if t == null {
      return LibraryNotInitialized;
    }
    if t.IsThreadActive() {
      return ThreadAlreadyInUse;
    }
    code := t.Reset();
  }

  /// The checks `Core_endOperation` makes before it touches a registry, in order: no library,
  /// not started, still active, not finalised, failed or no card type, and no card at all.
  /// They let through exactly a finished, finalised thread holding a card; a thread whose card
  /// was already stored is refused as having no valid card.
  function EndOperationGuard(t: TapProtocolThread?): (r: Option<InterfaceErrorCode>)
    reads t
    ensures r.None? <==> t != null && t.state == Finished && t.recentError != Pending && t.constructedCard.Some?
    ensures t != null && t.state == Finished && t.recentError != Pending && t.constructedCard.None? ==>
              r == Some(InvalidCardDuringHandshake)
    ensures r.Some? ==> r.value != Success
  {
    if t == null then Some(LibraryNotInitialized)
    else if !t.HasStarted() then Some(ThreadNotYetStarted)
    else if t.IsThreadActive() then Some(OperationStillInProgress)
    else if t.recentError == Pending then Some(ThreadNotYetFinalized)
    else if t.HasFailed() || t.GetConstructedCardType().None? then Some(OperationFailed)
    else if t.GetConstructedCardType() == Some(UnknownCard) then Some(InvalidCardDuringHandshake)
    else None
  }

  /// `Core_endOperation`: when a guard refuses, its code is returned with the default handle and
  /// nothing changes. Otherwise the constructed card moves out of the thread into the registry of
  /// its type by the identity upsert, and the response carries the thread's recent code, the
  /// upsert index cast to 32 bits and the card's type. The moved card is gone from the thread,
  /// so calling again is refused with invalidCardDuringHandshake.
  method CoreEndOperation(t: TapProtocolThread?, satscards: CardRegistry, tapsigners: CardRegistry) returns (r: OperationResponse)
    requires satscards != tapsigners
    requires t != null ==> t.Valid()
    modifies t, satscards, tapsigners
    ensures t != null ==> t.Valid()
    ensures old(EndOperationGuard(t)).Some? ==>
              r == MakeTapOperationResponse(old(EndOperationGuard(t)).value)
              && (t != null ==> unchanged(t)) && unchanged(satscards, tapsigners)
    ensures old(EndOperationGuard(t)).None? ==>
              var card := old(t.constructedCard).value;
              var before := if card.isTapsigner then old(tapsigners.entries) else old(satscards.entries);
              var after := if card.isTapsigner then tapsigners.entries else satscards.entries;
              var index := TapCardVectors.UpsertIndex(CardsOf(before), card);
              && after == UpsertedEntries(before, card)
              && (if card.isTapsigner then satscards.entries == old(satscards.entries) else tapsigners.entries == old(tapsigners.entries))
              && t.constructedCard == None && t.state == Finished
              && EndOperationGuard(t) == Some(InvalidCardDuringHandshake)
              && r == if index == TapCardVectors.InvalidIndex
                      then MakeTapOperationResponse(InvalidHandlingOfCardDuringFinalization)
                      else MakeTapOperationResponse(old(t.recentError), ToInt32(index), TypeOfCard(card))
  {
    var guard := EndOperationGuard(t);
    if guard.Some? {
      return MakeTapOperationResponse(guard.value);
    }
    var code := t.recentError;
    var cardType := t.GetConstructedCardType().value;
    var index: nat;
    if cardType == Tapsigner {
      var tapsigner := t.ReleaseConstructedTapsigner();
      // The type was read from the same card, so the checked cast always succeeds and the
      // source's expectedTapsignerButReceivedNothing branch cannot be taken.
      assert tapsigner.Some?;
      index := tapsigners.UpdateVectorWithCard(tapsigner);
    } else {
      var satscard := t.ReleaseConstructedSatscard();
      assert satscard.Some?;
      index := satscards.UpdateVectorWithCard(satscard);
    }
    if index == TapCardVectors.InvalidIndex {
      return MakeTapOperationResponse(InvalidHandlingOfCardDuringFinalization);
    }
    r := MakeTapOperationResponse(code, ToInt32(index), cardType);
  }

  /// `Core_requestCancelOperation`: raises the thread's cancel flag.
  method CoreRequestCancelOperation(t: TapProtocolThread?) returns (code: InterfaceErrorCode)
    modifies t
    ensures t == null ==> code == LibraryNotInitialized
    ensures t != null ==> code == Success && t.shouldCancel && t.state == old(t.state) && t.Context() == old(t.Context())
    ensures t != null ==> t.pendingTransportRequest == old(t.pendingTransportRequest) && t.transportResponse == old(t.transportResponse)
  {
    if t == null {
      return LibraryNotInitialized;
    }
    t.RequestCancel();
    code := Success;
  }

  /// `Core_prepareCardOperation`: no library or an active thread refuses; a card type other
  /// than Satscard or Tapsigner is an invalid operation; a handle outside the type's registry is
  /// unknown; otherwise the thread waits for an operation on that registry entry's card. The
  /// registry shares ownership of its cards, so the reference handed over never has expired.
  method CorePrepareCardOperation(t: TapProtocolThread?, handle: Int32, cardType: Int32,
                                  satscards: CardRegistry, tapsigners: CardRegistry) returns (code: InterfaceErrorCode)
    requires t != null ==> t.Valid()
    modifies t
    ensures t != null ==> t.Valid()
    ensures t == null ==> code == LibraryNotInitialized
    ensures t != null && old(t.IsThreadActive()) ==> code == ThreadAlreadyInUse
    ensures t != null && !old(t.IsThreadActive()) ==>
              && (cardType == Satscard.Value() && !(0 <= handle < |satscards.entries|) ==> code == UnknownSatscardHandle)
              && (cardType == Tapsigner.Value() && !(0 <= handle < |tapsigners.entries|) ==> code == UnknownTapsignerHandle)
              && (cardType != Satscard.Value() && cardType != Tapsigner.Value() ==> code == InvalidCardOperation)
              && (cardType == Satscard.Value() && 0 <= handle < |satscards.entries| ==>
                    code == Success && t.state == AwaitingCardOperation && t.satscard == Some(satscards.entries[handle].card))
              && (cardType == Tapsigner.Value() && 0 <= handle < |tapsigners.entries| ==>
                    code == Success && t.state == AwaitingCardOperation && t.tapsigner == Some(tapsigners.entries[handle].card))
    ensures t != null && code != Success ==> unchanged(t)
    ensures t != null && code == Success && cardType == Satscard.Value() ==> t.tapsigner == old(t.tapsigner)
    ensures t != null && code == Success && cardType == Tapsigner.Value() ==>
              t.satscard == old(t.satscard)
              && t.LockCardForOperation() == (if old(t.satscard).Some? then old(t.satscard) else t.tapsigner)
    ensures t != null && code == Success ==>
              && t.future == old(t.future) && t.recentError == old(t.recentError) && t.shouldCancel == old(t.shouldCancel)
              && t.constructedCard == old(t.constructedCard) && t.tapProtoException == old(t.tapProtoException)
              && t.cardOperationResponse == old(t.cardOperationResponse)
              && t.pendingTransportRequest == old(t.pendingTransportRequest) && t.transportResponse == old(t.transportResponse)
  {
    if t == null {
      return LibraryNotInitialized;
    } else if t.IsThreadActive() {
      return ThreadAlreadyInUse;
    }
    if cardType == Satscard.Value() {
      if handle < 0 || handle >= |satscards.entries| {
        return UnknownSatscardHandle;
      }
      var ok := t.PrepareSatscardOperation(Some(satscards.entries[handle].card));
      assert ok;
    } else if cardType == Tapsigner.Value() {
      if handle < 0 || handle >= |tapsigners.entries| {
        return UnknownTapsignerHandle;
      }
      var ok := t.PrepareTapsignerOperation(Some(tapsigners.entries[handle].card));
      assert ok;
    } else {
      return InvalidCardOperation;
    }
    code := Success;
  }

  /// `Core_beginAsyncHandshake`: a handshake needs a thread that has not started since its
  /// reset. When the runner cannot be launched the thread is left in asyncActionStarting with
  /// no runner, so `finalizeOperation` cannot diagnose anything, the code is
  /// unknownErrorDuringHandshake, and the thread stays active.
  method CoreBeginAsyncHandshake(t: TapProtocolThread?, cardType: Int32, launched: bool) returns (code: InterfaceErrorCode)
    requires t != null ==> t.Valid()
    modifies t
    ensures t != null ==> t.Valid()
    ensures t == null ==> code == LibraryNotInitialized
    ensures t != null && old(t.HasStarted()) ==> code == ThreadNotResetForHandshake && unchanged(t)
    ensures t != null && !old(t.HasStarted()) && launched ==>
              code == Success && t.state == AsyncActionStarting && t.future == Running(Handshake(cardType))
    ensures t != null && !old(t.HasStarted()) && !launched ==>
              code == UnknownErrorDuringHandshake && t.state == AsyncActionStarting
              && t.IsThreadActive() && t.future == old(t.future) && !t.future.Running?
    ensures t != null && !old(t.HasStarted()) ==>
              && t.shouldCancel == old(t.shouldCancel) && t.recentError == old(t.recentError)
              && t.tapProtoException == old(t.tapProtoException) && t.constructedCard == old(t.constructedCard)
              && t.satscard == old(t.satscard) && t.tapsigner == old(t.tapsigner)
              && t.cardOperationResponse == old(t.cardOperationResponse)
              && t.pendingTransportRequest == old(t.pendingTransportRequest) && t.transportResponse == old(t.transportResponse)
  {
    if t == null {
      return LibraryNotInitialized;
    }
    if t.HasStarted() {
      return ThreadNotResetForHandshake;
    }
    var ok := t.BeginCardHandshake(cardType, launched);
    if !ok {
      // The launch failed with the state at asyncActionStarting, which is neither finished nor
      // failed, so the diagnosis through finalizeOperation always refuses.
      var finalized := t.FinalizeOperation();
      assert !finalized;
      return UnknownErrorDuringHandshake;
    }
    code := Success;
  }

  /// The checks of `Core_finalizeAsyncAction`, in order: no library, not started, still
  /// active. They let through exactly a thread that has finished or failed.
  function FinalizeAsyncActionGuard(t: TapProtocolThread?): (r: Option<InterfaceErrorCode>)
    reads t
    ensures r.None? <==> t != null && (t.state == Finished || t.state.IsFailState())
    ensures r.Some? ==> r.value in {LibraryNotInitialized, ThreadNotYetStarted, AttemptToFinalizeActiveThread}
  {
    if t == null then Some(LibraryNotInitialized)
    else if !t.HasStarted() then Some(ThreadNotYetStarted)
    else if t.IsThreadActive() then Some(AttemptToFinalizeActiveThread)
    else None
  }

  /// `Core_finalizeAsyncAction`: past the guards, the runner's code is taken out of the future
  /// and returned; with the future already consumed (a repeated call) the code is
  /// unableToFinalizeAsyncAction.
  method CoreFinalizeAsyncAction(t: TapProtocolThread?) returns (code: InterfaceErrorCode)
    requires t != null ==> t.Valid()
    modifies t
    ensures t != null ==> t.Valid()
    ensures old(FinalizeAsyncActionGuard(t)).Some? ==> code == old(FinalizeAsyncActionGuard(t)).value && (t != null ==> unchanged(t))
    ensures old(FinalizeAsyncActionGuard(t)).None? ==>
              code == (if old(t.future).Ready? then old(t.future).code else UnableToFinalizeAsyncAction)
              && t.future == NoFuture && t.state == old(t.state)
              && (old(t.future).Ready? ==> t.recentError == code)
              && (!old(t.future).Ready? ==> unchanged(t))
              && t.shouldCancel == old(t.shouldCancel) && t.tapProtoException == old(t.tapProtoException)
              && t.constructedCard == old(t.constructedCard) && t.satscard == old(t.satscard) && t.tapsigner == old(t.tapsigner)
              && t.cardOperationResponse == old(t.cardOperationResponse)
              && t.pendingTransportRequest == old(t.pendingTransportRequest) && t.transportResponse == old(t.transportResponse)
  {
    var guard := FinalizeAsyncActionGuard(t);
    if guard.Some? {
      return guard.value;
    }
    var ok := t.FinalizeOperation();
    code := if ok then t.recentError else UnableToFinalizeAsyncAction;
  }

  /// `Core_getTransportRequestPointer`: the staged request, only with a thread whose request is
  /// ready.
  function CoreGetTransportRequestPointer(t: TapProtocolThread?): (r: Option<seq<Byte>>)
    reads t
    ensures r.Some? <==> t != null && t.state == TransportRequestReady
    ensures r.Some? ==> r.value == t.pendingTransportRequest
  {
    if t == null then None else t.GetTransportRequest()
  }

  /// `Core_getTransportRequestLength`: the staged request's length cast to 32 bits, 0 when no
  /// request is ready.
  function CoreGetTransportRequestLength(t: TapProtocolThread?): (r: Int32)
    reads t
    ensures !(t != null && t.state == TransportRequestReady) ==> r == 0
    ensures t != null && t.state == TransportRequestReady && |t.pendingTransportRequest| < 0x8000_0000 ==>
              r == |t.pendingTransportRequest|
  {
    if t == null then 0
    else match t.GetTransportRequest()
      case Some(bytes) => ToInt32(|bytes|)
      case None => 0
  }

  /// `Core_allocateTransportResponseBuffer`: a size that is not positive gets no buffer and
  /// changes nothing; otherwise the thread sizes its response buffer, which works only while a
  /// request is ready.
  method CoreAllocateTransportResponseBuffer(t: TapProtocolThread?, size: Int32) returns (ok: bool)
    modifies t
    ensures ok <==> t != null && size > 0 && old(t.state) == TransportRequestReady
    ensures ok ==> t.transportResponse == Resize(old(t.transportResponse), size) && t.state == old(t.state)
    ensures ok ==> t.Context() == old(t.Context()) && t.shouldCancel == old(t.shouldCancel)
                   && t.pendingTransportRequest == old(t.pendingTransportRequest)
    ensures !ok && t != null ==> unchanged(t)
  {
    if t == null || size <= 0 {
      return false;
    }
    ok := t.AllocateTransportResponseBuffer(size);
  }

  /// `Core_finalizeTransportResponse`: no thread reports threadNotYetStarted, a thread whose
  /// request is not ready reports threadNotReadyForResponse; otherwise the response becomes
  /// ready. (The source's threadResponseFinalizationFailed cannot occur: the state was just
  /// checked.)
  method CoreFinalizeTransportResponse(t: TapProtocolThread?) returns (code: InterfaceErrorCode)
    requires t != null ==> t.Valid()
    modifies t
    ensures t != null ==> t.Valid()
    ensures t == null ==> code == ThreadNotYetStarted
    ensures t != null && old(t.state) != TransportRequestReady ==> code == ThreadNotReadyForResponse && unchanged(t)
    ensures t != null && old(t.state) == TransportRequestReady ==>
              code == Success && t.state == TransportResponseReady && t.transportResponse == old(t.transportResponse)
              && t.Context() == old(t.Context()) && t.shouldCancel == old(t.shouldCancel)
              && t.pendingTransportRequest == old(t.pendingTransportRequest)
  {
    if t == null {
      return ThreadNotYetStarted;
    }
    if t.state != TransportRequestReady {
      return ThreadNotReadyForResponse;
    }
    var ok := t.FinalizeTransportResponse();
    assert ok;
    code := Success;
  }

  /// `Core_getThreadState`: notStarted without a thread.
  function CoreGetThreadState(t: TapProtocolThread?): (s: ThreadState)
    reads t
    ensures t == null ==> s == NotStarted
    ensures t != null ==> s == t.state
  {
    if t == null then NotStarted else t.state
  }

  /// `Core_getTapProtoException`: the stored exception only with a thread in the protocol-error
  /// state; nothing (a zeroed struct) otherwise.
  function CoreGetTapProtoException(t: TapProtocolThread?): (r: Option<TapProtoException>)
    reads t
    ensures r.Some? <==> t != null && t.state == TapProtocolError
    ensures r.Some? ==> r.value == t.tapProtoException
  {
    if t == null then None else t.GetTapProtocolException()
  }

  /// `CKTapCard_beginWait`: only a thread waiting for a card operation starts a `Wait`; when no
  /// card can be locked it is an invalid card operation.
  method CKTapCardBeginWait(t: TapProtocolThread?, launched: bool) returns (code: InterfaceErrorCode)
    requires t != null ==> t.Valid()
    modifies t
    ensures t != null ==> t.Valid()
    ensures t == null ==> code == LibraryNotInitialized
    ensures t != null && old(t.state) != AwaitingCardOperation ==> code == ThreadNotAwaitingCardOperation && unchanged(t)
    ensures t != null && old(t.state) == AwaitingCardOperation ==>
              && (old(t.LockCardForOperation()).None? ==> code == InvalidCardOperation && unchanged(t))
              && (old(t.LockCardForOperation()).Some? ==>
                    code == (if launched then Success else InvalidCardOperation)
                    && t.state == AsyncActionStarting
                    && t.future == (if launched then Running(CardJob(CKTapCardWait, old(t.LockCardForOperation()).value)) else old(t.future))
                    && t.shouldCancel == old(t.shouldCancel) && t.recentError == old(t.recentError)
                    && t.tapProtoException == old(t.tapProtoException) && t.constructedCard == old(t.constructedCard)
                    && t.satscard == old(t.satscard) && t.tapsigner == old(t.tapsigner)
                    && t.cardOperationResponse == old(t.cardOperationResponse)
                    && t.pendingTransportRequest == old(t.pendingTransportRequest) && t.transportResponse == old(t.transportResponse))
  {
    if t == null {
      return LibraryNotInitialized;
    } else if t.state != AwaitingCardOperation {
      return ThreadNotAwaitingCardOperation;
    }
    var ok := t.BeginCardOperation(CKTapCardWait, launched);
    code := if ok then Success else InvalidCardOperation;
  }

  /// WaitResponseParams.
  datatype WaitResponseParams = WaitResponseParams(errorCode: InterfaceErrorCode, success: int, authDelay: int)

  /// `CKTapCard_getWaitResponse`: the stored `Wait` answer, flattened, when the thread is not
  /// active and its result variant holds a `Wait` answer; otherwise an error with zeroed fields.
  function CKTapCardGetWaitResponse(t: TapProtocolThread?): (r: WaitResponseParams)
    reads t
    ensures t == null ==> r == WaitResponseParams(LibraryNotInitialized, 0, 0)
    ensures t != null && t.GetResponse(CKTapCardWait).Some? ==>
              var w := t.cardOperationResponse.wait;
              r == WaitResponseParams(Success, if w.success then 1 else 0, w.authDelay)
    ensures t != null && t.GetResponse(CKTapCardWait).None? ==>
              r == WaitResponseParams(InvalidResponseFromCardOperation, 0, 0)
  {
    if t == null then WaitResponseParams(LibraryNotInitialized, 0, 0)
    else
      var stored := t.GetResponse(CKTapCardWait);
      if stored.Some? then
        var w := stored.value.wait;
        WaitResponseParams(Success, if w.success then 1 else 0, w.authDelay)
      else WaitResponseParams(InvalidResponseFromCardOperation, 0, 0)
  }

  /// A finished `Wait` command is visible to the driver: once the runner has stored the answer
  /// and the thread has left the active states, `CKTapCard_getWaitResponse` reports it.
  lemma WaitAnswerReachesDriver(t: TapProtocolThread, w: WaitResponse)
    requires t.cardOperationResponse == WaitResult(w) && !t.IsThreadActive()
    ensures CKTapCardGetWaitResponse(t) == WaitResponseParams(Success, if w.success then 1 else 0, w.authDelay)
  {
  }

  /// What the engine did when asked for something: answered, threw a protocol exception, or
  /// threw anything else (a transport `runtime_error`, say).
  datatype Reply<T> = Answer(value: T) | ProtoFailure(e: TapProtoException) | OtherFailure

  /// SatscardSlotResponse: the status and, when the callback ran to its end, the slot.
  datatype SlotResponse = SlotResponse(status: InterfaceStatus, slot: Option<Slot>)

  /// The callback of `Satscard_getActiveSlot`: the active slot is cached in the wrapper at its
  /// own index, or the engine's exception propagates.
  function ActiveSlotCallback(reply: Reply<Slot>): CardWrapper -> CallbackOutcome {
    (w: CardWrapper) => match reply
         case Answer(slot) => Returned(Success, w.(slots := StoreSlot(w.slots, slot)))
         case ProtoFailure(e) => ThrewTapProto(e, w)
         case OtherFailure => ThrewOther(w)
  }

  /// `Satscard_getActiveSlot`: for a known Satscard handle the card's active slot is read and
  /// stored in the wrapper's slot cache at the slot's index, growing the cache as needed; an
  /// unknown handle or an engine exception becomes the status: a protocol exception is passed
  /// on, any other exception is an unknown error.
  method SatscardGetActiveSlot(satscards: CardRegistry, handle: Int32, reply: Reply<Slot>) returns (r: SlotResponse)
    requires satscards.holdsSatscards
    modifies satscards
    ensures !(0 <= handle < |old(satscards.entries)|) ==>
              r == SlotResponse(InterfaceStatus(UnknownSatscardHandle, None), None) && satscards.entries == old(satscards.entries)
    ensures 0 <= handle < |old(satscards.entries)| && reply.Answer? ==>
              var w := old(satscards.entries)[handle];
              r == SlotResponse(InterfaceStatus(Success, None), Some(reply.value))
              && satscards.entries == old(satscards.entries)[handle := w.(slots := StoreSlot(w.slots, reply.value))]
    ensures 0 <= handle < |old(satscards.entries)| && reply.ProtoFailure? ==>
              r == SlotResponse(InterfaceStatus(CaughtTapProtocolException, Some(reply.e)), None)
              && satscards.entries == old(satscards.entries)
    ensures 0 <= handle < |old(satscards.entries)| && reply.OtherFailure? ==>
              r == SlotResponse(InterfaceStatus(UnknownErrorDuringTapProtocolFunction, None), None)
              && satscards.entries == old(satscards.entries)
  {
    var known := 0 <= handle < |satscards.entries|;
    var status := satscards.AccessCard(handle, ActiveSlotCallback(reply));
    var slot := if known && reply.Answer? then Some(reply.value) else None;
    r := SlotResponse(status, slot);
  }

  /// SlotToWifResponse: the status and the WIF string.
  datatype SlotToWifResponse = SlotToWifResponse(status: InterfaceStatus, wif: Option<string>)

  /// The callback of `Satscard_slotToWif`: a slot index outside the cache, or a cache entry that
  /// was never filled, is an unknown slot; the wrapper is only read.
  function SlotToWifCallback(index: Int32): CardWrapper -> CallbackOutcome {
    (w: CardWrapper) => if index < 0 || index >= |w.slots| || w.slots[index].None?
         then Returned(UnknownSlotForGivenSatscardHandle, w)
         else Returned(Success, w)
  }

  /// `Satscard_slotToWif`: for a known Satscard handle and a slot cached by an earlier read, the
  /// slot's WIF export (computed by the engine, `toWif`) is copied out; otherwise the status says
  /// which lookup failed. The registry is not changed.
  method SatscardSlotToWif(satscards: CardRegistry, handle: Int32, index: Int32, toWif: Slot -> string) returns (r: SlotToWifResponse)
    requires satscards.holdsSatscards
    modifies satscards
    ensures satscards.entries == old(satscards.entries)
    ensures !(0 <= handle < |satscards.entries|) ==> r == SlotToWifResponse(InterfaceStatus(UnknownSatscardHandle, None), None)
    ensures 0 <= handle < |satscards.entries| ==>
              var slots := satscards.entries[handle].slots;
              if 0 <= index < |slots| && slots[index].Some?
              then r == SlotToWifResponse(InterfaceStatus(Success, None), AllocateCStringFromCpp(toWif(slots[index].value)))
              else r == SlotToWifResponse(InterfaceStatus(UnknownSlotForGivenSatscardHandle, None), None)
  {
    var status := satscards.AccessCard(handle, SlotToWifCallback(index));
    var wif := None;
    if 0 <= handle < |satscards.entries| {
      var slots := satscards.entries[handle].slots;
      if 0 <= index < |slots| && slots[index].Some? {
        wif := AllocateCStringFromCpp(toWif(slots[index].value));
      }
    }
    r := SlotToWifResponse(status, wif);
  }

  /// A slot stored by `Satscard_getActiveSlot` can then be exported by `Satscard_slotToWif`
  /// under the slot's own index: the cache lookup that `slotToWif` makes finds it.
  lemma ActiveSlotThenWif(w: CardWrapper, slot: Slot, toWif: Slot -> string)
    requires slot.index < 0x8000_0000
    ensures var w' := w.(slots := StoreSlot(w.slots, slot));
            SlotToWifCallback(slot.index)(w') == Returned(Success, w')
  {
  }
}
