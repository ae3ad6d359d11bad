/// The enumerations that cross the foreign-function boundary of the current bridge
/// (src/cpp/enums.h). Each constructor keeps the numeric value the C enum gives it, because the
/// driver on the other side of the boundary reads these values as plain integers.
module Enums {
  import opened Wrappers

  /// CKTapCardType.
  datatype CardType = UnknownCard | Satscard | Tapsigner {
    function Value(): int {
      match this
      case UnknownCard => 0
      case Satscard => 1
      case Tapsigner => 2
    }
  }

  /// CKTapSatscardSlotStatus.
  datatype SlotStatus = Unused | Sealed | Unsealed {
    function Value(): int {
      match this
      case Unused => 0
      case Sealed => 1
      case Unsealed => 2
    }
  }

  /// CKTapThreadState, in declaration order: the ready states, the transport loop, the success
  /// state and then the fail states. `hasFailed` relies on this order.
  datatype ThreadState =
    | NotStarted | AwaitingCardOperation | AsyncActionStarting
    | AwaitingTransportRequest | TransportRequestReady | TransportResponseReady | ProcessingTransportResponse
    | Finished
    | Canceled | Failed | InvalidCardProduced | TapProtocolError | Timeout | TransportException
  {
    function Ordinal(): nat {
      match this
      case NotStarted => 0
      case AwaitingCardOperation => 1
      case AsyncActionStarting => 2
      case AwaitingTransportRequest => 3
      case TransportRequestReady => 4
      case TransportResponseReady => 5
      case ProcessingTransportResponse => 6
      case Finished => 7
      case Canceled => 8
      case Failed => 9
      case InvalidCardProduced => 10
      case TapProtocolError => 11
      case Timeout => 12
      case TransportException => 13
    }

    /// The states the enum groups under "Fail states".
    predicate IsFailState() {
      this in {Canceled, Failed, InvalidCardProduced, TapProtocolError, Timeout, TransportException}
    }

    /// The states the enum groups under "Transport request loop".
    predicate IsTransportLoopState() {
      this in {AwaitingTransportRequest, TransportRequestReady, TransportResponseReady, ProcessingTransportResponse}
    }

    /// The states in which a launched runner may be: it starts in asyncActionStarting and then
    /// cycles through the transport loop until it reaches a terminal state.
    predicate IsRunnerState() {
      this == AsyncActionStarting || IsTransportLoopState()
    }
  }

  /// The declaration order groups the states: ready states, then the transport loop, then
  /// finished, then the fail states, so "later than finished" is exactly the fail group.
  lemma ThreadStateGroups(s: ThreadState)
    ensures s.Ordinal() > Finished.Ordinal() <==> s.IsFailState()
    ensures s.IsTransportLoopState() <==> AwaitingTransportRequest.Ordinal() <= s.Ordinal() <= ProcessingTransportResponse.Ordinal()
    ensures s.Ordinal() < AwaitingTransportRequest.Ordinal() <==> s in {NotStarted, AwaitingCardOperation, AsyncActionStarting}
  {
  }

  /// CKTapInterfaceErrorCode: pending is 0 and success is 1, the others follow alphabetically.
  datatype InterfaceErrorCode =
    | Pending
    | Success
    | AttemptToFinalizeActiveThread
    | BindingNotImplemented
    | CaughtTapProtocolException
    | ExpectedSatscardButReceivedNothing
    | ExpectedTapsignerButReceivedNothing
    | FailedToPerformHandshake
    | FailedToRetrieveValueFromFuture
    | InvalidCardDuringHandshake
    | InvalidCardOperation
    | InvalidHandlingOfCardDuringFinalization
    | InvalidResponseFromCardOperation
    | InvalidThreadStateDuringTransportSignaling
    | LibraryNotInitialized
    | OperationCanceled
    | OperationFailed
    | OperationStillInProgress
    | ThreadAlreadyInUse
    | ThreadAllocationFailed
    | ThreadNotAwaitingCardOperation
    | ThreadNotReadyForResponse
    | ThreadNotResetForHandshake
    | ThreadNotYetFinalized
    | ThreadNotYetStarted
    | ThreadResponseFinalizationFailed
    | TimeoutDuringTransport
    | UnableToFinalizeAsyncAction
    | UnexpectedExceptionWhenStartingCardOperation
    | UnexpectedExceptionWhenGettingCardOperationResult
    | UnexpectedStdException
    | UnknownErrorDuringAsyncOperation
    | UnknownErrorDuringHandshake
    | UnknownErrorDuringTapProtocolFunction
    | UnknownSatscardHandle
    | UnknownSlotForGivenSatscardHandle
    | UnknownTapsignerHandle
  {
    function Ordinal(): nat {
      match this
      case Pending => 0
      case Success => 1
      case AttemptToFinalizeActiveThread => 2
      case BindingNotImplemented => 3
      case CaughtTapProtocolException => 4
      case ExpectedSatscardButReceivedNothing => 5
      case ExpectedTapsignerButReceivedNothing => 6
      case FailedToPerformHandshake => 7
      case FailedToRetrieveValueFromFuture => 8
      case InvalidCardDuringHandshake => 9
      case InvalidCardOperation => 10
      case InvalidHandlingOfCardDuringFinalization => 11
      case InvalidResponseFromCardOperation => 12
      case InvalidThreadStateDuringTransportSignaling => 13
      case LibraryNotInitialized => 14
      case OperationCanceled => 15
      case OperationFailed => 16
      case OperationStillInProgress => 17
      case ThreadAlreadyInUse => 18
      case ThreadAllocationFailed => 19
      case ThreadNotAwaitingCardOperation => 20
      case ThreadNotReadyForResponse => 21
      case ThreadNotResetForHandshake => 22
      case ThreadNotYetFinalized => 23
      case ThreadNotYetStarted => 24
      case ThreadResponseFinalizationFailed => 25
      case TimeoutDuringTransport => 26
      case UnableToFinalizeAsyncAction => 27
      case UnexpectedExceptionWhenStartingCardOperation => 28
      case UnexpectedExceptionWhenGettingCardOperationResult => 29
      case UnexpectedStdException => 30
      case UnknownErrorDuringAsyncOperation => 31
      case UnknownErrorDuringHandshake => 32
      case UnknownErrorDuringTapProtocolFunction => 33
      case UnknownSatscardHandle => 34
      case UnknownSlotForGivenSatscardHandle => 35
      case UnknownTapsignerHandle => 36
    }
  }

  /// CKTapProtoExceptionErrorCode: the protocol engine's own numeric error codes, mirrored so
  /// that they cross the boundary unchanged.
  datatype ProtoExceptionErrorCode =
    | InvalidDevice | UnluckyNumber | BadArguments | BadAuth | NeedAuth | UnknowCommand
    | InvalidCommand | InvalidState | WeakNonce | BadCbor | BackupFirst | RateLimit
    | DefaultError | MessageTooLong | MissingKey | IsoSelectFail | SwFail | InvalidCvcLength
    | PickKeyPairFail | EcdhFail | XcvcFail | UnknowProtoVersion | InvalidPubkeyLength
    | NoPrivateKeyPicked | MalformedBip32Path | InvalidHashLength | SigVerifyError
    | InvalidDigestLength | InvalidPathLength | SerializeError | ExceededRetry | InvalidCard
    | SignError | SigToPubkeyFail | PsbtParseError | PsbtInvalid | InvalidAddressType
    | InvalidBackupKey | InvalidPubkey | InvalidPrivkey | InvalidSlot
  {
    function Code(): int {
      match this
      case InvalidDevice => 100
      case UnluckyNumber => 205
      case BadArguments => 400
      case BadAuth => 401
      case NeedAuth => 403
      case UnknowCommand => 404
      case InvalidCommand => 405
      case InvalidState => 406
      case WeakNonce => 417
      case BadCbor => 422
      case BackupFirst => 425
      case RateLimit => 429
      case DefaultError => 500
      case MessageTooLong => 601
      case MissingKey => 602
      case IsoSelectFail => 603
      case SwFail => 604
      case InvalidCvcLength => 605
      case PickKeyPairFail => 606
      case EcdhFail => 607
      case XcvcFail => 608
      case UnknowProtoVersion => 609
      case InvalidPubkeyLength => 610
      case NoPrivateKeyPicked => 611
      case MalformedBip32Path => 612
      case InvalidHashLength => 613
      case SigVerifyError => 614
      case InvalidDigestLength => 615
      case InvalidPathLength => 616
      case SerializeError => 617
      case ExceededRetry => 618
      case InvalidCard => 619
      case SignError => 620
      case SigToPubkeyFail => 621
      case PsbtParseError => 622
      case PsbtInvalid => 623
      case InvalidAddressType => 624
      case InvalidBackupKey => 625
      case InvalidPubkey => 626
      case InvalidPrivkey => 627
      case InvalidSlot => 628
    }
  }

  /// The named code a raw engine code stands for, if any.
  function ProtoExceptionErrorCodeOf(n: int): (r: Option<ProtoExceptionErrorCode>)
    ensures r.Some? ==> r.value.Code() == n
  {
    if n == 100 then Some(InvalidDevice)
    else if n == 205 then Some(UnluckyNumber)
    else if n == 400 then Some(BadArguments)
    else if n == 401 then Some(BadAuth)
    else if n == 403 then Some(NeedAuth)
    else if n == 404 then Some(UnknowCommand)
    else if n == 405 then Some(InvalidCommand)
    else if n == 406 then Some(InvalidState)
    else if n == 417 then Some(WeakNonce)
    else if n == 422 then Some(BadCbor)
    else if n == 425 then Some(BackupFirst)
    else if n == 429 then Some(RateLimit)
    else if n == 500 then Some(DefaultError)
    else if 601 <= n <= 628 then Some(CodeFrom601(n))
    else None
  }

  /// The codes 601 to 628 are consecutive.
  function CodeFrom601(n: int): (e: ProtoExceptionErrorCode)
    requires 601 <= n <= 628
    ensures e.Code() == n
  {
    var table := [
      MessageTooLong, MissingKey, IsoSelectFail, SwFail, InvalidCvcLength, PickKeyPairFail,
      EcdhFail, XcvcFail, UnknowProtoVersion, InvalidPubkeyLength, NoPrivateKeyPicked,
      MalformedBip32Path, InvalidHashLength, SigVerifyError, InvalidDigestLength,
      InvalidPathLength, SerializeError, ExceededRetry, InvalidCard, SignError, SigToPubkeyFail,
      PsbtParseError, PsbtInvalid, InvalidAddressType, InvalidBackupKey, InvalidPubkey,
      InvalidPrivkey, InvalidSlot];
    table[n - 601]
  }

  /// Every named code survives the trip to its number and back, so the mapping is injective.
  lemma ProtoExceptionCodeRoundTrip(e: ProtoExceptionErrorCode)
    ensures ProtoExceptionErrorCodeOf(e.Code()) == Some(e)
  {
  }
}
