/// The FFI surface of the earlier bridge generation (src/Exports.cpp). The process-wide thread
/// pointer `g_protocolThread` is a parameter, `null` for an empty pointer; a call that replaces
/// it returns the new pointer.
module LegacyExports {
  import opened Wrappers
  import opened Engine
  import Utils
  import opened LegacyThread

  /// `CKTapCard_GetThreadState`: `NotStarted` without a thread, its state otherwise.
  function GetThreadState(t: LegacyTapProtocolThread?): (s: LegacyThreadState)
    reads t
    ensures t == null ==> s == NotStarted
    ensures t != null ==> s == t.state
  {
    if t == null then NotStarted else t.state
  }

  /// The checks `CKTapCard_BeginInitialization` makes on the thread it has just created
  /// (`None` where creation gave a null pointer, which the plain `new` of `CreateNew` never
  /// does). Whether the runner has started is not checked.
  function CreationVerdict(created: Option<LegacyThreadState>): (code: LegacyErrorCode)
    ensures code == ThreadAllocationFailed <==> created.None?
    ensures code == ThreadFinishedBeforeInitialTransportRequest <==> created == Some(Finished)
    ensures code == Success <==> created.Some? && created.value != Finished
  {
    if created.None? then ThreadAllocationFailed
    else if created.value == Finished then ThreadFinishedBeforeInitialTransportRequest
    else Success
  }

  /// `CKTapCard_BeginInitialization`: an existing thread that has not finished is kept and the
  /// call refused, whatever state it is in; that includes a thread that ended in `Timeout` or
  /// `TapProtocolError`, and one whose runner threw an unclassified exception. Otherwise a new
  /// thread is created. When creation throws (`std::bad_alloc` from `new`, `std::system_error`
  /// from `std::async`; `createThrows`) the exception leaves the export before the pointer is
  /// replaced: no code is returned (`None`) and the old thread stays. Otherwise the new thread
  /// replaces the old one and `CreationVerdict` judges it; since it is never null,
  /// `ThreadAllocationFailed` is never returned.
  method BeginInitialization(t: LegacyTapProtocolThread?, createThrows: bool, runnerStarted: bool)
    returns (code: Option<LegacyErrorCode>, t': LegacyTapProtocolThread?)
    ensures t != null && !t.HasFinished() ==> code == Some(ThreadAlreadyInUse) && t' == t
    ensures t != null && t.HasFailed() ==> code == Some(ThreadAlreadyInUse) && t' == t
    ensures (t == null || t.HasFinished()) && createThrows ==> code == None && t' == t
    ensures (t == null || t.HasFinished()) && !createThrows ==>
              && t' != null && fresh(t') && t'.Valid() && t'.future == Running && t'.card == None
              && code == Some(CreationVerdict(Some(t'.state)))
              && code == Some(Success)
    ensures code != Some(ThreadAllocationFailed)
  {
    if t != null && !t.HasFinished() {
      return Some(ThreadAlreadyInUse), t;
    }
    if createThrows {
      return None, t;
    }
    t' := CreateNew(runnerStarted);
    code := Some(CreationVerdict(Some(t'.state)));
  }

  /// `CKTapCard_GetTransportRequestPointer`: the staged request, or null without a thread or
  /// while no request is ready.
  function GetTransportRequestPointer(t: LegacyTapProtocolThread?): (r: Option<seq<Byte>>)
    reads t
    ensures r.Some? <==> t != null && t.state == TransportRequestReady
    ensures r.Some? ==> r.value == t.awaitingTransport
  {
    if t == null then None else t.GetTransportRequest()
  }

  /// `CKTapCard_GetTransportRequestLength`: the staged request's size cast to `int32_t`, or 0
  /// without a thread or while no request is ready.
  function GetTransportRequestLength(t: LegacyTapProtocolThread?): (n: Utils.Int32)
    reads t
    ensures GetTransportRequestPointer(t).None? ==> n == 0
    ensures GetTransportRequestPointer(t).Some? && |t.awaitingTransport| < 0x8000_0000 ==> n == |t.awaitingTransport|
  {
    var request := if t == null then None else t.GetTransportRequest();
    if request.Some? then Utils.ToInt32(|request.value|) else 0
  }

  /// `CKTapCard_AllocateTransportResponseBuffer`: a buffer only with a thread, a positive size
  /// and a ready request; the response then becomes exactly `size` bytes long.
  method AllocateTransportResponseBuffer(t: LegacyTapProtocolThread?, size: Utils.Int32) returns (granted: bool)
    modifies t
    ensures granted <==> t != null && size > 0 && old(t.state) == TransportRequestReady
    ensures granted ==> t.transportResponse == Resize(old(t.transportResponse), size)
    ensures granted ==> t.state == old(t.state) && t.future == old(t.future) && t.card == old(t.card)
    ensures granted ==> t.awaitingTransport == old(t.awaitingTransport) && t.recentErrorCode == old(t.recentErrorCode)
    ensures granted ==> t.tapProtocolErrorCode == old(t.tapProtocolErrorCode) && t.tapProtocolErrorMessage == old(t.tapProtocolErrorMessage)
    ensures t != null && !granted ==> unchanged(t)
  {
    if t == null {
      return false;
    }
    if size <= 0 {
      return false;
    }
    granted := t.AllocateTransportResponseBuffer(size);
  }

  /// `CKTapCard_FinalizeTransportResponse`: `ThreadNotYetStarted` without a thread,
  /// `ThreadNotReadyForResponse` unless a request is ready, and otherwise success with the
  /// response ready. The finalisation cannot fail once the state has been checked.
  method FinalizeTransportResponse(t: LegacyTapProtocolThread?) returns (code: LegacyErrorCode)
    requires t != null ==> t.Valid()
    modifies t
    ensures t == null ==> code == ThreadNotYetStarted
    ensures t != null ==> t.Valid()
    ensures t != null && old(t.state) != TransportRequestReady ==> code == ThreadNotReadyForResponse && unchanged(t)
    ensures t != null && old(t.state) == TransportRequestReady ==> code == Success && t.state == TransportResponseReady
    ensures t != null ==> t.transportResponse == old(t.transportResponse) && t.future == old(t.future) && t.card == old(t.card)
    ensures t != null ==> t.awaitingTransport == old(t.awaitingTransport) && t.recentErrorCode == old(t.recentErrorCode)
    ensures t != null ==> t.tapProtocolErrorCode == old(t.tapProtocolErrorCode) && t.tapProtocolErrorMessage == old(t.tapProtocolErrorMessage)
    ensures code != ThreadResponseFinalizationFailed
  {
    if t == null {
      return ThreadNotYetStarted;
    }
    if t.state != TransportRequestReady {
      return ThreadNotReadyForResponse;
    }
    var ok := t.FinalizeTransportResponse();
    assert ok;
    code := if ok then Success else ThreadResponseFinalizationFailed;
  }

  /// The driver calls of this generation that can reach a thread.
  datatype DriverCall =
    | CallBeginInitialization(createThrows: bool, runnerStarted: bool)
    | CallAllocateResponse(size: Utils.Int32)
    | CallFinalizeResponse
    | CallFinalizeRecentOperation
    | CallReleaseSatscard
    | CallReleaseTapsigner

  /// How many of `calls` are `BeginInitialization`.
  function CountBegins(calls: seq<DriverCall>): (n: nat)
    ensures n <= |calls|
    ensures n == 0 <==> forall k :: 0 <= k < |calls| ==> !calls[k].CallBeginInitialization?
    ensures n == |calls| <==> forall k :: 0 <= k < |calls| ==> calls[k].CallBeginInitialization?
  {
    if |calls| == 0 then 0
    else CountBegins(calls[..|calls| - 1]) + (if calls[|calls| - 1].CallBeginInitialization? then 1 else 0)
  }

  /// A thread whose runner has ended anywhere but in `Finished` (in `Timeout` or
  /// `TapProtocolError`, or wherever an unclassified exception left it outside the transport
  /// wait) keeps its state under every series of driver calls, and each `BeginInitialization`
  /// among them refuses and keeps the thread: the bridge cannot start another handshake.
  method DriveEndedThread(t: LegacyTapProtocolThread, calls: seq<DriverCall>) returns (begins: seq<LegacyErrorCode>)
    requires t.Valid() && t.future != Running
    requires t.state != Finished && t.state != TransportRequestReady
    modifies t
    ensures t.Valid() && t.state == old(t.state)
    ensures |begins| == CountBegins(calls)
    ensures forall k :: 0 <= k < |begins| ==> begins[k] == ThreadAlreadyInUse
  {
    begins := [];
    var i := 0;
    while i < |calls|
      invariant 0 <= i <= |calls|
      invariant t.Valid() && t.future != Running && t.state == old(t.state)
      invariant |begins| == CountBegins(calls[..i])
      invariant forall k :: 0 <= k < |begins| ==> begins[k] == ThreadAlreadyInUse
    {
      assert calls[..i + 1][..i] == calls[..i];
      match calls[i] {
        case CallBeginInitialization(createThrows, runnerStarted) =>
          var code, t' := BeginInitialization(t, createThrows, runnerStarted);
          begins := begins + [code.value];
        case CallAllocateResponse(size) =>
          var granted := AllocateTransportResponseBuffer(t, size);
        case CallFinalizeResponse =>
          var code := FinalizeTransportResponse(t);
        case CallFinalizeRecentOperation =>
          var ok := t.FinalizeRecentOperation();
        case CallReleaseSatscard =>
          var card := t.ReleaseSatscard();
        case CallReleaseTapsigner =>
          var card := t.ReleaseTapsigner();
      }
      i := i + 1;
    }
    assert calls[..|calls|] == calls;
  }
}
