/// The protocol thread of the earlier bridge generation (src/Internal/TapProtocolThread.cpp).
///
/// This thread runs exactly one job, the card handshake, and starts it as soon as it is
/// created. Its wait loop has no cancel flag, and it classifies every `std::runtime_error`
/// (a timeout or an out-of-order transport request) as a timeout. As in `ProtocolThread`, the
/// runner is a series of atomic steps and the wait loop a series of polls; the driver calls and
/// the wait itself are those of `ProtocolThread`, with no cancel ever requested.
module LegacyThread {
  import opened Wrappers
  import opened Engine
  import PT = ProtocolThread
  import TapCardVectors

  /// CKTapThreadState of the earlier generation, in declaration order.
  datatype LegacyThreadState =
    | NotStarted | AwaitingTransportRequest | TransportRequestReady | TransportResponseReady
    | ProcessingTransportResponse | Finished | Timeout | TapProtocolError
  {
    /// The value the enum carries across the boundary.
    function Ordinal(): (n: nat)
      ensures n < 8
    {
      match this
      case NotStarted => 0
      case AwaitingTransportRequest => 1
      case TransportRequestReady => 2
      case TransportResponseReady => 3
      case ProcessingTransportResponse => 4
      case Finished => 5
      case Timeout => 6
      case TapProtocolError => 7
    }

    /// The states the runner leaves the thread in when it ends normally or with a classified
    /// exception.
    predicate IsTerminal() {
      this == Finished || this == Timeout || this == TapProtocolError
    }
  }

  /// Distinct states carry distinct values, and the terminal states are exactly those from
  /// `Finished` on.
  lemma LegacyThreadStateOrdering(s: LegacyThreadState, u: LegacyThreadState)
    ensures s.Ordinal() == u.Ordinal() ==> s == u
    ensures s.IsTerminal() <==> s.Ordinal() >= Finished.Ordinal()
  {
  }

  /// CKTapInterfaceErrorCode of the earlier generation, in declaration order.
  datatype LegacyErrorCode =
    | Success | ThreadAlreadyInUse | ThreadAllocationFailed | ThreadFailedtoStart
    | ThreadFinishedBeforeInitialTransportRequest | ThreadNotYetStarted | ThreadNotReadyForResponse
    | ThreadResponseFinalizationFailed | ThreadTimeoutDuringTransport
    | ThreadEncounterTapProtocolError | UnknownErrorDuringInitialization
  {
    function Ordinal(): (n: nat)
      ensures n < 11
    {
      match this
      case Success => 0
      case ThreadAlreadyInUse => 1
      case ThreadAllocationFailed => 2
      case ThreadFailedtoStart => 3
      case ThreadFinishedBeforeInitialTransportRequest => 4
      case ThreadNotYetStarted => 5
      case ThreadNotReadyForResponse => 6
      case ThreadResponseFinalizationFailed => 7
      case ThreadTimeoutDuringTransport => 8
      case ThreadEncounterTapProtocolError => 9
      case UnknownErrorDuringInitialization => 10
    }
  }

  /// The future of the runner: not valid, still running, or holding the runner's code until
  /// `get` consumes it.
  datatype LegacyFuture = NoFuture | Running | Ready(code: LegacyErrorCode)

  /// How `Initialize` ended: it produced the converted card, or it threw a protocol exception,
  /// a `std::runtime_error`, or anything else.
  datatype InitOutcome =
    | Initialized(card: Card)
    | ThrewTapProto(e: TapProtoException)
    | ThrewRuntimeError
    | ThrewOther

  /// The runner's catch ladder: the new state (`None` where the state is left as it was), the
  /// returned code, and whether the card is cleared. Only a normal end reaches `Finished`; each
  /// classified exception clears the card and has its own state and code; an unclassified
  /// exception touches neither the state nor the card.
  function ClassifyInit(o: InitOutcome): (r: (Option<LegacyThreadState>, LegacyErrorCode, bool))
    ensures r.0.Some? ==> r.0.value.IsTerminal()
    ensures r.0 == Some(Finished) <==> r.1 == Success
    ensures r.0 == Some(Finished) <==> o.Initialized?
    ensures r.0 == Some(TapProtocolError) <==> r.1 == ThreadEncounterTapProtocolError
    ensures r.0 == Some(TapProtocolError) <==> o.ThrewTapProto?
    ensures r.0 == Some(Timeout) <==> r.1 == ThreadTimeoutDuringTransport
    ensures r.0 == Some(Timeout) <==> o.ThrewRuntimeError?
    ensures r.0.None? <==> r.1 == UnknownErrorDuringInitialization
    ensures r.0.None? <==> o.ThrewOther?
    ensures r.2 <==> o.ThrewTapProto? || o.ThrewRuntimeError?
  {
    match o
    case Initialized(_) => (Some(Finished), Success, false)
    case ThrewTapProto(_) => (Some(TapProtocolError), ThreadEncounterTapProtocolError, true)
    case ThrewRuntimeError => (Some(Timeout), ThreadTimeoutDuringTransport, true)
    case ThrewOther => (None, UnknownErrorDuringInitialization, false)
  }

  /// What `IsTapsigner` can do: give no value, give the card's kind, or dereference a null card.
  datatype KindRead = NoValue | Kind(isTapsigner: bool) | NullDereference

  /// `IsTapsigner` as written: whenever the state says the card is safe to access it reads
  /// `m_card`, including in `Timeout` and `TapProtocolError`, where the runner has just cleared
  /// the card.
  function IsTapsignerAsWritten(state: LegacyThreadState, card: Option<Card>): (r: KindRead)
    ensures r == NullDereference <==> state.IsTerminal() && card.None?
    ensures r.Kind? ==> card.Some? && r.isTapsigner == card.value.isTapsigner
  {
    if state.IsTerminal() then
      if card.Some? then Kind(card.value.isTapsigner) else NullDereference
    else NoValue
  }

  /// The driver-side view of the earlier thread's response buffer: `ProtocolThread`'s view with
  /// the cancel flag always clear.
  predicate NoCancelRequests(polls: seq<PT.Poll>) {
    forall i, k :: 0 <= i < |polls| && 0 <= k < |polls[i].actions| ==> polls[i].actions[k] != PT.RequestCancel
  }

  /// Without cancel requests the wait never raises a cancelation: it delivers the finalised
  /// response or raises a timeout, and the cancel flag stays clear.
  lemma {:induction false} AwaitWithoutCancel(v: PT.DriverView, polls: seq<PT.Poll>)
    requires PT.EndsAtDeadline(polls) && NoCancelRequests(polls) && !v.cancel
    ensures var (w, r) := PT.Await(v, polls);
            && !w.cancel
            && (r.Raised? ==> r.t == PT.TimeoutThrown && !w.ready)
            && (r.Delivered? ==> w.ready && r.bytes == w.response)
    decreases |polls|
  {
    var w := PT.ApplyAll(v, polls[0].actions);
    PT.ApplyAllReady(v, polls[0].actions);
    if !w.ready && !polls[0].deadlinePassed {
      assert NoCancelRequests(polls[1..]) by {
        forall i, k | 0 <= i < |polls[1..]| && 0 <= k < |polls[1..][i].actions|
          ensures polls[1..][i].actions[k] != PT.RequestCancel
        {
          assert polls[1..][i] == polls[i + 1];
        }
      }
      AwaitWithoutCancel(w, polls[1..]);
    }
  }

  /// TapProtocolThread of the earlier generation. The card the handshake produced is
  /// `Option<Card>`, `None` for a null pointer.
  class LegacyTapProtocolThread {
    var future: LegacyFuture
    var state: LegacyThreadState
    var tapProtocolErrorCode: int
    var tapProtocolErrorMessage: string
    var recentErrorCode: LegacyErrorCode
    var awaitingTransport: seq<Byte>
    var transportResponse: seq<Byte>
    var card: Option<Card>

    /// A runner still at work has not yet reached a terminal state.
    ghost predicate Valid()
      reads this
    {
      future == Running ==> !state.IsTerminal()
    }

    /// What the wait loop observes, in `ProtocolThread`'s terms.
    function View(): (v: PT.DriverView)
      reads this
      ensures v.ready <==> state == TransportResponseReady
      ensures !v.cancel && v.response == transportResponse
    {
      PT.DriverView(state == TransportResponseReady, false, transportResponse)
    }

    /// `new TapProtocolThread { }`: the members' initialisers, with the recent error code
    /// value-initialised to `Success`.
    constructor()
      ensures future == NoFuture && state == NotStarted && recentErrorCode == Success
      ensures tapProtocolErrorCode == 0 && tapProtocolErrorMessage == []
      ensures awaitingTransport == [] && transportResponse == [] && card == None
      ensures Valid()
    {
      future := NoFuture;
      state := NotStarted;
      tapProtocolErrorCode := 0;
      tapProtocolErrorMessage := [];
      recentErrorCode := Success;
      awaitingTransport := [];
      transportResponse := [];
      card := None;
    }

    predicate HasStarted()
      reads this
      ensures HasStarted() <==> state != NotStarted
    {
      state != NotStarted
    }

    predicate HasFailed()
      reads this
      ensures HasFailed() <==> state == Timeout || state == TapProtocolError
      ensures HasFailed() ==> state.IsTerminal() && state != Finished
    {
      state == Timeout || state == TapProtocolError
    }

    predicate HasFinished()
      reads this
      ensures HasFinished() <==> state == Finished
    {
      state == Finished
    }

    /// `IsTapCardSafeToAccess`: the runner has reached a terminal state.
    predicate IsTapCardSafeToAccess()
      reads this
      ensures IsTapCardSafeToAccess() <==> HasFinished() || HasFailed()
    {
      match state
      case Finished => true
      case Timeout => true
      case TapProtocolError => true
      case _ => false
    }

    /// `GetTransportRequest`: the staged request, only while it is ready.
    function GetTransportRequest(): (r: Option<seq<Byte>>)
      reads this
      ensures r.Some? <==> state == TransportRequestReady
      ensures r.Some? ==> r.value == awaitingTransport
    {
      if state != TransportRequestReady then None else Some(awaitingTransport)
    }

    /// `AllocateTransportResponseBuffer`: only while the request is ready, the response buffer
    /// becomes exactly `n` bytes long, keeping its prefix.
    method AllocateTransportResponseBuffer(n: nat) returns (ok: bool)
      modifies this
      ensures ok <==> old(state) == TransportRequestReady
      ensures ok ==> transportResponse == Resize(old(transportResponse), n) && |transportResponse| == n
      ensures ok ==> state == old(state) && future == old(future) && card == old(card)
      ensures ok ==> awaitingTransport == old(awaitingTransport) && recentErrorCode == old(recentErrorCode)
      ensures ok ==> tapProtocolErrorCode == old(tapProtocolErrorCode) && tapProtocolErrorMessage == old(tapProtocolErrorMessage)
      ensures !ok ==> unchanged(this)
    {
      if state != TransportRequestReady {
        return false;
      }
      transportResponse := Resize(transportResponse, n);
      ok := true;
    }

    /// `FinalizeTransportResponse`: only while the request is ready, the response becomes ready.
    method FinalizeTransportResponse() returns (ok: bool)
      requires Valid()
      modifies this
      ensures Valid()
      ensures ok <==> old(state) == TransportRequestReady
      ensures ok ==> state == TransportResponseReady && future == old(future) && card == old(card)
      ensures ok ==> awaitingTransport == old(awaitingTransport) && transportResponse == old(transportResponse)
      ensures ok ==> recentErrorCode == old(recentErrorCode)
      ensures ok ==> tapProtocolErrorCode == old(tapProtocolErrorCode) && tapProtocolErrorMessage == old(tapProtocolErrorMessage)
      ensures !ok ==> unchanged(this)
    {
      if state != TransportRequestReady {
        return false;
      }
      state := TransportResponseReady;
      ok := state == TransportResponseReady;
    }

    /// `FinalizeRecentOperation`: once the runner has reached `Finished`, `Timeout` or
    /// `TapProtocolError` and its future is still valid, the runner's code is consumed into the
    /// recent error code. A second call finds the future consumed.
    method FinalizeRecentOperation() returns (ok: bool)
      requires Valid()
      modifies this
      ensures Valid()
      ensures ok <==> (old(HasFinished()) || old(HasFailed())) && old(future).Ready?
      ensures ok ==> recentErrorCode == old(future).code && future == NoFuture
      ensures ok ==> state == old(state) && card == old(card)
      ensures ok ==> awaitingTransport == old(awaitingTransport) && transportResponse == old(transportResponse)
      ensures ok ==> tapProtocolErrorCode == old(tapProtocolErrorCode) && tapProtocolErrorMessage == old(tapProtocolErrorMessage)
      ensures !ok ==> unchanged(this)
    {
      if (HasFinished() || HasFailed()) && future != NoFuture {
        // A running future cannot belong to a thread in a terminal state.
        assert future.Ready?;
        recentErrorCode := future.code;
        future := NoFuture;
        return true;
      }
      return false;
    }

    /// The first thing the runner does: it enters the transport exchange and clears the
    /// previous protocol error and recent error code.
    method RunnerStart()
      requires Valid() && future == Running
      modifies this
      ensures Valid()
      ensures state == AwaitingTransportRequest && tapProtocolErrorCode == 0 && tapProtocolErrorMessage == []
      ensures recentErrorCode == ThreadNotYetStarted
      ensures future == old(future) && card == old(card)
      ensures awaitingTransport == old(awaitingTransport) && transportResponse == old(transportResponse)
    {
      state := AwaitingTransportRequest;
      tapProtocolErrorCode := 0;
      tapProtocolErrorMessage := [];
      recentErrorCode := ThreadNotYetStarted;
    }

    /// `SignalTransportRequestReady`: a request is staged only while awaiting one; otherwise
    /// the method throws a `std::runtime_error` and changes nothing.
    method SignalTransportRequestReady(bytes: seq<Byte>) returns (ok: bool)
      requires Valid() && future == Running
      modifies this
      ensures Valid()
      ensures ok <==> old(state) == AwaitingTransportRequest
      ensures ok ==> awaitingTransport == bytes && state == TransportRequestReady
      ensures ok ==> future == old(future) && card == old(card) && transportResponse == old(transportResponse)
      ensures ok ==> recentErrorCode == old(recentErrorCode)
      ensures ok ==> tapProtocolErrorCode == old(tapProtocolErrorCode) && tapProtocolErrorMessage == old(tapProtocolErrorMessage)
      ensures !ok ==> unchanged(this)
    {
      if state != AwaitingTransportRequest {
        return false;
      }
      awaitingTransport := bytes;
      state := TransportRequestReady;
      ok := true;
    }

    /// One driver call made while the runner waits; the earlier driver has no cancel request.
    method ApplyDriverAction(a: PT.DriverAction)
      requires Valid() && a != PT.RequestCancel
      requires state == TransportRequestReady || state == TransportResponseReady
      modifies this
      ensures Valid() && (state == TransportRequestReady || state == TransportResponseReady)
      ensures View() == PT.Effect(old(View()), a)
      ensures future == old(future) && card == old(card) && awaitingTransport == old(awaitingTransport)
      ensures recentErrorCode == old(recentErrorCode)
      ensures tapProtocolErrorCode == old(tapProtocolErrorCode) && tapProtocolErrorMessage == old(tapProtocolErrorMessage)
    {
      match a
      case Supply(data) =>
        var ok := AllocateTransportResponseBuffer(|data|);
        if ok {
          transportResponse := data;
        }
      case Finalize =>
        var ok := FinalizeTransportResponse();
    }

    /// The driver calls made during one sleep of the wait loop, in order.
    method ApplyDriverActions(actions: seq<PT.DriverAction>)
      requires Valid() && (state == TransportRequestReady || state == TransportResponseReady)
      requires forall k :: 0 <= k < |actions| ==> actions[k] != PT.RequestCancel
      modifies this
      ensures Valid() && (state == TransportRequestReady || state == TransportResponseReady)
      ensures View() == PT.ApplyAll(old(View()), actions)
      ensures future == old(future) && card == old(card) && awaitingTransport == old(awaitingTransport)
      ensures recentErrorCode == old(recentErrorCode)
      ensures tapProtocolErrorCode == old(tapProtocolErrorCode) && tapProtocolErrorMessage == old(tapProtocolErrorMessage)
    {
      var i := 0;
      while i < |actions|
        invariant 0 <= i <= |actions|
        invariant Valid() && (state == TransportRequestReady || state == TransportResponseReady)
        invariant PT.ApplyAll(View(), actions[i..]) == PT.ApplyAll(old(View()), actions)
        invariant future == old(future) && card == old(card) && awaitingTransport == old(awaitingTransport)
        invariant recentErrorCode == old(recentErrorCode)
        invariant tapProtocolErrorCode == old(tapProtocolErrorCode) && tapProtocolErrorMessage == old(tapProtocolErrorMessage)
      {
        ApplyDriverAction(actions[i]);
        assert actions[i..][1..] == actions[i + 1..];
        i := i + 1;
      }
    }

    /// The transport callback `Initialize` installs in the engine. From
    /// `ProcessingTransportResponse` (a further message) it first returns to awaiting a request;
    /// in any other state but that one it hands the engine empty bytes and changes nothing.
    /// Otherwise the request is staged and the wait runs as `ProtocolThread.Await` describes
    /// with the cancel flag clear: the engine gets the finalised response and the state
    /// becomes `ProcessingTransportResponse`, or the deadline passes and the callback throws a
    /// `std::runtime_error`.
    method Transport(bytes: seq<Byte>, polls: seq<PT.Poll>) returns (r: PT.TransportResult)
      requires Valid() && future == Running
      requires PT.EndsAtDeadline(polls) && NoCancelRequests(polls)
      modifies this
      ensures Valid() && future == old(future) && card == old(card) && recentErrorCode == old(recentErrorCode)
      ensures tapProtocolErrorCode == old(tapProtocolErrorCode) && tapProtocolErrorMessage == old(tapProtocolErrorMessage)
      ensures old(state) != AwaitingTransportRequest && old(state) != ProcessingTransportResponse ==>
                r == PT.Delivered([]) && unchanged(this)
      ensures old(state) == AwaitingTransportRequest || old(state) == ProcessingTransportResponse ==>
                var (w, res) := PT.Await(PT.DriverView(false, false, old(transportResponse)), polls);
                && r == res
                && awaitingTransport == bytes && transportResponse == w.response
                && (r.Raised? ==> r.t == PT.TimeoutThrown && state == TransportRequestReady)
                && (r.Delivered? ==> r.bytes == transportResponse && state == ProcessingTransportResponse)
    {
      if state == ProcessingTransportResponse {
        state := AwaitingTransportRequest;
      }
      if state != AwaitingTransportRequest {
        return PT.Delivered([]);
      }
      var signalled := SignalTransportRequestReady(bytes);
      assert signalled;
      ghost var start := View();
      assert start == PT.DriverView(false, false, old(transportResponse));
      AwaitWithoutCancel(start, polls);
      var i := 0;
      while true
        invariant 0 <= i < |polls|
        invariant Valid() && state == TransportRequestReady
        invariant PT.Await(View(), polls[i..]) == PT.Await(start, polls)
        invariant future == old(future) && card == old(card) && awaitingTransport == bytes
        invariant recentErrorCode == old(recentErrorCode)
        invariant tapProtocolErrorCode == old(tapProtocolErrorCode) && tapProtocolErrorMessage == old(tapProtocolErrorMessage)
        decreases |polls| - i
      {
        assert polls[i..][0] == polls[i] && polls[i..][1..] == polls[i + 1..];
        ApplyDriverActions(polls[i].actions);
        if state != TransportResponseReady && !polls[i].deadlinePassed {
          i := i + 1;
        } else {
          break;
        }
      }
      if state != TransportResponseReady {
        return PT.Raised(PT.TimeoutThrown);
      }
      state := ProcessingTransportResponse;
      r := PT.Delivered(transportResponse);
    }

    /// After the engine has identified the card, further exchanges may follow while it is
    /// converted into a Satscard or a Tapsigner: the thread awaits a request again.
    method ResumeAfterIdentification()
      requires Valid() && future == Running
      modifies this
      ensures Valid() && state == AwaitingTransportRequest
      ensures future == old(future) && card == old(card) && recentErrorCode == old(recentErrorCode)
      ensures awaitingTransport == old(awaitingTransport) && transportResponse == old(transportResponse)
      ensures tapProtocolErrorCode == old(tapProtocolErrorCode) && tapProtocolErrorMessage == old(tapProtocolErrorMessage)
    {
      state := AwaitingTransportRequest;
    }

    /// The end of the runner: the outcome of `Initialize` is classified by `ClassifyInit`, the
    /// card is kept, cleared or left alone, a protocol exception's code and message are kept,
    /// and the future holds the code.
    method RunnerFinish(o: InitOutcome)
      requires Valid() && future == Running
      modifies this
      ensures Valid()
      ensures var (s, code, cleared) := ClassifyInit(o);
              && future == Ready(code)
              && state == (if s.Some? then s.value else old(state))
              && card == (if o.Initialized? then Some(o.card) else if cleared then None else old(card))
      ensures o.ThrewTapProto? ==> tapProtocolErrorCode == o.e.code && tapProtocolErrorMessage == o.e.message
      ensures !o.ThrewTapProto? ==>
                tapProtocolErrorCode == old(tapProtocolErrorCode) && tapProtocolErrorMessage == old(tapProtocolErrorMessage)
      ensures recentErrorCode == old(recentErrorCode)
      ensures awaitingTransport == old(awaitingTransport) && transportResponse == old(transportResponse)
    {
      match o
      case Initialized(c) =>
        card := Some(c);
        state := Finished;
        future := Ready(Success);
      case ThrewTapProto(e) =>
        card := None;
        tapProtocolErrorCode := e.code;
        tapProtocolErrorMessage := e.message;
        state := TapProtocolError;
        future := Ready(ThreadEncounterTapProtocolError);
      case ThrewRuntimeError =>
        card := None;
        state := Timeout;
        future := Ready(ThreadTimeoutDuringTransport);
      case ThrewOther =>
        future := Ready(UnknownErrorDuringInitialization);
    }

    /// `IsTapsigner`, reading the card only when there is one: the kind of the produced card
    /// once the runner has ended, nothing otherwise.
    function IsTapsigner(): (r: Option<bool>)
      reads this
      ensures r.Some? <==> IsTapCardSafeToAccess() && card.Some?
      ensures r.Some? ==> r.value == card.value.isTapsigner
    {
      if IsTapCardSafeToAccess() && card.Some? then Some(card.value.isTapsigner) else None
    }

    /// `ReleaseSatscard`: once the runner has ended, the produced card moves out when it is a
    /// Satscard; otherwise nothing is released and nothing changes.
    method ReleaseSatscard() returns (released: Option<Card>)
      modifies this
      ensures released.Some? <==> old(IsTapCardSafeToAccess()) && old(card).Some? && !old(card).value.isTapsigner
      ensures released.Some? ==> released == old(card) && card == None
      ensures released.None? ==> card == old(card)
      ensures future == old(future) && state == old(state) && recentErrorCode == old(recentErrorCode)
      ensures awaitingTransport == old(awaitingTransport) && transportResponse == old(transportResponse)
      ensures tapProtocolErrorCode == old(tapProtocolErrorCode) && tapProtocolErrorMessage == old(tapProtocolErrorMessage)
    {
      if IsTapCardSafeToAccess() {
        var (taken, rest) := TapCardVectors.DynamicPointerCast(card, false);
        released, card := taken, rest;
      } else {
        released := None;
      }
    }

    /// `ReleaseTapsigner`: as `ReleaseSatscard`, for a Tapsigner.
    method ReleaseTapsigner() returns (released: Option<Card>)
      modifies this
      ensures released.Some? <==> old(IsTapCardSafeToAccess()) && old(card).Some? && old(card).value.isTapsigner
      ensures released.Some? ==> released == old(card) && card == None
      ensures released.None? ==> card == old(card)
      ensures future == old(future) && state == old(state) && recentErrorCode == old(recentErrorCode)
      ensures awaitingTransport == old(awaitingTransport) && transportResponse == old(transportResponse)
      ensures tapProtocolErrorCode == old(tapProtocolErrorCode) && tapProtocolErrorMessage == old(tapProtocolErrorMessage)
    {
      if IsTapCardSafeToAccess() {
        var (taken, rest) := TapCardVectors.DynamicPointerCast(card, true);
        released, card := taken, rest;
      } else {
        released := None;
      }
    }
  }

  /// `CreateNew`: a plain `new` and the launch of the runner. The plain `new` never gives null
  /// (it throws instead, and so does a failed launch; `BeginInitialization` models that escape),
  /// so the `if (protocol)` test always passes and a fresh thread with a running future is
  /// returned. `runnerStarted` is whether the runner's first step has already run when the
  /// caller looks at the thread.
  method CreateNew(runnerStarted: bool) returns (t: LegacyTapProtocolThread)
    ensures fresh(t) && t.Valid() && t.future == Running && t.card == None
    ensures t.state == (if runnerStarted then AwaitingTransportRequest else NotStarted)
    ensures t.recentErrorCode == (if runnerStarted then ThreadNotYetStarted else Success)
    ensures t.tapProtocolErrorCode == 0 && t.tapProtocolErrorMessage == []
    ensures t.awaitingTransport == [] && t.transportResponse == []
  {
    t := new LegacyTapProtocolThread();
    t.future := Running;
    if runnerStarted {
      t.RunnerStart();
    }
  }

  /// A runner that ends with a timeout leaves the thread in `Timeout` with the card cleared, a
  /// state in which `IsTapsigner` as written dereferences the null card. The run: creation, the
  /// first request, a wait in which the driver never finalises, and the classification of the
  /// resulting `std::runtime_error`.
  method TimeoutThenIsTapsignerAsWritten(request: seq<Byte>) returns (r: KindRead)
    ensures r == NullDereference
  {
    var t := CreateNew(true);
    var polls := [PT.Poll([], true)];
    var result := t.Transport(request, polls);
    assert result == PT.Raised(PT.TimeoutThrown);
    t.RunnerFinish(ThrewRuntimeError);
    r := IsTapsignerAsWritten(t.state, t.card);
  }

  /// The corrected `IsTapsigner` gives the card's kind wherever the code as written does, and
  /// gives no value exactly where the code as written gives none or would dereference null.
  lemma IsTapsignerCorrected(t: LegacyTapProtocolThread)
    ensures IsTapsignerAsWritten(t.state, t.card).Kind? <==> t.IsTapsigner().Some?
    ensures IsTapsignerAsWritten(t.state, t.card).Kind? ==>
              t.IsTapsigner() == Some(IsTapsignerAsWritten(t.state, t.card).isTapsigner)
  {
  }
}
