/// The protocol thread of the current bridge (src/cpp/internal/tap_protocol_thread.{h,cpp}).
///
/// The C++ object is shared between a background runner (started with `std::async`) and the
/// driver on the Flutter side, which polls the thread state. Here the runner's work is a series
/// of atomic steps on the object: start, enter the handshake, one call of the transport callback,
/// and completion with an outcome. The transport callback's wait loop is a series of polls, each
/// carrying the driver calls that happened during one sleep and whether the deadline had passed
/// when the clock was read.
module ProtocolThread {
  import opened Wrappers
  import opened Enums
  import opened Engine
  import opened CardOperations
  import TapCardVectors

  /// What a launched runner is executing: a handshake with a card-type hint, or a command on a
  /// card that was locked when the command began.
  datatype Job = Handshake(hint: int) | CardJob(op: CardOperation, card: Card)

  /// `std::future<CKTapInterfaceErrorCode>`: not valid, attached to a runner still at work, or
  /// holding the runner's code until `get` consumes it.
  datatype Future = NoFuture | Running(job: Job) | Ready(code: InterfaceErrorCode)

  /// The exceptions a runner can end with.
  datatype Thrown =
    | Cancelation
    | TimeoutThrown
    | TransportThrown
    | TapProtoThrown(e: TapProtoException)
    | OtherThrown

  /// How the runner's body ended: it returned a code or threw.
  datatype JobOutcome = Completed(code: InterfaceErrorCode) | Threw(t: Thrown)

  /// The classification at the end of `_startAsyncCardOperation`: every outcome becomes exactly
  /// one terminal state and one code. The state is `finished` exactly when the code is success,
  /// and each exception kind has its own fail state, except that an unknown exception shares
  /// `failed` with a returned error code.
  function Classify(o: JobOutcome): (r: (ThreadState, InterfaceErrorCode))
    ensures r.0 == Finished || r.0.IsFailState()
    ensures r.0 == Finished <==> r.1 == Success
    ensures o.Completed? ==> r.1 == o.code
    ensures o.Threw? ==> r.1 != Success
    ensures r.0 == Canceled <==> o == Threw(Cancelation)
    ensures r.0 == Timeout <==> o == Threw(TimeoutThrown)
    ensures r.0 == TransportException <==> o == Threw(TransportThrown)
    ensures r.0 == TapProtocolError <==> o.Threw? && o.t.TapProtoThrown?
    ensures r.0 == Failed <==> o == Threw(OtherThrown) || (o.Completed? && o.code != Success)
  {
    match o
    case Completed(code) => if code == Success then (Finished, code) else (Failed, code)
    case Threw(Cancelation) => (Canceled, OperationCanceled)
    case Threw(TimeoutThrown) => (Timeout, TimeoutDuringTransport)
    case Threw(TransportThrown) => (TransportException, InvalidThreadStateDuringTransportSignaling)
    case Threw(TapProtoThrown(_)) => (TapProtocolError, CaughtTapProtocolException)
    case Threw(OtherThrown) => (Failed, UnknownErrorDuringAsyncOperation)
  }

  /// The handshake's validation of the constructed card against the caller's hint: a Satscard
  /// hint needs a card that is not a Tapsigner, a Tapsigner hint needs a Tapsigner, the unknown
  /// hint takes any card, and no other hint value takes anything.
  predicate HintAccepts(hint: int, produced: Option<Card>)
    ensures HintAccepts(hint, produced) <==>
              produced.Some? && (hint == UnknownCard.Value() || TypeOfCard(produced.value).Value() == hint)
  {
    && produced.Some?
    && ((hint == Satscard.Value() && !produced.value.isTapsigner)
        || (hint == Tapsigner.Value() && produced.value.isTapsigner)
        || hint == UnknownCard.Value())
  }

  /// A hint that names no card type rejects every card, even though `makeTapCardType` would
  /// have read it as the unknown type.
  lemma UnnamedHintRejectsEveryCard(hint: int, produced: Option<Card>)
    requires hint !in {UnknownCard.Value(), Satscard.Value(), Tapsigner.Value()}
    ensures !HintAccepts(hint, produced)
  {
    if produced.Some? {
      var t := TypeOfCard(produced.value);
      assert t.Value() in {UnknownCard.Value(), Satscard.Value(), Tapsigner.Value()};
    }
  }

  // ---------------------------------------------------------------------------------------------
  // The transport wait, as seen from the runner.

  /// What the runner's wait loop can observe: whether the driver has finalised the response,
  /// the cancel flag, and the response buffer.
  datatype DriverView = DriverView(ready: bool, cancel: bool, response: seq<Byte>)

  /// A driver call made while the runner waits: `requestCancel`, sizing the response buffer and
  /// writing the response into it, or `finalizeTransportResponse`.
  datatype DriverAction = RequestCancel | Supply(data: seq<Byte>) | Finalize

  /// One driver call's effect on the view. Sizing the buffer and finalising act only while the
  /// request is ready and no response has been finalised yet.
  function Effect(v: DriverView, a: DriverAction): (w: DriverView)
    ensures v.ready ==> w.ready && w.response == v.response
    ensures w.cancel == (v.cancel || a == RequestCancel)
    ensures a.Supply? && !v.ready ==> w == v.(response := a.data)
  {
    match a
    case RequestCancel => v.(cancel := true)
    case Supply(data) => if v.ready then v else v.(response := data)
    case Finalize => v.(ready := true)
  }

  /// The effect of a series of driver calls, in order.
  function ApplyAll(v: DriverView, actions: seq<DriverAction>): DriverView
    decreases |actions|
  {
    if |actions| == 0 then v else ApplyAll(Effect(v, actions[0]), actions[1..])
  }

  /// A response finalised before a series of driver calls survives them unchanged, and without
  /// a `Finalize` among them a response that was not ready stays not ready.
  lemma {:induction false} ApplyAllReady(v: DriverView, actions: seq<DriverAction>)
    ensures v.ready ==> ApplyAll(v, actions).ready && ApplyAll(v, actions).response == v.response
    ensures (forall k :: 0 <= k < |actions| ==> actions[k] != Finalize) && !v.ready ==> !ApplyAll(v, actions).ready
    ensures ApplyAll(v, actions).cancel == (v.cancel || exists k :: 0 <= k < |actions| && actions[k] == RequestCancel)
    decreases |actions|
  {
    if |actions| > 0 {
      ApplyAllReady(Effect(v, actions[0]), actions[1..]);
      if exists k :: 0 <= k < |actions[1..]| && actions[1..][k] == RequestCancel {
        var k :| 0 <= k < |actions[1..]| && actions[1..][k] == RequestCancel;
        assert actions[k + 1] == RequestCancel;
      }
      if exists k :: 0 <= k < |actions| && actions[k] == RequestCancel {
        var k :| 0 <= k < |actions| && actions[k] == RequestCancel;
        if k > 0 {
          assert actions[1..][k - 1] == RequestCancel;
        }
      }
      if forall k :: 0 <= k < |actions| ==> actions[k] != Finalize {
        assert forall k :: 0 <= k < |actions[1..]| ==> actions[1..][k] == actions[k + 1];
      }
    }
  }

  /// A response in the view after a series of driver calls is either the one before them or the
  /// data of one of the `Supply` calls.
  lemma {:induction false} ApplyAllResponse(v: DriverView, actions: seq<DriverAction>)
    ensures ApplyAll(v, actions).response == v.response
            || exists k :: 0 <= k < |actions| && actions[k] == Supply(ApplyAll(v, actions).response)
    decreases |actions|
  {
    if |actions| > 0 {
      var w := Effect(v, actions[0]);
      ApplyAllResponse(w, actions[1..]);
      var r := ApplyAll(v, actions).response;
      if r != w.response {
        var k :| 0 <= k < |actions[1..]| && actions[1..][k] == Supply(r);
        assert actions[k + 1] == Supply(r);
      } else if r != v.response {
        assert actions[0] == Supply(r);
      }
    }
  }

  /// One iteration of the wait loop: the driver calls made during the sleep, then whether the
  /// clock had passed the deadline.
  datatype Poll = Poll(actions: seq<DriverAction>, deadlinePassed: bool)

  /// The deadline is eventually reached: the last poll sees it passed.
  predicate EndsAtDeadline(polls: seq<Poll>) {
    |polls| > 0 && polls[|polls| - 1].deadlinePassed
  }

  /// What the transport callback gives back to the engine: the response bytes, or an exception.
  datatype TransportResult = Delivered(bytes: seq<Byte>) | Raised(t: Thrown)

  /// The wait loop and what follows it, from the view right after the request was staged: each
  /// iteration first checks the cancel flag, then lets the driver act, then leaves when the
  /// response is finalised or the deadline has passed. A loop left without a response raises a
  /// timeout; otherwise the cancel flag is checked once more and the response is delivered.
  /// The result pairs the final view with the outcome.
  function Await(v: DriverView, polls: seq<Poll>): (DriverView, TransportResult)
    requires EndsAtDeadline(polls)
    decreases |polls|
  {
    if v.cancel then (v, Raised(Cancelation))
    else
      var w := ApplyAll(v, polls[0].actions);
      if !w.ready && !polls[0].deadlinePassed then Await(w, polls[1..])
      else if !w.ready then (w, Raised(TimeoutThrown))
      else if w.cancel then (w, Raised(Cancelation))
      else (w, Delivered(w.response))
  }

  /// The wait's outcome agrees with its final view: a delivery happens only with the response
  /// finalised and no cancel requested, and delivers the final buffer; a cancelation only with
  /// the flag set; a timeout only with no response finalised. The wait never raises anything
  /// else, in particular never the transport-ordering exception.
  lemma {:induction false} AwaitOutcomeAgreesWithView(v: DriverView, polls: seq<Poll>)
    requires EndsAtDeadline(polls)
    ensures var (w, r) := Await(v, polls);
            && (r.Delivered? ==> w.ready && !w.cancel && r.bytes == w.response)
            && (r == Raised(Cancelation) ==> w.cancel)
            && (r == Raised(TimeoutThrown) ==> !w.ready)
            && (r.Raised? ==> r.t == Cancelation || r.t == TimeoutThrown)
    decreases |polls|
  {
    if !v.cancel {
      var w := ApplyAll(v, polls[0].actions);
      if !w.ready && !polls[0].deadlinePassed {
        AwaitOutcomeAgreesWithView(w, polls[1..]);
      }
    }
  }

  /// Without any `Finalize` from the driver the engine never gets a response: the wait ends
  /// with an exception, a timeout unless the driver asked to cancel.
  lemma {:induction false} NoFinalizeNoResponse(v: DriverView, polls: seq<Poll>)
    requires EndsAtDeadline(polls)
    requires !v.ready && !v.cancel
    requires forall i, k :: 0 <= i < |polls| && 0 <= k < |polls[i].actions| ==>
               polls[i].actions[k] != Finalize && polls[i].actions[k] != RequestCancel
    ensures Await(v, polls).1 == Raised(TimeoutThrown)
    decreases |polls|
  {
    var w := ApplyAll(v, polls[0].actions);
    ApplyAllReady(v, polls[0].actions);
    if !polls[0].deadlinePassed {
      forall i, k | 0 <= i < |polls[1..]| && 0 <= k < |polls[1..][i].actions|
        ensures polls[1..][i].actions[k] != Finalize && polls[1..][i].actions[k] != RequestCancel
      {
        assert polls[1..][i] == polls[i + 1];
      }
      NoFinalizeNoResponse(w, polls[1..]);
    }
  }

  /// A cancel requested before the runner enters the wait ends it with a cancelation, whatever
  /// the driver does afterwards.
  lemma CancelBeforeWaitWins(v: DriverView, polls: seq<Poll>)
    requires EndsAtDeadline(polls) && v.cancel
    ensures Await(v, polls) == (v, Raised(Cancelation))
  {
  }

  /// The bytes delivered to the engine are either what the response buffer held when the wait
  /// began (a finalise without a new response) or the data of one of the driver's writes.
  lemma {:induction false} DeliveredBytesComeFromDriver(v: DriverView, polls: seq<Poll>)
    requires EndsAtDeadline(polls)
    ensures Await(v, polls).1.Delivered? ==>
              Await(v, polls).1.bytes == v.response
              || exists i, k :: 0 <= i < |polls| && 0 <= k < |polls[i].actions| &&
                                polls[i].actions[k] == Supply(Await(v, polls).1.bytes)
    decreases |polls|
  {
    if !v.cancel {
      var w := ApplyAll(v, polls[0].actions);
      ApplyAllResponse(v, polls[0].actions);
      if !w.ready && !polls[0].deadlinePassed {
        DeliveredBytesComeFromDriver(w, polls[1..]);
        var r := Await(v, polls).1;
        if r.Delivered? && r.bytes != w.response {
          var i, k :| 0 <= i < |polls[1..]| && 0 <= k < |polls[1..][i].actions| &&
                      polls[1..][i].actions[k] == Supply(r.bytes);
          assert polls[i + 1].actions[k] == Supply(r.bytes);
        } else if r.Delivered? && r.bytes != v.response {
          var k :| 0 <= k < |polls[0].actions| && polls[0].actions[k] == Supply(r.bytes);
          assert polls[0].actions[k] == Supply(r.bytes);
        }
      }
    }
  }

  // ---------------------------------------------------------------------------------------------
  // The thread object.

  /// TapProtocolThread. The two weak references to registry cards are `Option<Card>`: `None`
  /// for an empty or expired reference.
  class TapProtocolThread {
    var future: Future
    var state: ThreadState
    var shouldCancel: bool
    var recentError: InterfaceErrorCode
    var tapProtoException: TapProtoException
    var pendingTransportRequest: seq<Byte>
    var transportResponse: seq<Byte>
    var constructedCard: Option<Card>
    var satscard: Option<Card>
    var tapsigner: Option<Card>
    var cardOperationResponse: CardResponse

    /// A runner is in flight exactly while the future is attached to it: it is then in one of
    /// the runner states, and the transport loop states only occur while it runs.
    ghost predicate Valid()
      reads this
    {
      && (future.Running? ==> state.IsRunnerState())
      && (state.IsTransportLoopState() ==> future.Running?)
    }

    /// The fields that neither the driver's transport calls nor the transport callback touch.
    ghost function Context(): (Future, InterfaceErrorCode, TapProtoException, Option<Card>, Option<Card>, Option<Card>, CardResponse)
      reads this
    {
      (future, recentError, tapProtoException, constructedCard, satscard, tapsigner, cardOperationResponse)
    }

    /// The part of the object the waiting runner observes.
    function View(): (v: DriverView)
      reads this
      ensures v.ready <==> state == TransportResponseReady
    {
      DriverView(state == TransportResponseReady, shouldCancel, transportResponse)
    }

    /// The initial values of the fields.
    constructor ()
      ensures future == NoFuture && state == NotStarted && !shouldCancel
      ensures recentError == ThreadNotYetStarted && tapProtoException == TapProtoException(0, [])
      ensures pendingTransportRequest == [] && transportResponse == []
      ensures constructedCard == None && satscard == None && tapsigner == None
      ensures cardOperationResponse == DefaultResponse()
      ensures Valid()
    {
      future := NoFuture;
      state := NotStarted;
      shouldCancel := false;
      recentError := ThreadNotYetStarted;
      tapProtoException := TapProtoException(0, []);
      pendingTransportRequest := [];
      transportResponse := [];
      constructedCard := None;
      satscard := None;
      tapsigner := None;
      cardOperationResponse := DefaultResponse();
    }

    /// The state `reset` leaves behind.
    ghost predicate IsFreshlyReset()
      reads this
    {
      && future == NoFuture && state == NotStarted && !shouldCancel && recentError == Pending
      && tapProtoException == TapProtoException(0, [])
      && pendingTransportRequest == [] && transportResponse == []
      && constructedCard == None && satscard == None && tapsigner == None
      && cardOperationResponse == DefaultResponse()
    }

    /// `hasStarted`.
    predicate HasStarted()
      reads this
    {
      state != NotStarted
    }

    /// `hasFinished`.
    predicate HasFinished()
      reads this
    {
      state == Finished
    }

    /// `hasFailed`: later than `finished` in the enum, which is exactly the fail group.
    predicate HasFailed()
      reads this
      ensures HasFailed() <==> state.IsFailState()
    {
      ThreadStateGroups(state);
      state.Ordinal() > Finished.Ordinal()
    }

    /// `isThreadActive`: started and neither finished nor failed, which is waiting for a card
    /// operation or any runner state.
    predicate IsThreadActive()
      reads this
      ensures IsThreadActive() <==> state == AwaitingCardOperation || state.IsRunnerState()
      ensures IsThreadActive() <==> 0 < state.Ordinal() < Finished.Ordinal()
    {
      HasStarted() && !HasFinished() && !HasFailed()
    }

    /// `getTapProtocolException`: the stored exception, only in the protocol-error state.
    function GetTapProtocolException(): (r: Option<TapProtoException>)
      reads this
      ensures r.Some? <==> state == TapProtocolError
      ensures r.Some? ==> r.value == tapProtoException
    {
      if state == TapProtocolError then Some(tapProtoException) else None
    }

    /// `getTransportRequest`: the staged request, only while it is ready for the driver.
    function GetTransportRequest(): (r: Option<seq<Byte>>)
      reads this
      ensures r.Some? <==> state == TransportRequestReady
      ensures r.Some? ==> r.value == pendingTransportRequest
    {
      if state == TransportRequestReady then Some(pendingTransportRequest) else None
    }

    /// `getConstructedCardType`: nothing while the thread is active; otherwise the type of the
    /// constructed card, or the unknown type when there is none.
    function GetConstructedCardType(): (r: Option<CardType>)
      reads this
      ensures r.None? <==> IsThreadActive()
      ensures r == Some(UnknownCard) <==> !IsThreadActive() && constructedCard.None?
      ensures r == Some(Tapsigner) <==> !IsThreadActive() && constructedCard.Some? && constructedCard.value.isTapsigner
    {
      if IsThreadActive() then None
      else if constructedCard.None? then Some(UnknownCard)
      else Some(TypeOfCard(constructedCard.value))
    }

    /// `getResponse<op>`: the stored result when the thread is not active and the variant holds
    /// the alternative of `op`; nothing otherwise. It reads and never changes the object.
    function GetResponse(op: CardOperation): (r: Option<CardResponse>)
      reads this
      ensures r.Some? <==> !IsThreadActive() && cardOperationResponse.Index() == op.Index()
      ensures r.Some? ==> r.value == cardOperationResponse && r.value.Operation() == op
    {
      if IsThreadActive() then None else GetAlternative(cardOperationResponse, op)
    }

    /// `_lockCardForOperation`: the Satscard reference when it is set, else the Tapsigner one.
    function LockCardForOperation(): (r: Option<Card>)
      reads this
      ensures r.Some? <==> satscard.Some? || tapsigner.Some?
      ensures satscard.Some? ==> r == satscard
    {
      if satscard.Some? then satscard else tapsigner
    }

    /// `reset`: refused while the thread is active; otherwise every field returns to its
    /// between-operations value and success is reported.
    method Reset() returns (code: InterfaceErrorCode)
      requires Valid()
      modifies this
      ensures Valid()
      ensures old(IsThreadActive()) ==> code == ThreadAlreadyInUse && unchanged(this)
      ensures !old(IsThreadActive()) ==> code == Success && IsFreshlyReset()
    {
      if IsThreadActive() {
        return ThreadAlreadyInUse;
      }
      future := NoFuture;
      state := NotStarted;
      shouldCancel := false;
      recentError := Pending;
      tapProtoException := TapProtoException(0, []);
      pendingTransportRequest := [];
      transportResponse := [];
      constructedCard := None;
      satscard := None;
      tapsigner := None;
      cardOperationResponse := DefaultResponse();
      code := Success;
    }

    /// `requestCancel`: raises the cancel flag and nothing else.
    method RequestCancel()
      modifies this
      ensures shouldCancel
      ensures Valid() == old(Valid()) && Context() == old(Context()) && state == old(state)
      ensures pendingTransportRequest == old(pendingTransportRequest) && transportResponse == old(transportResponse)
    {
      shouldCancel := true;
    }

    /// `prepareCardOperation` for a Satscard: refused, with nothing changed, while the thread is
    /// active or when the reference has expired; otherwise the reference is kept and the thread
    /// waits for a card operation. The Tapsigner reference is left as it was, so a later
    /// `CKTapCard_Wait` still goes to an earlier Satscard if one is set.
    method PrepareSatscardOperation(card: Option<Card>) returns (ok: bool)
      requires Valid()
      modifies this
      ensures Valid()
      ensures ok <==> !old(IsThreadActive()) && card.Some?
      ensures !ok ==> unchanged(this)
      ensures ok ==> state == AwaitingCardOperation && satscard == card && LockCardForOperation() == card
      ensures ok ==> future == old(future) && tapsigner == old(tapsigner) && shouldCancel == old(shouldCancel)
      ensures ok ==> recentError == old(recentError) && constructedCard == old(constructedCard)
      ensures ok ==> cardOperationResponse == old(cardOperationResponse) && tapProtoException == old(tapProtoException)
      ensures ok ==> pendingTransportRequest == old(pendingTransportRequest) && transportResponse == old(transportResponse)
    {
      if IsThreadActive() || card.None? {
        return false;
      }
      satscard := card;
      state := AwaitingCardOperation;
      ok := true;
    }

    /// `prepareCardOperation` for a Tapsigner: as for a Satscard, keeping the Tapsigner
    /// reference. A Satscard reference left from an earlier operation still takes precedence
    /// when the card is locked for `CKTapCard_Wait`.
    method PrepareTapsignerOperation(card: Option<Card>) returns (ok: bool)
      requires Valid()
      modifies this
      ensures Valid()
      ensures ok <==> !old(IsThreadActive()) && card.Some?
      ensures !ok ==> unchanged(this)
      ensures ok ==> state == AwaitingCardOperation && tapsigner == card
      ensures ok ==> LockCardForOperation() == (if old(satscard).Some? then old(satscard) else card)
      ensures ok ==> future == old(future) && satscard == old(satscard) && shouldCancel == old(shouldCancel)
      ensures ok ==> recentError == old(recentError) && constructedCard == old(constructedCard)
      ensures ok ==> cardOperationResponse == old(cardOperationResponse) && tapProtoException == old(tapProtoException)
      ensures ok ==> pendingTransportRequest == old(pendingTransportRequest) && transportResponse == old(transportResponse)
    {
      if IsThreadActive() || card.None? {
        return false;
      }
      tapsigner := card;
      state := AwaitingCardOperation;
      ok := true;
    }

    /// `_startAsyncCardOperation`, launch part: the state becomes asyncActionStarting and, when
    /// the runner could be launched, the future is attached to it. A failed launch leaves the
    /// old future and reports false.
    method StartAsyncCardOperation(job: Job, launched: bool) returns (ok: bool)
      requires Valid() && !future.Running?
      modifies this
      ensures Valid()
      ensures state == AsyncActionStarting && ok == launched
      ensures future == if launched then Running(job) else old(future)
      ensures shouldCancel == old(shouldCancel) && recentError == old(recentError)
      ensures tapProtoException == old(tapProtoException) && constructedCard == old(constructedCard)
      ensures satscard == old(satscard) && tapsigner == old(tapsigner)
      ensures cardOperationResponse == old(cardOperationResponse)
      ensures pendingTransportRequest == old(pendingTransportRequest) && transportResponse == old(transportResponse)
    {
      state := AsyncActionStarting;
      if launched {
        future := Running(job);
      }
      ok := launched;
    }

    /// `beginCardHandshake`: launches a handshake runner with the given type hint.
    method BeginCardHandshake(hint: int, launched: bool) returns (ok: bool)
      requires Valid() && !future.Running?
      modifies this
      ensures Valid()
      ensures state == AsyncActionStarting && ok == launched
      ensures future == if launched then Running(Handshake(hint)) else old(future)
      ensures shouldCancel == old(shouldCancel) && recentError == old(recentError)
      ensures tapProtoException == old(tapProtoException) && constructedCard == old(constructedCard)
      ensures satscard == old(satscard) && tapsigner == old(tapsigner)
      ensures cardOperationResponse == old(cardOperationResponse)
      ensures pendingTransportRequest == old(pendingTransportRequest) && transportResponse == old(transportResponse)
    {
      ok := StartAsyncCardOperation(Handshake(hint), launched);
    }

    /// `beginCKTapCard_Wait` and the `beginSatscard_*` commands: the card is locked (for `Wait`
    /// the Satscard reference first, then the Tapsigner one; for a Satscard command only the
    /// Satscard reference); with no card nothing happens and false is reported, otherwise a
    /// runner for the command on that card is launched.
    method BeginCardOperation(op: CardOperation, launched: bool) returns (ok: bool)
      requires Valid() && !future.Running?
      modifies this
      ensures Valid()
      ensures var card := if op == CKTapCardWait then old(LockCardForOperation()) else old(satscard);
              && (card.None? ==> !ok && unchanged(this))
              && (card.Some? ==> ok == launched && state == AsyncActionStarting
                                 && future == if launched then Running(CardJob(op, card.value)) else old(future))
      ensures shouldCancel == old(shouldCancel) && recentError == old(recentError)
      ensures tapProtoException == old(tapProtoException) && constructedCard == old(constructedCard)
      ensures satscard == old(satscard) && tapsigner == old(tapsigner)
      ensures cardOperationResponse == old(cardOperationResponse)
      ensures pendingTransportRequest == old(pendingTransportRequest) && transportResponse == old(transportResponse)
    {
      var card := if op == CKTapCardWait then LockCardForOperation() else satscard;
      if card.None? {
        return false;
      }
      ok := StartAsyncCardOperation(CardJob(op, card.value), launched);
    }

    /// `_cancelIfNecessary`: whether it throws a cancelation.
    method CancelIfNecessary() returns (raised: bool)
      ensures raised <==> shouldCancel
    {
      raised := shouldCancel;
    }

    /// The start of `_performHandshake`: the runner announces it waits for the engine's first
    /// request, then checks the cancel flag.
    method PerformHandshakeStart() returns (raised: bool)
      requires Valid() && future.Running? && future.job.Handshake?
      modifies this
      ensures Valid()
      ensures state == AwaitingTransportRequest && raised == shouldCancel
      ensures Context() == old(Context()) && shouldCancel == old(shouldCancel)
      ensures pendingTransportRequest == old(pendingTransportRequest) && transportResponse == old(transportResponse)
    {
      state := AwaitingTransportRequest;
      raised := CancelIfNecessary();
    }

    /// `_signalTransportRequestReady`: only while awaiting a request, the engine's bytes are
    /// staged and the request is made ready; in any other state it throws (false) and changes
    /// nothing.
    method SignalTransportRequestReady(bytes: seq<Byte>) returns (ok: bool)
      requires Valid() && future.Running?
      modifies this
      ensures Valid()
      ensures ok <==> old(state) == AwaitingTransportRequest
      ensures ok ==> pendingTransportRequest == bytes && state == TransportRequestReady
      ensures ok ==> Context() == old(Context()) && shouldCancel == old(shouldCancel) && transportResponse == old(transportResponse)
      ensures !ok ==> unchanged(this)
    {
      if state != AwaitingTransportRequest {
        return false;
      }
      pendingTransportRequest := bytes;
      state := TransportRequestReady;
      ok := true;
    }

    /// `allocateTransportResponseBuffer`: only while a request is ready, the response buffer is
    /// resized to exactly `n` bytes (keeping what fits); otherwise nothing changes.
    method AllocateTransportResponseBuffer(n: nat) returns (ok: bool)
      modifies this
      ensures ok <==> old(state) == TransportRequestReady
      ensures ok ==> transportResponse == Resize(old(transportResponse), n) && |transportResponse| == n
      ensures ok ==> Context() == old(Context()) && state == old(state) && shouldCancel == old(shouldCancel)
      ensures ok ==> pendingTransportRequest == old(pendingTransportRequest)
      ensures !ok ==> unchanged(this)
    {
      if state != TransportRequestReady {
        return false;
      }
      transportResponse := Resize(transportResponse, n);
      ok := true;
    }

    /// `finalizeTransportResponse`: only while a request is ready, the response becomes ready;
    /// otherwise nothing changes.
    method FinalizeTransportResponse() returns (ok: bool)
      requires Valid()
      modifies this
      ensures Valid()
      ensures ok <==> old(state) == TransportRequestReady
      ensures ok ==> state == TransportResponseReady && Context() == old(Context()) && shouldCancel == old(shouldCancel)
      ensures ok ==> pendingTransportRequest == old(pendingTransportRequest) && transportResponse == old(transportResponse)
      ensures !ok ==> unchanged(this)
    {
      if state != TransportRequestReady {
        return false;
      }
      state := TransportResponseReady;
      ok := true;
    }

    /// One driver call made while the runner waits, through the object's own operations. For
    /// `Supply` the driver sizes the buffer and then writes its data through the pointer it got.
    method ApplyDriverAction(a: DriverAction)
      requires Valid() && (state == TransportRequestReady || state == TransportResponseReady)
      modifies this
      ensures Valid() && (state == TransportRequestReady || state == TransportResponseReady)
      ensures View() == Effect(old(View()), a)
      ensures Context() == old(Context()) && pendingTransportRequest == old(pendingTransportRequest)
    {
      match a
      case RequestCancel =>
        RequestCancel();
      case Supply(data) =>
        var ok := AllocateTransportResponseBuffer(|data|);
        if ok {
          transportResponse := data;
        }
      case Finalize =>
        var ok := FinalizeTransportResponse();
    }

    /// The driver calls made during one sleep of the wait loop, in order.
    method ApplyDriverActions(actions: seq<DriverAction>)
      requires Valid() && (state == TransportRequestReady || state == TransportResponseReady)
      modifies this
      ensures Valid() && (state == TransportRequestReady || state == TransportResponseReady)
      ensures View() == ApplyAll(old(View()), actions)
      ensures Context() == old(Context()) && pendingTransportRequest == old(pendingTransportRequest)
    {
      var i := 0;
      while i < |actions|
        invariant 0 <= i <= |actions|
        invariant Valid() && (state == TransportRequestReady || state == TransportResponseReady)
        invariant ApplyAll(View(), actions[i..]) == ApplyAll(old(View()), actions)
        invariant Context() == old(Context()) && pendingTransportRequest == old(pendingTransportRequest)
      {
        ApplyDriverAction(actions[i]);
        assert actions[i..][1..] == actions[i + 1..];
        i := i + 1;
      }
    }

    /// The transport callback the handshake installs in the engine. From asyncActionStarting
    /// (a command's first message) or processingTransportResponse (a further message) it first
    /// returns to awaiting a request; in any other state but that one it hands the engine empty
    /// bytes and changes nothing. Otherwise the request is staged and made ready, and the wait
    /// runs as `Await` describes: the result and the new cancel flag, response buffer and state
    /// are those of `Await`, starting from a not-yet-ready view.
    method Transport(bytes: seq<Byte>, polls: seq<Poll>) returns (r: TransportResult)
      requires Valid() && future.Running?
      requires EndsAtDeadline(polls)
      modifies this
      ensures Valid() && Context() == old(Context())
      ensures old(state) == TransportRequestReady || old(state) == TransportResponseReady ==>
                r == Delivered([]) && unchanged(this)
      ensures !(old(state) == TransportRequestReady || old(state) == TransportResponseReady) ==>
                var (w, res) := Await(DriverView(false, old(shouldCancel), old(transportResponse)), polls);
                && r == res
                && pendingTransportRequest == bytes
                && shouldCancel == w.cancel && transportResponse == w.response
                && state == (if res.Delivered? then ProcessingTransportResponse
                             else if w.ready then TransportResponseReady else TransportRequestReady)
    {
      if state == AsyncActionStarting || state == ProcessingTransportResponse {
        state := AwaitingTransportRequest;
      }
      if state != AwaitingTransportRequest {
        return Delivered([]);
      }
      var signalled := SignalTransportRequestReady(bytes);
      assert signalled;
      ghost var start := View();
      assert start == DriverView(false, old(shouldCancel), old(transportResponse));
      var i := 0;
      while true
        invariant 0 <= i < |polls|
        invariant Valid() && state == TransportRequestReady
        invariant Await(View(), polls[i..]) == Await(start, polls)
        invariant Context() == old(Context()) && pendingTransportRequest == bytes
        decreases |polls| - i
      {
        var raised := CancelIfNecessary();
        if raised {
          return Raised(Cancelation);
        }
        assert polls[i..][0] == polls[i] && polls[i..][1..] == polls[i + 1..];
        ApplyDriverActions(polls[i].actions);
        if state != TransportResponseReady && !polls[i].deadlinePassed {
          i := i + 1;
        } else {
          break;
        }
      }
      if state != TransportResponseReady {
        return Raised(TimeoutThrown);
      }
      var raised := CancelIfNecessary();
      if raised {
        return Raised(Cancelation);
      }
      state := ProcessingTransportResponse;
      r := Delivered(transportResponse);
    }

    /// `_setResponse<op>`: the variant now holds the alternative of `op`, with the given value.
    method SetResponse(op: CardOperation, response: CardResponse)
      requires response.Operation() == op
      modifies this
      ensures cardOperationResponse == response && cardOperationResponse.Index() == op.Index()
      ensures future == old(future) && state == old(state) && shouldCancel == old(shouldCancel)
      ensures recentError == old(recentError) && tapProtoException == old(tapProtoException)
      ensures constructedCard == old(constructedCard) && satscard == old(satscard) && tapsigner == old(tapsigner)
      ensures pendingTransportRequest == old(pendingTransportRequest) && transportResponse == old(transportResponse)
    {
      cardOperationResponse := response;
    }

    /// The end of the runner: the outcome is classified, the state and the future's code are
    /// set accordingly, and a protocol exception is kept for the driver.
    method CompleteJob(o: JobOutcome)
      requires Valid() && future.Running?
      modifies this
      ensures Valid()
      ensures (state, future) == (Classify(o).0, Ready(Classify(o).1))
      ensures tapProtoException == if o.Threw? && o.t.TapProtoThrown? then o.t.e else old(tapProtoException)
      ensures shouldCancel == old(shouldCancel) && recentError == old(recentError)
      ensures constructedCard == old(constructedCard) && satscard == old(satscard) && tapsigner == old(tapsigner)
      ensures cardOperationResponse == old(cardOperationResponse)
      ensures pendingTransportRequest == old(pendingTransportRequest) && transportResponse == old(transportResponse)
    {
      if o.Threw? && o.t.TapProtoThrown? {
        tapProtoException := o.t.e;
      }
      var (s, code) := Classify(o);
      state := s;
      future := Ready(code);
    }

    /// The handshake runner's body once the engine has produced a card (or nothing): a card the
    /// hint accepts is kept and the runner finishes; anything else ends in `failed` with
    /// failedToPerformHandshake (the runner's own invalidCardProduced is overwritten at once).
    method FinishHandshake(produced: Option<Card>)
      requires Valid() && future.Running? && future.job.Handshake?
      modifies this
      ensures Valid()
      ensures var accepted := HintAccepts(old(future).job.hint, produced);
              && state == (if accepted then Finished else Failed)
              && future == Ready(if accepted then Success else FailedToPerformHandshake)
              && constructedCard == (if accepted then produced else old(constructedCard))
      ensures shouldCancel == old(shouldCancel) && recentError == old(recentError)
      ensures tapProtoException == old(tapProtoException) && satscard == old(satscard) && tapsigner == old(tapsigner)
      ensures cardOperationResponse == old(cardOperationResponse)
      ensures pendingTransportRequest == old(pendingTransportRequest) && transportResponse == old(transportResponse)
    {
      // The body's own store of finished or invalidCardProduced is superseded, in the same
      // step, by the state the classification derives from the returned code.
      var code;
      if HintAccepts(future.job.hint, produced) {
        constructedCard := produced;
        code := Success;
      } else {
        code := FailedToPerformHandshake;
      }
      CompleteJob(Completed(code));
    }

    /// A command runner's body once the engine has answered: the answer is stored in the
    /// command's alternative of the result variant and the runner finishes.
    method FinishCardOperation(response: CardResponse)
      requires Valid() && future.Running? && future.job.CardJob? && response.Operation() == future.job.op
      modifies this
      ensures Valid()
      ensures state == Finished && future == Ready(Success) && cardOperationResponse == response
      ensures GetResponse(old(future).job.op) == Some(response)
      ensures shouldCancel == old(shouldCancel) && recentError == old(recentError)
      ensures tapProtoException == old(tapProtoException) && constructedCard == old(constructedCard)
      ensures satscard == old(satscard) && tapsigner == old(tapsigner)
      ensures pendingTransportRequest == old(pendingTransportRequest) && transportResponse == old(transportResponse)
    {
      SetResponse(future.job.op, response);
      CompleteJob(Completed(Success));
    }

    /// A runner whose body threw, at whatever step: classified into its terminal state.
    method AbortJob(t: Thrown)
      requires Valid() && future.Running?
      modifies this
      ensures Valid()
      ensures state == Classify(Threw(t)).0 && future == Ready(Classify(Threw(t)).1)
      ensures tapProtoException == if t.TapProtoThrown? then t.e else old(tapProtoException)
      ensures shouldCancel == old(shouldCancel) && recentError == old(recentError)
      ensures constructedCard == old(constructedCard) && satscard == old(satscard) && tapsigner == old(tapsigner)
      ensures cardOperationResponse == old(cardOperationResponse)
      ensures pendingTransportRequest == old(pendingTransportRequest) && transportResponse == old(transportResponse)
    {
      CompleteJob(Threw(t));
    }

    /// `finalizeOperation`: once the thread has finished or failed and the future still holds
    /// the runner's code, the code is taken out of the future into recentError; otherwise false
    /// and nothing changes. The future is consumed, so a second call reports false.
    method FinalizeOperation() returns (ok: bool)
      requires Valid()
      modifies this
      ensures Valid()
      ensures ok <==> (old(HasFinished()) || old(HasFailed())) && old(future).Ready?
      ensures ok ==> recentError == old(future).code && future == NoFuture && state == old(state)
      ensures ok ==> shouldCancel == old(shouldCancel) && tapProtoException == old(tapProtoException)
      ensures ok ==> constructedCard == old(constructedCard) && satscard == old(satscard) && tapsigner == old(tapsigner)
      ensures ok ==> cardOperationResponse == old(cardOperationResponse)
      ensures ok ==> pendingTransportRequest == old(pendingTransportRequest) && transportResponse == old(transportResponse)
      ensures !ok ==> unchanged(this)
    {
      if (HasFinished() || HasFailed()) && future.Ready? {
        recentError := future.code;
        future := NoFuture;
        return true;
      }
      return false;
    }

    /// `releaseConstructedSatscard`: nothing while the thread is active; otherwise the
    /// constructed card moves out when it is a Satscard and stays put when it is not.
    method ReleaseConstructedSatscard() returns (card: Option<Card>)
      modifies this
      ensures old(IsThreadActive()) ==> card.None? && unchanged(this)
      ensures !old(IsThreadActive()) ==>
                (card, constructedCard) == TapCardVectors.DynamicPointerCast(old(constructedCard), false)
      ensures future == old(future) && state == old(state) && shouldCancel == old(shouldCancel)
      ensures recentError == old(recentError) && tapProtoException == old(tapProtoException)
      ensures satscard == old(satscard) && tapsigner == old(tapsigner)
      ensures cardOperationResponse == old(cardOperationResponse)
      ensures pendingTransportRequest == old(pendingTransportRequest) && transportResponse == old(transportResponse)
    {
      if IsThreadActive() {
        return None;
      }
      var (cast, remaining) := TapCardVectors.DynamicPointerCast(constructedCard, false);
      constructedCard := remaining;
      card := cast;
    }

    /// `releaseConstructedTapsigner`: as for a Satscard, for a Tapsigner.
    method ReleaseConstructedTapsigner() returns (card: Option<Card>)
      modifies this
      ensures old(IsThreadActive()) ==> card.None? && unchanged(this)
      ensures !old(IsThreadActive()) ==>
                (card, constructedCard) == TapCardVectors.DynamicPointerCast(old(constructedCard), true)
      ensures future == old(future) && state == old(state) && shouldCancel == old(shouldCancel)
      ensures recentError == old(recentError) && tapProtoException == old(tapProtoException)
      ensures satscard == old(satscard) && tapsigner == old(tapsigner)
      ensures cardOperationResponse == old(cardOperationResponse)
      ensures pendingTransportRequest == old(pendingTransportRequest) && transportResponse == old(transportResponse)
    {
      if IsThreadActive() {
        return None;
      }
      var (cast, remaining) := TapCardVectors.DynamicPointerCast(constructedCard, true);
      constructedCard := remaining;
      card := cast;
    }
  }

  /// `createNew`: allocation can fail (null); otherwise a new object is reset, which always
  /// succeeds for an object that has not started, so recentError is pending rather than the
  /// declared threadNotYetStarted.
  method CreateNew(allocates: bool) returns (t: TapProtocolThread?)
    ensures t == null <==> !allocates
    ensures t != null ==> fresh(t) && t.Valid() && t.IsFreshlyReset()
  {
    if !allocates {
      return null;
    }
    t := new TapProtocolThread();
    var code := t.Reset();
    assert code == Success;
  }

  /// Right after a reset, only `CKTapCard_Wait` reads a value, the default wait response; every
  /// other command reads nothing, and no protocol exception, request or card type is exposed
  /// except the unknown card type.
  lemma FreshlyResetReads(t: TapProtocolThread, op: CardOperation)
    requires t.IsFreshlyReset()
    ensures t.GetResponse(op).Some? <==> op == CKTapCardWait
    ensures op == CKTapCardWait ==> t.GetResponse(op) == Some(WaitResult(DefaultWaitResponse))
    ensures t.GetTapProtocolException().None? && t.GetTransportRequest().None?
    ensures t.GetConstructedCardType() == Some(UnknownCard)
  {
    DefaultResponseVisibility(op);
  }
}
