/// The result slot of the current bridge (src/cpp/internal/card_operation.h): one operation code
/// per supported card command and a closed sum type whose alternative at index i holds the
/// result of operation i.
module CardOperations {
  import opened Wrappers
  import opened Engine

  /// CardOperation, in declaration order.
  datatype CardOperation =
    | CKTapCardWait
    | SatscardCertificateCheck
    | SatscardGetSlot
    | SatscardListSlots
    | SatscardNew
    | SatscardUnseal
  {
    function Index(): nat {
      match this
      case CKTapCardWait => 0
      case SatscardCertificateCheck => 1
      case SatscardGetSlot => 2
      case SatscardListSlots => 3
      case SatscardNew => 4
      case SatscardUnseal => 5
    }

    /// Whether the command belongs to the Satscard (rather than to every card).
    predicate IsSatscardOnly() {
      !CKTapCardWait?
    }
  }

  /// The operation with a given index, if any.
  function OperationAt(i: int): (r: Option<CardOperation>)
    ensures r.Some? <==> 0 <= i < 6
    ensures r.Some? ==> r.value.Index() == i
  {
    if i == 0 then Some(CKTapCardWait)
    else if i == 1 then Some(SatscardCertificateCheck)
    else if i == 2 then Some(SatscardGetSlot)
    else if i == 3 then Some(SatscardListSlots)
    else if i == 4 then Some(SatscardNew)
    else if i == 5 then Some(SatscardUnseal)
    else None
  }

  /// The indices are exactly 0..5, one per operation.
  lemma OperationIndexRoundTrip(op: CardOperation)
    ensures op.Index() < 6
    ensures OperationAt(op.Index()) == Some(op)
  {
  }

  /// CardResponseVariant: alternative i carries the result type of operation i. GetSlot, New
  /// and Unseal share the slot type but are distinct alternatives, as in a `std::variant`
  /// that lists the same type three times.
  datatype CardResponse =
    | WaitResult(wait: WaitResponse)
    | CertificateCheckResult(checked: bool)
    | GetSlotResult(slot: Slot)
    | ListSlotsResult(slots: seq<Slot>)
    | NewResult(slot: Slot)
    | UnsealResult(slot: Slot)
  {
    /// `variant::index()`.
    function Index(): nat {
      match this
      case WaitResult(_) => 0
      case CertificateCheckResult(_) => 1
      case GetSlotResult(_) => 2
      case ListSlotsResult(_) => 3
      case NewResult(_) => 4
      case UnsealResult(_) => 5
    }

    /// The operation whose result this alternative holds.
    function Operation(): (op: CardOperation)
      ensures op.Index() == Index()
    {
      match this
      case WaitResult(_) => CKTapCardWait
      case CertificateCheckResult(_) => SatscardCertificateCheck
      case GetSlotResult(_) => SatscardGetSlot
      case ListSlotsResult(_) => SatscardListSlots
      case NewResult(_) => SatscardNew
      case UnsealResult(_) => SatscardUnseal
    }
  }

  /// A value-initialised `WaitResponse`.
  const DefaultWaitResponse := WaitResponse(false, 0)

  /// A default-constructed variant holds its first alternative, value-initialised.
  function DefaultResponse(): (r: CardResponse)
    ensures r.Index() == 0 && r.Operation() == CKTapCardWait
  {
    WaitResult(DefaultWaitResponse)
  }

  /// `std::get<index>(variant)` for the index of `op`: the stored value when the variant holds
  /// that alternative, nothing (a caught `bad_variant_access`) otherwise.
  function GetAlternative(v: CardResponse, op: CardOperation): (r: Option<CardResponse>)
    ensures r.Some? <==> v.Index() == op.Index()
    ensures r.Some? ==> r.value == v && r.value.Operation() == op
  {
    if v.Index() == op.Index() then Some(v) else None
  }

  /// Two distinct operations never read the same alternative: the mapping from operation code
  /// to alternative is one-to-one, so a stored result is visible to exactly one operation.
  lemma AlternativeBelongsToOneOperation(v: CardResponse, op1: CardOperation, op2: CardOperation)
    requires GetAlternative(v, op1).Some? && GetAlternative(v, op2).Some?
    ensures op1 == op2
  {
    assert op1.Index() == op2.Index();
  }

  /// Right after a reset only `CKTapCard_Wait` yields a value, the default wait response.
  lemma DefaultResponseVisibility(op: CardOperation)
    ensures GetAlternative(DefaultResponse(), op).Some? <==> op == CKTapCardWait
    ensures op == CKTapCardWait ==> GetAlternative(DefaultResponse(), op) == Some(WaitResult(DefaultWaitResponse))
  {
  }
}
