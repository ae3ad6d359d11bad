/// Small normalisers and the boundary-crossing copies of the current bridge
/// (src/cpp/internal/utils.cpp). Raw pointers become `Option` values; `malloc` and `strdup`
/// become copies; a reference parameter that the source nulls out becomes a field of a small
/// class that the freeing method modifies.
module Utils {
  import opened Wrappers
  import opened Enums
  import opened Engine

  type Int32 = x: int | -0x8000_0000 <= x < 0x8000_0000

  /// `static_cast<int32_t>` of a size: two's-complement wrap-around.
  function ToInt32(n: nat): (r: Int32)
    ensures n < 0x8000_0000 ==> r == n
    ensures (r - n) % 0x1_0000_0000 == 0
  {
    var m := n % 0x1_0000_0000;
    if m < 0x8000_0000 then m else m - 0x1_0000_0000
  }

  /// `makeTapCardType`: the two known card types are kept, every other integer is unknownCard.
  function MakeTapCardType(t: int): (r: CardType)
    ensures r == Satscard <==> t == Satscard.Value()
    ensures r == Tapsigner <==> t == Tapsigner.Value()
    ensures r == UnknownCard <==> t != Satscard.Value() && t != Tapsigner.Value()
  {
    if t == Satscard.Value() then Satscard
    else if t == Tapsigner.Value() then Tapsigner
    else UnknownCard
  }

  /// Normalising is idempotent and every card type survives its own numeric value.
  lemma MakeTapCardTypeIdempotent(t: int)
    ensures MakeTapCardType(MakeTapCardType(t).Value()) == MakeTapCardType(t)
    ensures forall c: CardType :: MakeTapCardType(c.Value()) == c
  {
  }

  /// CKTapCardHandle.
  datatype CardHandle = CardHandle(index: Int32, cardType: CardType)

  /// `makeTapCardHandle`: the index is kept, the type normalised.
  function MakeTapCardHandle(index: Int32, t: Int32): (h: CardHandle)
    ensures h.index == index
    ensures h.cardType == MakeTapCardType(t)
    ensures h.cardType.Value() == t || h.cardType == UnknownCard
  {
    CardHandle(index, MakeTapCardType(t))
  }

  /// CKTapOperationResponse.
  datatype OperationResponse = OperationResponse(handle: CardHandle, errorCode: InterfaceErrorCode)

  /// `makeTapOperationResponse`, with the defaults its declaration gives: index -1 and an
  /// unknown card.
  function MakeTapOperationResponse(code: InterfaceErrorCode, index: Int32 := -1, t: CardType := UnknownCard): (r: OperationResponse)
    ensures r.errorCode == code
    ensures r.handle == CardHandle(index, t)
  {
    OperationResponse(MakeTapCardHandle(index, t.Value()), code)
  }

  /// `allocateCStringFromCpp`: null for the empty string, a copy otherwise.
  function AllocateCStringFromCpp(s: string): (r: Option<string>)
    ensures r.None? <==> s == []
    ensures r.Some? ==> r.value == s
  {
    if s == [] then None else Some(s)
  }

  /// CBinaryArray: a pointer (absent when null) and a length.
  datatype CBinaryArray = CBinaryArray(ptr: Option<seq<Byte>>, length: Int32)

  /// `allocateCBinaryArrayFromJSON`. `mallocSucceeds` is the outcome of `malloc`: when it
  /// fails the pointer stays null but the length is still set.
  function AllocateCBinaryArrayFromJSON(binary: seq<Byte>, mallocSucceeds: bool): (a: CBinaryArray)
    ensures binary == [] ==> a == CBinaryArray(None, 0)
    ensures binary != [] ==> a.length == ToInt32(|binary|)
    ensures binary != [] && |binary| < 0x8000_0000 ==> a.length == |binary|
    ensures a.ptr.Some? <==> binary != [] && mallocSucceeds
    ensures a.ptr.Some? ==> a.ptr.value == binary
  {
    if binary == [] then CBinaryArray(None, 0)
    else CBinaryArray(if mallocSucceeds then Some(binary) else None, ToInt32(|binary|))
  }

  /// A `char*&` that `freeCString` nulls out.
  class CStringCell {
    var ptr: Option<string>

    constructor (s: Option<string>)
      ensures ptr == s
    {
      ptr := s;
    }
  }

  /// A `CBinaryArray&` that `freeCBinaryArray` resets.
  class CBinaryArrayCell {
    var value: CBinaryArray

    constructor (a: CBinaryArray)
      ensures value == a
    {
      value := a;
    }
  }

  /// `freeCString`: the pointer is null afterwards, and freeing a null pointer changes nothing,
  /// so a second call is a no-op.
  method FreeCString(cell: CStringCell)
    modifies cell
    ensures cell.ptr == None
    ensures old(cell.ptr) == None ==> unchanged(cell)
  {
    if cell.ptr.Some? {
      cell.ptr := None;
    }
  }

  /// `freeCBinaryArray`: a non-null pointer is released and the array reset to {null, 0}; an
  /// array whose pointer is already null is left as it is, length included.
  method FreeCBinaryArray(cell: CBinaryArrayCell)
    modifies cell
    ensures cell.value.ptr == None
    ensures old(cell.value.ptr).Some? ==> cell.value == CBinaryArray(None, 0)
    ensures old(cell.value.ptr).None? ==> unchanged(cell)
  {
    if cell.value.ptr.Some? {
      cell.value := CBinaryArray(None, 0);
    }
  }
}
