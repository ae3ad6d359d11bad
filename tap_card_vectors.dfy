/// The card-vector helpers of src/cpp/internal/utils.h: upsert of a card into a vector of owned
/// cards keyed by identity, lookup by handle, and the ownership-transferring
/// `dynamic_pointer_cast`. An owning pointer is an `Option<Card>`; null is `None`.
module TapCardVectors {
  import opened Wrappers
  import opened Enums
  import opened Engine
  import opened Utils

  /// `std::numeric_limits<size_t>::max()` on a 64-bit target: the "no index" answer.
  const InvalidIndex: nat := 0xFFFF_FFFF_FFFF_FFFF

  /// Whether a stored (possibly null) entry holds a card with the given identity.
  predicate HoldsIdent(entry: Option<Card>, ident: string) {
    entry.Some? && entry.value.ident == ident
  }

  /// The first position whose card has the given identity.
  function FirstWithIdent(cards: seq<Option<Card>>, ident: string): (r: Option<nat>)
    ensures r.Some? ==> r.value < |cards| && HoldsIdent(cards[r.value], ident)
    ensures r.Some? ==> forall j :: 0 <= j < r.value ==> !HoldsIdent(cards[j], ident)
    ensures r.None? ==> forall j :: 0 <= j < |cards| ==> !HoldsIdent(cards[j], ident)
    decreases |cards|
  {
    if |cards| == 0 then None
    else if HoldsIdent(cards[0], ident) then Some(0)
    else match FirstWithIdent(cards[1..], ident)
      case Some(i) => Some(i + 1)
      case None => None
  }

  /// The index an upsert of `card` reports: the first entry with the same identity, or the old
  /// length when the card is appended.
  function UpsertIndex(cards: seq<Option<Card>>, card: Card): (i: nat)
    ensures i <= |cards|
    ensures i < |cards| ==> HoldsIdent(cards[i], card.ident)
    ensures forall j :: 0 <= j < i && j < |cards| ==> !HoldsIdent(cards[j], card.ident)
  {
    match FirstWithIdent(cards, card.ident)
    case Some(i) => i
    case None => |cards|
  }

  /// The vector after an upsert: the entry at the reported index holds the card.
  function Upserted(cards: seq<Option<Card>>, card: Card): seq<Option<Card>> {
    var i := UpsertIndex(cards, card);
    if i < |cards| then cards[i := Some(card)] else cards + [Some(card)]
  }

  /// What an upsert does to the vector: the length is kept when an entry with the same identity
  /// exists and grows by one otherwise, the reported entry holds the card, and no other entry
  /// changes.
  lemma UpsertedShape(cards: seq<Option<Card>>, card: Card)
    ensures var i := UpsertIndex(cards, card);
            && (FirstWithIdent(cards, card.ident).Some? ==> |Upserted(cards, card)| == |cards| && i < |cards|)
            && (FirstWithIdent(cards, card.ident).None? ==> |Upserted(cards, card)| == |cards| + 1 && i == |cards|)
            && Upserted(cards, card)[i] == Some(card)
            && forall j :: 0 <= j < |cards| && j != i ==> Upserted(cards, card)[j] == cards[j]
  {
  }

  /// Upserting the same card again reports the same index and changes nothing more.
  lemma {:induction false} UpsertIdempotent(cards: seq<Option<Card>>, card: Card)
    ensures UpsertIndex(Upserted(cards, card), card) == UpsertIndex(cards, card)
    ensures Upserted(Upserted(cards, card), card) == Upserted(cards, card)
  {
    var i := UpsertIndex(cards, card);
    var once := Upserted(cards, card);
    assert HoldsIdent(once[i], card.ident);
    assert forall j :: 0 <= j < i ==> once[j] == cards[j];
    var k := UpsertIndex(once, card);
    assert k == i;
  }

  /// Identities are distinct in the vector.
  predicate DistinctIdents(cards: seq<Option<Card>>) {
    forall i, j :: 0 <= i < j < |cards| && cards[i].Some? && cards[j].Some? ==> cards[i].value.ident != cards[j].value.ident
  }

  /// Upserting keeps the identities in the vector distinct: a card is never stored twice.
  lemma UpsertKeepsIdentsDistinct(cards: seq<Option<Card>>, card: Card)
    requires DistinctIdents(cards)
    ensures DistinctIdents(Upserted(cards, card))
  {
    var i := UpsertIndex(cards, card);
    var u := Upserted(cards, card);
    forall a, b | 0 <= a < b < |u| && u[a].Some? && u[b].Some?
      ensures u[a].value.ident != u[b].value.ident
    {
      if a == i {
        assert b < |cards| && u[b] == cards[b];
        if i < |cards| {
          assert cards[i].value.ident == card.ident;
        } else {
          assert !HoldsIdent(cards[b], card.ident);
        }
      } else if b == i {
        assert u[a] == cards[a] && !HoldsIdent(cards[a], card.ident);
      } else {
        assert u[a] == cards[a] && u[b] == cards[b];
      }
    }
  }

  /// A `std::vector<std::unique_ptr<Card>>` that `UpdateVectorWithTapCard` changes in place.
  class TapCardVector {
    var cards: seq<Option<Card>>

    constructor (initial: seq<Option<Card>>)
      ensures cards == initial
    {
      cards := initial;
    }

    /// `UpdateVectorWithTapCard`: a null card gives InvalidIndex and no change; otherwise the
    /// card replaces the first entry with the same identity, or is appended, and ownership
    /// moves into the vector (the caller's pointer is left null).
    method UpdateVectorWithTapCard(card: Option<Card>) returns (index: nat, remaining: Option<Card>)
      modifies this
      ensures card.None? ==> index == InvalidIndex && cards == old(cards) && remaining == None
      ensures card.Some? ==> index == UpsertIndex(old(cards), card.value) && cards == Upserted(old(cards), card.value)
      ensures card.Some? ==> remaining == None
    {
      if card.None? {
        return InvalidIndex, None;
      }
      var i := 0;
      while i < |cards|
        invariant 0 <= i <= |cards| && cards == old(cards)
        invariant forall j :: 0 <= j < i ==> !HoldsIdent(cards[j], card.value.ident)
      {
        if cards[i].Some? && cards[i].value.ident == card.value.ident {
          cards := cards[i := card];
          return i, None;
        }
        i := i + 1;
      }
      index := |cards|;
      cards := cards + [card];
      remaining := None;
    }
  }

  /// Which registry a `GetFromTapCard` instantiation reads: the Satscard one, the Tapsigner
  /// one, or (for the generic card type) the one the handle's type names.
  datatype Requested = RequestSatscard | RequestTapsigner | RequestAnyCard

  /// The `processCard` lambda: out of range, null, or a card whose kind disagrees with the
  /// handle's type give the default; otherwise the getter's value.
  function ProcessCard<R>(handle: CardHandle, cards: seq<Option<Card>>, default: R, getter: Card -> R): (r: R)
    ensures !(0 <= handle.index < |cards|) ==> r == default
    ensures 0 <= handle.index < |cards| && cards[handle.index].None? ==> r == default
    ensures 0 <= handle.index < |cards| && cards[handle.index].Some? ==>
              r == (if TypeOfCard(cards[handle.index].value) == handle.cardType then getter(cards[handle.index].value) else default)
  {
    if handle.index < 0 || handle.index >= |cards| then default
    else
      var card := cards[handle.index];
      if card.None? then default
      else if (card.value.isTapsigner && handle.cardType != Tapsigner) || (!card.value.isTapsigner && handle.cardType != Satscard) then default
      else getter(card.value)
  }

  /// `GetFromTapCard`: build the handle, then read the registry the instantiation names; the
  /// generic instantiation dispatches on the normalised type and gives the default for an
  /// unknown one.
  function GetFromTapCard<R>(requested: Requested, index: Int32, t: Int32,
                             satscards: seq<Option<Card>>, tapsigners: seq<Option<Card>>,
                             default: R, getter: Card -> R): (r: R)
    ensures requested == RequestAnyCard && MakeTapCardType(t) == UnknownCard ==> r == default
  {
    var handle := MakeTapCardHandle(index, t);
    match requested
    case RequestSatscard => ProcessCard(handle, satscards, default, getter)
    case RequestTapsigner => ProcessCard(handle, tapsigners, default, getter)
    case RequestAnyCard =>
      match handle.cardType
      case Satscard => ProcessCard(handle, satscards, default, getter)
      case Tapsigner => ProcessCard(handle, tapsigners, default, getter)
      case UnknownCard => default
  }

  /// A card upserted into a registry is found again through the handle made of the reported
  /// index and the card's own type, whichever instantiation reads it.
  lemma UpsertThenGet<R>(satscards: seq<Option<Card>>, tapsigners: seq<Option<Card>>, card: Card,
                         default: R, getter: Card -> R)
    requires UpsertIndex(if card.isTapsigner then tapsigners else satscards, card) < 0x8000_0000
    ensures var i := UpsertIndex(if card.isTapsigner then tapsigners else satscards, card);
            var s' := if card.isTapsigner then satscards else Upserted(satscards, card);
            var t' := if card.isTapsigner then Upserted(tapsigners, card) else tapsigners;
            && GetFromTapCard(RequestAnyCard, i, TypeOfCard(card).Value(), s', t', default, getter) == getter(card)
            && GetFromTapCard(if card.isTapsigner then RequestTapsigner else RequestSatscard,
                              i, TypeOfCard(card).Value(), s', t', default, getter) == getter(card)
  {
    var cards := if card.isTapsigner then tapsigners else satscards;
    UpsertedShape(cards, card);
  }

  /// `dynamic_pointer_cast` on a `unique_ptr`: when the object has the requested kind the
  /// source is emptied and the object returned; otherwise nothing is returned and the source
  /// keeps it. Ownership is never duplicated nor lost.
  function DynamicPointerCast(source: Option<Card>, wantTapsigner: bool): (r: (Option<Card>, Option<Card>))
    ensures r.0.Some? <==> source.Some? && source.value.isTapsigner == wantTapsigner
    ensures r.0.Some? ==> r.0 == source && r.1 == None
    ensures r.0.None? ==> r.1 == source
  {
    if source.Some? && source.value.isTapsigner == wantTapsigner then (source, None) else (None, source)
  }

  /// `static_pointer_cast` on a `unique_ptr`: any non-null object moves to the result, whatever
  /// its kind, and the source is emptied; a null source gives null.
  function StaticPointerCast(source: Option<Card>): (r: (Option<Card>, Option<Card>))
    ensures r.0 == source && r.1 == None
  {
    if source.Some? then (source, None) else (None, None)
  }

  /// The checked cast never hands out an object the unchecked one would not, and hands it out
  /// exactly when its kind matches.
  lemma DynamicCastRefinesStaticCast(source: Option<Card>, wantTapsigner: bool)
    ensures DynamicPointerCast(source, wantTapsigner).0.Some? ==>
              DynamicPointerCast(source, wantTapsigner) == StaticPointerCast(source)
    ensures source.Some? && source.value.isTapsigner != wantTapsigner ==>
              DynamicPointerCast(source, wantTapsigner) == (None, source)
  {
  }
}
