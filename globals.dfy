/// The card registries of src/cpp/internal/globals.h. A registry is a vector of wrappers, each
/// sharing ownership of one card; a Satscard wrapper also caches the slots read from the card.
/// `updateVectorWithCard` upserts by identity and `accessCard` runs a callback on one wrapper,
/// turning the callback's result or exception into an interface status.
module Globals {
  import opened Wrappers
  import opened Enums
  import opened Engine
  import opened Utils
  import TapCardVectors

  /// SatscardWrapper / TapsignerWrapper. A wrapper is only ever built around a card, so the
  /// card is present; a Tapsigner wrapper keeps no slots.
  datatype CardWrapper = CardWrapper(card: Card, slots: seq<Option<Slot>>)

  /// The wrapper the upsert builds: the card and no cached slots.
  function FreshWrapper(card: Card): (w: CardWrapper)
    ensures w.card == card && w.slots == []
  {
    CardWrapper(card, [])
  }

  /// The cards of a registry, as the owning-pointer vector the upsert theory speaks about.
  function CardsOf(entries: seq<CardWrapper>): (cards: seq<Option<Card>>)
    ensures |cards| == |entries|
    ensures forall i :: 0 <= i < |entries| ==> cards[i] == Some(entries[i].card)
  {
    seq(|entries|, i requires 0 <= i < |entries| => Some(entries[i].card))
  }

  /// The registry after upserting `card`: the wrapper at the upsert index is replaced by a fresh
  /// one, or a fresh one is appended.
  function UpsertedEntries(entries: seq<CardWrapper>, card: Card): seq<CardWrapper> {
    var i := TapCardVectors.UpsertIndex(CardsOf(entries), card);
    if i < |entries| then entries[i := FreshWrapper(card)] else entries + [FreshWrapper(card)]
  }

  /// Upserting a wrapper registry does to its cards exactly what the owning-pointer upsert does,
  /// and the replaced wrapper loses its cached slots; every other wrapper is untouched.
  lemma UpsertedEntriesShape(entries: seq<CardWrapper>, card: Card)
    ensures var i := TapCardVectors.UpsertIndex(CardsOf(entries), card);
            && CardsOf(UpsertedEntries(entries, card)) == TapCardVectors.Upserted(CardsOf(entries), card)
            && UpsertedEntries(entries, card)[i] == FreshWrapper(card)
            && (forall j :: 0 <= j < |entries| && j != i ==> UpsertedEntries(entries, card)[j] == entries[j])
            && (exists j :: 0 <= j < |entries| && entries[j].card.ident == card.ident) ==>
                 |UpsertedEntries(entries, card)| == |entries| && i < |entries|
  {
    var i := TapCardVectors.UpsertIndex(CardsOf(entries), card);
    var u := UpsertedEntries(entries, card);
    var c := TapCardVectors.Upserted(CardsOf(entries), card);
    TapCardVectors.UpsertedShape(CardsOf(entries), card);
    assert |CardsOf(u)| == |c|;
    forall j | 0 <= j < |c|
      ensures CardsOf(u)[j] == c[j]
    {
    }
    if exists j :: 0 <= j < |entries| && entries[j].card.ident == card.ident {
      var j :| 0 <= j < |entries| && entries[j].card.ident == card.ident;
      assert TapCardVectors.HoldsIdent(CardsOf(entries)[j], card.ident);
    }
  }

  /// A process-wide vector of wrappers (`g_satscards` or `g_tapsigners`), passed explicitly.
  class CardRegistry {
    /// Whether this is the Satscard registry; it decides which "unknown handle" code is reported.
    const holdsSatscards: bool
    var entries: seq<CardWrapper>

    constructor (holdsSatscards: bool)
      ensures this.holdsSatscards == holdsSatscards && entries == []
    {
      this.holdsSatscards := holdsSatscards;
      entries := [];
    }

    /// `updateVectorWithCard`: a null card reports InvalidIndex and changes nothing; otherwise
    /// the first wrapper holding a card of the same identity is replaced by a fresh wrapper, or a
    /// fresh wrapper is appended, and the index of the new wrapper is reported.
    method UpdateVectorWithCard(card: Option<Card>) returns (index: nat)
      modifies this
      ensures card.None? ==> index == TapCardVectors.InvalidIndex && entries == old(entries)
      ensures card.Some? ==> index == TapCardVectors.UpsertIndex(CardsOf(old(entries)), card.value)
      ensures card.Some? ==> entries == UpsertedEntries(old(entries), card.value)
    {
      if card.None? {
        return TapCardVectors.InvalidIndex;
      }
      index := 0;
      while index < |entries|
        invariant 0 <= index <= |entries| && entries == old(entries)
        invariant forall j :: 0 <= j < index ==> !TapCardVectors.HoldsIdent(CardsOf(entries)[j], card.value.ident)
      {
        if entries[index].card.ident == card.value.ident {
          assert TapCardVectors.HoldsIdent(CardsOf(entries)[index], card.value.ident);
          entries := entries[index := FreshWrapper(card.value)];
          return;
        }
        index := index + 1;
      }
      entries := entries + [FreshWrapper(card.value)];
    }

    /// `accessCard`: an index outside the registry reports the registry's unknown-handle code,
    /// leaves the registry alone and does not run the callback; otherwise the callback runs on
    /// the wrapper, whatever it changed in the wrapper stays, and its outcome becomes the status.
    method AccessCard(index: Int32, callback: CardWrapper -> CallbackOutcome) returns (status: InterfaceStatus)
      modifies this
      ensures !(0 <= index < |old(entries)|) ==>
                status == InterfaceStatus(if holdsSatscards then UnknownSatscardHandle else UnknownTapsignerHandle, None)
                && entries == old(entries)
      ensures 0 <= index < |old(entries)| ==>
                status == StatusOf(callback(old(entries)[index]))
                && entries == old(entries)[index := callback(old(entries)[index]).after]
    {
      if index < 0 || index >= |entries| {
        return InterfaceStatus(if holdsSatscards then UnknownSatscardHandle else UnknownTapsignerHandle, None);
      }
      var outcome := callback(entries[index]);
      entries := entries[index := outcome.after];
      status := StatusOf(outcome);
    }
  }

  /// What a callback passed to `accessCard` does: return a code, throw a protocol exception or
  /// throw anything else. In every case the wrapper it was given may have been changed.
  datatype CallbackOutcome =
    | Returned(code: InterfaceErrorCode, after: CardWrapper)
    | ThrewTapProto(e: TapProtoException, after: CardWrapper)
    | ThrewOther(after: CardWrapper)

  /// CKTapInterfaceStatus: an error code and, for a caught protocol exception, that exception.
  datatype InterfaceStatus = InterfaceStatus(errorCode: InterfaceErrorCode, exception: Option<TapProtoException>)

  /// The status `accessCard` builds from a callback outcome.
  function StatusOf(o: CallbackOutcome): (s: InterfaceStatus)
    ensures s.exception.Some? <==> o.ThrewTapProto?
    ensures o.ThrewTapProto? ==> s.errorCode == CaughtTapProtocolException && s.exception == Some(o.e)
    ensures o.Returned? ==> s.errorCode == o.code
    ensures o.ThrewOther? ==> s.errorCode == UnknownErrorDuringTapProtocolFunction
  {
    match o
    case Returned(code, _) => InterfaceStatus(code, None)
    case ThrewTapProto(e, _) => InterfaceStatus(CaughtTapProtocolException, Some(e))
    case ThrewOther(_) => InterfaceStatus(UnknownErrorDuringTapProtocolFunction, None)
  }

  /// The slot cache after storing `slot`: the cache grows (with empty entries) to reach the
  /// slot's index when it is too short, the slot is stored at its index, and nothing else
  /// changes.
  function StoreSlot(slots: seq<Option<Slot>>, slot: Slot): (r: seq<Option<Slot>>)
    ensures |r| == if slot.index < |slots| then |slots| else slot.index + 1
    ensures r[slot.index] == Some(slot)
    ensures forall j :: 0 <= j < |slots| && j != slot.index ==> r[j] == slots[j]
    ensures forall j :: |slots| <= j < |r| && j != slot.index ==> r[j] == None
  {
    var grown := if slot.index >= |slots| then slots + seq(slot.index + 1 - |slots|, _ => None) else slots;
    grown[slot.index := Some(slot)]
  }

  /// Storing the same slot twice is the same as storing it once, and a later read of the slot's
  /// index finds it.
  lemma StoreSlotIdempotent(slots: seq<Option<Slot>>, slot: Slot)
    ensures StoreSlot(StoreSlot(slots, slot), slot) == StoreSlot(slots, slot)
  {
    var once := StoreSlot(slots, slot);
    var twice := StoreSlot(once, slot);
    assert |twice| == |once|;
    forall j | 0 <= j < |once|
      ensures twice[j] == once[j]
    {
    }
  }
}
