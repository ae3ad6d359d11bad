/// The helpers of the earlier bridge generation (src/Internal/Utils.{h,cpp}). The earlier
/// `UpdateVectorWithTapCard` and `dynamic_pointer_cast` are the same code as the current ones and
/// are modelled once, in `TapCardVectors`; the card-type values are those of `Enums.CardType`.
module LegacyUtils {
  import opened Wrappers
  import opened Enums
  import opened Engine
  import Utils
  import TapCardVectors

  /// `IntToTapCardType`: satscard and tapsigner are kept, every other integer is unknown.
  function IntToTapCardType(t: Utils.Int32): (r: CardType)
    ensures r == Satscard <==> t == Satscard.Value()
    ensures r == Tapsigner <==> t == Tapsigner.Value()
    ensures r == UnknownCard <==> t != Satscard.Value() && t != Tapsigner.Value()
  {
    match t
    case 1 => Satscard
    case 2 => Tapsigner
    case _ => UnknownCard
  }

  /// Normalising twice is normalising once, and the earlier normalisation is the current one.
  lemma IntToTapCardTypeIdempotent(t: Utils.Int32)
    ensures IntToTapCardType(IntToTapCardType(t).Value()) == IntToTapCardType(t)
    ensures IntToTapCardType(t) == Utils.MakeTapCardType(t)
  {
  }

  /// `ConstructTapCardHandle`: the index is kept and the type normalised.
  function ConstructTapCardHandle(index: Utils.Int32, t: Utils.Int32): (h: Utils.CardHandle)
    ensures h.index == index && h.cardType == IntToTapCardType(t)
    ensures h == Utils.MakeTapCardHandle(index, t)
  {
    Utils.CardHandle(index, IntToTapCardType(t))
  }

  /// `AllocateCStringFromCpp` with `strdup`: a copy of the string, empty or not.
  function AllocateCStringFromCpp(s: string): (r: Option<string>)
    ensures r.Some? && r.value == s
  {
    Some(s)
  }

  /// The two generations agree on every non-empty string and differ on the empty one, which the
  /// current one turns into a null pointer.
  lemma CStringGenerationsDifferOnlyOnEmpty(s: string)
    ensures s != [] ==> AllocateCStringFromCpp(s) == Utils.AllocateCStringFromCpp(s)
    ensures s == [] ==> AllocateCStringFromCpp(s) != Utils.AllocateCStringFromCpp(s)
  {
  }

  /// The earlier `GetFromTapCard`: the handle is built and the registry chosen by its
  /// normalised type; an unknown type gives the default. Each registry read goes through the
  /// same `processCard` check as the current code.
  function GetFromTapCard<R>(index: Utils.Int32, t: Utils.Int32,
                             satscards: seq<Option<Card>>, tapsigners: seq<Option<Card>>,
                             default: R, getter: Card -> R): (r: R)
    ensures IntToTapCardType(t) == UnknownCard ==> r == default
    ensures !(0 <= index < |if IntToTapCardType(t) == Tapsigner then tapsigners else satscards|) ==> r == default
    ensures r == TapCardVectors.GetFromTapCard(TapCardVectors.RequestAnyCard, index, t, satscards, tapsigners, default, getter)
  {
    var handle := ConstructTapCardHandle(index, t);
    match handle.cardType
    case Satscard => TapCardVectors.ProcessCard(handle, satscards, default, getter)
    case Tapsigner => TapCardVectors.ProcessCard(handle, tapsigners, default, getter)
    case UnknownCard => default
  }

  /// A value is read only from a stored card whose kind is the handle's type, and it is the
  /// getter applied to that card.
  lemma GetFromTapCardReadsMatchingCard<R>(index: Utils.Int32, t: Utils.Int32,
                                           satscards: seq<Option<Card>>, tapsigners: seq<Option<Card>>,
                                           default: R, getter: Card -> R)
    requires GetFromTapCard(index, t, satscards, tapsigners, default, getter) != default
    ensures var cards := if IntToTapCardType(t) == Tapsigner then tapsigners else satscards;
            && IntToTapCardType(t) != UnknownCard
            && 0 <= index < |cards| && cards[index].Some?
            && TypeOfCard(cards[index].value) == IntToTapCardType(t)
            && GetFromTapCard(index, t, satscards, tapsigners, default, getter) == getter(cards[index].value)
  {
  }
}
