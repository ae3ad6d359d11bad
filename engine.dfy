/// The parts of the external protocol engine that the bridge touches, reduced to values. The
/// engine itself (command encoding, authentication, response parsing) is not modelled: a card is
/// its identity and whether it reports itself as a Tapsigner, and every engine call is an opaque
/// outcome supplied by the caller of the model.
module Engine {
  import opened Enums

  type Byte = b: int | 0 <= b < 256

  /// A card session. `isTapsigner` is what `IsTapsigner()` reports; it also stands for the
  /// object's dynamic kind (Tapsigner or Satscard), which is the same for every card the bridge
  /// keeps.
  datatype Card = Card(ident: string, isTapsigner: bool)

  /// The card type a constructed card reports.
  function TypeOfCard(c: Card): (t: CardType)
    ensures t != UnknownCard
    ensures t == Tapsigner <==> c.isTapsigner
  {
    if c.isTapsigner then Tapsigner else Satscard
  }

  /// A Satscard slot as far as the bridge looks at it.
  datatype Slot = Slot(index: nat, status: SlotStatus, address: string)

  /// The engine's answer to `Wait`.
  datatype WaitResponse = WaitResponse(success: bool, authDelay: int)

  /// The engine's structured failure: a numeric code and a message.
  datatype TapProtoException = TapProtoException(code: int, message: string)

  /// `std::vector<uint8_t>::resize(n)`: the first bytes are kept, new bytes are zero.
  function Resize(s: seq<Byte>, n: nat): (r: seq<Byte>)
    ensures |r| == n
    ensures forall i :: 0 <= i < n && i < |s| ==> r[i] == s[i]
    ensures forall i :: |s| <= i < n ==> r[i] == 0
  {
    if n <= |s| then s[..n] else s + seq(n - |s|, _ => 0)
  }
}
