/** The frames a channel hands to its multiplexer, and the channel's name. */
module Frames {
  import opened JsValues

  /** The frame types of the wire protocol, as abstract tags (their numeric values are not modelled). */
  datatype Kind = New | InMessage | OutMessage | InClose | OutClose | InReset | OutReset

  /**
   * The JavaScript values that can fill the data slot of a frame, or be
   * compared with it: `undefined` (also an absent slot), `null`, a Buffer
   * holding `bytes`, and a string, held as its UTF-8 bytes.
   */
  datatype Data = Undefined | Null | Buffer(bytes: Bytes) | Text(utf8: Bytes)

  /**
   * JavaScript `a === b` on these values: values of different types are never
   * identical, strings are compared by content, and a Buffer is an object, so
   * a freshly made one is identical to no other value.
   */
  predicate StrictEquals(a: Data, b: Data) {
    match (a, b)
    case (Undefined, Undefined) => true
    case (Null, Null) => true
    case (Text(x), Text(y)) => x == y
    case _ => false
  }

  /** One entry `[id, type, data]` of the multiplexer's outbound queue. */
  datatype Frame = Frame(id: nat, kind: Kind, payload: Data)

  /** The tags used by the side that initiated the stream. */
  predicate InitiatorTag(k: Kind) {
    k.InMessage? || k.InClose? || k.InReset?
  }

  predicate IsMessage(k: Kind) {
    k.InMessage? || k.OutMessage?
  }

  function MessageKind(initiator: bool): Kind {
    if initiator then InMessage else OutMessage
  }

  function CloseKind(initiator: bool): Kind {
    if initiator then InClose else OutClose
  }

  function ResetKind(initiator: bool): Kind {
    if initiator then InReset else OutReset
  }

  /**
   * A channel's `name` option: absent, a string (held as its UTF-8 bytes,
   * which is what `Buffer.from` makes of it), or a Buffer.
   */
  datatype Name = NoName | Str(utf8: Bytes) | Buf(data: Bytes)

  /**
   * The local `name` of `openChan`: a truthy name that is not a Buffer is
   * converted with `Buffer.from`; otherwise it stays `undefined`.
   */
  function ConvertedName(name: Name): (d: Data)
    ensures d.Buffer? || d.Undefined?
    ensures d.Buffer? <==> name.Str? && |name.utf8| > 0
    ensures d.Buffer? ==> d.bytes == name.utf8
  {
    if name.Str? && name.utf8 != [] then Buffer(name.utf8) else Undefined
  }

  /**
   * The data slot of the NEW frame: the converted name unless it is identical
   * to the string form of the id, in which case `null`. A Buffer or
   * `undefined` is never identical to a string, so the converted name is
   * always what is sent and the `null` branch is never taken.
   */
  function NewPayload(id: nat, name: Name): (p: Data)
    ensures p == ConvertedName(name)
    ensures !p.Null?
  {
    var converted := ConvertedName(name);
    if !StrictEquals(converted, Text(Decimal(id))) then converted else Null
  }

  /** The ASCII digits of `r`, most significant first, read as a number. */
  function DigitsValue(r: Bytes): nat {
    if r == [] then 0
    else
      var d := r[|r| - 1] as int - 48;
      DigitsValue(r[..|r| - 1]) * 10 + (if 0 <= d then d else 0)
  }

  /** The ASCII bytes of the decimal notation of `n`, i.e. `n.toString()`. */
  function Decimal(n: nat): (r: Bytes)
    ensures |r| > 0
    ensures forall i :: 0 <= i < |r| ==> 48 <= r[i] <= 57
    ensures DigitsValue(r) == n
    ensures r[0] == 48 ==> n == 0 && |r| == 1
  {
    if n < 10 then [(48 + n) as byte]
    else
      var init := Decimal(n / 10);
      var r := init + [(48 + n % 10) as byte];
      assert r[..|r| - 1] == init;
      r
  }

  /** The tag helpers put the initiator on the `IN_*` side and everyone else on the `OUT_*` side. */
  lemma TagsFollowInitiator(initiator: bool)
    ensures InitiatorTag(MessageKind(initiator)) == initiator && IsMessage(MessageKind(initiator))
    ensures InitiatorTag(CloseKind(initiator)) == initiator && CloseKind(initiator) in {InClose, OutClose}
    ensures InitiatorTag(ResetKind(initiator)) == initiator && ResetKind(initiator) in {InReset, OutReset}
  {
  }

  /**
   * A channel whose name is the decimal string of its id still announces that
   * name: the comparison meant to omit it never succeeds.
   */
  lemma DefaultNameIsSent(id: nat)
    ensures NewPayload(id, Str(Decimal(id))) == Buffer(Decimal(id))
  {
  }

  /** A name given as a Buffer is never announced. */
  lemma BufferNameIsDropped(id: nat, b: Bytes)
    ensures NewPayload(id, Buf(b)) == Undefined
  {
  }
}
